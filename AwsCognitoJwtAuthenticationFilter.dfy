/** `AwsCognitoJwtAuthenticationFilter`: a bearer token issued by the
    Cognito user pool authenticates the request as the stored user with the
    token's email. A user is meant to be created on first sight, but the
    new `User` is saved without its `@Id` (which has no generator), so the
    save always throws and the exception is swallowed: see `SignInSpec`
    and the corrected `SignInAssigningId`.

    The JWT library is outside the model: `decode` stands for `JWT.decode`
    followed by `getKeyId` (`None` when either throws or there is no key
    id), and `verify` for the RS256 verifier built for the pool's issuer
    (`None` when verification throws). */
module AwsCognitoJwtAuthenticationFilter {
  import opened Common
  import opened Domain
  import opened Security
  import JwkProvider

  /** The claims of a verified token: `email` and `cognito:username`, which
      the filter reads, and the subject `sub`, which a corrected creation
      uses as the new user's id. */
  datatype Claims = Claims(email: string, username: string, subject: string)

  /** `extractToken`. */
  function ExtractToken(request: Request): Option<string>
  {
    BearerToken(Header(request, "Authorization"))
  }

  /** `shouldNotFilter`: the sign-in endpoints are not filtered. */
  function ShouldNotFilter(request: Request): bool
  {
    StartsWith(request.path, "/api/auth/")
  }

  /** The ids of the stored users with `email`; `findByEmail` answers the one
      user when there is exactly one and throws when there are several. */
  function EmailKeys(users: map<string, User>, email: string): set<string>
  {
    set k | k in users && users[k].email == email
  }

  ghost function TheKey(keys: set<string>): (k: string)
    requires |keys| == 1
    ensures k in keys
  {
    var k :| k in keys; k
  }

  lemma SingletonHasOne(keys: set<string>, a: string, b: string)
    requires |keys| == 1 && a in keys && b in keys
    ensures a == b
  {
    var rest := keys - {a};
    assert |rest| == 0;
    assert b !in rest;
  }

  /** The user a newly seen email becomes: that email, the token's
      `cognito:username` and the role `USER`, stored under `id`. */
  function NewUser(claims: Claims, id: string, now: Time): User
  {
    User(id, claims.username, claims.email, Regular, now)
  }

  /** What one run of `doFilterInternal` leaves behind: the request's
      authentication and the key cache. */
  datatype Effect = Effect(authentication: Option<Authentication>, cache: map<string, JwkProvider.PublicKey>)

  /** The step after verification, as written: look the email up and
      authenticate as its one user. An unknown email builds a `User` with no
      id, whose save throws; several users with the email make
      `findByEmail` throw. Either exception is swallowed and leaves the
      context as it was, and the store never changes. */
  ghost function SignInSpec(db: Db, prior: Option<Authentication>, claims: Claims): (r: Option<Authentication>)
    ensures r == prior || SignedInAs(r, db, claims)
    ensures r != prior ==> |EmailKeys(db.users, claims.email)| == 1
  {
    var keys := EmailKeys(db.users, claims.email);
    if |keys| == 1 then Some(UserAuthentication(db.users[TheKey(keys)]))
    else prior
  }

  /** The intended step after verification: an unknown email creates a
      regular user stored under the token's subject and signs in as it. */
  ghost function SignInAssigningId(db: Db, prior: Option<Authentication>, claims: Claims, now: Time)
    : (r: (Option<Authentication>, Db))
    ensures r.1 == db || r.1 == db.(users := db.users[claims.subject := NewUser(claims, claims.subject, now)])
    ensures r.0 == prior || SignedInAs(r.0, r.1, claims)
  {
    var keys := EmailKeys(db.users, claims.email);
    if |keys| == 0 then
      var user := NewUser(claims, claims.subject, now);
      var users := db.users[user.userId := user];
      assert users[user.userId] in users.Values;
      (Some(UserAuthentication(user)), db.(users := users))
    else if |keys| == 1 then
      (Some(UserAuthentication(db.users[TheKey(keys)])), db)
    else (prior, db)
  }

  /** `authentication` is the token of a stored user with the verified email. */
  ghost predicate SignedInAs(authentication: Option<Authentication>, db: Db, claims: Claims)
  {
    authentication.Some? && authentication.value.principal.StoredUser?
    && var user := authentication.value.principal.user;
    authentication.value == UserAuthentication(user) && user in db.users.Values && user.email == claims.email
  }

  /** One run of `doFilterInternal` up to the chain call, on the store
      `db` and the key cache `cache` of the provider reading `url`. */
  ghost function FilterSpec(db: Db, cache: map<string, JwkProvider.PublicKey>, url: string, issuer: string,
                            prior: Option<Authentication>, request: Request,
                            decode: string -> Option<string>,
                            fetch: (string, string) -> Option<JwkProvider.PublicKey>,
                            verify: (string, JwkProvider.PublicKey, string) -> Option<Claims>): (e: Effect)
    ensures ExtractToken(request).None? ==> e == Effect(prior, cache)
    ensures cache.Keys <= e.cache.Keys
  {
    var token := ExtractToken(request);
    if token.None? then Effect(prior, cache)
    else
      var kid := decode(token.value);
      if kid.None? then Effect(prior, cache)
      else
        var lookup := JwkProvider.LookupSpec(cache, url, kid.value, fetch);
        if lookup.key.Err? then Effect(prior, lookup.cache)
        else
          var claims := verify(token.value, lookup.key.value, issuer);
          if claims.None? then Effect(prior, lookup.cache)
          else Effect(SignInSpec(db, prior, claims.value), lookup.cache)
  }

  /** `doFilterInternal`: authenticate when the token checks out, swallow
      every failure, and hand the request on exactly once. The store is read
      and never changed. */
  method DoFilterInternal(run: FilterRun, store: Store, provider: JwkProvider.JwkProvider,
                          region: string, userPoolId: string, request: Request,
                          decode: string -> Option<string>,
                          fetch: (string, string) -> Option<JwkProvider.PublicKey>,
                          verify: (string, JwkProvider.PublicKey, string) -> Option<Claims>)
    modifies run, provider
    ensures run.chainCalls == old(run.chainCalls) + 1
    ensures Effect(run.authentication, provider.keyCache)
         == FilterSpec(store.State(), old(provider.keyCache), provider.url,
                       JwkProvider.CognitoIssuer(region, userPoolId), old(run.authentication), request,
                       decode, fetch, verify)
  {
    var token := ExtractToken(request);
    if token.Some? {
      var kid := decode(token.value);
      if kid.Some? {
        var key := provider.GetPublicKey(kid.value, fetch);
        if key.Ok? {
          var claims := verify(token.value, key.value, JwkProvider.CognitoIssuer(region, userPoolId));
          if claims.Some? {
            SignIn(run, store, claims.value);
          }
        }
      }
    }
    run.Proceed();
  }

  /** The sign-in step of `doFilterInternal`, once the token is verified.
      An unknown email reaches `userRepository.save` with a user whose id is
      null; the save throws before anything is stored, and the catch keeps
      the context as it was. */
  method SignIn(run: FilterRun, store: Store, claims: Claims)
    modifies run
    ensures run.authentication == SignInSpec(store.State(), old(run.authentication), claims)
    ensures run.chainCalls == old(run.chainCalls)
  {
    var keys := set k | k in store.users && store.users[k].email == claims.email;
    assert keys == EmailKeys(store.users, claims.email);
    if |keys| == 1 {
      var k :| k in keys;
      SingletonHasOne(keys, k, TheKey(keys));
      run.SetAuthentication(UserAuthentication(store.users[k]));
    }
  }

  /** Whatever the token, the filter changes the authentication only to the
      token of the one stored user whose email the pool vouched for, with
      the one authority `"ROLE_"` + role. */
  lemma OnlyVerifiedUsersSignIn(db: Db, cache: map<string, JwkProvider.PublicKey>, url: string, issuer: string,
                                prior: Option<Authentication>, request: Request,
                                decode: string -> Option<string>,
                                fetch: (string, string) -> Option<JwkProvider.PublicKey>,
                                verify: (string, JwkProvider.PublicKey, string) -> Option<Claims>)
    ensures var e := FilterSpec(db, cache, url, issuer, prior, request, decode, fetch, verify);
      e.authentication != prior ==>
        var token := ExtractToken(request).value;
        var kid := decode(token).value;
        var key := JwkProvider.LookupSpec(cache, url, kid, fetch).key.value;
        verify(token, key, issuer).Some? && SignedInAs(e.authentication, db, verify(token, key, issuer).value)
        && e.authentication.value.authorities == [Authority(e.authentication.value.principal.user.role)]
  {
  }

  /** A verified token whose email belongs to exactly one stored user signs
      in as that user, both as written and as intended. */
  lemma KnownEmailReusesUser(db: Db, prior: Option<Authentication>, claims: Claims, now: Time, k: string)
    requires k in db.users && EmailKeys(db.users, claims.email) == {k}
    ensures SignInSpec(db, prior, claims) == Some(UserAuthentication(db.users[k]))
    ensures SignInAssigningId(db, prior, claims, now) == (Some(UserAuthentication(db.users[k])), db)
  {
    SingletonHasOne(EmailKeys(db.users, claims.email), k, TheKey(EmailKeys(db.users, claims.email)));
  }

  /** As written, a verified token whose email no stored user has never
      authenticates the request, and no user is created for it. */
  lemma UnknownEmailNeverSignsIn(db: Db, prior: Option<Authentication>, claims: Claims)
    requires forall k :: k in db.users ==> db.users[k].email != claims.email
    ensures SignInSpec(db, prior, claims) == prior
  {
    assert EmailKeys(db.users, claims.email) == {};
  }

  /** As intended, a verified token with an email no stored user has creates
      a regular user under the token's subject, with that email and the
      token's username, and signs in as it. */
  lemma UnknownEmailCreatesUser(db: Db, prior: Option<Authentication>, claims: Claims, now: Time)
    requires forall k :: k in db.users ==> db.users[k].email != claims.email
    ensures var r := SignInAssigningId(db, prior, claims, now);
      var user := r.1.users[claims.subject];
      r.0 == Some(UserAuthentication(user)) && user.email == claims.email && user.username == claims.username
      && user.role == Regular && r.1.users.Keys == db.users.Keys + {claims.subject}
  {
    assert EmailKeys(db.users, claims.email) == {};
  }

  /** Where some stored user has the email, the corrected sign-in is the one
      as written and stores nothing. */
  lemma KnownEmailUnaffected(db: Db, prior: Option<Authentication>, claims: Claims, now: Time)
    requires EmailKeys(db.users, claims.email) != {}
    ensures SignInAssigningId(db, prior, claims, now) == (SignInSpec(db, prior, claims), db)
  {
  }
}
