/** `ClerkAuthFilter`: a Clerk session token authenticates the request as
    the stored user whose id is the token's subject. The verification in
    `verifyAndGetClerkUserId` (decode, JWKS fetch, RS256 check against the
    configured issuer) is the parameter `verify`: the subject, or `None`
    for the null it returns on any failure. `repositoryFails` stands for
    an exception from `findByUserId`, the one call in the guarded block
    that is not itself guarded. */
module ClerkAuthFilter {
  import opened Common
  import opened Domain
  import opened Security
  import AwsCognitoJwtAuthenticationFilter

  /** `shouldNotFilter`: the sign-in endpoints and the Clerk webhook, which
      checks its own signature, are not filtered. */
  function ShouldNotFilter(request: Request): bool
  {
    StartsWith(request.path, "/api/auth/") || request.path == "/api/webhook/clerk"
  }

  /** Every path the Cognito filter skips, this filter skips too; the webhook
      endpoint is the one path only this filter skips, and nothing below it
      is skipped. */
  lemma SkipsMoreThanCognito(request: Request)
    ensures AwsCognitoJwtAuthenticationFilter.ShouldNotFilter(request) ==> ShouldNotFilter(request)
    ensures ShouldNotFilter(request) && !AwsCognitoJwtAuthenticationFilter.ShouldNotFilter(request)
      <==> request.path == "/api/webhook/clerk"
    ensures StartsWith(request.path, "/api/webhook/clerk/") ==> !ShouldNotFilter(request)
  {
    if request.path == "/api/webhook/clerk" || StartsWith(request.path, "/api/webhook/clerk/") {
      assert request.path[..10][5] == 'w';
    }
  }

  /** The authentication `doFilterInternal` leaves in the context. */
  function AuthenticationSpec(db: Db, prior: Option<Authentication>, request: Request,
                              verify: string -> Option<string>, repositoryFails: bool)
    : (r: Option<Authentication>)
  {
    var token := BearerToken(Header(request, "Authorization"));
    if token.None? then prior
    else
      var subject := verify(token.value);
      if subject.None? then prior
      else if repositoryFails then None
      else if subject.value in db.users then Some(UserAuthentication(db.users[subject.value]))
      else prior
  }

  /** `doFilterInternal`. */
  method DoFilterInternal(run: FilterRun, store: Store, request: Request, verify: string -> Option<string>,
                          repositoryFails: bool)
    modifies run
    ensures run.chainCalls == old(run.chainCalls) + 1
    ensures run.authentication == AuthenticationSpec(store.State(), old(run.authentication), request, verify,
                                                     repositoryFails)
  {
    var token := Header(request, "Authorization");
    if token.Some? && StartsWith(token.value, "Bearer ") {
      var sessionToken := token.value[7..];
      var clerkUserId := verify(sessionToken);
      if clerkUserId.Some? {
        if repositoryFails {
          run.ClearContext();
        } else if clerkUserId.value in store.users {
          run.SetAuthentication(UserAuthentication(store.users[clerkUserId.value]));
        }
      }
    }
    run.Proceed();
  }

  /** The filter leaves the context as it was, clears it, or authenticates
      exactly the stored user whose id the verifier drew from the bearer
      token, with the one authority `"ROLE_"` + role. Clearing happens only
      on a repository failure after a successful verification; a request
      with no bearer token, or one the verifier rejects, is left alone. */
  lemma OnlyTheTokenSubjectSignsIn(db: Db, prior: Option<Authentication>, request: Request,
                                   verify: string -> Option<string>, repositoryFails: bool)
    ensures var r := AuthenticationSpec(db, prior, request, verify, repositoryFails);
      var token := BearerToken(Header(request, "Authorization"));
      && (token.None? || verify(token.value).None? ==> r == prior)
      && (r != prior && r.Some? ==>
            !repositoryFails && token.Some? && verify(token.value).Some?
            && var id := verify(token.value).value;
            id in db.users && r.value.principal == StoredUser(db.users[id])
            && r.value.authorities == ["ROLE_" + RoleName(db.users[id].role)])
      && (r == None && prior.Some? ==> repositoryFails)
  {
  }

  /** With a working repository, a verified subject that is a stored user is
      always signed in, and one that is not leaves the context as it was. */
  lemma StoredSubjectSignsIn(db: Db, prior: Option<Authentication>, request: Request,
                             verify: string -> Option<string>, token: string)
    requires Header(request, "Authorization") == Some(BearerPrefix + token)
    requires verify(token).Some?
    ensures var r := AuthenticationSpec(db, prior, request, verify, false);
      (verify(token).value in db.users ==> r == Some(UserAuthentication(db.users[verify(token).value])))
      && (verify(token).value !in db.users ==> r == prior)
  {
    BearerRoundTrip(token);
  }
}
