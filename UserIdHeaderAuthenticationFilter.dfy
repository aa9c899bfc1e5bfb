/** `UserIdHeaderAuthenticationFilter`: the development sign-in, where the
    `X-User-ID` header names the user outright. `UUID.fromString` is the
    parameter `parseUuid`: the UUID's canonical text, or `None` for the
    `IllegalArgumentException` it throws on malformed input. The repository
    is keyed by text, so the lookup uses that canonical text. */
module UserIdHeaderAuthenticationFilter {
  import opened Common
  import opened Domain
  import opened Security

  /** `shouldNotFilter`: registration (`POST /api/users`) is not filtered. */
  function ShouldNotFilter(request: Request): bool
  {
    request.path == "/api/users" && request.httpMethod == "POST"
  }

  /** The authentication `doFilterInternal` leaves in the context. */
  function AuthenticationSpec(db: Db, prior: Option<Authentication>, request: Request,
                              parseUuid: string -> Option<string>): (r: Option<Authentication>)
  {
    var header := Header(request, "X-User-ID");
    if header.None? then prior
    else
      var userId := parseUuid(header.value);
      if userId.None? then prior
      else if userId.value in db.users then Some(UserAuthentication(db.users[userId.value]))
      else prior
  }

  /** `doFilterInternal`. */
  method DoFilterInternal(run: FilterRun, store: Store, request: Request, parseUuid: string -> Option<string>)
    modifies run
    ensures run.chainCalls == old(run.chainCalls) + 1
    ensures run.authentication == AuthenticationSpec(store.State(), old(run.authentication), request, parseUuid)
  {
    var userIdHeader := Header(request, "X-User-ID");
    if userIdHeader.Some? {
      var userId := parseUuid(userIdHeader.value);
      if userId.Some? && userId.value in store.users {
        run.SetAuthentication(UserAuthentication(store.users[userId.value]));
      }
    }
    run.Proceed();
  }

  /** The context changes exactly when the header parses as a UUID that
      names a stored user, and then holds that user with the one authority
      `"ROLE_"` + role; the filter never clears it. */
  lemma HeaderNamesTheUser(db: Db, prior: Option<Authentication>, request: Request,
                           parseUuid: string -> Option<string>)
    ensures var r := AuthenticationSpec(db, prior, request, parseUuid);
      var header := Header(request, "X-User-ID");
      var named := header.Some? && parseUuid(header.value).Some? && parseUuid(header.value).value in db.users;
      (named ==>
        var user := db.users[parseUuid(header.value).value];
        r == Some(Authentication(StoredUser(user), ["ROLE_" + RoleName(user.role)])))
      && (!named ==> r == prior)
      && (prior.Some? ==> r.Some?)
  {
  }
}
