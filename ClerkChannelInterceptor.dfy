/** `ClerkChannelInterceptor`: the gate on inbound STOMP frames. CONNECT and
    SUBSCRIBE frames must carry a Clerk bearer token in their native
    `Authorization` header; every other frame passes untouched.
    `ClerkTokenValidator.verifyToken` is the parameter `validate` (`None`
    for the exception it throws on a bad token), and `repositoryFails`
    stands for an exception from `findById`. */
module ClerkChannelInterceptor {
  import opened Common
  import opened Domain
  import opened Security

  datatype StompCommand = Connect | Stomp | Subscribe | Unsubscribe | Send | Ack | Nack | Begin | Commit | Abort
                        | Disconnect

  /** The `StompHeaderAccessor` of an inbound frame: its command (null on a
      heart-beat), the first native `Authorization` header, and the user
      the session is bound to. */
  class Accessor {
    const command: Option<StompCommand>
    const authorization: Option<string>
    var user: Option<Authentication>

    constructor (command: Option<StompCommand>, authorization: Option<string>, user: Option<Authentication>)
      ensures this.command == command && this.authorization == authorization && this.user == user
    {
      this.command := command;
      this.authorization := authorization;
      this.user := user;
    }

    /** `setUser`. */
    method SetUser(a: Authentication)
      modifies this
      ensures user == Some(a)
    {
      user := Some(a);
    }
  }

  /** The frames the gate inspects. */
  predicate Inspected(command: Option<StompCommand>)
  {
    command == Some(Connect) || command == Some(Subscribe)
  }

  /** What `preSend` does with a frame: forward it (the message is returned)
      with the accessor's user as given, or reject it (null is returned). */
  datatype Decision = Forward(user: Option<Authentication>) | Reject

  /** The WebSocket principal is the bare Clerk user id. */
  function ChannelAuthentication(userId: string, role: Role): Authentication
  {
    Authentication(UserName(userId), [Authority(role)])
  }

  /** `preSend` on a frame with an accessor. */
  function PreSendSpec(db: Db, command: Option<StompCommand>, authorization: Option<string>,
                       user: Option<Authentication>, validate: string -> Option<string>, repositoryFails: bool)
    : (d: Decision)
  {
    if !Inspected(command) then Forward(user)
    else if authorization.None? || !StartsWith(authorization.value, "Bearer ") then Reject
    else
      var clerkUserId := validate(authorization.value[7..]);
      if clerkUserId.None? || repositoryFails then Reject
      else if clerkUserId.value in db.users then
        Forward(Some(ChannelAuthentication(clerkUserId.value, db.users[clerkUserId.value].role)))
      else Forward(user)
  }

  /** `preSend`: `forwarded` is false when the method returns null. A frame
      with no accessor is forwarded as it is. */
  method PreSend(accessor: Accessor?, store: Store, validate: string -> Option<string>, repositoryFails: bool)
    returns (forwarded: bool)
    modifies accessor
    ensures accessor == null ==> forwarded
    ensures accessor != null ==>
      var d := PreSendSpec(store.State(), accessor.command, accessor.authorization, old(accessor.user), validate,
                           repositoryFails);
      forwarded == d.Forward? && (d.Forward? ==> accessor.user == d.user)
      && (d.Reject? ==> accessor.user == old(accessor.user))
  {
    if accessor == null || !(accessor.command == Some(Connect) || accessor.command == Some(Subscribe)) {
      return true;
    }
    var token := accessor.authorization;
    if token.Some? && StartsWith(token.value, "Bearer ") {
      var tokenValue := token.value[7..];
      var clerkUserId := validate(tokenValue);
      if clerkUserId.None? || repositoryFails {
        return false;
      }
      if clerkUserId.value in store.users {
        accessor.SetUser(ChannelAuthentication(clerkUserId.value, store.users[clerkUserId.value].role));
      }
      forwarded := true;
    } else {
      forwarded := false;
    }
  }

  /** The gate only looks at CONNECT and SUBSCRIBE; on those, a frame passes
      only with a bearer token the validator accepts, and then, when the
      validated id is a stored user, is bound to that id with the authority
      `"ROLE_"` + role. */
  lemma GateDecides(db: Db, command: Option<StompCommand>, authorization: Option<string>,
                    user: Option<Authentication>, validate: string -> Option<string>, repositoryFails: bool)
    ensures var d := PreSendSpec(db, command, authorization, user, validate, repositoryFails);
      && (!Inspected(command) ==> d == Forward(user))
      && (Inspected(command) ==>
            (d.Forward? <==>
              BearerToken(authorization).Some? && validate(BearerToken(authorization).value).Some?
              && !repositoryFails))
      && (d.Forward? && d.user != user ==>
            var id := validate(BearerToken(authorization).value).value;
            id in db.users && d.user == Some(Authentication(UserName(id), ["ROLE_" + RoleName(db.users[id].role)])))
  {
  }

  /** A frame carrying `"Bearer " + token` hands the validator exactly
      `token`. */
  lemma ValidatorSeesTheToken(db: Db, command: Option<StompCommand>, token: string, user: Option<Authentication>,
                              validate: string -> Option<string>)
    requires Inspected(command)
    ensures PreSendSpec(db, command, Some(BearerPrefix + token), user, validate, false).Forward?
      <==> validate(token).Some?
  {
    BearerRoundTrip(token);
  }
}
