/** `ClerkWebhookController`: Clerk's signed user-lifecycle notifications,
    applied to the user table through `UserServiceImpl`.

    The cryptography is outside the model: `sign(secret, text)` stands for
    the Base64 encoding (section 4 of RFC 4648) of the HMAC-SHA256 (RFC
    2104) of `text` under `secret`, or `None` when the `Mac` throws.
    `payloadText` is the body as `payload.toString()` writes it, and
    `npeMessage` the message of the `NullPointerException` a missing JSON
    node causes. */
module ClerkWebhookController {
  import opened Common
  import opened Domain
  import UserServiceImpl

  /** The `data` node of a user event: its `id`, the `email_address` of each
      entry of `email_addresses`, and its `username` (`None` when missing
      or null). */
  datatype UserData = UserData(id: Option<string>, emailAddresses: seq<string>, username: Option<string>)

  /** The parsed body: its `type` and `data` nodes, `None` when absent. */
  datatype Payload = Payload(kind: Option<string>, data: Option<UserData>)

  datatype Response = Response(status: int, body: string)

  /** The text the signature covers. */
  function SignedContent(svixId: string, svixTimestamp: string, payloadText: string): string
  {
    svixId + "." + svixTimestamp + "." + payloadText
  }

  /** `verifyWebhookSignature`: the header must be `"v1,"` followed by the
      signature computed over the signed content; a failure to compute it
      counts as a mismatch. */
  predicate SignatureValid(svixId: string, svixTimestamp: string, payloadText: string, signature: string,
                           secret: string, sign: (string, string) -> Option<string>)
  {
    var computed := sign(secret, SignedContent(svixId, svixTimestamp, payloadText));
    computed.Some? && signature == "v1," + computed.value
  }

  lemma FirstDot(a: string, rest: string)
    requires '.' !in a
    ensures (a + "." + rest)[|a|] == '.'
    ensures forall k :: 0 <= k < |a| ==> (a + "." + rest)[k] != '.'
  {
    forall k | 0 <= k < |a|
      ensures (a + "." + rest)[k] != '.'
    {
      assert (a + "." + rest)[k] == a[k];
    }
  }

  lemma SplitAtFirstDot(a: string, r: string, b: string, q: string)
    requires '.' !in a && '.' !in b && a + "." + r == b + "." + q
    ensures a == b && r == q
  {
    var s := a + "." + r;
    FirstDot(a, r);
    FirstDot(b, q);
    assert |a| == |b|;
    assert a == s[..|a|] && b == s[..|b|];
    assert r == s[|a| + 1..] && q == s[|b| + 1..];
  }

  /** As long as ids and timestamps contain no `.` (Svix's do not), the
      signed content determines the id, the timestamp and the payload:
      a signature cannot be moved to another message by shifting text
      between the fields. */
  lemma SignedContentDeterminesFields(id1: string, ts1: string, p1: string, id2: string, ts2: string, p2: string)
    requires '.' !in id1 && '.' !in id2 && '.' !in ts1 && '.' !in ts2
    requires SignedContent(id1, ts1, p1) == SignedContent(id2, ts2, p2)
    ensures id1 == id2 && ts1 == ts2 && p1 == p2
  {
    assert SignedContent(id1, ts1, p1) == id1 + "." + (ts1 + "." + p1);
    assert SignedContent(id2, ts2, p2) == id2 + "." + (ts2 + "." + p2);
    SplitAtFirstDot(id1, ts1 + "." + p1, id2, ts2 + "." + p2);
    SplitAtFirstDot(ts1, p1, ts2, p2);
  }

  /** The service call a user event turns into. */
  datatype Action = CreateUser(userId: string, email: string, username: string)
                  | UpdateUser(userId: string, email: string, username: string)
                  | DeleteUser(userId: string)
                  | NoAction

  /** `(id, first email, username or else first email)` of a create or
      update event; `None` when a node the handler dereferences is
      missing. */
  function UserFields(data: Option<UserData>): (r: Option<(string, string, string)>)
    ensures r.Some? <==> data.Some? && data.value.id.Some? && |data.value.emailAddresses| > 0
    ensures r.Some? ==>
      r.value.0 == data.value.id.value && r.value.1 == data.value.emailAddresses[0]
      && (data.value.username.None? ==> r.value.2 == r.value.1)
      && (data.value.username.Some? ==> r.value.2 == data.value.username.value)
  {
    if data.None? || data.value.id.None? || |data.value.emailAddresses| == 0 then None
    else
      var email := data.value.emailAddresses[0];
      var username := if data.value.username.Some? then data.value.username.value else email;
      Some((data.value.id.value, email, username))
  }

  /** The switch on `type`; `None` when a node it dereferences is missing. */
  function ActionOf(payload: Payload): (r: Option<Action>)
    ensures r.Some? && r.value.CreateUser? <==> payload.kind == Some("user.created") && UserFields(payload.data).Some?
    ensures r.Some? && r.value.UpdateUser? <==> payload.kind == Some("user.updated") && UserFields(payload.data).Some?
    ensures r.Some? && (r.value.CreateUser? || r.value.UpdateUser?) ==>
      var f := UserFields(payload.data).value;
      r.value.userId == f.0 && r.value.email == f.1 && r.value.username == f.2
    ensures r.Some? && r.value.DeleteUser? <==>
      payload.kind == Some("user.deleted") && payload.data.Some? && payload.data.value.id.Some?
    ensures r.Some? && r.value.DeleteUser? ==> r.value.userId == payload.data.value.id.value
    ensures r == Some(NoAction) <==>
      payload.kind.Some? && payload.kind.value !in {"user.created", "user.updated", "user.deleted"}
  {
    if payload.kind.None? then None
    else if payload.kind.value == "user.created" then
      var f := UserFields(payload.data);
      if f.None? then None else Some(CreateUser(f.value.0, f.value.1, f.value.2))
    else if payload.kind.value == "user.updated" then
      var f := UserFields(payload.data);
      if f.None? then None else Some(UpdateUser(f.value.0, f.value.1, f.value.2))
    else if payload.kind.value == "user.deleted" then
      if payload.data.None? || payload.data.value.id.None? then None else Some(DeleteUser(payload.data.value.id.value))
    else Some(NoAction)
  }

  /** The service's answer to an action and the store after it.
      `updateOutcome` is the answer of `updateUser`, which the service
      layer does not define. */
  function Perform(db: Db, action: Action, updateOutcome: Result<(), Error>, now: Time): (o: Outcome<()>)
  {
    match action
    case CreateUser(userId, email, username) =>
      var created := UserServiceImpl.CreateUserSpec(db, userId, email, username, now);
      Outcome(if created.result.Ok? then Ok(()) else Err(created.result.error), created.db)
    case UpdateUser(_, _, _) => Outcome(updateOutcome, db)
    case DeleteUser(userId) => UserServiceImpl.DeleteUserSpec(db, userId)
    case NoAction => Outcome(Ok(()), db)
  }

  function ServerError(message: string): Response
  {
    Response(500, "Error processing webhook: " + message)
  }

  /** `handleWebhook`: the response and the store after it. */
  function HandleWebhookSpec(db: Db, payload: Payload, payloadText: string, svixId: string, svixTimestamp: string,
                             svixSignature: string, secret: string, sign: (string, string) -> Option<string>,
                             npeMessage: string, updateOutcome: Result<(), Error>, now: Time)
    : (r: (Response, Db))
    ensures r.0.status in {200, 401, 500}
    ensures r.0.status == 401 <==> !SignatureValid(svixId, svixTimestamp, payloadText, svixSignature, secret, sign)
    ensures r.0.status == 401 ==> r.0.body == "Invalid signature" && r.1 == db
    ensures r.0.status == 200 ==> r.0.body == "Webhook processed"
    ensures r.0.status == 500 ==> StartsWith(r.0.body, "Error processing webhook: ") && r.1 == db
  {
    if !SignatureValid(svixId, svixTimestamp, payloadText, svixSignature, secret, sign) then
      (Response(401, "Invalid signature"), db)
    else
      var action := ActionOf(payload);
      if action.None? then (ServerError(npeMessage), db)
      else
        var done := Perform(db, action.value, updateOutcome, now);
        if done.result.Err? then (ServerError(done.result.error.message), db)
        else (Response(200, "Webhook processed"), done.db)
  }

  method HandleWebhook(store: Store, payload: Payload, payloadText: string, svixId: string, svixTimestamp: string,
                       svixSignature: string, secret: string, sign: (string, string) -> Option<string>,
                       npeMessage: string, updateOutcome: Result<(), Error>, now: Time)
    returns (response: Response)
    modifies store
    ensures var r := HandleWebhookSpec(old(store.State()), payload, payloadText, svixId, svixTimestamp,
                                       svixSignature, secret, sign, npeMessage, updateOutcome, now);
      response == r.0 && store.State() == r.1
  {
    var computed := sign(secret, svixId + "." + svixTimestamp + "." + payloadText);
    if !(computed.Some? && svixSignature == "v1," + computed.value) {
      return Response(401, "Invalid signature");
    }
    var action := ActionOf(payload);
    if action.None? {
      return ServerError(npeMessage);
    }
    match action.value {
      case CreateUser(userId, email, username) =>
        var created := UserServiceImpl.CreateUser(store, userId, email, username, now);
        if created.Err? {
          return ServerError(created.error.message);
        }
      case UpdateUser(_, _, _) =>
        if updateOutcome.Err? {
          return ServerError(updateOutcome.error.message);
        }
      case DeleteUser(userId) =>
        var deleted := UserServiceImpl.DeleteUser(store, userId);
        if deleted.Err? {
          return ServerError(deleted.error.message);
        }
      case NoAction =>
    }
    response := Response(200, "Webhook processed");
  }

  /** A correctly signed event of a type the switch does not know is
      acknowledged and changes nothing. */
  lemma UnknownTypeAcknowledged(db: Db, kind: string, data: Option<UserData>, payloadText: string, svixId: string,
                                svixTimestamp: string, svixSignature: string, secret: string,
                                sign: (string, string) -> Option<string>, npeMessage: string,
                                updateOutcome: Result<(), Error>, now: Time)
    requires kind !in {"user.created", "user.updated", "user.deleted"}
    requires SignatureValid(svixId, svixTimestamp, payloadText, svixSignature, secret, sign)
    ensures HandleWebhookSpec(db, Payload(Some(kind), data), payloadText, svixId, svixTimestamp, svixSignature,
                              secret, sign, npeMessage, updateOutcome, now)
         == (Response(200, "Webhook processed"), db)
  {
  }

  /** A correctly signed `user.created` event for a new user without a
      username registers a regular user named after the first email. */
  lemma CreatedUserNamedAfterEmail(db: Db, id: string, email: string, more: seq<string>, payloadText: string,
                                   svixId: string, svixTimestamp: string, svixSignature: string, secret: string,
                                   sign: (string, string) -> Option<string>, npeMessage: string,
                                   updateOutcome: Result<(), Error>, now: Time)
    requires SignatureValid(svixId, svixTimestamp, payloadText, svixSignature, secret, sign)
    requires UserServiceImpl.CreateUserSpec(db, id, email, email, now).result.Ok?
    ensures var r := HandleWebhookSpec(db, Payload(Some("user.created"), Some(UserData(Some(id), [email] + more, None))),
                                       payloadText, svixId, svixTimestamp, svixSignature, secret, sign, npeMessage,
                                       updateOutcome, now);
      r.0 == Response(200, "Webhook processed") && r.1.users == db.users[id := User(id, email, email, Regular, now)]
  {
  }
}
