/** `MessageServiceImpl`: content validation, the incoming-message path that
    the STOMP controller uses, and the two parent-message pages.

    `Instant.toString` is an ISO-8601 formatter outside the model; it is the
    parameter `iso`. The authenticated principal of the page queries is the
    parameter `userId`. The repository's parent page and its
    `findTop3ByParentIdInOrderByCreatedAtDesc` result are the parameters
    `parents` and `replies`. */
module MessageServiceImpl {
  import opened Common
  import opened Domain

  const MaxMessageLength := 10000
  const EmptyContent := "Message content cannot be empty"
  const ContentTooLong := "Message content cannot exceed 10000 characters"

  /** `MessageDTO`, with the `username` its builder is given. */
  datatype MessageView = MessageView(id: string, content: string, createdBy: Option<string>, username: Option<string>,
                                     channelId: string, parentId: Option<string>, createdAt: Option<string>,
                                     editedAt: Option<string>, isEdited: bool, reactions: set<ReactionSummary>,
                                     replyCount: nat, topReplies: seq<MessageView>)

  /** `validateMessageContent`: the `ValidationException` it throws, if any. */
  function ValidateMessageContent(content: Option<string>): (r: Option<Error>)
    ensures r.None? <==> content.Some? && !JavaBlank(content.value) && |content.value| <= MaxMessageLength
    ensures r.Some? ==> r.value.kind == Validation
    ensures r == Some(Error(Validation, EmptyContent)) <==> content.None? || JavaBlank(content.value)
  {
    if content.None? || JavaBlank(content.value) then Some(Error(Validation, EmptyContent))
    else if |content.value| > MaxMessageLength then Some(Error(Validation, ContentTooLong))
    else None
  }

  /** The length bound is on the untrimmed text and is inclusive. */
  lemma LengthBoundIsInclusive(content: string)
    requires !JavaBlank(content)
    ensures |content| == MaxMessageLength ==> ValidateMessageContent(Some(content)).None?
    ensures |content| == MaxMessageLength + 1 ==> ValidateMessageContent(Some(content)) == Some(Error(Validation, ContentTooLong))
  {
  }

  /** `formatInstant`. */
  function FormatInstant(instant: Option<Time>, iso: Time -> string): (r: Option<string>)
    ensures r.None? <==> instant.None?
    ensures r.Some? ==> r.value == iso(instant.value)
  {
    if instant.None? then None else Some(iso(instant.value))
  }

  /** `d` is built from a stored reaction on the message. */
  ghost predicate SummarisesReactionOn(db: Db, messageId: string, d: ReactionSummary)
  {
    exists k :: k in db.reactions && db.reactions[k].messageId == messageId && d == Summary(db, db.reactions[k])
  }

  /** The reactions of a message, as `ReactionDTO`s: one per stored reaction
      on it, each carrying the reaction's id, emoji and user, that user's
      username and the message id. */
  function ReactionSummaries(db: Db, messageId: string): (r: set<ReactionSummary>)
    ensures forall d :: d in r ==> d.messageId == messageId && d.username == UsernameOf(db, d.userId)
    ensures forall k :: k in db.reactions && db.reactions[k].messageId == messageId ==>
      Summary(db, db.reactions[k]) in r
    ensures forall d :: d in r ==> SummarisesReactionOn(db, messageId, d)
  {
    set k | k in db.reactions && db.reactions[k].messageId == messageId :: Summary(db, db.reactions[k])
  }

  /** `userIdToUsername.get(userId)`: the map holds every user the store has. */
  function LookupUsername(db: Db, userId: string): (r: Option<string>)
    ensures r.Some? <==> userId in db.users
    ensures r.Some? ==> r.value == db.users[userId].username
  {
    if userId in db.users then Some(db.users[userId].username) else None
  }

  /** `toDTO`: a flat view with no reactions, no replies and no counts. */
  function ToView(message: Message, username: Option<string>, iso: Time -> string): (r: MessageView)
    ensures r.id == message.id && r.content == message.content && r.channelId == message.channelId
    ensures r.createdBy == Some(message.createdBy) && r.username == username
    ensures r.parentId.None? <==> message.parent.None?
    ensures r.parentId == message.parent
    ensures r.reactions == {} && r.replyCount == 0 && r.topReplies == []
    ensures r.createdAt.Some? && r.isEdited == message.isEdited
  {
    MessageView(message.id, message.content, Some(message.createdBy), username, message.channelId, message.parent,
                FormatInstant(Some(message.createdAt), iso), FormatInstant(message.editedAt, iso), message.isEdited,
                {}, 0, [])
  }

  /** The row `handleIncomingMessage` saves. */
  function IncomingRow(id: string, content: string, channelId: string, userId: string, parentId: Option<string>,
                       now: Time): Message
  {
    Message(id, content, channelId, userId, parentId, now, None, false)
  }

  /** `handleIncomingMessage`, as a transaction. `saved` is whether
      `save`/`flush` returned normally. */
  function HandleIncomingMessageSpec(db: Db, content: Option<string>, parentId: Option<string>,
                                     channelId: Option<string>, userId: Option<string>, id: string, now: Time,
                                     saved: bool, iso: Time -> string): (o: Outcome<MessageView>)
    ensures o.result.Err? ==> o.db == db
    ensures channelId.None? ==> o.result == Err(Error(IllegalArgument, "Channel ID cannot be null"))
    ensures channelId.Some? && userId.None? ==> o.result == Err(Error(IllegalArgument, "User ID cannot be null"))
    ensures channelId.Some? && userId.Some? && ValidateMessageContent(content).Some? ==>
      o.result == Err(ValidateMessageContent(content).value)
    ensures o.result.Ok? <==>
      channelId.Some? && userId.Some? && ValidateMessageContent(content).None?
      && channelId.value in db.channels
      && (db.channels[channelId.value].kind == Public || IsMember(db, channelId.value, userId.value))
      && userId.value in db.users
      && (parentId.None? || parentId.value in db.messages)
      && saved
    ensures o.result.Ok? ==>
      o.db == db.(messages := db.messages[id := IncomingRow(id, content.value, channelId.value, userId.value, parentId, now)])
      && o.result.value.id == id && o.result.value.content == content.value
      && o.result.value.channelId == channelId.value && o.result.value.createdBy == userId
      && o.result.value.parentId == parentId && o.result.value.replyCount == 0
  {
    if channelId.None? then Fail(db, IllegalArgument, "Channel ID cannot be null")
    else if userId.None? then Fail(db, IllegalArgument, "User ID cannot be null")
    else if ValidateMessageContent(content).Some? then Outcome(Err(ValidateMessageContent(content).value), db)
    else if channelId.value !in db.channels then Fail(db, EntityNotFound, "Channel not found: " + channelId.value)
    else if db.channels[channelId.value].kind != Public && !IsMember(db, channelId.value, userId.value) then
      Fail(db, AccessDenied, "You do not have access to this channel")
    else if userId.value !in db.users then Fail(db, EntityNotFound, "User not found: " + userId.value)
    else if parentId.Some? && parentId.value !in db.messages then
      Fail(db, EntityNotFound, "Parent message not found: " + parentId.value)
    else if !saved then Fail(db, Runtime, "Failed to save message")
    else
      var row := IncomingRow(id, content.value, channelId.value, userId.value, parentId, now);
      Outcome(Ok(ToView(row, Some(db.users[userId.value].username), iso)),
              db.(messages := db.messages[id := row]))
  }

  /** An accepted message adds exactly one row under a fresh id and keeps `Valid`. */
  lemma AcceptedMessageKeepsValid(db: Db, content: Option<string>, parentId: Option<string>,
                                  channelId: Option<string>, userId: Option<string>, id: string, now: Time,
                                  iso: Time -> string)
    requires Valid(db) && id !in db.messages
    requires HandleIncomingMessageSpec(db, content, parentId, channelId, userId, id, now, true, iso).result.Ok?
    ensures Valid(HandleIncomingMessageSpec(db, content, parentId, channelId, userId, id, now, true, iso).db)
    ensures |HandleIncomingMessageSpec(db, content, parentId, channelId, userId, id, now, true, iso).db.messages|
      == |db.messages| + 1
  {
    var after := HandleIncomingMessageSpec(db, content, parentId, channelId, userId, id, now, true, iso).db;
    assert after.reactions == db.reactions;
  }

  method HandleIncomingMessage(store: Store, content: Option<string>, parentId: Option<string>,
                               channelId: Option<string>, userId: Option<string>, id: string, now: Time,
                               saved: bool, iso: Time -> string)
    returns (r: Result<MessageView, Error>)
    modifies store
    ensures r == HandleIncomingMessageSpec(old(store.State()), content, parentId, channelId, userId, id, now, saved, iso).result
    ensures store.State() == HandleIncomingMessageSpec(old(store.State()), content, parentId, channelId, userId, id, now, saved, iso).db
  {
    if channelId.None? {
      return Err(Error(IllegalArgument, "Channel ID cannot be null"));
    }
    if userId.None? {
      return Err(Error(IllegalArgument, "User ID cannot be null"));
    }
    var invalid := ValidateMessageContent(content);
    if invalid.Some? {
      return Err(invalid.value);
    }
    if channelId.value !in store.channels {
      return Err(Error(EntityNotFound, "Channel not found: " + channelId.value));
    }
    var channel := store.channels[channelId.value];
    if channel.kind != Public && (channelId.value, userId.value) !in store.memberships {
      return Err(Error(AccessDenied, "You do not have access to this channel"));
    }
    if userId.value !in store.users {
      return Err(Error(EntityNotFound, "User not found: " + userId.value));
    }
    var user := store.users[userId.value];
    if parentId.Some? && parentId.value !in store.messages {
      return Err(Error(EntityNotFound, "Parent message not found: " + parentId.value));
    }
    if !saved {
      return Err(Error(Runtime, "Failed to save message"));
    }
    var row := IncomingRow(id, content.value, channelId.value, userId.value, parentId, now);
    store.SaveMessage(row);
    r := Ok(ToView(row, Some(user.username), iso));
  }

  /** The user, channel and access checks both page queries start with;
      `userNotFound` is each query's own message prefix. */
  function AccessError(db: Db, userId: string, channelId: string, userNotFound: string): (r: Option<Error>)
    ensures r.None? <==>
      userId in db.users && channelId in db.channels
      && (db.channels[channelId].kind == Public || IsMember(db, channelId, userId))
  {
    if userId !in db.users then Some(Error(EntityNotFound, userNotFound + userId))
    else if channelId !in db.channels then Some(Error(EntityNotFound, "Channel not found: " + channelId))
    else if db.channels[channelId].kind != Public && !IsMember(db, channelId, userId) then
      Some(Error(AccessDenied, "You do not have access to this channel"))
    else None
  }

  /** `repliesByParentId.getOrDefault(parentId, emptyList())`: the fetched
      replies to one parent, in fetch order. */
  function ReplyGroup(replies: seq<Message>, parentId: string): (r: seq<Message>)
    ensures |r| <= |replies|
    ensures forall m :: m in r <==> m in replies && m.parent == Some(parentId)
  {
    Filter(replies, (m: Message) => m.parent == Some(parentId))
  }

  /** The view of one parent on the detailed page, given its reply count. */
  function ParentDetails(db: Db, parent: Message, replies: seq<Message>, replyCount: nat, iso: Time -> string): MessageView
  {
    var group := ReplyGroup(replies, parent.id);
    MessageView(parent.id, parent.content, LookupUsername(db, parent.createdBy), None, parent.channelId, None,
                FormatInstant(Some(parent.createdAt), iso), FormatInstant(parent.editedAt, iso), parent.isEdited,
                ReactionSummaries(db, parent.id), replyCount,
                seq(|group|, i requires 0 <= i < |group| => ToView(group[i], LookupUsername(db, group[i].createdBy), iso)))
  }

  /** `getLatestParentMessagesWithDetails` as written: every parent's
      `replyCount` is the size of the whole fetched reply list. */
  function LatestParentMessagesWithDetailsAsWritten(db: Db, userId: string, channelId: string, parents: seq<Message>,
                                                    replies: seq<Message>, iso: Time -> string)
    : (r: Result<seq<MessageView>, Error>)
    ensures r.Err? <==> AccessError(db, userId, channelId, "User not found: ").Some?
    ensures r.Ok? ==> |r.value| == |parents|
    ensures r.Ok? ==> forall i :: 0 <= i < |r.value| ==> r.value[i].replyCount == |replies|
  {
    var denied := AccessError(db, userId, channelId, "User not found: ");
    if denied.Some? then Err(denied.value)
    else if parents == [] then Ok([])
    else Ok(seq(|parents|, i requires 0 <= i < |parents| => ParentDetails(db, parents[i], replies, |replies|, iso)))
  }

  /** Two parents and one stored reply, to the first: the second parent's
      view claims one reply while showing none, and the store holds none. */
  lemma AsWrittenReplyCountCounterexample(iso: Time -> string)
    ensures
      var author := User("u", "ann", "ann@example.com", Regular, 0);
      var channel := Channel("c", "general", None, Public, "u", 0);
      var p1 := Message("p1", "first", "c", "u", None, 1, None, false);
      var p2 := Message("p2", "second", "c", "u", None, 2, None, false);
      var reply := Message("r1", "re", "c", "u", Some("p1"), 3, None, false);
      var db := EmptyDb.(users := map["u" := author], channels := map["c" := channel],
                         messages := map["p1" := p1, "p2" := p2, "r1" := reply]);
      var r := LatestParentMessagesWithDetailsAsWritten(db, "u", "c", [p1, p2], [reply], iso);
      r.Ok? && |r.value| == 2 && r.value[1].replyCount == 1 && r.value[1].topReplies == []
      && |RepliesOf(db.messages, "p2")| == 0
  {
    var author := User("u", "ann", "ann@example.com", Regular, 0);
    var channel := Channel("c", "general", None, Public, "u", 0);
    var p1 := Message("p1", "first", "c", "u", None, 1, None, false);
    var p2 := Message("p2", "second", "c", "u", None, 2, None, false);
    var reply := Message("r1", "re", "c", "u", Some("p1"), 3, None, false);
    var db := EmptyDb.(users := map["u" := author], channels := map["c" := channel],
                       messages := map["p1" := p1, "p2" := p2, "r1" := reply]);
    assert reply.parent != Some("p2");
    assert ReplyGroup([reply], "p2") == [];
    assert RepliesOf(db.messages, "p2") == {} by {
      forall k | k in db.messages
        ensures db.messages[k].parent != Some("p2")
      {
      }
    }
  }

  /** `getLatestParentMessagesWithDetails` with each parent's `replyCount`
      counting that parent's own replies, as `getLatestParentMessages` and
      `MessageService.toDto` do. */
  function LatestParentMessagesWithDetails(db: Db, userId: string, channelId: string, parents: seq<Message>,
                                           replies: seq<Message>, iso: Time -> string)
    : (r: Result<seq<MessageView>, Error>)
    ensures r.Err? <==> AccessError(db, userId, channelId, "User not found: ").Some?
    ensures r.Ok? ==> |r.value| == |parents|
    ensures r.Ok? ==> forall i :: 0 <= i < |r.value| ==>
      r.value[i].id == parents[i].id && r.value[i].parentId.None?
      && r.value[i].replyCount == |RepliesOf(db.messages, parents[i].id)|
      && |r.value[i].topReplies| == |ReplyGroup(replies, parents[i].id)|
      && forall j :: 0 <= j < |r.value[i].topReplies| ==> r.value[i].topReplies[j].parentId == Some(parents[i].id)
  {
    var denied := AccessError(db, userId, channelId, "User not found: ");
    if denied.Some? then Err(denied.value)
    else if parents == [] then Ok([])
    else
      Ok(seq(|parents|, i requires 0 <= i < |parents| =>
        ParentDetails(db, parents[i], replies, |RepliesOf(db.messages, parents[i].id)|, iso)))
  }

  /** When every stored reply of the page was fetched, the count agrees with
      the replies shown. */
  lemma ReplyCountMatchesShownReplies(db: Db, userId: string, channelId: string, parents: seq<Message>,
                                      replies: seq<Message>, iso: Time -> string, i: nat)
    requires Valid(db)
    requires LatestParentMessagesWithDetails(db, userId, channelId, parents, replies, iso).Ok?
    requires i < |parents|
    requires forall j, k :: 0 <= j < k < |replies| ==> replies[j].id != replies[k].id
    requires forall m :: m in replies ==> m.id in db.messages && db.messages[m.id] == m
    requires forall k :: k in db.messages && db.messages[k].parent == Some(parents[i].id) ==> db.messages[k] in replies
    ensures LatestParentMessagesWithDetails(db, userId, channelId, parents, replies, iso).value[i].replyCount
      == |LatestParentMessagesWithDetails(db, userId, channelId, parents, replies, iso).value[i].topReplies|
  {
    var group := ReplyGroup(replies, parents[i].id);
    GroupIdsDistinct(replies, parents[i].id);
    var ids := set j | 0 <= j < |group| :: group[j].id;
    assert ids == RepliesOf(db.messages, parents[i].id) by {
      forall k | k in RepliesOf(db.messages, parents[i].id)
        ensures k in ids
      {
        var j :| 0 <= j < |group| && group[j] == db.messages[k];
      }
    }
    DistinctIdsCount(group);
  }

  /** A group of distinct-id replies has distinct ids. */
  lemma GroupIdsDistinct(replies: seq<Message>, parentId: string)
    requires forall j, k :: 0 <= j < k < |replies| ==> replies[j].id != replies[k].id
    ensures forall j, k :: 0 <= j < k < |ReplyGroup(replies, parentId)| ==>
      ReplyGroup(replies, parentId)[j].id != ReplyGroup(replies, parentId)[k].id
  {
    FilterDistinct(replies, (m: Message) => m.parent == Some(parentId));
  }

  lemma {:induction false} FilterDistinct(s: seq<Message>, p: Message -> bool)
    requires forall j, k :: 0 <= j < k < |s| ==> s[j].id != s[k].id
    ensures forall j, k :: 0 <= j < k < |Filter(s, p)| ==> Filter(s, p)[j].id != Filter(s, p)[k].id
    decreases |s|
  {
    if s != [] {
      var rest := s[1..];
      DistinctTail(s);
      FilterDistinct(rest, p);
      var kept := Filter(rest, p);
      if p(s[0]) {
        assert Filter(s, p) == [s[0]] + kept;
        forall k | 0 <= k < |kept|
          ensures kept[k].id != s[0].id
        {
          assert kept[k] in rest;
          LaterIdDiffers(s, kept[k]);
        }
        ConsDistinct(s[0], kept);
      } else {
        assert Filter(s, p) == [] + kept;
      }
    }
  }

  lemma ConsDistinct(x: Message, kept: seq<Message>)
    requires forall j, k :: 0 <= j < k < |kept| ==> kept[j].id != kept[k].id
    requires forall k :: 0 <= k < |kept| ==> kept[k].id != x.id
    ensures forall j, k :: 0 <= j < k < |[x] + kept| ==> ([x] + kept)[j].id != ([x] + kept)[k].id
  {
    var all := [x] + kept;
    forall j, k | 0 <= j < k < |all|
      ensures all[j].id != all[k].id
    {
      assert all[k] == kept[k - 1];
      if j > 0 {
        assert all[j] == kept[j - 1];
      }
    }
  }

  lemma DistinctTail(s: seq<Message>)
    requires s != []
    requires forall j, k :: 0 <= j < k < |s| ==> s[j].id != s[k].id
    ensures forall j, k :: 0 <= j < k < |s[1..]| ==> s[1..][j].id != s[1..][k].id
  {
    forall j, k | 0 <= j < k < |s[1..]|
      ensures s[1..][j].id != s[1..][k].id
    {
      assert s[1..][j] == s[j + 1] && s[1..][k] == s[k + 1];
    }
  }

  lemma LaterIdDiffers(s: seq<Message>, x: Message)
    requires s != [] && x in s[1..]
    requires forall j, k :: 0 <= j < k < |s| ==> s[j].id != s[k].id
    ensures x.id != s[0].id
  {
    var m :| 0 <= m < |s[1..]| && s[1..][m] == x;
    assert s[m + 1] == x;
  }

  lemma {:induction false} DistinctIdsCount(s: seq<Message>)
    requires forall j, k :: 0 <= j < k < |s| ==> s[j].id != s[k].id
    ensures |set j | 0 <= j < |s| :: s[j].id| == |s|
    decreases |s|
  {
    if s != [] {
      var rest := s[1..];
      DistinctIdsCount(rest);
      var ids := set j | 0 <= j < |s| :: s[j].id;
      var restIds := set j | 0 <= j < |rest| :: rest[j].id;
      assert ids == {s[0].id} + restIds by {
        forall x | x in ids
          ensures x in {s[0].id} + restIds
        {
          var j :| 0 <= j < |s| && s[j].id == x;
          if j > 0 {
            assert rest[j - 1].id == x;
          }
        }
      }
      assert s[0].id !in restIds;
    }
  }

  /** `getLatestParentMessages`: the first page of parents, each with its
      stored reply count and no replies shown. */
  function LatestParentMessages(db: Db, userId: string, channelId: string, parents: seq<Message>, iso: Time -> string)
    : (r: Result<seq<MessageView>, Error>)
    ensures r.Err? <==> AccessError(db, userId, channelId, "User not founddd: ").Some?
    ensures r.Ok? ==> |r.value| == |parents|
    ensures r.Ok? ==> forall i :: 0 <= i < |r.value| ==>
      r.value[i].id == parents[i].id && r.value[i].parentId.None? && r.value[i].topReplies == []
      && r.value[i].replyCount == |RepliesOf(db.messages, parents[i].id)|
  {
    var denied := AccessError(db, userId, channelId, "User not founddd: ");
    if denied.Some? then Err(denied.value)
    else
      Ok(seq(|parents|, i requires 0 <= i < |parents| =>
        MessageView(parents[i].id, parents[i].content, Some(UsernameOf(db, parents[i].createdBy)), None,
                    parents[i].channelId, None, FormatInstant(Some(parents[i].createdAt), iso),
                    FormatInstant(parents[i].editedAt, iso), parents[i].isEdited,
                    ReactionSummaries(db, parents[i].id), |RepliesOf(db.messages, parents[i].id)|, [])))
  }

  /** The corrected detailed page and the plain page report the same reply
      count for every parent. */
  lemma DetailedCountsAgreeWithPlainPage(db: Db, userId: string, channelId: string, parents: seq<Message>,
                                         replies: seq<Message>, iso: Time -> string, i: nat)
    requires userId in db.users
    requires LatestParentMessagesWithDetails(db, userId, channelId, parents, replies, iso).Ok?
    requires i < |parents|
    ensures LatestParentMessages(db, userId, channelId, parents, iso).Ok?
    ensures LatestParentMessagesWithDetails(db, userId, channelId, parents, replies, iso).value[i].replyCount
      == LatestParentMessages(db, userId, channelId, parents, iso).value[i].replyCount
  {
  }
}
