/** `MessageService`: creating, reading, editing and deleting messages, and
    the events each write publishes on the message broker.

    The repository's pages (`findByChannelOrderByCreatedAtDesc`,
    `findByParentMessageOrderByCreatedAtAsc`, `searchMessages`) are the
    parameter `page`; the service maps them through `toDto`. The event
    timestamps are left out. `channelService.isMember(channel, userId)` is
    the membership table lookup. */
module MessageService {
  import opened Common
  import opened Domain

  const NotMember := "User is not a member of this channel"

  /** The row `createMessage` saves. */
  function NewMessage(id: string, channelId: string, userId: string, content: string, parentId: Option<string>,
                      now: Time): Message
  {
    Message(id, content, channelId, userId, parentId, now, None, false)
  }

  /** The two envelopes of a new message: the full event on the channel
      topic, then the light notification. */
  function NewMessageEvents(db: Db, row: Message): (r: seq<Envelope>)
    ensures |r| == 2
    ensures r[0].destination == ChannelTopic(row.channelId) && r[1].destination == NotificationsTopic
    ensures r[0].event.WsEvent? && r[0].event.eventType == MessageNew && r[0].event.messageId == row.id
    ensures r[0].event.payload == MessagePayload(ToMessageDto(db, row))
    ensures r[1].event == WsEvent(Notification, row.channelId, row.id, None, row.createdBy, NoPayload)
  {
    [Envelope(ChannelTopic(row.channelId),
              WsEvent(MessageNew, row.channelId, row.id, None, row.createdBy, MessagePayload(ToMessageDto(db, row)))),
     Envelope(NotificationsTopic, WsEvent(Notification, row.channelId, row.id, None, row.createdBy, NoPayload))]
  }

  /** `createMessage` as written. There is no membership check: any stored
      user may post to any stored channel. Once the lookups pass, the new
      row is saved and flushed, and `findById` in the same unit of work
      hands back the very instance `new Message()` built. Its `replies`
      collection has no initialiser (model/Message.java:55-57), so `toDto`
      throws a `NullPointerException` at `getReplies().size()`, before any
      event is sent, and the transaction rolls back. `npeMessage` is that
      exception's message, which depends on the JVM. */
  function CreateMessageSpec(db: Db, channelId: string, userId: string, parentId: Option<string>,
                             npeMessage: string): (o: Outcome<()>)
    ensures o.db == db && o.result.Err?
    ensures userId !in db.users ==> o.result.error == Error(EntityNotFound, "User not found")
    ensures userId in db.users && channelId !in db.channels ==> o.result.error == Error(EntityNotFound, "Channel not found")
    ensures userId in db.users && channelId in db.channels && parentId.Some? && parentId.value !in db.messages ==>
      o.result.error == Error(EntityNotFound, "Parent message not found")
    ensures o.result.error == Error(NullPointer, npeMessage) <==>
      userId in db.users && channelId in db.channels && (parentId.None? || parentId.value in db.messages)
  {
    if userId !in db.users then Fail(db, EntityNotFound, "User not found")
    else if channelId !in db.channels then Fail(db, EntityNotFound, "Channel not found")
    else if parentId.Some? && parentId.value !in db.messages then Fail(db, EntityNotFound, "Parent message not found")
    else Fail(db, NullPointer, npeMessage)
  }

  /** The lookups, the save and flush, and the rollback of the failing
      conversion. */
  method CreateMessage(store: Store, channelId: string, userId: string, content: string, parentId: Option<string>,
                       id: string, now: Time, npeMessage: string)
    returns (r: Result<(), Error>)
    modifies store
    ensures r == CreateMessageSpec(old(store.State()), channelId, userId, parentId, npeMessage).result
    ensures store.State() == CreateMessageSpec(old(store.State()), channelId, userId, parentId, npeMessage).db
  {
    var snapshot := store.State();
    if userId !in store.users {
      return Err(Error(EntityNotFound, "User not found"));
    }
    if channelId !in store.channels {
      return Err(Error(EntityNotFound, "Channel not found"));
    }
    if parentId.Some? && parentId.value !in store.messages {
      return Err(Error(EntityNotFound, "Parent message not found"));
    }
    var row := NewMessage(id, channelId, userId, content, parentId, now);
    store.SaveMessage(row);
    // toDto(refreshedMessage) throws: the unit of work rolls back
    store.Restore(snapshot);
    r := Err(Error(NullPointer, npeMessage));
  }

  /** `createMessage` as evidently intended, with `replies` starting empty:
      the row is saved, read back as a stored message and broadcast. */
  function CreateMessageInitialisingReplies(db: Db, channelId: string, userId: string, content: string,
                                            parentId: Option<string>, id: string, now: Time): (o: Outcome<()>)
    ensures o.result.Err? ==> o.db == db
    ensures o.result.Ok? <==>
      userId in db.users && channelId in db.channels && (parentId.None? || parentId.value in db.messages)
    ensures userId !in db.users ==> o.result == Err(Error(EntityNotFound, "User not found"))
    ensures o.result.Ok? ==>
      var row := NewMessage(id, channelId, userId, content, parentId, now);
      var saved := db.(messages := db.messages[id := row]);
      o.db == saved.(published := db.published + NewMessageEvents(saved, row))
  {
    if userId !in db.users then Fail(db, EntityNotFound, "User not found")
    else if channelId !in db.channels then Fail(db, EntityNotFound, "Channel not found")
    else if parentId.Some? && parentId.value !in db.messages then Fail(db, EntityNotFound, "Parent message not found")
    else
      var row := NewMessage(id, channelId, userId, content, parentId, now);
      var saved := db.(messages := db.messages[id := row]);
      Outcome(Ok(()), saved.(published := db.published + NewMessageEvents(saved, row)))
  }

  /** As written, a message that the corrected creation would store and
      broadcast is never stored and never announced: the call fails with the
      null `replies` and the store, events included, is as before. */
  lemma CreationAlwaysRollsBack(db: Db, channelId: string, userId: string, content: string,
                                parentId: Option<string>, id: string, now: Time, npeMessage: string)
    requires CreateMessageInitialisingReplies(db, channelId, userId, content, parentId, id, now).result.Ok?
    ensures var asWritten := CreateMessageSpec(db, channelId, userId, parentId, npeMessage);
      asWritten.result == Err(Error(NullPointer, npeMessage)) && asWritten.db.published == db.published
      && asWritten.db.messages == db.messages
    ensures var intended := CreateMessageInitialisingReplies(db, channelId, userId, content, parentId, id, now);
      |intended.db.published| == |db.published| + 2 && id in intended.db.messages
  {
  }

  /** Both versions refuse the same requests with the same errors. */
  lemma CreationFailuresAgree(db: Db, channelId: string, userId: string, content: string,
                              parentId: Option<string>, id: string, now: Time, npeMessage: string)
    requires CreateMessageInitialisingReplies(db, channelId, userId, content, parentId, id, now).result.Err?
    ensures CreateMessageSpec(db, channelId, userId, parentId, npeMessage)
      == CreateMessageInitialisingReplies(db, channelId, userId, content, parentId, id, now)
  {
  }

  /** With `replies` initialised, the new message carries its own id and
      content in the broadcast, with no replies yet. */
  lemma NewMessageBroadcast(db: Db, channelId: string, userId: string, content: string, parentId: Option<string>,
                            id: string, now: Time)
    requires CreateMessageInitialisingReplies(db, channelId, userId, content, parentId, id, now).result.Ok?
    requires id !in db.messages
    requires forall k :: k in db.messages ==> db.messages[k].parent != Some(id)
    ensures
      var after := CreateMessageInitialisingReplies(db, channelId, userId, content, parentId, id, now).db;
      |after.published| == |db.published| + 2
      && after.published[|db.published|].destination == ChannelTopic(channelId)
      && after.published[|db.published|].event.payload.MessagePayload?
      && after.published[|db.published|].event.payload.message.id == id
      && after.published[|db.published|].event.payload.message.content == content
      && after.published[|db.published|].event.payload.message.parentMessageId == parentId
      && after.published[|db.published|].event.payload.message.replyCount == 0
  {
    var row := NewMessage(id, channelId, userId, content, parentId, now);
    var saved := db.(messages := db.messages[id := row]);
    assert RepliesOf(saved.messages, id) == {} by {
      forall k | k in saved.messages
        ensures saved.messages[k].parent != Some(id)
      {
      }
    }
  }

  /** The corrected creation keeps the store's invariant under a fresh id. */
  lemma CreateKeepsValid(db: Db, channelId: string, userId: string, content: string, parentId: Option<string>,
                         id: string, now: Time)
    requires Valid(db) && id !in db.messages
    ensures Valid(CreateMessageInitialisingReplies(db, channelId, userId, content, parentId, id, now).db)
  {
    var after := CreateMessageInitialisingReplies(db, channelId, userId, content, parentId, id, now).db;
  }

  /** `getChannelMessages`: a member sees the page as DTOs. */
  function GetChannelMessages(db: Db, channelId: string, userId: string, page: seq<Message>)
    : (r: Result<seq<MessageDto>, Error>)
    ensures r.Err? <==> channelId !in db.channels || !IsMember(db, channelId, userId)
    ensures channelId in db.channels && !IsMember(db, channelId, userId) ==> r == Err(Error(AccessDenied, NotMember))
    ensures r.Ok? ==> |r.value| == |page| && forall i :: 0 <= i < |page| ==> r.value[i] == ToMessageDto(db, page[i])
  {
    if channelId !in db.channels then Err(Error(EntityNotFound, "Channel not found"))
    else if !IsMember(db, channelId, userId) then Err(Error(AccessDenied, NotMember))
    else Ok(seq(|page|, i requires 0 <= i < |page| => ToMessageDto(db, page[i])))
  }

  /** `searchMessages`: the same gate and mapping as the channel read;
      `query` only selects the page. */
  function SearchMessages(db: Db, channelId: string, userId: string, query: string, page: seq<Message>)
    : (r: Result<seq<MessageDto>, Error>)
    ensures r.Ok? ==> IsMember(db, channelId, userId)
    ensures r == GetChannelMessages(db, channelId, userId, page)
  {
    if channelId !in db.channels then Err(Error(EntityNotFound, "Channel not found"))
    else if !IsMember(db, channelId, userId) then Err(Error(AccessDenied, NotMember))
    else Ok(seq(|page|, i requires 0 <= i < |page| => ToMessageDto(db, page[i])))
  }

  /** `getThreadMessages`: the gate is membership of the parent's channel. */
  function GetThreadMessages(db: Db, messageId: string, userId: string, page: seq<Message>)
    : (r: Result<seq<MessageDto>, Error>)
    ensures r.Err? <==> messageId !in db.messages || !IsMember(db, db.messages[messageId].channelId, userId)
    ensures messageId !in db.messages ==> r == Err(Error(EntityNotFound, "Message not found"))
    ensures r.Ok? ==> |r.value| == |page| && forall i :: 0 <= i < |page| ==> r.value[i] == ToMessageDto(db, page[i])
  {
    if messageId !in db.messages then Err(Error(EntityNotFound, "Message not found"))
    else if !IsMember(db, db.messages[messageId].channelId, userId) then Err(Error(AccessDenied, NotMember))
    else Ok(seq(|page|, i requires 0 <= i < |page| => ToMessageDto(db, page[i])))
  }

  /** Whether `userId` created the channel `channelId`. */
  predicate CreatedChannel(db: Db, channelId: string, userId: string)
  {
    channelId in db.channels && db.channels[channelId].createdBy == userId
  }

  /** `deleteMessage`'s rule: the author, the channel's creator or an admin. */
  predicate MayDeleteMessage(db: Db, message: Message, userId: string, role: Role)
  {
    message.createdBy == userId || CreatedChannel(db, message.channelId, userId) || role == Admin
  }

  function DeleteMessageSpec(db: Db, messageId: string, userId: string): (o: Outcome<()>)
    ensures o.result.Err? ==> o.db == db
    ensures o.result.Ok? <==>
      messageId in db.messages && userId in db.users
      && (db.messages[messageId].createdBy == userId || CreatedChannel(db, db.messages[messageId].channelId, userId)
          || db.users[userId].role == Admin)
    ensures messageId in db.messages && userId in db.users && !o.result.Ok? ==>
      o.result == Err(Error(AccessDenied, "Not authorized to delete this message"))
    ensures o.result.Ok? ==>
      var channelId := db.messages[messageId].channelId;
      o.db == db.(messages := db.messages - {messageId}, reactions := ReactionsNotOn(db.reactions, messageId),
                  published := db.published + [Envelope(ChannelTopic(channelId),
                                                        WsEvent(MessageDelete, channelId, messageId, None, userId, NoPayload))])
  {
    if messageId !in db.messages then Fail(db, EntityNotFound, "Message not found")
    else if userId !in db.users then Fail(db, EntityNotFound, "User not found")
    else if !MayDeleteMessage(db, db.messages[messageId], userId, db.users[userId].role) then
      Fail(db, AccessDenied, "Not authorized to delete this message")
    else
      var channelId := db.messages[messageId].channelId;
      Outcome(Ok(()), db.(messages := db.messages - {messageId}, reactions := ReactionsNotOn(db.reactions, messageId),
                          published := db.published + [Envelope(ChannelTopic(channelId),
                                                                WsEvent(MessageDelete, channelId, messageId, None, userId, NoPayload))]))
  }

  method DeleteMessage(store: Store, messageId: string, userId: string) returns (r: Result<(), Error>)
    modifies store
    ensures r == DeleteMessageSpec(old(store.State()), messageId, userId).result
    ensures store.State() == DeleteMessageSpec(old(store.State()), messageId, userId).db
  {
    if messageId !in store.messages {
      return Err(Error(EntityNotFound, "Message not found"));
    }
    var message := store.messages[messageId];
    if userId !in store.users {
      return Err(Error(EntityNotFound, "User not found"));
    }
    var user := store.users[userId];
    var channelCreator := if message.channelId in store.channels then Some(store.channels[message.channelId].createdBy) else None;
    if message.createdBy != userId && channelCreator != Some(userId) && user.role != Admin {
      return Err(Error(AccessDenied, "Not authorized to delete this message"));
    }
    var event := WsEvent(MessageDelete, message.channelId, messageId, None, userId, NoPayload);
    store.DeleteMessage(messageId);
    store.Publish(Envelope(ChannelTopic(message.channelId), event));
    r := Ok(());
  }

  /** A deleted message leaves no reaction behind and touches no other
      message or reaction; `Valid` is kept. */
  lemma DeleteKeepsValid(db: Db, messageId: string, userId: string)
    requires Valid(db)
    requires DeleteMessageSpec(db, messageId, userId).result.Ok?
    ensures var after := DeleteMessageSpec(db, messageId, userId).db;
      messageId !in after.messages
      && (forall k :: k in after.reactions ==> after.reactions[k].messageId != messageId)
      && (forall k :: k in db.messages && k != messageId ==> k in after.messages && after.messages[k] == db.messages[k])
      && (forall k :: k in db.reactions && db.reactions[k].messageId != messageId ==> k in after.reactions)
      && Valid(after)
  {
    var after := DeleteMessageSpec(db, messageId, userId).db;
  }

  /** `updateMessage`: the author replaces the content; nothing else of the
      row changes (not even `isEdited` or `editedAt`). */
  function UpdateMessageSpec(db: Db, messageId: string, userId: string, content: string): (o: Outcome<MessageDto>)
    ensures o.result.Err? ==> o.db == db
    ensures o.result.Ok? <==> messageId in db.messages && db.messages[messageId].createdBy == userId
    ensures messageId in db.messages && db.messages[messageId].createdBy != userId ==>
      o.result == Err(Error(AccessDenied, "Only message creator can update the message"))
    ensures o.result.Ok? ==>
      var edited := db.messages[messageId].(content := content);
      var saved := db.(messages := db.messages[edited.id := edited]);
      o.result.value == ToMessageDto(saved, edited)
      && o.db == saved.(published := db.published + [Envelope(ChannelTopic(edited.channelId),
          WsEvent(MessageEdit, edited.channelId, messageId, None, userId, MessagePayload(o.result.value)))])
  {
    if messageId !in db.messages then Fail(db, EntityNotFound, "Message not found")
    else if db.messages[messageId].createdBy != userId then
      Fail(db, AccessDenied, "Only message creator can update the message")
    else
      var edited := db.messages[messageId].(content := content);
      var saved := db.(messages := db.messages[edited.id := edited]);
      var dto := ToMessageDto(saved, edited);
      Outcome(Ok(dto), saved.(published := db.published + [Envelope(ChannelTopic(edited.channelId),
          WsEvent(MessageEdit, edited.channelId, messageId, None, userId, MessagePayload(dto)))]))
  }

  method UpdateMessage(store: Store, messageId: string, userId: string, content: string)
    returns (r: Result<MessageDto, Error>)
    modifies store
    ensures r == UpdateMessageSpec(old(store.State()), messageId, userId, content).result
    ensures store.State() == UpdateMessageSpec(old(store.State()), messageId, userId, content).db
  {
    if messageId !in store.messages {
      return Err(Error(EntityNotFound, "Message not found"));
    }
    var message := store.messages[messageId];
    if message.createdBy != userId {
      return Err(Error(AccessDenied, "Only message creator can update the message"));
    }
    var edited := message.(content := content);
    store.SaveMessage(edited);
    var dto := ToMessageDto(store.State(), edited);
    store.Publish(Envelope(ChannelTopic(edited.channelId),
                           WsEvent(MessageEdit, edited.channelId, messageId, None, userId, MessagePayload(dto))));
    r := Ok(dto);
  }

  /** An edit keeps the author, channel, parent, timestamps and edit flag,
      and keeps `Valid`. */
  lemma UpdateOnlyReplacesContent(db: Db, messageId: string, userId: string, content: string)
    requires Valid(db)
    requires UpdateMessageSpec(db, messageId, userId, content).result.Ok?
    ensures var after := UpdateMessageSpec(db, messageId, userId, content).db;
      after.messages.Keys == db.messages.Keys
      && after.messages[messageId].content == content
      && after.messages[messageId] == db.messages[messageId].(content := content)
      && after.messages[messageId].isEdited == db.messages[messageId].isEdited
      && after.messages[messageId].editedAt == db.messages[messageId].editedAt
      && Valid(after)
  {
    var after := UpdateMessageSpec(db, messageId, userId, content).db;
  }
}
