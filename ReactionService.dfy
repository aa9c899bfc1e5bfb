/** `ReactionService`: adding and removing a reaction with the checks, in
    their order, and the events each publishes on the channel topic. */
module ReactionService {
  import opened Common
  import opened Domain

  /** The channel of a stored message (every reaction's message is stored
      in a `Valid` store, so the fallback is never shown). */
  function ChannelOfMessage(db: Db, messageId: string): string
  {
    if messageId in db.messages then db.messages[messageId].channelId else ""
  }

  /** The two envelopes of an added reaction. */
  function AddedEvents(channelId: string, dto: ReactionDto, userId: string, messageId: string, reactionId: string)
    : (r: seq<Envelope>)
    ensures |r| == 2
    ensures r[0] == Envelope(ChannelTopic(channelId),
                             WsEvent(ReactionAdd, channelId, messageId, Some(reactionId), userId, ReactionPayload(dto)))
    ensures r[1] == Envelope(NotificationsTopic, WsEvent(Notification, channelId, messageId, None, userId, NoPayload))
  {
    [Envelope(ChannelTopic(channelId),
              WsEvent(ReactionAdd, channelId, messageId, Some(reactionId), userId, ReactionPayload(dto))),
     Envelope(NotificationsTopic, WsEvent(Notification, channelId, messageId, None, userId, NoPayload))]
  }

  /** `addReaction`. `id` is the generated id and `now` the creation time. */
  function AddReactionSpec(db: Db, messageId: string, userId: string, emoji: string, id: string, now: Time)
    : (o: Outcome<()>)
    ensures o.result.Err? ==> o.db == db
    ensures o.result.Ok? <==>
      messageId in db.messages && userId in db.users && IsMember(db, db.messages[messageId].channelId, userId)
      && ReactionsOf(db.reactions, messageId, userId, emoji) == {}
    ensures messageId in db.messages && userId in db.users && !IsMember(db, db.messages[messageId].channelId, userId)
      ==> o.result == Err(Error(AccessDenied, "User is not a member of this channel"))
    ensures messageId in db.messages && userId in db.users && IsMember(db, db.messages[messageId].channelId, userId)
      && ReactionsOf(db.reactions, messageId, userId, emoji) != {}
      ==> o.result == Err(Error(IllegalState, "Reaction already exists"))
    ensures o.result.Ok? ==>
      var reaction := Reaction(id, emoji, userId, messageId, now);
      var saved := db.(reactions := db.reactions[id := reaction]);
      o.db == saved.(published := db.published + AddedEvents(db.messages[messageId].channelId,
                                                              ToReactionDto(saved, reaction), userId, messageId, id))
  {
    if messageId !in db.messages then Fail(db, EntityNotFound, "Message not found")
    else if userId !in db.users then Fail(db, EntityNotFound, "User not found")
    else if !IsMember(db, db.messages[messageId].channelId, userId) then
      Fail(db, AccessDenied, "User is not a member of this channel")
    else if ReactionsOf(db.reactions, messageId, userId, emoji) != {} then
      Fail(db, IllegalState, "Reaction already exists")
    else
      var reaction := Reaction(id, emoji, userId, messageId, now);
      var saved := db.(reactions := db.reactions[id := reaction]);
      Outcome(Ok(()), saved.(published := db.published + AddedEvents(db.messages[messageId].channelId,
                                                                      ToReactionDto(saved, reaction), userId, messageId, id)))
  }

  method AddReaction(store: Store, messageId: string, userId: string, emoji: string, id: string, now: Time)
    returns (r: Result<(), Error>)
    modifies store
    ensures r == AddReactionSpec(old(store.State()), messageId, userId, emoji, id, now).result
    ensures store.State() == AddReactionSpec(old(store.State()), messageId, userId, emoji, id, now).db
  {
    if messageId !in store.messages {
      return Err(Error(EntityNotFound, "Message not found"));
    }
    var message := store.messages[messageId];
    if userId !in store.users {
      return Err(Error(EntityNotFound, "User not found"));
    }
    if (message.channelId, userId) !in store.memberships {
      return Err(Error(AccessDenied, "User is not a member of this channel"));
    }
    if ReactionsOf(store.reactions, messageId, userId, emoji) != {} {
      return Err(Error(IllegalState, "Reaction already exists"));
    }
    var reaction := Reaction(id, emoji, userId, messageId, now);
    store.SaveReaction(reaction);
    var events := AddedEvents(message.channelId, ToReactionDto(store.State(), reaction), userId, messageId, id);
    store.Publish(events[0]);
    store.Publish(events[1]);
    assert store.published == old(store.published) + events;
    r := Ok(());
  }

  /** An added reaction is the only one of its triple, and the store stays
      `Valid`: the duplicate check keeps the unique constraint. */
  lemma AddKeepsValid(db: Db, messageId: string, userId: string, emoji: string, id: string, now: Time)
    requires Valid(db) && id !in db.reactions
    requires AddReactionSpec(db, messageId, userId, emoji, id, now).result.Ok?
    ensures var after := AddReactionSpec(db, messageId, userId, emoji, id, now).db;
      ReactionsOf(after.reactions, messageId, userId, emoji) == {id} && Valid(after)
  {
    var after := AddReactionSpec(db, messageId, userId, emoji, id, now).db;
    forall a, b | a in after.reactions && b in after.reactions && a != b
      ensures (after.reactions[a].messageId, after.reactions[a].userId, after.reactions[a].emoji)
           != (after.reactions[b].messageId, after.reactions[b].userId, after.reactions[b].emoji)
    {
      if a == id {
        assert b !in ReactionsOf(db.reactions, messageId, userId, emoji);
      } else if b == id {
        assert a !in ReactionsOf(db.reactions, messageId, userId, emoji);
      }
    }
  }

  /** `removeReaction`: it exists, it is on this message, and it is the
      requester's own, checked in that order. */
  function RemoveReactionSpec(db: Db, messageId: string, reactionId: string, userId: string): (o: Outcome<()>)
    ensures o.result.Err? ==> o.db == db
    ensures reactionId !in db.reactions ==> o.result == Err(Error(EntityNotFound, "Reaction not found"))
    ensures reactionId in db.reactions && db.reactions[reactionId].messageId != messageId ==>
      o.result == Err(Error(IllegalArgument, "Reaction does not belong to this message"))
    ensures reactionId in db.reactions && db.reactions[reactionId].messageId == messageId
            && db.reactions[reactionId].userId != userId
      ==> o.result == Err(Error(AccessDenied, "Only reaction creator can remove it"))
    ensures o.result.Ok? <==>
      reactionId in db.reactions && db.reactions[reactionId].messageId == messageId
      && db.reactions[reactionId].userId == userId
    ensures o.result.Ok? ==>
      var channelId := ChannelOfMessage(db, messageId);
      o.db == db.(reactions := db.reactions - {reactionId},
                  published := db.published + [Envelope(ChannelTopic(channelId),
                    WsEvent(ReactionRemove, channelId, messageId, Some(reactionId), userId,
                            EmojiPayload(db.reactions[reactionId].emoji)))])
  {
    if reactionId !in db.reactions then Fail(db, EntityNotFound, "Reaction not found")
    else if db.reactions[reactionId].messageId != messageId then
      Fail(db, IllegalArgument, "Reaction does not belong to this message")
    else if db.reactions[reactionId].userId != userId then Fail(db, AccessDenied, "Only reaction creator can remove it")
    else
      var channelId := ChannelOfMessage(db, messageId);
      Outcome(Ok(()), db.(reactions := db.reactions - {reactionId},
                          published := db.published + [Envelope(ChannelTopic(channelId),
                            WsEvent(ReactionRemove, channelId, messageId, Some(reactionId), userId,
                                    EmojiPayload(db.reactions[reactionId].emoji)))]))
  }

  method RemoveReaction(store: Store, messageId: string, reactionId: string, userId: string)
    returns (r: Result<(), Error>)
    modifies store
    ensures r == RemoveReactionSpec(old(store.State()), messageId, reactionId, userId).result
    ensures store.State() == RemoveReactionSpec(old(store.State()), messageId, reactionId, userId).db
  {
    if reactionId !in store.reactions {
      return Err(Error(EntityNotFound, "Reaction not found"));
    }
    var reaction := store.reactions[reactionId];
    if reaction.messageId != messageId {
      return Err(Error(IllegalArgument, "Reaction does not belong to this message"));
    }
    if reaction.userId != userId {
      return Err(Error(AccessDenied, "Only reaction creator can remove it"));
    }
    var channelId := ChannelOfMessage(store.State(), messageId);
    var event := WsEvent(ReactionRemove, channelId, messageId, Some(reactionId), userId, EmojiPayload(reaction.emoji));
    store.DeleteReaction(reactionId);
    store.Publish(Envelope(ChannelTopic(channelId), event));
    r := Ok(());
  }

  /** Removing keeps `Valid` and frees the triple for a new reaction. */
  lemma RemoveKeepsValid(db: Db, messageId: string, reactionId: string, userId: string)
    requires Valid(db)
    requires RemoveReactionSpec(db, messageId, reactionId, userId).result.Ok?
    ensures var after := RemoveReactionSpec(db, messageId, reactionId, userId).db;
      Valid(after)
      && ReactionsOf(after.reactions, messageId, userId, db.reactions[reactionId].emoji) == {}
  {
    var emoji := db.reactions[reactionId].emoji;
    var after := RemoveReactionSpec(db, messageId, reactionId, userId).db;
    forall k | k in after.reactions
      ensures k !in ReactionsOf(after.reactions, messageId, userId, emoji)
    {
      assert k != reactionId;
      assert k in db.reactions && reactionId in db.reactions;
    }
  }

  /** `findByMessageId`: the reactions of a stored message, as DTOs. */
  function FindByMessageId(db: Db, messageId: string): (r: Result<set<ReactionDto>, Error>)
    ensures r.Err? <==> messageId !in db.messages
    ensures r.Ok? ==> forall d :: d in r.value <==>
      exists k :: k in db.reactions && db.reactions[k].messageId == messageId && d == ToReactionDto(db, db.reactions[k])
    ensures r.Ok? ==> forall d :: d in r.value ==> d.messageId == Some(messageId)
  {
    if messageId !in db.messages then Err(Error(EntityNotFound, "Message not found"))
    else Ok(set k | k in db.reactions && db.reactions[k].messageId == messageId :: ToReactionDto(db, db.reactions[k]))
  }
}
