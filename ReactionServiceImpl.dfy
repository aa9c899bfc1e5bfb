/** `ReactionServiceImpl`: the delete-then-insert add (which fails on an
    existing reaction, see `AddReactionSpec`), the idempotent
    remove, the per-message reads, and the batch read that groups reactions
    by message and then fills in the requested ids that have none.

    The batch read's `findAllByMessageIdIn` result is the parameter
    `fetched`, in the order the repository returns it. */
module ReactionServiceImpl {
  import opened Common
  import opened Domain

  /** The error the commit of `addReaction` ends in when the triple already
      has a reaction: the unique key's violation (the driver's own wording is
      outside the model). */
  const DuplicateTriple := Error(DataIntegrityViolation, "uk_reactions_message_user_emoji")

  /** `addReaction` as written. The existing reaction of the triple is
      removed and the new one persisted in the same unit of work; the new
      row's id is generated, so its INSERT waits for the flush, and the flush
      runs inserts before deletes. A triple that already has a reaction
      therefore breaks `uk_reactions_message_user_emoji` at commit and the
      whole call rolls back. More than one reaction of the triple makes the
      `Optional` lookup itself throw. No event is published. */
  function AddReactionSpec(db: Db, userId: string, messageId: string, emoji: string, id: string, now: Time)
    : (o: Outcome<ReactionSummary>)
    ensures o.result.Err? ==> o.db == db
    ensures o.result.Ok? <==>
      messageId in db.messages && userId in db.users && ReactionsOf(db.reactions, messageId, userId, emoji) == {}
    ensures messageId !in db.messages ==> o.result == Err(Error(EntityNotFound, "Message not found: " + messageId))
    ensures messageId in db.messages && userId !in db.users ==>
      o.result == Err(Error(EntityNotFound, "User not found: " + userId))
    ensures messageId in db.messages && userId in db.users && |ReactionsOf(db.reactions, messageId, userId, emoji)| == 1
      ==> o.result == Err(DuplicateTriple)
    ensures o.result.Ok? ==>
      o.db == db.(reactions := db.reactions[id := Reaction(id, emoji, userId, messageId, now)])
      && o.result.value == ReactionSummary(id, emoji, userId, db.users[userId].username, messageId)
  {
    if messageId !in db.messages then Fail(db, EntityNotFound, "Message not found: " + messageId)
    else if userId !in db.users then Fail(db, EntityNotFound, "User not found: " + userId)
    else
      var existing := ReactionsOf(db.reactions, messageId, userId, emoji);
      if |existing| > 1 then Fail(db, IncorrectResultSize, "query did not return a unique result: " + NatToString(|existing|))
      else if |existing| == 1 then Outcome(Err(DuplicateTriple), db)
      else
        var reaction := Reaction(id, emoji, userId, messageId, now);
        var after := db.(reactions := db.reactions[id := reaction]);
        Outcome(Ok(Summary(after, reaction)), after)
  }

  method AddReaction(store: Store, userId: string, messageId: string, emoji: string, id: string, now: Time)
    returns (r: Result<ReactionSummary, Error>)
    modifies store
    ensures r == AddReactionSpec(old(store.State()), userId, messageId, emoji, id, now).result
    ensures store.State() == AddReactionSpec(old(store.State()), userId, messageId, emoji, id, now).db
  {
    if messageId !in store.messages {
      return Err(Error(EntityNotFound, "Message not found: " + messageId));
    }
    if userId !in store.users {
      return Err(Error(EntityNotFound, "User not found: " + userId));
    }
    var existing := ReactionsOf(store.reactions, messageId, userId, emoji);
    if |existing| > 1 {
      return Err(Error(IncorrectResultSize, "query did not return a unique result: " + NatToString(|existing|)));
    }
    var snapshot := store.State();
    store.DeleteReactionsOf(messageId, userId, emoji);
    var reaction := Reaction(id, emoji, userId, messageId, now);
    store.SaveReaction(reaction);
    if |existing| == 1 {
      // the flush inserts the new row while the old one is still there
      store.Restore(snapshot);
      return Err(DuplicateTriple);
    }
    assert WithoutTriple(snapshot.reactions, messageId, userId, emoji) == snapshot.reactions;
    r := Ok(Summary(store.State(), reaction));
  }

  /** As written, re-adding a reaction the user already has fails and
      changes nothing, although the call is meant to replace it. */
  lemma ReAddingFails(db: Db, userId: string, messageId: string, emoji: string, id: string, now: Time, present: string)
    requires messageId in db.messages && userId in db.users && Valid(db)
    requires present in db.reactions && db.reactions[present].messageId == messageId && db.reactions[present].userId == userId
             && db.reactions[present].emoji == emoji
    ensures AddReactionSpec(db, userId, messageId, emoji, id, now) == Outcome(Err(DuplicateTriple), db)
    ensures AddReactionReplacing(db, userId, messageId, emoji, id, now).result.Ok?
  {
    var existing := ReactionsOf(db.reactions, messageId, userId, emoji);
    assert present in existing;
    assert existing == {present};
  }

  /** The intended delete-then-insert, with the delete flushed before the
      insert: any reaction of the same (message, user, emoji) is replaced by
      the new one. */
  function AddReactionReplacing(db: Db, userId: string, messageId: string, emoji: string, id: string, now: Time)
    : (o: Outcome<ReactionSummary>)
    ensures o.result.Err? ==> o.db == db
    ensures o.result.Ok? <==> messageId in db.messages && userId in db.users
    ensures messageId !in db.messages ==> o.result == Err(Error(EntityNotFound, "Message not found: " + messageId))
    ensures o.result.Ok? ==>
      ReactionsOf(o.db.reactions, messageId, userId, emoji) == {id}
      && o.db == db.(reactions := o.db.reactions)
      && o.result.value == ReactionSummary(id, emoji, userId, db.users[userId].username, messageId)
  {
    if messageId !in db.messages then Fail(db, EntityNotFound, "Message not found: " + messageId)
    else if userId !in db.users then Fail(db, EntityNotFound, "User not found: " + userId)
    else
      var reaction := Reaction(id, emoji, userId, messageId, now);
      var after := db.(reactions := WithoutTriple(db.reactions, messageId, userId, emoji)[id := reaction]);
      Outcome(Ok(Summary(after, reaction)), after)
  }

  /** The replacing add keeps the unique constraint: whatever the store
      held, the triple has exactly one reaction afterwards and `Valid` holds;
      where the triple was free it agrees with the add as written. */
  lemma AddKeepsValid(db: Db, userId: string, messageId: string, emoji: string, id: string, now: Time)
    requires Valid(db)
    requires AddReactionReplacing(db, userId, messageId, emoji, id, now).result.Ok?
    ensures Valid(AddReactionReplacing(db, userId, messageId, emoji, id, now).db)
    ensures ReactionsOf(db.reactions, messageId, userId, emoji) == {} ==>
      AddReactionSpec(db, userId, messageId, emoji, id, now) == AddReactionReplacing(db, userId, messageId, emoji, id, now)
  {
    var after := AddReactionReplacing(db, userId, messageId, emoji, id, now).db;
    var cleared := WithoutTriple(db.reactions, messageId, userId, emoji);
    assert after.reactions == cleared[id := Reaction(id, emoji, userId, messageId, now)];
    forall a, b | a in after.reactions && b in after.reactions && a != b
      ensures (after.reactions[a].messageId, after.reactions[a].userId, after.reactions[a].emoji)
           != (after.reactions[b].messageId, after.reactions[b].userId, after.reactions[b].emoji)
    {
      if a == id {
        assert b in cleared;
      } else if b == id {
        assert a in cleared;
      } else {
        assert a in db.reactions && b in db.reactions;
      }
    }
    if ReactionsOf(db.reactions, messageId, userId, emoji) == {} {
      assert cleared == db.reactions;
    }
  }

  /** `removeReaction`: a stored message is required; then every reaction
      of the triple is deleted, if there is one. */
  function RemoveReactionSpec(db: Db, userId: string, messageId: string, emoji: string): (o: Outcome<()>)
    ensures o.result.Err? <==> messageId !in db.messages
    ensures o.result.Err? ==> o.db == db && o.result.error == Error(EntityNotFound, "Message not found: " + messageId)
    ensures o.result.Ok? ==>
      ReactionsOf(o.db.reactions, messageId, userId, emoji) == {}
      && o.db == db.(reactions := o.db.reactions)
      && (forall k :: k in db.reactions && k !in ReactionsOf(db.reactions, messageId, userId, emoji) ==>
            k in o.db.reactions && o.db.reactions[k] == db.reactions[k])
  {
    if messageId !in db.messages then Fail(db, EntityNotFound, "Message not found: " + messageId)
    else Outcome(Ok(()), db.(reactions := WithoutTriple(db.reactions, messageId, userId, emoji)))
  }

  method RemoveReaction(store: Store, userId: string, messageId: string, emoji: string)
    returns (r: Result<(), Error>)
    modifies store
    ensures r == RemoveReactionSpec(old(store.State()), userId, messageId, emoji).result
    ensures store.State() == RemoveReactionSpec(old(store.State()), userId, messageId, emoji).db
  {
    if messageId !in store.messages {
      return Err(Error(EntityNotFound, "Message not found: " + messageId));
    }
    store.DeleteReactionsOf(messageId, userId, emoji);
    r := Ok(());
  }

  /** Removing twice is removing once. */
  lemma RemoveIdempotent(db: Db, userId: string, messageId: string, emoji: string)
    ensures var once := RemoveReactionSpec(db, userId, messageId, emoji);
      RemoveReactionSpec(once.db, userId, messageId, emoji) == once
  {
    var once := RemoveReactionSpec(db, userId, messageId, emoji);
    if messageId in db.messages {
      var twice := RemoveReactionSpec(once.db, userId, messageId, emoji);
      assert twice.db.reactions == once.db.reactions;
    }
  }

  /** `getReactionsForMessage`. */
  function GetReactionsForMessage(db: Db, messageId: string): (r: Result<set<ReactionSummary>, Error>)
    ensures r.Err? <==> messageId !in db.messages
    ensures r.Ok? ==> forall d :: d in r.value <==>
      exists k :: k in db.reactions && db.reactions[k].messageId == messageId && d == Summary(db, db.reactions[k])
  {
    if messageId !in db.messages then Err(Error(EntityNotFound, "Message not found: " + messageId))
    else Ok(set k | k in db.reactions && db.reactions[k].messageId == messageId :: Summary(db, db.reactions[k]))
  }

  /** The ids of the reactions with `emoji` on `messageId`. */
  function EmojiReactions(reactions: map<string, Reaction>, messageId: string, emoji: string): set<string>
  {
    set k | k in reactions && reactions[k].messageId == messageId && reactions[k].emoji == emoji
  }

  /** `getReactionCount`. */
  function GetReactionCount(db: Db, messageId: string, emoji: string): (r: Result<nat, Error>)
    ensures r.Err? <==> messageId !in db.messages
    ensures r.Ok? ==> r.value == |EmojiReactions(db.reactions, messageId, emoji)|
  {
    if messageId !in db.messages then Err(Error(EntityNotFound, "Message not found: " + messageId))
    else Ok(|EmojiReactions(db.reactions, messageId, emoji)|)
  }

  /** The users who reacted to `messageId` with `emoji`. */
  function Reactors(reactions: map<string, Reaction>, messageId: string, emoji: string): set<string>
  {
    set k | k in EmojiReactions(reactions, messageId, emoji) :: reactions[k].userId
  }

  /** Under the unique constraint, an emoji's count is the number of users
      who reacted with it. */
  lemma CountIsReactors(db: Db, messageId: string, emoji: string)
    requires ReactionsUnique(db.reactions)
    requires messageId in db.messages
    ensures GetReactionCount(db, messageId, emoji).value == |Reactors(db.reactions, messageId, emoji)|
  {
    InjectiveImage(db.reactions, EmojiReactions(db.reactions, messageId, emoji));
  }

  /** Reactions of one (message, emoji) with distinct keys have distinct users. */
  lemma {:induction false} InjectiveImage(reactions: map<string, Reaction>, ks: set<string>)
    requires ReactionsUnique(reactions)
    requires forall k :: k in ks ==> k in reactions
    requires forall a, b :: a in ks && b in ks ==>
      reactions[a].messageId == reactions[b].messageId && reactions[a].emoji == reactions[b].emoji
    ensures |set k | k in ks :: reactions[k].userId| == |ks|
    decreases |ks|
  {
    if ks != {} {
      var k :| k in ks;
      var rest := ks - {k};
      InjectiveImage(reactions, rest);
      var image := set j | j in ks :: reactions[j].userId;
      var restImage := set j | j in rest :: reactions[j].userId;
      assert image == restImage + {reactions[k].userId};
      forall j | j in rest
        ensures reactions[j].userId != reactions[k].userId
      {
        assert j != k;
      }
    }
  }

  /** The builder-made DTOs of the fetched reactions, in fetch order. */
  function Summaries(db: Db, fetched: seq<Reaction>): (r: seq<ReactionSummary>)
    ensures |r| == |fetched| && forall i :: 0 <= i < |r| ==> r[i] == Summary(db, fetched[i])
  {
    seq(|fetched|, i requires 0 <= i < |fetched| => Summary(db, fetched[i]))
  }

  /** The DTOs filed under one message id, in fetch order. */
  function FiledUnder(dtos: seq<ReactionSummary>, messageId: string): (r: seq<ReactionSummary>)
    ensures forall d :: d in r <==> d in dtos && d.messageId == messageId
    ensures (forall d :: d in dtos ==> d.messageId != messageId) ==> r == []
  {
    Filter(dtos, (d: ReactionSummary) => d.messageId == messageId)
  }

  /** `Collectors.groupingBy(ReactionDTO::getMessageId)`. */
  function GroupByMessage(dtos: seq<ReactionSummary>): (r: map<string, seq<ReactionSummary>>)
    ensures forall k :: k in r <==> exists d :: d in dtos && d.messageId == k
    ensures forall k :: k in r ==> r[k] == FiledUnder(dtos, k)
  {
    map k | k in (set d | d in dtos :: d.messageId) :: FiledUnder(dtos, k)
  }

  /** The result of `getReactionsForMessages`: the grouping, with every
      requested id present. */
  function ReactionsForMessages(dtos: seq<ReactionSummary>, messageIds: seq<string>): (r: map<string, seq<ReactionSummary>>)
    ensures forall k :: k in messageIds ==> k in r
    ensures forall k :: k in r <==> k in messageIds || k in GroupByMessage(dtos)
    ensures forall k :: k in r ==> r[k] == FiledUnder(dtos, k)
    ensures forall k :: k in messageIds && (forall d :: d in dtos ==> d.messageId != k) ==> r[k] == []
    ensures forall k, d :: k in r && d in r[k] ==> d.messageId == k
  {
    var keys := GroupByMessage(dtos).Keys + set k | k in messageIds;
    var r := map k | k in keys :: FiledUnder(dtos, k);
    r
  }

  /** `getReactionsForMessages`: the grouping, then a `putIfAbsent` pass
      over the requested ids. */
  method GetReactionsForMessages(db: Db, messageIds: seq<string>, fetched: seq<Reaction>)
    returns (r: map<string, seq<ReactionSummary>>)
    ensures r == ReactionsForMessages(Summaries(db, fetched), messageIds)
  {
    var dtos := Summaries(db, fetched);
    r := GroupByMessage(dtos);
    var i := 0;
    while i < |messageIds|
      invariant 0 <= i <= |messageIds|
      invariant forall k :: k in r <==> k in messageIds[..i] || k in GroupByMessage(dtos)
      invariant forall k :: k in r ==> r[k] == FiledUnder(dtos, k)
    {
      var id := messageIds[i];
      if id !in r {
        assert forall d :: d in dtos ==> d.messageId != id;
        r := r[id := []];
      }
      assert messageIds[..i + 1] == messageIds[..i] + [id];
      i := i + 1;
    }
    assert messageIds[..i] == messageIds;
    var expected := ReactionsForMessages(dtos, messageIds);
    assert r.Keys == expected.Keys;
  }
}
