/** The reaction cache of the `useMessageReactions` hook: the pure updaters
    applied after each API call or broadcast, the fetch rule, and the hook's
    mutable refs (`lastFetchedMessageIds`, `isMounted`) as a small class. */
module MessageReactions {
  import opened Common
  import opened FrontendTypes

  /** `Record<string, ReactionDTO[]>`: reactions per message id. */
  type ReactionsByMessage = map<string, seq<Reaction>>

  /** `prev[messageId] || []`. */
  function ListOf(state: ReactionsByMessage, messageId: string): seq<Reaction>
  {
    if messageId in state then state[messageId] else []
  }

  /** The list without the reactions of `userId` with `emoji`, order kept. */
  function DropUserEmoji(list: seq<Reaction>, userId: string, emoji: string): (r: seq<Reaction>)
    ensures forall x :: x in r <==> x in list && !(x.userId == userId && x.emoji == emoji)
  {
    if list == [] then []
    else if list[0].userId == userId && list[0].emoji == emoji then DropUserEmoji(list[1..], userId, emoji)
    else [list[0]] + DropUserEmoji(list[1..], userId, emoji)
  }

  /** The list without any reaction carrying `emoji`, order kept. */
  function DropEmoji(list: seq<Reaction>, emoji: string): (r: seq<Reaction>)
    ensures forall x :: x in r <==> x in list && x.emoji != emoji
  {
    if list == [] then []
    else if list[0].emoji == emoji then DropEmoji(list[1..], emoji)
    else [list[0]] + DropEmoji(list[1..], emoji)
  }

  /** Number of reactions in `list` by `userId` with `emoji`. */
  function CountUserEmoji(list: seq<Reaction>, userId: string, emoji: string): nat
  {
    if list == [] then 0
    else (if list[0].userId == userId && list[0].emoji == emoji then 1 else 0) + CountUserEmoji(list[1..], userId, emoji)
  }

  lemma {:induction false} CountUserEmojiAppend(a: seq<Reaction>, b: seq<Reaction>, userId: string, emoji: string)
    ensures CountUserEmoji(a + b, userId, emoji) == CountUserEmoji(a, userId, emoji) + CountUserEmoji(b, userId, emoji)
  {
    if a == [] {
      assert a + b == b;
    } else {
      assert (a + b)[1..] == a[1..] + b;
      CountUserEmojiAppend(a[1..], b, userId, emoji);
    }
  }

  lemma {:induction false} CountAfterDrop(list: seq<Reaction>, userId: string, emoji: string)
    ensures CountUserEmoji(DropUserEmoji(list, userId, emoji), userId, emoji) == 0
  {
    if list != [] {
      CountAfterDrop(list[1..], userId, emoji);
      if !(list[0].userId == userId && list[0].emoji == emoji) {
        CountUserEmojiAppend([list[0]], DropUserEmoji(list[1..], userId, emoji), userId, emoji);
      }
    }
  }

  lemma {:induction false} DropUserEmojiTwice(list: seq<Reaction>, userId: string, emoji: string)
    ensures DropUserEmoji(DropUserEmoji(list, userId, emoji), userId, emoji) == DropUserEmoji(list, userId, emoji)
  {
    if list != [] {
      DropUserEmojiTwice(list[1..], userId, emoji);
      if !(list[0].userId == userId && list[0].emoji == emoji) {
        var rest := DropUserEmoji(list[1..], userId, emoji);
        assert ([list[0]] + rest)[0] == list[0];
        assert ([list[0]] + rest)[1..] == rest;
      }
    }
  }

  lemma {:induction false} DropUserEmojiAppend(a: seq<Reaction>, b: seq<Reaction>, userId: string, emoji: string)
    ensures DropUserEmoji(a + b, userId, emoji) == DropUserEmoji(a, userId, emoji) + DropUserEmoji(b, userId, emoji)
  {
    if a == [] {
      assert a + b == b;
    } else {
      assert (a + b)[1..] == a[1..] + b;
      DropUserEmojiAppend(a[1..], b, userId, emoji);
    }
  }

  /** `handleAddReaction` after `addReaction(messageId, emoji)` answered
      `response`: a failed call leaves the state alone. */
  function AfterAdd(prev: ReactionsByMessage, messageId: string, emoji: string, response: Option<Reaction>): (r: ReactionsByMessage)
    ensures response.None? ==> r == prev
    ensures response.Some? ==>
      r.Keys == prev.Keys + {messageId}
      && r[messageId] == DropUserEmoji(ListOf(prev, messageId), response.value.userId, emoji) + [response.value]
      && forall k :: k in prev && k != messageId ==> r[k] == prev[k]
  {
    match response
    case None => prev
    case Some(reaction) =>
      prev[messageId := DropUserEmoji(ListOf(prev, messageId), reaction.userId, emoji) + [reaction]]
  }

  /** After a successful add the message carries exactly one reaction of the
      returned user with that emoji, and it is the returned one, in last place. */
  lemma AddLeavesOne(prev: ReactionsByMessage, messageId: string, emoji: string, reaction: Reaction)
    requires reaction.emoji == emoji
    ensures CountUserEmoji(AfterAdd(prev, messageId, emoji, Some(reaction))[messageId], reaction.userId, emoji) == 1
  {
    var kept := DropUserEmoji(ListOf(prev, messageId), reaction.userId, emoji);
    CountUserEmojiAppend(kept, [reaction], reaction.userId, emoji);
    CountAfterDrop(ListOf(prev, messageId), reaction.userId, emoji);
  }

  /** Repeating the same successful add changes nothing more. */
  lemma AddIdempotent(prev: ReactionsByMessage, messageId: string, emoji: string, reaction: Reaction)
    requires reaction.emoji == emoji
    ensures AfterAdd(AfterAdd(prev, messageId, emoji, Some(reaction)), messageId, emoji, Some(reaction))
         == AfterAdd(prev, messageId, emoji, Some(reaction))
  {
    var once := AfterAdd(prev, messageId, emoji, Some(reaction));
    var kept := DropUserEmoji(ListOf(prev, messageId), reaction.userId, emoji);
    DropUserEmojiAppend(kept, [reaction], reaction.userId, emoji);
    DropUserEmojiTwice(ListOf(prev, messageId), reaction.userId, emoji);
    assert DropUserEmoji([reaction], reaction.userId, emoji) == [];
    assert DropUserEmoji(ListOf(once, messageId), reaction.userId, emoji) == kept;
  }

  /** `handleRemoveReaction` after `removeReaction(messageId, emoji)`
      succeeded (`ok`) or failed. */
  function AfterRemove(prev: ReactionsByMessage, messageId: string, emoji: string, ok: bool): (r: ReactionsByMessage)
    ensures !ok ==> r == prev
    ensures ok ==>
      r.Keys == prev.Keys + {messageId}
      && (forall x :: x in r[messageId] <==> x in ListOf(prev, messageId) && x.emoji != emoji)
      && forall k :: k in prev && k != messageId ==> r[k] == prev[k]
  {
    if ok then prev[messageId := DropEmoji(ListOf(prev, messageId), emoji)] else prev
  }

  /** After a successful remove no reaction with that emoji remains, from any
      user, and a message without an entry gets the empty list. */
  lemma RemoveClearsEmoji(prev: ReactionsByMessage, messageId: string, emoji: string)
    ensures forall x :: x in AfterRemove(prev, messageId, emoji, true)[messageId] ==> x.emoji != emoji
    ensures messageId !in prev ==> AfterRemove(prev, messageId, emoji, true)[messageId] == []
  {
  }

  /** `handleReactionUpdate`: a broadcast list replaces the message's list
      only while mounted and for a tracked message. */
  function AfterReactionUpdate(prev: ReactionsByMessage, isMounted: bool, messageIds: seq<string>,
                               messageId: string, reactions: seq<Reaction>): (r: ReactionsByMessage)
    ensures (isMounted && messageId in messageIds) ==> r == prev[messageId := reactions]
    ensures !(isMounted && messageId in messageIds) ==> r == prev
  {
    if isMounted && messageId in messageIds then prev[messageId := reactions] else prev
  }

  /** The fetch effect's rule: enabled, some ids, and one of them not in the
      last fetched batch. */
  function ShouldFetch(enabled: bool, messageIds: seq<string>, lastFetched: seq<string>): bool
  {
    enabled && |messageIds| > 0 && exists i :: 0 <= i < |messageIds| && messageIds[i] !in lastFetched
  }

  /** An enabled hook with an id outside the last batch fetches. */
  lemma NewIdIsFetched(enabled: bool, messageIds: seq<string>, lastFetched: seq<string>, i: nat)
    requires enabled && i < |messageIds| && messageIds[i] !in lastFetched
    ensures ShouldFetch(enabled, messageIds, lastFetched)
  {
  }

  /** A disabled hook, an empty id list, or a batch already fetched never fetches. */
  lemma FetchedBatchIsNotRefetched(enabled: bool, batch: seq<string>, messageIds: seq<string>)
    requires !enabled || messageIds == [] || forall i :: 0 <= i < |messageIds| ==> messageIds[i] in batch
    ensures !ShouldFetch(enabled, messageIds, batch)
  {
  }

  /** Whether the broadcast handler is registered: only while enabled and connected. */
  function HandlerRegistered(enabled: bool, isConnected: bool): bool
  {
    enabled && isConnected
  }

  /** The reaction-handler set after the subscribe effect ran. */
  function AfterSubscribe(handlers: set<nat>, handler: nat, enabled: bool, isConnected: bool): (r: set<nat>)
    ensures HandlerRegistered(enabled, isConnected) ==> r == handlers + {handler}
    ensures !HandlerRegistered(enabled, isConnected) ==> r == handlers
  {
    if HandlerRegistered(enabled, isConnected) then handlers + {handler} else handlers
  }

  /** The reaction-handler set after that effect's cleanup (run only when it registered). */
  function AfterCleanup(handlers: set<nat>, handler: nat, enabled: bool, isConnected: bool): (r: set<nat>)
    ensures HandlerRegistered(enabled, isConnected) ==> r == handlers - {handler}
    ensures !HandlerRegistered(enabled, isConnected) ==> r == handlers
  {
    if HandlerRegistered(enabled, isConnected) then handlers - {handler} else handlers
  }

  /** Subscribe then clean up restores the handler set the hook found,
      provided its handler was not already registered. */
  lemma SubscribeCleanupRestores(handlers: set<nat>, handler: nat, enabled: bool, isConnected: bool)
    requires handler !in handlers
    ensures AfterCleanup(AfterSubscribe(handlers, handler, enabled, isConnected), handler, enabled, isConnected) == handlers
  {
  }

  /** The hook instance: the cached reactions and the two refs. */
  class ReactionsHook {
    var reactionsByMessageId: ReactionsByMessage
    var lastFetchedMessageIds: seq<string>
    var isMounted: bool

    constructor ()
      ensures reactionsByMessageId == map[] && lastFetchedMessageIds == [] && isMounted
    {
      reactionsByMessageId := map[];
      lastFetchedMessageIds := [];
      isMounted := true;
    }

    /** The fetch effect: whether it calls `fetchReactions` for `messageIds`. */
    method FetchEffect(enabled: bool, messageIds: seq<string>) returns (fetch: bool)
      ensures fetch == ShouldFetch(enabled, messageIds, lastFetchedMessageIds)
    {
      fetch := ShouldFetch(enabled, messageIds, lastFetchedMessageIds);
    }

    /** First half of `fetchReactions`, up to the request: with a (truthy)
        token while mounted it records the batch and sends the request. */
    method BeginFetch(messageIds: seq<string>, token: Option<string>) returns (requested: bool)
      modifies this
      ensures requested == (token.Some? && token.value != "" && old(isMounted))
      ensures lastFetchedMessageIds == if requested then messageIds else old(lastFetchedMessageIds)
      ensures reactionsByMessageId == old(reactionsByMessageId) && isMounted == old(isMounted)
    {
      requested := token.Some? && token.value != "" && isMounted;
      if requested {
        lastFetchedMessageIds := messageIds;
      }
    }

    /** Second half: the answer is stored only if still mounted; a failure only logs. */
    method CompleteFetch(response: Option<ReactionsByMessage>)
      modifies this
      ensures reactionsByMessageId == if response.Some? && old(isMounted) then response.value else old(reactionsByMessageId)
      ensures lastFetchedMessageIds == old(lastFetchedMessageIds) && isMounted == old(isMounted)
    {
      if response.Some? && isMounted {
        reactionsByMessageId := response.value;
      }
    }

    method HandleAddReaction(messageId: string, emoji: string, response: Option<Reaction>)
      modifies this
      ensures reactionsByMessageId == AfterAdd(old(reactionsByMessageId), messageId, emoji, response)
      ensures lastFetchedMessageIds == old(lastFetchedMessageIds) && isMounted == old(isMounted)
    {
      reactionsByMessageId := AfterAdd(reactionsByMessageId, messageId, emoji, response);
    }

    method HandleRemoveReaction(messageId: string, emoji: string, ok: bool)
      modifies this
      ensures reactionsByMessageId == AfterRemove(old(reactionsByMessageId), messageId, emoji, ok)
      ensures lastFetchedMessageIds == old(lastFetchedMessageIds) && isMounted == old(isMounted)
    {
      reactionsByMessageId := AfterRemove(reactionsByMessageId, messageId, emoji, ok);
    }

    method HandleReactionUpdate(messageIds: seq<string>, messageId: string, reactions: seq<Reaction>)
      modifies this
      ensures reactionsByMessageId == AfterReactionUpdate(old(reactionsByMessageId), old(isMounted), messageIds, messageId, reactions)
      ensures lastFetchedMessageIds == old(lastFetchedMessageIds) && isMounted == old(isMounted)
    {
      reactionsByMessageId := AfterReactionUpdate(reactionsByMessageId, isMounted, messageIds, messageId, reactions);
    }

    /** The unmount cleanup. */
    method Unmount()
      modifies this
      ensures !isMounted
      ensures reactionsByMessageId == old(reactionsByMessageId) && lastFetchedMessageIds == old(lastFetchedMessageIds)
    {
      isMounted := false;
    }
  }
}
