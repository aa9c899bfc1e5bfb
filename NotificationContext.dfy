/** The unread-counter store of the notification context: a pure reducer
    over per-channel unread counters and the channel being viewed, plus the
    guards of the dispatching callbacks. */
module NotificationContext {
  import opened Common

  datatype NotificationState = NotificationState(
    unreadCounts: map<string, nat>,
    currentChannelId: Option<string>)

  /** The four action kinds, and any other tag (the reducer's default case). */
  datatype NotificationAction =
    | SetCurrentChannel(channel: Option<string>)
    | IncrementUnread(channelId: string)
    | ClearUnread(channelId: string)
    | ClearAllUnread
    | Unrecognised(tag: string)

  /** The state the provider starts from. */
  const Initial := NotificationState(map[], None)

  /** JavaScript truthiness of `string | null`: null and "" are falsy. */
  predicate Truthy(id: Option<string>)
  {
    id.Some? && id.value != ""
  }

  /** `counts[id] || 0`. */
  function CountOf(counts: map<string, nat>, id: string): nat
  {
    if id in counts then counts[id] else 0
  }

  function Reduce(state: NotificationState, action: NotificationAction): (r: NotificationState)
    // SET_CURRENT_CHANNEL with an id: it becomes current and only its counter goes.
    ensures action.SetCurrentChannel? && Truthy(action.channel) ==>
      r.currentChannelId == action.channel
      && r.unreadCounts.Keys == state.unreadCounts.Keys - {action.channel.value}
      && forall k :: k in r.unreadCounts ==> r.unreadCounts[k] == state.unreadCounts[k]
    // SET_CURRENT_CHANNEL with null (or ""): no current channel, counters kept.
    ensures action.SetCurrentChannel? && !Truthy(action.channel) ==>
      r.currentChannelId.None? && r.unreadCounts == state.unreadCounts
    // INCREMENT_UNREAD on the current channel changes nothing.
    ensures action.IncrementUnread? && state.currentChannelId == Some(action.channelId) ==> r == state
    // INCREMENT_UNREAD on another channel bumps that counter only.
    ensures action.IncrementUnread? && state.currentChannelId != Some(action.channelId) ==>
      r.currentChannelId == state.currentChannelId
      && r.unreadCounts.Keys == state.unreadCounts.Keys + {action.channelId}
      && r.unreadCounts[action.channelId] == CountOf(state.unreadCounts, action.channelId) + 1
      && forall k :: k in r.unreadCounts && k != action.channelId ==> r.unreadCounts[k] == state.unreadCounts[k]
    // CLEAR_UNREAD deletes exactly that key.
    ensures action.ClearUnread? ==>
      r.currentChannelId == state.currentChannelId
      && r.unreadCounts.Keys == state.unreadCounts.Keys - {action.channelId}
      && forall k :: k in r.unreadCounts ==> r.unreadCounts[k] == state.unreadCounts[k]
    // CLEAR_ALL_UNREAD empties the counters and keeps the current channel.
    ensures action.ClearAllUnread? ==> r.currentChannelId == state.currentChannelId && r.unreadCounts == map[]
    // Anything else leaves the state as it was.
    ensures action.Unrecognised? ==> r == state
  {
    match action
    case SetCurrentChannel(channel) =>
      if Truthy(channel) then
        NotificationState(state.unreadCounts - {channel.value}, channel)
      else
        state.(currentChannelId := None)
    case IncrementUnread(id) =>
      if Some(id) == state.currentChannelId then state
      else state.(unreadCounts := state.unreadCounts[id := CountOf(state.unreadCounts, id) + 1])
    case ClearUnread(id) =>
      state.(unreadCounts := state.unreadCounts - {id})
    case ClearAllUnread =>
      state.(unreadCounts := map[])
    case Unrecognised(_) =>
      state
  }

  /** The invariant of every state reachable from Initial: the current
      channel is a truthy id without a counter, and every stored counter is
      at least 1. */
  predicate Inv(state: NotificationState)
  {
    (state.currentChannelId.Some? ==> Truthy(state.currentChannelId) && state.currentChannelId.value !in state.unreadCounts)
    && forall k :: k in state.unreadCounts ==> state.unreadCounts[k] >= 1
  }

  lemma ReducePreservesInv(state: NotificationState, action: NotificationAction)
    requires Inv(state)
    ensures Inv(Reduce(state, action))
  {
  }

  /** The state after dispatching `actions` in order. */
  function Run(state: NotificationState, actions: seq<NotificationAction>): NotificationState
    decreases |actions|
  {
    if actions == [] then state else Run(Reduce(state, actions[0]), actions[1..])
  }

  lemma {:induction false} RunPreservesInv(state: NotificationState, actions: seq<NotificationAction>)
    requires Inv(state)
    ensures Inv(Run(state, actions))
    decreases |actions|
  {
    if actions != [] {
      ReducePreservesInv(state, actions[0]);
      RunPreservesInv(Reduce(state, actions[0]), actions[1..]);
    }
  }

  /** Every state the provider can reach satisfies Inv. */
  lemma ReachableInv(actions: seq<NotificationAction>)
    ensures Inv(Run(Initial, actions))
  {
    RunPreservesInv(Initial, actions);
  }

  /** `setCurrentChannel`: the action it dispatches, or None when the id is
      already current. */
  function SetCurrentChannelDispatch(state: NotificationState, channel: Option<string>): (r: Option<NotificationAction>)
    ensures r.None? <==> channel == state.currentChannelId
    ensures r.Some? ==> r.value == SetCurrentChannel(channel)
  {
    if channel == state.currentChannelId then None else Some(SetCurrentChannel(channel))
  }

  /** `incrementUnread`: the action it dispatches, or None for the current channel. */
  function IncrementUnreadDispatch(state: NotificationState, channelId: string): (r: Option<NotificationAction>)
    ensures r.None? <==> state.currentChannelId == Some(channelId)
    ensures r.Some? ==> r.value == IncrementUnread(channelId)
  {
    if Some(channelId) == state.currentChannelId then None else Some(IncrementUnread(channelId))
  }

  /** The state after a callback call: the dispatched action reduced, or the state kept. */
  function AfterDispatch(state: NotificationState, dispatched: Option<NotificationAction>): NotificationState
  {
    if dispatched.Some? then Reduce(state, dispatched.value) else state
  }

  /** On reachable states the two guards change nothing observable: skipping
      the dispatch gives the state the reducer would have produced. */
  lemma GuardsAreTransparent(state: NotificationState, channel: Option<string>, channelId: string)
    requires Inv(state)
    ensures AfterDispatch(state, SetCurrentChannelDispatch(state, channel)) == Reduce(state, SetCurrentChannel(channel))
    ensures AfterDispatch(state, IncrementUnreadDispatch(state, channelId)) == Reduce(state, IncrementUnread(channelId))
  {
    if channel == state.currentChannelId && Truthy(channel) {
      assert state.unreadCounts - {channel.value} == state.unreadCounts;
    }
  }

  /** Counting from a cleared channel: n increments on a channel that is not
      current leave its counter at exactly n. */
  function Increments(channelId: string, n: nat): (r: seq<NotificationAction>)
    ensures |r| == n
    ensures forall i :: 0 <= i < n ==> r[i] == IncrementUnread(channelId)
  {
    if n == 0 then [] else [IncrementUnread(channelId)] + Increments(channelId, n - 1)
  }

  lemma {:induction false} IncrementsCount(state: NotificationState, channelId: string, n: nat)
    requires state.currentChannelId != Some(channelId)
    ensures Run(state, Increments(channelId, n)).currentChannelId == state.currentChannelId
    ensures CountOf(Run(state, Increments(channelId, n)).unreadCounts, channelId) == CountOf(state.unreadCounts, channelId) + n
    decreases n
  {
    if n > 0 {
      var next := Reduce(state, IncrementUnread(channelId));
      assert Increments(channelId, n)[1..] == Increments(channelId, n - 1);
      IncrementsCount(next, channelId, n - 1);
    }
  }
}
