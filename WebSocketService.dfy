/** The older per-channel socket service: one handler per channel while
    connected, a queue of pending subscriptions while not, drained when the
    connection comes up.

    `pendingSubscriptions` is a JavaScript `Map`, iterated in insertion
    order, so it is a sequence of (channel id, handler) pairs with distinct
    keys. `messageHandlers` is only looked up, never iterated, so it is a
    map. The broker client is abstract: `sessionOpen` says whether it holds
    a live STOMP session, and `brokerSubscriptions` records every
    `client.subscribe` call of that session (topic and handler), which
    nothing in this service ever cancels. When the socket closes the client
    forgets the session's subscriptions and, after `reconnectDelay`, opens a
    new session and calls `onConnect` again; the service is not told of the
    close. */
module WebSocketService {
  import opened Common

  type Callback = nat
  type Entries = seq<(string, Callback)>

  function KeysOf(entries: Entries): set<string>
  {
    if entries == [] then {} else {entries[0].0} + KeysOf(entries[1..])
  }

  predicate DistinctKeys(entries: Entries)
  {
    entries == [] || (entries[0].0 !in KeysOf(entries[1..]) && DistinctKeys(entries[1..]))
  }

  /** The handler a `Map` holds for `key`. */
  function Lookup(entries: Entries, key: string): (r: Option<Callback>)
    ensures r.Some? <==> key in KeysOf(entries)
  {
    if entries == [] then None
    else if entries[0].0 == key then Some(entries[0].1)
    else Lookup(entries[1..], key)
  }

  /** `Map.prototype.set`: an existing key keeps its place and takes the
      new value; a new key goes last. */
  function MapSet(entries: Entries, key: string, value: Callback): (r: Entries)
    ensures KeysOf(r) == KeysOf(entries) + {key}
    ensures Lookup(r, key) == Some(value)
    ensures forall k :: k != key ==> Lookup(r, k) == Lookup(entries, k)
    ensures key !in KeysOf(entries) ==> r == entries + [(key, value)]
    ensures DistinctKeys(entries) ==> DistinctKeys(r)
  {
    if entries == [] then [(key, value)]
    else if entries[0].0 == key then [(key, value)] + entries[1..]
    else
      var r := [entries[0]] + MapSet(entries[1..], key, value);
      assert r[1..] == MapSet(entries[1..], key, value);
      r
  }

  /** `Map.prototype.delete`. */
  function MapDelete(entries: Entries, key: string): (r: Entries)
    ensures KeysOf(r) <= KeysOf(entries) - {key}
    ensures DistinctKeys(entries) ==> KeysOf(r) == KeysOf(entries) - {key}
    ensures Lookup(r, key).None?
    ensures forall k :: k != key ==> Lookup(r, k) == Lookup(entries, k)
    ensures key !in KeysOf(entries) ==> r == entries
    ensures DistinctKeys(entries) ==> DistinctKeys(r)
  {
    if entries == [] then []
    else if entries[0].0 == key then MapDelete(entries[1..], key)
    else
      var r := [entries[0]] + MapDelete(entries[1..], key);
      assert r[1..] == MapDelete(entries[1..], key);
      r
  }

  /** Handlers after subscribing every entry in order (each `set` overrides). */
  function Overlay(handlers: map<string, Callback>, entries: Entries): (r: map<string, Callback>)
    ensures r.Keys == handlers.Keys + KeysOf(entries)
    decreases |entries|
  {
    if entries == [] then handlers
    else Overlay(handlers[entries[0].0 := entries[0].1], entries[1..])
  }

  /** The broker subscriptions made for the entries, in order. */
  function TopicSubscriptions(entries: Entries): (r: Entries)
    ensures |r| == |entries|
    ensures forall i :: 0 <= i < |entries| ==> r[i] == (ChannelTopic(entries[i].0), entries[i].1)
  {
    if entries == [] then []
    else [(ChannelTopic(entries[0].0), entries[0].1)] + TopicSubscriptions(entries[1..])
  }

  /** With distinct keys, every entry's channel ends with that entry's handler,
      and any other channel keeps its earlier handler. */
  lemma {:induction false} OverlayLookup(handlers: map<string, Callback>, entries: Entries)
    requires DistinctKeys(entries)
    ensures forall k :: Lookup(entries, k).Some? ==> Overlay(handlers, entries)[k] == Lookup(entries, k).value
    ensures forall k :: k in handlers && k !in KeysOf(entries) ==> Overlay(handlers, entries)[k] == handlers[k]
    decreases |entries|
  {
    if entries != [] {
      OverlayLookup(handlers[entries[0].0 := entries[0].1], entries[1..]);
    }
  }

  /** Subscribing the first queued entry and then the rest is subscribing
      the whole queue. */
  lemma DrainStep(handlers: map<string, Callback>, subscriptions: Entries, entries: Entries)
    requires entries != []
    ensures Overlay(handlers[entries[0].0 := entries[0].1], entries[1..]) == Overlay(handlers, entries)
    ensures subscriptions + [(ChannelTopic(entries[0].0), entries[0].1)] + TopicSubscriptions(entries[1..])
         == subscriptions + TopicSubscriptions(entries)
  {
  }

  datatype ServiceState = ServiceState(
    isConnected: bool,
    sessionOpen: bool,
    messageHandlers: map<string, Callback>,
    pendingSubscriptions: Entries,
    brokerSubscriptions: Entries)

  /** The queue's keys are distinct, and without a session the client holds
      no subscription. */
  predicate Valid(s: ServiceState)
  {
    DistinctKeys(s.pendingSubscriptions) && (!s.sessionOpen ==> s.brokerSubscriptions == [])
  }

  const Initial := ServiceState(false, false, map[], [], [])

  function Unsubscribe(s: ServiceState, channelId: string): ServiceState
  {
    s.(messageHandlers := s.messageHandlers - {channelId},
       pendingSubscriptions := MapDelete(s.pendingSubscriptions, channelId))
  }

  /** `client.subscribe` without a session throws ("There is no underlying
      STOMP connection"): the service believes it is connected while the
      client is reconnecting. */
  predicate SubscribeThrows(s: ServiceState)
  {
    s.isConnected && !s.sessionOpen
  }

  /** `subscribeToChannel`; when `SubscribeThrows`, the handler is already
      set and no broker subscription is made. */
  function Subscribe(s: ServiceState, channelId: string, handler: Callback): ServiceState
  {
    if !s.isConnected then s.(pendingSubscriptions := MapSet(s.pendingSubscriptions, channelId, handler))
    else
      var cleared := if channelId in s.messageHandlers then Unsubscribe(s, channelId) else s;
      var updated := cleared.(messageHandlers := cleared.messageHandlers[channelId := handler]);
      if s.sessionOpen then updated.(brokerSubscriptions := updated.brokerSubscriptions + [(ChannelTopic(channelId), handler)])
      else updated
  }

  /** `processPendingSubscriptions`: each pending channel subscribed in
      order, the queue emptied. */
  function Drained(s: ServiceState): ServiceState
  {
    s.(messageHandlers := Overlay(s.messageHandlers, s.pendingSubscriptions), pendingSubscriptions := [],
       brokerSubscriptions := s.brokerSubscriptions + TopicSubscriptions(s.pendingSubscriptions))
  }

  /** `onConnect`, which the client calls on each new session: connected,
      then the queue drained. The new session starts without subscriptions,
      and nothing subscribes again the channels in `messageHandlers`. */
  function Connected(s: ServiceState): ServiceState
  {
    Drained(s.(isConnected := true, sessionOpen := true, brokerSubscriptions := []))
  }

  function StompError(s: ServiceState): ServiceState
  {
    s.(isConnected := false)
  }

  /** The socket closes: the client drops the session and its
      subscriptions; `isConnected` is untouched. */
  function SessionClosed(s: ServiceState): ServiceState
  {
    s.(sessionOpen := false, brokerSubscriptions := [])
  }

  /** The handlers a frame on `topic` reaches: every broker subscription
      to it, in the order they were made. */
  function DeliveredTo(subscriptions: Entries, topic: string): (r: seq<Callback>)
    ensures forall h :: h in r <==> exists i :: 0 <= i < |subscriptions| && subscriptions[i] == (topic, h)
  {
    if subscriptions == [] then []
    else
      var rest := DeliveredTo(subscriptions[1..], topic);
      assert forall i :: 0 < i < |subscriptions| ==> subscriptions[i] == subscriptions[1..][i - 1];
      if subscriptions[0].0 == topic then [subscriptions[0].1] + rest else rest
  }

  /** One more subscription adds its handler to its own topic's frames only. */
  lemma {:induction false} DeliveredAppend(subscriptions: Entries, t: string, h: Callback, topic: string)
    ensures DeliveredTo(subscriptions + [(t, h)], topic)
         == DeliveredTo(subscriptions, topic) + (if t == topic then [h] else [])
  {
    if subscriptions != [] {
      assert (subscriptions + [(t, h)])[1..] == subscriptions[1..] + [(t, h)];
      DeliveredAppend(subscriptions[1..], t, h, topic);
    }
  }

  /** With distinct keys, draining a queue into a new session reaches each
      queued channel through exactly its queued handler, and no other
      channel at all. */
  lemma {:induction false} DeliveredToTopics(entries: Entries, channelId: string)
    requires DistinctKeys(entries)
    ensures DeliveredTo(TopicSubscriptions(entries), ChannelTopic(channelId))
         == if Lookup(entries, channelId).Some? then [Lookup(entries, channelId).value] else []
  {
    if entries != [] {
      var subs := TopicSubscriptions(entries);
      assert subs[1..] == TopicSubscriptions(entries[1..]);
      ChannelTopicInjective(entries[0].0, channelId);
      DeliveredToTopics(entries[1..], channelId);
      if entries[0].0 == channelId {
        assert Lookup(entries[1..], channelId).None?;
      }
    }
  }

  lemma SubscribePreservesValid(s: ServiceState, channelId: string, handler: Callback)
    requires Valid(s)
    ensures Valid(Subscribe(s, channelId, handler)) && Valid(Unsubscribe(s, channelId))
    ensures Valid(Connected(s)) && Valid(StompError(s)) && Valid(SessionClosed(s))
  {
  }

  /** While disconnected, subscribing only queues: the channel's pending
      handler is replaced (or added last) and nothing else changes. */
  lemma SubscribeWhileDisconnectedQueues(s: ServiceState, channelId: string, handler: Callback)
    requires !s.isConnected
    ensures var r := Subscribe(s, channelId, handler);
      Lookup(r.pendingSubscriptions, channelId) == Some(handler)
      && (forall k :: k != channelId ==> Lookup(r.pendingSubscriptions, k) == Lookup(s.pendingSubscriptions, k))
      && r.messageHandlers == s.messageHandlers && r.brokerSubscriptions == s.brokerSubscriptions
      && !r.isConnected
  {
  }

  /** While connected, the channel ends with exactly this handler and other
      channels keep theirs; one more broker subscription is made on its
      topic when the session is open, and none while the client reconnects. */
  lemma SubscribeWhileConnectedReplaces(s: ServiceState, channelId: string, handler: Callback)
    requires s.isConnected
    ensures var r := Subscribe(s, channelId, handler);
      r.messageHandlers.Keys == s.messageHandlers.Keys + {channelId}
      && r.messageHandlers[channelId] == handler
      && (forall k :: k in s.messageHandlers && k != channelId ==> r.messageHandlers[k] == s.messageHandlers[k])
      && r.brokerSubscriptions
         == s.brokerSubscriptions + (if s.sessionOpen then [("/topic/channel/" + channelId, handler)] else [])
  {
  }

  /** Subscribing while connected, in terms of its effect on the two
      connected-side fields. */
  lemma SubscribeWhileConnected(s: ServiceState, channelId: string, handler: Callback)
    requires s.isConnected && s.sessionOpen
    ensures var r := Subscribe(s, channelId, handler);
      r.isConnected && r.sessionOpen && r.messageHandlers == s.messageHandlers[channelId := handler]
      && r.brokerSubscriptions == s.brokerSubscriptions + [(ChannelTopic(channelId), handler)]
  {
    if channelId in s.messageHandlers {
      assert (s.messageHandlers - {channelId})[channelId := handler] == s.messageHandlers[channelId := handler];
    }
  }

  /** Unsubscribing removes the channel from both maps and touches no other channel. */
  lemma UnsubscribeRemovesOnlyIt(s: ServiceState, channelId: string)
    ensures var r := Unsubscribe(s, channelId);
      channelId !in r.messageHandlers && Lookup(r.pendingSubscriptions, channelId).None?
      && (forall k :: k in s.messageHandlers && k != channelId ==> k in r.messageHandlers && r.messageHandlers[k] == s.messageHandlers[k])
      && (forall k :: k != channelId ==> Lookup(r.pendingSubscriptions, k) == Lookup(s.pendingSubscriptions, k))
      && r.brokerSubscriptions == s.brokerSubscriptions && r.isConnected == s.isConnected
  {
  }

  /** After connecting, the queue is empty, every queued channel holds its
      queued handler and receives its frames through exactly that handler,
      and every channel that was not queued receives nothing. */
  lemma ConnectDrainsQueue(s: ServiceState)
    requires Valid(s)
    ensures var r := Connected(s);
      r.isConnected && r.sessionOpen && r.pendingSubscriptions == []
      && r.messageHandlers.Keys == s.messageHandlers.Keys + KeysOf(s.pendingSubscriptions)
      && (forall k :: Lookup(s.pendingSubscriptions, k).Some? ==> r.messageHandlers[k] == Lookup(s.pendingSubscriptions, k).value)
      && (forall k :: k in s.messageHandlers && Lookup(s.pendingSubscriptions, k).None? ==> r.messageHandlers[k] == s.messageHandlers[k])
      && (forall k :: Lookup(s.pendingSubscriptions, k).Some? ==>
            DeliveredTo(r.brokerSubscriptions, ChannelTopic(k)) == [Lookup(s.pendingSubscriptions, k).value])
      && (forall k :: Lookup(s.pendingSubscriptions, k).None? ==> DeliveredTo(r.brokerSubscriptions, ChannelTopic(k)) == [])
  {
    OverlayLookup(s.messageHandlers, s.pendingSubscriptions);
    assert Connected(s).brokerSubscriptions == TopicSubscriptions(s.pendingSubscriptions);
    forall k {
      DeliveredToTopics(s.pendingSubscriptions, k);
    }
  }

  /** As written, a channel subscribed in the previous session and not
      queued keeps its handler across a reconnect but receives nothing. */
  lemma ReconnectDropsLiveChannel(s: ServiceState, channelId: string)
    requires Valid(s) && channelId in s.messageHandlers && Lookup(s.pendingSubscriptions, channelId).None?
    ensures Connected(s).messageHandlers[channelId] == s.messageHandlers[channelId]
    ensures DeliveredTo(Connected(s).brokerSubscriptions, ChannelTopic(channelId)) == []
  {
    ConnectDrainsQueue(s);
  }

  /** The same on a run of the service: connect, subscribe, a STOMP error
      closes the session, the client reconnects. */
  lemma LiveChannelDeafAfterReconnect(h: Callback)
    ensures var s := Connected(SessionClosed(StompError(Subscribe(Connected(Initial), "general", h))));
      s.messageHandlers["general"] == h && DeliveredTo(s.brokerSubscriptions, ChannelTopic("general")) == []
  {
    var before := SessionClosed(StompError(Subscribe(Connected(Initial), "general", h)));
    assert before.pendingSubscriptions == [];
    ReconnectDropsLiveChannel(before, "general");
  }

  /** What a reconnect is meant to leave: every channel with a handler
      receives its frames through exactly that handler. */
  predicate EveryChannelReceives(s: ServiceState)
  {
    forall k :: k in s.messageHandlers ==> DeliveredTo(s.brokerSubscriptions, ChannelTopic(k)) == [s.messageHandlers[k]]
  }

  /** Part way through subscribing every channel again: the channels done
      receive through exactly their handler, the rest and every topic of no
      channel receive nothing. */
  ghost predicate Resubscribed(subscriptions: Entries, handlers: map<string, Callback>, remaining: set<string>)
  {
    (forall k :: k in handlers && k !in remaining ==> DeliveredTo(subscriptions, ChannelTopic(k)) == [handlers[k]])
    && (forall k :: k in remaining ==> DeliveredTo(subscriptions, ChannelTopic(k)) == [])
    && (forall t :: (forall k :: k in handlers ==> t != ChannelTopic(k)) ==> DeliveredTo(subscriptions, t) == [])
  }

  /** Subscribing one more remaining channel keeps `Resubscribed`. */
  lemma ResubscribeStep(subscriptions: Entries, handlers: map<string, Callback>, remaining: set<string>,
                        channelId: string)
    requires channelId in remaining && channelId in handlers
    requires Resubscribed(subscriptions, handlers, remaining)
    ensures Resubscribed(subscriptions + [(ChannelTopic(channelId), handlers[channelId])], handlers, remaining - {channelId})
  {
    var added := (ChannelTopic(channelId), handlers[channelId]);
    var after := subscriptions + [added];
    forall k | k in handlers && k !in remaining - {channelId}
      ensures DeliveredTo(after, ChannelTopic(k)) == [handlers[k]]
    {
      DeliveredAppend(subscriptions, added.0, added.1, ChannelTopic(k));
      ChannelTopicInjective(k, channelId);
    }
    forall k | k in remaining - {channelId}
      ensures DeliveredTo(after, ChannelTopic(k)) == []
    {
      DeliveredAppend(subscriptions, added.0, added.1, ChannelTopic(k));
      ChannelTopicInjective(k, channelId);
    }
    forall t | forall k :: k in handlers ==> t != ChannelTopic(k)
      ensures DeliveredTo(after, t) == []
    {
      DeliveredAppend(subscriptions, added.0, added.1, t);
    }
  }

  /** After a STOMP error, subscriptions are queued again. */
  lemma ErrorQueuesAgain(s: ServiceState, channelId: string, handler: Callback)
    ensures Subscribe(StompError(s), channelId, handler).messageHandlers == s.messageHandlers
    ensures Lookup(Subscribe(StompError(s), channelId, handler).pendingSubscriptions, channelId) == Some(handler)
  {
  }

  /** Unsubscribing does not cancel the broker subscription: a handler
      subscribed while connected still receives its channel's frames after
      `unsubscribeFromChannel`. */
  lemma UnsubscribedHandlerStillReceives(s: ServiceState, channelId: string, handler: Callback)
    requires s.isConnected && s.sessionOpen
    ensures handler in DeliveredTo(Unsubscribe(Subscribe(s, channelId, handler), channelId).brokerSubscriptions, ChannelTopic(channelId))
    ensures channelId !in Unsubscribe(Subscribe(s, channelId, handler), channelId).messageHandlers
  {
    var r := Unsubscribe(Subscribe(s, channelId, handler), channelId);
    assert r.brokerSubscriptions[|r.brokerSubscriptions| - 1] == (ChannelTopic(channelId), handler);
  }

  class Service {
    var isConnected: bool
    var sessionOpen: bool
    var messageHandlers: map<string, Callback>
    var pendingSubscriptions: Entries
    var brokerSubscriptions: Entries

    function State(): ServiceState
      reads this
    {
      ServiceState(isConnected, sessionOpen, messageHandlers, pendingSubscriptions, brokerSubscriptions)
    }

    constructor ()
      ensures State() == Initial
    {
      isConnected := false;
      sessionOpen := false;
      messageHandlers := map[];
      pendingSubscriptions := [];
      brokerSubscriptions := [];
    }

    /** The client has opened a new session (which holds no subscription
        yet) and calls `onConnect`. */
    method OnConnect()
      modifies this
      ensures State() == Connected(old(State()))
    {
      sessionOpen := true;
      brokerSubscriptions := [];
      isConnected := true;
      ProcessPendingSubscriptions();
    }

    method ProcessPendingSubscriptions()
      requires isConnected && sessionOpen
      modifies this
      ensures State() == Drained(old(State()))
    {
      var snapshot := pendingSubscriptions;
      var i := 0;
      while i < |snapshot|
        invariant 0 <= i <= |snapshot|
        invariant isConnected && sessionOpen
        invariant Overlay(messageHandlers, snapshot[i..]) == Overlay(old(messageHandlers), snapshot)
        invariant brokerSubscriptions + TopicSubscriptions(snapshot[i..]) == old(brokerSubscriptions) + TopicSubscriptions(snapshot)
      {
        var (channelId, handler) := snapshot[i];
        assert snapshot[i..][1..] == snapshot[i + 1..];
        DrainStep(messageHandlers, brokerSubscriptions, snapshot[i..]);
        SubscribeWhileConnected(State(), channelId, handler);
        var _ := SubscribeToChannel(channelId, handler);
        i := i + 1;
      }
      assert snapshot[i..] == [];
      pendingSubscriptions := [];
    }

    /** `onConnect` as intended: besides draining the queue, every channel
        with a handler is subscribed in the new session, so each receives
        its frames through exactly its handler. */
    method OnConnectResubscribing()
      modifies this
      ensures isConnected && sessionOpen && pendingSubscriptions == []
      ensures messageHandlers == Overlay(old(messageHandlers), old(pendingSubscriptions))
      ensures EveryChannelReceives(State())
      ensures forall t :: (forall k :: k in messageHandlers ==> t != ChannelTopic(k)) ==> DeliveredTo(brokerSubscriptions, t) == []
    {
      isConnected := true;
      sessionOpen := true;
      brokerSubscriptions := [];
      messageHandlers := Overlay(messageHandlers, pendingSubscriptions);
      pendingSubscriptions := [];
      var remaining := messageHandlers.Keys;
      while remaining != {}
        invariant remaining <= messageHandlers.Keys
        invariant isConnected && sessionOpen && pendingSubscriptions == []
        invariant messageHandlers == Overlay(old(messageHandlers), old(pendingSubscriptions))
        invariant Resubscribed(brokerSubscriptions, messageHandlers, remaining)
        decreases remaining
      {
        var channelId :| channelId in remaining;
        ResubscribeStep(brokerSubscriptions, messageHandlers, remaining, channelId);
        brokerSubscriptions := brokerSubscriptions + [(ChannelTopic(channelId), messageHandlers[channelId])];
        remaining := remaining - {channelId};
      }
    }

    method OnStompError()
      modifies this
      ensures State() == StompError(old(State()))
    {
      isConnected := false;
    }

    /** The socket closes, after an ERROR frame or a network failure. */
    method OnSessionClosed()
      modifies this
      ensures State() == SessionClosed(old(State()))
    {
      sessionOpen := false;
      brokerSubscriptions := [];
    }

    /** `subscribeToChannel`; `thrown` when `client.subscribe` throws. */
    method SubscribeToChannel(channelId: string, handler: Callback) returns (thrown: bool)
      modifies this
      ensures State() == Subscribe(old(State()), channelId, handler)
      ensures thrown == SubscribeThrows(old(State()))
    {
      thrown := false;
      if !isConnected {
        pendingSubscriptions := MapSet(pendingSubscriptions, channelId, handler);
        return;
      }
      if channelId in messageHandlers {
        UnsubscribeFromChannel(channelId);
      }
      messageHandlers := messageHandlers[channelId := handler];
      if !sessionOpen {
        thrown := true;
        return;
      }
      brokerSubscriptions := brokerSubscriptions + [(ChannelTopic(channelId), handler)];
    }

    method UnsubscribeFromChannel(channelId: string)
      modifies this
      ensures State() == Unsubscribe(old(State()), channelId)
    {
      messageHandlers := messageHandlers - {channelId};
      pendingSubscriptions := MapDelete(pendingSubscriptions, channelId);
    }

    /** A frame arrives on `topic` with a body that parses. */
    method Deliver(topic: string) returns (reached: seq<Callback>)
      ensures reached == DeliveredTo(brokerSubscriptions, topic)
    {
      reached := [];
      var i := 0;
      while i < |brokerSubscriptions|
        invariant 0 <= i <= |brokerSubscriptions|
        invariant reached + DeliveredTo(brokerSubscriptions[i..], topic) == DeliveredTo(brokerSubscriptions, topic)
      {
        assert brokerSubscriptions[i..][1..] == brokerSubscriptions[i + 1..];
        if brokerSubscriptions[i].0 == topic {
          reached := reached + [brokerSubscriptions[i].1];
        }
        i := i + 1;
      }
    }
  }
}
