/** The client's STOMP connection manager: reconnect bookkeeping, listener
    lists, handler sets and the four fixed topic subscriptions.

    The broker client is abstract. Its state is the `connected` flag, the
    Authorization header it was built with, and the subscriptions and frames
    made through it. Each client callback is an explicit event: handshake
    completed, STOMP error, WebSocket error, DISCONNECT receipt, connection
    closed, and the reconnect timer firing. A callback may fire at any time,
    and the model does not constrain their order. The pending reconnect timer
    is kept as the delay it was started with.

    The transitions are pure functions over `ManagerState`; the class
    `Manager` updates its fields step by step, and each of its methods is
    proved equal to its transition. */
module WebSocketManager {
  import opened Common

  /** `maxReconnectAttempts`. */
  const MaxReconnectAttempts: nat := 5
  /** The cap of the backoff delay, in milliseconds. */
  const MaxReconnectDelay: nat := 30000
  /** The base of the backoff delay, in milliseconds. */
  const BaseReconnectDelay: nat := 1000

  const MessagesTopic := "/topic/messages"
  const ReactionsTopic := "/topic/reactions"
  const PresenceTopic := "/topic/presence"
  const ChannelEventsTopic := "/topic/channels/events"

  const MaxAttemptsMessage := "Max reconnection attempts reached"

  /** Identity of a listener or handler callback. */
  type Callback = nat

  function Pow2(n: nat): (r: nat)
    ensures r >= 1
  {
    if n == 0 then 1 else 2 * Pow2(n - 1)
  }

  lemma {:induction false} Pow2Monotone(a: nat, b: nat)
    requires a <= b
    ensures Pow2(a) <= Pow2(b)
    decreases b
  {
    if a < b {
      Pow2Monotone(a, b - 1);
    }
  }

  /** The delay before reconnect attempt `attempts + 1`:
      `Math.min(1000 * Math.pow(2, attempts), 30000)` milliseconds. */
  function ReconnectDelay(attempts: nat): (r: nat)
    ensures 0 < r <= MaxReconnectDelay
    ensures r <= BaseReconnectDelay * Pow2(attempts)
  {
    var exponential := BaseReconnectDelay * Pow2(attempts);
    if exponential <= MaxReconnectDelay then exponential else MaxReconnectDelay
  }

  /** Later attempts never wait less. */
  lemma ReconnectDelayMonotone(a: nat, b: nat)
    requires a <= b
    ensures ReconnectDelay(a) <= ReconnectDelay(b)
  {
    Pow2Monotone(a, b);
  }

  /** Within the attempt budget the cap never applies: the delays are
      1000, 2000, 4000, 8000 and 16000 ms. */
  lemma DelaysWithinBudget(attempts: nat)
    requires attempts < MaxReconnectAttempts
    ensures ReconnectDelay(attempts) == BaseReconnectDelay * Pow2(attempts) <= 16000
  {
    Pow2Monotone(attempts, 4);
    assert Pow2(4) == 16;
  }

  /** A subscription made through the client: destination and Authorization header. */
  datatype Subscription = Subscription(destination: string, authorization: string)

  /** A published frame; its body is the JSON object `{content}`. */
  datatype Frame = Frame(destination: string, content: string, authorization: string)

  /** One `notifyConnect` / `notifyDisconnect` call and the listeners it invoked, in order. */
  datatype Notice = ConnectNotified(listeners: seq<Callback>) | DisconnectNotified(listeners: seq<Callback>)

  /** The header template `Bearer ${authToken}`; a null token prints as "null". */
  function BearerHeader(token: Option<string>): string
  {
    "Bearer " + (if token.Some? then token.value else "null")
  }

  /** The client's connect header: present only for a truthy token. */
  function ConnectHeader(token: Option<string>): (r: Option<string>)
    ensures r.Some? <==> token.Some? && token.value != ""
    ensures r.Some? ==> r.value == BearerHeader(token)
  {
    if token.Some? && token.value != "" then Some(BearerHeader(token)) else None
  }

  /** What `setupSubscriptions` subscribes on a connected client. */
  function TopicSubscriptions(token: Option<string>): (r: seq<Subscription>)
    ensures |r| == 4
    ensures forall i :: 0 <= i < 4 ==> r[i].authorization == BearerHeader(token)
    ensures r[0].destination == MessagesTopic && r[1].destination == ReactionsTopic
    ensures r[2].destination == PresenceTopic && r[3].destination == ChannelEventsTopic
  {
    var h := BearerHeader(token);
    [Subscription(MessagesTopic, h), Subscription(ReactionsTopic, h),
     Subscription(PresenceTopic, h), Subscription(ChannelEventsTopic, h)]
  }

  /** `/app/channels/${channelId}/messages`. */
  function SendDestination(channelId: string): string
  {
    "/app/channels/" + channelId + "/messages"
  }

  /** `listeners.filter(l => l !== listener)`. */
  function Without(listeners: seq<Callback>, listener: Callback): (r: seq<Callback>)
    ensures forall x :: x in r <==> x in listeners && x != listener
    ensures |r| <= |listeners|
  {
    if listeners == [] then []
    else if listeners[0] == listener then Without(listeners[1..], listener)
    else [listeners[0]] + Without(listeners[1..], listener)
  }

  /** Removing a listener keeps the others in their order: removal distributes over concatenation. */
  lemma {:induction false} WithoutConcat(a: seq<Callback>, b: seq<Callback>, listener: Callback)
    ensures Without(a + b, listener) == Without(a, listener) + Without(b, listener)
  {
    if a == [] {
      assert a + b == b;
    } else {
      assert (a + b)[1..] == a[1..] + b;
      WithoutConcat(a[1..], b, listener);
    }
  }

  /** A list without the listener is left as it is. */
  lemma {:induction false} WithoutAbsent(listeners: seq<Callback>, listener: Callback)
    requires listener !in listeners
    ensures Without(listeners, listener) == listeners
  {
    if listeners != [] {
      assert listeners[0] != listener;
      WithoutAbsent(listeners[1..], listener);
    }
  }

  /** Adding a listener and removing it again gives back a list without it. */
  lemma OnThenOff(listeners: seq<Callback>, listener: Callback)
    requires listener !in listeners
    ensures Without(listeners + [listener], listener) == listeners
  {
    WithoutConcat(listeners, [listener], listener);
    WithoutAbsent(listeners, listener);
    assert Without([listener], listener) == [];
  }

  /** Every field of the manager and of its current client. */
  datatype ManagerState = ManagerState(
    connected: bool,
    reconnectAttempts: nat,
    authToken: Option<string>,
    pendingTimers: seq<nat>,
    isConnecting: bool,
    awaitingHandshake: bool,          // `ensureConnected` has overridden the client's callbacks
    connectHeader: Option<string>,
    clientsCreated: nat,
    connectListeners: seq<Callback>,
    disconnectListeners: seq<Callback>,
    messageHandlers: set<Callback>,
    reactionHandlers: set<Callback>,
    presenceHandlers: set<Callback>,
    channelEventHandlers: set<Callback>,
    subscriptions: seq<Subscription>,
    published: seq<Frame>,
    notices: seq<Notice>)

  /** At most one reconnect timer is pending; one is pending only while
      attempts remain, with a delay in (0, 30000]; attempts never exceed the
      budget; and a connect awaiting its handshake is never on a connected client. */
  predicate Valid(s: ManagerState)
  {
    s.reconnectAttempts <= MaxReconnectAttempts
    && |s.pendingTimers| <= 1
    && (|s.pendingTimers| == 1 ==>
          s.reconnectAttempts < MaxReconnectAttempts && 0 < s.pendingTimers[0] <= MaxReconnectDelay)
    && (s.awaitingHandshake ==> !s.connected)
  }

  /** The singleton right after its constructor ran `setupClient` once. */
  const Initial := ManagerState(false, 0, None, [], false, false, None, 1, [], [], {}, {}, {}, {}, [], [], [])

  function SetupClient(s: ManagerState): ManagerState
  {
    s.(connected := false, awaitingHandshake := false, subscriptions := [],
       connectHeader := ConnectHeader(s.authToken), clientsCreated := s.clientsCreated + 1)
  }

  function SetupSubscriptions(s: ManagerState): ManagerState
  {
    if s.connected then s.(subscriptions := s.subscriptions + TopicSubscriptions(s.authToken)) else s
  }

  function NotifyConnect(s: ManagerState): ManagerState
  {
    s.(notices := s.notices + [ConnectNotified(s.connectListeners)])
  }

  function NotifyDisconnect(s: ManagerState): ManagerState
  {
    s.(notices := s.notices + [DisconnectNotified(s.disconnectListeners)])
  }

  /** `scheduleReconnect`: the old timer is cancelled, and a new one started while attempts remain. */
  function ScheduleReconnect(s: ManagerState): (r: ManagerState)
    ensures r.pendingTimers == if s.reconnectAttempts < MaxReconnectAttempts then [ReconnectDelay(s.reconnectAttempts)] else []
    ensures r == s.(pendingTimers := r.pendingTimers)
  {
    s.(pendingTimers := if s.reconnectAttempts < MaxReconnectAttempts then [ReconnectDelay(s.reconnectAttempts)] else [])
  }

  /** `connect(token)`, up to the point where it waits for the handshake
      (or, when the budget is spent, through `ensureConnected`'s throw and the catch). */
  function AfterConnect(s: ManagerState, token: Option<string>): ManagerState
  {
    if s.isConnecting || (s.connected && s.authToken == token) then s
    else
      var client := SetupClient(s.(authToken := token, isConnecting := true));
      if client.reconnectAttempts >= MaxReconnectAttempts then
        ScheduleReconnect(NotifyDisconnect(client)).(isConnecting := false)
      else
        client.(awaitingHandshake := true)
  }

  /** The body of the `onConnect` callback installed by `setupClient`. */
  function OnConnectBody(s: ManagerState): ManagerState
  {
    NotifyConnect(SetupSubscriptions(s.(reconnectAttempts := 0, isConnecting := false)))
  }

  /** The handshake as written: while a connect awaits it, the callback of
      `ensureConnected` only restores the originals and resolves, and the
      awaiting `connect` then clears `isConnecting`; the body of `onConnect`
      does not run for this handshake. */
  function HandshakeAsWritten(s: ManagerState): ManagerState
  {
    var up := s.(connected := true);
    if s.awaitingHandshake then up.(awaitingHandshake := false, isConnecting := false)
    else OnConnectBody(up)
  }

  /** The handshake as evidently intended: the awaiting connect resolves and
      the original `onConnect` runs as well. */
  function Handshake(s: ManagerState): ManagerState
  {
    OnConnectBody(s.(connected := true, awaitingHandshake := false))
  }

  /** The `onDisconnect` and `onWebSocketError` callbacks. */
  function ConnectionLost(s: ManagerState): ManagerState
  {
    ScheduleReconnect(NotifyDisconnect(s.(isConnecting := false)))
  }

  /** A STOMP ERROR frame: the override of `ensureConnected` rejects (the
      awaiting connect then notifies, reschedules and clears `isConnecting`),
      or the original callback does the same. */
  function StompError(s: ManagerState): ManagerState
  {
    ConnectionLost(s.(awaitingHandshake := false))
  }

  /** The reconnect timer fires: one more attempt is counted, then `connect(authToken!)`. */
  function TimerFired(s: ManagerState): ManagerState
  {
    if s.pendingTimers == [] then s
    else AfterConnect(s.(pendingTimers := [], reconnectAttempts := s.reconnectAttempts + 1), s.authToken)
  }

  /** `disconnect()`. */
  function AfterDisconnect(s: ManagerState): ManagerState
  {
    var cancelled := s.(pendingTimers := []);
    if !cancelled.connected then cancelled
    else NotifyDisconnect(cancelled.(connected := false))
  }

  /** `sendMessage(channelId, content)`. */
  function AfterSend(s: ManagerState, channelId: string, content: string): ManagerState
  {
    if s.connected then s.(published := s.published + [Frame(SendDestination(channelId), content, BearerHeader(s.authToken))])
    else s
  }

  /** Some `client.subscribe` call of the current client named `destination`. */
  predicate IsSubscribed(s: ManagerState, destination: string)
  {
    exists i :: 0 <= i < |s.subscriptions| && s.subscriptions[i].destination == destination
  }

  /** The handlers a frame on `destination` reaches: none if nothing
      subscribed to it or its body cannot be read (the `catch` logs it);
      otherwise the handler set of that topic's callback. `parsed` says
      that the body parses and the fields the callback reads exist. */
  function Delivered(s: ManagerState, destination: string, parsed: bool): (r: set<Callback>)
    ensures !parsed || !IsSubscribed(s, destination) ==> r == {}
    ensures parsed && IsSubscribed(s, destination) && destination == MessagesTopic ==> r == s.messageHandlers
    ensures parsed && IsSubscribed(s, destination) && destination == ReactionsTopic ==> r == s.reactionHandlers
    ensures parsed && IsSubscribed(s, destination) && destination == PresenceTopic ==> r == s.presenceHandlers
    ensures parsed && IsSubscribed(s, destination) && destination == ChannelEventsTopic ==>
      r == s.channelEventHandlers
    ensures destination !in {MessagesTopic, ReactionsTopic, PresenceTopic, ChannelEventsTopic} ==> r == {}
  {
    if !parsed || !IsSubscribed(s, destination) then {}
    else if destination == MessagesTopic then s.messageHandlers
    else if destination == ReactionsTopic then s.reactionHandlers
    else if destination == PresenceTopic then s.presenceHandlers
    else if destination == ChannelEventsTopic then s.channelEventHandlers
    else {}
  }

  /** Events that change the connection bookkeeping. */
  datatype ConnectionEvent =
    | ConnectCall(token: Option<string>)
    | HandshakeDone             // the handshake as evidently intended
    | HandshakeDoneAsWritten    // the handshake with the `ensureConnected` override
    | StompErrorFrame
    | SocketError
    | DisconnectReceipt
    | ConnectionClosed
    | TimerFires
    | DisconnectCall
    | Send(channelId: string, content: string)

  function Step(s: ManagerState, e: ConnectionEvent): ManagerState
  {
    match e
    case ConnectCall(token) => AfterConnect(s, token)
    case HandshakeDone => Handshake(s)
    case HandshakeDoneAsWritten => HandshakeAsWritten(s)
    case StompErrorFrame => StompError(s)
    case SocketError => ConnectionLost(s)
    case DisconnectReceipt => ConnectionLost(s)
    case ConnectionClosed => s.(connected := false)
    case TimerFires => TimerFired(s)
    case DisconnectCall => AfterDisconnect(s)
    case Send(channelId, content) => AfterSend(s, channelId, content)
  }

  function Run(s: ManagerState, events: seq<ConnectionEvent>): ManagerState
    decreases |events|
  {
    if events == [] then s else Run(Step(s, events[0]), events[1..])
  }

  lemma ConnectPreservesValid(s: ManagerState, token: Option<string>)
    requires Valid(s)
    ensures Valid(AfterConnect(s, token))
  {
  }

  lemma StepPreservesValid(s: ManagerState, e: ConnectionEvent)
    requires Valid(s)
    ensures Valid(Step(s, e))
  {
    match e
    case TimerFires =>
      if s.pendingTimers != [] {
        ConnectPreservesValid(s.(pendingTimers := [], reconnectAttempts := s.reconnectAttempts + 1), s.authToken);
      }
    case _ =>
  }

  lemma {:induction false} RunPreservesValid(s: ManagerState, events: seq<ConnectionEvent>)
    requires Valid(s)
    ensures Valid(Run(s, events))
    decreases |events|
  {
    if events != [] {
      StepPreservesValid(s, events[0]);
      RunPreservesValid(Step(s, events[0]), events[1..]);
    }
  }

  /** Whatever the callbacks do, the manager never holds two reconnect
      timers and never counts more than five attempts. */
  lemma ReachableValid(events: seq<ConnectionEvent>)
    ensures Valid(Run(Initial, events))
    ensures |Run(Initial, events).pendingTimers| <= 1
    ensures Run(Initial, events).reconnectAttempts <= MaxReconnectAttempts
  {
    RunPreservesValid(Initial, events);
  }

  /** connect is a no-op while a connect is in flight, or when connected with the same token. */
  lemma ConnectNoOp(s: ManagerState, token: Option<string>)
    requires s.isConnecting || (s.connected && s.authToken == token)
    ensures AfterConnect(s, token) == s
  {
  }

  /** Otherwise it stores the token and builds a new client; with attempts
      left it waits for the handshake with `isConnecting` set, and with the
      budget spent `ensureConnected` throws, so disconnect listeners are
      notified, nothing is scheduled and `isConnecting` is cleared. */
  lemma ConnectStarts(s: ManagerState, token: Option<string>)
    requires Valid(s) && !s.isConnecting && !(s.connected && s.authToken == token)
    ensures var r := AfterConnect(s, token);
      r.authToken == token && !r.connected && r.clientsCreated == s.clientsCreated + 1
      && r.connectHeader == ConnectHeader(token) && r.reconnectAttempts == s.reconnectAttempts
      && (s.reconnectAttempts < MaxReconnectAttempts ==>
            r.isConnecting && r.awaitingHandshake && r.pendingTimers == s.pendingTimers && r.notices == s.notices)
      && (s.reconnectAttempts >= MaxReconnectAttempts ==>
            !r.isConnecting && !r.awaitingHandshake && r.pendingTimers == []
            && r.notices == s.notices + [DisconnectNotified(s.disconnectListeners)])
  {
  }

  /** The connect that is waiting clears `isConnecting` when the handshake
      settles, whether it succeeds or fails. */
  lemma ConnectSettles(s: ManagerState, token: Option<string>)
    requires Valid(s) && !s.isConnecting && !(s.connected && s.authToken == token)
    ensures !Handshake(AfterConnect(s, token)).isConnecting
    ensures !StompError(AfterConnect(s, token)).isConnecting
  {
  }

  /** A successful handshake resets the attempts, clears `isConnecting`,
      subscribes the four topics with the stored token, then notifies the
      connect listeners. */
  lemma HandshakeSubscribes(s: ManagerState)
    ensures var r := Handshake(s);
      r.connected && r.reconnectAttempts == 0 && !r.isConnecting && !r.awaitingHandshake
      && r.subscriptions == s.subscriptions + TopicSubscriptions(s.authToken)
      && r.notices == s.notices + [ConnectNotified(s.connectListeners)]
      && r.pendingTimers == s.pendingTimers
  {
  }

  /** As written, a connect that reaches the handshake leaves the manager
      connected with no topic subscribed, no connect listener notified and
      the failed attempts still counted. */
  lemma AwaitedHandshakeSkipsOnConnect(s: ManagerState, token: Option<string>)
    requires Valid(s) && !s.isConnecting && !s.connected && s.reconnectAttempts < MaxReconnectAttempts
    ensures var r := HandshakeAsWritten(AfterConnect(s, token));
      r.connected && r.subscriptions == [] && r.notices == s.notices && r.reconnectAttempts == s.reconnectAttempts
  {
  }

  /** The concrete instance: the first connect of the session, with token "t". */
  lemma AsWrittenFirstConnectHasNoSubscriptions()
    ensures HandshakeAsWritten(AfterConnect(Initial, Some("t"))).connected
    ensures HandshakeAsWritten(AfterConnect(Initial, Some("t"))).subscriptions == []
    ensures Handshake(AfterConnect(Initial, Some("t"))).subscriptions == TopicSubscriptions(Some("t"))
  {
    HandshakeSubscribes(AfterConnect(Initial, Some("t")));
  }

  /** After the corrected handshake every readable frame on one of the four
      topics reaches that topic's handlers; after the first handshake as
      written, a message frame reaches no handler at all. */
  lemma HandshakeRoutesFrames(s: ManagerState)
    ensures var r := Handshake(s);
      Delivered(r, MessagesTopic, true) == s.messageHandlers
      && Delivered(r, ReactionsTopic, true) == s.reactionHandlers
      && Delivered(r, PresenceTopic, true) == s.presenceHandlers
      && Delivered(r, ChannelEventsTopic, true) == s.channelEventHandlers
    ensures Delivered(HandshakeAsWritten(AfterConnect(Initial, Some("t"))), MessagesTopic, true) == {}
  {
    var r := Handshake(s);
    HandshakeSubscribes(s);
    var k := |s.subscriptions|;
    assert r.subscriptions[k].destination == MessagesTopic;
    assert r.subscriptions[k + 1].destination == ReactionsTopic;
    assert r.subscriptions[k + 2].destination == PresenceTopic;
    assert r.subscriptions[k + 3].destination == ChannelEventsTopic;
    AsWrittenFirstConnectHasNoSubscriptions();
  }

  /** The events whose handling runs the `onConnect` body: the corrected
      handshake, and the handshake as written when no connect awaits it. */
  predicate RunsOnConnectBody(s: ManagerState, e: ConnectionEvent)
  {
    e.HandshakeDone? || (e.HandshakeDoneAsWritten? && !s.awaitingHandshake)
  }

  /** Once the budget is spent, a handshake that runs the `onConnect` body
      resets the count, and every other event, including the handshake as
      written that only answers an awaited connect, leaves no timer and five
      attempts. */
  lemma ExhaustedStaysExhausted(s: ManagerState, e: ConnectionEvent)
    requires Valid(s) && s.reconnectAttempts == MaxReconnectAttempts
    ensures RunsOnConnectBody(s, e) ==> Step(s, e).reconnectAttempts == 0
    ensures !RunsOnConnectBody(s, e) ==>
      Step(s, e).pendingTimers == [] && Step(s, e).reconnectAttempts == MaxReconnectAttempts
  {
  }

  /** Each firing counts exactly one more attempt before reconnecting, and a
      firing without a pending timer does nothing. */
  lemma TimerFiringCounts(s: ManagerState)
    requires Valid(s)
    ensures s.pendingTimers == [] ==> TimerFired(s) == s
    ensures s.pendingTimers != [] ==> TimerFired(s).reconnectAttempts == s.reconnectAttempts + 1
  {
  }

  /** A connection loss schedules exactly the backoff delay of the count so far. */
  lemma LossSchedulesBackoff(s: ManagerState)
    requires Valid(s)
    ensures s.reconnectAttempts < MaxReconnectAttempts ==>
      ConnectionLost(s).pendingTimers == [BaseReconnectDelay * Pow2(s.reconnectAttempts)]
    ensures s.reconnectAttempts >= MaxReconnectAttempts ==> ConnectionLost(s).pendingTimers == []
  {
    if s.reconnectAttempts < MaxReconnectAttempts {
      DelaysWithinBudget(s.reconnectAttempts);
    }
  }

  /** `disconnect` always cancels the timer; only a connected client is
      deactivated and reported to the disconnect listeners. */
  lemma DisconnectCancels(s: ManagerState)
    ensures AfterDisconnect(s).pendingTimers == [] && !AfterDisconnect(s).connected
    ensures s.connected ==> AfterDisconnect(s).notices == s.notices + [DisconnectNotified(s.disconnectListeners)]
    ensures !s.connected ==> AfterDisconnect(s) == s.(pendingTimers := [])
  {
  }

  /** Sending publishes nothing while disconnected, and otherwise exactly one
      frame to the channel's destination. */
  lemma SendPublishes(s: ManagerState, channelId: string, content: string)
    ensures !s.connected ==> AfterSend(s, channelId, content) == s
    ensures s.connected ==>
      AfterSend(s, channelId, content).published
        == s.published + [Frame("/app/channels/" + channelId + "/messages", content, BearerHeader(s.authToken))]
  {
  }

  class Manager {
    var connected: bool
    var reconnectAttempts: nat
    var authToken: Option<string>
    var pendingTimers: seq<nat>
    var isConnecting: bool
    var awaitingHandshake: bool
    var connectHeader: Option<string>
    var clientsCreated: nat
    var connectListeners: seq<Callback>
    var disconnectListeners: seq<Callback>
    var messageHandlers: set<Callback>
    var reactionHandlers: set<Callback>
    var presenceHandlers: set<Callback>
    var channelEventHandlers: set<Callback>
    var subscriptions: seq<Subscription>
    var published: seq<Frame>
    var notices: seq<Notice>

    function State(): ManagerState
      reads this
    {
      ManagerState(connected, reconnectAttempts, authToken, pendingTimers, isConnecting, awaitingHandshake,
                   connectHeader, clientsCreated, connectListeners, disconnectListeners,
                   messageHandlers, reactionHandlers, presenceHandlers, channelEventHandlers,
                   subscriptions, published, notices)
    }

    constructor ()
      ensures State() == Initial && Valid(State())
    {
      connected, reconnectAttempts, authToken, pendingTimers := false, 0, None, [];
      isConnecting, awaitingHandshake, connectHeader, clientsCreated := false, false, None, 0;
      connectListeners, disconnectListeners := [], [];
      messageHandlers, reactionHandlers, presenceHandlers, channelEventHandlers := {}, {}, {}, {};
      subscriptions, published, notices := [], [], [];
      new;
      SetupClientStep();
    }

    method SetupClientStep()
      modifies this
      ensures State() == SetupClient(old(State()))
    {
      // the previous client, if any, is deactivated and replaced
      var next := SetupClient(State());
      connected, awaitingHandshake, subscriptions, connectHeader, clientsCreated :=
        next.connected, next.awaitingHandshake, next.subscriptions, next.connectHeader, next.clientsCreated;
    }

    method SetupSubscriptionsStep()
      modifies this
      ensures State() == SetupSubscriptions(old(State()))
    {
      if !connected {
        return;
      }
      var header := BearerHeader(authToken);
      subscriptions := subscriptions + [Subscription(MessagesTopic, header)];
      subscriptions := subscriptions + [Subscription(ReactionsTopic, header)];
      subscriptions := subscriptions + [Subscription(PresenceTopic, header)];
      subscriptions := subscriptions + [Subscription(ChannelEventsTopic, header)];
    }

    method NotifyConnectStep()
      modifies this
      ensures State() == NotifyConnect(old(State()))
    {
      notices := notices + [ConnectNotified(connectListeners)];
    }

    method NotifyDisconnectStep()
      modifies this
      ensures State() == NotifyDisconnect(old(State()))
    {
      notices := notices + [DisconnectNotified(disconnectListeners)];
    }

    method ScheduleReconnectStep()
      modifies this
      ensures State() == ScheduleReconnect(old(State()))
    {
      pendingTimers := [];
      if reconnectAttempts >= MaxReconnectAttempts {
        return;
      }
      var delay := BaseReconnectDelay * Pow2(reconnectAttempts);
      if delay > MaxReconnectDelay {
        delay := MaxReconnectDelay;
      }
      pendingTimers := [delay];
    }

    method Connect(token: Option<string>)
      modifies this
      ensures State() == AfterConnect(old(State()), token)
    {
      if isConnecting {
        return;
      }
      if connected && authToken == token {
        return;
      }
      authToken := token;
      isConnecting := true;
      SetupClientStep();
      // ensureConnected: a fresh client is never connected yet
      if reconnectAttempts >= MaxReconnectAttempts {
        // the throw is caught by connect
        NotifyDisconnectStep();
        ScheduleReconnectStep();
        isConnecting := false;
        return;
      }
      awaitingHandshake := true;
    }

    /** The handshake completes (corrected behaviour, see `Handshake`). */
    method HandshakeSucceeded()
      modifies this
      ensures State() == Handshake(old(State()))
    {
      connected := true;
      awaitingHandshake := false;
      reconnectAttempts := 0;
      isConnecting := false;
      assert State() == old(State()).(connected := true, awaitingHandshake := false, reconnectAttempts := 0, isConnecting := false);
      SetupSubscriptionsStep();
      NotifyConnectStep();
    }

    method StompErrorReceived()
      modifies this
      ensures State() == StompError(old(State()))
    {
      awaitingHandshake := false;
      ConnectionLostStep();
    }

    method SocketErrorOccurred()
      modifies this
      ensures State() == ConnectionLost(old(State()))
    {
      ConnectionLostStep();
    }

    method DisconnectReceived()
      modifies this
      ensures State() == ConnectionLost(old(State()))
    {
      ConnectionLostStep();
    }

    method ConnectionLostStep()
      modifies this
      ensures State() == ConnectionLost(old(State()))
    {
      isConnecting := false;
      NotifyDisconnectStep();
      ScheduleReconnectStep();
    }

    method ConnectionClosed()
      modifies this
      ensures State() == old(State()).(connected := false)
    {
      connected := false;
    }

    method ReconnectTimerFired()
      modifies this
      ensures State() == TimerFired(old(State()))
    {
      if pendingTimers == [] {
        return;
      }
      pendingTimers := [];
      reconnectAttempts := reconnectAttempts + 1;
      Connect(authToken);
    }

    method Disconnect()
      modifies this
      ensures State() == AfterDisconnect(old(State()))
    {
      pendingTimers := [];
      if !connected {
        return;
      }
      connected := false;
      NotifyDisconnectStep();
    }

    method SendMessage(channelId: string, content: string)
      modifies this
      ensures State() == AfterSend(old(State()), channelId, content)
    {
      if !connected {
        return;
      }
      published := published + [Frame(SendDestination(channelId), content, BearerHeader(authToken))];
    }

    method IsConnected() returns (r: bool)
      ensures r == connected
    {
      r := connected;
    }

    /** A frame arrives on `destination`; `parsed` says whether its body
        parses and the fields the callback reads can be read. */
    method Deliver(destination: string, parsed: bool) returns (reached: set<Callback>)
      ensures reached == Delivered(State(), destination, parsed)
    {
      reached := {};
      if !parsed {
        return;
      }
      var i := 0;
      var subscribed := false;
      while i < |subscriptions|
        invariant 0 <= i <= |subscriptions|
        invariant subscribed <==> exists j :: 0 <= j < i && subscriptions[j].destination == destination
      {
        if subscriptions[i].destination == destination {
          subscribed := true;
        }
        i := i + 1;
      }
      if !subscribed {
        return;
      }
      if destination == MessagesTopic {
        reached := messageHandlers;
      } else if destination == ReactionsTopic {
        reached := reactionHandlers;
      } else if destination == PresenceTopic {
        reached := presenceHandlers;
      } else if destination == ChannelEventsTopic {
        reached := channelEventHandlers;
      }
    }

    method OnConnect(listener: Callback)
      modifies this
      ensures State() == old(State()).(connectListeners := old(connectListeners) + [listener])
    {
      connectListeners := connectListeners + [listener];
    }

    method OffConnect(listener: Callback)
      modifies this
      ensures State() == old(State()).(connectListeners := Without(old(connectListeners), listener))
    {
      connectListeners := Without(connectListeners, listener);
    }

    method OnDisconnect(listener: Callback)
      modifies this
      ensures State() == old(State()).(disconnectListeners := old(disconnectListeners) + [listener])
    {
      disconnectListeners := disconnectListeners + [listener];
    }

    method OffDisconnect(listener: Callback)
      modifies this
      ensures State() == old(State()).(disconnectListeners := Without(old(disconnectListeners), listener))
    {
      disconnectListeners := Without(disconnectListeners, listener);
    }

    method AddMessageHandler(handler: Callback)
      modifies this
      ensures State() == old(State()).(messageHandlers := old(messageHandlers) + {handler})
    {
      messageHandlers := messageHandlers + {handler};
    }

    method RemoveMessageHandler(handler: Callback)
      modifies this
      ensures State() == old(State()).(messageHandlers := old(messageHandlers) - {handler})
    {
      messageHandlers := messageHandlers - {handler};
    }

    method AddReactionHandler(handler: Callback)
      modifies this
      ensures State() == old(State()).(reactionHandlers := old(reactionHandlers) + {handler})
    {
      reactionHandlers := reactionHandlers + {handler};
    }

    method RemoveReactionHandler(handler: Callback)
      modifies this
      ensures State() == old(State()).(reactionHandlers := old(reactionHandlers) - {handler})
    {
      reactionHandlers := reactionHandlers - {handler};
    }

    method AddPresenceHandler(handler: Callback)
      modifies this
      ensures State() == old(State()).(presenceHandlers := old(presenceHandlers) + {handler})
    {
      presenceHandlers := presenceHandlers + {handler};
    }

    method RemovePresenceHandler(handler: Callback)
      modifies this
      ensures State() == old(State()).(presenceHandlers := old(presenceHandlers) - {handler})
    {
      presenceHandlers := presenceHandlers - {handler};
    }

    method AddChannelEventHandler(handler: Callback)
      modifies this
      ensures State() == old(State()).(channelEventHandlers := old(channelEventHandlers) + {handler})
    {
      channelEventHandlers := channelEventHandlers + {handler};
    }

    method RemoveChannelEventHandler(handler: Callback)
      modifies this
      ensures State() == old(State()).(channelEventHandlers := old(channelEventHandlers) - {handler})
    {
      channelEventHandlers := channelEventHandlers - {handler};
    }
  }
}
