# ChatGenius core, modelled in Dafny

ChatGenius is a channel-based chat application. A React client talks to a
Spring backend: over REST for page loads and mutations, and over a STOMP
broker for live messages, reactions, presence and channel-lifecycle events.
This project models the logic of both halves. Each source file of the core
gets its own Dafny module, named after that file.

**Client real-time state.**
- `WebSocketManager` is the STOMP connection manager, written as a class
  `Manager`. Each of its methods is proved equal to a pure transition over
  `ManagerState`. The transitions cover:
  - the bounded exponential reconnect backoff, with at most one pending timer;
  - the four fixed topic subscriptions;
  - the listener lists and handler sets;
  - the guarded send.
- `WebSocketService` is the older per-channel service, with its queue of
  pending subscriptions.
- `NotificationContext` holds the unread-counter reducer.
- Separate modules model the cache updaters of the hooks:
  - `MessageReactions`;
  - `ChannelMessages`;
  - `WebSocketSubscription`;
  - `ChannelEvents`.
- `ReactionGroups` groups reactions by emoji for `MessageList` and
  `MessageListItem`.
- `UserSettings` models the display-name validation.
- `Logger` models the console logger, and `RenderLogging` models the
  render-logging sanitiser.

**Backend services.**
- `Domain` holds the entities, DTOs and events. Its `Db` datatype is the
  repositories plus the log of published broker events.
- `Domain.Store` is the mutable store that the service methods update.
- Each service operation has two parts:
  - a function `XxxSpec(db, …)` returning the answer and the store after
    it. A failure leaves the store as it was, because every operation is
    transactional;
  - a method `Xxx(store, …)` proved to do exactly that.
- Lemmas about the `Spec` functions state the source's rules:
  - who may edit or delete what;
  - uniqueness of reactions and memberships;
  - the last-administrator rule;
  - the file URL round trip;
  - the event envelopes published on each topic.

**Request gating.**
- `Security` holds the servlet request and the `Bearer` convention.
- The Cognito, Clerk and header-based filters, the STOMP gate, the
  development header overlay, the JWK cache and the Clerk webhook are each
  modelled over their abstracted collaborators.
- Tokens, signatures, key fetches and UUID parsing are function-valued
  parameters. The exception a collaborator throws is modelled as `None` or
  as a flag.

**Parameters.**
Clocks, fresh ids, random names, the broker client, the disk and the
cryptography are not computed by the model. Each one is a parameter of the
operation that uses it.

**Client behaviours the model keeps as written.**
- Every subscription is its own broker subscription; nothing is reference-counted.
- The message cache appends every delivered message. It neither drops duplicates nor reorders.
- `connect` returns at once while a connect is in flight. It does not hand back the pending outcome.

`UserServiceImpl` and `UserService` register users with different checks,
run in a different order and with different messages. Each one is modelled
as written.

## Model

| member | source | states |
|---|---|---|
| WebSocketManager.ReconnectDelay | frontend/src/services/websocket/WebSocketManager.ts:153 | the backoff delay `min(1000·2^n, 30000)` is positive, at most 30000 ms and at most the uncapped exponential |
| WebSocketManager.ReconnectDelayMonotone | frontend/src/services/websocket/WebSocketManager.ts:153 | later attempts never wait less |
| WebSocketManager.DelaysWithinBudget | frontend/src/services/websocket/WebSocketManager.ts:20-153 | within the five-attempt budget the cap never applies: every delay is exactly 1000·2^n and at most 16000 ms |
| WebSocketManager.ConnectHeader | frontend/src/services/websocket/WebSocketManager.ts:43-45 | the client's connect header exists exactly for a truthy token and is then `Bearer <token>` |
| WebSocketManager.TopicSubscriptions | frontend/src/services/websocket/WebSocketManager.ts:84-141 | a connected client subscribes exactly four topics, in the order messages, reactions, presence, channel events, each with the `Bearer` header of the stored token |
| WebSocketManager.Without | frontend/src/services/websocket/WebSocketManager.ts:175-185 | the filtered listener list holds exactly the other listeners and is no longer than before |
| WebSocketManager.WithoutConcat | frontend/src/services/websocket/WebSocketManager.ts:176-184 | removal distributes over concatenation, so every other listener keeps its place in the order |
| WebSocketManager.WithoutAbsent | frontend/src/services/websocket/WebSocketManager.ts:176-184 | removing a listener that is not registered changes nothing |
| WebSocketManager.OnThenOff | frontend/src/services/websocket/WebSocketManager.ts:171-185 | registering a new listener and then removing it gives back the original list |
| WebSocketManager.ScheduleReconnect | frontend/src/services/websocket/WebSocketManager.ts:143-162 | the old timer is cancelled; a single new timer with the backoff delay is pending exactly while attempts remain; nothing else changes |
| WebSocketManager.Delivered | frontend/src/services/websocket/WebSocketManager.ts:91-140 | a frame whose body cannot be read, or on a destination never subscribed, reaches no handler; a readable frame on a subscribed topic reaches exactly the handler set of that topic (messages, reactions, presence, channel events), and any other destination none |
| WebSocketManager.HandshakeRoutesFrames | frontend/src/services/websocket/WebSocketManager.ts:84-140 | after the corrected handshake a readable frame on each of the four topics reaches exactly that topic's handlers; after the first handshake as written a message frame reaches none |
| WebSocketManager.ConnectPreservesValid | frontend/src/services/websocket/WebSocketManager.ts:195-222 | `connect` keeps the manager invariant: at most one timer, a timer only while attempts remain, attempts within the budget |
| WebSocketManager.StepPreservesValid | frontend/src/services/websocket/WebSocketManager.ts:54-331 | every callback, timer firing and public call keeps the invariant, including the handshake both as written (with the `ensureConnected` override) and as intended |
| WebSocketManager.RunPreservesValid | frontend/src/services/websocket/WebSocketManager.ts:54-235 | any sequence of events, with handshakes as written or as intended, keeps the invariant |
| WebSocketManager.ReachableValid | frontend/src/services/websocket/WebSocketManager.ts:19-162 | from the initial singleton, whatever happens and whichever handshake runs, no more than one reconnect timer is pending and at most five attempts are counted |
| WebSocketManager.ConnectNoOp | frontend/src/services/websocket/WebSocketManager.ts:196-204 | `connect` changes nothing while a connect is in flight or when already connected with the same token |
| WebSocketManager.ConnectStarts | frontend/src/services/websocket/WebSocketManager.ts:206-242 | otherwise it stores the token and builds a fresh client; with attempts left it waits with `isConnecting` set; with the budget spent it notifies the disconnect listeners, schedules nothing and clears `isConnecting` |
| WebSocketManager.ConnectSettles | frontend/src/services/websocket/WebSocketManager.ts:219-266 | `isConnecting` is false again once the handshake succeeds or fails |
| WebSocketManager.HandshakeSubscribes | frontend/src/services/websocket/WebSocketManager.ts:54-141 | a successful handshake resets the attempts to 0, clears `isConnecting`, subscribes the four topics, then notifies the connect listeners |
| WebSocketManager.AwaitedHandshakeSkipsOnConnect | frontend/src/services/websocket/WebSocketManager.ts:250-261 | as written, the handshake a `connect` is waiting for leaves the manager connected with no topic subscribed, no listener notified and the attempts not reset |
| WebSocketManager.AsWrittenFirstConnectHasNoSubscriptions | frontend/src/services/websocket/WebSocketManager.ts:250-261 | the first connect of a session, as written, ends connected with no subscription, where the intended handshake subscribes all four topics |
| WebSocketManager.ExhaustedStaysExhausted | frontend/src/services/websocket/WebSocketManager.ts:148-242 | once five attempts are counted, a handshake that runs the `onConnect` body resets the count to 0, and every other event, the as-written handshake that only answers an awaited connect included, leaves no timer and the count at five |
| WebSocketManager.TimerFiringCounts | frontend/src/services/websocket/WebSocketManager.ts:156-158 | a firing timer counts exactly one more attempt before reconnecting; with no pending timer nothing happens |
| WebSocketManager.LossSchedulesBackoff | frontend/src/services/websocket/WebSocketManager.ts:62-161 | a lost connection schedules exactly one timer of 1000·2^n ms while attempts remain, and none afterwards |
| WebSocketManager.DisconnectCancels | frontend/src/services/websocket/WebSocketManager.ts:224-235 | `disconnect` always cancels the timer; a connected client is deactivated and the disconnect listeners notified; otherwise nothing else changes |
| WebSocketManager.SendPublishes | frontend/src/services/websocket/WebSocketManager.ts:309-327 | a disconnected manager publishes nothing; a connected one publishes exactly one frame `{content}` to `/app/channels/<id>/messages` with the `Bearer` header |
| WebSocketManager.Manager.constructor | frontend/src/services/websocket/WebSocketManager.ts:17-34 | the singleton starts from the initial state, which satisfies the invariant |
| WebSocketManager.Manager.SetupClientStep | frontend/src/services/websocket/WebSocketManager.ts:36-52 | the fields after `setupClient` are those of the transition `SetupClient` |
| WebSocketManager.Manager.SetupSubscriptionsStep | frontend/src/services/websocket/WebSocketManager.ts:84-141 | the fields after `setupSubscriptions` are those of `SetupSubscriptions` |
| WebSocketManager.Manager.NotifyConnectStep | frontend/src/services/websocket/WebSocketManager.ts:187-189 | every connect listener is called once, in order |
| WebSocketManager.Manager.NotifyDisconnectStep | frontend/src/services/websocket/WebSocketManager.ts:191-193 | every disconnect listener is called once, in order |
| WebSocketManager.Manager.ScheduleReconnectStep | frontend/src/services/websocket/WebSocketManager.ts:143-162 | the fields after `scheduleReconnect` are those of `ScheduleReconnect` |
| WebSocketManager.Manager.Connect | frontend/src/services/websocket/WebSocketManager.ts:195-249 | the fields after `connect` are those of `AfterConnect` |
| WebSocketManager.Manager.HandshakeSucceeded | frontend/src/services/websocket/WebSocketManager.ts:54-261 | the fields after a successful handshake are those of the intended `Handshake` |
| WebSocketManager.Manager.StompErrorReceived | frontend/src/services/websocket/WebSocketManager.ts:69-266 | a STOMP error clears `isConnecting`, notifies the disconnect listeners and reschedules |
| WebSocketManager.Manager.SocketErrorOccurred | frontend/src/services/websocket/WebSocketManager.ts:76-81 | a WebSocket error clears `isConnecting`, notifies the disconnect listeners and reschedules |
| WebSocketManager.Manager.DisconnectReceived | frontend/src/services/websocket/WebSocketManager.ts:62-67 | a DISCONNECT receipt clears `isConnecting`, notifies the disconnect listeners and reschedules |
| WebSocketManager.Manager.ConnectionLostStep | frontend/src/services/websocket/WebSocketManager.ts:62-81 | the shared body of the loss callbacks |
| WebSocketManager.Manager.ConnectionClosed | frontend/src/services/websocket/WebSocketManager.ts:41-52 | the stompjs client built here clears its `connected` flag when the socket closes; no close callback is installed, so nothing else of the manager changes |
| WebSocketManager.Manager.ReconnectTimerFired | frontend/src/services/websocket/WebSocketManager.ts:156-161 | the fields after the timer fires are those of `TimerFired` |
| WebSocketManager.Manager.Disconnect | frontend/src/services/websocket/WebSocketManager.ts:224-235 | the fields after `disconnect` are those of `AfterDisconnect` |
| WebSocketManager.Manager.SendMessage | frontend/src/services/websocket/WebSocketManager.ts:309-331 | the fields after `sendMessage` are those of `AfterSend` |
| WebSocketManager.Manager.IsConnected | frontend/src/services/websocket/WebSocketManager.ts:333-335 | answers whether the current client is connected |
| WebSocketManager.Manager.Deliver | frontend/src/services/websocket/WebSocketManager.ts:91-140 | the handlers a frame reaches are exactly `Delivered`; a body that does not parse reaches none |
| WebSocketManager.Manager.OnConnect | frontend/src/services/websocket/WebSocketManager.ts:171-173 | the listener is appended last; nothing else changes |
| WebSocketManager.Manager.OffConnect | frontend/src/services/websocket/WebSocketManager.ts:175-177 | every occurrence of the listener goes, the rest keep their order |
| WebSocketManager.Manager.OnDisconnect | frontend/src/services/websocket/WebSocketManager.ts:179-181 | the listener is appended last; nothing else changes |
| WebSocketManager.Manager.OffDisconnect | frontend/src/services/websocket/WebSocketManager.ts:183-185 | every occurrence of the listener goes, the rest keep their order |
| WebSocketManager.Manager.AddMessageHandler | frontend/src/services/websocket/WebSocketManager.ts:277-279 | set insertion: adding twice is adding once |
| WebSocketManager.Manager.RemoveMessageHandler | frontend/src/services/websocket/WebSocketManager.ts:281-283 | set deletion: the handler is absent afterwards |
| WebSocketManager.Manager.AddReactionHandler | frontend/src/services/websocket/WebSocketManager.ts:285-287 | set insertion |
| WebSocketManager.Manager.RemoveReactionHandler | frontend/src/services/websocket/WebSocketManager.ts:289-291 | set deletion |
| WebSocketManager.Manager.AddPresenceHandler | frontend/src/services/websocket/WebSocketManager.ts:293-295 | set insertion |
| WebSocketManager.Manager.RemovePresenceHandler | frontend/src/services/websocket/WebSocketManager.ts:297-299 | set deletion |
| WebSocketManager.Manager.AddChannelEventHandler | frontend/src/services/websocket/WebSocketManager.ts:301-303 | set insertion |
| WebSocketManager.Manager.RemoveChannelEventHandler | frontend/src/services/websocket/WebSocketManager.ts:305-307 | set deletion |
| Common.ChannelTopicInjective | frontend/src/services/websocketService.ts:55 | two channels share the topic `/topic/channel/<id>` exactly when they are the same channel; the client subscribes it and the server publishes to it (MessageService.java:87-89), so a channel's events reach only its subscribers |
| WebSocketService.MapSet | frontend/src/services/websocketService.ts:8-45 | `Map.set`: the key holds the new handler, every other key keeps its handler, a new key goes last, keys stay distinct |
| WebSocketService.MapDelete | frontend/src/services/websocketService.ts:65 | `Map.delete`: the key is gone, every other key keeps its handler, an absent key changes nothing |
| WebSocketService.Overlay | frontend/src/services/websocketService.ts:35-53 | subscribing the queued entries in order leaves exactly the old channels plus the queued ones |
| WebSocketService.TopicSubscriptions | frontend/src/services/websocketService.ts:35-55 | draining the queue makes one broker subscription per queued entry, in queue order, on that entry's topic |
| WebSocketService.OverlayLookup | frontend/src/services/websocketService.ts:35-38 | after the drain every queued channel holds its queued handler and every other channel its earlier one |
| WebSocketService.DeliveredTo | frontend/src/services/websocketService.ts:55-60 | a frame on a topic reaches exactly the handlers of the broker subscriptions to that topic |
| WebSocketService.SubscribePreservesValid | frontend/src/services/websocketService.ts:21-66 | every operation, a socket close included, keeps the queue's keys distinct and leaves no subscription without a session |
| WebSocketService.SubscribeWhileDisconnectedQueues | frontend/src/services/websocketService.ts:43-47 | while disconnected, subscribing only sets the channel's queued handler; nothing else changes |
| WebSocketService.SubscribeWhileConnectedReplaces | frontend/src/services/websocketService.ts:49-55 | while connected, the channel ends with exactly the new handler and other channels keep theirs; one broker subscription on its topic is added when the session is open and none while the client reconnects |
| WebSocketService.Service.SubscribeToChannel | frontend/src/services/websocketService.ts:42-61 | the new state is `Subscribe` of the old one, and the call throws exactly when the service believes it is connected but the client has no session |
| WebSocketService.SubscribeWhileConnected | frontend/src/services/websocketService.ts:49-55 | the same effect as a map update plus one appended subscription |
| WebSocketService.UnsubscribeRemovesOnlyIt | frontend/src/services/websocketService.ts:63-66 | unsubscribing removes the channel from both maps, touches no other channel and cancels no broker subscription |
| WebSocketService.ConnectDrainsQueue | frontend/src/services/websocketService.ts:21-40 | after connecting, the queue is empty, each queued channel holds its queued handler and receives its frames through exactly it, and no channel that was not queued receives anything |
| WebSocketService.DeliveredAppend | frontend/src/services/websocketService.ts:55-60 | one more subscription adds its handler to the frames of its own topic and of no other |
| WebSocketService.DeliveredToTopics | frontend/src/services/websocketService.ts:35-40 | draining a queue with distinct keys into a new session reaches each queued channel through exactly its handler and no other channel |
| WebSocketService.ReconnectDropsLiveChannel | frontend/src/services/websocketService.ts:21-40 | as written: a channel subscribed in the previous session and not queued keeps its handler across a reconnect yet receives no frame |
| WebSocketService.LiveChannelDeafAfterReconnect | frontend/src/services/websocketService.ts:16-40 | as written: connect, subscribe, a STOMP error and the reconnect leave the channel with its handler and no frames |
| WebSocketService.ErrorQueuesAgain | frontend/src/services/websocketService.ts:27-47 | after a STOMP error, subscribing queues again and leaves the handler map alone |
| WebSocketService.UnsubscribedHandlerStillReceives | frontend/src/services/websocketService.ts:55-66 | a handler subscribed while connected still receives its channel's frames after unsubscribing, because the broker subscription is never cancelled |
| WebSocketService.Service.constructor | frontend/src/services/websocketService.ts:4-33 | starts disconnected with empty maps |
| WebSocketService.Service.OnConnect | frontend/src/services/websocketService.ts:21-25 | on a new session the state is `Connected` of the old one: only the queued channels are subscribed |
| WebSocketService.Service.OnConnectResubscribing | frontend/src/services/websocketService.ts:21-40 | corrected: after the reconnect every channel with a handler receives its frames through exactly that handler, and no other topic is subscribed |
| WebSocketService.Service.ProcessPendingSubscriptions | frontend/src/services/websocketService.ts:35-40 | the loop over the queue ends in the state `Drained` describes: handlers overlaid in order, queue empty, one subscription per entry appended |
| WebSocketService.Service.OnStompError | frontend/src/services/websocketService.ts:27-30 | only `isConnected` becomes false |
| WebSocketService.Service.OnSessionClosed | frontend/src/services/websocketService.ts:16 | a closed socket drops the session and all its subscriptions and leaves `isConnected` as it was |
| WebSocketService.Service.UnsubscribeFromChannel | frontend/src/services/websocketService.ts:63-66 | the new state is `Unsubscribe` of the old one |
| WebSocketService.Service.Deliver | frontend/src/services/websocketService.ts:55-60 | the handlers a frame reaches are `DeliveredTo` the topic |
| NotificationContext.Reduce | frontend/src/contexts/NotificationContext.tsx:24-62 | per action: selecting a truthy channel makes it current and drops only its counter; selecting null keeps the counters; an increment on the current channel changes nothing, on another channel raises only that counter by one (from 0 when absent); clearing one removes only that key; clearing all empties the counters; anything else is ignored |
| NotificationContext.ReducePreservesInv | frontend/src/contexts/NotificationContext.tsx:24-62 | every action keeps the invariant: the current channel has no counter and every counter is at least 1 |
| NotificationContext.RunPreservesInv | frontend/src/contexts/NotificationContext.tsx:24-62 | any sequence of actions keeps it |
| NotificationContext.ReachableInv | frontend/src/contexts/NotificationContext.tsx:65-68 | every state reachable from the provider's empty initial state satisfies it |
| NotificationContext.SetCurrentChannelDispatch | frontend/src/contexts/NotificationContext.tsx:70-73 | nothing is dispatched exactly when the id is already current; otherwise `SET_CURRENT_CHANNEL` with that id |
| NotificationContext.IncrementUnreadDispatch | frontend/src/contexts/NotificationContext.tsx:75-78 | nothing is dispatched exactly for the current channel; otherwise `INCREMENT_UNREAD` |
| NotificationContext.GuardsAreTransparent | frontend/src/contexts/NotificationContext.tsx:37-78 | on reachable states the callbacks' early returns give the same state as dispatching unconditionally |
| NotificationContext.IncrementsCount | frontend/src/contexts/NotificationContext.tsx:36-78 | n increments on a channel that is not current raise its counter by exactly n and keep the current channel |
| MessageReactions.DropUserEmoji | frontend/src/hooks/websocket/useMessageReactions.ts:51 | keeps exactly the reactions that are not by that user with that emoji |
| MessageReactions.DropEmoji | frontend/src/hooks/websocket/useMessageReactions.ts:66 | keeps exactly the reactions with another emoji |
| MessageReactions.CountAfterDrop | frontend/src/hooks/websocket/useMessageReactions.ts:51 | after the filter the user has no reaction with that emoji left |
| MessageReactions.DropUserEmojiTwice | frontend/src/hooks/websocket/useMessageReactions.ts:51 | the filter is idempotent |
| MessageReactions.AfterAdd | frontend/src/hooks/websocket/useMessageReactions.ts:45-58 | a failed call changes nothing; a successful one replaces that user's reactions with the emoji on that message by the returned reaction, appended last, and leaves every other message alone |
| MessageReactions.AddLeavesOne | frontend/src/hooks/websocket/useMessageReactions.ts:48-54 | after a successful add the message holds exactly one reaction of that user with that emoji |
| MessageReactions.AddIdempotent | frontend/src/hooks/websocket/useMessageReactions.ts:48-54 | applying the same successful add twice is applying it once |
| MessageReactions.AfterRemove | frontend/src/hooks/websocket/useMessageReactions.ts:61-71 | a failed call changes nothing; a successful one keeps exactly the message's reactions with other emojis, for every user, and leaves other messages alone |
| MessageReactions.RemoveClearsEmoji | frontend/src/hooks/websocket/useMessageReactions.ts:64-67 | no reaction with that emoji remains on the message, and a message without an entry gets the empty list |
| MessageReactions.AfterReactionUpdate | frontend/src/hooks/websocket/useMessageReactions.ts:84-92 | a broadcast list replaces the message's list only while mounted and for a tracked message; otherwise nothing changes |
| MessageReactions.NewIdIsFetched | frontend/src/hooks/websocket/useMessageReactions.ts:74-81 | an enabled hook with an id outside the last fetched batch fetches |
| MessageReactions.FetchedBatchIsNotRefetched | frontend/src/hooks/websocket/useMessageReactions.ts:74-81 | a disabled hook, an empty id list or an already fetched batch never fetches |
| MessageReactions.AfterSubscribe | frontend/src/hooks/websocket/useMessageReactions.ts:95-98 | the handler is registered exactly while enabled and connected |
| MessageReactions.AfterCleanup | frontend/src/hooks/websocket/useMessageReactions.ts:100-102 | the cleanup removes the handler exactly when the effect registered it |
| MessageReactions.SubscribeCleanupRestores | frontend/src/hooks/websocket/useMessageReactions.ts:95-103 | subscribing then cleaning up gives back the handler set the hook found |
| MessageReactions.ReactionsHook.constructor | frontend/src/hooks/websocket/useMessageReactions.ts:15-19 | starts with no reactions, no fetched batch, mounted |
| MessageReactions.ReactionsHook.FetchEffect | frontend/src/hooks/websocket/useMessageReactions.ts:74-81 | answers `ShouldFetch` for the current last batch |
| MessageReactions.ReactionsHook.BeginFetch | frontend/src/hooks/websocket/useMessageReactions.ts:24-28 | the request is sent exactly with a truthy token while mounted, and only then is the batch recorded |
| MessageReactions.ReactionsHook.CompleteFetch | frontend/src/hooks/websocket/useMessageReactions.ts:28-41 | the fetched map is stored only if it arrived while mounted; a failure changes nothing |
| MessageReactions.ReactionsHook.HandleAddReaction | frontend/src/hooks/websocket/useMessageReactions.ts:45-58 | the cache becomes `AfterAdd` of the old one; the refs are untouched |
| MessageReactions.ReactionsHook.HandleRemoveReaction | frontend/src/hooks/websocket/useMessageReactions.ts:61-71 | the cache becomes `AfterRemove` of the old one |
| MessageReactions.ReactionsHook.HandleReactionUpdate | frontend/src/hooks/websocket/useMessageReactions.ts:84-92 | the cache becomes `AfterReactionUpdate` of the old one |
| MessageReactions.ReactionsHook.Unmount | frontend/src/hooks/websocket/useMessageReactions.ts:106-110 | only the mounted flag falls |
| ChannelMessages.ParentsKeyInjective | frontend/src/hooks/chat/useChannelMessages.ts:20 | distinct channels have distinct query keys `['messages', id, 'parents']` |
| ChannelMessages.AppendMessage | frontend/src/hooks/chat/useChannelMessages.ts:20-38 | with no cached page, a one-message page of size 20; otherwise the message goes last and only the element count grows, by one |
| ChannelMessages.HandleMessage | frontend/src/hooks/chat/useChannelMessages.ts:16-39 | only the channel's parents entry changes, and it becomes the appended page |
| ChannelMessages.OtherChannelUntouched | frontend/src/hooks/chat/useChannelMessages.ts:20 | another channel's cached page is never touched |
| ChannelMessages.DeliveredTwiceAppearsTwice | frontend/src/hooks/chat/useChannelMessages.ts:24-36 | there is no dedup: a message delivered twice sits twice at the end and is counted twice |
| ChannelMessages.SubscriptionEnabled | frontend/src/hooks/chat/useChannelMessages.ts:44 | the subscription is on exactly when enabled with a non-empty channel id |
| WebSocketSubscription.ForwardMessage | frontend/src/hooks/websocket/useWebSocketSubscription.ts:23-27 | a message reaches `onMessage` exactly when it belongs to the hook's channel, and unchanged |
| WebSocketSubscription.ForwardPresence | frontend/src/hooks/websocket/useWebSocketSubscription.ts:30-34 | a presence event reaches `onTyping` exactly for the hook's channel when `onTyping` is given, with the user id |
| WebSocketSubscription.ForwardAll | frontend/src/hooks/websocket/useWebSocketSubscription.ts:23-27 | of a stream of messages, exactly those of the channel reach `onMessage`, in stream order (the stream filtered by channel) |
| WebSocketSubscription.AfterSetup | frontend/src/hooks/websocket/useWebSocketSubscription.ts:36-51 | without `enabled`, a channel id and a connection nothing is registered; otherwise the message filter, and the presence filter only with `onTyping`, are added and nothing else changes |
| WebSocketSubscription.AfterCleanup | frontend/src/hooks/websocket/useWebSocketSubscription.ts:53-59 | the cleanup removes exactly the message filter, and exactly the presence filter too when `onTyping` is given (the presence set is untouched otherwise); every other handler and field of the manager stays |
| WebSocketSubscription.CleanupUndoesSetup | frontend/src/hooks/websocket/useWebSocketSubscription.ts:36-60 | cleanup after setup gives back the manager state the effect found |
| WebSocketSubscription.NoTypingNoPresence | frontend/src/hooks/websocket/useWebSocketSubscription.ts:49-58 | without `onTyping` neither setup nor cleanup touches the presence handlers |
| WebSocketSubscription.Setup | frontend/src/hooks/websocket/useWebSocketSubscription.ts:36-52 | reports whether it registered (so returned a cleanup) and leaves the manager in `AfterSetup` |
| WebSocketSubscription.Cleanup | frontend/src/hooks/websocket/useWebSocketSubscription.ts:53-59 | leaves the manager in `AfterCleanup` |
| WebSocketSubscription.SendMessage | frontend/src/hooks/websocket/useWebSocketSubscription.ts:63-70 | nothing happens while the hook sees no connection; otherwise the manager sends to this channel |
| ChannelEvents.HandleChannelEvent | frontend/src/hooks/websocket/useChannelEvents.ts:25-38 | `onChannelCreated` is called exactly for a `CREATED` event when given, `onChannelDeleted` exactly for a `DELETED` event when given, each with the event's channel; any other type is warned about with that type |
| ChannelEvents.ErrorDetail | frontend/src/hooks/websocket/useChannelEvents.ts:51-62 | an `Error` contributes its message, anything else `"Unknown error"` |
| ChannelEvents.RunEffect | frontend/src/hooks/websocket/useChannelEvents.ts:40-56 | nothing is attempted exactly when not enabled or not connected; a subscribe that rejects or throws is logged with its detail and never rethrown |
| ChannelEvents.RunCleanup | frontend/src/hooks/websocket/useChannelEvents.ts:58-65 | a rejected unsubscribe is logged with its detail and a resolved one logs nothing; an unsubscribe call that throws escapes the cleanup with its thrown value |
| ChannelEvents.UndefinedMethods | frontend/src/hooks/websocket/useChannelEvents.ts:48-60 | with neither manager method defined, the effect logs the subscribe's `TypeError` message and the cleanup's `TypeError` escapes |
| ReactionGroups.GroupOf | frontend/src/components/ChatPanel/MessageList.tsx:57-66 | a group holds exactly the reactions with its emoji, in input order |
| ReactionGroups.EmojisOf | frontend/src/components/ChatPanel/MessageList.tsx:57-66 | the emojis present, each once, in first-appearance order, the order in which the grouping object's properties are created |
| ReactionGroups.Grouping | frontend/src/components/ChatPanel/MessageList.tsx:57-66 | the reference grouping object: one (emoji, group) pair per distinct emoji, in property creation order |
| ReactionGroups.KeyIndex | frontend/src/components/ChatPanel/MessageList.tsx:60 | the lookup `groups[key]` finds the first group with that key, or reports absence |
| ReactionGroups.InsertStep | frontend/src/components/ChatPanel/MessageList.tsx:58-64 | one accumulator step applied to the grouping of a prefix gives the grouping of the longer prefix |
| ReactionGroups.GroupingPartitions | frontend/src/components/ChatPanel/MessageList.tsx:57-66 | every reaction sits in exactly the group of its emoji, and no two chips share an emoji |
| ReactionGroups.GroupSizesSum | frontend/src/components/ChatPanel/MessageList.tsx:57-122 | no reaction is lost or duplicated: the chip counts add up to the number of reactions |
| ReactionGroups.HighlightMeansOwnReaction | frontend/src/components/ChatPanel/MessageList.tsx:116-120 | a chip is highlighted exactly when the signed-in user reacted with its emoji, and never without a user |
| Common.InsertBy | frontend/src/components/ChatPanel/MessageList.tsx:112 | inserting keeps the elements plus the new one, and keeps an ascending sequence ascending |
| Common.SortBy | frontend/src/components/ChatPanel/MessageList.tsx:112 | sorting by a key is a permutation in ascending key order |
| ReactionGroups.IndexEntries | frontend/src/components/ChatPanel/MessageList.tsx:112 | the entries whose key is an array index, all of them index keys |
| ReactionGroups.NamedEntries | frontend/src/components/ChatPanel/MessageList.tsx:112 | the other entries, none of them an index key |
| ReactionGroups.SplitPermutes | frontend/src/components/ChatPanel/MessageList.tsx:112 | index entries and named entries together are exactly the object's entries |
| ReactionGroups.NoIndexKeys | frontend/src/components/ChatPanel/MessageList.tsx:112 | an object without index keys has only named entries, in creation order |
| ReactionGroups.SortByIndex | frontend/src/components/ChatPanel/MessageList.tsx:112 | the index entries reordered, ascending by numeric value |
| ReactionGroups.Displayed | frontend/src/components/ChatPanel/MessageList.tsx:112 | `Object.entries` lists every entry once: first the index keys in ascending numeric order, then the other keys in creation order; without index keys it is the creation order |
| ReactionGroups.SameEntries | frontend/src/components/ChatPanel/MessageList.tsx:112 | two listings with the same multiset of entries hold the same entries |
| ReactionGroups.ChipsAreGroups | frontend/src/components/ChatPanel/MessageList.tsx:112-122 | the rendered chips are one per distinct emoji, each holding exactly that emoji's reactions |
| ReactionGroups.ChipsInCreationOrder | frontend/src/components/ChatPanel/MessageListItem.tsx:97 | when no emoji is an array index, the chips appear in first-appearance order |
| ReactionGroups.DisplayedPair | frontend/src/components/ChatPanel/MessageList.tsx:112 | an index key created after a named key is still listed first |
| MessageList.GroupReactions | frontend/src/components/ChatPanel/MessageList.tsx:57-66 | the `reduce` loop builds exactly the reference grouping object |
| MessageList.ChipCountIsEmojiCount | frontend/src/components/ChatPanel/MessageList.tsx:122 | a chip shows the number of reactions with its emoji |
| MessageList.FindMessage | frontend/src/components/ChatPanel/MessageList.tsx:41-42 | absent exactly when no message has the id; otherwise a message with that id |
| MessageList.FindOwnReaction | frontend/src/components/ChatPanel/MessageList.tsx:43 | absent exactly when the user has no reaction with the emoji; otherwise one of theirs with it |
| MessageList.HandleReaction | frontend/src/components/ChatPanel/MessageList.tsx:37-49 | no call without a user; with one, remove exactly when the message holds the user's reaction with that emoji (naming that reaction's id), add otherwise |
| MessageList.ToggleFindsAddedReaction | frontend/src/components/ChatPanel/MessageList.tsx:41-46 | once the message holds the user's reaction, the next click on that emoji removes |
| MessageList.PickerAfterReaction | frontend/src/components/ChatPanel/MessageList.tsx:38-53 | the picker closes after a successful call and stays as it was without a user or after a failure |
| MessageList.TogglePicker | frontend/src/components/ChatPanel/MessageList.tsx:136-139 | `[more]` closes this message's open picker and otherwise opens it |
| MessageListItem.GroupedReactionsIsGrouping | frontend/src/components/ChatPanel/MessageListItem.tsx:62-65 | the `concat` fold builds exactly the reference grouping object, the same one the older list builds, so both lists render the same `Chips` |
| MessageListItem.HandleReactionClick | frontend/src/components/ChatPanel/MessageListItem.tsx:39-46 | remove exactly when anyone reacted with the emoji, add otherwise, always with that emoji |
| MessageListItem.ClickIgnoresAuthor | frontend/src/components/ChatPanel/MessageListItem.tsx:39-102 | a chip made only of other users' reactions is not highlighted, yet clicking it calls remove |
| MessageListItem.HandleEmojiSelect | frontend/src/components/ChatPanel/MessageListItem.tsx:34-37 | a picker selection always adds and closes the picker |
| MessageListItem.Usernames | frontend/src/components/ChatPanel/MessageListItem.tsx:106 | one username per reaction, in order |
| MessageListItem.ChipTitleLength | frontend/src/components/ChatPanel/MessageListItem.tsx:106 | the title lists every reactor once per reaction, separated by `", "`, and is the single username for a single reaction |
| UserSettings.Validate | frontend/src/components/UserSettingsPanel/UserSettingsPanel.tsx:23-38 | a name passes exactly when it has 3 to 30 characters, all in `[a-zA-Z0-9_-]`; the checks run short, long, characters, so a short name gets the "at least 3" message, a long one the "at most 30" message, and an in-range name with a bad character the character message |
| UserSettings.ValidNameIsTrimmed | frontend/src/components/UserSettingsPanel/UserSettingsPanel.tsx:32-58 | a passing name has no whitespace, so trimming it changes nothing and leaves it non-empty |
| UserSettings.SubmittedAsTyped | frontend/src/components/UserSettingsPanel/UserSettingsPanel.tsx:52-58 | whatever passes the submit guard is sent exactly as typed and has 3 to 30 characters |
| UserSettings.SettingsPanel.constructor | frontend/src/components/UserSettingsPanel/UserSettingsPanel.tsx:15-19 | the panel starts with the current username, no error, no success, not loading |
| UserSettings.SettingsPanel.ValidateDisplayName | frontend/src/components/UserSettingsPanel/UserSettingsPanel.tsx:23-38 | answers true exactly for a passing name and leaves the error that `Validate` gives; nothing else changes |
| UserSettings.SettingsPanel.HandleDisplayNameChange | frontend/src/components/UserSettingsPanel/UserSettingsPanel.tsx:40-48 | the input takes the new name; clearing it clears the error without validating, any other value is validated |
| UserSettings.SettingsPanel.HandleDisplayNameSubmit | frontend/src/components/UserSettingsPanel/UserSettingsPanel.tsx:50-67 | a request is made exactly when the trimmed name is non-empty, nothing is in flight, a user is signed in and the name passes, and then for that user with the trimmed name; an early return on the first guard changes nothing, a failed validation only sets the error; after the request, success or failure messages as the update ends, and loading is off |
| UserSettings.SettingsPanel.UpdateUsername | frontend/src/components/UserSettingsPanel/UserSettingsPanel.tsx:55-66 | loading is off afterwards; success sets the success message and clears the error, failure clears the success and sets the retry message |
| Logger.IndexOf | frontend/src/utils/logger.ts:59 | `indexOf` is -1 exactly for an absent value and otherwise the first index holding it |
| Logger.Rank | frontend/src/utils/logger.ts:58-59 | each level's index in `['debug', 'info', 'warn', 'error']` |
| Logger.Configure | frontend/src/utils/logger.ts:12-14 | logging is on exactly in development or with `VITE_ENABLE_LOGGING` equal to `"true"`; an empty or missing level means `"debug"`; an empty or missing category variable means the five default categories, otherwise the raw string |
| Logger.SubstringAt | frontend/src/utils/logger.ts:56 | `String.prototype.includes` holds exactly when the needle occurs at some position |
| Logger.ShouldLog | frontend/src/utils/logger.ts:54-60 | nothing is logged when logging is off or the category is not enabled; otherwise exactly the levels whose index reaches the threshold's |
| Logger.ShouldLogMonotone | frontend/src/utils/logger.ts:58-59 | a level that passes lets every higher level pass |
| Logger.ThresholdIsInclusive | frontend/src/utils/logger.ts:58-59 | with a known threshold, exactly that level and the ones above pass |
| Logger.UnknownThresholdPassesAll | frontend/src/utils/logger.ts:13-59 | a threshold outside the four levels (index -1) lets every level pass |
| Logger.CategoryTextIsSubstringSearch | frontend/src/utils/logger.ts:14-56 | a category string from the environment is searched as text: `"clerk,api"` enables `api` but not `state`, and `"rapid"` enables `api` too |
| Logger.DefaultsLogEverything | frontend/src/utils/logger.ts:12-60 | in development with no variables set, every level of every default category is logged |
| Logger.ConsoleMethod | frontend/src/utils/logger.ts:73-81 | each level maps to the console method of the same name |
| Logger.UpperAscii | frontend/src/utils/logger.ts:70 | upper-casing keeps the length and maps exactly the lower-case ASCII letters |
| Logger.LevelLabels | frontend/src/utils/logger.ts:70 | the four labels are `DEBUG`, `INFO`, `WARN`, `ERROR` |
| Logger.FormatAppendsDataLine | frontend/src/utils/logger.ts:62-71 | the line starts with `%c<timestamp> %c[` and ends with the message; truthy data adds a newline and its stringified form, any other data adds nothing |
| RenderLogging.SafeEntriesKeys | frontend/src/utils/withRenderLogging.tsx:18-27 | an object keeps exactly its keys that start with neither `_` nor `$`, in their order |
| RenderLogging.ArrayKeepsShape | frontend/src/utils/withRenderLogging.tsx:15-17 | an array keeps its length and each element is sanitised in place |
| RenderLogging.ObjectKeepsPublicKeys | frontend/src/utils/withRenderLogging.tsx:18-27 | the sanitised object's keys are exactly the input's public keys, a subset of the input's |
| RenderLogging.PrimitivesUnchanged | frontend/src/utils/withRenderLogging.tsx:28 | primitives, `null` and `undefined` pass through unchanged |
| RenderLogging.SafeIsPlain | frontend/src/utils/withRenderLogging.tsx:5-29 | at no depth does the result hold an element, a function, a DOM node or a private key |
| RenderLogging.PlainFixed | frontend/src/utils/withRenderLogging.tsx:5-29 | a value that is already plain is left as it is |
| RenderLogging.SafeIdempotent | frontend/src/utils/withRenderLogging.tsx:5-29 | sanitising twice is sanitising once |
| RenderLogging.LogSafePropValue | frontend/src/utils/withRenderLogging.tsx:5-29 | the method, testing element, function, DOM node, array, object in that order (element → `[React Element]`, function → `[Function: name]` or `anonymous`, node → `[DOM Node]`), computes the reference `SafeValue` |
| RenderLogging.MapItems | frontend/src/utils/withRenderLogging.tsx:16 | the `map` sanitises every element, in order |
| RenderLogging.FillSafeObject | frontend/src/utils/withRenderLogging.tsx:19-26 | the `forEach` fills `safeObj` with exactly the sanitised public entries |
| RenderLogging.PropValue | frontend/src/utils/withRenderLogging.tsx:50-52 | a key the previous props hold reads as the value of its first entry, and a key they do not hold reads as `undefined` |
| RenderLogging.Changes | frontend/src/utils/withRenderLogging.tsx:49-57 | none on the first render; afterwards exactly the props whose value is not `===` the previous one, each with its previous and current value |
| RenderLogging.FirstRenderNoChanges | frontend/src/utils/withRenderLogging.tsx:50 | the first render reports no changed prop |
| RenderLogging.ContainersAlwaysChange | frontend/src/utils/withRenderLogging.tsx:15-50 | because the sanitiser builds arrays and objects afresh, a prop holding one is reported as changed on every later render |
| RenderLogging.SamePrimitivesNoChanges | frontend/src/utils/withRenderLogging.tsx:50 | a render with the same primitive (non-`NaN`) props as before reports nothing |
| Common.NatToString | frontend/src/utils/withRenderLogging.tsx:60 | the count is printed as a canonical decimal numeral (digits, no leading zero) whose value is the count |
| Common.NatToStringOfNumeral | frontend/src/utils/withRenderLogging.tsx:60 | every canonical numeral is the printed form of its value, so printing is a bijection onto canonical numerals |
| RenderLogging.ChangesObject | frontend/src/utils/withRenderLogging.tsx:51-54 | one entry per changed prop, in order, keyed by the prop and holding `{previous, current}` with its two values |
| RenderLogging.RenderData | frontend/src/utils/withRenderLogging.tsx:60-64 | the data is `{renderCount, changedProps, props}` in that order: the count, the changes object (undefined exactly when none changed) and the sanitised props (undefined exactly outside development) |
| RenderLogging.RenderLogger.constructor | frontend/src/utils/withRenderLogging.tsx:36-37 | the refs start at 0 renders and no previous props |
| RenderLogging.RenderLogger.Effect | frontend/src/utils/withRenderLogging.tsx:39-67 | one run counts the render, logs `<name> rendered (<n>)` with the changes against the previous run's sanitised props, and remembers this run's |
| RenderLogging.SanitiseProps | frontend/src/utils/withRenderLogging.tsx:43-46 | the `reduce` sanitises every prop value and keeps every key |
| RenderLogging.ChangedProps | frontend/src/utils/withRenderLogging.tsx:49-57 | the `reduce` collects exactly `Changes` |
| Domain.Authority | backend/src/main/java/com/gauntletai/agustinbiondi/chatgenius/security/AwsCognitoJwtAuthenticationFilter.java:75-77 | the authority is `ROLE_` followed by the role's name |
| Domain.ReactionsNotOn | backend/src/main/java/com/gauntletai/agustinbiondi/chatgenius/model/Message.java:59-61 | deleting a message removes exactly its reactions (`orphanRemoval`) and keeps every other reaction as it was |
| Domain.WithoutTriple | backend/src/main/java/com/gauntletai/agustinbiondi/chatgenius/service/impl/ReactionServiceImpl.java:85 | `deleteByUserUserIdAndMessageIdAndEmoji` removes exactly the reactions of that (message, user, emoji) triple |
| Domain.Summary | backend/src/main/java/com/gauntletai/agustinbiondi/chatgenius/service/impl/ReactionServiceImpl.java:65-71 | the builder-made reaction view keeps the reaction's id, emoji, user and message, and carries its user's username |
| Domain.ToReactionDto | backend/src/main/java/com/gauntletai/agustinbiondi/chatgenius/service/ReactionService.java:151-169 | the DTO keeps id, emoji, user and creation time, and names the message exactly when the message exists |
| Domain.ToMessageDto | backend/src/main/java/com/gauntletai/agustinbiondi/chatgenius/service/MessageService.java:216-235 | the DTO keeps the message's fields and parent, counts its replies, and carries exactly the DTOs of the reactions on it |
| Domain.MemberIds | backend/src/main/java/com/gauntletai/agustinbiondi/chatgenius/service/ChannelServiceImpl.java:221-223 | the member ids are exactly the users with a membership row for the channel |
| Domain.ToChannelDto | backend/src/main/java/com/gauntletai/agustinbiondi/chatgenius/service/ChannelServiceImpl.java:220-233 | the DTO keeps the channel's fields and lists exactly its members |
| Domain.WithMember | backend/src/main/java/com/gauntletai/agustinbiondi/chatgenius/service/ChannelServiceImpl.java:207-214 | the check-then-save adds the pair only when absent, so adding twice is adding once and the pairs stay distinct |
| Domain.WithoutMember | backend/src/main/java/com/gauntletai/agustinbiondi/chatgenius/repository/ChannelMembershipRepository.java:21 | removes exactly that pair and keeps the pairs distinct |
| Domain.ChannelDeleted | backend/src/main/java/com/gauntletai/agustinbiondi/chatgenius/model/Channel.java:59-65 | deleting a channel removes it, its memberships, its messages and their reactions, and nothing else; other rows and the published log are unchanged |
| MessageServiceImpl.ValidateMessageContent | backend/src/main/java/com/gauntletai/agustinbiondi/chatgenius/service/MessageServiceImpl.java:280-287 | content is accepted exactly when it is present, not blank after trimming, and at most 10000 characters; a missing or blank text is rejected as empty, any rejection is a validation error |
| MessageServiceImpl.LengthBoundIsInclusive | backend/src/main/java/com/gauntletai/agustinbiondi/chatgenius/service/MessageServiceImpl.java:284-286 | a text of exactly 10000 characters passes, one of 10001 is rejected as too long |
| MessageServiceImpl.FormatInstant | backend/src/main/java/com/gauntletai/agustinbiondi/chatgenius/service/MessageServiceImpl.java:37-45 | a missing instant formats to null, a present one to its ISO text |
| MessageServiceImpl.ReactionSummaries | backend/src/main/java/com/gauntletai/agustinbiondi/chatgenius/service/MessageServiceImpl.java:130-138 | the reaction views of a message are exactly the builder views of the stored reactions on it, each naming that message and its user's username |
| MessageServiceImpl.LookupUsername | backend/src/main/java/com/gauntletai/agustinbiondi/chatgenius/service/MessageServiceImpl.java:123-125 | the id-to-username map answers exactly for stored users, with the stored user's username |
| MessageServiceImpl.ToView | backend/src/main/java/com/gauntletai/agustinbiondi/chatgenius/service/MessageServiceImpl.java:47-74 | the flat view copies id, content, channel, author, parent and edit flag, always has a creation time, and carries no reactions, no reply count and no replies |
| MessageServiceImpl.HandleIncomingMessageSpec | backend/src/main/java/com/gauntletai/agustinbiondi/chatgenius/service/MessageServiceImpl.java:168-227 | the checks run in the source's order (null channel id, null user id, content, channel exists, membership of a non-public channel, user exists, parent exists, save); the message is accepted exactly when all pass, and then exactly one row is added and returned with reply count 0; every failure leaves the store unchanged |
| MessageServiceImpl.AcceptedMessageKeepsValid | backend/src/main/java/com/gauntletai/agustinbiondi/chatgenius/service/MessageServiceImpl.java:199-220 | an accepted message under a fresh id keeps the store's referential invariant and grows the message table by one |
| MessageServiceImpl.HandleIncomingMessage | backend/src/main/java/com/gauntletai/agustinbiondi/chatgenius/service/MessageServiceImpl.java:168-227 | the method's answer and new store are those of the transaction function |
| MessageServiceImpl.AccessError | backend/src/main/java/com/gauntletai/agustinbiondi/chatgenius/service/MessageServiceImpl.java:81-97 | a page query may proceed exactly when the user and the channel exist and the channel is public or the user is a member |
| MessageServiceImpl.ReplyGroup | backend/src/main/java/com/gauntletai/agustinbiondi/chatgenius/service/MessageServiceImpl.java:114-116 | a parent's group holds exactly the fetched replies to that parent, in fetch order |
| MessageServiceImpl.LatestParentMessagesWithDetailsAsWritten | backend/src/main/java/com/gauntletai/agustinbiondi/chatgenius/service/MessageServiceImpl.java:76-160 | as written: access errors as in the plain page, one view per parent, and every parent's reply count equals the size of the whole fetched reply list |
| MessageServiceImpl.AsWrittenReplyCountCounterexample | backend/src/main/java/com/gauntletai/agustinbiondi/chatgenius/service/MessageServiceImpl.java:156 | with two parents and one reply to the first, the second parent's view claims one reply while it shows none and has none stored |
| MessageServiceImpl.LatestParentMessagesWithDetails | backend/src/main/java/com/gauntletai/agustinbiondi/chatgenius/service/MessageServiceImpl.java:76-160 | corrected: one view per parent, in page order, each a root with that parent's own stored reply count and exactly its own fetched replies |
| MessageServiceImpl.ReplyCountMatchesShownReplies | backend/src/main/java/com/gauntletai/agustinbiondi/chatgenius/service/MessageServiceImpl.java:111-157 | when every stored reply of a parent is among the fetched ones, the corrected count equals the number of replies shown |
| MessageServiceImpl.LatestParentMessages | backend/src/main/java/com/gauntletai/agustinbiondi/chatgenius/service/MessageServiceImpl.java:229-278 | a missing user is reported with the prefix `User not founddd: `; otherwise one view per parent, each a root with its stored reply count and no replies shown |
| MessageServiceImpl.DetailedCountsAgreeWithPlainPage | backend/src/main/java/com/gauntletai/agustinbiondi/chatgenius/service/MessageServiceImpl.java:275 | the corrected detailed page and the plain page report the same reply count for every parent |
| MessageService.NewMessageEvents | backend/src/main/java/com/gauntletai/agustinbiondi/chatgenius/service/MessageService.java:72-99 | a new message produces two envelopes: a MESSAGE_NEW event carrying the message's DTO on its channel's topic, then a NOTIFICATION without payload on `/topic/notifications` |
| MessageService.CreateMessageSpec | backend/src/main/java/com/gauntletai/agustinbiondi/chatgenius/service/MessageService.java:46-73 | as written, creation never succeeds and never changes the store: a missing user, channel or parent gives "User not found", "Channel not found" or "Parent message not found", in that order, and otherwise the conversion throws the `NullPointerException` of the null `replies` |
| MessageService.CreateMessage | backend/src/main/java/com/gauntletai/agustinbiondi/chatgenius/service/MessageService.java:46-73 | the lookups, the save and the rollback give the answer and the unchanged store of the as-written creation |
| MessageService.CreateMessageInitialisingReplies | backend/src/main/java/com/gauntletai/agustinbiondi/chatgenius/service/MessageService.java:46-100 | corrected: creation succeeds exactly when the user, the channel and (if given) the parent exist, with no membership check; on success one row is added and the two events are appended; a failure changes nothing |
| MessageService.CreationAlwaysRollsBack | backend/src/main/java/com/gauntletai/agustinbiondi/chatgenius/service/MessageService.java:65-73 | as written, every request the corrected creation accepts fails with the null-`replies` exception, storing no row and sending no event, where the corrected one stores the row and sends two events |
| MessageService.CreationFailuresAgree | backend/src/main/java/com/gauntletai/agustinbiondi/chatgenius/service/MessageService.java:48-61 | both versions refuse the same requests with the same errors |
| MessageService.NewMessageBroadcast | backend/src/main/java/com/gauntletai/agustinbiondi/chatgenius/service/MessageService.java:73-89 | corrected: the broadcast DTO of a fresh message carries its id, content and parent, and a reply count of 0 |
| MessageService.CreateKeepsValid | backend/src/main/java/com/gauntletai/agustinbiondi/chatgenius/service/MessageService.java:53-66 | corrected: creation under a fresh id keeps the store's referential invariant |
| MessageService.GetChannelMessages | backend/src/main/java/com/gauntletai/agustinbiondi/chatgenius/service/MessageService.java:112-124 | a channel read fails exactly when the channel is missing or the user is not a member, and otherwise maps every message of the page through `toDto`, in page order |
| MessageService.SearchMessages | backend/src/main/java/com/gauntletai/agustinbiondi/chatgenius/service/MessageService.java:171-183 | a search is gated and mapped exactly as a channel read, so a result implies membership |
| MessageService.GetThreadMessages | backend/src/main/java/com/gauntletai/agustinbiondi/chatgenius/service/MessageService.java:126-138 | a thread read fails exactly when the parent is missing or the user is not a member of the parent's channel, and otherwise maps the page through `toDto` |
| MessageService.DeleteMessageSpec | backend/src/main/java/com/gauntletai/agustinbiondi/chatgenius/service/MessageService.java:140-169 | deletion is allowed exactly to the author, the channel's creator or an admin; it removes the message and its reactions and publishes one MESSAGE_DELETE event on the channel topic; a failure changes nothing |
| MessageService.DeleteMessage | backend/src/main/java/com/gauntletai/agustinbiondi/chatgenius/service/MessageService.java:140-169 | the method's answer and new store are those of the deletion function |
| MessageService.DeleteKeepsValid | backend/src/main/java/com/gauntletai/agustinbiondi/chatgenius/service/MessageService.java:163-164 | after a deletion no reaction names the deleted message, every other message and reaction stays, and the invariant holds |
| MessageService.UpdateMessageSpec | backend/src/main/java/com/gauntletai/agustinbiondi/chatgenius/service/MessageService.java:185-214 | only the author may edit; the edit replaces the content, returns the new DTO and publishes it in a MESSAGE_EDIT event; a failure changes nothing |
| MessageService.UpdateMessage | backend/src/main/java/com/gauntletai/agustinbiondi/chatgenius/service/MessageService.java:185-214 | the method's answer and new store are those of the update function |
| MessageService.UpdateOnlyReplacesContent | backend/src/main/java/com/gauntletai/agustinbiondi/chatgenius/service/MessageService.java:194-195 | an edit changes only the content: the edit flag and edit time stay as they were and the invariant holds |
| ReactionService.AddedEvents | backend/src/main/java/com/gauntletai/agustinbiondi/chatgenius/service/ReactionService.java:75-103 | an added reaction produces a REACTION_ADD event with the reaction's DTO on the channel topic, then a NOTIFICATION on `/topic/notifications` |
| ReactionService.AddReactionSpec | backend/src/main/java/com/gauntletai/agustinbiondi/chatgenius/service/ReactionService.java:44-104 | adding succeeds exactly when the message and user exist, the user is a member of the message's channel, and the user has not already reacted with that emoji; otherwise the matching error, with the store unchanged; on success exactly one reaction is added and the two events appended |
| ReactionService.AddReaction | backend/src/main/java/com/gauntletai/agustinbiondi/chatgenius/service/ReactionService.java:44-104 | the method's answer and new store are those of the add function |
| ReactionService.AddKeepsValid | backend/src/main/java/com/gauntletai/agustinbiondi/chatgenius/service/ReactionService.java:60-71 | the duplicate check keeps the one-reaction-per-(message, user, emoji) invariant, and the new reaction is the only one of its triple |
| ReactionService.RemoveReactionSpec | backend/src/main/java/com/gauntletai/agustinbiondi/chatgenius/service/ReactionService.java:115-149 | removal checks, in order, that the reaction exists, is on this message and is the requester's own; success deletes exactly it and publishes REACTION_REMOVE with its emoji; a failure changes nothing |
| ReactionService.RemoveReaction | backend/src/main/java/com/gauntletai/agustinbiondi/chatgenius/service/ReactionService.java:115-149 | the method's answer and new store are those of the remove function |
| ReactionService.RemoveKeepsValid | backend/src/main/java/com/gauntletai/agustinbiondi/chatgenius/service/ReactionService.java:143-144 | a removal keeps the invariant and leaves the requester no reaction of that emoji on the message |
| ReactionService.FindByMessageId | backend/src/main/java/com/gauntletai/agustinbiondi/chatgenius/service/ReactionService.java:171-178 | a missing message is an error; otherwise the result is exactly the DTOs of that message's reactions, each naming the message |
| ReactionServiceImpl.AddReactionSpec | backend/src/main/java/com/gauntletai/agustinbiondi/chatgenius/service/impl/ReactionServiceImpl.java:37-72 | as written: a missing message or user is an error; a triple that already has a reaction fails at commit with the unique-key violation (the insert is flushed before the delete), and more than one makes the lookup fail; every failure leaves the store unchanged; a free triple gains exactly the new reaction, nothing else changes, and the DTO names the reactor |
| ReactionServiceImpl.AddReaction | backend/src/main/java/com/gauntletai/agustinbiondi/chatgenius/service/impl/ReactionServiceImpl.java:37-72 | the lookups, the queued delete and save, and the rollback of a failing commit give the answer and new store of `AddReactionSpec` |
| ReactionServiceImpl.ReAddingFails | backend/src/main/java/com/gauntletai/agustinbiondi/chatgenius/service/impl/ReactionServiceImpl.java:49-62 | as written, adding a reaction the user already has fails with the unique-key violation and changes nothing, while the replacing add succeeds |
| ReactionServiceImpl.AddReactionReplacing | backend/src/main/java/com/gauntletai/agustinbiondi/chatgenius/service/impl/ReactionServiceImpl.java:49-62 | corrected: with the delete flushed first, adding fails exactly when the message or the user is missing; on success the new reaction is the only one of its triple and only reactions change |
| ReactionServiceImpl.AddKeepsValid | backend/src/main/java/com/gauntletai/agustinbiondi/chatgenius/service/impl/ReactionServiceImpl.java:49-62 | corrected: the replacing add keeps the store's invariant whatever reactions of the triple it held, and on a free triple it agrees with the add as written |
| ReactionServiceImpl.RemoveReactionSpec | backend/src/main/java/com/gauntletai/agustinbiondi/chatgenius/service/impl/ReactionServiceImpl.java:74-86 | removal fails exactly when the message is missing; otherwise no reaction of the triple remains and every other reaction is kept as it was |
| ReactionServiceImpl.RemoveReaction | backend/src/main/java/com/gauntletai/agustinbiondi/chatgenius/service/impl/ReactionServiceImpl.java:74-86 | the method's answer and new store are those of the remove function |
| ReactionServiceImpl.RemoveIdempotent | backend/src/main/java/com/gauntletai/agustinbiondi/chatgenius/service/impl/ReactionServiceImpl.java:84-85 | removing twice gives the same answer and store as removing once |
| ReactionServiceImpl.GetReactionsForMessage | backend/src/main/java/com/gauntletai/agustinbiondi/chatgenius/service/impl/ReactionServiceImpl.java:88-108 | a missing message is an error; otherwise the result is exactly the DTOs of that message's reactions |
| ReactionServiceImpl.GetReactionCount | backend/src/main/java/com/gauntletai/agustinbiondi/chatgenius/service/impl/ReactionServiceImpl.java:138-149 | a missing message is an error; otherwise the count is the number of reactions of that emoji on the message |
| ReactionServiceImpl.CountIsReactors | backend/src/main/java/com/gauntletai/agustinbiondi/chatgenius/service/impl/ReactionServiceImpl.java:138-149 | under the unique constraint, an emoji's count equals the number of distinct users who reacted with it |
| ReactionServiceImpl.Summaries | backend/src/main/java/com/gauntletai/agustinbiondi/chatgenius/service/impl/ReactionServiceImpl.java:116-124 | one DTO per fetched reaction, in fetch order |
| ReactionServiceImpl.FiledUnder | backend/src/main/java/com/gauntletai/agustinbiondi/chatgenius/service/impl/ReactionServiceImpl.java:125-128 | a message's group holds exactly the DTOs naming that message |
| ReactionServiceImpl.GroupByMessage | backend/src/main/java/com/gauntletai/agustinbiondi/chatgenius/service/impl/ReactionServiceImpl.java:125-128 | the grouping has a key exactly for each message some DTO names, filed with exactly those DTOs |
| ReactionServiceImpl.ReactionsForMessages | backend/src/main/java/com/gauntletai/agustinbiondi/chatgenius/service/impl/ReactionServiceImpl.java:130-135 | every requested id is a key, with an empty list when no DTO names it; every list holds only DTOs of its key |
| ReactionServiceImpl.GetReactionsForMessages | backend/src/main/java/com/gauntletai/agustinbiondi/chatgenius/service/impl/ReactionServiceImpl.java:110-136 | the grouping plus the `putIfAbsent` loop computes exactly the reference map |
| ChannelServiceImpl.AddMemberInternal | backend/src/main/java/com/gauntletai/agustinbiondi/chatgenius/service/ChannelServiceImpl.java:207-214 | the membership pair is stored unless it already is; nothing else changes |
| ChannelServiceImpl.AddMemberInternalIdempotent | backend/src/main/java/com/gauntletai/agustinbiondi/chatgenius/service/ChannelServiceImpl.java:207-214 | adding a pair twice is adding it once, and afterwards the pair is stored |
| ChannelServiceImpl.Invitees | backend/src/main/java/com/gauntletai/agustinbiondi/chatgenius/service/ChannelServiceImpl.java:49-52 | the invitees are exactly the listed member ids other than the creator, none when the set is null |
| ChannelServiceImpl.AddMembers | backend/src/main/java/com/gauntletai/agustinbiondi/chatgenius/service/ChannelServiceImpl.java:49-58 | the loop succeeds exactly when every invitee is a stored user; otherwise the error names the first unknown one; on success the memberships are the old ones plus the invitees', and no pair is stored twice |
| ChannelServiceImpl.Broadcast | backend/src/main/java/com/gauntletai/agustinbiondi/chatgenius/websocket/WebSocketEventHandler.java:22-34 | a channel broadcast is the event on `/topic/channels/events`, then the bare DTO on `/topic/channels` |
| ChannelServiceImpl.CreateChannelSpec | backend/src/main/java/com/gauntletai/agustinbiondi/chatgenius/service/ChannelServiceImpl.java:31-66 | as written: creation fails exactly when the creator or an invitee is unknown, changing nothing; otherwise it adds the channel and the memberships of the creator and the invitees, leaves every other channel's memberships and every other table alone, and returns and broadcasts as CREATED a DTO that lists no member |
| ChannelServiceImpl.FreshDtoOmitsMembers | backend/src/main/java/com/gauntletai/agustinbiondi/chatgenius/service/ChannelServiceImpl.java:220-232 | converting the entity the creating unit of work holds gives the stored DTO of that channel with an empty member set, whatever the store holds |
| ChannelServiceImpl.CreateChannel | backend/src/main/java/com/gauntletai/agustinbiondi/chatgenius/service/ChannelServiceImpl.java:31-66 | the method's answer and new store are those of the creation function |
| ChannelServiceImpl.CreatedChannelListsNoMembers | backend/src/main/java/com/gauntletai/agustinbiondi/chatgenius/service/ChannelServiceImpl.java:46-65 | as written: a created channel's returned and last broadcast DTO lists no member although the creator is stored as one |
| ChannelServiceImpl.CreateChannelListingMembers | backend/src/main/java/com/gauntletai/agustinbiondi/chatgenius/service/ChannelServiceImpl.java:31-66 | corrected: the same outcome and rows, with the returned and broadcast DTO read from the store |
| ChannelServiceImpl.CreatedChannelMembers | backend/src/main/java/com/gauntletai/agustinbiondi/chatgenius/service/ChannelServiceImpl.java:46-58 | corrected: under a fresh id the new channel's DTO lists exactly the creator and the listed ids |
| ChannelServiceImpl.CreateKeepsValid | backend/src/main/java/com/gauntletai/agustinbiondi/chatgenius/service/ChannelServiceImpl.java:46-58 | creation keeps the store's invariant, including unique membership pairs |
| ChannelServiceImpl.UpdateChannelSpec | backend/src/main/java/com/gauntletai/agustinbiondi/chatgenius/service/ChannelServiceImpl.java:68-82 | only the creator may update; the update replaces name and description only and publishes nothing; a failure changes nothing |
| ChannelServiceImpl.UpdateChannel | backend/src/main/java/com/gauntletai/agustinbiondi/chatgenius/service/ChannelServiceImpl.java:68-82 | the method's answer and new store are those of the update function |
| ChannelServiceImpl.UpdateOnlyRenames | backend/src/main/java/com/gauntletai/agustinbiondi/chatgenius/service/ChannelServiceImpl.java:78-81 | an update keeps the channel's id, type, creator, creation time, members and every other channel, and the invariant |
| ChannelServiceImpl.DeleteChannelSpec | backend/src/main/java/com/gauntletai/agustinbiondi/chatgenius/service/ChannelServiceImpl.java:84-97 | only the creator may delete; the delete cascades to memberships, messages and their reactions and broadcasts the DTO taken before it as DELETED; a failure changes nothing |
| ChannelServiceImpl.DeleteChannel | backend/src/main/java/com/gauntletai/agustinbiondi/chatgenius/service/ChannelServiceImpl.java:84-97 | the method's answer and new store are those of the delete function |
| ChannelServiceImpl.DeleteLeavesNothing | backend/src/main/java/com/gauntletai/agustinbiondi/chatgenius/service/ChannelServiceImpl.java:94-96 | after a delete no row, membership, message or reaction of the channel is left, the broadcast still lists its old members, and the invariant holds |
| ChannelServiceImpl.FindById | backend/src/main/java/com/gauntletai/agustinbiondi/chatgenius/service/ChannelServiceImpl.java:99-103 | a channel is found exactly when stored, and its DTO lists exactly its members |
| ChannelServiceImpl.FindAllPublicChannels | backend/src/main/java/com/gauntletai/agustinbiondi/chatgenius/service/ChannelServiceImpl.java:105-112 | the result holds the DTO of every public channel and nothing that is not public |
| ChannelServiceImpl.FindUserChannels | backend/src/main/java/com/gauntletai/agustinbiondi/chatgenius/service/ChannelServiceImpl.java:114-121 | the result holds the DTO of every channel the user belongs to, and each lists the user |
| ChannelServiceImpl.AddMemberSpec | backend/src/main/java/com/gauntletai/agustinbiondi/chatgenius/service/ChannelServiceImpl.java:123-138 | joining fails for a missing channel, a missing user, or a private channel the user did not create, changing nothing; otherwise the pair is stored |
| ChannelServiceImpl.AddMember | backend/src/main/java/com/gauntletai/agustinbiondi/chatgenius/service/ChannelServiceImpl.java:123-138 | the method's answer and new store are those of the join function |
| ChannelServiceImpl.JoinIsIdempotent | backend/src/main/java/com/gauntletai/agustinbiondi/chatgenius/service/ChannelServiceImpl.java:137 | after a join the user is a member, joining again gives the same result, and the invariant holds |
| ChannelServiceImpl.RemoveMemberSpec | backend/src/main/java/com/gauntletai/agustinbiondi/chatgenius/service/ChannelServiceImpl.java:140-151 | only the creator passes, and the pair deleted is (channel, requester); a failure changes nothing |
| ChannelServiceImpl.RemoveMember | backend/src/main/java/com/gauntletai/agustinbiondi/chatgenius/service/ChannelServiceImpl.java:140-151 | the method's answer and new store are those of the removal function |
| ChannelServiceImpl.RemoveLeavesOthers | backend/src/main/java/com/gauntletai/agustinbiondi/chatgenius/service/ChannelServiceImpl.java:150 | after a removal the requester is no member, every other membership is unchanged, and the invariant holds |
| ChannelServiceImpl.GetChannelMembers | backend/src/main/java/com/gauntletai/agustinbiondi/chatgenius/service/ChannelServiceImpl.java:153-160 | the result is exactly the ids of the channel's members |
| ChannelServiceImpl.IsUserMemberAgrees | backend/src/main/java/com/gauntletai/agustinbiondi/chatgenius/service/ChannelServiceImpl.java:162-166 | `isUserMember` agrees with `getChannelMembers` and with the member list of the channel's DTO |
| ChannelServiceImpl.DmChannelName | backend/src/main/java/com/gauntletai/agustinbiondi/chatgenius/service/ChannelServiceImpl.java:216-218 | the name is `DM:`, the first username, `:`, the second username |
| ChannelServiceImpl.DmChannelNameSplits | backend/src/main/java/com/gauntletai/agustinbiondi/chatgenius/service/ChannelServiceImpl.java:216-218 | while the first username holds no `:`, the name gives back both usernames |
| ChannelServiceImpl.CreateDirectMessageChannelSpec | backend/src/main/java/com/gauntletai/agustinbiondi/chatgenius/service/ChannelServiceImpl.java:168-195 | as written: an existing DM channel is returned with its stored members and nothing changes; otherwise both users must exist (first user checked first), and then a DM channel created by the first user is stored with both as members and returned as a DTO listing no member; a failure changes nothing |
| ChannelServiceImpl.CreateDirectMessageChannel | backend/src/main/java/com/gauntletai/agustinbiondi/chatgenius/service/ChannelServiceImpl.java:168-195 | the method's answer and new store are those of the DM function |
| ChannelServiceImpl.NewDirectMessageListsNoMembers | backend/src/main/java/com/gauntletai/agustinbiondi/chatgenius/service/ChannelServiceImpl.java:190-194 | as written: a new DM channel's DTO lists no member although both users are stored as members |
| ChannelServiceImpl.CreateDirectMessageChannelListingMembers | backend/src/main/java/com/gauntletai/agustinbiondi/chatgenius/service/ChannelServiceImpl.java:168-195 | corrected: the same rows and outcome, with a new channel's DTO read from the store |
| ChannelServiceImpl.DirectMessageMembers | backend/src/main/java/com/gauntletai/agustinbiondi/chatgenius/service/ChannelServiceImpl.java:190-194 | corrected: a new DM channel's DTO lists exactly the two users |
| UserService.InitSpec | backend/src/main/java/com/gauntletai/agustinbiondi/chatgenius/service/UserService.java:33-51 | after start-up the test id is stored; when it was absent it is an administrator, when present nothing changes; no other user is touched |
| UserService.Init | backend/src/main/java/com/gauntletai/agustinbiondi/chatgenius/service/UserService.java:33-51 | the method's new store is that of the start-up function |
| UserService.InitIdempotent | backend/src/main/java/com/gauntletai/agustinbiondi/chatgenius/service/UserService.java:36 | running start-up again, at any time, changes nothing |
| UserService.CreateUserSpec | backend/src/main/java/com/gauntletai/agustinbiondi/chatgenius/service/UserService.java:53-69 | a taken username, then a taken email, is refused with the store unchanged; otherwise a regular user is saved under the requested id and returned |
| UserService.CreateUser | backend/src/main/java/com/gauntletai/agustinbiondi/chatgenius/service/UserService.java:53-69 | the method's answer and new store are those of the registration function |
| UserService.CreateKeepsNamesUnique | backend/src/main/java/com/gauntletai/agustinbiondi/chatgenius/service/UserService.java:54-60 | the two checks keep usernames and emails unique across users, even when the save replaces a user with the same id |
| UserService.GetUser | backend/src/main/java/com/gauntletai/agustinbiondi/chatgenius/service/UserService.java:71-76 | a lookup fails exactly for a missing id, with `User not found`, and otherwise returns that user's DTO |
| UserService.GetAllUsers | backend/src/main/java/com/gauntletai/agustinbiondi/chatgenius/service/UserService.java:78-82 | one DTO per user of the page, in page order, each the user's `toDto` (all five fields copied) |
| UserService.RequireAdmin | backend/src/main/java/com/gauntletai/agustinbiondi/chatgenius/service/UserService.java:85-91 | the management calls proceed exactly when the requester is a stored administrator; a missing requester and a non-administrator get their own errors |
| UserService.DeleteUserSpec | backend/src/main/java/com/gauntletai/agustinbiondi/chatgenius/service/UserService.java:84-94 | an administrator's delete removes exactly that id (a missing id is no error); any refusal changes nothing |
| UserService.DeleteUser | backend/src/main/java/com/gauntletai/agustinbiondi/chatgenius/service/UserService.java:84-94 | the method's answer and new store are those of the delete function |
| UserService.PromoteSpec | backend/src/main/java/com/gauntletai/agustinbiondi/chatgenius/service/UserService.java:96-110 | an administrator promotes a stored user to administrator; a missing target is `User not found`; a refusal changes nothing |
| UserService.Promote | backend/src/main/java/com/gauntletai/agustinbiondi/chatgenius/service/UserService.java:96-110 | the method's answer and new store are those of the promote function |
| UserService.DemoteSpec | backend/src/main/java/com/gauntletai/agustinbiondi/chatgenius/service/UserService.java:112-132 | as promotion, but demoting the only administrator is refused with `Cannot demote last admin` |
| UserService.Demote | backend/src/main/java/com/gauntletai/agustinbiondi/chatgenius/service/UserService.java:112-132 | the method's answer and new store are those of the demote function |
| UserService.DemoteKeepsAnAdmin | backend/src/main/java/com/gauntletai/agustinbiondi/chatgenius/service/UserService.java:124-128 | a successful demotion always leaves at least one administrator |
| UserService.DeleteMayRemoveLastAdmin | backend/src/main/java/com/gauntletai/agustinbiondi/chatgenius/service/UserService.java:84-94 | deletion has no such rule: the only administrator may delete themself and leave none |
| UserService.RoleChangesTouchOnlyTheRole | backend/src/main/java/com/gauntletai/agustinbiondi/chatgenius/service/UserService.java:108-131 | promotion and demotion keep the set of users and change only the target's role |
| UserServiceImpl.CreateUserSpec | backend/src/main/java/com/gauntletai/agustinbiondi/chatgenius/service/UserServiceImpl.java:23-45 | an existing id, then an email in use, then a taken username is refused, in that order, with the store unchanged; otherwise a regular user is added and returned |
| UserServiceImpl.CreateUser | backend/src/main/java/com/gauntletai/agustinbiondi/chatgenius/service/UserServiceImpl.java:23-45 | the method's answer and new store are those of the registration function |
| UserServiceImpl.CreateAddsOneUser | backend/src/main/java/com/gauntletai/agustinbiondi/chatgenius/service/UserServiceImpl.java:36-44 | a successful registration adds exactly one user, keeps every other user and the store's invariant |
| UserServiceImpl.CreateKeepsNamesUnique | backend/src/main/java/com/gauntletai/agustinbiondi/chatgenius/service/UserServiceImpl.java:29-34 | the checks keep usernames and emails unique across users |
| UserServiceImpl.InsertKeepsNamesUnique | backend/src/main/java/com/gauntletai/agustinbiondi/chatgenius/service/UserServiceImpl.java:29-44 | inserting a user whose email and username are free keeps them unique |
| UserServiceImpl.DeleteUserSpec | backend/src/main/java/com/gauntletai/agustinbiondi/chatgenius/service/UserServiceImpl.java:47-55 | a missing id is refused, changing nothing; otherwise exactly that id goes and every other user stays |
| UserServiceImpl.DeleteUser | backend/src/main/java/com/gauntletai/agustinbiondi/chatgenius/service/UserServiceImpl.java:47-55 | the method's answer and new store are those of the delete function |
| UserServiceImpl.CreateThenDeleteRestores | backend/src/main/java/com/gauntletai/agustinbiondi/chatgenius/service/UserServiceImpl.java:25-55 | registering and then deleting a user gives the store back |
| UserServiceImpl.UserExists | backend/src/main/java/com/gauntletai/agustinbiondi/chatgenius/service/UserServiceImpl.java:57-61 | an id exists exactly when deleting it would succeed |
| UserServiceImpl.FindById | backend/src/main/java/com/gauntletai/agustinbiondi/chatgenius/service/UserServiceImpl.java:75-79 | the lookup finds exactly the existing ids, with the same DTO the other user service returns |
| FileService.ExtensionAsWritten | backend/src/main/java/com/gauntletai/agustinbiondi/chatgenius/service/FileService.java:53-54 | as written: the extension is taken from the last '.', so it starts with '.' and ends the name, and a name without '.' makes `substring(-1)` throw |
| FileService.NameWithoutDotRejected | backend/src/main/java/com/gauntletai/agustinbiondi/chatgenius/service/FileService.java:54 | the name `README` cannot be uploaded as written |
| FileService.Extension | backend/src/main/java/com/gauntletai/agustinbiondi/chatgenius/service/FileService.java:53-55 | corrected: the extension ends the name, is empty exactly when there is no '.', otherwise starts at the last '.', and agrees with the as-written one whenever that one succeeds |
| FileService.FileUrl | backend/src/main/java/com/gauntletai/agustinbiondi/chatgenius/service/FileService.java:64 | the URL is `/uploads/` followed by the stored name |
| FileService.NameFromUrl | backend/src/main/java/com/gauntletai/agustinbiondi/chatgenius/service/FileService.java:100 | the name taken back from a URL ends it and holds no '/' |
| FileService.UrlRoundTrip | backend/src/main/java/com/gauntletai/agustinbiondi/chatgenius/service/FileService.java:64-100 | the name taken back from an upload's URL is the stored name, whenever that holds no '/' |
| FileService.UploadFileSpec | backend/src/main/java/com/gauntletai/agustinbiondi/chatgenius/service/FileService.java:37-69 | corrected: an upload requires, in order, the channel, the user and membership, changing nothing on failure; on success one row is added that keeps the original name and points at the stored one, and the stored name is returned |
| FileService.UploadFile | backend/src/main/java/com/gauntletai/agustinbiondi/chatgenius/service/FileService.java:37-69 | the method's answer and new store are those of the upload function |
| FileService.GetChannelFiles | backend/src/main/java/com/gauntletai/agustinbiondi/chatgenius/service/FileService.java:71-83 | a listing fails for a missing channel or a non-member, and otherwise maps every file of the page through `toDto` |
| FileService.DeleteFileSpec | backend/src/main/java/com/gauntletai/agustinbiondi/chatgenius/service/FileService.java:85-106 | deletion is allowed exactly to the uploader, the channel's creator or an administrator; it removes exactly the row and names the stored file removed from disk; a failure changes nothing |
| FileService.DeleteFile | backend/src/main/java/com/gauntletai/agustinbiondi/chatgenius/service/FileService.java:85-106 | the method's answer and new store are those of the delete function |
| FileService.UploadThenDelete | backend/src/main/java/com/gauntletai/agustinbiondi/chatgenius/service/FileService.java:55-105 | the uploader may delete their upload, the deletion removes from disk the very name the upload wrote, and the other files stay |
| FileService.ToDto | backend/src/main/java/com/gauntletai/agustinbiondi/chatgenius/service/FileService.java:108-118 | the DTO copies the file's fields and its uploader's username |
| ChannelEventBuilder.CreateCheck | backend/src/main/java/com/gauntletai/agustinbiondi/chatgenius/util/ChannelEventBuilder.java:18-23 | the creation arguments pass exactly when the channel, its id, a non-blank user id, its members and its creation time are all present |
| ChannelEventBuilder.CreateChannelEvent | backend/src/main/java/com/gauntletai/agustinbiondi/chatgenius/util/ChannelEventBuilder.java:17-40 | the first failed check, in source order (null channel, null id, empty user id, null members, null creation time), is an illegal-argument error with its message; otherwise a CHANNEL_CREATE event for the channel's id and the user, whose payload is exactly the channel and a timestamp |
| ChannelEventBuilder.DeleteChannelEvent | backend/src/main/java/com/gauntletai/agustinbiondi/chatgenius/util/ChannelEventBuilder.java:42-60 | a null channel id, then a blank user id, is an illegal-argument error; otherwise a CHANNEL_DELETE event whose payload is exactly a timestamp |
| ChannelEventBuilder.DeleteMatchesCreate | backend/src/main/java/com/gauntletai/agustinbiondi/chatgenius/util/ChannelEventBuilder.java:17-60 | whenever a channel's creation event can be built, its deletion event can too, for the same id and user, with the creation payload minus the channel |
| Security.HeaderValues | backend/src/main/java/com/gauntletai/agustinbiondi/chatgenius/filter/DevUserFilter.java:61-67 | the values under a name are exactly those sent under it, never more than the header lines |
| Security.Header | backend/src/main/java/com/gauntletai/agustinbiondi/chatgenius/security/AwsCognitoJwtAuthenticationFilter.java:87 | a header reads as null exactly when no line carries that name, and otherwise as the first value sent under it |
| Security.BearerToken | backend/src/main/java/com/gauntletai/agustinbiondi/chatgenius/security/AwsCognitoJwtAuthenticationFilter.java:86-92 | a token is extracted exactly from a header starting with `Bearer `, and the header is that prefix followed by the token |
| Security.BearerRoundTrip | backend/src/main/java/com/gauntletai/agustinbiondi/chatgenius/security/AwsCognitoJwtAuthenticationFilter.java:88-89 | prefixing a token with `Bearer ` and extracting it gives the token back |
| Security.FilterRun.constructor | backend/src/main/java/com/gauntletai/agustinbiondi/chatgenius/security/AwsCognitoJwtAuthenticationFilter.java:40-44 | a filter run starts with the prior authentication and no chain call |
| Security.FilterRun.SetAuthentication | backend/src/main/java/com/gauntletai/agustinbiondi/chatgenius/security/AwsCognitoJwtAuthenticationFilter.java:77 | setting the authentication replaces it and does not call the chain |
| Security.FilterRun.ClearContext | backend/src/main/java/com/gauntletai/agustinbiondi/chatgenius/security/ClerkAuthFilter.java:57 | clearing the context removes the authentication and does not call the chain |
| Security.FilterRun.Proceed | backend/src/main/java/com/gauntletai/agustinbiondi/chatgenius/security/AwsCognitoJwtAuthenticationFilter.java:83 | handing the request on counts one chain call and keeps the authentication |
| JwkProvider.JwksUrl | backend/src/main/java/com/gauntletai/agustinbiondi/chatgenius/security/JwkProvider.java:22 | the JWKS URL is the Cognito host for the region and pool, ending in `/.well-known/jwks.json` |
| JwkProvider.JwksUrlUnderIssuer | backend/src/main/java/com/gauntletai/agustinbiondi/chatgenius/security/AwsCognitoJwtAuthenticationFilter.java:55 | the JWKS document sits directly under the issuer the filter verifies against |
| JwkProvider.LookupSpec | backend/src/main/java/com/gauntletai/agustinbiondi/chatgenius/security/JwkProvider.java:26-35 | a cached key is returned as it is; otherwise the fetched key is returned and cached, and a failed fetch is `Failed to get public key` with the cache unchanged; no cached key is ever changed or dropped |
| JwkProvider.JwkProvider.constructor | backend/src/main/java/com/gauntletai/agustinbiondi/chatgenius/security/JwkProvider.java:18-24 | a new provider has an empty cache and the pool's JWKS URL |
| JwkProvider.JwkProvider.GetPublicKey | backend/src/main/java/com/gauntletai/agustinbiondi/chatgenius/security/JwkProvider.java:26-35 | the method's answer and new cache are those of the lookup function |
| JwkProvider.SecondLookupIsCached | backend/src/main/java/com/gauntletai/agustinbiondi/chatgenius/security/JwkProvider.java:27 | after a successful lookup, asking again gives the same key and cache whatever a fetch would answer |
| JwkProvider.DistinctKidsIndependent | backend/src/main/java/com/gauntletai/agustinbiondi/chatgenius/security/JwkProvider.java:27 | looking up one key id does not change what another cached key id answers |
| AwsCognitoJwtAuthenticationFilter.SingletonHasOne | backend/src/main/java/com/gauntletai/agustinbiondi/chatgenius/security/AwsCognitoJwtAuthenticationFilter.java:61 | a one-element set of ids has one id, so `findByEmail` answers one user |
| AwsCognitoJwtAuthenticationFilter.SignInSpec | backend/src/main/java/com/gauntletai/agustinbiondi/chatgenius/security/AwsCognitoJwtAuthenticationFilter.java:59-77 | as written: after verification the authentication changes only when exactly one stored user has the verified email, and then to that user; an unknown email leaves it as it was, because the id-less save throws into the catch |
| AwsCognitoJwtAuthenticationFilter.FilterSpec | backend/src/main/java/com/gauntletai/agustinbiondi/chatgenius/security/AwsCognitoJwtAuthenticationFilter.java:40-84 | a request without a bearer token changes nothing, and no run loses a cached key |
| AwsCognitoJwtAuthenticationFilter.DoFilterInternal | backend/src/main/java/com/gauntletai/agustinbiondi/chatgenius/security/AwsCognitoJwtAuthenticationFilter.java:40-84 | the filter hands the request on exactly once, never changes the store, and its authentication and key cache are those of the filter function |
| AwsCognitoJwtAuthenticationFilter.SignIn | backend/src/main/java/com/gauntletai/agustinbiondi/chatgenius/security/AwsCognitoJwtAuthenticationFilter.java:59-80 | the sign-in step sets the authentication exactly as `SignInSpec` describes, without calling the chain or touching the store |
| AwsCognitoJwtAuthenticationFilter.OnlyVerifiedUsersSignIn | backend/src/main/java/com/gauntletai/agustinbiondi/chatgenius/security/AwsCognitoJwtAuthenticationFilter.java:47-80 | the authentication changes only when the token's key was found and the token verified, and then to a stored user with the verified email carrying the one authority `ROLE_` + role |
| AwsCognitoJwtAuthenticationFilter.KnownEmailReusesUser | backend/src/main/java/com/gauntletai/agustinbiondi/chatgenius/security/AwsCognitoJwtAuthenticationFilter.java:71-73 | a verified email of exactly one stored user signs in as that user, as written and as corrected, and the corrected one stores nothing |
| AwsCognitoJwtAuthenticationFilter.UnknownEmailCreatesUser | backend/src/main/java/com/gauntletai/agustinbiondi/chatgenius/security/AwsCognitoJwtAuthenticationFilter.java:64-70 | corrected: an unknown verified email creates a regular user under the token's subject with that email and the token's username, adds only it, and signs in as it |
| AwsCognitoJwtAuthenticationFilter.UnknownEmailNeverSignsIn | backend/src/main/java/com/gauntletai/agustinbiondi/chatgenius/security/AwsCognitoJwtAuthenticationFilter.java:64-80 | as written: a verified email no stored user has leaves the authentication as it was, and no user is created |
| AwsCognitoJwtAuthenticationFilter.SignInAssigningId | backend/src/main/java/com/gauntletai/agustinbiondi/chatgenius/security/AwsCognitoJwtAuthenticationFilter.java:61-77 | corrected: the store is unchanged or gains exactly the new user under the token's subject, and the authentication is the prior one or that of a stored user with the verified email |
| AwsCognitoJwtAuthenticationFilter.KnownEmailUnaffected | backend/src/main/java/com/gauntletai/agustinbiondi/chatgenius/security/AwsCognitoJwtAuthenticationFilter.java:71-73 | where some stored user has the email, the corrected sign-in agrees with the one as written and stores nothing |
| ClerkAuthFilter.SkipsMoreThanCognito | backend/src/main/java/com/gauntletai/agustinbiondi/chatgenius/security/ClerkAuthFilter.java:84-88 | every path the Cognito filter skips is skipped here too; the webhook endpoint is the one extra, and nothing below it is skipped |
| ClerkAuthFilter.DoFilterInternal | backend/src/main/java/com/gauntletai/agustinbiondi/chatgenius/security/ClerkAuthFilter.java:36-61 | the filter hands the request on exactly once, and its authentication is that of `ClerkAuthFilter.AuthenticationSpec` |
| ClerkAuthFilter.OnlyTheTokenSubjectSignsIn | backend/src/main/java/com/gauntletai/agustinbiondi/chatgenius/security/ClerkAuthFilter.java:39-58 | no bearer token or a rejected one leaves the context alone; a new authentication is always the stored user the verified subject names, with `ROLE_` + role; clearing happens only on a repository failure |
| ClerkAuthFilter.StoredSubjectSignsIn | backend/src/main/java/com/gauntletai/agustinbiondi/chatgenius/security/ClerkAuthFilter.java:43-52 | with a working repository a verified subject that is a stored user is signed in, and one that is not leaves the context alone |
| ClerkChannelInterceptor.Accessor.constructor | backend/src/main/java/com/gauntletai/agustinbiondi/chatgenius/security/ClerkChannelInterceptor.java:33-34 | an accessor holds the frame's command, `Authorization` header and bound user |
| ClerkChannelInterceptor.Accessor.SetUser | backend/src/main/java/com/gauntletai/agustinbiondi/chatgenius/security/ClerkChannelInterceptor.java:50 | binding a user replaces the session's user |
| ClerkChannelInterceptor.PreSend | backend/src/main/java/com/gauntletai/agustinbiondi/chatgenius/security/ClerkChannelInterceptor.java:27-65 | a frame with no accessor is forwarded; otherwise the frame is forwarded exactly when the decision `ClerkChannelInterceptor.PreSendSpec` says so, the bound user is the decision's, and a rejected frame keeps its user |
| ClerkChannelInterceptor.GateDecides | backend/src/main/java/com/gauntletai/agustinbiondi/chatgenius/security/ClerkChannelInterceptor.java:30-61 | frames other than CONNECT and SUBSCRIBE pass untouched; those pass exactly with a bearer token the validator accepts and a working repository, and a user bound is the validated stored id with `ROLE_` + role |
| ClerkChannelInterceptor.ValidatorSeesTheToken | backend/src/main/java/com/gauntletai/agustinbiondi/chatgenius/security/ClerkChannelInterceptor.java:33-40 | a frame carrying `Bearer ` + token passes exactly when the validator accepts that token |
| UserIdHeaderAuthenticationFilter.DoFilterInternal | backend/src/main/java/com/gauntletai/agustinbiondi/chatgenius/config/UserIdHeaderAuthenticationFilter.java:24-47 | the filter hands the request on exactly once, and its authentication is that of `UserIdHeaderAuthenticationFilter.AuthenticationSpec` |
| UserIdHeaderAuthenticationFilter.HeaderNamesTheUser | backend/src/main/java/com/gauntletai/agustinbiondi/chatgenius/config/UserIdHeaderAuthenticationFilter.java:29-43 | the context changes exactly when the header parses as a UUID naming a stored user, to that user with `ROLE_` + role, and is never cleared |
| DevUserFilter.Names | backend/src/main/java/com/gauntletai/agustinbiondi/chatgenius/filter/DevUserFilter.java:52-56 | the original names are listed once each, and exactly the names the request carries |
| DevUserFilter.GetHeaderNames | backend/src/main/java/com/gauntletai/agustinbiondi/chatgenius/filter/DevUserFilter.java:48-59 | the wrapper's names are exactly the original header names plus the custom ones |
| DevUserFilter.HandedOnRequestNamesAUser | backend/src/main/java/com/gauntletai/agustinbiondi/chatgenius/filter/DevUserFilter.java:20-46 | `DevUserFilter.DoFilter` hands on a request without `X-User-ID` as the test user and one with it unchanged; either way `DevUserFilter.GetHeader` finds a user id, and every other header reads as in the original |
| DevUserFilter.HeaderViewsAgree | backend/src/main/java/com/gauntletai/agustinbiondi/chatgenius/filter/DevUserFilter.java:42-67 | every name the wrapper lists answers `getHeader` (`DevUserFilter.GetHeader`), which is null exactly when `getHeaders` (`DevUserFilter.GetHeaders`) is empty and otherwise its first value |
| ClerkWebhookController.SignedContentDeterminesFields | backend/src/main/java/com/gauntletai/agustinbiondi/chatgenius/controller/ClerkWebhookController.java:83 | when ids and timestamps hold no '.', the signed text determines the id, the timestamp and the payload |
| ClerkWebhookController.UserFields | backend/src/main/java/com/gauntletai/agustinbiondi/chatgenius/controller/ClerkWebhookController.java:61-75 | a create or update event yields its id, first email and username (the email when the username is missing) exactly when a data node with an id and an email is there |
| ClerkWebhookController.ActionOf | backend/src/main/java/com/gauntletai/agustinbiondi/chatgenius/controller/ClerkWebhookController.java:39-52 | each of the three event types yields its action exactly when its fields are present; any other type is acknowledged with no action |
| ClerkWebhookController.HandleWebhookSpec | backend/src/main/java/com/gauntletai/agustinbiondi/chatgenius/controller/ClerkWebhookController.java:28-59 | the answer is 401 exactly for a bad signature, with the store unchanged; otherwise 200 `Webhook processed` or 500 with the error, and a 500 changes nothing |
| ClerkWebhookController.HandleWebhook | backend/src/main/java/com/gauntletai/agustinbiondi/chatgenius/controller/ClerkWebhookController.java:28-59 | the method's answer and new store are those of the webhook function |
| ClerkWebhookController.UnknownTypeAcknowledged | backend/src/main/java/com/gauntletai/agustinbiondi/chatgenius/controller/ClerkWebhookController.java:42-54 | a correctly signed event of an unknown type is acknowledged and changes nothing |
| ClerkWebhookController.CreatedUserNamedAfterEmail | backend/src/main/java/com/gauntletai/agustinbiondi/chatgenius/controller/ClerkWebhookController.java:61-67 | a correctly signed `user.created` event for a new user without a username registers a regular user named after the first email |

## Left out

- I/O: disk writes, HTTP, the JWKS fetch, console output and the STOMP broker are outside the model. Their results are parameters, or they are recorded in logs: published events, broker subscriptions and sent frames.
- Clocks, `UUID.randomUUID`, `@GeneratedValue` ids and `Instant.toString`/`LocalDateTime.now` are parameters.
- Event timestamps: the `timestamp` value of the broker envelopes is not modelled.
- Cryptography is abstract: HMAC-SHA256, Base64, RS256 verification and JWT decoding are uninterpreted parameters.
- Concurrency: no two operations interleave. Transactions are atomic, and the JWK cache's concurrent map is a plain map.
- Exceptions of the persistence layer are not modelled, except where the source catches them. Examples are the `repositoryFails` flags of the Clerk filter and the STOMP gate. The Cognito filter's save of a user without an id always throws (see Findings). Disk failures of uploads and deletions are not modelled, and neither is the catch-all of `init`.
- String lengths: Dafny counts Unicode scalar values, while JavaScript's `length` and Java's `length()` count UTF-16 code units, so the length limits agree only on text without surrogate pairs.
- Header names are compared case-sensitively. Servlet containers compare them case-insensitively.
- `getHeaderNames` returning null is not modelled: the original request is taken to enumerate its names.
- `safeStringify` is the logger's parameter `stringify`: the circular-reference replacer is not modelled.
- `StrictEquals` in `RenderLogging` treats every array and object value as a new reference on each render, as React props usually are. The model does not track object identity.
- `subscribeToChannelEvents` and `unsubscribeFromChannelEvents` are called by `useChannelEvents` but are not defined in `WebSocketManager.ts`. Each call is given by its outcome; the `TypeError` that calling an undefined method throws is the outcome `Threw`, whose exact message depends on the JavaScript engine.
- `handleStatusSubmit` of the settings panel only logs and carries a TODO, so it is not modelled.
- Not modelled, because they are layout behaviour: the drag and overlay handlers, the positioning of the emoji picker, `formatTimestamp` and `scrollToBottom`.
- Some repository queries that the services call are not declared by the repository interfaces. Where Spring Data's method-name rules fix the query's meaning, the model evaluates it on the store. This covers `existsByChannelIdAndUserUserId` (behind `isUserMember`), `existsByChannelAndUserUserId`, `findByChannelId`, `deleteByChannelIdAndUserUserId`, `findByMembershipsUserUserId` and `findByType`. Where the rules do not fix it, the query is given by its answer. For example, `findDirectMessageChannelBetweenUsers` is the parameter `existing`.
- `findPublicAndUserDirectMessageChannels` is not modelled.
- The `findByUsername`, `findByEmail` and `findAll` lookups of `UserServiceImpl` are not modelled; `findById` and `userExists` are.
- `UserService` is both a class and an interface in the repository. The class is modelled, and `UserRole` and `User.Role` become one `Role`.
- The webhook's `updateUser` is not defined by the service layer. Its outcome is the parameter `updateOutcome`, and the store is unchanged by it.
- The default role `ADMIN` of a new `User` entity is not modelled: every service that saves a user sets its role.
- The `reactions` list of a message entity is the reactions table filtered by message id, so it has no order.
- Constraints: the JPA cascades are modelled (`Domain.ReactionsNotOn` for a message's reactions, `Domain.ChannelDeleted` for a channel's memberships and messages). The partial unique index `uk_channels_name_non_dm` and the foreign-key violations are not: deleting a message that has replies (`Message.parent` has no cascade) and deleting a channel that has files (`ChannelDeleted` keeps the files) succeed in the model, where the database would refuse them. Channel names are not checked for uniqueness.
- `Channel not found after creation` cannot happen in the model, so it is not a branch.
- `ChannelServiceImpl.UpdateChannelSpec` publishes no event, as in the source. Creating a DM channel publishes nothing either.
- `MessageService.CreateMessageSpec` does not check membership, as in the source.
- `MessageService.UpdateMessageSpec` sets neither `isEdited` nor `editedAt`, as in the source.
- `ChannelServiceImpl.RemoveMemberSpec` removes the requesting creator's own membership, not the named user's, as in the source.
- `ChannelServiceImpl.AddMemberSpec` lets anyone join a DM channel, as in the source.
- `MessageServiceImpl.LatestParentMessages` keeps the error text `User not founddd` as written.
- `UserService.CreateUserSpec` replaces an existing row with the same id. The id is chosen by the caller.
- The admin-only `UserService.DeleteUserSpec` has no last-administrator rule, as in the source. Demotion has that rule.
- `DevUserFilter.TestUserId` is `11111111-…`, while the start-up administrator of `UserService` is `test_11111111-…`. Both are kept as written.
- `UserIdHeaderAuthenticationFilter.AuthenticationSpec`: the source calls `findById` with a `UUID` on a `JpaRepository<User, String>`, which does not type-check; the model reads it as a lookup by the UUID's canonical text. An exception from that repository is not modelled.
- `AwsCognitoJwtAuthenticationFilter.DoFilterInternal` does not model a token without an `email` claim.
- `ClerkWebhookController.HandleWebhookSpec` takes the message of the `NullPointerException` and the `payload.toString()` text as parameters. An event's email addresses are taken as plain strings.
- `RenderLogging.LogSafePropValue`: a value is a finite tree, so a prop that refers to itself cannot be expressed. The source has no guard against cycles, and on such a prop it recurses until the stack overflows.
- `WebSocketManager.Delivered`: every registered handler is taken to return. A handler that throws ends the `forEach`, so the handlers after it miss the frame; that is not modelled.
- `FileService.GetChannelFiles`: the page is the answer of `findByChannelOrderByUploadedAtDesc`, given as a parameter. The contract does not tie it to the channel's stored files.
- `UserService.GetAllUsers`: the page is the answer of `findAll`, given as a parameter. The contract does not tie it to the stored users.
- `ReactionServiceImpl.GetReactionsForMessages`: the fetched reactions are the repository's answer, given as a parameter. The contract does not tie them to the stored reactions of those messages.
- `WebSocketService.Service.SubscribeToChannel`: the exception that `client.subscribe` throws without a session is the result `thrown`. Where it propagates is not modelled.
- `MessageService.CreateMessageSpec`: the source calls `setParentMessage`/`getParentMessage` and the repository declares `findByParentMessageOrderByCreatedAtAsc`, but the entity's field is `parent`; the model reads all of them as that field. The text of the `NullPointerException` is the parameter `npeMessage`.
- `ReactionGroups.KeyIndex`: the lookup reports absence for every key not yet grouped. In the source, an emoji that names a property of `Object.prototype` (`constructor`, `toString`, `valueOf`, `hasOwnProperty`, `__proto__`, …) finds the inherited value instead, so `groups[key].push` (ChatPanel/MessageList.tsx:60-63) and `(acc[key] || []).concat(r)` (MessageListItem.tsx:63) throw a `TypeError` and the render fails.
- `ReactionGroups.Grouping`: gives a chip to an emoji that names an `Object.prototype` property, where the source throws (see `ReactionGroups.KeyIndex`).
- `ReactionGroups.ChipsAreGroups`: gives a chip to an emoji that names an `Object.prototype` property, where the source throws (see `ReactionGroups.KeyIndex`).
- `MessageList.GroupReactions`: gives a chip to an emoji that names an `Object.prototype` property, where the source throws (see `ReactionGroups.KeyIndex`).
- `MessageListItem.GroupedReactionsIsGrouping`: gives a chip to an emoji that names an `Object.prototype` property, where the source throws (see `ReactionGroups.KeyIndex`).
- `RenderLogging.PropValue`: a key the previous props do not hold reads as `undefined`. In the source, `prevProps.current[key]` on a plain object finds an inherited `Object.prototype` member for names such as `toString` or `constructor`, so the logged `previous` would be that function.

## Findings

| source | as written | input that shows it | evidently intended | confidence | as-written member | corrected member |
|---|---|---|---|---|---|---|
| frontend/src/services/websocket/WebSocketManager.ts:250-266 | `ensureConnected` replaces the client's `onConnect` with a callback that only resolves its promise, so the connect it awaits never resets the attempts, subscribes the topics or notifies the connect listeners | a first `ensureConnected()` on a fresh manager with a token: after the handshake the client is connected with no topic subscribed | the awaited connect runs the normal handshake body and then resolves | not executed | WebSocketManager.AwaitedHandshakeSkipsOnConnect, WebSocketManager.AsWrittenFirstConnectHasNoSubscriptions | WebSocketManager.Manager.HandshakeSucceeded, WebSocketManager.HandshakeSubscribes |
| backend/src/main/java/com/gauntletai/agustinbiondi/chatgenius/service/MessageServiceImpl.java:156 | every parent's `replyCount` is the size of the whole fetched reply list, so it counts the replies of all parents of the page | two parents on one page and one reply, to the first: the second parent reports one reply and shows none | each parent counts only its own replies | not executed | MessageServiceImpl.LatestParentMessagesWithDetailsAsWritten, MessageServiceImpl.AsWrittenReplyCountCounterexample | MessageServiceImpl.LatestParentMessagesWithDetails, MessageServiceImpl.ReplyCountMatchesShownReplies |
| backend/src/main/java/com/gauntletai/agustinbiondi/chatgenius/service/FileService.java:53-55 | the extension is `substring(lastIndexOf("."))`, which throws `StringIndexOutOfBoundsException` when the name has no `.` | an upload named `README` fails instead of being stored | a name without a dot is stored with no extension | not executed | FileService.ExtensionAsWritten, FileService.NameWithoutDotRejected | FileService.Extension, FileService.UploadFileSpec |
| backend/src/main/java/com/gauntletai/agustinbiondi/chatgenius/service/impl/ReactionServiceImpl.java:49-62 | the existing reaction is removed and the new one saved in one unit of work; the new row's generated id defers its INSERT to the flush, which runs inserts before deletes, so the unique key `uk_reactions_message_user_emoji` is violated and the call rolls back | a user re-adds an emoji they already reacted with on a message: the call fails and the old reaction stays | the old reaction is replaced by the new one | not executed | ReactionServiceImpl.AddReactionSpec, ReactionServiceImpl.ReAddingFails | ReactionServiceImpl.AddReactionReplacing, ReactionServiceImpl.AddKeepsValid |
| backend/src/main/java/com/gauntletai/agustinbiondi/chatgenius/security/AwsCognitoJwtAuthenticationFilter.java:64-70 | a first-time user is built with `new User()` and saved without a `userId`, and `User.userId` is an `@Id` with no generator (model/User.java:24-26), so the save throws and the catch at line 78 drops the sign-in | a verified token whose email no stored user has | the new user is stored under an id such as the token's `sub` and the request is signed in | not executed | AwsCognitoJwtAuthenticationFilter.SignInSpec, AwsCognitoJwtAuthenticationFilter.UnknownEmailNeverSignsIn | AwsCognitoJwtAuthenticationFilter.SignInAssigningId, AwsCognitoJwtAuthenticationFilter.UnknownEmailCreatesUser |
| backend/src/main/java/com/gauntletai/agustinbiondi/chatgenius/service/ChannelServiceImpl.java:60-61 | `toDTO` (lines 220-223) reads the entity's `memberships` collection, which starts empty (model/Channel.java:59-61) and which `addMemberInternal` never fills; the read-back here and the conversion at line 194 see the entity still held by the unit of work | creating any channel, or a DM channel between two users who have none | the created channel's DTO, returned and broadcast, lists its members | not executed | ChannelServiceImpl.CreateChannelSpec, ChannelServiceImpl.CreatedChannelListsNoMembers, ChannelServiceImpl.CreateDirectMessageChannelSpec, ChannelServiceImpl.NewDirectMessageListsNoMembers | ChannelServiceImpl.CreateChannelListingMembers, ChannelServiceImpl.CreatedChannelMembers, ChannelServiceImpl.CreateDirectMessageChannelListingMembers, ChannelServiceImpl.DirectMessageMembers |
| frontend/src/services/websocketService.ts:21-40 | `onConnect` subscribes only the queued channels; the channels in `messageHandlers` were subscribed in the previous session, which the client discards when the socket closes, and `client.subscribe` is not called for them again | connect, subscribe a channel, a STOMP error closes the socket, the client reconnects after `reconnectDelay` | every channel with a handler is subscribed again in the new session | not executed | WebSocketService.ReconnectDropsLiveChannel, WebSocketService.LiveChannelDeafAfterReconnect | WebSocketService.Service.OnConnectResubscribing |
| backend/src/main/java/com/gauntletai/agustinbiondi/chatgenius/service/MessageService.java:65-73 | the saved message is read back with `findById`, which returns the instance the unit of work holds, and `toDto` (line 229) calls `getReplies().size()`; `replies` has no initialiser (model/Message.java:55-57), so the call throws a `NullPointerException`, the transaction rolls back and neither event is sent | any creation whose user, channel and parent exist | the fresh message is stored, converted with a reply count of 0 and broadcast | not executed | MessageService.CreateMessageSpec, MessageService.CreationAlwaysRollsBack | MessageService.CreateMessageInitialisingReplies, MessageService.NewMessageBroadcast, MessageService.CreateKeepsValid |
