/** The `useWebSocketSubscription` hook: per-channel filters in front of the
    manager's global message and presence handlers, the conditions under
    which they are registered, and the guarded send.

    `isConnected` is the value the connection hook last read from the
    manager (it is polled, so it can lag behind the manager's own flag);
    here it is a parameter. The user callbacks are modelled by what they
    would be called with. */
module WebSocketSubscription {
  import opened Common
  import opened FrontendTypes
  import WebSocketManager

  /** `handleMessage`: the message handed to `onMessage`, if any. */
  function ForwardMessage(channelId: string, message: Message): (r: Option<Message>)
    ensures r.Some? <==> message.channelId == channelId
    ensures r.Some? ==> r.value == message
  {
    if message.channelId == channelId then Some(message) else None
  }

  /** `handlePresence`: the user id handed to `onTyping`, if any. */
  function ForwardPresence(channelId: string, hasOnTyping: bool, presenceChannelId: string, userId: string): (r: Option<string>)
    ensures r.Some? <==> presenceChannelId == channelId && hasOnTyping
    ensures r.Some? ==> r.value == userId
  {
    if presenceChannelId == channelId && hasOnTyping then Some(userId) else None
  }

  /** Only the messages of this channel reach `onMessage`, in their order:
      the delivered stream filtered by channel. */
  function ForwardAll(channelId: string, messages: seq<Message>): (r: seq<Message>)
    ensures |r| <= |messages|
    ensures forall m :: m in r <==> m in messages && m.channelId == channelId
    ensures r == Filter(messages, (m: Message) => m.channelId == channelId)
  {
    if messages == [] then []
    else
      var rest := ForwardAll(channelId, messages[1..]);
      if ForwardMessage(channelId, messages[0]).Some? then [messages[0]] + rest else rest
  }

  /** The effect's guard: `enabled && !!channelId && isConnected`. */
  predicate Registers(enabled: bool, channelId: string, isConnected: bool)
  {
    enabled && channelId != "" && isConnected
  }

  /** The manager's handler sets after the effect ran. */
  function AfterSetup(s: WebSocketManager.ManagerState, enabled: bool, channelId: string, isConnected: bool,
                      hasOnTyping: bool, messageHandler: WebSocketManager.Callback,
                      presenceHandler: WebSocketManager.Callback): (r: WebSocketManager.ManagerState)
    ensures !Registers(enabled, channelId, isConnected) ==> r == s
    ensures Registers(enabled, channelId, isConnected) ==>
      r.messageHandlers == s.messageHandlers + {messageHandler}
      && r.presenceHandlers == (if hasOnTyping then s.presenceHandlers + {presenceHandler} else s.presenceHandlers)
      && r == s.(messageHandlers := r.messageHandlers, presenceHandlers := r.presenceHandlers)
  {
    if !Registers(enabled, channelId, isConnected) then s
    else
      s.(messageHandlers := s.messageHandlers + {messageHandler},
         presenceHandlers := if hasOnTyping then s.presenceHandlers + {presenceHandler} else s.presenceHandlers)
  }

  /** The manager's handler sets after the cleanup the effect returned. */
  function AfterCleanup(s: WebSocketManager.ManagerState, hasOnTyping: bool, messageHandler: WebSocketManager.Callback,
                        presenceHandler: WebSocketManager.Callback): (r: WebSocketManager.ManagerState)
    ensures forall h :: h in r.messageHandlers <==> h in s.messageHandlers && h != messageHandler
    ensures hasOnTyping ==> forall h :: h in r.presenceHandlers <==> h in s.presenceHandlers && h != presenceHandler
    ensures !hasOnTyping ==> r.presenceHandlers == s.presenceHandlers
    ensures r == s.(messageHandlers := r.messageHandlers, presenceHandlers := r.presenceHandlers)
  {
    s.(messageHandlers := s.messageHandlers - {messageHandler},
       presenceHandlers := if hasOnTyping then s.presenceHandlers - {presenceHandler} else s.presenceHandlers)
  }

  /** Cleanup removes exactly what setup added: handlers that were not
      registered before leave the manager as it was. */
  lemma CleanupUndoesSetup(s: WebSocketManager.ManagerState, enabled: bool, channelId: string, isConnected: bool,
                           hasOnTyping: bool, messageHandler: WebSocketManager.Callback,
                           presenceHandler: WebSocketManager.Callback)
    requires Registers(enabled, channelId, isConnected)
    requires messageHandler !in s.messageHandlers && presenceHandler !in s.presenceHandlers
    ensures AfterCleanup(AfterSetup(s, enabled, channelId, isConnected, hasOnTyping, messageHandler, presenceHandler),
                         hasOnTyping, messageHandler, presenceHandler) == s
  {
    assert s.messageHandlers + {messageHandler} - {messageHandler} == s.messageHandlers;
    assert s.presenceHandlers + {presenceHandler} - {presenceHandler} == s.presenceHandlers;
  }

  /** Without `onTyping` the presence set is never touched, by setup or cleanup. */
  lemma NoTypingNoPresence(s: WebSocketManager.ManagerState, enabled: bool, channelId: string, isConnected: bool,
                           messageHandler: WebSocketManager.Callback, presenceHandler: WebSocketManager.Callback)
    ensures AfterSetup(s, enabled, channelId, isConnected, false, messageHandler, presenceHandler).presenceHandlers == s.presenceHandlers
    ensures AfterCleanup(s, false, messageHandler, presenceHandler).presenceHandlers == s.presenceHandlers
  {
  }

  /** The effect: registers the handlers and says whether it returned a cleanup. */
  method Setup(m: WebSocketManager.Manager, enabled: bool, channelId: string, isConnected: bool, hasOnTyping: bool,
               messageHandler: WebSocketManager.Callback, presenceHandler: WebSocketManager.Callback)
    returns (registered: bool)
    modifies m
    ensures registered == Registers(enabled, channelId, isConnected)
    ensures m.State() == AfterSetup(old(m.State()), enabled, channelId, isConnected, hasOnTyping, messageHandler, presenceHandler)
  {
    if !enabled || channelId == "" || !isConnected {
      return false;
    }
    m.AddMessageHandler(messageHandler);
    if hasOnTyping {
      m.AddPresenceHandler(presenceHandler);
    }
    return true;
  }

  method Cleanup(m: WebSocketManager.Manager, hasOnTyping: bool,
                 messageHandler: WebSocketManager.Callback, presenceHandler: WebSocketManager.Callback)
    modifies m
    ensures m.State() == AfterCleanup(old(m.State()), hasOnTyping, messageHandler, presenceHandler)
  {
    m.RemoveMessageHandler(messageHandler);
    if hasOnTyping {
      m.RemovePresenceHandler(presenceHandler);
    }
  }

  /** The returned `sendMessage`: nothing while the hook sees no connection,
      otherwise the manager's send for this channel. */
  method SendMessage(m: WebSocketManager.Manager, isConnected: bool, channelId: string, content: string)
    modifies m
    ensures !isConnected ==> m.State() == old(m.State())
    ensures isConnected ==> m.State() == WebSocketManager.AfterSend(old(m.State()), channelId, content)
  {
    if !isConnected {
      return;
    }
    m.SendMessage(channelId, content);
  }
}
