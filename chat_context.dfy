/** The chat provider of src/contexts/ChatContext.tsx: it owns at most one
    `WebSocketClient`, created while the user is authenticated, polls its
    connection state, fans incoming messages out to the handlers components
    register, and guards `sendMessage`. Handlers are named by number; the
    one-second polling interval is `Poll`, fired by the environment. */
module ChatContext {
  import opened Wrappers
  import opened Js
  import opened ChatTypes
  import WebSocketClient

  type ConnectionState = WebSocketClient.ConnectionState

  const NotInitializedError := "WebSocket client not initialized"
  const PlaceholderLocation := "Current Location"

  /** A call of a registered handler with a message. */
  datatype Call = Call(subscriber: nat, message: IncomingMessage)

  /** `location || userLocation || undefined`: the first non-empty one. */
  function EffectiveLocation(location: Option<string>, userLocation: Option<string>): (r: Option<string>)
    ensures Truthy(location) ==> r == location
    ensures !Truthy(location) && Truthy(userLocation) ==> r == userLocation
    ensures !Truthy(location) && !Truthy(userLocation) ==> r.None?
  {
    Or(Or(location, userLocation), None)
  }

  /** What a sent location can be: never an empty string. */
  lemma EffectiveLocationNeverEmpty(location: Option<string>, userLocation: Option<string>)
    ensures EffectiveLocation(location, userLocation).Some? ==> EffectiveLocation(location, userLocation).value != ""
    ensures EffectiveLocation(location, userLocation) in {None, location, userLocation}
  {
  }

  class ChatProvider {
    /** `wsClientRef.current`. */
    var client: WebSocketClient.Client?
    /** The interval that copies the client's state is running. */
    var polling: bool
    var connectionState: ConnectionState
    var userLocation: Option<string>
    var locationLoading: bool
    var lastError: Option<string>
    /** `messageHandlersRef.current`. */
    var handlers: set<nat>

    /** A current client is in a valid state, forwards to the provider's
        handlers, and is polled. */
    ghost predicate Valid()
      reads this, client
    {
      && (client != null ==> client.Valid() && WebSocketClient.Broadcast in client.messageHandlers)
      && (polling <==> client != null)
    }

    constructor ()
      ensures Valid()
      ensures client == null && !polling
      ensures connectionState == WebSocketClient.Disconnected
      ensures userLocation == None && !locationLoading && lastError == None && handlers == {}
    {
      client := null;
      polling := false;
      connectionState := WebSocketClient.Disconnected;
      userLocation := None;
      locationLoading := false;
      lastError := None;
      handlers := {};
    }

    /** `isConnecting`. */
    function IsConnecting(): (b: bool)
      reads this
      ensures b <==> connectionState == WebSocketClient.Connecting
    {
      connectionState.Connecting?
    }

    /** `clientId`: the current client's id, or `null` without one. A
        client's id is never empty, so `|| null` never hides it. */
    function ClientId(): (id: Option<string>)
      reads this, client
      ensures client == null ==> id.None?
      ensures client != null && client.Valid() ==> id == Some(client.clientId)
    {
      if client != null && client.clientId != "" then Some(client.clientId) else None
    }

    /** `threadId`: likewise the current client's thread id, or `null`. */
    function ThreadId(): (id: Option<string>)
      reads this, client
      ensures client == null ==> id.None?
      ensures client != null && client.Valid() ==> id == Some(client.threadId)
    {
      if client != null && client.threadId != "" then Some(client.threadId) else None
    }

    /** The effect on `[isAuthenticated, jwtToken]`. The previous run's
        cleanup stops polling and disconnects its client. Without a session
        the client is dropped (after one more `disconnect`) and the state is
        `DISCONNECTED`; with one, a fresh client gets the broadcast handler
        and connects, and polling starts. `nowClient`, `nowThread`, `randomA`,
        `randomB`, `mockMode` and `socketConstructed` are passed on to the
        client. */
    method AuthChanged(isAuthenticated: bool, jwtToken: Option<string>, nowClient: nat, nowThread: nat,
                       randomA: string, randomB: string, mockMode: bool, socketConstructed: bool)
      requires Valid()
      modifies this, client
      ensures Valid()
      ensures old(client) != null ==>
                && old(client).Valid()
                && !old(client).hasSocket && old(client).connectionState == WebSocketClient.Disconnected
                && old(client).reconnectAttempts == old(client.reconnectAttempts)
                && old(client).timers == old(client.timers)
                && old(client).socketsCreated == old(client.socketsCreated)
      ensures !(isAuthenticated && Truthy(jwtToken)) ==>
                client == null && connectionState == WebSocketClient.Disconnected
      ensures isAuthenticated && Truthy(jwtToken) ==>
                && client != null && fresh(client)
                && client.jwtToken == jwtToken.value && client.mockMode == mockMode
                && client.clientId == WebSocketClient.GenerateClientId(nowClient, randomA)
                && client.threadId == WebSocketClient.GenerateThreadId(nowThread, randomB)
                && client.messageHandlers == {WebSocketClient.Broadcast}
                && client.reconnectAttempts == 0
                && (!mockMode ==> client.timers == [])
                && (!mockMode && socketConstructed ==> client.hasSocket)
                && (mockMode || socketConstructed ==> client.connectionState == WebSocketClient.Connecting)
                && (!mockMode && !socketConstructed ==> client.connectionState == WebSocketClient.Error)
                && connectionState == old(connectionState)
      ensures handlers == old(handlers) && userLocation == old(userLocation)
      ensures locationLoading == old(locationLoading) && lastError == old(lastError)
    {
      if client != null {
        polling := false;
        client.Disconnect();
      }
      if !(isAuthenticated && Truthy(jwtToken)) {
        if client != null {
          client.Disconnect();
        }
        client := null;
        connectionState := WebSocketClient.Disconnected;
        return;
      }
      var c := new WebSocketClient.Client(jwtToken.value, nowClient, nowThread, randomA, randomB, mockMode);
      c.RegisterMessageHandler(WebSocketClient.Broadcast);
      c.Connect(socketConstructed);
      client := c;
      polling := true;
    }

    /** One tick of the polling interval. */
    method Poll()
      requires Valid() && polling
      modifies this`connectionState
      ensures Valid()
      ensures connectionState == client.connectionState
    {
      connectionState := client.connectionState;
    }

    /** The location effect once the user is authenticated: loading starts;
        without geolocation the location is cleared at once. */
    method RequestLocation(isAuthenticated: bool, hasGeolocation: bool)
      modifies this`userLocation, this`locationLoading
      ensures !isAuthenticated ==> userLocation == old(userLocation) && locationLoading == old(locationLoading)
      ensures isAuthenticated && hasGeolocation ==> userLocation == old(userLocation) && locationLoading
      ensures isAuthenticated && !hasGeolocation ==> userLocation == None && !locationLoading
    {
      if !isAuthenticated {
        return;
      }
      locationLoading := true;
      if !hasGeolocation {
        userLocation := None;
        locationLoading := false;
      }
    }

    /** `getCurrentPosition` succeeded: a placeholder location. */
    method OnPosition()
      modifies this`userLocation, this`locationLoading
      ensures userLocation == Some(PlaceholderLocation) && !locationLoading
    {
      userLocation := Some(PlaceholderLocation);
      locationLoading := false;
    }

    /** `getCurrentPosition` failed: no location. */
    method OnPositionError()
      modifies this`userLocation, this`locationLoading
      ensures userLocation == None && !locationLoading
    {
      userLocation := None;
      locationLoading := false;
    }

    /** `sendMessage`. Without a client only the error is set; otherwise the
        client sends with the effective location. */
    method SendMessage(message: string, messageId: string, timezone: Option<string>,
                       userName: Option<string>, userEmail: Option<string>,
                       location: Option<string>, socketOpen: bool)
      returns (outcome: Option<WebSocketClient.SendOutcome>)
      requires Valid()
      modifies this`lastError, client
      ensures Valid()
      ensures client == null ==> outcome.None? && lastError == Some(NotInitializedError)
      ensures client != null ==>
                && outcome.Some? && lastError == old(lastError)
                && outcome.value.envelope
                   == client.Envelope(message, messageId, timezone, userName, userEmail,
                                      EffectiveLocation(location, userLocation))
                && (client.mockMode ==> outcome.value.Simulated?)
                && (!client.mockMode ==> (outcome.value.Transmitted? <==> client.hasSocket && socketOpen))
                && (!client.mockMode ==> (outcome.value.Dropped? <==> !(client.hasSocket && socketOpen)))
                && client.connectionState == old(client.connectionState)
                && client.hasSocket == old(client.hasSocket)
                && client.reconnectAttempts == old(client.reconnectAttempts)
    {
      if client == null {
        lastError := Some(NotInitializedError);
        return None;
      }
      var sent := client.SendMessage(message, messageId, timezone, userName, userEmail,
                                     EffectiveLocation(location, userLocation), socketOpen);
      outcome := Some(sent);
    }

    /** `forceReconnect`: passed on to the client, if there is one. */
    method ForceReconnect(socketConstructed: bool)
      requires Valid()
      modifies client
      ensures Valid()
      ensures client == old(client)
      ensures client != null ==>
                && client.reconnectAttempts == 0
                && client.messageHandlers == old(client.messageHandlers)
                && (client.mockMode ==> && client.connectionState == WebSocketClient.Connecting && !client.hasSocket
                                        && client.timers == old(client.timers)
                                                            + [WebSocketClient.MockConnectTimer(WebSocketClient.MockConnectDelay)])
                && (!client.mockMode ==> client.timers == old(client.timers))
                && (!client.mockMode && socketConstructed ==>
                      client.connectionState == WebSocketClient.Connecting && client.hasSocket)
                && (!client.mockMode && !socketConstructed ==>
                      client.connectionState == WebSocketClient.Error && !client.hasSocket)
    {
      if client != null {
        client.ForceReconnect(socketConstructed);
      }
    }

    method ClearError()
      modifies this`lastError
      ensures lastError == None
    {
      lastError := None;
    }

    /** `registerMessageHandler`: the handler joins the set (a second
        registration of the same handler adds nothing). */
    method RegisterMessageHandler(h: nat)
      modifies this`handlers
      ensures handlers == old(handlers) + {h}
    {
      handlers := handlers + {h};
    }

    /** The function `registerMessageHandler` returns. */
    method UnregisterMessageHandler(h: nat)
      modifies this`handlers
      ensures handlers == old(handlers) - {h}
    {
      handlers := handlers - {h};
    }

    /** The broadcast handler: every registered handler is called once with
        the message. */
    method Broadcast(m: IncomingMessage) returns (calls: set<Call>)
      ensures calls == set h | h in handlers :: Call(h, m)
    {
      calls := {};
      var rest := handlers;
      while rest != {}
        invariant rest <= handlers
        invariant calls == set h | h in handlers - rest :: Call(h, m)
        decreases rest
      {
        var h :| h in rest;
        calls := calls + {Call(h, m)};
        rest := rest - {h};
      }
    }
  }

  /** Two components registering the same handler share one entry: when the
      first unregisters, the second no longer receives anything. */
  method SharedHandlerUnregistered(m: IncomingMessage) returns (calls: set<Call>)
    ensures calls == {}
  {
    var p := new ChatProvider();
    p.RegisterMessageHandler(7);
    p.RegisterMessageHandler(7);
    p.UnregisterMessageHandler(7);
    calls := p.Broadcast(m);
  }

  /** Signing out drops the client, yet a close event still reaching that
      client makes it schedule a reconnect on its own. */
  method SignOutLeavesReconnect() returns (orphan: WebSocketClient.Client, pending: seq<WebSocketClient.Timer>)
    ensures pending == [WebSocketClient.ReconnectTimer(1000)]
  {
    var p := new ChatProvider();
    p.AuthChanged(true, Some("token"), 0, 0, "0.a", "0.b", false, true);
    orphan := p.client;
    orphan.OnOpen();
    p.AuthChanged(false, None, 1, 1, "0.c", "0.d", false, true);
    assert p.client == null;
    orphan.OnClose();
    WebSocketClient.BackoffSchedule(1);
    pending := orphan.timers;
  }
}
