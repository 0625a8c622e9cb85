/** The chat WebSocket client of src/lib/websocket-client.ts: connection
    states, bounded exponential-backoff reconnection, the handler registry,
    the outgoing envelope, and mock mode's canned replies.

    The browser is the environment. Each pending `setTimeout` is an entry of
    `timers`, and the environment fires any one of them with `Tick`. The
    socket callbacks `onopen`, `onerror`, `onclose` and `onmessage` are the
    methods `OnOpen`, `OnError`, `OnClose` and `OnMessage`. They close over
    the client itself, so a socket replaced by a later `connect` or closed by
    `disconnect` can still deliver them. */
module WebSocketClient {
  import opened Wrappers
  import opened Js
  import opened ChatTypes
  import opened KeywordMatch

  datatype ConnectionState = Connecting | Connected | Disconnected | Error

  const MaxReconnectAttempts: nat := 5
  /** `reconnectDelay`, the base of the backoff, in milliseconds. */
  const ReconnectDelay: nat := 1000
  const MockConnectDelay: nat := 500
  /** The delays of the four simulated replies, in milliseconds. */
  const MockReplyDelays: seq<nat> := [300, 800, 1500, 2000]
  /** Every delay `attemptReconnect` can schedule, in order of the attempt. */
  const BackoffDelays: seq<nat> := [1000, 2000, 4000, 8000, 16000]

  function Pow2(n: nat): (r: nat)
    ensures r >= 1
  {
    if n == 0 then 1 else 2 * Pow2(n - 1)
  }

  /** The delay before reconnection attempt number `attempt` (counted from 1). */
  function BackoffDelay(attempt: nat): (d: nat)
    requires attempt >= 1
    ensures d >= ReconnectDelay
  {
    ReconnectDelay * Pow2(attempt - 1)
  }

  /** Each further attempt waits twice as long as the one before. */
  lemma BackoffDoubles(attempt: nat)
    requires attempt >= 1
    ensures BackoffDelay(attempt + 1) == 2 * BackoffDelay(attempt)
  {
  }

  /** The five attempts wait 1000, 2000, 4000, 8000 and 16000 ms. */
  lemma BackoffSchedule(attempt: nat)
    requires 1 <= attempt <= MaxReconnectAttempts
    ensures BackoffDelay(attempt) == BackoffDelays[attempt - 1]
    ensures BackoffDelay(attempt) <= 16000
  {
    assert Pow2(1) == 2 && Pow2(2) == 4;
    assert Pow2(3) == 8 && Pow2(4) == 16;
  }

  /** `handler => ...`, identified by what registered it: the chat context's
      broadcast closure, or a subscriber with a numeric identity. */
  datatype Handler = Broadcast | Subscriber(id: nat)

  /** One call of a registered handler with a message. */
  datatype Delivery = Delivery(handler: Handler, message: IncomingMessage)

  /** `messageHandlers.forEach(handler => handler(message))`: every handler
      called once with the message. */
  function Deliveries(handlers: set<Handler>, m: IncomingMessage): (r: set<Delivery>)
    ensures forall d :: d in r <==> d.handler in handlers && d.message == m
  {
    set h | h in handlers :: Delivery(h, m)
  }

  /** A pending `setTimeout` callback. */
  datatype Timer =
    | ReconnectTimer(delay: nat)
    | MockConnectTimer(delay: nat)
    | MockReplyTimer(delay: nat, message: IncomingMessage)

  /** What `sendMessage` did with the envelope: sent it on an open socket,
      dropped it ("WebSocket not connected"), or answered it in mock mode. */
  datatype SendOutcome =
    | Transmitted(envelope: OutgoingMessage)
    | Dropped(envelope: OutgoingMessage)
    | Simulated(envelope: OutgoingMessage)

  const HealthReply :=
      "I can help you with healthcare guidance. For "
      + "reproductive health concerns, I recommend "
      + "consulting with a healthcare provider. In the "
      + "meantime, I can provide general information about "
      + "women's health, wellness, and nutrition. What "
      + "specific aspect would you like to know more about?"
  const LegalReply :=
      "I can assist with legal information. Please note "
      + "that this is general guidance and not legal "
      + "advice. For specific legal concerns, consulting "
      + "with a qualified attorney is recommended. I can "
      + "help you understand family law, employment "
      + "rights, or consumer protection matters. What "
      + "would you like to explore?"
  const WellnessReply :=
      "Mental and emotional wellness is so important. "
      + "I'm here to support you with stress management "
      + "techniques, self-care practices, and emotional "
      + "wellness strategies. Remember, if you're "
      + "experiencing severe distress, please reach out to "
      + "a mental health professional. How can I support "
      + "you today?"
  const DefaultReply :=
      "Thank you for your message! I'm GoddessGPT, your "
      + "AI assistant for women's healthcare, legal "
      + "assistance, and mental wellness. I'm currently in "
      + "development mode, so I'm providing simulated "
      + "responses. How can I assist you with healthcare "
      + "guidance, legal information, or emotional support?"

  /** The keyword groups `generateMockResponse` tests, in order, and the
      reply for each group followed by the default reply. */
  const MockKeywordGroups: seq<seq<string>> :=
    [["health", "reproductive"], ["legal", "law", "rights"], ["mental", "stress", "emotional", "wellness"]]
  const MockReplyTexts: seq<string> := [HealthReply, LegalReply, WellnessReply, DefaultReply]

  /** `generateMockResponse`: an if-chain over the lower-cased message. */
  function GenerateMockResponse(userMessage: string): (r: string)
    ensures r in MockReplyTexts
  {
    var lower := ToLower(userMessage);
    if Contains(lower, "health") || Contains(lower, "reproductive") then HealthReply
    else if Contains(lower, "legal") || Contains(lower, "law") || Contains(lower, "rights") then LegalReply
    else if Contains(lower, "mental") || Contains(lower, "stress") || Contains(lower, "emotional")
         || Contains(lower, "wellness") then WellnessReply
    else DefaultReply
  }

  /** Each keyword group matches exactly when the corresponding test of the
      if-chain holds. */
  lemma KeywordGroupsAreTheTests(s: string)
    ensures var g := MockKeywordGroups;
            && (MatchesAny(s, g[0]) <==> Contains(s, "health") || Contains(s, "reproductive"))
            && (MatchesAny(s, g[1]) <==> Contains(s, "legal") || Contains(s, "law") || Contains(s, "rights"))
            && (MatchesAny(s, g[2]) <==> Contains(s, "mental") || Contains(s, "stress")
                                         || Contains(s, "emotional") || Contains(s, "wellness"))
  {
    var g := MockKeywordGroups;
    assert MatchesAny(s, g[0]) <==> Contains(s, "health") || Contains(s, "reproductive") by {
      assert g[0][0] == "health" && g[0][1] == "reproductive";
    }
    assert MatchesAny(s, g[1]) <==> Contains(s, "legal") || Contains(s, "law") || Contains(s, "rights") by {
      assert g[1][0] == "legal" && g[1][1] == "law" && g[1][2] == "rights";
    }
    assert MatchesAny(s, g[2]) <==> (Contains(s, "mental") || Contains(s, "stress")
                                        || Contains(s, "emotional") || Contains(s, "wellness")) by {
      assert g[2][0] == "mental" && g[2][1] == "stress" && g[2][2] == "emotional" && g[2][3] == "wellness";
    }
  }

  /** The if-chain picks the reply of the first keyword group that matches. */
  lemma GenerateMockResponseFirstMatch(userMessage: string)
    ensures GenerateMockResponse(userMessage)
         == MockReplyTexts[FirstMatch(MockKeywordGroups, ToLower(userMessage))]
  {
    KeywordGroupsAreTheTests(ToLower(userMessage));
  }

  /** The four envelopes mock mode answers a message with, in the order of
      their delays: a "thinking" message, a status update, the reply, and
      completion. */
  function MockReplies(userMessage: string): (r: seq<IncomingMessage>)
    ensures |r| == |MockReplyDelays|
    ensures r[2].content == Some(GenerateMockResponse(userMessage))
  {
    [ IncomingMessage(MessageKind, Some("I'm processing your request..."), None, Some("assistant"), None),
      IncomingMessage(StatusKind, None, Some("Analyzing your message..."), None, None),
      IncomingMessage(MessageKind, Some(GenerateMockResponse(userMessage)), None, Some("assistant"), None),
      IncomingMessage(CompleteKind, None, Some("Task completed"), None, None) ]
  }

  function MockReplyTimers(userMessage: string): (r: seq<Timer>)
    ensures |r| == |MockReplyDelays|
    ensures forall k :: 0 <= k < |r| ==> r[k] == MockReplyTimer(MockReplyDelays[k], MockReplies(userMessage)[k])
  {
    var replies := MockReplies(userMessage);
    [ MockReplyTimer(300, replies[0]), MockReplyTimer(800, replies[1]),
      MockReplyTimer(1500, replies[2]), MockReplyTimer(2000, replies[3]) ]
  }

  /** `client_${Date.now()}_${random.substring(2, 11)}`; `random` stands for
      `Math.random().toString(36)`. */
  function GenerateClientId(now: nat, random: string): (id: string)
    ensures StartsWith(id, "client_")
    ensures |id| <= |"client_"| + |Radix(now, 10)| + 1 + 9
  {
    "client_" + Radix(now, 10) + "_" + Substring(random, 2, 11)
  }

  /** `thread_${Date.now()}_${random.substring(2, 11)}`. */
  function GenerateThreadId(now: nat, random: string): (id: string)
    ensures StartsWith(id, "thread_")
    ensures |id| <= |"thread_"| + |Radix(now, 10)| + 1 + 9
  {
    "thread_" + Radix(now, 10) + "_" + Substring(random, 2, 11)
  }

  /** A timer belongs to the mode that schedules it, with one of its delays. */
  predicate TimerFits(t: Timer, mockMode: bool) {
    match t
    case ReconnectTimer(d) => !mockMode && d in BackoffDelays
    case MockConnectTimer(d) => mockMode && d == MockConnectDelay
    case MockReplyTimer(d, _) => mockMode && d in MockReplyDelays
  }

  /** The pending timers with entry `i` removed. */
  function Without(timers: seq<Timer>, i: nat): (r: seq<Timer>)
    requires i < |timers|
    ensures |r| == |timers| - 1
  {
    timers[..i] + timers[i + 1..]
  }

  class Client {
    const jwtToken: string
    const clientId: string
    const threadId: string
    /** `config.isDevMode`, read once by the constructor. */
    const mockMode: bool

    /** `ws !== null`. */
    var hasSocket: bool
    var messageHandlers: set<Handler>
    var connectionState: ConnectionState
    var reconnectAttempts: nat
    var timers: seq<Timer>
    /** How many sockets `connectReal` has opened; a socket callback can only
        come from one of them. */
    ghost var socketsCreated: nat

    ghost predicate Valid()
      reads this
    {
      && reconnectAttempts <= MaxReconnectAttempts
      && (connectionState == Connected ==> reconnectAttempts == 0)
      && (mockMode ==> socketsCreated == 0 && reconnectAttempts == 0)
      && (hasSocket ==> socketsCreated > 0)
      && (forall k :: 0 <= k < |timers| ==> TimerFits(timers[k], mockMode))
      && StartsWith(clientId, "client_") && StartsWith(threadId, "thread_")
    }

    /** `new WebSocketClient(jwtToken)`; `nowClient` and `nowThread` stand
        for the two readings of the clock, `randomA` and `randomB` for the
        two `Math.random()` draws of the two IDs. */
    constructor (jwtToken: string, nowClient: nat, nowThread: nat, randomA: string, randomB: string,
                 mockMode: bool)
      ensures Valid()
      ensures this.jwtToken == jwtToken && this.mockMode == mockMode
      ensures clientId == GenerateClientId(nowClient, randomA)
      ensures threadId == GenerateThreadId(nowThread, randomB)
      ensures connectionState == Disconnected && reconnectAttempts == 0
      ensures !hasSocket && messageHandlers == {} && timers == []
    {
      this.jwtToken := jwtToken;
      this.clientId := GenerateClientId(nowClient, randomA);
      this.threadId := GenerateThreadId(nowThread, randomB);
      this.mockMode := mockMode;
      hasSocket := false;
      messageHandlers := {};
      connectionState := Disconnected;
      reconnectAttempts := 0;
      timers := [];
      socketsCreated := 0;
    }

    /** `connect`: the mock connection, or a real socket. `socketConstructed`
        is false when `new WebSocket(url)` throws. */
    method Connect(socketConstructed: bool)
      requires Valid()
      modifies this
      ensures Valid()
      ensures mockMode ==> && connectionState == Connecting
                           && timers == old(timers) + [MockConnectTimer(MockConnectDelay)]
                           && hasSocket == old(hasSocket)
      ensures !mockMode ==> timers == old(timers)
      ensures !mockMode && socketConstructed ==> connectionState == Connecting && hasSocket
      ensures !mockMode && !socketConstructed ==> connectionState == Error && hasSocket == old(hasSocket)
      ensures reconnectAttempts == old(reconnectAttempts) && messageHandlers == old(messageHandlers)
    {
      if mockMode {
        ConnectMock();
      } else {
        ConnectReal(socketConstructed);
      }
    }

    /** `connectReal`. If the socket constructor throws, the state is `ERROR`. */
    method ConnectReal(socketConstructed: bool)
      requires Valid() && !mockMode
      modifies this
      ensures Valid()
      ensures socketConstructed ==> connectionState == Connecting && hasSocket
                                    && socketsCreated == old(socketsCreated) + 1
      ensures !socketConstructed ==> connectionState == Error && hasSocket == old(hasSocket)
      ensures timers == old(timers) && reconnectAttempts == old(reconnectAttempts)
      ensures messageHandlers == old(messageHandlers)
    {
      connectionState := Connecting;
      if socketConstructed {
        hasSocket := true;
        socketsCreated := socketsCreated + 1;
      } else {
        connectionState := Error;
      }
    }

    /** `connectMock`: `CONNECTING` now, `CONNECTED` when the 500 ms timer fires. */
    method ConnectMock()
      requires Valid() && mockMode
      modifies this
      ensures Valid()
      ensures connectionState == Connecting
      ensures timers == old(timers) + [MockConnectTimer(MockConnectDelay)]
      ensures hasSocket == old(hasSocket) && reconnectAttempts == old(reconnectAttempts)
      ensures messageHandlers == old(messageHandlers)
      ensures socketsCreated == old(socketsCreated)
    {
      connectionState := Connecting;
      timers := timers + [MockConnectTimer(MockConnectDelay)];
    }

    /** `ws.onopen`. */
    method OnOpen()
      requires Valid() && socketsCreated > 0
      modifies this
      ensures Valid()
      ensures connectionState == Connected && reconnectAttempts == 0
      ensures hasSocket == old(hasSocket) && timers == old(timers)
      ensures messageHandlers == old(messageHandlers)
      ensures socketsCreated == old(socketsCreated)
    {
      connectionState := Connected;
      reconnectAttempts := 0;
    }

    /** `ws.onerror`. */
    method OnError()
      requires Valid() && socketsCreated > 0
      modifies this
      ensures Valid()
      ensures connectionState == Error
      ensures reconnectAttempts == old(reconnectAttempts)
      ensures hasSocket == old(hasSocket) && timers == old(timers)
      ensures messageHandlers == old(messageHandlers)
      ensures socketsCreated == old(socketsCreated)
    {
      connectionState := Error;
    }

    /** `ws.onclose`: `DISCONNECTED`, then `attemptReconnect`. */
    method OnClose()
      requires Valid() && socketsCreated > 0
      modifies this
      ensures Valid()
      ensures connectionState == Disconnected
      ensures old(reconnectAttempts) >= MaxReconnectAttempts ==>
                reconnectAttempts == old(reconnectAttempts) && timers == old(timers)
      ensures old(reconnectAttempts) < MaxReconnectAttempts ==>
                && reconnectAttempts == old(reconnectAttempts) + 1
                && timers == old(timers) + [ReconnectTimer(BackoffDelay(reconnectAttempts))]
      ensures hasSocket == old(hasSocket) && messageHandlers == old(messageHandlers)
      ensures socketsCreated == old(socketsCreated)
    {
      connectionState := Disconnected;
      AttemptReconnect();
    }

    /** `ws.onmessage`: `parsed` is the result of `JSON.parse`, `None` when it
        throws; a parse error is only logged. */
    method OnMessage(parsed: Option<IncomingMessage>) returns (deliveries: set<Delivery>)
      requires Valid() && socketsCreated > 0
      ensures parsed.None? ==> deliveries == {}
      ensures parsed.Some? ==> deliveries == Deliveries(messageHandlers, parsed.value)
    {
      deliveries := {};
      if parsed.Some? {
        deliveries := HandleMessage(parsed.value);
      }
    }

    /** `attemptReconnect`: gives up after five attempts; otherwise counts the
        attempt and schedules `connect` after the backoff delay. */
    method AttemptReconnect()
      requires Valid() && !mockMode && connectionState != Connected
      modifies this
      ensures Valid()
      ensures old(reconnectAttempts) >= MaxReconnectAttempts ==>
                reconnectAttempts == old(reconnectAttempts) && timers == old(timers)
      ensures old(reconnectAttempts) < MaxReconnectAttempts ==>
                && reconnectAttempts == old(reconnectAttempts) + 1
                && timers == old(timers) + [ReconnectTimer(BackoffDelay(reconnectAttempts))]
      ensures connectionState == old(connectionState) && hasSocket == old(hasSocket)
      ensures messageHandlers == old(messageHandlers)
      ensures socketsCreated == old(socketsCreated)
    {
      if reconnectAttempts >= MaxReconnectAttempts {
        return;
      }
      reconnectAttempts := reconnectAttempts + 1;
      var delay := ReconnectDelay * Pow2(reconnectAttempts - 1);
      BackoffSchedule(reconnectAttempts);
      timers := timers + [ReconnectTimer(delay)];
    }

    /** `forceReconnect`: disconnect, reset the attempt counter, connect. */
    method ForceReconnect(socketConstructed: bool)
      requires Valid()
      modifies this
      ensures Valid()
      ensures reconnectAttempts == 0
      ensures mockMode ==> && connectionState == Connecting && !hasSocket
                           && timers == old(timers) + [MockConnectTimer(MockConnectDelay)]
      ensures !mockMode ==> timers == old(timers)
      ensures !mockMode && socketConstructed ==> connectionState == Connecting && hasSocket
      ensures !mockMode && !socketConstructed ==> connectionState == Error && !hasSocket
      ensures messageHandlers == old(messageHandlers)
    {
      Disconnect();
      reconnectAttempts := 0;
      Connect(socketConstructed);
    }

    /** `disconnect`: closes and forgets the socket. The socket's own `onclose`
        still arrives later as an `OnClose` event. */
    method Disconnect()
      requires Valid()
      modifies this
      ensures Valid()
      ensures !hasSocket && connectionState == Disconnected
      ensures reconnectAttempts == old(reconnectAttempts) && timers == old(timers)
      ensures messageHandlers == old(messageHandlers)
      ensures socketsCreated == old(socketsCreated)
    {
      if hasSocket {
        hasSocket := false;
      }
      connectionState := Disconnected;
    }

    /** The envelope `sendMessage` builds. */
    function Envelope(message: string, messageId: string, timezone: Option<string>,
                      userName: Option<string>, userEmail: Option<string>,
                      userLocation: Option<string>): (e: OutgoingMessage)
      ensures e.message == message && e.messageId == messageId && e.threadId == threadId
      ensures e.timezone == timezone && e.userName == userName
      ensures e.userEmail == userEmail && e.userLocation == userLocation
    {
      OutgoingMessage(message, threadId, messageId, timezone, userName, userEmail, userLocation)
    }

    /** `sendMessage`. In mock mode four replies are scheduled; otherwise the
        envelope goes out only on an open socket (`socketOpen` stands for
        `ws.readyState === WebSocket.OPEN`). */
    method SendMessage(message: string, messageId: string, timezone: Option<string>,
                       userName: Option<string>, userEmail: Option<string>,
                       userLocation: Option<string>, socketOpen: bool)
      returns (outcome: SendOutcome)
      requires Valid()
      modifies this
      ensures Valid()
      ensures outcome.envelope == Envelope(message, messageId, timezone, userName, userEmail, userLocation)
      ensures mockMode ==> outcome.Simulated? && timers == old(timers) + MockReplyTimers(message)
      ensures !mockMode ==> timers == old(timers)
                            && (outcome.Transmitted? <==> hasSocket && socketOpen)
                            && (outcome.Dropped? <==> !(hasSocket && socketOpen))
      ensures connectionState == old(connectionState) && reconnectAttempts == old(reconnectAttempts)
      ensures hasSocket == old(hasSocket) && messageHandlers == old(messageHandlers)
    {
      var envelope := Envelope(message, messageId, timezone, userName, userEmail, userLocation);
      if mockMode {
        timers := timers + MockReplyTimers(message);
        outcome := Simulated(envelope);
      } else if hasSocket && socketOpen {
        outcome := Transmitted(envelope);
      } else {
        outcome := Dropped(envelope);
      }
    }

    /** `handleMessage`: calls every registered handler with the message. */
    method HandleMessage(m: IncomingMessage) returns (deliveries: set<Delivery>)
      ensures deliveries == Deliveries(messageHandlers, m)
    {
      deliveries := {};
      var pending := messageHandlers;
      while pending != {}
        invariant pending <= messageHandlers
        invariant deliveries == Deliveries(messageHandlers - pending, m)
        decreases pending
      {
        var h :| h in pending;
        deliveries := deliveries + {Delivery(h, m)};
        pending := pending - {h};
      }
    }

    /** `registerMessageHandler`. */
    method RegisterMessageHandler(h: Handler)
      modifies this`messageHandlers
      ensures messageHandlers == old(messageHandlers) + {h}
    {
      messageHandlers := messageHandlers + {h};
    }

    /** The function `registerMessageHandler` returns: removes exactly `h`. */
    method UnregisterMessageHandler(h: Handler)
      modifies this`messageHandlers
      ensures messageHandlers == old(messageHandlers) - {h}
    {
      messageHandlers := messageHandlers - {h};
    }

    /** The environment fires pending timer `i`. A reconnect timer calls
        `connect` (with `socketConstructed` as for `Connect`), the mock
        connection timer sets `CONNECTED`, and a mock reply is handed to
        `handleMessage`. An index without a timer changes nothing. */
    method Tick(i: nat, socketConstructed: bool) returns (deliveries: set<Delivery>)
      requires Valid()
      modifies this
      ensures Valid()
      ensures i >= |old(timers)| ==>
                && deliveries == {} && timers == old(timers)
                && connectionState == old(connectionState) && hasSocket == old(hasSocket)
      ensures i < |old(timers)| && old(timers[i]).ReconnectTimer? ==>
                && deliveries == {} && timers == Without(old(timers), i)
                && (socketConstructed ==> connectionState == Connecting && hasSocket)
                && (!socketConstructed ==> connectionState == Error && hasSocket == old(hasSocket))
      ensures i < |old(timers)| && old(timers[i]).MockConnectTimer? ==>
                && deliveries == {} && timers == Without(old(timers), i)
                && connectionState == Connected && hasSocket == old(hasSocket)
      ensures i < |old(timers)| && old(timers[i]).MockReplyTimer? ==>
                && deliveries == Deliveries(messageHandlers, old(timers[i]).message)
                && timers == Without(old(timers), i)
                && connectionState == old(connectionState) && hasSocket == old(hasSocket)
      ensures reconnectAttempts == old(reconnectAttempts) && messageHandlers == old(messageHandlers)
    {
      deliveries := {};
      if i >= |timers| {
        return;
      }
      var t := timers[i];
      timers := Without(timers, i);
      match t
      case ReconnectTimer(_) =>
        ConnectReal(socketConstructed);
      case MockConnectTimer(_) =>
        connectionState := Connected;
      case MockReplyTimer(_, m) =>
        deliveries := HandleMessage(m);
    }
  }

  /** Closing a connection with `disconnect` does not stop reconnection: the
      closed socket's `onclose` still calls `attemptReconnect`, which
      schedules a new `connect` one second later. */
  method DisconnectStillReconnects() returns (pending: seq<Timer>, state: ConnectionState)
    ensures pending == [ReconnectTimer(1000)] && state == Disconnected
  {
    var c := new Client("token", 0, 0, "0.a", "0.b", false);
    c.Connect(true);
    c.OnOpen();
    c.Disconnect();
    c.OnClose();
    BackoffSchedule(1);
    pending, state := c.timers, c.connectionState;
  }
}
