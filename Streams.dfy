/** The shared socket and the room subscription handshake
    (src/utils/streams.js).

    The socket library is outside the model: a socket is a handle with the
    headers it was created with, and what is done to sockets (opening,
    disconnecting, emitting, adding and removing the `message` listener) is
    recorded as a `TransportEvent`.  Incoming messages are an input trace. */
module Streams {
  import opened Wrappers
  import opened Auth

  const CanvasStream: string := "rooms.canvas.getStream"
  const ChatStream: string := "rooms.getChat"
  const SubscriptionMethod: string := "subscription"
  const StartedType: string := "started"
  const UnauthorizedMarker: string := "Unauthorized"
  const ConnectFailurePrefix: string := "Failed to connect to server: "

  /** A socket handle: a serial number and the `extraHeaders` it was
      created with. */
  datatype Socket = Socket(id: nat, extraHeaders: map<string, string>)

  /** `{ id, method, params: { path, input: { json: { roomSlug } } } }`. */
  datatype SubscriptionRequest = SubscriptionRequest(id: string, requestMethod: string, path: string, roomSlug: string)

  function CanvasRequest(id: string, roomSlug: string): SubscriptionRequest {
    SubscriptionRequest(id, SubscriptionMethod, CanvasStream, roomSlug)
  }

  function ChatRequest(id: string, roomSlug: string): SubscriptionRequest {
    SubscriptionRequest(id, SubscriptionMethod, ChatStream, roomSlug)
  }

  datatype TransportEvent =
    | Opened(socket: Socket)
    | Disconnected(socket: Socket)
    | Emitted(socket: Socket, request: SubscriptionRequest)
    | Listening(socket: Socket)
    | StoppedListening(socket: Socket)

  /** The `result` field of an incoming message, reduced to its `type`. */
  datatype StreamResult = StreamResult(kind: Option<string>)

  /** An incoming `message` event; absent fields are `None`. */
  datatype Incoming = Incoming(id: Option<string>, result: Option<StreamResult>)

  /** The test of the subscription's message handler. */
  predicate IsAck(message: Incoming, id: string) {
    message.id == Some(id) && message.result.Some? && message.result.value.kind == Some(StartedType)
  }

  /** Where the wait for the acknowledgment of `id` ends in a trace of
      incoming messages: at the first acknowledgment, every earlier message
      being ignored; `None` when the trace holds none. */
  function FirstAck(trace: seq<Incoming>, id: string): (r: Option<nat>)
    ensures r.Some? ==> r.value < |trace| && IsAck(trace[r.value], id)
    ensures r.Some? ==> forall j :: 0 <= j < r.value ==> !IsAck(trace[j], id)
    ensures r.None? ==> forall j :: 0 <= j < |trace| ==> !IsAck(trace[j], id)
  {
    if trace == [] then None
    else if IsAck(trace[0], id) then Some(0)
    else
      match FirstAck(trace[1..], id)
      case None => None
      case Some(k) => Some(k + 1)
  }

  /** Messages after the acknowledgment change nothing. */
  lemma FirstAckPrefix(a: seq<Incoming>, b: seq<Incoming>, id: string)
    requires FirstAck(a, id).Some?
    ensures FirstAck(a + b, id) == FirstAck(a, id)
  {
    var k := FirstAck(a, id).value;
    assert (a + b)[k] == a[k];
    assert forall j :: 0 <= j < k ==> (a + b)[j] == a[j];
    FirstAckUnique(a + b, id, k);
  }

  lemma FirstAckUnique(trace: seq<Incoming>, id: string, k: nat)
    requires k < |trace| && IsAck(trace[k], id)
    requires forall j :: 0 <= j < k ==> !IsAck(trace[j], id)
    ensures FirstAck(trace, id) == Some(k)
  {
  }

  /** A message that is not the acknowledgment, arriving anywhere before it,
      is ignored: the wait ends on the same message. */
  lemma {:induction false} FirstAckSkipsUnrelated(a: seq<Incoming>, m: Incoming, b: seq<Incoming>, id: string)
    requires !IsAck(m, id)
    ensures FirstAck(a + [m] + b, id).Some? <==> FirstAck(a + b, id).Some?
    ensures FirstAck(a + b, id).Some? && FirstAck(a + b, id).value < |a| ==>
      FirstAck(a + [m] + b, id) == FirstAck(a + b, id)
    ensures FirstAck(a + b, id).Some? && FirstAck(a + b, id).value >= |a| ==>
      FirstAck(a + [m] + b, id) == Some(FirstAck(a + b, id).value + 1)
  {
    if a == [] {
      assert a + [m] + b == [m] + b;
      assert ([m] + b)[1..] == b;
      assert a + b == b;
    } else {
      FirstAckSkipsUnrelated(a[1..], m, b, id);
      assert (a + [m] + b)[1..] == a[1..] + [m] + b;
      assert (a + b)[1..] == a[1..] + b;
      assert (a + [m] + b)[0] == a[0] == (a + b)[0];
    }
  }

  /** The connection headers: `Authorization: Bearer <token>` exactly when
      the token is truthy. */
  function ConnectHeaders(token: Option<string>): (h: map<string, string>)
    ensures AuthorizationHeader in h <==> Truthy(token)
    ensures Truthy(token) ==> h == map[AuthorizationHeader := Bearer(token.value)]
    ensures !Truthy(token) ==> h == map[]
  {
    if Truthy(token) then map[AuthorizationHeader := Bearer(token.value)] else map[]
  }

  /** The `connect_error` classification. */
  predicate IsAuthError(message: string) {
    Contains(message, ExpiryMarker) || Contains(message, UnauthorizedMarker)
  }

  /** The sockets created and not yet disconnected. */
  ghost function Live(events: seq<TransportEvent>): set<Socket> {
    if events == [] then {}
    else
      Step(Live(events[..|events| - 1]), events[|events| - 1])
  }

  /** What one event does to the set of live sockets. */
  ghost function Step(live: set<Socket>, e: TransportEvent): set<Socket> {
    if e.Opened? then live + {e.socket}
    else if e.Disconnected? then live - {e.socket}
    else live
  }

  lemma LiveSnoc(events: seq<TransportEvent>, e: TransportEvent)
    ensures Live(events + [e]) == Step(Live(events), e)
  {
    assert (events + [e])[..|events|] == events;
  }

  /** Subscription traffic does not open or close sockets. */
  lemma {:induction false} LiveTraffic(events: seq<TransportEvent>, traffic: seq<TransportEvent>)
    requires forall i :: 0 <= i < |traffic| ==> !traffic[i].Opened? && !traffic[i].Disconnected?
    ensures Live(events + traffic) == Live(events)
    decreases |traffic|
  {
    if traffic == [] {
      assert events + traffic == events;
    } else {
      var init := traffic[..|traffic| - 1];
      assert events + traffic == (events + init) + [traffic[|traffic| - 1]];
      LiveSnoc(events + init, traffic[|traffic| - 1]);
      LiveTraffic(events, init);
    }
  }

  /** How `subscribeToRoom` ends: it rejects when there is no socket, it is
      still waiting when the trace ends without the acknowledgment, or it
      resolves to `true` on the message at `ackIndex`. */
  datatype Subscription = SocketMissing | AwaitingAck | Subscribed(ackIndex: nat)

  /** The module-level `socket` variable and what has been done with sockets. */
  class Transport {
    const browser: Browser
    var socket: Option<Socket>
    /** The number of sockets created so far; the next one gets this id. */
    var created: nat
    var events: seq<TransportEvent>

    /** The singleton discipline: the only live socket is the one `socket`
        holds, and none is live when it is `null`. */
    ghost predicate Valid()
      reads this
    {
      Live(events) == if socket.Some? then {socket.value} else {}
    }

    constructor (browser: Browser)
      ensures this.browser == browser && socket.None? && created == 0 && events == [] && Valid()
    {
      this.browser := browser;
      socket := None;
      created := 0;
      events := [];
    }

    /** `initSocket()`: nothing without a token or while a socket exists;
        otherwise one new socket, created with the token as a bearer
        credential, becomes the singleton and is returned. */
    method InitSocket() returns (handle: Option<Socket>)
      requires Valid()
      modifies this
      ensures Valid() && |Live(events)| <= 1
      ensures browser.GetToken().None? || old(socket).Some? ==>
        handle.None? && socket == old(socket) && created == old(created) && events == old(events)
      ensures browser.GetToken().Some? && old(socket).None? ==>
        && handle == Some(Socket(old(created), ConnectHeaders(browser.GetToken())))
        && socket == handle && created == old(created) + 1
        && events == old(events) + [Opened(handle.value)]
    {
      var token := browser.GetToken();
      var headers := ConnectHeaders(token);
      if token.None? {
        return None;
      }
      if socket.Some? {
        return None;
      }
      var s := Socket(created, headers);
      LiveSnoc(events, Opened(s));
      socket := Some(s);
      created := created + 1;
      events := events + [Opened(s)];
      return socket;
    }

    /** The `connect_error` handler.  An authentication error triggers a
        refresh; with a new token the current socket is disconnected and
        dropped before `initSocket` runs again, and otherwise (or when
        there is no socket to disconnect, which throws) the user is sent to
        login.  Any other error is only reported. */
    method OnConnectError(message: string, reply: TokenReply)
      requires Valid()
      modifies this, browser
      ensures Valid()
      ensures !IsAuthError(message) ==>
        && browser.storage == old(browser.storage)
        && browser.effects == old(browser.effects) + [Alert(ConnectFailurePrefix + message)]
        && socket == old(socket) && created == old(created) && events == old(events)
      ensures var step := Refresh(browser.env, old(browser.storage), reply);
        IsAuthError(message) && Truthy(step.token) && old(socket).Some? ==>
        && browser.storage == step.storage
        && browser.effects == old(browser.effects) + step.effects
        && socket == Some(Socket(old(created), map[AuthorizationHeader := Bearer(step.token.value)]))
        && created == old(created) + 1
        && events == old(events) + [Disconnected(old(socket).value), Opened(socket.value)]
      ensures var step := Refresh(browser.env, old(browser.storage), reply);
        IsAuthError(message) && (!Truthy(step.token) || old(socket).None?) ==>
        && browser.storage == Cleared(step.storage)
        && browser.effects == old(browser.effects) + step.effects + [Login(browser.env)]
        && socket == old(socket) && created == old(created) && events == old(events)
    {
      if !IsAuthError(message) {
        browser.Notify(ConnectFailurePrefix + message);
        return;
      }
      ghost var before := browser.storage;
      var newToken := browser.RefreshToken(reply);
      if !Truthy(newToken) {
        browser.RedirectToLogin();
        return;
      }
      match socket {
        case None =>
          browser.RedirectToLogin();
        case Some(current) =>
          RefreshStoresReturnedToken(browser.env, before, reply);
          LiveSnoc(events, Disconnected(current));
          events := events + [Disconnected(current)];
          socket := None;
          var _ := InitSocket();
      }
    }

    /** `subscribeToRoom(roomSlug)`, with the two fresh ids supplied and the
        messages that arrive on the socket given as a trace: the canvas
        request is emitted and a listener added; on the first message that
        acknowledges it the listener is removed and the chat request is
        emitted, without waiting for its own acknowledgment. */
    method SubscribeToRoom(roomSlug: string, canvasId: string, chatId: string, incoming: seq<Incoming>)
      returns (outcome: Subscription)
      requires Valid()
      modifies this`events
      ensures Valid()
      ensures socket.None? ==> outcome == SocketMissing && events == old(events)
      ensures socket.Some? ==>
        var s := socket.value;
        var ack := FirstAck(incoming, canvasId);
        && events == old(events) + [Emitted(s, CanvasRequest(canvasId, roomSlug)), Listening(s)] +
             (if ack.Some? then [StoppedListening(s), Emitted(s, ChatRequest(chatId, roomSlug))] else [])
        && outcome == if ack.Some? then Subscribed(ack.value) else AwaitingAck
    {
      if socket.None? {
        return SocketMissing;
      }
      var s := socket.value;
      ghost var start := events;
      events := events + [Emitted(s, CanvasRequest(canvasId, roomSlug)), Listening(s)];
      var ack := FirstAck(incoming, canvasId);
      if ack.None? {
        LiveTraffic(start, [Emitted(s, CanvasRequest(canvasId, roomSlug)), Listening(s)]);
        return AwaitingAck;
      }
      events := events + [StoppedListening(s), Emitted(s, ChatRequest(chatId, roomSlug))];
      LiveTraffic(start, [Emitted(s, CanvasRequest(canvasId, roomSlug)), Listening(s),
                          StoppedListening(s), Emitted(s, ChatRequest(chatId, roomSlug))]);
      assert events == start + [Emitted(s, CanvasRequest(canvasId, roomSlug)), Listening(s),
                                StoppedListening(s), Emitted(s, ChatRequest(chatId, roomSlug))];
      return Subscribed(ack.value);
    }
  }
}
