/**
 The WebSocket server as a state machine over pure steps. The state is the
 ordered list of connected clients, the log of deliveries made so far and the
 log of calls into collaborators. Socket I/O and JSON text are not modelled:
 a step is told which client a frame came from and what the frame parses to.
 */
module Server {
  import opened Json
  import opened Wrappers
  import opened Sequences
  import opened Registry
  import opened Broadcast
  import opened Dispatch
  import opened Events

  datatype State = State(clients: seq<ClientId>, outbox: seq<Delivery>, effects: seq<Effect>)

  /** A freshly constructed server: nobody connected, nothing sent. */
  function Init(): (s: State)
    ensures s.clients == [] && s.outbox == [] && s.effects == []
  {
    State([], [], [])
  }

  /** Broadcasts `e` to the clients registered now, appending to the delivery log. */
  function Send(s: State, e: Envelope): (r: State)
    ensures r.clients == s.clients && r.effects == s.effects
    ensures |r.outbox| == |s.outbox| + |s.clients|
    ensures r.outbox[..|s.outbox|] == s.outbox
    ensures forall i :: |s.outbox| <= i < |r.outbox| ==> r.outbox[i] == Delivery(s.clients[i - |s.outbox|], e)
    ensures forall c :: |DeliveriesTo(r.outbox, c)| == |DeliveriesTo(s.outbox, c)| + Occurrences(s.clients, c)
    ensures forall c, m :: m in DeliveriesTo(r.outbox, c) ==> m in DeliveriesTo(s.outbox, c) || m == e
  {
    var sent := SendMessage(s.clients, e);
    assert forall c :: DeliveriesTo(s.outbox + sent, c) == DeliveriesTo(s.outbox, c) + DeliveriesTo(sent, c)
                       && |DeliveriesTo(sent, c)| == Occurrences(s.clients, c)
                       && (forall m :: m in DeliveriesTo(sent, c) ==> m == e) by {
      forall c
        ensures DeliveriesTo(s.outbox + sent, c) == DeliveriesTo(s.outbox, c) + DeliveriesTo(sent, c)
        ensures |DeliveriesTo(sent, c)| == Occurrences(s.clients, c)
        ensures forall m :: m in DeliveriesTo(sent, c) ==> m == e
      {
        DeliveriesToConcat(s.outbox, sent, c);
        SendMessageReachesEachRegistration(s.clients, e, c);
      }
    }
    s.(outbox := s.outbox + sent)
  }

  /** Starting the server. When the listener comes up, the server's URL is saved under
      `websocket_url` in the user application configuration `app` and `started` is emitted;
      otherwise nothing happens. The boolean is the success flag returned to the caller. */
  function Start(s: State, listening: bool, app: map<string, Value>, url: string): (r: (State, bool))
    ensures r.1 == listening
    ensures r.0.clients == s.clients && r.0.outbox == s.outbox
    ensures !listening ==> r.0 == s
    ensures listening ==>
              && |r.0.effects| == |s.effects| + 2
              && r.0.effects[..|s.effects|] == s.effects
              && r.0.effects[|s.effects|] == AppConfigWritten(StartedConfig(app, url))
              && r.0.effects[|s.effects| + 1] == ServerStarted
  {
    if listening then
      (s.(effects := s.effects + [AppConfigWritten(StartedConfig(app, url)), ServerStarted]), true)
    else (s, false)
  }

  /** Stopping the server: `websocket_url` is cleared and the listener closed. Connected
      clients stay registered. */
  function Stop(s: State, app: map<string, Value>): (r: State)
    ensures r.clients == s.clients && r.outbox == s.outbox
    ensures r.effects == s.effects + StopEffects(app)
  {
    s.(effects := s.effects + StopEffects(app))
  }

  /** A new connection is registered at the end of the client list. */
  function NewConnection(s: State, c: ClientId): (r: State)
    ensures r.clients == Connect(s.clients, c)
    ensures r.outbox == s.outbox && r.effects == s.effects
  {
    s.(clients := Connect(s.clients, c))
  }

  /** A disconnect notification. `sender` is None when the notifying object is not a
      client socket, in which case nothing changes. */
  function Disconnected(s: State, sender: Option<ClientId>): (r: State)
    ensures sender.None? ==> r == s
    ensures sender.Some? ==> r.clients == RemoveAll(s.clients, sender.value)
    ensures r.outbox == s.outbox && r.effects == s.effects
  {
    match sender
    case None => s
    case Some(c) => s.(clients := RemoveAll(s.clients, c))
  }

  /** The envelope an inbound JSON object stands for: missing or mistyped members read as
      an empty id, an empty name or empty data. */
  function InboundEnvelope(members: map<string, Value>): (e: Envelope)
    ensures "id" in members && members["id"].Str? ==> e.id == members["id"].s
    ensures !("id" in members && members["id"].Str?) ==> e.id == ""
    ensures "func" in members && members["func"].Str? ==> e.func == members["func"].s
    ensures !("func" in members && members["func"].Str?) ==> e.func == ""
    ensures "data" in members && members["data"].Array? ==> e.data == members["data"].items
    ensures !("data" in members && members["data"].Array?) ==> e.data == []
  {
    Envelope(AsString(Member(members, "id")), AsString(Member(members, "func")), AsArray(Member(members, "data")))
  }

  /** A text or binary frame arrived (both paths behave alike once the frame is parsed).
      Frames that are not JSON objects, frames whose sender is not a client socket and calls
      to unsupported names are dropped; any other call has its effects performed and its
      single reply broadcast to every registered client. */
  function MessageReceived(s: State, sender: Option<ClientId>, frame: Document,
                           handlers: Handlers, app: map<string, Value>): (r: State)
    ensures r.clients == s.clients
    ensures sender.None? || frame.NotObject? ==> r == s
    ensures sender.Some? && frame.JsonObject? ==>
              match ReceiveMessage(InboundEnvelope(frame.members), handlers, app)
              case Dropped => r == s
              case Replied(effects, reply) =>
                r.outbox == s.outbox + SendMessage(s.clients, reply) && r.effects == s.effects + effects
  {
    if sender.None? || frame.NotObject? then s
    else
      match ReceiveMessage(InboundEnvelope(frame.members), handlers, app)
      case Dropped => s
      case Replied(effects, reply) => Send(s.(effects := s.effects + effects), reply)
  }

  /** A handler signal is forwarded to every registered client. */
  function SignalRaised(s: State, sig: Signal): (r: State)
    ensures r.clients == s.clients && r.effects == s.effects
    ensures r.outbox == s.outbox + SendMessage(s.clients, EventEnvelope(sig))
  {
    Send(s, EventEnvelope(sig))
  }

  /** One thing that can happen to the server. */
  datatype Step =
    | ClientConnected(client: ClientId)
    | ClientDisconnected(sender: Option<ClientId>)
    | FrameReceived(sender: Option<ClientId>, frame: Document, handlers: Handlers, app: map<string, Value>)
    | HandlerSignal(sig: Signal)
    | StartRequested(listening: bool, app: map<string, Value>, url: string)
    | StopRequested(app: map<string, Value>)

  function Next(s: State, step: Step): State
  {
    match step
    case ClientConnected(c) => NewConnection(s, c)
    case ClientDisconnected(sender) => Disconnected(s, sender)
    case FrameReceived(sender, frame, handlers, app) => MessageReceived(s, sender, frame, handlers, app)
    case HandlerSignal(sig) => SignalRaised(s, sig)
    case StartRequested(listening, app, url) => Start(s, listening, app, url).0
    case StopRequested(app) => Stop(s, app)
  }

  /** No step takes back a delivery or an effect: both logs only grow. */
  lemma LogsOnlyGrow(s: State, step: Step)
    ensures var r := Next(s, step);
            && |s.outbox| <= |r.outbox| && r.outbox[..|s.outbox|] == s.outbox
            && |s.effects| <= |r.effects| && r.effects[..|s.effects|] == s.effects
  {
  }

  /** As long as every new connection is a handle not registered yet, no client is ever
      registered twice. */
  lemma {:induction false} StepKeepsClientsDistinct(s: State, step: Step)
    requires Distinct(s.clients)
    requires step.ClientConnected? ==> step.client !in s.clients
    ensures Distinct(Next(s, step).clients)
  {
    match step
    case ClientConnected(c) => ConnectKeepsDistinct(s.clients, c);
    case ClientDisconnected(sender) =>
      if sender.Some? {
        RemoveAllKeepsDistinct(s.clients, sender.value);
      }
    case FrameReceived(_, _, _, _) =>
    case HandlerSignal(_) =>
    case StartRequested(_, _, _) =>
    case StopRequested(_) =>
  }

  /** A call to a supported name is answered exactly once on every registered connection, the
      sender's and all others alike, with an envelope carrying the caller's id and name. A client
      that is not registered, the sender included, receives nothing. */
  lemma {:induction false} CallAnsweredOnEveryConnection(s: State, sender: ClientId, members: map<string, Value>,
                                      handlers: Handlers, app: map<string, Value>, c: ClientId)
    requires Distinct(s.clients)
    requires InboundEnvelope(members).func in EmptyReplyCalls || InboundEnvelope(members).func in ResultCalls
    ensures var inbound := InboundEnvelope(members);
            var o := ReceiveMessage(inbound, handlers, app);
            var r := MessageReceived(s, Some(sender), JsonObject(members), handlers, app);
            && o.Replied?
            && o.reply.id == inbound.id && o.reply.func == inbound.func
            && DeliveriesTo(r.outbox, c) == DeliveriesTo(s.outbox, c) + (if c in s.clients then [o.reply] else [])
  {
    var o := ReceiveMessage(InboundEnvelope(members), handlers, app);
    DeliveriesToConcat(s.outbox, SendMessage(s.clients, o.reply), c);
    SendMessageExactlyOnce(s.clients, o.reply, c);
  }

  /** A forwarded signal reaches every registered client exactly once. */
  lemma {:induction false} SignalReachesEveryClient(s: State, sig: Signal, c: ClientId)
    requires Distinct(s.clients)
    ensures DeliveriesTo(SignalRaised(s, sig).outbox, c)
              == DeliveriesTo(s.outbox, c) + (if c in s.clients then [EventEnvelope(sig)] else [])
  {
    DeliveriesToConcat(s.outbox, SendMessage(s.clients, EventEnvelope(sig)), c);
    SendMessageExactlyOnce(s.clients, EventEnvelope(sig), c);
  }

  /** A frame that does not parse to a JSON object, or that comes from an object that is not
      a client socket, is dropped before dispatch: nothing is invoked and nothing is sent. */
  lemma NonObjectFramesAreDropped(s: State, sender: Option<ClientId>, frame: Document,
                                  handlers: Handlers, app: map<string, Value>)
    requires sender.None? || frame.NotObject?
    ensures MessageReceived(s, sender, frame, handlers, app) == s
  {
  }

  /** A call to a name outside the table is dropped silently: no effect, no reply to anyone. */
  lemma UnsupportedCallsAreDropped(s: State, sender: Option<ClientId>, members: map<string, Value>,
                                   handlers: Handlers, app: map<string, Value>)
    requires InboundEnvelope(members).func !in EmptyReplyCalls
    requires InboundEnvelope(members).func !in ResultCalls
    ensures MessageReceived(s, sender, JsonObject(members), handlers, app) == s
  {
  }
}
