/**
 Envelopes and their delivery. Every outbound envelope, whether it answers a
 call or forwards a handler signal, is delivered to every registered client in
 registry order; the connection that caused it gets no special treatment.
 */
module Broadcast {
  import opened Json
  import opened Sequences
  import opened Registry

  /** The uniform message unit: a correlation id, a function name and positional data. */
  datatype Envelope = Envelope(id: string, func: string, data: seq<Value>)

  /** One envelope handed to one client's socket. */
  datatype Delivery = Delivery(client: ClientId, message: Envelope)

  /** Delivers `e` to each client of `clients`, in order. */
  function SendMessage(clients: seq<ClientId>, e: Envelope): (r: seq<Delivery>)
    ensures |r| == |clients|
    ensures forall i :: 0 <= i < |r| ==> r[i].client == clients[i] && r[i].message == e
  {
    if clients == [] then []
    else [Delivery(clients[0], e)] + SendMessage(clients[1..], e)
  }

  /** The deliveries in `ds` addressed to client `c`. */
  function DeliveriesTo(ds: seq<Delivery>, c: ClientId): seq<Envelope>
  {
    if ds == [] then []
    else (if ds[0].client == c then [ds[0].message] else []) + DeliveriesTo(ds[1..], c)
  }

  /** DeliveriesTo distributes over concatenation of delivery logs. */
  lemma {:induction false} DeliveriesToConcat(a: seq<Delivery>, b: seq<Delivery>, c: ClientId)
    ensures DeliveriesTo(a + b, c) == DeliveriesTo(a, c) + DeliveriesTo(b, c)
  {
    if a == [] {
      assert a + b == b;
    } else {
      var ab := a + b;
      assert ab != [] && ab[0] == a[0];
      assert ab[1..] == a[1..] + b;
      var head := if a[0].client == c then [a[0].message] else [];
      assert DeliveriesTo(ab, c) == head + DeliveriesTo(a[1..] + b, c);
      assert DeliveriesTo(a, c) == head + DeliveriesTo(a[1..], c);
      DeliveriesToConcat(a[1..], b, c);
    }
  }

  /** A client receives the envelope once per registration, and nothing else. */
  lemma {:induction false} SendMessageReachesEachRegistration(clients: seq<ClientId>, e: Envelope, c: ClientId)
    ensures |DeliveriesTo(SendMessage(clients, e), c)| == Occurrences(clients, c)
    ensures forall m :: m in DeliveriesTo(SendMessage(clients, e), c) ==> m == e
  {
    if clients != [] {
      SendMessageReachesEachRegistration(clients[1..], e, c);
    }
  }

  /** With a duplicate-free registry: each registered client receives the envelope exactly once,
      and an unregistered one never receives it. */
  lemma {:induction false} SendMessageExactlyOnce(clients: seq<ClientId>, e: Envelope, c: ClientId)
    requires Distinct(clients)
    ensures c in clients ==> DeliveriesTo(SendMessage(clients, e), c) == [e]
    ensures c !in clients ==> DeliveriesTo(SendMessage(clients, e), c) == []
  {
    SendMessageReachesEachRegistration(clients, e, c);
    OccurrencesOfDistinct(clients, c);
    var d := DeliveriesTo(SendMessage(clients, e), c);
    if c in clients {
      assert d[0] in d;
    }
  }
}
