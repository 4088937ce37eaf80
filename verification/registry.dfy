/**
 The server's list of connected clients. Clients are opaque handles; the list
 is ordered by connection time and is the only record of who receives
 outbound envelopes.
 */
module Registry {
  import opened Sequences

  type ClientId = nat

  /** A new connection is appended at the end of the list. */
  function Connect(clients: seq<ClientId>, c: ClientId): (r: seq<ClientId>)
    ensures |r| == |clients| + 1
    ensures r[..|clients|] == clients
    ensures r[|clients|] == c
  {
    clients + [c]
  }

  /** A disconnect removes every occurrence of the client, keeping the others in order. */
  function RemoveAll(clients: seq<ClientId>, c: ClientId): (r: seq<ClientId>)
    ensures c !in r
    ensures forall x :: x != c ==> (x in r <==> x in clients)
    ensures multiset(r) == multiset(clients)[c := 0]
    ensures |r| == |clients| - Occurrences(clients, c)
  {
    if clients == [] then []
    else
      assert clients == [clients[0]] + clients[1..];
      if clients[0] == c then RemoveAll(clients[1..], c)
      else [clients[0]] + RemoveAll(clients[1..], c)
  }

  /** Removal distributes over concatenation: it is a filter that keeps the order. */
  lemma {:induction false} RemoveAllConcat(a: seq<ClientId>, b: seq<ClientId>, c: ClientId)
    ensures RemoveAll(a + b, c) == RemoveAll(a, c) + RemoveAll(b, c)
  {
    if a == [] {
      assert a + b == b;
    } else {
      assert (a + b)[0] == a[0];
      assert (a + b)[1..] == a[1..] + b;
      RemoveAllConcat(a[1..], b, c);
    }
  }

  /** Removing a client that is not registered changes nothing. */
  lemma {:induction false} RemoveAbsent(clients: seq<ClientId>, c: ClientId)
    requires c !in clients
    ensures RemoveAll(clients, c) == clients
  {
    if clients != [] {
      assert clients[0] != c;
      RemoveAbsent(clients[1..], c);
      assert clients == [clients[0]] + clients[1..];
    }
  }

  /** Disconnecting a freshly connected client restores the list exactly. */
  lemma {:induction false} DisconnectUndoesConnect(clients: seq<ClientId>, c: ClientId)
    requires c !in clients
    ensures RemoveAll(Connect(clients, c), c) == clients
  {
    RemoveAllConcat(clients, [c], c);
    RemoveAbsent(clients, c);
    assert RemoveAll([c], c) == [];
  }

  /** Appending a handle that is not yet registered keeps the list duplicate-free. */
  lemma ConnectKeepsDistinct(clients: seq<ClientId>, c: ClientId)
    requires Distinct(clients)
    requires c !in clients
    ensures Distinct(Connect(clients, c))
  {
  }

  /** Removing a client keeps the list duplicate-free. */
  lemma {:induction false} RemoveAllKeepsDistinct(clients: seq<ClientId>, c: ClientId)
    requires Distinct(clients)
    ensures Distinct(RemoveAll(clients, c))
  {
    if clients != [] {
      var tail := clients[1..];
      assert Distinct(tail) by {
        forall i, j | 0 <= i < j < |tail|
          ensures tail[i] != tail[j]
        {
          assert tail[i] == clients[i + 1] && tail[j] == clients[j + 1];
        }
      }
      RemoveAllKeepsDistinct(tail, c);
      if clients[0] != c {
        assert clients[0] !in tail by {
          forall k | 0 <= k < |tail|
            ensures tail[k] != clients[0]
          {
            assert tail[k] == clients[k + 1];
          }
        }
        var rest := RemoveAll(tail, c);
        var r := [clients[0]] + rest;
        forall i, j | 0 <= i < j < |r|
          ensures r[i] != r[j]
        {
          if i == 0 {
            assert r[j] == rest[j - 1];
            assert rest[j - 1] in rest;
          } else {
            assert r[i] == rest[i - 1] && r[j] == rest[j - 1];
          }
        }
      }
    }
  }
}
