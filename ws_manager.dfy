/**
 * The server's list of connected browser websockets: `connect` appends, `disconnect`
 * removes, and `broadcast` sends one message to every connection, then drops the ones
 * whose send failed.
 *
 * A socket is identified by an id (Python compares them by identity); whether each send
 * fails is an input, one flag per connection in order.
 */
module WsManager {
  import opened Wrappers
  import opened JsonValue
  import Lists

  datatype Socket = Socket(id: nat)

  predicate Distinct(conns: seq<Socket>)
  {
    forall i, j :: 0 <= i < j < |conns| ==> conns[i] != conns[j]
  }

  /** The one message a broadcast sends: `{"type": event_type, "data": data}`. */
  function Message(eventType: string, data: map<string, Json>): (m: Json)
    ensures m.JObj? && m.fields.Keys == {"type", "data"}
    ensures m.fields["type"] == JStr(eventType) && m.fields["data"] == JObj(data)
  {
    JObj(map["type" := JStr(eventType), "data" := JObj(data)])
  }

  /** `disconnected`: the connections whose send failed, in order. */
  function Failed(conns: seq<Socket>, fails: seq<bool>): (r: seq<Socket>)
    requires |fails| == |conns|
  {
    if conns == [] then []
    else
      var n := |conns| - 1;
      Failed(conns[..n], fails[..n]) + (if fails[n] then [conns[n]] else [])
  }

  /** The connections whose send succeeded, in order. */
  function Survivors(conns: seq<Socket>, fails: seq<bool>): (r: seq<Socket>)
    requires |fails| == |conns|
  {
    if conns == [] then []
    else
      var n := |conns| - 1;
      Survivors(conns[..n], fails[..n]) + (if fails[n] then [] else [conns[n]])
  }

  /** Every connection either failed or survived. */
  lemma {:induction false} FailedAndSurvivors(conns: seq<Socket>, fails: seq<bool>)
    requires |fails| == |conns|
    ensures multiset(Failed(conns, fails)) + multiset(Survivors(conns, fails)) == multiset(conns)
    decreases |conns|
  {
    if conns != [] {
      var n := |conns| - 1;
      FailedAndSurvivors(conns[..n], fails[..n]);
      assert conns == conns[..n] + [conns[n]];
    }
  }

  /** `for ws in disconnected: self.connections.remove(ws)`, in that order. */
  function RemoveEach(conns: seq<Socket>, ds: seq<Socket>): (r: seq<Socket>)
    requires multiset(ds) <= multiset(conns)
    ensures multiset(r) == multiset(conns) - multiset(ds)
  {
    if ds == [] then conns
    else
      var n := |ds| - 1;
      assert ds == ds[..n] + [ds[n]];
      var before := RemoveEach(conns, ds[..n]);
      assert ds[n] in multiset(before);
      Lists.RemoveFirstCount(before, ds[n]);
      Lists.RemoveFirst(before, ds[n])
  }

  class WebSocketManager {
    var connections: seq<Socket>

    constructor()
      ensures connections == []
    {
      connections := [];
    }

    /** `connect`: the accepted socket goes last. */
    method Connect(ws: Socket)
      modifies this
      ensures connections == old(connections) + [ws]
    {
      connections := connections + [ws];
    }

    /** `disconnect`: removes the first occurrence; an unknown socket raises `ValueError`. */
    method Disconnect(ws: Socket) returns (r: Result<(), string>)
      modifies this
      ensures r.Ok? <==> ws in old(connections)
      ensures r.Ok? ==> connections == Lists.RemoveFirst(old(connections), ws)
      ensures r.Err? ==> connections == old(connections)
    {
      if ws !in connections {
        return Err("ValueError: list.remove(x): x not in list");
      }
      connections := Lists.RemoveFirst(connections, ws);
      r := Ok(());
    }

    /**
     * `broadcast`: the same message is sent to every connection in order, a failed send
     * not stopping the others; the failed ones are then removed one by one.
     */
    method Broadcast(eventType: string, data: map<string, Json>, fails: seq<bool>)
      returns (message: Json, attempts: seq<Socket>)
      requires |fails| == |connections|
      modifies this
      ensures message == Message(eventType, data)
      ensures attempts == old(connections)
      ensures multiset(Failed(old(connections), fails)) <= multiset(old(connections))
      ensures connections == RemoveEach(old(connections), Failed(old(connections), fails))
    {
      message := Message(eventType, data);
      var disconnected;
      attempts, disconnected := SendAll(connections, fails);
      FailedAndSurvivors(connections, fails);
      RemoveAll(disconnected);
    }

    /** The second loop of `broadcast`: `remove` for each failed socket, in order. */
    method RemoveAll(disconnected: seq<Socket>)
      requires multiset(disconnected) <= multiset(connections)
      modifies this
      ensures connections == RemoveEach(old(connections), disconnected)
    {
      ghost var start := connections;
      for j := 0 to |disconnected|
        invariant multiset(disconnected[..j]) <= multiset(start)
        invariant connections == RemoveEach(start, disconnected[..j])
      {
        PrefixBounded(disconnected, j + 1, start);
        assert disconnected[..j + 1] == disconnected[..j] + [disconnected[j]];
        RemoveEachSnoc(start, disconnected[..j], disconnected[j]);
        connections := Lists.RemoveFirst(connections, disconnected[j]);
      }
      assert disconnected[..|disconnected|] == disconnected;
    }
  }

  /** A prefix of the removals is no more than the whole. */
  lemma PrefixBounded(ds: seq<Socket>, j: nat, conns: seq<Socket>)
    requires j <= |ds| && multiset(ds) <= multiset(conns)
    ensures multiset(ds[..j]) <= multiset(conns)
  {
    assert ds == ds[..j] + ds[j..];
  }

  /** One more removal removes the first copy of that socket from what is left. */
  lemma RemoveEachSnoc(conns: seq<Socket>, ds: seq<Socket>, d: Socket)
    requires multiset(ds + [d]) <= multiset(conns)
    ensures multiset(ds) <= multiset(conns)
    ensures d in RemoveEach(conns, ds)
    ensures RemoveEach(conns, ds + [d]) == Lists.RemoveFirst(RemoveEach(conns, ds), d)
  {
    assert multiset(ds + [d]) == multiset(ds) + multiset{d};
    assert (ds + [d])[..|ds|] == ds;
    assert d in multiset(RemoveEach(conns, ds));
  }

  /** The first loop of `broadcast`: one send per connection, collecting the failed ones. */
  method SendAll(conns: seq<Socket>, fails: seq<bool>) returns (attempts: seq<Socket>, disconnected: seq<Socket>)
    requires |fails| == |conns|
    ensures attempts == conns
    ensures disconnected == Failed(conns, fails)
  {
    disconnected := [];
    attempts := [];
    for i := 0 to |conns|
      invariant attempts == conns[..i]
      invariant disconnected == Failed(conns[..i], fails[..i])
    {
      assert conns[..i + 1][..i] == conns[..i] && fails[..i + 1][..i] == fails[..i];
      attempts := attempts + [conns[i]];
      if fails[i] {
        disconnected := disconnected + [conns[i]];
      }
    }
    assert conns[..|conns|] == conns && fails[..|fails|] == fails;
  }

  /** Removing a present element from a list with one more element at the end. */
  lemma RemoveBeforeLast(zs: seq<Socket>, y: Socket, d: Socket)
    requires d in zs
    ensures Lists.RemoveFirst(zs + [y], d) == Lists.RemoveFirst(zs, d) + [y]
  {
    var i := Lists.FirstIndex(zs, d);
    var j := Lists.FirstIndex(zs + [y], d);
    assert (zs + [y])[i] == d;
    assert j <= i;
    assert zs[j] == d;
    assert j == i;
    assert (zs + [y])[..i] == zs[..i];
    assert (zs + [y])[i + 1..] == zs[i + 1..] + [y];
  }

  /** Removals that never name the last connection leave it last. */
  lemma {:induction false} RemoveEachKeepsLast(xs: seq<Socket>, y: Socket, ds: seq<Socket>)
    requires multiset(ds) <= multiset(xs) && y !in ds
    ensures multiset(ds) <= multiset(xs + [y])
    ensures RemoveEach(xs + [y], ds) == RemoveEach(xs, ds) + [y]
    decreases |ds|
  {
    assert multiset(xs + [y]) == multiset(xs) + multiset{y};
    if ds != [] {
      var n := |ds| - 1;
      assert ds == ds[..n] + [ds[n]];
      assert ds[n] in ds;
      RemoveEachKeepsLast(xs, y, ds[..n]);
      var before := RemoveEach(xs, ds[..n]);
      assert ds[n] in multiset(before);
      RemoveBeforeLast(before, y, ds[n]);
    }
  }

  /** Failed and surviving connections are connections. */
  lemma MembersOfConns(conns: seq<Socket>, fails: seq<bool>, x: Socket)
    requires |fails| == |conns|
    ensures x in Failed(conns, fails) ==> x in conns
    ensures x in Survivors(conns, fails) ==> x in conns
  {
    FailedAndSurvivors(conns, fails);
    if x in Failed(conns, fails) || x in Survivors(conns, fails) {
      assert x in multiset(conns);
    }
  }

  /**
   * After a broadcast the connections are those whose send succeeded: as a multiset
   * always, and in their original order when no socket is connected twice.
   */
  lemma BroadcastKeepsSurvivors(conns: seq<Socket>, fails: seq<bool>)
    requires |fails| == |conns|
    ensures multiset(Failed(conns, fails)) <= multiset(conns)
    ensures multiset(RemoveEach(conns, Failed(conns, fails))) == multiset(Survivors(conns, fails))
    ensures Distinct(conns) ==> RemoveEach(conns, Failed(conns, fails)) == Survivors(conns, fails)
  {
    FailedAndSurvivors(conns, fails);
    if Distinct(conns) {
      SurvivorsInOrder(conns, fails);
    }
  }

  /** Without repeated sockets, removing the failed ones leaves the survivors in order. */
  lemma {:induction false} SurvivorsInOrder(conns: seq<Socket>, fails: seq<bool>)
    requires |fails| == |conns| && Distinct(conns)
    ensures multiset(Failed(conns, fails)) <= multiset(conns)
    ensures RemoveEach(conns, Failed(conns, fails)) == Survivors(conns, fails)
    decreases |conns|
  {
    FailedAndSurvivors(conns, fails);
    if conns != [] {
      var n := |conns| - 1;
      var init, fs := conns[..n], fails[..n];
      SplitLast(conns, fails);
      SurvivorsInOrder(init, fs);
      SurvivorsStep(init, fs, conns[n], fails[n]);
    }
  }

  /** A list without repeats is its distinct front and a last element not in the front. */
  lemma SplitLast(conns: seq<Socket>, fails: seq<bool>)
    requires |fails| == |conns| > 0 && Distinct(conns)
    ensures var n := |conns| - 1;
      && conns == conns[..n] + [conns[n]] && fails == fails[..n] + [fails[n]]
      && Distinct(conns[..n]) && conns[n] !in conns[..n]
  {
    var n := |conns| - 1;
    assert conns == conns[..n] + [conns[n]] && fails == fails[..n] + [fails[n]];
  }

  /** The step of the induction: the last connection survives or is removed last. */
  lemma SurvivorsStep(init: seq<Socket>, fs: seq<bool>, last: Socket, fail: bool)
    requires |fs| == |init| && last !in init
    requires multiset(Failed(init, fs)) <= multiset(init)
    requires RemoveEach(init, Failed(init, fs)) == Survivors(init, fs)
    ensures multiset(Failed(init + [last], fs + [fail])) <= multiset(init + [last])
    ensures RemoveEach(init + [last], Failed(init + [last], fs + [fail])) == Survivors(init + [last], fs + [fail])
  {
    var conns, fails := init + [last], fs + [fail];
    assert conns[..|init|] == init && fails[..|init|] == fs;
    FailedAndSurvivors(conns, fails);
    var ds := Failed(init, fs);
    var ss := Survivors(init, fs);
    MembersOfConns(init, fs, last);
    RemoveEachKeepsLast(init, last, ds);
    if fail {
      assert Failed(conns, fails) == ds + [last] && Survivors(conns, fails) == ss;
      LastFailed(init, last, ds, ss);
    } else {
      assert Failed(conns, fails) == ds && Survivors(conns, fails) == ss + [last];
    }
  }

  /** The failed last connection is removed last, after the earlier removals. */
  lemma LastFailed(init: seq<Socket>, last: Socket, ds: seq<Socket>, ss: seq<Socket>)
    requires multiset(ds) <= multiset(init) && last !in ds && last !in ss
    requires RemoveEach(init, ds) == ss
    ensures multiset(ds + [last]) <= multiset(init + [last])
    ensures RemoveEach(init + [last], ds + [last]) == ss
  {
    RemoveEachKeepsLast(init, last, ds);
    assert multiset(ds + [last]) == multiset(ds) + multiset{last};
    RemoveEachSnoc(init + [last], ds, last);
    Lists.RemoveAppended(ss, last);
  }
}
