/** The pool of shard connections. */
module ShardPool {
  import opened FanOut
  import opened FanOutTheorems
  import opened GoText
  import opened Sequences

  /** A dialled connection, which remembers how often it has been closed. */
  class Conn {
    var closes: nat

    constructor ()
      ensures closes == 0
    {
      closes := 0;
    }

    method Close()
      modifies this
      ensures closes == old(closes) + 1
    {
      closes := closes + 1;
    }
  }

  datatype Client = Client(conn: Conn)

  /** The connections in the order in which the map yields their shards. */
  lemma OrderedConns(conns: map<int, Conn>, order: seq<int>, n: nat) returns (list: seq<Conn>)
    requires AreShards(conns.Keys, n) && forall i, j | 0 <= i < n && 0 <= j < n && i != j :: conns[i] != conns[j]
    requires Distinct(order) && forall id :: id in order <==> id in conns
    ensures |list| == |order| && Distinct(list)
    ensures forall m | 0 <= m < |order| :: order[m] in conns && list[m] == conns[order[m]]
    ensures forall id | 0 <= id < n :: id in conns && id in order
  {
    forall m | 0 <= m < |order| ensures 0 <= order[m] < n && order[m] in conns {
      var id := order[m];
      assert id in order && id in conns;
    }
    assert forall id | 0 <= id < n :: id in conns;
    list := seq(|order|, m requires 0 <= m < |order| => conns[order[m]]);
  }

  lemma Others(list: seq<Conn>, k: nat)
    requires Distinct(list) && k < |list|
    ensures forall m | 0 <= m < |list| && m != k :: list[m] != list[k]
  {
  }

  ghost predicate AreShards(ids: set<int>, n: nat) {
    forall id :: id in ids <==> 0 <= id < n
  }

  class Pool {
    var clients: map<int, Client>
    var conns: map<int, Conn>

    constructor ()
      ensures clients == map[] && conns == map[]
    {
      clients, conns := map[], map[];
    }

    /** One client and one connection of its own for each of the shards 0 to n - 1. */
    ghost predicate Serves(n: nat)
      reads this
    {
      && AreShards(clients.Keys, n) && AreShards(conns.Keys, n)
      && (forall id | 0 <= id < n :: clients[id] == Client(conns[id]))
      && forall i, j | 0 <= i < n && 0 <= j < n && i != j :: conns[i] != conns[j]
    }

    method Register(id: nat, conn: Conn)
      requires Serves(id)
      requires forall i | 0 <= i < id :: conns[i] != conn
      modifies this
      ensures Serves(id + 1) && conns == old(conns)[id := conn]
    {
      conns := conns[id := conn];
      clients := clients[id := Client(conn)];
    }

    method Len() returns (n: nat)
      ensures n == |clients|
      ensures forall k: nat :: Serves(k) ==> n == k
    {
      n := |clients|;
      forall k: nat | Serves(k) ensures n == k { ShardCount(clients.Keys, k); }
    }

    /** None stands for "shard not in pool". */
    method ClientOf(shardID: int) returns (c: Option<Client>)
      ensures c.Some? <==> shardID in clients
      ensures c.Some? ==> c.value == clients[shardID]
    {
      if shardID !in clients {
        return None;
      }
      return Some(clients[shardID]);
    }

    /** Closes every connection once, in whichever order the map yields them. */
    method Close(ghost n: nat)
      requires Serves(n)
      modifies set id | id in conns :: conns[id]
      ensures forall id | 0 <= id < n :: conns[id].closes == old(conns[id].closes) + 1
    {
      var order := AnyOrder(conns.Keys);
      ghost var list := OrderedConns(conns, order, n);
      hide Serves, Distinct;
      for k := 0 to |order|
        invariant conns == old(conns)
        invariant forall m | 0 <= m < k :: list[m].closes == old(list[m].closes) + 1
        invariant forall m | k <= m < |order| :: list[m].closes == old(list[m].closes)
      {
        Others(list, k);
        var id := order[k];
        assert id in conns && conns[id] == list[k];
        conns[id].Close();
      }
      forall id | 0 <= id < n ensures conns[id].closes == old(conns[id].closes) + 1 {
        assert id in order;
      }
    }

    /** Pings every shard; the answer lists each failing shard once, in the order in which the errors arrived. */
    method PingAll(ping: int -> bool) returns (unhealthy: seq<int>)
      ensures Distinct(unhealthy)
      ensures forall id :: id in unhealthy <==> id in clients && !ping(id)
    {
      var ids := AnyOrder(clients.Keys);
      var jobs := PingJobs(ids, clients.Keys, ping);
      var s := Run(Config(None, ToMap), jobs);
      unhealthy := s.errCh;
      PingErrors(ids, clients.Keys, ping);
      DistinctPermutation(Errors(jobs), unhealthy);
      assert forall id :: id in unhealthy <==> id in multiset(unhealthy);
      assert forall id :: id in Errors(jobs) <==> id in multiset(Errors(jobs));
    }
  }

  /** A ping fails when the shard has no client or does not answer. */
  function PingJobs(ids: seq<int>, known: set<int>, ping: int -> bool): seq<Job<int, (), int>> {
    seq(|ids|, k requires 0 <= k < |ids| =>
      Job(ids[k], 0, if ids[k] in known && ping(ids[k]) then Nothing else Failed(ids[k])))
  }

  lemma {:induction false} PingErrors(ids: seq<int>, known: set<int>, ping: int -> bool)
    requires Distinct(ids)
    ensures Distinct(Errors(PingJobs(ids, known, ping)))
    ensures forall id :: id in Errors(PingJobs(ids, known, ping)) <==> id in ids && !(id in known && ping(id))
  {
    if ids != [] {
      var init, last := ids[..|ids| - 1], ids[|ids| - 1];
      assert ids == init + [last];
      PingErrors(init, known, ping);
      assert PingJobs(ids, known, ping)[..|ids| - 1] == PingJobs(init, known, ping);
    }
  }

  lemma {:induction false} ShardCount(ids: set<int>, n: nat)
    requires AreShards(ids, n)
    ensures |ids| == n
  {
    if n == 0 {
      assert forall id :: id !in ids;
    } else {
      ShardCount(ids - {n - 1}, n - 1);
    }
  }

  /**
   * Dials every address in turn. If one of them fails, everything dialled so far is closed, exactly once, and there
   * is no pool.
   */
  method Open(addrs: seq<string>, dial: (nat, string) -> bool) returns (p: Pool?, ghost dialled: seq<Conn>)
    ensures p != null <==> forall id | 0 <= id < |addrs| :: dial(id, addrs[id])
    ensures p != null ==> fresh(p) && p.Serves(|addrs|) && |dialled| == |addrs|
    ensures p != null ==> forall id | 0 <= id < |addrs| :: p.conns[id] == dialled[id] && dialled[id].closes == 0
    ensures p == null ==> |dialled| < |addrs| && !dial(|dialled|, addrs[|dialled|])
    ensures p == null ==> forall id | 0 <= id < |dialled| :: dial(id, addrs[id]) && dialled[id].closes == 1
    ensures forall id | 0 <= id < |dialled| :: fresh(dialled[id])
    ensures forall i, j | 0 <= i < j < |dialled| :: dialled[i] != dialled[j]
  {
    var pool := new Pool();
    dialled := [];
    for id := 0 to |addrs|
      invariant fresh(pool) && pool.Serves(id) && |dialled| == id
      invariant forall i | 0 <= i < id ::
                  dial(i, addrs[i]) && pool.conns[i] == dialled[i] && fresh(dialled[i]) && dialled[i].closes == 0
    {
      if !dial(id, addrs[id]) {
        pool.Close(id);
        return null, dialled;
      }
      var conn := new Conn();
      pool.Register(id, conn);
      dialled := dialled + [conn];
    }
    return pool, dialled;
  }
}
