/** Start-up: from SHARD_URLS to a ring whose answers are always shards of the pool. */
module Wiring {
  import opened Config
  import opened GoText
  import opened HashRing
  import opened ShardPool
  import LookupModel

  /** 0, 1, ..., n - 1. */
  method ShardIDs(n: nat) returns (ids: array<int>)
    ensures fresh(ids) && ids.Length == n && forall i | 0 <= i < n :: ids[i] == i
  {
    ids := new int[n];
    for i := 0 to n
      invariant forall k | 0 <= k < i :: ids[k] == k
    {
      ids[i] := i;
    }
  }

  /** Every route is a shard of the pool, and there is always one. */
  ghost predicate Routable(points: seq<Point>, shards: set<int>) {
    points != [] && forall h: Hash64 :: Route(points, h).Some? && Route(points, h).value in shards
  }

  lemma WiredRing(points: seq<Point>, hash: string -> Hash64, ids: seq<int>, shards: set<int>)
    requires RingFor(points, hash, ids, DEFAULT_VNODES) && |ids| > 0
    requires forall id :: id in ids <==> id in shards
    ensures Ascending(points) && |points| == |ids| * DEFAULT_VNODES && Routable(points, shards)
  {
    RingMembers(points, hash, ids, DEFAULT_VNODES);
    forall h: Hash64 ensures Route(points, h).Some? && Route(points, h).value in shards {
      GetIsSimpleLookup(points, hash, ids, DEFAULT_VNODES, h);
    }
  }

  lemma AllShards(ids: seq<int>, n: nat, shards: set<int>)
    requires |ids| == n && AreShards(shards, n) && forall i | 0 <= i < n :: ids[i] == i
    ensures forall id :: id in ids <==> id in shards
  {
    forall id ensures id in ids <==> id in shards {
      if 0 <= id < n { assert ids[id] == id; }
    }
  }

  /** Both results are null when the configuration is rejected or a shard cannot be dialled. */
  method Start(shardURLs: string, dial: (nat, string) -> bool, hash: string -> Hash64)
    returns (ring: Ring?, pool: Pool?)
    ensures ring == null <==> pool == null
    ensures var urls := NonBlank(Split(shardURLs, ','));
            pool != null <==> urls != [] && forall id | 0 <= id < |urls| :: dial(id, urls[id])
    ensures pool != null ==>
              var n := |NonBlank(Split(shardURLs, ','))|;
              && n >= 1 && pool.Serves(n)
              && ring.hash == hash && Ascending(ring.points) && |ring.points| == 150 * n
              && RingFor(ring.points, hash, seq(n, id => id), 150)
              && Routable(ring.points, pool.clients.Keys)
  {
    hide RingFor, Routable, Ascending, NonBlank, Split;
    var urls := ParseShardURLs(shardURLs);
    if urls.None? {
      return null, null;
    }
    ghost var dialled;
    pool, dialled := Open(urls.value, dial);
    if pool == null {
      return null, null;
    }
    var n := pool.Len();
    assert pool.Serves(|urls.value|) && n == |urls.value|;
    var ids := ShardIDs(n);
    ring := new Ring(hash, ids[..], 0);
    assert ids[..] == seq(n, id => id);
    AllShards(ids[..], n, pool.clients.Keys);
    WiredRing(ring.points, hash, ids[..], pool.clients.Keys);
  }

  /** So, once wired up, a range query is never refused for want of a client. */
  lemma WiredQueriesReachTheirShard(
    w: LookupModel.World, points: seq<Point>, hash: string -> Hash64, i: nat, ref: string)
    requires Routable(points, w.pool)
    requires forall key :: w.route(key) == Route(points, hash(key)).value
    ensures LookupModel.RangeQuery(w, i, ref) == w.rangeQuery(i, w.route("ref:" + ref), ref)
  {
    assert Route(points, hash("ref:" + ref)).value in w.pool;
  }
}
