/** The consistent hash ring: the program (class Ring) and what routing by it means. */
module HashRing {
  import opened GoText
  import opened GoSort

  const TWO_64: int := 0x1_0000_0000_0000_0000

  type Hash64 = x: int | 0 <= x < 0x1_0000_0000_0000_0000

  datatype Point = Point(hash: Hash64, shardID: int)

  const DEFAULT_VNODES: nat := 150

  /** Sprintf("%d#%d", shardID, i). */
  function VnodeKey(shardID: int, i: nat): string {
    FormatInt(shardID) + ['#'] + FormatInt(i)
  }

  /** The key of a virtual node names its shard before the '#' and its number after it. */
  lemma VnodeKeyReads(shardID: int, i: nat)
    ensures match Cut(VnodeKey(shardID, i), '#')
            case None => false
            case Some((shard, node)) => ParseSigned(shard) == Some(shardID) && ParseSigned(node) == Some(i as int)
  {
    FormatIntFree(shardID, '#');
    CutUnique(FormatInt(shardID), '#', FormatInt(i));
    ParseFormat(shardID);
    ParseFormat(i);
  }

  function VnodePoints(hash: string -> Hash64, shardID: int, n: nat): (r: seq<Point>)
    ensures |r| == n
    ensures forall p ::
              p in r <==> p.shardID == shardID && exists i: nat | i < n :: p.hash == hash(VnodeKey(shardID, i))
  {
    if n == 0 then []
    else VnodePoints(hash, shardID, n - 1) + [Point(hash(VnodeKey(shardID, n - 1)), shardID)]
  }

  /** The points of the listed shards, in the order they are inserted. */
  function RawPoints(hash: string -> Hash64, shardIDs: seq<int>, n: nat): seq<Point> {
    if shardIDs == [] then []
    else RawPoints(hash, shardIDs[..|shardIDs| - 1], n) + VnodePoints(hash, shardIDs[|shardIDs| - 1], n)
  }

  lemma OneMore(k: nat, n: nat)
    ensures (k + 1) * n == k * n + n
  {
  }

  lemma {:induction false} RawPointsLength(hash: string -> Hash64, shardIDs: seq<int>, n: nat)
    ensures |RawPoints(hash, shardIDs, n)| == |shardIDs| * n
  {
    if shardIDs != [] {
      var init := shardIDs[..|shardIDs| - 1];
      RawPointsLength(hash, init, n);
      OneMore(|init|, n);
      assert |shardIDs| == |init| + 1;
    }
  }

  lemma RawPointsStep(hash: string -> Hash64, shardIDs: seq<int>, k: nat, n: nat)
    requires k < |shardIDs|
    ensures RawPoints(hash, shardIDs[..k + 1], n)
         == RawPoints(hash, shardIDs[..k], n) + VnodePoints(hash, shardIDs[k], n)
  {
    assert shardIDs[..k + 1][..k] == shardIDs[..k];
  }

  predicate PointOf(hash: string -> Hash64, shardIDs: seq<int>, n: nat, p: Point) {
    p.shardID in shardIDs && exists i: nat | i < n :: p.hash == hash(VnodeKey(p.shardID, i))
  }

  /** Which points a ring has depends on the set of shards alone. */
  lemma {:induction false} RawPointsMembers(hash: string -> Hash64, shardIDs: seq<int>, n: nat, p: Point)
    ensures p in RawPoints(hash, shardIDs, n) <==> PointOf(hash, shardIDs, n, p)
  {
    if shardIDs != [] {
      var init, last := shardIDs[..|shardIDs| - 1], shardIDs[|shardIDs| - 1];
      assert shardIDs == init + [last];
      RawPointsMembers(hash, init, n, p);
      assert p in VnodePoints(hash, last, n) <==> PointOf(hash, [last], n, p);
    }
  }

  function HashOf(): Point -> int { (p: Point) => p.hash }

  predicate Ascending(points: seq<Point>) {
    forall i, j | 0 <= i < j < |points| :: points[i].hash <= points[j].hash
  }

  lemma SortedIsAscending(points: seq<Point>)
    ensures SortedBy(HashOf(), points) <==> Ascending(points)
  {
    assert forall p: Point :: HashOf()(p) == p.hash;
  }

  /** Any ascending arrangement of the shards' points: the sort is free to order equal hashes as it likes. */
  ghost predicate RingFor(points: seq<Point>, hash: string -> Hash64, shardIDs: seq<int>, n: nat) {
    Ascending(points) && multiset(points) == multiset(RawPoints(hash, shardIDs, n))
  }

  /** The place of the first point at or after h, wrapping around to the first point of all. */
  function OwnerIndex(points: seq<Point>, h: Hash64): (i: nat)
    requires points != []
    ensures i < |points|
  {
    var first := FirstAtOrAfter(points, h);
    if first == |points| then 0 else first
  }

  function FirstAtOrAfter(points: seq<Point>, h: Hash64): (i: nat)
    ensures i <= |points|
    ensures i < |points| ==> points[i].hash >= h
    ensures forall k | 0 <= k < i :: points[k].hash < h
  {
    if points == [] || points[0].hash >= h then 0 else 1 + FirstAtOrAfter(points[1..], h)
  }

  /** On sorted points, where the test turns is where the first point at or after h is. */
  lemma TurnsAt(points: seq<Point>, h: Hash64, i: nat)
    requires Ascending(points) && i <= |points|
    requires (i > 0 ==> points[i - 1].hash < h) && (i < |points| ==> points[i].hash >= h)
    ensures i == FirstAtOrAfter(points, h)
  {
  }

  /** None stands for the panic on an empty ring. */
  function Route(points: seq<Point>, h: Hash64): Option<int> {
    if points == [] then None else Some(points[OwnerIndex(points, h)].shardID)
  }

  class Ring {
    const hash: string -> Hash64
    const vnodes: nat
    var points: seq<Point>

    constructor (hash: string -> Hash64, shardIDs: seq<int>, vnodes: int)
      ensures this.hash == hash
      ensures this.vnodes == if vnodes <= 0 then 150 else vnodes
      ensures RingFor(points, hash, shardIDs, this.vnodes)
    {
      this.hash := hash;
      this.vnodes := if vnodes <= 0 then DEFAULT_VNODES else vnodes;
      points := [];
      new;
      for k := 0 to |shardIDs|
        invariant points == RawPoints(hash, shardIDs[..k], this.vnodes)
      {
        Insert(shardIDs[k]);
        RawPointsStep(hash, shardIDs, k, this.vnodes);
      }
      assert shardIDs[..|shardIDs|] == shardIDs;
      Sort();
    }

    method Insert(shardID: int)
      modifies this`points
      ensures points == old(points) + VnodePoints(hash, shardID, vnodes)
    {
      for i := 0 to vnodes
        invariant points == old(points) + VnodePoints(hash, shardID, i)
      {
        points := points + [Point(hash(VnodeKey(shardID, i)), shardID)];
      }
    }

    method Sort()
      modifies this`points
      ensures Ascending(points) && multiset(points) == multiset(old(points))
    {
      points := SortSlice(HashOf(), points);
      SortedIsAscending(points);
    }

    method Get(key: string) returns (shard: Option<int>)
      requires Ascending(points)
      ensures shard == Route(points, hash(key))
    {
      if |points| == 0 {
        return None;
      }
      var h := hash(key);
      var ps := points;
      var idx := Search(|ps|, (i: nat) => i < |ps| && ps[i].hash >= h);
      TurnsAt(ps, h, idx);
      hide Ascending;
      if idx == |points| {
        idx := 0;
      }
      return Some(points[idx].shardID);
    }
  }

  // ---------------------------------------------------------------- what routing means

  /** How far clockwise from h to p, on a circle of 2^64 values. */
  function Distance(h: Hash64, p: Point): nat {
    (p.hash - h) % TWO_64
  }

  predicate Nearest(points: seq<Point>, h: Hash64, p: Point) {
    p in points && forall q | q in points :: Distance(h, p) <= Distance(h, q)
  }

  /** "The least hash at or after h, or the least hash of all if there is none." */
  predicate LeastAtOrAfter(points: seq<Point>, h: Hash64, p: Point) {
    && p in points
    && if exists q | q in points :: q.hash >= h
       then p.hash >= h && forall q | q in points && q.hash >= h :: p.hash <= q.hash
       else forall q | q in points :: p.hash <= q.hash
  }

  lemma DistanceCases(h: Hash64, p: Point)
    ensures Distance(h, p) == if p.hash >= h then p.hash - h else p.hash - h + TWO_64
  {
  }

  /** Clockwise-nearest and least-at-or-after-with-wrap-around are the same thing. */
  lemma NearestIsLeastAtOrAfter(points: seq<Point>, h: Hash64, p: Point)
    ensures Nearest(points, h, p) <==> LeastAtOrAfter(points, h, p)
  {
    forall q | q in points ensures Distance(h, q) == if q.hash >= h then q.hash - h else q.hash - h + TWO_64 {
      DistanceCases(h, q);
    }
    DistanceCases(h, p);
  }

  /** Binary search with wrap-around on the sorted points finds a nearest point. */
  lemma RouteIsNearest(points: seq<Point>, h: Hash64)
    requires Ascending(points) && points != []
    ensures Nearest(points, h, points[OwnerIndex(points, h)])
  {
    var i, first := OwnerIndex(points, h), FirstAtOrAfter(points, h);
    forall q | q in points ensures Distance(h, points[i]) <= Distance(h, q) {
      var k :| 0 <= k < |points| && points[k] == q;
      DistanceCases(h, points[i]);
      DistanceCases(h, q);
    }
  }

  predicate NoCollision(points: seq<Point>) {
    forall p, q | p in points && q in points && p.hash == q.hash :: p.shardID == q.shardID
  }

  /** Equally near points have equal hashes. */
  lemma DistanceInjective(h: Hash64, p: Point, q: Point)
    requires Distance(h, p) == Distance(h, q)
    ensures p.hash == q.hash
  {
    DistanceCases(h, p);
    DistanceCases(h, q);
  }

  /** Without collisions, a key's shard is that of any nearest point of any arrangement. */
  lemma RouteToNearest(points: seq<Point>, h: Hash64, p: Point)
    requires Ascending(points) && NoCollision(points) && Nearest(points, h, p)
    ensures Route(points, h) == Some(p.shardID)
  {
    RouteIsNearest(points, h);
    DistanceInjective(h, p, points[OwnerIndex(points, h)]);
  }

  lemma RingMembers(points: seq<Point>, hash: string -> Hash64, shardIDs: seq<int>, n: nat)
    requires RingFor(points, hash, shardIDs, n)
    ensures forall p :: p in points <==> PointOf(hash, shardIDs, n, p)
    ensures |points| == |shardIDs| * n
  {
    forall p ensures p in points <==> PointOf(hash, shardIDs, n, p) {
      RawPointsMembers(hash, shardIDs, n, p);
      assert p in points <==> p in multiset(points);
    }
    RawPointsLength(hash, shardIDs, n);
    assert |points| == |multiset(points)|;
  }

  // ---------------------------------------------------------------- theorems

  /** The simple definition, on the points as inserted: no sorting, no search. */
  lemma GetIsSimpleLookup(points: seq<Point>, hash: string -> Hash64, shardIDs: seq<int>, n: nat, h: Hash64)
    requires RingFor(points, hash, shardIDs, n)
    ensures Route(points, h).None? <==> shardIDs == [] || n == 0
    ensures Route(points, h).Some? ==> Route(points, h).value in shardIDs
    ensures Route(points, h).Some? ==>
              exists p: Point ::
                p.shardID == Route(points, h).value && LeastAtOrAfter(RawPoints(hash, shardIDs, n), h, p)
  {
    RingMembers(points, hash, shardIDs, n);
    if shardIDs == [] || n == 0 {
      assert |points| == 0;
    } else {
      assert PointOf(hash, shardIDs, n, Point(hash(VnodeKey(shardIDs[0], 0)), shardIDs[0]));
    }
    if points != [] {
      var p := points[OwnerIndex(points, h)];
      RouteIsNearest(points, h);
      NearestIsLeastAtOrAfter(points, h, p);
      forall q ensures q in points <==> q in RawPoints(hash, shardIDs, n) {
        RawPointsMembers(hash, shardIDs, n, q);
      }
      assert LeastAtOrAfter(RawPoints(hash, shardIDs, n), h, p);
    }
  }

  /** Neither the order nor the repetition of the shard IDs matters, nor how the sort breaks ties. */
  lemma {:induction false} OrderIndependence(
    hash: string -> Hash64, n: nat, ids: seq<int>, points: seq<Point>, ids': seq<int>, points': seq<Point>, h: Hash64)
    requires RingFor(points, hash, ids, n) && RingFor(points', hash, ids', n)
    requires forall id :: id in ids <==> id in ids'
    requires NoCollision(points)
    ensures Route(points, h) == Route(points', h)
  {
    RingMembers(points, hash, ids, n);
    RingMembers(points', hash, ids', n);
    assert forall p :: p in points <==> p in points';
    assert points == [] || points[0] in points';
    assert points' == [] || points'[0] in points;
    if points != [] {
      RouteIsNearest(points, h);
      var p := points[OwnerIndex(points, h)];
      assert Nearest(points', h, p);
      RouteToNearest(points', h, p);
    }
  }

  /** Some point of the new shard lies strictly between h and every point of the old ring. */
  ghost predicate TakenOver(points: seq<Point>, hash: string -> Hash64, n: nat, s: int, h: Hash64) {
    exists p :: PointOf(hash, [s], n, p) && forall q | q in points :: Distance(h, p) < Distance(h, q)
  }

  /**
   * Adding shard s to a ring moves exactly the keys it takes over, and moves them to s; read backwards,
   * removing s moves only keys that s owned.
   */
  lemma {:induction false} MinimalDisruption(
    hash: string -> Hash64, n: nat, ids: seq<int>, points: seq<Point>,
    s: int, ids': seq<int>, points': seq<Point>, h: Hash64)
    requires RingFor(points, hash, ids, n) && RingFor(points', hash, ids', n)
    requires points != [] && s !in ids
    requires forall id :: id in ids' <==> id in ids || id == s
    requires NoCollision(points')
    ensures Route(points', h) == if TakenOver(points, hash, n, s, h) then Some(s) else Route(points, h)
    ensures Route(points, h) != Some(s)
  {
    RingMembers(points, hash, ids, n);
    RingMembers(points', hash, ids', n);
    forall p ensures p in points' <==> p in points || PointOf(hash, [s], n, p) {
    }
    RouteIsNearest(points, h);
    var before := points[OwnerIndex(points, h)];
    assert before in points';
    if TakenOver(points, hash, n, s, h) {
      RouteIsNearest(points', h);
      var p :| PointOf(hash, [s], n, p) && forall q | q in points :: Distance(h, p) < Distance(h, q);
      var after := points'[OwnerIndex(points', h)];
      assert Distance(h, after) <= Distance(h, p);
      assert after !in points;
    } else {
      forall q | q in points' ensures Distance(h, before) <= Distance(h, q) {
        if q !in points {
          var q' :| q' in points && Distance(h, q') <= Distance(h, q);
        }
      }
      RouteToNearest(points', h, before);
    }
  }
}
