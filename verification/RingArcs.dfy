/** When routing is deterministic, and how the ring divides the hash space. */
module RingArcs {
  import opened GoText
  import opened GoSort
  import opened HashRing
  import opened Sequences

  // ---------------------------------------------------------------- ties

  /** Whichever sorted arrangement the unstable sort produces, every hash value is routed alike. */
  ghost predicate RoutedAlike(raw: seq<Point>) {
    forall a: seq<Point>, b: seq<Point>, h: Hash64 ::
      Ascending(a) && multiset(a) == multiset(raw) && Ascending(b) && multiset(b) == multiset(raw) ==>
        Route(a, h) == Route(b, h)
  }

  /** Among equal hashes any point may be swapped to the front. */
  lemma SwapTied(s: seq<Point>, k: nat) returns (a: seq<Point>)
    requires Ascending(s) && k < |s|
    ensures Ascending(a) && multiset(a) == multiset(s)
    ensures FirstAtOrAfter(a, s[k].hash) < |a| && a[FirstAtOrAfter(a, s[k].hash)] == s[k]
  {
    var i := FirstAtOrAfter(s, s[k].hash);
    assert s[i].hash == s[k].hash;
    a := s[i := s[k]][k := s[i]];
    assert multiset(a) == multiset(s);
    assert forall m | 0 <= m < |s| :: a[m].hash == s[m].hash;
  }

  /** Some sorted arrangement routes p's own hash to p. */
  lemma TieWinner(raw: seq<Point>, p: Point) returns (a: seq<Point>)
    requires p in raw
    ensures Ascending(a) && multiset(a) == multiset(raw)
    ensures Route(a, p.hash) == Some(p.shardID)
  {
    var s := SortedExists(HashOf(), raw);
    SortedIsAscending(s);
    assert p in multiset(s);
    var k: nat :| k < |s| && s[k] == p;
    a := SwapTied(s, k);
  }

  /** The unstable sort is harmless exactly when no two shards have colliding points. */
  lemma DeterministicExactlyWithoutCollisions(raw: seq<Point>)
    ensures RoutedAlike(raw) <==> NoCollision(raw)
  {
    if NoCollision(raw) {
      forall a: seq<Point>, b: seq<Point>, h: Hash64
        | Ascending(a) && multiset(a) == multiset(raw) && Ascending(b) && multiset(b) == multiset(raw)
        ensures Route(a, h) == Route(b, h)
      {
        assert forall p :: p in a <==> p in multiset(a);
        assert forall p :: p in b <==> p in multiset(b);
        assert forall p :: p in raw <==> p in multiset(raw);
        assert |a| == |multiset(a)| && |b| == |multiset(b)|;
        if a != [] {
          RouteIsNearest(a, h);
          assert Nearest(b, h, a[OwnerIndex(a, h)]);
          RouteToNearest(b, h, a[OwnerIndex(a, h)]);
        }
      }
    }
    if RoutedAlike(raw) {
      forall p, q | p in raw && q in raw && p.hash == q.hash ensures p.shardID == q.shardID {
        var a := TieWinner(raw, p);
        var b := TieWinner(raw, q);
        assert Route(a, p.hash) == Route(b, p.hash);
      }
    }
  }

  function ZeroHash(): string -> Hash64 {
    (key: string) => 0
  }

  /** When everything hashes to 0, either of two shards may own the whole circle. */
  lemma CollidingShards(n: nat) returns (a: seq<Point>, b: seq<Point>)
    requires n > 0
    ensures RingFor(a, ZeroHash(), [0, 1], n) && forall h: Hash64 :: Route(a, h) == Some(0)
    ensures RingFor(b, ZeroHash(), [0, 1], n) && forall h: Hash64 :: Route(b, h) == Some(1)
    ensures !RoutedAlike(RawPoints(ZeroHash(), [0, 1], n))
  {
    a := ZeroRing(n, 0);
    b := ZeroRing(n, 1);
    var h: Hash64 := 0;
    assert Route(a, h) != Route(b, h);
  }

  lemma ZeroRing(n: nat, id: int) returns (a: seq<Point>)
    requires n > 0 && id in [0, 1]
    ensures RingFor(a, ZeroHash(), [0, 1], n) && forall h: Hash64 :: Route(a, h) == Some(id)
  {
    var hash, ids := ZeroHash(), [0, 1];
    var p := Point(0, id);
    assert hash(VnodeKey(id, 0)) == 0;
    RawPointsMembers(hash, ids, n, p);
    a := TieWinner(RawPoints(hash, ids, n), p);
    RingMembers(a, hash, ids, n);
    forall h: Hash64 ensures Route(a, h) == Some(id) { ZeroRoute(a, h); }
  }

  /** All hashes are 0, so a hash is at or past the first point or past all of them. */
  lemma ZeroRoute(points: seq<Point>, h: Hash64)
    requires points != [] && forall p | p in points :: p.hash == 0
    ensures Route(points, h) == Some(points[0].shardID)
  {
    var first := FirstAtOrAfter(points, h);
    assert points[0] in points;
    assert first < |points| ==> points[first] in points;
  }

  // ---------------------------------------------------------------- distinct virtual nodes

  /** No two virtual nodes share a key, so only the hash itself can make points collide. */
  lemma VnodeKeyInjective(id: int, i: nat, id': int, i': nat)
    requires VnodeKey(id, i) == VnodeKey(id', i')
    ensures id == id' && i == i'
  {
    FormatIntFree(id, '#');
    FormatIntFree(id', '#');
    CutUnique(FormatInt(id), '#', FormatInt(i));
    CutUnique(FormatInt(id'), '#', FormatInt(i'));
    ParseFormat(id);
    ParseFormat(id');
    ParseFormat(i);
    ParseFormat(i');
  }

  /** The hash has no collision among the keys the ring hashes. */
  ghost predicate HashInjective(hash: string -> Hash64, ids: seq<int>, n: nat) {
    forall id, id', i: nat, i': nat | id in ids && id' in ids && i < n && i' < n ::
      hash(VnodeKey(id, i)) == hash(VnodeKey(id', i')) ==> VnodeKey(id, i) == VnodeKey(id', i')
  }

  predicate Strict(points: seq<Point>) {
    forall i, j | 0 <= i < j < |points| :: points[i].hash < points[j].hash
  }

  lemma {:induction false} VnodePointsDistinct(hash: string -> Hash64, ids: seq<int>, n: nat, id: int, m: nat)
    requires HashInjective(hash, ids, n) && id in ids && m <= n
    ensures Distinct(VnodePoints(hash, id, m))
  {
    if m > 0 {
      VnodePointsDistinct(hash, ids, n, id, m - 1);
      var earlier := VnodePoints(hash, id, m - 1);
      forall p | p in earlier ensures p.hash != hash(VnodeKey(id, m - 1)) {
        var i: nat :| i < m - 1 && p.hash == hash(VnodeKey(id, i));
        if p.hash == hash(VnodeKey(id, m - 1)) { VnodeKeyInjective(id, i, id, m - 1); }
      }
    }
  }

  lemma {:induction false} RawPointsDistinct(hash: string -> Hash64, ids: seq<int>, n: nat, some: seq<int>)
    requires HashInjective(hash, ids, n) && Distinct(some)
    requires forall id | id in some :: id in ids
    ensures Distinct(RawPoints(hash, some, n))
  {
    if some != [] {
      var init, last := some[..|some| - 1], some[|some| - 1];
      RawPointsDistinct(hash, ids, n, init);
      VnodePointsDistinct(hash, ids, n, last, n);
      forall p | p in RawPoints(hash, init, n) ensures p.shardID in init {
        RawPointsMembers(hash, init, n, p);
      }
      assert last !in init;
    }
  }

  /** With distinct shards and an injective hash the ring is strictly ascending and free of collisions. */
  lemma InjectiveHashGivesStrictRing(hash: string -> Hash64, ids: seq<int>, n: nat, points: seq<Point>)
    requires RingFor(points, hash, ids, n) && Distinct(ids) && HashInjective(hash, ids, n)
    ensures Strict(points) && NoCollision(points)
  {
    RingMembers(points, hash, ids, n);
    RawPointsDistinct(hash, ids, n, ids);
    DistinctPermutation(RawPoints(hash, ids, n), points);
    forall p, q | p in points && q in points && p.hash == q.hash ensures p == q {
      assert PointOf(hash, ids, n, p) && PointOf(hash, ids, n, q);
      var i: nat :| i < n && p.hash == hash(VnodeKey(p.shardID, i));
      var j: nat :| j < n && q.hash == hash(VnodeKey(q.shardID, j));
      VnodeKeyInjective(p.shardID, i, q.shardID, j);
    }
    forall i, j | 0 <= i < j < |points| ensures points[i].hash < points[j].hash {
      assert points[i] in points && points[j] in points;
    }
  }

  // ---------------------------------------------------------------- arcs

  /** The half-open arc that ends at point i; the first one also takes the values past the last point. */
  predicate InArc(points: seq<Point>, i: nat, h: Hash64)
    requires i < |points|
  {
    if i == 0 then h <= points[0].hash || h > points[|points| - 1].hash
    else points[i - 1].hash < h <= points[i].hash
  }

  function ArcLength(points: seq<Point>, i: nat): int
    requires i < |points|
  {
    if i == 0 then points[0].hash + 1 + (TWO_64 - 1 - points[|points| - 1].hash)
    else points[i].hash - points[i - 1].hash
  }

  function ArcsLength(points: seq<Point>, n: nat): int
    requires n <= |points|
  {
    if n == 0 then 0 else ArcsLength(points, n - 1) + ArcLength(points, n - 1)
  }

  /** A hash value is routed to point i exactly when it lies in arc i: so the arcs are disjoint and cover everything. */
  lemma ArcPartition(points: seq<Point>, i: nat, h: Hash64)
    requires Strict(points) && i < |points|
    ensures OwnerIndex(points, h) == i <==> InArc(points, i, h)
  {
    var first := FirstAtOrAfter(points, h);
    if InArc(points, i, h) {
      if i > 0 {
        assert forall k | 0 <= k < i :: points[k].hash <= points[i - 1].hash;
      } else if h <= points[0].hash {
        assert first == 0;
      } else {
        assert forall k | 0 <= k < |points| :: points[k].hash <= points[|points| - 1].hash;
      }
    }
  }

  function Range(lo: int, hi: int): (r: set<int>)
    requires lo <= hi
    ensures forall h :: h in r <==> lo <= h < hi
    ensures |r| == hi - lo
    decreases hi - lo
  {
    if lo == hi then {} else Range(lo, hi - 1) + {hi - 1}
  }

  function Arc(points: seq<Point>, i: nat): set<int>
    requires i < |points|
  {
    set h: int | 0 <= h < TWO_64 && InArc(points, i, h)
  }

  lemma ArcIsRange(points: seq<Point>, i: nat)
    requires Strict(points) && 0 < i < |points|
    ensures Arc(points, i) == Range(points[i - 1].hash + 1, points[i].hash + 1)
  {
  }

  lemma FirstArcIsRanges(points: seq<Point>)
    requires points != []
    ensures Arc(points, 0) == Range(0, points[0].hash + 1) + Range(points[|points| - 1].hash + 1, TWO_64)
  {
  }

  /** The length of an arc is the number of hash values routed to its point. */
  lemma ArcCount(points: seq<Point>, i: nat)
    requires Strict(points) && i < |points|
    ensures |Arc(points, i)| == ArcLength(points, i)
  {
    if i > 0 {
      ArcIsRange(points, i);
    } else {
      FirstArcIsRanges(points);
      assert Range(0, points[0].hash + 1) !! Range(points[|points| - 1].hash + 1, TWO_64);
    }
  }

  lemma {:induction false} ArcsTelescope(points: seq<Point>, n: nat)
    requires 0 < n <= |points|
    ensures ArcsLength(points, n) == points[n - 1].hash + TWO_64 - points[|points| - 1].hash
  {
    if n > 1 {
      ArcsTelescope(points, n - 1);
    } else {
      assert ArcsLength(points, 0) == 0;
    }
  }

  /** Together the arcs are the whole circle. */
  lemma ArcsCoverTheCircle(points: seq<Point>)
    requires points != []
    ensures ArcsLength(points, |points|) == TWO_64
  {
    ArcsTelescope(points, |points|);
  }
}
