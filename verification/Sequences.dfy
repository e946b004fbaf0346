/** Sequences as bags: what a loop over a map, a channel or a grouping may reorder, and what it cannot change. */
module Sequences {

  predicate Distinct<A(==)>(s: seq<A>) {
    forall i, j | 0 <= i < j < |s| :: s[i] != s[j]
  }

  lemma HasMember<A>(s: seq<A>)
    ensures s == [] || exists a :: a in s
  {
    if s != [] { assert s[0] in s; }
  }

  function FlatMap<A, B>(f: A -> seq<B>, s: seq<A>): seq<B> {
    if s == [] then [] else f(s[0]) + FlatMap(f, s[1..])
  }

  lemma {:induction false} FlatMapConcat<A, B>(f: A -> seq<B>, s: seq<A>, t: seq<A>)
    ensures FlatMap(f, s + t) == FlatMap(f, s) + FlatMap(f, t)
  {
    if s == [] {
      assert s + t == t;
    } else {
      assert (s + t)[1..] == s[1..] + t;
      FlatMapConcat(f, s[1..], t);
    }
  }

  lemma FlatMapCons<A, B>(f: A -> seq<B>, a: A, s: seq<A>)
    ensures FlatMap(f, [a] + s) == f(a) + FlatMap(f, s)
  {
    assert ([a] + s)[1..] == s;
  }

  lemma {:induction false} FlatMapSame<A, B>(f: A -> seq<B>, g: A -> seq<B>, s: seq<A>)
    requires forall a | a in s :: f(a) == g(a)
    ensures FlatMap(f, s) == FlatMap(g, s)
  {
    if s != [] {
      assert s[0] in s;
      FlatMapSame(f, g, s[1..]);
    }
  }

  lemma FlatMapOne<A, B>(f: A -> seq<B>, a: A)
    ensures FlatMap(f, [a]) == f(a)
  {
    assert [a][1..] == [];
  }

  lemma {:induction false} FlatMapMembers<A, B>(f: A -> seq<B>, s: seq<A>)
    ensures forall b | b in FlatMap(f, s) :: exists a :: a in s && b in f(a)
  {
    if s != [] { FlatMapMembers(f, s[1..]); }
  }

  function Without<A>(s: seq<A>, k: nat): seq<A>
    requires k < |s|
  {
    s[..k] + s[k + 1..]
  }

  lemma PullBag<A>(s: seq<A>, k: nat)
    requires k < |s|
    ensures multiset(s) == multiset{s[k]} + multiset(Without(s, k))
  {
    assert s == s[..k] + [s[k]] + s[k + 1..];
  }

  /** Taking out element k and putting it in front changes no bag. */
  lemma PullFront<A, B>(f: A -> seq<B>, s: seq<A>, k: nat)
    requires k < |s|
    ensures multiset(FlatMap(f, s)) == multiset(f(s[k])) + multiset(FlatMap(f, Without(s, k)))
  {
    hide FlatMap;
    var head, tail := s[..k], s[k + 1..];
    assert s == head + ([s[k]] + tail);
    FlatMapConcat(f, head, [s[k]] + tail);
    FlatMapConcat(f, [s[k]], tail);
    FlatMapOne(f, s[k]);
    assert FlatMap(f, s) == FlatMap(f, head) + (f(s[k]) + FlatMap(f, tail));
    FlatMapConcat(f, head, tail);
  }

  /** Reordering the input of a FlatMap only reorders its output. */
  lemma {:induction false} FlatMapPermutation<A, B>(f: A -> seq<B>, s: seq<A>, t: seq<A>)
    requires multiset(s) == multiset(t)
    ensures multiset(FlatMap(f, s)) == multiset(FlatMap(f, t))
    decreases |s|
  {
    if s == [] {
      assert |multiset(t)| == 0;
    } else {
      assert s[0] in multiset(t);
      var k :| 0 <= k < |t| && t[k] == s[0];
      PullFront(f, t, k);
      PullBag(t, k);
      PullBag(s, 0);
      assert Without(s, 0) == s[1..];
      assert multiset(s[1..]) == multiset(s) - multiset{s[0]};
      assert multiset(Without(t, k)) == multiset(t) - multiset{s[0]};
      FlatMapPermutation(f, s[1..], Without(t, k));
    }
  }

  /** Elements that contribute nothing may be left out, and the rest taken in any order. */
  lemma {:induction false} FlatMapSupport<A, B>(f: A -> seq<B>, part: seq<A>, all: seq<A>)
    requires Distinct(part) && Distinct(all)
    requires forall a | a in part :: a in all
    requires forall a | a in all && a !in part :: f(a) == []
    ensures multiset(FlatMap(f, part)) == multiset(FlatMap(f, all))
    decreases |all|
  {
    hide FlatMap;
    if all == [] {
      HasMember(part);
    } else {
      PullFront(f, all, 0);
      WithoutOne(all, 0);
      if all[0] in part {
        var k :| 0 <= k < |part| && part[k] == all[0];
        PullFront(f, part, k);
        WithoutOne(part, k);
        hide Without;
        FlatMapSupport(f, Without(part, k), Without(all, 0));
      } else {
        hide Without;
        FlatMapSupport(f, part, Without(all, 0));
      }
    }
  }

  lemma WithoutOne<A>(s: seq<A>, k: nat)
    requires k < |s| && Distinct(s)
    ensures Distinct(Without(s, k)) && |Without(s, k)| < |s|
    ensures forall a :: a in Without(s, k) <==> a in s && a != s[k]
  {
    forall a | a in s && a != s[k] ensures a in Without(s, k) {
      var i :| 0 <= i < |s| && s[i] == a;
      assert Without(s, k)[if i < k then i else i - 1] == a;
    }
  }

  lemma DistinctCount<A>(s: seq<A>, a: A)
    requires Distinct(s)
    ensures multiset(s)[a] <= 1
  {
    if a in s {
      var k :| 0 <= k < |s| && s[k] == a;
      PullBag(s, k);
      WithoutOne(s, k);
      hide Without, Distinct;
      assert a !in multiset(Without(s, k));
    }
  }

  lemma {:induction false} DistinctSize<A>(s: seq<A>, keys: set<A>)
    requires Distinct(s) && forall a :: a in s <==> a in keys
    ensures |s| == |keys|
  {
    if s == [] {
      assert keys == {};
    } else {
      var init, last := s[..|s| - 1], s[|s| - 1];
      assert s == init + [last];
      DistinctSize(init, keys - {last});
    }
  }

  lemma RepeatedCount<A>(s: seq<A>, i: nat, j: nat)
    requires i < j < |s| && s[i] == s[j]
    ensures multiset(s)[s[i]] >= 2
  {
    assert s == s[..i] + [s[i]] + s[i + 1..j] + [s[j]] + s[j + 1..];
  }

  lemma DistinctPermutation<A>(s: seq<A>, t: seq<A>)
    requires Distinct(s) && multiset(s) == multiset(t)
    ensures Distinct(t)
  {
    forall i, j | 0 <= i < j < |t| ensures t[i] != t[j] {
      DistinctCount(s, t[i]);
      if t[i] == t[j] { RepeatedCount(t, i, j); }
    }
  }

  // ---------------------------------------------------------------- grouping by a key

  /** The elements of s that have key k, in their order. */
  function OnKey<A, K(==)>(key: A -> K, s: seq<A>, k: K): (r: seq<A>)
    ensures forall a | a in r :: a in s && key(a) == k
    ensures forall a | a in s && key(a) == k :: a in r
  {
    if s == [] then []
    else (if key(s[0]) == k then [s[0]] else []) + OnKey(key, s[1..], k)
  }

  function OffKey<A, K(==)>(key: A -> K, s: seq<A>, k: K): (r: seq<A>)
    ensures forall a | a in r :: a in s && key(a) != k
  {
    if s == [] then []
    else (if key(s[0]) != k then [s[0]] else []) + OffKey(key, s[1..], k)
  }

  lemma {:induction false} OnKeyConcat<A, K>(key: A -> K, s: seq<A>, t: seq<A>, k: K)
    ensures OnKey(key, s + t, k) == OnKey(key, s, k) + OnKey(key, t, k)
  {
    if s == [] {
      assert s + t == t;
    } else {
      assert (s + t)[1..] == s[1..] + t;
      OnKeyConcat(key, s[1..], t, k);
    }
  }

  lemma {:induction false} OnKeyOffKey<A, B, K>(f: A -> seq<B>, key: A -> K, s: seq<A>, k: K)
    ensures multiset(FlatMap(f, s))
         == multiset(FlatMap(f, OnKey(key, s, k))) + multiset(FlatMap(f, OffKey(key, s, k)))
  {
    if s != [] {
      var on, off := OnKey(key, s[1..], k), OffKey(key, s[1..], k);
      OnKeyOffKey(f, key, s[1..], k);
      assert s == [s[0]] + s[1..];
      FlatMapCons(f, s[0], s[1..]);
      if key(s[0]) == k {
        assert OnKey(key, s, k) == [s[0]] + on && OffKey(key, s, k) == off;
        FlatMapCons(f, s[0], on);
      } else {
        assert OnKey(key, s, k) == on && OffKey(key, s, k) == [s[0]] + off;
        FlatMapCons(f, s[0], off);
      }
      hide FlatMap, OnKey, OffKey;
    }
  }

  lemma {:induction false} OnKeyElsewhere<A, K>(key: A -> K, s: seq<A>, k: K, other: K)
    requires k != other
    ensures OnKey(key, OffKey(key, s, k), other) == OnKey(key, s, other)
  {
    if s != [] {
      OnKeyElsewhere(key, s[1..], k, other);
      var off := OffKey(key, s[1..], k);
      if key(s[0]) == k {
        assert OffKey(key, s, k) == off;
      } else {
        assert OffKey(key, s, k) == [s[0]] + off;
        OnKeyConcat(key, [s[0]], off, other);
        OnKeyConcat(key, [s[0]], s[1..], other);
        assert [s[0]] + s[1..] == s;
      }
    }
  }

  /** Working group by group, in any order of the groups, yields the same bag as working element by element. */
  lemma {:induction false} GroupwiseIsElementwise<A, B, K>(
    f: A -> seq<B>, key: A -> K, s: seq<A>, order: seq<K>, g: K -> seq<B>)
    requires Distinct(order)
    requires forall a | a in s :: key(a) in order
    requires forall k | k in order :: multiset(g(k)) == multiset(FlatMap(f, OnKey(key, s, k)))
    ensures multiset(FlatMap(g, order)) == multiset(FlatMap(f, s))
    decreases |order|
  {
    if order == [] {
      HasMember(s);
    } else {
      var k, rest := order[0], OffKey(key, s, order[0]);
      OnKeyOffKey(f, key, s, k);
      forall other | other in order[1..]
        ensures multiset(g(other)) == multiset(FlatMap(f, OnKey(key, rest, other)))
      {
        OnKeyElsewhere(key, s, k, other);
      }
      forall a | a in rest ensures key(a) in order[1..] {
        assert key(a) in order && key(a) != order[0];
      }
      GroupwiseIsElementwise(f, key, rest, order[1..], g);
    }
  }

  // ---------------------------------------------------------------- repetitions and map iteration

  /** The elements of s without repetitions, in order of first appearance. */
  function Dedup<A(==,!new)>(s: seq<A>): (r: seq<A>)
    ensures Distinct(r)
    ensures forall a :: a in r <==> a in s
  {
    if s == [] then []
    else
      var init, last := s[..|s| - 1], s[|s| - 1];
      assert s == init + [last];
      Dedup(init) + (if last in init then [] else [last])
  }

  /** `for k := range m`: every key once, in an order the language leaves open. */
  method AnyOrder<K(==)>(keys: set<K>) returns (order: seq<K>)
    ensures Distinct(order)
    ensures forall k :: k in order <==> k in keys
  {
    order := [];
    var todo := keys;
    while todo != {}
      invariant Distinct(order)
      invariant forall k :: k in order <==> k in keys && k !in todo
      invariant todo <= keys
      decreases todo
    {
      var k :| k in todo;
      todo := todo - {k};
      order := order + [k];
    }
  }
}
