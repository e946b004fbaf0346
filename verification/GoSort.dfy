/** Go's `sort.Slice` and `sort.Search`. */
module GoSort {

  predicate SortedBy<A>(key: A -> int, s: seq<A>) {
    forall i, j | 0 <= i < j < |s| :: key(s[i]) <= key(s[j])
  }

  lemma InsertKeepsSorted<A>(key: A -> int, s: seq<A>, k: nat, a: A)
    requires SortedBy(key, s) && k <= |s|
    requires forall i | 0 <= i < k :: key(s[i]) <= key(a)
    requires k < |s| ==> key(a) <= key(s[k])
    ensures SortedBy(key, s[..k] + [a] + s[k..])
  {
    var r := s[..k] + [a] + s[k..];
    forall i, j | 0 <= i < j < |r| ensures key(r[i]) <= key(r[j]) {
      assert i < k ==> r[i] == s[i];
      assert j < k ==> r[j] == s[j];
      assert i > k ==> r[i] == s[i - 1];
      assert j > k ==> r[j] == s[j - 1];
      if k < j { assert key(a) <= key(s[k]) <= key(s[j - 1]); }
    }
  }

  lemma InsertedBag<A>(s: seq<A>, k: nat, a: A)
    requires k <= |s|
    ensures multiset(s[..k] + [a] + s[k..]) == multiset{a} + multiset(s)
  {
    assert s == s[..k] + s[k..];
  }

  /** Some sorted rearrangement exists. */
  lemma {:induction false} SortedExists<A>(key: A -> int, s: seq<A>) returns (r: seq<A>)
    ensures SortedBy(key, r) && multiset(r) == multiset(s)
  {
    if s == [] {
      r := [];
    } else {
      var rest := SortedExists(key, s[1..]);
      var k := 0;
      while k < |rest| && key(rest[k]) < key(s[0])
        invariant k <= |rest|
        invariant forall i | 0 <= i < k :: key(rest[i]) < key(s[0])
      {
        k := k + 1;
      }
      InsertKeepsSorted(key, rest, k, s[0]);
      r := rest[..k] + [s[0]] + rest[k..];
      InsertedBag(rest, k, s[0]);
      assert s == [s[0]] + s[1..];
    }
  }

  /** sort.Slice is not stable: all that is known of the result is that it is a sorted permutation. */
  method SortSlice<A(==)>(key: A -> int, s: seq<A>) returns (r: seq<A>)
    ensures SortedBy(key, r)
    ensures multiset(r) == multiset(s)
  {
    ghost var witnessed := SortedExists(key, s);
    r :| SortedBy(key, r) && multiset(r) == multiset(s);
  }

  /** sort.Search: binary search for the place where f turns from false to true. */
  method Search(n: nat, f: nat -> bool) returns (i: nat)
    ensures i <= n
    ensures i > 0 ==> !f(i - 1)
    ensures i < n ==> f(i)
    ensures (forall a, b | 0 <= a <= b < n :: f(a) ==> f(b)) ==>
              forall k: nat | k < n :: f(k) <==> i <= k
  {
    i := 0;
    var j := n;
    while i < j
      invariant i <= j <= n
      invariant i > 0 ==> !f(i - 1)
      invariant j < n ==> f(j)
    {
      var h := (i + j) / 2;
      if !f(h) {
        i := h + 1;
      } else {
        j := h;
      }
    }
    if forall a, b | 0 <= a <= b < n :: f(a) ==> f(b) {
      forall k: nat | k < n ensures f(k) <==> i <= k {
        if k < i {
          var last: nat := i - 1;
          assert f(k) ==> f(last);
        }
      }
    }
  }
}
