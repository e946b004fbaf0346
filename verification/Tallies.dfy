/** What a task contributes to the shared quantities, and sums of such contributions. */
module Tallies {

  /**
   * slots: semaphore slots held; inFlight: object-store calls under way; live: wait-group units owed;
   * queries, found, fetches, bytes: counted so far; steps: steps still to take.
   */
  datatype Tally = Tally(
    slots: int, inFlight: int, live: int, queries: int, found: int, fetches: int, bytes: int, steps: int)

  const ZERO := Tally(0, 0, 0, 0, 0, 0, 0, 0)

  function Plus(a: Tally, b: Tally): Tally {
    Tally(a.slots + b.slots, a.inFlight + b.inFlight, a.live + b.live, a.queries + b.queries, a.found + b.found,
          a.fetches + b.fetches, a.bytes + b.bytes, a.steps + b.steps)
  }

  function Minus(a: Tally, b: Tally): Tally {
    Tally(a.slots - b.slots, a.inFlight - b.inFlight, a.live - b.live, a.queries - b.queries, a.found - b.found,
          a.fetches - b.fetches, a.bytes - b.bytes, a.steps - b.steps)
  }

  function Sum(ts: seq<Tally>): Tally {
    if ts == [] then ZERO else Plus(Sum(ts[..|ts| - 1]), ts[|ts| - 1])
  }

  /** Changing one contribution changes the sum by the same amount. */
  lemma {:induction false} SumUpdate(ts: seq<Tally>, k: nat, t: Tally)
    requires k < |ts|
    ensures Sum(ts[k := t]) == Plus(Minus(Sum(ts), ts[k]), t)
  {
    var init := ts[..|ts| - 1];
    if k == |ts| - 1 {
      assert ts[k := t][..|ts| - 1] == init;
    } else {
      SumUpdate(init, k, t);
      assert ts[k := t][..|ts| - 1] == init[k := t];
    }
  }

  predicate Blank(t: Tally) {
    t.slots == 0 && t.inFlight == 0 && t.live == 0 && t.queries == 0 && t.fetches == 0 && t.bytes == 0
  }

  lemma {:induction false} SumBlank(ts: seq<Tally>)
    requires forall k | 0 <= k < |ts| :: Blank(ts[k])
    ensures Blank(Sum(ts))
  {
    if ts != [] {
      assert Blank(ts[|ts| - 1]);
      SumBlank(ts[..|ts| - 1]);
    }
  }

  lemma {:induction false} SumFound(ts: seq<Tally>)
    requires forall k | 0 <= k < |ts| :: ts[k].found == 1
    ensures Sum(ts).found == |ts|
  {
    if ts != [] { SumFound(ts[..|ts| - 1]); }
  }

  predicate Sane(t: Tally) {
    0 <= t.inFlight <= t.slots && 0 <= t.live && 0 <= t.fetches <= t.found && 0 <= t.steps
  }

  lemma {:induction false} SumSane(ts: seq<Tally>)
    requires forall k | 0 <= k < |ts| :: Sane(ts[k])
    ensures Sane(Sum(ts))
  {
    if ts != [] { SumSane(ts[..|ts| - 1]); }
  }

  lemma {:induction false} SumInFlight(ts: seq<Tally>, bound: nat)
    requires forall k | 0 <= k < |ts| :: ts[k].inFlight <= bound
    ensures Sum(ts).inFlight <= bound * |ts|
  {
    if ts != [] {
      var init := ts[..|ts| - 1];
      SumInFlight(init, bound);
      assert bound * |ts| == bound * |init| + bound;
    }
  }

  /** A positive count has a task behind it. */
  lemma {:induction false} SomeoneLive(ts: seq<Tally>) returns (k: nat)
    requires Sum(ts).live > 0
    ensures k < |ts| && ts[k].live > 0
  {
    if ts[|ts| - 1].live > 0 {
      k := |ts| - 1;
    } else {
      k := SomeoneLive(ts[..|ts| - 1]);
    }
  }

  lemma {:induction false} SomeoneHolding(ts: seq<Tally>) returns (k: nat)
    requires Sum(ts).slots > 0
    ensures k < |ts| && ts[k].slots > 0
  {
    if ts[|ts| - 1].slots > 0 {
      k := |ts| - 1;
    } else {
      k := SomeoneHolding(ts[..|ts| - 1]);
    }
  }

  /** When nothing is owed, no task owes anything. */
  lemma {:induction false} NobodyLive(ts: seq<Tally>, k: nat)
    requires forall m | 0 <= m < |ts| :: ts[m].live >= 0
    requires Sum(ts).live <= 0 && k < |ts|
    ensures ts[k].live == 0
  {
    LiveNonNegative(ts[..|ts| - 1]);
    if k < |ts| - 1 { NobodyLive(ts[..|ts| - 1], k); }
  }

  lemma {:induction false} LiveNonNegative(ts: seq<Tally>)
    requires forall m | 0 <= m < |ts| :: ts[m].live >= 0
    ensures Sum(ts).live >= 0
  {
    if ts != [] { LiveNonNegative(ts[..|ts| - 1]); }
  }
}
