/** What holds of every run of LookupMany, whatever the schedule and whatever the external calls return. */
module LookupTheorems {
  import opened GoText
  import opened LookupModel
  import opened Tallies
  import opened LookupProof

  // ---------------------------------------------------------------- every step

  lemma RefTalliesUpdate(w: World, refs: seq<RefTask>, i: nat, t: RefTask)
    requires i < |refs|
    ensures Sum(RefTallies(w, refs[i := t]))
         == Plus(Minus(Sum(RefTallies(w, refs)), RefTally(w, refs[i])), RefTally(w, t))
  {
    hide RefTally;
    assert RefTallies(w, refs[i := t]) == RefTallies(w, refs)[i := RefTally(w, t)];
    SumUpdate(RefTallies(w, refs), i, RefTally(w, t));
  }

  lemma InitOk(w: World, refIDs: seq<string>)
    ensures Inv(w, refIDs, Init(refIDs))
  {
    var s := Init(refIDs);
    forall i | 0 <= i < |refIDs|
      ensures RefInv(w, s.refs[i]) && Blank(RefTally(w, s.refs[i])) && RefTally(w, s.refs[i]).found == 0
    {
      assert EntryTallies(w, i, []) == [];
    }
    SumBlank(RefTallies(w, s.refs));
    NothingFound(RefTallies(w, s.refs));
  }

  lemma {:induction false} NothingFound(ts: seq<Tally>)
    requires forall k | 0 <= k < |ts| :: ts[k].found == 0
    ensures Sum(ts).found == 0
  {
    if ts != [] { NothingFound(ts[..|ts| - 1]); }
  }

  /** Launching a ref task: its contribution gains a unit of the wait group and loses the launching step. */
  lemma SpawnTally(w: World, t: RefTask)
    requires RefInv(w, t) && t.pc.RUnborn?
    ensures var t' := t.(pc := Querying);
            && RefInv(w, t')
            && RefTally(w, t') == RefTally(w, t).(live := RefTally(w, t).live + 1, steps := RefTally(w, t).steps - 1)
  {
  }

  lemma MainStepOk(w: World, refIDs: seq<string>, s: State)
    requires Inv(w, refIDs, s) && Enabled(s, Main)
    ensures Inv(w, refIDs, Next(w, s, Main)) && Remaining(w, Next(w, s, Main)) == Remaining(w, s) - 1
  {
    match s.main
    case Spawning(next) =>
      if next < |s.refs| { SpawnOk(w, refIDs, s, next); }
    case Waiting =>
      forall i | 0 <= i < |s.refs| ensures s.refs[i].pc.RGone? {
        NobodyLive(RefTallies(w, s.refs), i);
      }
  }

  lemma SpawnOk(w: World, refIDs: seq<string>, s: State, next: nat)
    requires Inv(w, refIDs, s) && s.main == Spawning(next) && next < |s.refs|
    ensures Inv(w, refIDs, Next(w, s, Main)) && Remaining(w, Next(w, s, Main)) == Remaining(w, s) - 1
  {
    hide RefInv, RefTally, Slot, RefsOk;
    RefsOkAt(w, refIDs, s, next);
    SpawnTally(w, s.refs[next]);
    SpawnSlot(w, s.refs[next]);
    RefTalliesUpdate(w, s.refs, next, s.refs[next].(pc := Querying));
    RefsReplaced(w, refIDs, s, next, s.refs[next].(pc := Querying), Next(w, s, Main));
  }

  lemma SpawnSlot(w: World, t: RefTask)
    requires t.pc.RUnborn?
    ensures Slot(w, t.(pc := Querying)) == Slot(w, t)
  {
  }

  /** Replacing one ref task and its published slot. */
  lemma RefsReplaced(w: World, refIDs: seq<string>, s: State, i: nat, t: RefTask, s': State)
    requires RefsOk(w, refIDs, s) && i < |refIDs|
    requires s'.refs == s.refs[i := t] && RefInv(w, t) && t.i == i && t.ref == refIDs[i]
    requires |s'.perRef| == |s.perRef| && s'.perRef[i] == Slot(w, t)
    requires forall k | 0 <= k < |s.perRef| && k != i :: s'.perRef[k] == s.perRef[k]
    ensures RefsOk(w, refIDs, s')
  {
    hide RefInv, Slot;
  }

  lemma MainUnmoved(w: World, s: State, i: nat, t: RefTask, s': State)
    requires MainOk(w, s) && i < |s.refs| && s'.refs == s.refs[i := t] && s'.main == s.main
    requires !s.refs[i].pc.RUnborn? && !s.refs[i].pc.RGone? && !t.pc.RUnborn?
    ensures MainOk(w, s')
  {
  }

  lemma RefActionOk(w: World, refIDs: seq<string>, s: State, i: nat)
    requires Inv(w, refIDs, s) && Enabled(s, Ref(i))
    ensures Inv(w, refIDs, Next(w, s, Ref(i))) && Remaining(w, Next(w, s, Ref(i))) == Remaining(w, s) - 1
  {
    hide RefInv, RefTally, Slot, RefStep, RefsOk, MainOk;
    RefsOkAt(w, refIDs, s, i);
    var m := RefStep(w, s.refs[i]);
    RefStepOk(w, s.refs[i]);
    RefTalliesUpdate(w, s.refs, i, m.task);
    RefsReplaced(w, refIDs, s, i, m.task, Next(w, s, Ref(i)));
    MainUnmoved(w, s, i, m.task, Next(w, s, Ref(i)));
  }

  lemma RefsOkAt(w: World, refIDs: seq<string>, s: State, i: nat)
    requires RefsOk(w, refIDs, s) && i < |s.refs|
    ensures |s.refs| == |refIDs| == |s.perRef| && s.refs[i].i == i && s.refs[i].ref == refIDs[i]
    ensures RefInv(w, s.refs[i]) && s.perRef[i] == Slot(w, s.refs[i])
  {
    hide RefInv, Slot;
  }

  /** What a step of an entry task keeps of its ref task and adds to its contribution. */
  predicate FetcherMoveOk(w: World, t: RefTask, t': RefTask, m: Move) {
    && RefInv(w, t') && t'.i == t.i && t'.ref == t.ref && t'.pc == t.pc && (t.pc.Launching? || t.pc.Joining?)
    && Slot(w, t') == Slot(w, t)
    && RefTally(w, t').live == RefTally(w, t).live
    && RefTally(w, t').queries == RefTally(w, t).queries
    && RefTally(w, t').found == RefTally(w, t).found
    && RefTally(w, t').fetches == RefTally(w, t).fetches + m.fetches
    && RefTally(w, t').bytes == RefTally(w, t).bytes + m.bytes
    && RefTally(w, t').steps == RefTally(w, t).steps - 1
  }

  lemma FetcherLocal(w: World, t: RefTask, j: nat)
    requires RefInv(w, t) && EntryEnabled(t, j)
    ensures var m := EntryMove(w, t.i, t.ref, t.entries[j]);
            FetcherMoveOk(w, t, EntryStep(t, j, m), m)
  {
    EntryStepOk(w, t, j);
    EntryStepKeepsPc(w, t, j);
  }

  lemma FetcherReplaced(w: World, refIDs: seq<string>, s: State, i: nat, t: RefTask, m: Move, s': State)
    requires Inv(w, refIDs, s) && i < |refIDs| && FetcherMoveOk(w, s.refs[i], t, m)
    requires s' == s.(refs := s.refs[i := t],
                      counters := s.counters.(fetches := s.counters.fetches + m.fetches,
                                              bytes := s.counters.bytes + m.bytes))
    ensures Inv(w, refIDs, s') && Remaining(w, s') == Remaining(w, s) - 1
  {
    hide RefInv, RefTally, Slot;
    RefTalliesUpdate(w, s.refs, i, t);
    RefsReplaced(w, refIDs, s, i, t, s');
    MainUnmoved(w, s, i, t, s');
  }

  lemma FetcherActionOk(w: World, refIDs: seq<string>, s: State, i: nat, j: nat)
    requires Inv(w, refIDs, s) && Enabled(s, Fetcher(i, j))
    ensures Inv(w, refIDs, Next(w, s, Fetcher(i, j)))
    ensures Remaining(w, Next(w, s, Fetcher(i, j))) == Remaining(w, s) - 1
  {
    hide Remaining, FetcherMoveOk, CountersOk, MainOk;
    var t := s.refs[i];
    var m := EntryMove(w, i, t.ref, t.entries[j]);
    FetcherLocal(w, t, j);
    FetcherReplaced(w, refIDs, s, i, EntryStep(t, j, m), m, Next(w, s, Fetcher(i, j)));
  }

  lemma StepOk(w: World, refIDs: seq<string>, s: State, a: Action)
    requires Inv(w, refIDs, s) && Enabled(s, a)
    ensures Inv(w, refIDs, Next(w, s, a)) && Remaining(w, Next(w, s, a)) == Remaining(w, s) - 1
  {
    match a
    case Main => MainStepOk(w, refIDs, s);
    case Ref(i) => RefActionOk(w, refIDs, s, i);
    case Fetcher(i, j) => FetcherActionOk(w, refIDs, s, i, j);
  }

  /** The invariant holds after every run, and a run of k steps has used up exactly k of the steps there are. */
  lemma {:induction false} RunOk(w: World, refIDs: seq<string>, s: State, run: seq<Action>)
    requires Inv(w, refIDs, s) && Runs(w, s, run)
    ensures Inv(w, refIDs, After(w, s, run))
    ensures Remaining(w, After(w, s, run)) == Remaining(w, s) - |run|
    decreases |run|
  {
    hide Inv, Remaining, Next, Enabled;
    if run != [] {
      StepOk(w, refIDs, s, run[0]);
      RunOk(w, refIDs, Next(w, s, run[0]), run[1..]);
    }
  }

  // ---------------------------------------------------------------- no run gets stuck

  /** A task that is not waiting for a slot can always move. */
  lemma RefCanMove(w: World, t: RefTask) returns (a: Action)
    requires RefInv(w, t) && !t.pc.RUnborn? && !t.pc.RGone?
    ensures a == Ref(t.i) || (a.Fetcher? && a.i == t.i)
    ensures a.Ref? ==> RefEnabled(t)
    ensures a.Fetcher? ==> EntryEnabled(t, a.j)
  {
    a := Ref(t.i);
    if t.pc.Joining? && t.fetchWg != 0 {
      var tallies := EntryTallies(w, t.i, t.entries);
      LiveNonNegative(tallies);
      var j := SomeoneLive(tallies);
      if t.entries[j].pc.Waiting? && t.sem >= S3_CONCURRENCY {
        // All slots are taken: whoever holds one can go on and give it back.
        j := SomeoneHolding(tallies);
      }
      a := Fetcher(t.i, j);
    }
  }

  /** Deadlock freedom: unless the query is done, some task can take a step. */
  lemma SomeActionEnabled(w: World, refIDs: seq<string>, s: State) returns (a: Action)
    requires Inv(w, refIDs, s) && !s.main.Done?
    ensures Enabled(s, a)
  {
    a := Main;
    if s.main.Waiting? && s.wg != 0 {
      var tallies := RefTallies(w, s.refs);
      LiveNonNegative(tallies);
      var i := SomeoneLive(tallies);
      RefsOkAt(w, refIDs, s, i);
      a := RefCanMove(w, s.refs[i]);
    }
  }

  // ---------------------------------------------------------------- bounded concurrency

  lemma EntriesSane(w: World, i: nat, e: Entry)
    ensures Sane(EntryTally(w, i, e)) && EntryTally(w, i, e).found == 1
  {
  }

  lemma RefSane(w: World, t: RefTask)
    requires RefInv(w, t)
    ensures Sane(RefTally(w, t)) && RefTally(w, t).inFlight <= 32
  {
    hide RefInv, EntryTally;
    forall k | 0 <= k < |t.entries| ensures Sane(EntryTally(w, t.i, t.entries[k])) {
      EntriesSane(w, t.i, t.entries[k]);
    }
    SumSane(EntryTallies(w, t.i, t.entries));
    assert t.sem == EntriesTally(w, t).slots && t.sem <= 32 by { RefSlots(w, t); }
    BranchStepsSane(w, t.i, RangeQuery(w, t.i, t.ref));
    if t.pc.Counting? || t.pc.Branching? { BranchStepsSane(w, t.i, t.pc.reply); }
  }

  lemma RefSlots(w: World, t: RefTask)
    requires RefInv(w, t)
    ensures t.sem == EntriesTally(w, t).slots && t.sem <= 32
  {
  }

  lemma BranchStepsSane(w: World, i: nat, reply: Option<seq<Metadata>>)
    ensures BranchSteps(w, i, reply) >= 0
  {
    if reply.Some? {
      hide EntryTally;
      var unborn := FreshEntries(reply.value);
      forall k | 0 <= k < |unborn| ensures Sane(EntryTally(w, i, unborn[k])) {
        EntriesSane(w, i, unborn[k]);
      }
      SumSane(EntryTallies(w, i, unborn));
    }
  }

  /** The entry tasks between acquire and release, and those inside a GetRange call. */
  function Holders(entries: seq<Entry>): set<int> {
    set j | 0 <= j < |entries| && Holds(entries[j].pc)
  }

  function Fetchers(entries: seq<Entry>): set<int> {
    set j | 0 <= j < |entries| && entries[j].pc.Fetching?
  }

  lemma HoldersOfInit(entries: seq<Entry>, n: nat)
    requires n == |entries| - 1
    ensures |Holders(entries)| == |Holders(entries[..n])| + (if Holds(entries[n].pc) then 1 else 0)
    ensures |Fetchers(entries)| == |Fetchers(entries[..n])| + (if entries[n].pc.Fetching? then 1 else 0)
  {
    hide Holds;
    var init := entries[..n];
    assert Holders(entries) == if Holds(entries[n].pc) then Holders(init) + {n} else Holders(init);
    assert Fetchers(entries) == if entries[n].pc.Fetching? then Fetchers(init) + {n} else Fetchers(init);
  }

  lemma {:induction false} HoldersCounted(w: World, i: nat, entries: seq<Entry>)
    ensures |Holders(entries)| == Sum(EntryTallies(w, i, entries)).slots
    ensures |Fetchers(entries)| == Sum(EntryTallies(w, i, entries)).inFlight
  {
    if entries == [] {
      assert EntryTallies(w, i, entries) == [];
    } else {
      hide EntrySteps, EntryBytes, Resolve, Holds, Holders, Fetchers;
      var n := |entries| - 1;
      HoldersCounted(w, i, entries[..n]);
      HoldersOfInit(entries, n);
      assert EntryTallies(w, i, entries)[..n] == EntryTallies(w, i, entries[..n]);
    }
  }

  /** GetRange calls under way for the first n refs. */
  function InFlight(refs: seq<RefTask>, n: nat): nat
    requires n <= |refs|
  {
    if n == 0 then 0 else InFlight(refs, n - 1) + |Fetchers(refs[n - 1].entries)|
  }

  lemma {:induction false} InFlightBound(refs: seq<RefTask>, n: nat)
    requires n <= |refs| && forall i | 0 <= i < |refs| :: |Fetchers(refs[i].entries)| <= 32
    ensures InFlight(refs, n) <= 32 * n
  {
    if n > 0 { InFlightBound(refs, n - 1); }
  }

  // ---------------------------------------------------------------- the final answer

  lemma {:induction false} GoneSums(w: World, i: nat, entries: seq<Entry>, metas: seq<Metadata>, n: nat)
    requires n <= |entries| == |metas|
    requires forall k: nat | k < |entries| :: entries[k] == Entry(k, metas[k], Gone)
    ensures var sum := Sum(EntryTallies(w, i, entries[..n]));
            sum.found == n && sum.fetches == SeqFetches(metas, n) && sum.bytes == SeqBytes(w, i, metas, n)
  {
    if n == 0 {
      assert EntryTallies(w, i, []) == [];
    } else {
      hide EntrySteps, EntryBytes, Resolve;
      GoneSums(w, i, entries, metas, n - 1);
      assert EntryTallies(w, i, entries[..n])[..n - 1] == EntryTallies(w, i, entries[..n - 1]);
    }
  }

  function Counted(t: Tally): Counters {
    Counters(t.queries, t.found, t.fetches, t.bytes)
  }

  /** What a finished ref task has counted is what the sequential program counts for that ref. */
  lemma GoneTally(w: World, t: RefTask)
    requires RefInv(w, t) && t.pc.RGone?
    ensures Counted(RefTally(w, t)) == SeqRef(w, t.i, t.ref).counters
  {
    hide RangeQuery, EntryTally, SeqEvents, EntryOk;
    if t.entries == [] {
      assert EntryTallies(w, t.i, t.entries) == [];
    } else {
      var metas := RangeQuery(w, t.i, t.ref).value;
      assert forall k: nat | k < |metas| :: t.entries[k] == Entry(k, metas[k], Gone);
      GoneSums(w, t.i, t.entries, metas, |t.entries|);
      assert t.entries[..|t.entries|] == t.entries;
    }
  }

  /** When the main task is done, every result slot and every contribution is the sequential one. */
  lemma DoneRef(w: World, refIDs: seq<string>, s: State, i: nat)
    requires Inv(w, refIDs, s) && s.main.Done? && i < |refIDs|
    ensures |s.perRef| == |s.refs| == |refIDs|
    ensures s.perRef[i] == SeqPerRef(w, i, refIDs[i])
    ensures Counted(RefTally(w, s.refs[i])) == SeqRef(w, i, refIDs[i]).counters
  {
    hide RefInv, SeqPerRef, SeqRef, RefTally, CountersOk;
    RefsOkAt(w, refIDs, s, i);
    GoneTally(w, s.refs[i]);
  }

  lemma GatherStep(w: World, refIDs: seq<string>, perRef: seq<PerRef>, n: nat)
    requires 0 < n <= |refIDs| == |perRef|
    requires perRef[n - 1] == SeqPerRef(w, n - 1, refIDs[n - 1])
    requires Gathered(perRef, n - 1) == SeqLookup(w, refIDs, n - 1).events
    ensures Gathered(perRef, n) == SeqLookup(w, refIDs, n).events
  {
    hide RangeQuery, SeqEvents, SeqFetches, SeqBytes;
  }

  lemma {:induction false} EventsUpTo(w: World, refIDs: seq<string>, s: State, n: nat)
    requires Inv(w, refIDs, s) && s.main.Done? && n <= |refIDs| == |s.perRef|
    ensures Gathered(s.perRef, n) == SeqLookup(w, refIDs, n).events
  {
    hide Inv, SeqPerRef, SeqRef;
    if n > 0 {
      EventsUpTo(w, refIDs, s, n - 1);
      DoneRef(w, refIDs, s, n - 1);
      GatherStep(w, refIDs, s.perRef, n);
    }
  }

  lemma RefTalliesPrefix(w: World, refs: seq<RefTask>, n: nat)
    requires 0 < n <= |refs|
    ensures Sum(RefTallies(w, refs[..n])) == Plus(Sum(RefTallies(w, refs[..n - 1])), RefTally(w, refs[n - 1]))
  {
    hide RefTally;
    assert RefTallies(w, refs[..n])[..n - 1] == RefTallies(w, refs[..n - 1]);
  }

  lemma {:induction false} CountersUpTo(w: World, refIDs: seq<string>, s: State, n: nat)
    requires Inv(w, refIDs, s) && s.main.Done? && n <= |refIDs| == |s.refs|
    ensures Counted(Sum(RefTallies(w, s.refs[..n]))) == SeqLookup(w, refIDs, n).counters
  {
    hide Inv, RefTally, SeqRef;
    if n > 0 {
      CountersUpTo(w, refIDs, s, n - 1);
      DoneRef(w, refIDs, s, n - 1);
      RefTalliesPrefix(w, s.refs, n);
    }
  }

  lemma DoneAnswer(w: World, refIDs: seq<string>, s: State)
    requires Inv(w, refIDs, s) && s.main.Done?
    ensures Answer(s) == SeqLookup(w, refIDs, |refIDs|)
  {
    hide RefInv, RefTally, Gathered, SeqLookup;
    EventsUpTo(w, refIDs, s, |refIDs|);
    CountersUpTo(w, refIDs, s, |refIDs|);
    assert s.refs[..|refIDs|] == s.refs;
  }

  // ---------------------------------------------------------------- theorems about all runs

  /**
   * Refinement: every complete run, whatever its interleaving, returns the events of the sequential program in the
   * same order and counts what it counts. In particular the answer does not depend on the schedule.
   */
  lemma {:induction false} EveryScheduleAnswersSequentially(w: World, refIDs: seq<string>, run: seq<Action>)
    requires Runs(w, Init(refIDs), run) && After(w, Init(refIDs), run).main.Done?
    ensures Answer(After(w, Init(refIDs), run)) == SeqLookup(w, refIDs, |refIDs|)
  {
    InitOk(w, refIDs);
    RunOk(w, refIDs, Init(refIDs), run);
    DoneAnswer(w, refIDs, After(w, Init(refIDs), run));
  }

  /** In every reachable state, each ref's semaphore counts the entries that hold a slot, and there are at most 32. */
  lemma ConcurrencyIsBounded(w: World, refIDs: seq<string>, run: seq<Action>)
    requires Runs(w, Init(refIDs), run)
    ensures var s := After(w, Init(refIDs), run);
            && |s.refs| == |refIDs|
            && (forall i | 0 <= i < |s.refs| ::
                  && |Fetchers(s.refs[i].entries)| <= |Holders(s.refs[i].entries)| == s.refs[i].sem <= 32)
            && InFlight(s.refs, |s.refs|) <= 32 * |refIDs|
  {
    InitOk(w, refIDs);
    RunOk(w, refIDs, Init(refIDs), run);
    var s := After(w, Init(refIDs), run);
    forall i | 0 <= i < |s.refs|
      ensures |Fetchers(s.refs[i].entries)| <= |Holders(s.refs[i].entries)| == s.refs[i].sem <= 32
    {
      RefsOkAt(w, refIDs, s, i);
      RefSane(w, s.refs[i]);
      RefSlots(w, s.refs[i]);
      HoldersCounted(w, s.refs[i].i, s.refs[i].entries);
    }
    InFlightBound(s.refs, |s.refs|);
  }

  /**
   * No deadlock and no endless run: a run that has not finished can be extended, no run is longer than the number
   * of steps there are to begin with, and a finished run has taken them all.
   */
  lemma EveryRunFinishes(w: World, refIDs: seq<string>, run: seq<Action>)
    requires Runs(w, Init(refIDs), run)
    ensures var s := After(w, Init(refIDs), run);
            && |run| <= Remaining(w, Init(refIDs))
            && (s.main.Done? <==> forall a :: !Enabled(s, a))
            && (s.main.Done? <==> |run| == Remaining(w, Init(refIDs)))
  {
    hide Inv, Remaining, Enabled, Next;
    InitOk(w, refIDs);
    RunOk(w, refIDs, Init(refIDs), run);
    var s := After(w, Init(refIDs), run);
    RemainingSane(w, refIDs, s);
    if s.main.Done? {
      forall a ensures !Enabled(s, a) { DoneIsFinal(w, refIDs, s, a); }
    } else {
      var a := SomeActionEnabled(w, refIDs, s);
    }
  }

  lemma DoneIsFinal(w: World, refIDs: seq<string>, s: State, a: Action)
    requires Inv(w, refIDs, s) && s.main.Done?
    ensures !Enabled(s, a)
  {
    if a.Fetcher? && a.i < |s.refs| {
      RefsOkAt(w, refIDs, s, a.i);
      assert AllGone(s.refs[a.i]);
    }
  }

  lemma RemainingSane(w: World, refIDs: seq<string>, s: State)
    requires Inv(w, refIDs, s)
    ensures Remaining(w, s) >= 0 && (s.main.Done? <==> Remaining(w, s) == 0)
    ensures s.counters.fetches <= s.counters.found
  {
    forall i | 0 <= i < |s.refs| ensures Sane(RefTally(w, s.refs[i])) {
      RefsOkAt(w, refIDs, s, i);
      RefSane(w, s.refs[i]);
    }
    SumSane(RefTallies(w, s.refs));
    if s.main.Done? {
      forall i | 0 <= i < |s.refs| ensures RefTally(w, s.refs[i]).steps == 0 {
        RefsOkAt(w, refIDs, s, i);
        GoneSteps(w, s.refs[i]);
      }
      NoSteps(RefTallies(w, s.refs));
    }
  }

  lemma GoneSteps(w: World, t: RefTask)
    requires RefInv(w, t) && t.pc.RGone?
    ensures RefTally(w, t).steps == 0
  {
    NoSteps(EntryTallies(w, t.i, t.entries));
  }

  lemma {:induction false} NoSteps(ts: seq<Tally>)
    requires forall k | 0 <= k < |ts| :: ts[k].steps == 0
    ensures Sum(ts).steps == 0
  {
    if ts != [] { NoSteps(ts[..|ts| - 1]); }
  }
}
