/** What holds of every run of the fan-out loop, whatever the schedule. */
module FanOutTheorems {
  import opened GoText
  import opened FanOut
  import opened FanOutProof

  // ---------------------------------------------------------------- sends

  lemma ErrSendPossible<K, V, E>(cfg: Config, jobs: seq<Job<K, V, E>>, s: State<K, V, E>, i: nat)
    requires Inv(cfg, jobs, s) && i < |jobs| == |s.pcs| && s.pcs[i].Reporting?
    ensures CanSend(s.errCh, |jobs|, s.closed) && jobs[i].verdict.Failed?
  {
    hide MapOk, MutexOk;
    SharesSane(cfg, jobs, s.pcs);
    RoomLeft(Shares(cfg, jobs, s.pcs), i);
    assert PcOk(cfg.sink, jobs[i].verdict, s.pcs[i]);
    assert |multiset(s.errCh)| == |s.errCh|;
  }

  lemma ItemSendPossible<K, V, E>(cfg: Config, jobs: seq<Job<K, V, E>>, s: State<K, V, E>, i: nat)
    requires Inv(cfg, jobs, s) && i < |jobs| == |s.pcs| && s.pcs[i].Sending?
    ensures CanSend(s.itemCh, |jobs|, s.closed) && jobs[i].verdict.Item?
  {
    hide MapOk, MutexOk;
    SharesSane(cfg, jobs, s.pcs);
    RoomLeft(Shares(cfg, jobs, s.pcs), i);
    assert PcOk(cfg.sink, jobs[i].verdict, s.pcs[i]);
    assert |multiset(s.itemCh)| == |s.itemCh|;
  }

  /** No send ever finds the buffer full or the channel closed. */
  lemma SendsNeverBlock<K, V, E>(cfg: Config, jobs: seq<Job<K, V, E>>, run: seq<Action>)
    requires Runs(cfg, jobs, Init(jobs), run)
    ensures var s := After(cfg, jobs, Init(jobs), run);
            && |s.pcs| == |jobs|
            && forall i | 0 <= i < |jobs| ::
                 && (s.pcs[i].Reporting? ==> CanSend(s.errCh, |jobs|, s.closed) && Enabled(cfg, jobs, s, Task(i)))
                 && (s.pcs[i].Sending? ==> CanSend(s.itemCh, |jobs|, s.closed) && Enabled(cfg, jobs, s, Task(i)))
  {
    hide Inv;
    InitOk(cfg, jobs);
    RunOk(cfg, jobs, Init(jobs), run);
    var s := After(cfg, jobs, Init(jobs), run);
    forall i: nat | i < |jobs|
      ensures s.pcs[i].Reporting? ==> CanSend(s.errCh, |jobs|, s.closed) && Enabled(cfg, jobs, s, Task(i))
      ensures s.pcs[i].Sending? ==> CanSend(s.itemCh, |jobs|, s.closed) && Enabled(cfg, jobs, s, Task(i))
    {
      if s.pcs[i].Reporting? { ErrSendPossible(cfg, jobs, s, i); }
      if s.pcs[i].Sending? { ItemSendPossible(cfg, jobs, s, i); }
    }
  }

  // ---------------------------------------------------------------- semaphore and mutex

  /** Whoever is between launch and release. */
  function Holders(pcs: seq<Pc>): set<int> {
    set i | 0 <= i < |pcs| && Held(pcs[i])
  }

  lemma HoldersOfInit(pcs: seq<Pc>, n: nat)
    requires n == |pcs| - 1
    ensures |Holders(pcs)| == |Holders(pcs[..n])| + (if Held(pcs[n]) then 1 else 0)
  {
    hide Held;
    assert Holders(pcs) == if Held(pcs[n]) then Holders(pcs[..n]) + {n} else Holders(pcs[..n]);
  }

  lemma HeldShare<K, V, E>(cfg: Config, job: Job<K, V, E>, pc: Pc)
    ensures ShareOf(cfg, job, pc).held == if Held(pc) then 1 else 0
  {
  }

  lemma {:induction false} HoldersCounted<K, V, E>(cfg: Config, jobs: seq<Job<K, V, E>>, pcs: seq<Pc>)
    requires |jobs| == |pcs|
    ensures |Holders(pcs)| == Total(cfg, jobs, pcs).held
  {
    hide ShareOf, Held;
    if pcs == [] {
      assert Shares(cfg, jobs, pcs) == [];
    } else {
      hide Holders;
      var n := |pcs| - 1;
      HoldersCounted(cfg, jobs[..n], pcs[..n]);
      HoldersOfInit(pcs, n);
      HeldShare(cfg, jobs[n], pcs[n]);
      assert Shares(cfg, jobs, pcs)[..n] == Shares(cfg, jobs[..n], pcs[..n]);
    }
  }

  lemma NobodyHolds<K, V, E>(cfg: Config, jobs: seq<Job<K, V, E>>, s: State<K, V, E>)
    requires Inv(cfg, jobs, s) && (s.main.Closing? || s.main.Done?)
    ensures Holders(s.pcs) == {} && s.mu == None
  {
    hide MapOk, CountsOk;
    assert s.mu.Some? ==> Locked(s.pcs[s.mu.value]);
  }

  /** At most cap tasks are in their critical region, at most one is inside the mutex, and the join leaves both free. */
  lemma ConcurrencyIsBounded<K, V, E>(cfg: Config, jobs: seq<Job<K, V, E>>, run: seq<Action>)
    requires Runs(cfg, jobs, Init(jobs), run)
    ensures var s := After(cfg, jobs, Init(jobs), run);
            && (cfg.cap.Some? ==> |Holders(s.pcs)| <= s.sem <= cfg.cap.value)
            && (forall i, j | 0 <= i < j < |s.pcs| :: !(Locked(s.pcs[i]) && Locked(s.pcs[j])))
            && (s.main.Closing? || s.main.Done? ==>
                  Holders(s.pcs) == {} && s.mu == None && (cfg.cap.Some? ==> s.sem == 0))
  {
    InitOk(cfg, jobs);
    RunOk(cfg, jobs, Init(jobs), run);
    var s := After(cfg, jobs, Init(jobs), run);
    HoldersCounted(cfg, jobs, s.pcs);
    if s.main.Closing? || s.main.Done? { NobodyHolds(cfg, jobs, s); }
    hide MapOk, TasksOk, MainOk, Total, Holders;
    forall i, j | 0 <= i < j < |s.pcs| ensures !(Locked(s.pcs[i]) && Locked(s.pcs[j])) {
      assert Locked(s.pcs[i]) <==> s.mu == Some(i);
      assert Locked(s.pcs[j]) <==> s.mu == Some(j);
    }
  }

  // ---------------------------------------------------------------- progress

  /** Whoever holds the mutex or waits for it, some launched task can move. */
  lemma TaskCanMove<K, V, E>(cfg: Config, jobs: seq<Job<K, V, E>>, s: State<K, V, E>, i: nat) returns (a: Action)
    requires Inv(cfg, jobs, s) && i < |s.pcs| && !s.pcs[i].Unborn? && !s.pcs[i].Gone?
    ensures Enabled(cfg, jobs, s, a)
    ensures a.Task? && a.i < |s.pcs| && (a.i == i || Locked(s.pcs[a.i]))
  {
    hide MapOk, CountsOk, MainOk;
    var k := i;
    if s.pcs[i].Locking? && s.mu.Some? {
      k := s.mu.value;
      assert Locked(s.pcs[k]);
    }
    assert PcOk(cfg.sink, jobs[k].verdict, s.pcs[k]);
    if s.pcs[k].Reporting? { ErrSendPossible(cfg, jobs, s, k); }
    if s.pcs[k].Sending? { ItemSendPossible(cfg, jobs, s, k); }
    a := Task(k);
  }

  /** When the spawner has to wait for a slot, a launched task holds one. */
  lemma FindHolder<K, V, E>(cfg: Config, jobs: seq<Job<K, V, E>>, s: State<K, V, E>) returns (i: nat)
    requires Inv(cfg, jobs, s) && s.main.Acquiring? && cfg.cap.Some? && s.sem >= cfg.cap.value > 0
    ensures i < |s.pcs| && Held(s.pcs[i])
  {
    hide MapOk, MutexOk, MainOk, TasksOk;
    InvShape(cfg, jobs, s);
    i := SomeoneHolding(Shares(cfg, jobs, s.pcs));
  }

  /** When the join has to wait, a launched task has not left. */
  lemma FindLive<K, V, E>(cfg: Config, jobs: seq<Job<K, V, E>>, s: State<K, V, E>) returns (i: nat)
    requires Inv(cfg, jobs, s) && s.main.Joining? && s.wg != 0
    ensures i < |s.pcs| && !s.pcs[i].Unborn? && !s.pcs[i].Gone?
  {
    hide MapOk, MutexOk, MainOk, TasksOk;
    InvShape(cfg, jobs, s);
    SharesSane(cfg, jobs, s.pcs);
    SumSane(Shares(cfg, jobs, s.pcs));
    i := SomeoneLive(Shares(cfg, jobs, s.pcs));
  }

  lemma SomeActionEnabled<K, V, E>(cfg: Config, jobs: seq<Job<K, V, E>>, s: State<K, V, E>) returns (a: Action)
    requires Inv(cfg, jobs, s) && !s.main.Done?
    requires cfg.cap != Some(0) || |jobs| == 0
    ensures Enabled(cfg, jobs, s, a)
  {
    hide MapOk, MutexOk, CountsOk;
    if s.main.Acquiring? && cfg.cap.Some? && s.sem >= cfg.cap.value {
      var i := FindHolder(cfg, jobs, s);
      a := TaskCanMove(cfg, jobs, s, i);
    } else if s.main.Joining? && s.wg != 0 {
      var i := FindLive(cfg, jobs, s);
      a := TaskCanMove(cfg, jobs, s, i);
    } else {
      a := Main;
    }
  }

  /** No reachable state short of the end is stuck. */
  ghost predicate NeverStuck<K, V, E>(cfg: Config, jobs: seq<Job<K, V, E>>) {
    forall run | Runs(cfg, jobs, Init(jobs), run) ::
      var s := After(cfg, jobs, Init(jobs), run);
      s.main.Done? || exists a :: Enabled(cfg, jobs, s, a)
  }

  /**
   * With nothing to do or a semaphore of capacity at least one (or none at all) the loop cannot deadlock; otherwise it
   * does.
   */
  lemma ProgressExactly<K, V, E>(cfg: Config, jobs: seq<Job<K, V, E>>)
    ensures NeverStuck(cfg, jobs) <==> cfg.cap != Some(0) || |jobs| == 0
  {
    if cfg.cap != Some(0) || |jobs| == 0 {
      forall run | Runs(cfg, jobs, Init(jobs), run)
        ensures var s := After(cfg, jobs, Init(jobs), run); s.main.Done? || exists a :: Enabled(cfg, jobs, s, a)
      {
        hide Inv, Enabled;
        InitOk(cfg, jobs);
        RunOk(cfg, jobs, Init(jobs), run);
        var s := After(cfg, jobs, Init(jobs), run);
        if !s.main.Done? { var a := SomeActionEnabled(cfg, jobs, s); }
      }
    } else {
      // The spawner adds to the wait group and then waits for a slot that will never exist.
      var init := Init(jobs);
      var stuck := MainNext(cfg, jobs, init);
      assert Runs(cfg, jobs, stuck, []);
      assert [Main][1..] == [];
      assert Runs(cfg, jobs, init, [Main]) && After(cfg, jobs, init, [Main]) == stuck;
      forall a ensures !Enabled(cfg, jobs, stuck, a) {
      }
      assert !NeverStuck(cfg, jobs);
    }
  }

  /** Every run is finite, and every complete run takes the same number of steps. */
  lemma EveryRunIsFinite<K, V, E>(cfg: Config, jobs: seq<Job<K, V, E>>, run: seq<Action>)
    requires Runs(cfg, jobs, Init(jobs), run)
    ensures |run| <= Remaining(cfg, jobs, Init(jobs))
    ensures After(cfg, jobs, Init(jobs), run).main.Done? ==> |run| == Remaining(cfg, jobs, Init(jobs))
  {
    hide Inv, Enabled, Next, Remaining;
    InitOk(cfg, jobs);
    RunOk(cfg, jobs, Init(jobs), run);
    RemainingSane(cfg, jobs, After(cfg, jobs, Init(jobs), run));
  }

  lemma RemainingSane<K, V, E>(cfg: Config, jobs: seq<Job<K, V, E>>, s: State<K, V, E>)
    requires Inv(cfg, jobs, s)
    ensures |s.pcs| == |jobs| && Remaining(cfg, jobs, s) >= 0 && (s.main.Done? ==> Remaining(cfg, jobs, s) == 0)
  {
    hide MapOk, MutexOk, CountsOk, ShareOf, TasksOk;
    InvShape(cfg, jobs, s);
    SharesSane(cfg, jobs, s.pcs);
    SumSane(Shares(cfg, jobs, s.pcs));
    if s.main.Done? { SumOfGone(cfg, jobs, s.pcs); }
  }

  // ---------------------------------------------------------------- the outcome

  ghost function GoneShare<K, V, E>(cfg: Config, job: Job<K, V, E>): Share<V, E> {
    Share(0, 0, job.bytes, 0, multiset(ErrorOf(job.verdict)),
          if cfg.sink.ToChannel? then multiset(ItemOf(job.verdict)) else multiset{})
  }

  lemma ShareOfGone<K, V, E>(cfg: Config, job: Job<K, V, E>)
    ensures ShareOf(cfg, job, Gone) == GoneShare(cfg, job)
  {
  }

  lemma {:induction false} SumOfGone<K, V, E>(cfg: Config, jobs: seq<Job<K, V, E>>, pcs: seq<Pc>)
    requires |jobs| == |pcs| && forall i | 0 <= i < |pcs| :: pcs[i].Gone?
    ensures var total := Total(cfg, jobs, pcs);
            && total.steps == 0 && total.bytes == BytesRead(jobs) && total.errs == multiset(Errors(jobs))
            && total.items == if cfg.sink.ToChannel? then multiset(Items(jobs)) else multiset{}
  {
    hide ShareOf, ErrorOf, ItemOf;
    if pcs == [] {
      assert Shares(cfg, jobs, pcs) == [];
    } else {
      var n := |pcs| - 1;
      SumOfGone(cfg, jobs[..n], pcs[..n]);
      assert Shares(cfg, jobs, pcs)[..n] == Shares(cfg, jobs[..n], pcs[..n]);
      ShareOfGone(cfg, jobs[n]);
    }
  }

  /** What is left behind at the end, in terms of the jobs alone. */
  ghost predicate Outcome<K, V, E>(cfg: Config, jobs: seq<Job<K, V, E>>, s: State<K, V, E>) {
    && multiset(s.errCh) == multiset(Errors(jobs))
    && s.tally == BytesRead(jobs)
    && (cfg.sink.ToChannel? ==> multiset(s.itemCh) == multiset(Items(jobs)))
    && (forall k | k in s.result :: Answers(jobs, k, s.result[k]))
    && (cfg.sink.ToMap? ==> forall i | 0 <= i < |jobs| && jobs[i].verdict.Item? :: jobs[i].key in s.result)
  }

  lemma DoneMap<K, V, E>(cfg: Config, jobs: seq<Job<K, V, E>>, s: State<K, V, E>)
    requires Inv(cfg, jobs, s) && s.main.Done? && cfg.sink.ToMap?
    ensures forall i | 0 <= i < |jobs| && jobs[i].verdict.Item? :: jobs[i].key in s.result
  {
    hide MutexOk, CountsOk, TasksOk;
    InvShape(cfg, jobs, s);
    forall i | 0 <= i < |jobs| && jobs[i].verdict.Item? ensures jobs[i].key in s.result {
      assert Written(cfg.sink, jobs[i].verdict, s.pcs[i]);
    }
  }

  lemma DoneChannels<K, V, E>(cfg: Config, jobs: seq<Job<K, V, E>>, s: State<K, V, E>)
    requires Inv(cfg, jobs, s) && s.main.Done?
    ensures multiset(s.errCh) == multiset(Errors(jobs)) && s.tally == BytesRead(jobs)
    ensures cfg.sink.ToChannel? ==> multiset(s.itemCh) == multiset(Items(jobs))
  {
    hide MutexOk, MapOk, TasksOk, Total;
    InvShape(cfg, jobs, s);
    SumOfGone(cfg, jobs, s.pcs);
  }

  lemma DoneOutcome<K, V, E>(cfg: Config, jobs: seq<Job<K, V, E>>, s: State<K, V, E>)
    requires Inv(cfg, jobs, s) && s.main.Done?
    ensures Outcome(cfg, jobs, s)
  {
    hide Inv, Answers;
    DoneChannels(cfg, jobs, s);
    MapHoldsAnswers(cfg, jobs, s);
    if cfg.sink.ToMap? { DoneMap(cfg, jobs, s); }
  }

  lemma MapHoldsAnswers<K, V, E>(cfg: Config, jobs: seq<Job<K, V, E>>, s: State<K, V, E>)
    requires Inv(cfg, jobs, s)
    ensures forall k | k in s.result :: Answers(jobs, k, s.result[k])
  {
    hide CountsOk, MutexOk, MainOk;
    forall k | k in s.result ensures Answers(jobs, k, s.result[k]) {
      var i :| 0 <= i < |s.pcs| && Written(cfg.sink, jobs[i].verdict, s.pcs[i]) && jobs[i].key == k
               && jobs[i].verdict.value == s.result[k];
      assert jobs[i].verdict == Item(s.result[k]);
    }
  }

  /**
   * In every reachable state each map entry is the successful answer of a job that has written it, and every job
   * that has written is in the map under its key.
   */
  lemma {:induction false} MapInvariant<K, V, E>(cfg: Config, jobs: seq<Job<K, V, E>>, run: seq<Action>)
    requires Runs(cfg, jobs, Init(jobs), run)
    ensures var s := After(cfg, jobs, Init(jobs), run);
            && |s.pcs| == |jobs| && MapOk(cfg, jobs, s.pcs, s.result)
            && forall k | k in s.result :: Answers(jobs, k, s.result[k])
  {
    hide Answers, MapOk, CountsOk, MutexOk, MainOk;
    InitOk(cfg, jobs);
    RunOk(cfg, jobs, Init(jobs), run);
    MapHoldsAnswers(cfg, jobs, After(cfg, jobs, Init(jobs), run));
  }

  /**
   * Every complete run leaves all errors and all values in the channels, in some order, and in the map an answer for
   * exactly the keys that have one.
   */
  lemma EveryScheduleDelivers<K, V, E>(cfg: Config, jobs: seq<Job<K, V, E>>, run: seq<Action>)
    requires Runs(cfg, jobs, Init(jobs), run) && After(cfg, jobs, Init(jobs), run).main.Done?
    ensures Outcome(cfg, jobs, After(cfg, jobs, Init(jobs), run))
  {
    hide Inv, Outcome;
    InitOk(cfg, jobs);
    RunOk(cfg, jobs, Init(jobs), run);
    DoneOutcome(cfg, jobs, After(cfg, jobs, Init(jobs), run));
  }

  // ---------------------------------------------------------------- an arbitrary scheduler

  /** The loop run to its end, taking any enabled action each time: its contract holds of every schedule. */
  method Run<K(==), V, E>(cfg: Config, jobs: seq<Job<K, V, E>>) returns (s: State<K, V, E>)
    requires cfg.cap != Some(0) || |jobs| == 0
    ensures s.main.Done? && s.closed && Outcome(cfg, jobs, s)
  {
    hide CountsOk, MapOk, MutexOk, MainOk, TasksOk, Outcome;
    s := Init(jobs);
    InitOk(cfg, jobs);
    RemainingSane(cfg, jobs, s);
    while !s.main.Done?
      invariant Inv(cfg, jobs, s) && |s.pcs| == |jobs| && Remaining(cfg, jobs, s) >= 0
      decreases Remaining(cfg, jobs, s)
    {
      ghost var enabled := SomeActionEnabled(cfg, jobs, s);
      var a :| Enabled(cfg, jobs, s, a);
      StepOk(cfg, jobs, s, a);
      s := Next(cfg, jobs, s, a);
      RemainingSane(cfg, jobs, s);
    }
    DoneOutcome(cfg, jobs, s);
  }
}
