/** When the map that the fan-out loop fills does not depend on the schedule. */
module FanOutOrder {
  import opened FanOut
  import opened FanOutProof
  import opened FanOutTheorems

  ghost predicate Complete<K, V, E>(cfg: Config, jobs: seq<Job<K, V, E>>, run: seq<Action>) {
    Runs(cfg, jobs, Init(jobs), run) && After(cfg, jobs, Init(jobs), run).main.Done?
  }

  /** All complete runs leave the same map. */
  ghost predicate MapIsFixed<K, V, E>(cfg: Config, jobs: seq<Job<K, V, E>>) {
    forall run, run' | Complete(cfg, jobs, run) && Complete(cfg, jobs, run') ::
      After(cfg, jobs, Init(jobs), run).result == After(cfg, jobs, Init(jobs), run').result
  }

  /** Jobs for the same key that yield anything yield the same. */
  ghost predicate AnswersAgree<K, V, E>(jobs: seq<Job<K, V, E>>) {
    forall i, j | 0 <= i < |jobs| && 0 <= j < |jobs| && jobs[i].key == jobs[j].key
                  && jobs[i].verdict.Item? && jobs[j].verdict.Item? :: jobs[i].verdict == jobs[j].verdict
  }

  predicate OneSlot(cfg: Config) {
    cfg.cap.Some? && cfg.cap.value <= 1
  }

  // ---------------------------------------------------------------- one slot: the last job in order wins

  function WithAnswer<K, V, E>(result: map<K, V>, job: Job<K, V, E>): map<K, V> {
    if job.verdict.Item? then result[job.key := job.verdict.value] else result
  }

  /** The answers of the first n jobs, written in their order. */
  function Fold<K, V, E>(jobs: seq<Job<K, V, E>>, n: nat): map<K, V>
    requires n <= |jobs|
  {
    if n == 0 then map[] else WithAnswer(Fold(jobs, n - 1), jobs[n - 1])
  }

  /** How many tasks have been launched. */
  function Launched(main: MainPc, n: nat): nat {
    match main
    case Adding(next) => next
    case Acquiring(next) => next
    case Launching(next) => next
    case _ => n
  }

  predicate Settled(pc: Pc) { pc.Unlocking? || Ended(pc) }

  /** Every task but the youngest has given its slot back, and the map holds what the settled ones have written. */
  ghost predicate InOrder<K, V, E>(jobs: seq<Job<K, V, E>>, s: State<K, V, E>)
    requires |s.pcs| == |jobs|
  {
    var n := Launched(s.main, |jobs|);
    && n <= |jobs|
    && (forall i | 0 <= i < n - 1 :: s.pcs[i].Leaving? || s.pcs[i].Gone?)
    && s.result == if n == 0 then map[] else if Settled(s.pcs[n - 1]) then Fold(jobs, n) else Fold(jobs, n - 1)
  }

  /** A launch with the only slot finds no other task holding one. */
  lemma AloneAtLaunch<K, V, E>(cfg: Config, jobs: seq<Job<K, V, E>>, s: State<K, V, E>)
    requires Inv(cfg, jobs, s) && OneSlot(cfg) && s.main.Launching?
    ensures forall i | 0 <= i < |s.pcs| :: !Held(s.pcs[i])
  {
    hide MapOk, MutexOk, MainOk, TasksOk, Held, Total;
    InvShape(cfg, jobs, s);
    HoldersCounted(cfg, jobs, s.pcs);
    assert Holders(s.pcs) == {};
    forall i | 0 <= i < |s.pcs| ensures !Held(s.pcs[i]) { assert i !in Holders(s.pcs); }
  }

  lemma MainKeepsOrder<K, V, E>(cfg: Config, jobs: seq<Job<K, V, E>>, s: State<K, V, E>)
    requires Inv(cfg, jobs, s) && OneSlot(cfg) && |s.pcs| == |jobs| && InOrder(jobs, s) && Enabled(cfg, jobs, s, Main)
    ensures |MainNext(cfg, jobs, s).pcs| == |jobs| && InOrder(jobs, MainNext(cfg, jobs, s))
  {
    hide MapOk, MutexOk, TasksOk, CountsOk;
    if s.main.Launching? { AloneAtLaunch(cfg, jobs, s); }
  }

  lemma TaskKeepsOrder<K, V, E>(cfg: Config, jobs: seq<Job<K, V, E>>, s: State<K, V, E>, i: nat)
    requires Inv(cfg, jobs, s) && |s.pcs| == |jobs| && InOrder(jobs, s) && Enabled(cfg, jobs, s, Task(i))
    requires cfg.sink.ToMap?
    ensures |TaskNext(cfg, jobs, s, i).pcs| == |jobs| && InOrder(jobs, TaskNext(cfg, jobs, s, i))
  {
    hide MapOk, MutexOk, CountsOk, TaskNext, Enabled, Fold, Settled, Following;
    TaskFields(cfg, jobs, s, i);
    var n := Launched(s.main, |jobs|);
    assert i < n;
    YoungestStep(cfg, jobs[i], s.pcs[i]);
    FoldStep(jobs, n);
  }

  lemma FoldStep<K, V, E>(jobs: seq<Job<K, V, E>>, n: nat)
    requires 0 < n <= |jobs|
    ensures Fold(jobs, n) == WithAnswer(Fold(jobs, n - 1), jobs[n - 1])
  {
  }

  /** What a step does to the place of a task: it settles by writing its answer, or without one to write. */
  lemma YoungestStep<K, V, E>(cfg: Config, job: Job<K, V, E>, pc: Pc)
    requires PcOk(cfg.sink, job.verdict, pc) && cfg.sink.ToMap? && !pc.Unborn? && !pc.Gone?
    ensures var pc' := Following(cfg.sink, job.verdict, pc);
            && (Settled(pc) ==> !pc.Writing? && Settled(pc'))
            && (!Settled(pc) && Settled(pc') ==> (pc.Writing? <==> job.verdict.Item?))
            && (pc.Writing? ==> job.verdict.Item? && Settled(pc'))
            && (pc.Leaving? ==> pc'.Gone?)
  {
  }

  lemma {:induction false} RunKeepsOrder<K, V, E>(
    cfg: Config, jobs: seq<Job<K, V, E>>, s: State<K, V, E>, run: seq<Action>)
    requires Inv(cfg, jobs, s) && OneSlot(cfg) && cfg.sink.ToMap? && |s.pcs| == |jobs| && InOrder(jobs, s)
    requires Runs(cfg, jobs, s, run)
    ensures |After(cfg, jobs, s, run).pcs| == |jobs| && InOrder(jobs, After(cfg, jobs, s, run))
    decreases |run|
  {
    hide Inv, InOrder, Enabled, MainNext, TaskNext;
    if run != [] {
      StepOk(cfg, jobs, s, run[0]);
      match run[0] {
        case Main => MainKeepsOrder(cfg, jobs, s);
        case Task(i) => TaskKeepsOrder(cfg, jobs, s, i);
      }
      RunKeepsOrder(cfg, jobs, Next(cfg, jobs, s, run[0]), run[1..]);
    }
  }

  /** With a single slot every complete run leaves the answers written in the order of the jobs. */
  lemma OneSlotWritesInOrder<K, V, E>(cfg: Config, jobs: seq<Job<K, V, E>>, run: seq<Action>)
    requires OneSlot(cfg) && cfg.sink.ToMap? && Complete(cfg, jobs, run)
    ensures After(cfg, jobs, Init(jobs), run).result == Fold(jobs, |jobs|)
  {
    hide Inv, Fold, Settled;
    InitOk(cfg, jobs);
    RunOk(cfg, jobs, Init(jobs), run);
    RunKeepsOrder(cfg, jobs, Init(jobs), run);
    hide InOrder;
    DoneInOrder(cfg, jobs, After(cfg, jobs, Init(jobs), run));
  }

  lemma DoneInOrder<K, V, E>(cfg: Config, jobs: seq<Job<K, V, E>>, s: State<K, V, E>)
    requires Inv(cfg, jobs, s) && |s.pcs| == |jobs| && InOrder(jobs, s) && s.main.Done?
    ensures s.result == Fold(jobs, |jobs|)
  {
    hide CountsOk, MapOk, MutexOk, TasksOk;
  }

  // ---------------------------------------------------------------- two slots: any job may be the last to write

  /** Everyone but task d has left. */
  predicate Alone(pcs: seq<Pc>, d: nat) {
    forall i | 0 <= i < |pcs| && i != d :: pcs[i].Gone?
  }

  predicate Early(pc: Pc) { pc.Unborn? || pc.Working? || pc.Counting? || pc.Locking? }

  /** Task d takes the mutex only when everyone else has left, so that its answer stays in the map. */
  ghost predicate Late<K, V, E>(jobs: seq<Job<K, V, E>>, s: State<K, V, E>, d: nat)
    requires d < |jobs| == |s.pcs| && jobs[d].verdict.Item?
  {
    || Early(s.pcs[d])
    || (Alone(s.pcs, d)
        && (|| s.pcs[d].Writing?
            || (Settled(s.pcs[d]) && jobs[d].key in s.result && s.result[jobs[d].key] == jobs[d].verdict.value)))
  }

  ghost predicate Patient<K, V, E>(s: State<K, V, E>, d: nat, a: Action)
    requires d < |s.pcs|
  {
    a == Task(d) && s.pcs[d].Locking? ==> Alone(s.pcs, d)
  }

  lemma LateMainStep<K, V, E>(cfg: Config, jobs: seq<Job<K, V, E>>, s: State<K, V, E>, d: nat)
    requires Inv(cfg, jobs, s) && d < |jobs| == |s.pcs| && jobs[d].verdict.Item? && Late(jobs, s, d)
    requires Enabled(cfg, jobs, s, Main)
    ensures |MainNext(cfg, jobs, s).pcs| == |jobs| && Late(jobs, MainNext(cfg, jobs, s), d)
  {
    hide MapOk, MutexOk, CountsOk, TasksOk;
    if s.main.Launching? { assert s.pcs[s.main.next].Unborn?; }
  }

  lemma LateTaskStep<K, V, E>(cfg: Config, jobs: seq<Job<K, V, E>>, s: State<K, V, E>, d: nat, i: nat)
    requires Inv(cfg, jobs, s) && d < |jobs| == |s.pcs| && jobs[d].verdict.Item? && Late(jobs, s, d)
    requires cfg.sink.ToMap? && Enabled(cfg, jobs, s, Task(i)) && Patient(s, d, Task(i))
    ensures |TaskNext(cfg, jobs, s, i).pcs| == |jobs| && Late(jobs, TaskNext(cfg, jobs, s, i), d)
  {
    TaskFields(cfg, jobs, s, i);
    assert PcOk(cfg.sink, jobs[i].verdict, s.pcs[i]);
    hide MapOk, MutexOk, CountsOk, TasksOk, MainOk, TaskNext, Enabled;
  }

  lemma OtherHolder<K, V, E>(cfg: Config, jobs: seq<Job<K, V, E>>, s: State<K, V, E>, d: nat) returns (k: nat)
    requires Inv(cfg, jobs, s) && d < |s.pcs| && Held(s.pcs[d])
    requires s.main.Acquiring? && cfg.cap.Some? && s.sem >= cfg.cap.value >= 2
    ensures k < |s.pcs| && k != d && Held(s.pcs[k])
  {
    hide MapOk, MutexOk, MainOk, TasksOk, Held, Total;
    InvShape(cfg, jobs, s);
    HoldersCounted(cfg, jobs, s.pcs);
    var others := Holders(s.pcs) - {d};
    assert |others| > 0;
    var other :| other in others;
    k := other;
  }

  /** Another task that is under way can always move without task d. */
  lemma OtherCanMove<K, V, E>(cfg: Config, jobs: seq<Job<K, V, E>>, s: State<K, V, E>, d: nat, k: nat)
    returns (a: Action)
    requires Inv(cfg, jobs, s) && d < |s.pcs| && s.pcs[d].Locking?
    requires k < |s.pcs| && k != d && !s.pcs[k].Unborn? && !s.pcs[k].Gone?
    ensures Enabled(cfg, jobs, s, a) && a != Task(d)
  {
    hide Inv;
    a := TaskCanMove(cfg, jobs, s, k);
  }

  /** As long as there are two slots, task d need not take the mutex before everyone else has left. */
  lemma PatientAction<K, V, E>(cfg: Config, jobs: seq<Job<K, V, E>>, s: State<K, V, E>, d: nat) returns (a: Action)
    requires Inv(cfg, jobs, s) && !s.main.Done? && !OneSlot(cfg)
    requires d < |s.pcs| == |jobs| && jobs[d].verdict.Item?
    ensures Enabled(cfg, jobs, s, a) && Patient(s, d, a)
  {
    hide MapOk, CountsOk, TasksOk;
    if !s.pcs[d].Locking? {
      a := SomeActionEnabled(cfg, jobs, s);
    } else if Enabled(cfg, jobs, s, Main) {
      a := Main;
    } else if s.main.Acquiring? {
      var k := OtherHolder(cfg, jobs, s, d);
      a := OtherCanMove(cfg, jobs, s, d, k);
    } else if Alone(s.pcs, d) {
      assert s.mu.Some? ==> Locked(s.pcs[s.mu.value]);
      a := Task(d);
    } else {
      var k: nat :| k < |s.pcs| && k != d && !s.pcs[k].Gone?;
      a := OtherCanMove(cfg, jobs, s, d, k);
    }
  }

  lemma {:induction false} FinishLate<K, V, E>(cfg: Config, jobs: seq<Job<K, V, E>>, s: State<K, V, E>, d: nat)
    returns (run: seq<Action>)
    requires Inv(cfg, jobs, s) && cfg.sink.ToMap? && !OneSlot(cfg)
    requires d < |jobs| == |s.pcs| && jobs[d].verdict.Item? && Late(jobs, s, d)
    ensures Runs(cfg, jobs, s, run)
    ensures var s' := After(cfg, jobs, s, run);
            s'.main.Done? && jobs[d].key in s'.result && s'.result[jobs[d].key] == jobs[d].verdict.value
    decreases Remaining(cfg, jobs, s)
  {
    RemainingSane(cfg, jobs, s);
    if s.main.Done? {
      run := [];
      AllGone(cfg, jobs, s);
    } else {
      hide Inv, Late, Enabled, MainNext, TaskNext, Remaining, Patient;
      var a := PatientAction(cfg, jobs, s, d);
      var next := Next(cfg, jobs, s, a);
      StepOk(cfg, jobs, s, a);
      match a {
        case Main => LateMainStep(cfg, jobs, s, d);
        case Task(i) => LateTaskStep(cfg, jobs, s, d, i);
      }
      RemainingSane(cfg, jobs, next);
      var rest := FinishLate(cfg, jobs, next, d);
      run := [a] + rest;
      assert run[1..] == rest;
    }
  }

  lemma AllGone<K, V, E>(cfg: Config, jobs: seq<Job<K, V, E>>, s: State<K, V, E>)
    requires Inv(cfg, jobs, s) && s.main.Done?
    ensures forall i | 0 <= i < |s.pcs| :: s.pcs[i].Gone?
  {
    hide MapOk, CountsOk, MutexOk, TasksOk;
  }

  /** Unless there is only one slot, any job with an answer is the last to write in some complete run. */
  lemma AnyoneMayBeLast<K, V, E>(cfg: Config, jobs: seq<Job<K, V, E>>, d: nat) returns (run: seq<Action>)
    requires cfg.sink.ToMap? && !OneSlot(cfg) && d < |jobs| && jobs[d].verdict.Item?
    ensures Complete(cfg, jobs, run)
    ensures var s := After(cfg, jobs, Init(jobs), run);
            jobs[d].key in s.result && s.result[jobs[d].key] == jobs[d].verdict.value
  {
    hide Inv;
    InitOk(cfg, jobs);
    run := FinishLate(cfg, jobs, Init(jobs), d);
  }

  // ---------------------------------------------------------------- the exact condition

  lemma AgreeingAnswersFixTheMap<K, V, E>(
    cfg: Config, jobs: seq<Job<K, V, E>>, s: State<K, V, E>, s': State<K, V, E>)
    requires AnswersAgree(jobs) && cfg.sink.ToMap? && Outcome(cfg, jobs, s) && Outcome(cfg, jobs, s')
    ensures s.result == s'.result
  {
    forall k ensures k in s.result <==> k in s'.result
             ensures k in s.result && k in s'.result ==> s.result[k] == s'.result[k] {
      assert k in s.result ==> Answers(jobs, k, s.result[k]);
      assert k in s'.result ==> Answers(jobs, k, s'.result[k]);
    }
  }

  /** The map does not depend on the schedule exactly when the answers agree or there is a single slot. */
  lemma MapIsFixedExactly<K, V, E>(cfg: Config, jobs: seq<Job<K, V, E>>)
    requires cfg.sink.ToMap?
    ensures MapIsFixed(cfg, jobs) <==> AnswersAgree(jobs) || OneSlot(cfg)
  {
    hide Outcome, Runs, After;
    if OneSlot(cfg) {
      forall run | Complete(cfg, jobs, run)
        ensures After(cfg, jobs, Init(jobs), run).result == Fold(jobs, |jobs|)
      {
        OneSlotWritesInOrder(cfg, jobs, run);
      }
    } else if AnswersAgree(jobs) {
      forall run, run' | Complete(cfg, jobs, run) && Complete(cfg, jobs, run')
        ensures After(cfg, jobs, Init(jobs), run).result == After(cfg, jobs, Init(jobs), run').result
      {
        EveryScheduleDelivers(cfg, jobs, run);
        EveryScheduleDelivers(cfg, jobs, run');
        AgreeingAnswersFixTheMap(cfg, jobs, After(cfg, jobs, Init(jobs), run), After(cfg, jobs, Init(jobs), run'));
      }
    } else {
      var i, j :| 0 <= i < |jobs| && 0 <= j < |jobs| && jobs[i].key == jobs[j].key
                  && jobs[i].verdict.Item? && jobs[j].verdict.Item? && jobs[i].verdict != jobs[j].verdict;
      var run := AnyoneMayBeLast(cfg, jobs, i);
      var run' := AnyoneMayBeLast(cfg, jobs, j);
      assert After(cfg, jobs, Init(jobs), run).result != After(cfg, jobs, Init(jobs), run').result;
    }
  }
}
