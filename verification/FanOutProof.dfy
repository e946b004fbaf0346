/** What every step of the fan-out loop keeps. */
module FanOutProof {
  import opened GoText
  import opened FanOut

  /** One task's part in the shared quantities. */
  datatype Share<V, E> = Share(
    live: int, held: int, bytes: int, steps: int, errs: multiset<E>, items: multiset<V>)

  ghost function Plus<V, E>(a: Share<V, E>, b: Share<V, E>): Share<V, E> {
    Share(a.live + b.live, a.held + b.held, a.bytes + b.bytes, a.steps + b.steps, a.errs + b.errs, a.items + b.items)
  }

  ghost function Sum<V, E>(ts: seq<Share<V, E>>): Share<V, E> {
    if ts == [] then Share(0, 0, 0, 0, multiset{}, multiset{}) else Plus(Sum(ts[..|ts| - 1]), ts[|ts| - 1])
  }

  lemma PlusSwap<V, E>(a: Share<V, E>, b: Share<V, E>, c: Share<V, E>)
    ensures Plus(Plus(a, b), c) == Plus(Plus(a, c), b)
  {
    assert a.errs + b.errs + c.errs == a.errs + c.errs + b.errs;
    assert a.items + b.items + c.items == a.items + c.items + b.items;
  }

  /** Everyone's share but one. */
  ghost function Rest<V, E>(ts: seq<Share<V, E>>, k: nat): Share<V, E>
    requires k < |ts|
  {
    var init, last := ts[..|ts| - 1], ts[|ts| - 1];
    if k == |ts| - 1 then Sum(init) else Plus(Rest(init, k), last)
  }

  lemma {:induction false} SumRest<V, E>(ts: seq<Share<V, E>>, k: nat, t: Share<V, E>)
    requires k < |ts|
    ensures Sum(ts[k := t]) == Plus(Rest(ts, k), t)
  {
    hide Plus;
    var init, last := ts[..|ts| - 1], ts[|ts| - 1];
    if k == |ts| - 1 {
      assert ts[k := t][..|ts| - 1] == init;
    } else {
      SumRest(init, k, t);
      assert ts[k := t][..|ts| - 1] == init[k := t];
      PlusSwap(Rest(init, k), t, last);
    }
  }

  // ---------------------------------------------------------------- shares

  predicate Held(pc: Pc) { !pc.Unborn? && !pc.Leaving? && !pc.Gone? }

  predicate Ended(pc: Pc) { pc.Releasing? || pc.Leaving? || pc.Gone? }

  /** The steps a task is still to take, with the three that launch it. */
  function StepsLeft<V, E>(sink: Sink, verdict: Verdict<V, E>, pc: Pc): int {
    match pc
    case Unborn => 5 + StepsFrom(sink, verdict)
    case Working => 2 + StepsFrom(sink, verdict)
    case Counting => 1 + StepsFrom(sink, verdict)
    case Reporting => 3
    case Locking => 5
    case Writing => 4
    case Unlocking => 3
    case Sending => 3
    case Releasing => 2
    case Leaving => 1
    case Gone => 0
  }

  function StepsFrom<V, E>(sink: Sink, verdict: Verdict<V, E>): int {
    match verdict
    case Failed(_) => 3
    case Item(_) => if sink.ToMap? then 5 else 3
    case Nothing => 2
  }

  ghost function ShareOf<K, V, E>(cfg: Config, job: Job<K, V, E>, pc: Pc): Share<V, E> {
    Share(if pc.Unborn? || pc.Gone? then 0 else 1,
          if Held(pc) then 1 else 0,
          if pc.Unborn? || pc.Working? || pc.Counting? then 0 else job.bytes,
          StepsLeft(cfg.sink, job.verdict, pc),
          if job.verdict.Failed? && Ended(pc) then multiset{job.verdict.error} else multiset{},
          if job.verdict.Item? && cfg.sink.ToChannel? && Ended(pc) then multiset{job.verdict.value} else multiset{})
  }

  ghost function Shares<K, V, E>(cfg: Config, jobs: seq<Job<K, V, E>>, pcs: seq<Pc>): seq<Share<V, E>>
    requires |jobs| == |pcs|
  {
    seq(|pcs|, k requires 0 <= k < |pcs| => ShareOf(cfg, jobs[k], pcs[k]))
  }

  ghost function Total<K, V, E>(cfg: Config, jobs: seq<Job<K, V, E>>, pcs: seq<Pc>): Share<V, E>
    requires |jobs| == |pcs|
  {
    Sum(Shares(cfg, jobs, pcs))
  }

  lemma TotalUpdate<K, V, E>(cfg: Config, jobs: seq<Job<K, V, E>>, pcs: seq<Pc>, i: nat, pc: Pc)
    requires i < |jobs| == |pcs|
    ensures Total(cfg, jobs, pcs) == Plus(Rest(Shares(cfg, jobs, pcs), i), ShareOf(cfg, jobs[i], pcs[i]))
    ensures Total(cfg, jobs, pcs[i := pc]) == Plus(Rest(Shares(cfg, jobs, pcs), i), ShareOf(cfg, jobs[i], pc))
  {
    hide ShareOf, Plus;
    var ts := Shares(cfg, jobs, pcs);
    SumRest(ts, i, ShareOf(cfg, jobs[i], pcs[i]));
    assert ts[i := ShareOf(cfg, jobs[i], pcs[i])] == ts;
    SumRest(ts, i, ShareOf(cfg, jobs[i], pc));
    assert Shares(cfg, jobs, pcs[i := pc]) == ts[i := ShareOf(cfg, jobs[i], pc)];
  }

  /** What a task's next step adds to the two channels. */
  function ErrSent<V, E>(verdict: Verdict<V, E>, pc: Pc): seq<E> {
    if pc.Reporting? && verdict.Failed? then [verdict.error] else []
  }

  function ItemSent<V, E>(verdict: Verdict<V, E>, pc: Pc): seq<V> {
    if pc.Sending? && verdict.Item? then [verdict.value] else []
  }

  lemma ShareBags<K, V, E>(cfg: Config, job: Job<K, V, E>, pc: Pc)
    requires PcOk(cfg.sink, job.verdict, pc) && !pc.Unborn? && !pc.Gone?
    ensures var before, after := ShareOf(cfg, job, pc), ShareOf(cfg, job, Following(cfg.sink, job.verdict, pc));
            && after.errs == before.errs + multiset(ErrSent(job.verdict, pc))
            && after.items == before.items + multiset(ItemSent(job.verdict, pc))
  {
    hide StepsLeft;
  }

  lemma ShareNumbers<K, V, E>(cfg: Config, job: Job<K, V, E>, pc: Pc)
    requires PcOk(cfg.sink, job.verdict, pc) && !pc.Unborn? && !pc.Gone?
    ensures var before, after := ShareOf(cfg, job, pc), ShareOf(cfg, job, Following(cfg.sink, job.verdict, pc));
            && after.live == before.live - (if pc.Leaving? then 1 else 0)
            && after.held == before.held - (if pc.Releasing? then 1 else 0)
            && after.bytes == before.bytes + (if pc.Counting? then job.bytes else 0)
  {
    hide StepsLeft, Ended;
  }

  lemma StepUsedUp<V, E>(sink: Sink, verdict: Verdict<V, E>, pc: Pc)
    requires PcOk(sink, verdict, pc) && !pc.Unborn? && !pc.Gone?
    ensures StepsLeft(sink, verdict, Following(sink, verdict, pc)) == StepsLeft(sink, verdict, pc) - 1
  {
  }

  /** A step changes the share by what it does to the shared quantities, and uses up one step. */
  lemma ShareStep<K, V, E>(cfg: Config, job: Job<K, V, E>, pc: Pc)
    requires PcOk(cfg.sink, job.verdict, pc) && !pc.Unborn? && !pc.Gone?
    ensures var before, after := ShareOf(cfg, job, pc), ShareOf(cfg, job, Following(cfg.sink, job.verdict, pc));
            && after.live == before.live - (if pc.Leaving? then 1 else 0)
            && after.held == before.held - (if pc.Releasing? then 1 else 0)
            && after.bytes == before.bytes + (if pc.Counting? then job.bytes else 0)
            && after.steps == before.steps - 1
            && after.errs == before.errs + multiset(ErrSent(job.verdict, pc))
            && after.items == before.items + multiset(ItemSent(job.verdict, pc))
  {
    hide ErrSent, ItemSent, Following, StepsLeft, Held, Ended, PcOk;
    ShareBags(cfg, job, pc);
    ShareNumbers(cfg, job, pc);
    StepUsedUp(cfg.sink, job.verdict, pc);
  }

  // ---------------------------------------------------------------- the invariant

  predicate MainOk(main: MainPc, pcs: seq<Pc>) {
    match main
    case Adding(next) => next <= |pcs| && forall i | 0 <= i < |pcs| :: pcs[i].Unborn? <==> next <= i
    case Acquiring(next) => next < |pcs| && forall i | 0 <= i < |pcs| :: pcs[i].Unborn? <==> next <= i
    case Launching(next) => next < |pcs| && forall i | 0 <= i < |pcs| :: pcs[i].Unborn? <==> next <= i
    case Joining => forall i | 0 <= i < |pcs| :: !pcs[i].Unborn?
    case Closing => forall i | 0 <= i < |pcs| :: pcs[i].Gone?
    case Done => forall i | 0 <= i < |pcs| :: pcs[i].Gone?
  }

  predicate Locked(pc: Pc) { pc.Writing? || pc.Unlocking? }

  /** A task is at an outlet only if its verdict leads there. */
  predicate PcOk<V, E>(sink: Sink, verdict: Verdict<V, E>, pc: Pc) {
    && (pc.Reporting? ==> verdict.Failed?)
    && (pc.Locking? || Locked(pc) ==> verdict.Item? && sink.ToMap?)
    && (pc.Sending? ==> verdict.Item? && sink.ToChannel?)
  }

  predicate TasksOk<K, V, E>(cfg: Config, jobs: seq<Job<K, V, E>>, pcs: seq<Pc>) {
    |pcs| == |jobs| && forall i | 0 <= i < |pcs| :: PcOk(cfg.sink, jobs[i].verdict, pcs[i])
  }

  /** The mutex is held by exactly whoever is inside the critical section. */
  predicate MutexOk(mu: Option<nat>, pcs: seq<Pc>) {
    && (mu.Some? ==> mu.value < |pcs|)
    && forall i | 0 <= i < |pcs| :: Locked(pcs[i]) <==> mu == Some(i)
  }

  predicate Written<V, E>(sink: Sink, verdict: Verdict<V, E>, pc: Pc) {
    sink.ToMap? && verdict.Item? && (pc.Unlocking? || Ended(pc))
  }

  /** Every map entry is the answer of a task that has written it, and every such task's key is in the map. */
  ghost predicate MapOk<K, V, E>(cfg: Config, jobs: seq<Job<K, V, E>>, pcs: seq<Pc>, result: map<K, V>)
    requires |jobs| == |pcs|
  {
    && (forall k | k in result :: exists i ::
          0 <= i < |pcs| && Written(cfg.sink, jobs[i].verdict, pcs[i]) && jobs[i].key == k
          && jobs[i].verdict.value == result[k])
    && forall i | 0 <= i < |pcs| && Written(cfg.sink, jobs[i].verdict, pcs[i]) :: jobs[i].key in result
  }

  ghost predicate CountsOk<K, V, E>(cfg: Config, jobs: seq<Job<K, V, E>>, s: State<K, V, E>)
    requires |s.pcs| == |jobs|
  {
    var total := Total(cfg, jobs, s.pcs);
    && s.wg == total.live + (if s.main.Acquiring? || s.main.Launching? then 1 else 0)
    && (cfg.cap.Some? ==> s.sem == total.held + (if s.main.Launching? then 1 else 0) && s.sem <= cfg.cap.value)
    && s.tally == total.bytes
    && multiset(s.errCh) == total.errs
    && multiset(s.itemCh) == total.items
  }

  ghost predicate Inv<K, V, E>(cfg: Config, jobs: seq<Job<K, V, E>>, s: State<K, V, E>) {
    && TasksOk(cfg, jobs, s.pcs)
    && MainOk(s.main, s.pcs)
    && MutexOk(s.mu, s.pcs)
    && MapOk(cfg, jobs, s.pcs, s.result)
    && CountsOk(cfg, jobs, s)
    && (s.closed <==> s.main.Done?)
  }

  /** How many steps are left, whatever the schedule. */
  ghost function Remaining<K, V, E>(cfg: Config, jobs: seq<Job<K, V, E>>, s: State<K, V, E>): int
    requires |s.pcs| == |jobs|
  {
    (match s.main
     case Adding(_) => 3 case Acquiring(_) => 2 case Launching(_) => 1
     case Joining => 2 case Closing => 1 case Done => 0)
    + Total(cfg, jobs, s.pcs).steps
  }

  // ---------------------------------------------------------------- sums of sane shares

  ghost predicate Sane<V, E>(t: Share<V, E>) {
    0 <= t.held <= t.live && 0 <= t.steps && |t.errs| <= 1 && |t.items| <= 1
  }

  lemma ShareSane<K, V, E>(cfg: Config, job: Job<K, V, E>, pc: Pc)
    ensures Sane(ShareOf(cfg, job, pc))
  {
  }

  lemma {:induction false} SumSane<V, E>(ts: seq<Share<V, E>>)
    requires forall k | 0 <= k < |ts| :: Sane(ts[k])
    ensures Sum(ts).held >= 0 && Sum(ts).live >= 0 && Sum(ts).steps >= 0
    ensures |Sum(ts).errs| <= |ts| && |Sum(ts).items| <= |ts|
  {
    if ts != [] {
      assert Sane(ts[|ts| - 1]);
      SumSane(ts[..|ts| - 1]);
    }
  }

  /** One slot per task: while one of them has sent nothing, the buffer has room. */
  lemma {:induction false} RoomLeft<V, E>(ts: seq<Share<V, E>>, k: nat)
    requires k < |ts| && forall m | 0 <= m < |ts| :: Sane(ts[m])
    ensures ts[k].errs == multiset{} ==> |Sum(ts).errs| < |ts|
    ensures ts[k].items == multiset{} ==> |Sum(ts).items| < |ts|
  {
    var init := ts[..|ts| - 1];
    assert Sane(ts[|ts| - 1]);
    if k < |ts| - 1 { RoomLeft(init, k); } else { SumSane(init); }
  }

  lemma {:induction false} SomeoneLive<V, E>(ts: seq<Share<V, E>>) returns (k: nat)
    requires Sum(ts).live > 0
    ensures k < |ts| && ts[k].live > 0
  {
    if ts[|ts| - 1].live > 0 { k := |ts| - 1; } else { k := SomeoneLive(ts[..|ts| - 1]); }
  }

  lemma {:induction false} SomeoneHolding<V, E>(ts: seq<Share<V, E>>) returns (k: nat)
    requires Sum(ts).held > 0
    ensures k < |ts| && ts[k].held > 0
  {
    if ts[|ts| - 1].held > 0 { k := |ts| - 1; } else { k := SomeoneHolding(ts[..|ts| - 1]); }
  }

  lemma {:induction false} NobodyLive<V, E>(ts: seq<Share<V, E>>, k: nat)
    requires forall m | 0 <= m < |ts| :: Sane(ts[m])
    requires Sum(ts).live <= 0 && k < |ts|
    ensures ts[k].live == 0
  {
    var init := ts[..|ts| - 1];
    assert Sane(ts[|ts| - 1]);
    SumSane(init);
    if k < |ts| - 1 { NobodyLive(init, k); }
  }

  lemma SharesSane<K, V, E>(cfg: Config, jobs: seq<Job<K, V, E>>, pcs: seq<Pc>)
    requires |jobs| == |pcs|
    ensures forall k | 0 <= k < |pcs| :: Sane(Shares(cfg, jobs, pcs)[k])
  {
    hide ShareOf;
    forall k | 0 <= k < |pcs| ensures Sane(Shares(cfg, jobs, pcs)[k]) { ShareSane(cfg, jobs[k], pcs[k]); }
  }

  // ---------------------------------------------------------------- every step

  lemma {:induction false} SumOfUnborn<K, V, E>(cfg: Config, jobs: seq<Job<K, V, E>>, pcs: seq<Pc>)
    requires |jobs| == |pcs| && forall i | 0 <= i < |pcs| :: pcs[i].Unborn?
    ensures Total(cfg, jobs, pcs).(steps := 0) == Share(0, 0, 0, 0, multiset{}, multiset{})
  {
    if pcs != [] {
      var n := |pcs| - 1;
      SumOfUnborn(cfg, jobs[..n], pcs[..n]);
      assert Shares(cfg, jobs, pcs)[..n] == Shares(cfg, jobs[..n], pcs[..n]);
    } else {
      assert Shares(cfg, jobs, pcs) == [];
    }
  }

  lemma InitOk<K, V, E>(cfg: Config, jobs: seq<Job<K, V, E>>)
    ensures Inv(cfg, jobs, Init(jobs))
  {
    SumOfUnborn(cfg, jobs, Init(jobs).pcs);
  }

  lemma LaunchOk<K, V, E>(cfg: Config, jobs: seq<Job<K, V, E>>, s: State<K, V, E>)
    requires Inv(cfg, jobs, s) && s.main.Launching?
    ensures Inv(cfg, jobs, MainNext(cfg, jobs, s))
    ensures Remaining(cfg, jobs, MainNext(cfg, jobs, s)) == Remaining(cfg, jobs, s) - 1
  {
    hide MapOk, TasksOk, CountsOk, Remaining;
    InvShape(cfg, jobs, s);
    LaunchCountsOk(cfg, jobs, s);
    LaunchTasksOk(cfg, jobs, s);
    MapUnmoved(cfg, jobs, s.pcs, s.main.next, Working, s.result);
  }

  lemma LaunchCountsOk<K, V, E>(cfg: Config, jobs: seq<Job<K, V, E>>, s: State<K, V, E>)
    requires Inv(cfg, jobs, s) && s.main.Launching?
    ensures var s' := MainNext(cfg, jobs, s);
            && |s.pcs| == |s'.pcs| == |jobs| && CountsOk(cfg, jobs, s')
            && Remaining(cfg, jobs, s') == Remaining(cfg, jobs, s) - 1
  {
    InvShape(cfg, jobs, s);
    hide Total, MapOk, Rest, MutexOk, TasksOk, ShareOf, Shares;
    TotalUpdate(cfg, jobs, s.pcs, s.main.next, Working);
    LaunchShare(cfg, jobs[s.main.next]);
  }

  lemma LaunchShare<K, V, E>(cfg: Config, job: Job<K, V, E>)
    ensures var before, after := ShareOf(cfg, job, Unborn), ShareOf(cfg, job, Working);
            after == before.(live := before.live + 1, held := before.held + 1, steps := before.steps - 3)
  {
  }

  lemma LaunchTasksOk<K, V, E>(cfg: Config, jobs: seq<Job<K, V, E>>, s: State<K, V, E>)
    requires Inv(cfg, jobs, s) && s.main.Launching?
    ensures TasksOk(cfg, jobs, MainNext(cfg, jobs, s).pcs)
  {
    hide MapOk, CountsOk, MutexOk;
  }

  /** A step that neither writes nor starts to count as written leaves the map's invariant alone. */
  lemma MapUnmoved<K, V, E>(cfg: Config, jobs: seq<Job<K, V, E>>, pcs: seq<Pc>, i: nat, pc: Pc, result: map<K, V>)
    requires |jobs| == |pcs| && i < |pcs| && MapOk(cfg, jobs, pcs, result)
    requires Written(cfg.sink, jobs[i].verdict, pcs[i]) <==> Written(cfg.sink, jobs[i].verdict, pc)
    ensures MapOk(cfg, jobs, pcs[i := pc], result)
  {
    forall k | k in result
      ensures exists m :: 0 <= m < |pcs| && Written(cfg.sink, jobs[m].verdict, pcs[i := pc][m]) && jobs[m].key == k
                          && jobs[m].verdict.value == result[k]
    {
      var m :| 0 <= m < |pcs| && Written(cfg.sink, jobs[m].verdict, pcs[m]) && jobs[m].key == k
               && jobs[m].verdict.value == result[k];
      assert Written(cfg.sink, jobs[m].verdict, pcs[i := pc][m]);
    }
  }

  lemma MapWrite<K, V, E>(cfg: Config, jobs: seq<Job<K, V, E>>, pcs: seq<Pc>, i: nat, result: map<K, V>)
    requires |jobs| == |pcs| && i < |pcs| && MapOk(cfg, jobs, pcs, result)
    requires pcs[i].Writing? && jobs[i].verdict.Item? && cfg.sink.ToMap?
    ensures MapOk(cfg, jobs, pcs[i := Unlocking], result[jobs[i].key := jobs[i].verdict.value])
  {
    var pcs', result' := pcs[i := Unlocking], result[jobs[i].key := jobs[i].verdict.value];
    forall k | k in result'
      ensures exists m :: 0 <= m < |pcs| && Written(cfg.sink, jobs[m].verdict, pcs'[m]) && jobs[m].key == k
                          && jobs[m].verdict.value == result'[k]
    {
      if k == jobs[i].key {
        assert Written(cfg.sink, jobs[i].verdict, pcs'[i]);
      } else {
        var m :| 0 <= m < |pcs| && Written(cfg.sink, jobs[m].verdict, pcs[m]) && jobs[m].key == k
                 && jobs[m].verdict.value == result[k];
        assert Written(cfg.sink, jobs[m].verdict, pcs'[m]);
      }
    }
  }

  lemma JoinOk<K, V, E>(cfg: Config, jobs: seq<Job<K, V, E>>, s: State<K, V, E>)
    requires Inv(cfg, jobs, s) && Total(cfg, jobs, s.pcs).live <= 0 && s.main.Joining?
    ensures forall i | 0 <= i < |s.pcs| :: s.pcs[i].Gone?
  {
    hide MapOk, CountsOk;
    SharesSane(cfg, jobs, s.pcs);
    forall i | 0 <= i < |s.pcs| ensures s.pcs[i].Gone? { NobodyLive(Shares(cfg, jobs, s.pcs), i); }
  }

  lemma MainStepOk<K, V, E>(cfg: Config, jobs: seq<Job<K, V, E>>, s: State<K, V, E>)
    requires Inv(cfg, jobs, s) && Enabled(cfg, jobs, s, Main)
    ensures Inv(cfg, jobs, MainNext(cfg, jobs, s))
    ensures Remaining(cfg, jobs, MainNext(cfg, jobs, s)) == Remaining(cfg, jobs, s) - 1
  {
    hide MapOk, Total, TasksOk;
    if s.main.Launching? {
      LaunchOk(cfg, jobs, s);
    } else if s.main.Joining? {
      JoinOk(cfg, jobs, s);
    }
  }

  /** A task's step, field by field. */
  lemma TaskFields<K, V, E>(cfg: Config, jobs: seq<Job<K, V, E>>, s: State<K, V, E>, i: nat)
    requires Enabled(cfg, jobs, s, Task(i))
    ensures i < |s.pcs| == |jobs|
    ensures var s', pc := TaskNext(cfg, jobs, s, i), s.pcs[i];
            && !pc.Unborn? && !pc.Gone? && s'.main == s.main && s'.closed == s.closed
            && s'.pcs == s.pcs[i := Following(cfg.sink, jobs[i].verdict, pc)]
            && s'.wg == s.wg - (if pc.Leaving? then 1 else 0)
            && s'.sem == s.sem - (if pc.Releasing? && cfg.cap.Some? then 1 else 0)
            && s'.tally == s.tally + (if pc.Counting? then jobs[i].bytes else 0)
            && s'.errCh == s.errCh + ErrSent(jobs[i].verdict, pc)
            && s'.itemCh == s.itemCh + ItemSent(jobs[i].verdict, pc)
            && s'.mu == (if pc.Locking? then Some(i) else if pc.Unlocking? then None else s.mu)
            && s'.result == (if pc.Writing? then s.result[jobs[i].key := jobs[i].verdict.value] else s.result)
            && (pc.Locking? ==> s.mu == None)
  {
    hide Following;
  }

  /** The bookkeeping of one step, given how a task's share changes. */
  lemma CountsStep<K, V, E>(
    cfg: Config, jobs: seq<Job<K, V, E>>, s: State<K, V, E>, s': State<K, V, E>,
    rest: Share<V, E>, before: Share<V, E>, after: Share<V, E>, errs: seq<E>, items: seq<V>)
    requires |s.pcs| == |s'.pcs| == |jobs| && CountsOk(cfg, jobs, s) && s'.main == s.main
    requires Total(cfg, jobs, s.pcs) == Plus(rest, before) && Total(cfg, jobs, s'.pcs) == Plus(rest, after)
    requires after.errs == before.errs + multiset(errs) && after.items == before.items + multiset(items)
    requires s'.errCh == s.errCh + errs && s'.itemCh == s.itemCh + items
    requires s'.wg - s.wg == after.live - before.live && s'.tally - s.tally == after.bytes - before.bytes
    requires cfg.cap.Some? ==> s'.sem - s.sem == after.held - before.held <= 0
    ensures CountsOk(cfg, jobs, s')
    ensures Remaining(cfg, jobs, s') - Remaining(cfg, jobs, s) == after.steps - before.steps
  {
    hide Total;
  }

  lemma TaskCountsOk<K, V, E>(cfg: Config, jobs: seq<Job<K, V, E>>, s: State<K, V, E>, i: nat)
    requires Inv(cfg, jobs, s) && Enabled(cfg, jobs, s, Task(i))
    ensures var s' := TaskNext(cfg, jobs, s, i);
            && |s.pcs| == |s'.pcs| == |jobs| && CountsOk(cfg, jobs, s')
            && Remaining(cfg, jobs, s') == Remaining(cfg, jobs, s) - 1
  {
    hide MapOk, Total, MainOk, MutexOk, Rest, ShareOf, Following, TaskNext, CountsOk, Remaining;
    hide PcOk, ErrSent, ItemSent, Enabled;
    TaskFields(cfg, jobs, s, i);
    var pc := s.pcs[i];
    var pc' := Following(cfg.sink, jobs[i].verdict, pc);
    TotalUpdate(cfg, jobs, s.pcs, i, pc');
    ShareStep(cfg, jobs[i], pc);
    CountsStep(cfg, jobs, s, TaskNext(cfg, jobs, s, i), Rest(Shares(cfg, jobs, s.pcs), i),
               ShareOf(cfg, jobs[i], pc), ShareOf(cfg, jobs[i], pc'),
               ErrSent(jobs[i].verdict, pc), ItemSent(jobs[i].verdict, pc));
  }

  lemma FollowingOk<V, E>(sink: Sink, verdict: Verdict<V, E>, pc: Pc)
    requires PcOk(sink, verdict, pc) && !pc.Unborn?
    ensures var pc' := Following(sink, verdict, pc);
            && PcOk(sink, verdict, pc') && !pc'.Unborn?
            && (Locked(pc') <==> pc.Locking? || pc.Writing?)
  {
  }

  lemma TaskControlOk<K, V, E>(cfg: Config, jobs: seq<Job<K, V, E>>, s: State<K, V, E>, i: nat)
    requires Inv(cfg, jobs, s) && Enabled(cfg, jobs, s, Task(i))
    ensures var s' := TaskNext(cfg, jobs, s, i);
            TasksOk(cfg, jobs, s'.pcs) && MainOk(s'.main, s'.pcs) && MutexOk(s'.mu, s'.pcs)
  {
    hide MapOk, CountsOk, Following, PcOk, TaskNext, Enabled;
    TaskFields(cfg, jobs, s, i);
    FollowingOk(cfg.sink, jobs[i].verdict, s.pcs[i]);
  }

  lemma TaskMapOk<K, V, E>(cfg: Config, jobs: seq<Job<K, V, E>>, s: State<K, V, E>, i: nat)
    requires Inv(cfg, jobs, s) && Enabled(cfg, jobs, s, Task(i))
    ensures var s' := TaskNext(cfg, jobs, s, i);
            |s'.pcs| == |jobs| && MapOk(cfg, jobs, s'.pcs, s'.result)
  {
    hide MapOk, CountsOk, MainOk, TaskNext, Enabled;
    TaskFields(cfg, jobs, s, i);
    assert PcOk(cfg.sink, jobs[i].verdict, s.pcs[i]);
    if s.pcs[i].Writing? {
      MapWrite(cfg, jobs, s.pcs, i, s.result);
    } else {
      MapUnmoved(cfg, jobs, s.pcs, i, Following(cfg.sink, jobs[i].verdict, s.pcs[i]), s.result);
    }
  }

  lemma StepOk<K, V, E>(cfg: Config, jobs: seq<Job<K, V, E>>, s: State<K, V, E>, a: Action)
    requires Inv(cfg, jobs, s) && Enabled(cfg, jobs, s, a)
    ensures Inv(cfg, jobs, Next(cfg, jobs, s, a))
    ensures Remaining(cfg, jobs, Next(cfg, jobs, s, a)) == Remaining(cfg, jobs, s) - 1
  {
    hide MapOk, CountsOk, Remaining, MainOk, MutexOk, TasksOk;
    match a
    case Main => MainStepOk(cfg, jobs, s);
    case Task(i) =>
      TaskCountsOk(cfg, jobs, s, i);
      TaskControlOk(cfg, jobs, s, i);
      TaskMapOk(cfg, jobs, s, i);
  }

  /** The invariant holds after every run, and a run of k steps has used up exactly k of the steps there are. */
  lemma {:induction false} RunOk<K, V, E>(cfg: Config, jobs: seq<Job<K, V, E>>, s: State<K, V, E>, run: seq<Action>)
    requires Inv(cfg, jobs, s) && Runs(cfg, jobs, s, run)
    ensures Inv(cfg, jobs, After(cfg, jobs, s, run)) && |After(cfg, jobs, s, run).pcs| == |jobs|
    ensures Remaining(cfg, jobs, After(cfg, jobs, s, run)) == Remaining(cfg, jobs, s) - |run|
    decreases |run|
  {
    InvShape(cfg, jobs, s);
    hide Inv, Remaining, Next, Enabled;
    if run != [] {
      StepOk(cfg, jobs, s, run[0]);
      InvShape(cfg, jobs, Next(cfg, jobs, s, run[0]));
      RunOk(cfg, jobs, Next(cfg, jobs, s, run[0]), run[1..]);
    }
  }

  lemma InvShape<K, V, E>(cfg: Config, jobs: seq<Job<K, V, E>>, s: State<K, V, E>)
    requires Inv(cfg, jobs, s)
    ensures |s.pcs| == |jobs|
  {
  }
}
