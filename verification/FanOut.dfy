/**
 * The fan-out loop shared by the older service's queries and the shard pool's pings, as a small-step system.
 *
 * The spawning loop adds to the wait group, takes a semaphore slot and only then launches a task. A task does its
 * job, reports an error on a buffered channel or delivers a value (into a mutex-guarded map or into a buffered
 * channel), gives the slot back and leaves the wait group. After the join the channels are closed.
 */
module FanOut {
  import opened GoText

  /** What a task's external call comes to; which one is not up to the schedule. */
  datatype Verdict<V, E> = Failed(error: E) | Item(value: V) | Nothing

  datatype Job<K, V, E> = Job(key: K, bytes: nat, verdict: Verdict<V, E>)

  datatype Sink = ToMap | ToChannel

  /** cap None is a loop without a semaphore. */
  datatype Config = Config(cap: Option<nat>, sink: Sink)

  /** Between launch and release a task holds a slot; from Writing to Unlocking it holds the mutex. */
  datatype Pc =
    | Unborn | Working | Counting | Reporting | Locking | Writing | Unlocking | Sending | Releasing | Leaving | Gone

  datatype MainPc = Adding(next: nat) | Acquiring(next: nat) | Launching(next: nat) | Joining | Closing | Done

  datatype State<K(==), V, E> = State(
    main: MainPc, wg: int, sem: int, pcs: seq<Pc>, mu: Option<nat>,
    result: map<K, V>, itemCh: seq<V>, errCh: seq<E>, closed: bool, tally: int)

  datatype Action = Main | Task(i: nat)

  function Init<K, V, E>(jobs: seq<Job<K, V, E>>): State<K, V, E> {
    State(Adding(0), 0, 0, seq(|jobs|, _ => Unborn), None, map[], [], [], false, 0)
  }

  /** Where a task goes once its call has returned. */
  function Outlet<V, E>(sink: Sink, verdict: Verdict<V, E>): Pc {
    match verdict
    case Failed(_) => Reporting
    case Item(_) => if sink.ToMap? then Locking else Sending
    case Nothing => Releasing
  }

  function Following<V, E>(sink: Sink, verdict: Verdict<V, E>, pc: Pc): Pc {
    match pc
    case Unborn => Working
    case Working => Counting
    case Counting => Outlet(sink, verdict)
    case Reporting => Releasing
    case Locking => Writing
    case Writing => Unlocking
    case Unlocking => Releasing
    case Sending => Releasing
    case Releasing => Leaving
    case Leaving => Gone
    case Gone => Gone
  }

  /** A channel send is possible while the buffer has room and the channel is open (sending on a closed one panics). */
  predicate CanSend<A>(ch: seq<A>, capacity: nat, closed: bool) {
    |ch| < capacity && !closed
  }

  predicate Enabled<K, V, E>(cfg: Config, jobs: seq<Job<K, V, E>>, s: State<K, V, E>, a: Action) {
    match a
    case Main =>
      (match s.main
       case Acquiring(_) => cfg.cap.None? || s.sem < cfg.cap.value
       case Joining => s.wg == 0
       case Done => false
       case _ => true)
    case Task(i) =>
      && i < |s.pcs| == |jobs|
      && match s.pcs[i]
         case Unborn => false
         case Gone => false
         case Reporting => CanSend(s.errCh, |jobs|, s.closed) && jobs[i].verdict.Failed?
         case Sending => CanSend(s.itemCh, |jobs|, s.closed) && jobs[i].verdict.Item?
         case Locking => s.mu == None
         case Writing => jobs[i].verdict.Item?
         case _ => true
  }

  function MainNext<K, V, E>(cfg: Config, jobs: seq<Job<K, V, E>>, s: State<K, V, E>): State<K, V, E>
    requires Enabled(cfg, jobs, s, Main)
  {
    match s.main
    case Adding(next) =>
      if next < |s.pcs| then s.(main := Acquiring(next), wg := s.wg + 1) else s.(main := Joining)
    case Acquiring(next) => s.(main := Launching(next), sem := if cfg.cap.None? then s.sem else s.sem + 1)
    case Launching(next) =>
      if next < |s.pcs| then s.(main := Adding(next + 1), pcs := s.pcs[next := Working]) else s
    case Joining => s.(main := Closing)
    case Closing => s.(main := Done, closed := true)
  }

  function TaskNext<K, V, E>(cfg: Config, jobs: seq<Job<K, V, E>>, s: State<K, V, E>, i: nat): State<K, V, E>
    requires Enabled(cfg, jobs, s, Task(i))
  {
    var job := jobs[i];
    var s' := s.(pcs := s.pcs[i := Following(cfg.sink, job.verdict, s.pcs[i])]);
    match s.pcs[i]
    case Counting => s'.(tally := s.tally + job.bytes)
    case Reporting => s'.(errCh := s.errCh + [job.verdict.error])
    case Locking => s'.(mu := Some(i))
    case Writing => s'.(result := s.result[job.key := job.verdict.value])
    case Unlocking => s'.(mu := None)
    case Sending => s'.(itemCh := s.itemCh + [job.verdict.value])
    case Releasing => s'.(sem := if cfg.cap.None? then s.sem else s.sem - 1)
    case Leaving => s'.(wg := s.wg - 1)
    case _ => s'
  }

  function Next<K, V, E>(cfg: Config, jobs: seq<Job<K, V, E>>, s: State<K, V, E>, a: Action): State<K, V, E>
    requires Enabled(cfg, jobs, s, a)
  {
    match a
    case Main => MainNext(cfg, jobs, s)
    case Task(i) => TaskNext(cfg, jobs, s, i)
  }

  predicate Runs<K, V, E>(cfg: Config, jobs: seq<Job<K, V, E>>, s: State<K, V, E>, run: seq<Action>)
    decreases |run|
  {
    run == [] || (Enabled(cfg, jobs, s, run[0]) && Runs(cfg, jobs, Next(cfg, jobs, s, run[0]), run[1..]))
  }

  function After<K, V, E>(cfg: Config, jobs: seq<Job<K, V, E>>, s: State<K, V, E>, run: seq<Action>): State<K, V, E>
    requires Runs(cfg, jobs, s, run)
    decreases |run|
  {
    if run == [] then s else After(cfg, jobs, Next(cfg, jobs, s, run[0]), run[1..])
  }

  // ---------------------------------------------------------------- what the jobs add up to

  function ErrorOf<V, E>(verdict: Verdict<V, E>): seq<E> {
    if verdict.Failed? then [verdict.error] else []
  }

  function ItemOf<V, E>(verdict: Verdict<V, E>): seq<V> {
    if verdict.Item? then [verdict.value] else []
  }

  function Errors<K, V, E>(jobs: seq<Job<K, V, E>>): seq<E> {
    if jobs == [] then [] else Errors(jobs[..|jobs| - 1]) + ErrorOf(jobs[|jobs| - 1].verdict)
  }

  function Items<K, V, E>(jobs: seq<Job<K, V, E>>): seq<V> {
    if jobs == [] then [] else Items(jobs[..|jobs| - 1]) + ItemOf(jobs[|jobs| - 1].verdict)
  }

  function BytesRead<K, V, E>(jobs: seq<Job<K, V, E>>): nat {
    if jobs == [] then 0 else BytesRead(jobs[..|jobs| - 1]) + jobs[|jobs| - 1].bytes
  }

  /** Some job's successful answer for key k is v. */
  predicate Answers<K(==), V(==), E>(jobs: seq<Job<K, V, E>>, k: K, v: V) {
    exists i :: 0 <= i < |jobs| && jobs[i].key == k && jobs[i].verdict == Item(v)
  }
}
