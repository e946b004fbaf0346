/**
 * LookupMany of the new reader service as a small-step transition system.
 *
 * One task runs per reference ID, and each of them launches one task per index entry. A step is one access to
 * shared state (a counter, a wait group, the semaphore, a result slot) or one external call. The scheduler may
 * take any enabled step, so a run is any list of actions. External calls may fail, and their outcome may depend
 * on which call it is, not just on its arguments.
 */
module LookupModel {
  import opened GoText
  import opened ByteRanges
  import opened JsonValues
  import opened Pointers

  // ---------------------------------------------------------------- data

  datatype Metadata = Metadata(s3Path: string, startByte: Int64, endByte: Int64, timestamp: Int64)

  datatype AuthEvent = AuthEvent(
    eventID: string, referenceID: string, timestamp: Int64, category: string, eventType: string, data: Fields)

  /** Go's zero value, which fills the slots nobody has written yet. */
  const NO_EVENT := AuthEvent("", "", 0, "", "", map[])

  datatype FetchError = BadPointer | StoreFailed | BadEvent

  datatype PerRef = PerRef(events: seq<AuthEvent>, failed: bool)

  const NO_RESULT := PerRef([], false)

  /**
   * Everything outside the service: the ring's route, the shards that have a client, and the outcome of every
   * external call. Call (i) is ref i's range query, call (i, j) the fetch of its j-th entry.
   */
  datatype World = World(
    route: string -> int,
    pool: set<int>,
    rangeQuery: (nat, int, string) -> Option<seq<Metadata>>,
    getObject: (nat, nat, string, string) -> Option<seq<Byte>>,
    decode: seq<Byte> -> Option<Fields>,
    parseTime: string -> Option<Int64>)

  // ---------------------------------------------------------------- what one call of each helper returns

  function TextOf(fields: Fields, name: string): string {
    if name in fields && fields[name].Text? then fields[name].text else ""
  }

  function TrimNewlines(raw: seq<Byte>): seq<Byte> {
    if raw != [] && (raw[|raw| - 1] == 10 || raw[|raw| - 1] == 13) then TrimNewlines(raw[..|raw| - 1]) else raw
  }

  const BOOKKEEPING: set<string> := {"_event_id", "_event_timestamp", "reference_id"}

  function ParseEvent(w: World, raw: seq<Byte>, refID: string, metaTS: Int64): (r: Option<AuthEvent>)
    ensures r.Some? ==> r.value.referenceID == refID
    ensures r.Some? ==> r.value.data.Keys !! BOOKKEEPING
  {
    match w.decode(TrimNewlines(raw))
    case None => None
    case Some(fields) =>
      var stamp := if "_event_timestamp" in fields && fields["_event_timestamp"].Text?
                   then w.parseTime(fields["_event_timestamp"].text) else None;
      Some(AuthEvent(TextOf(fields, "_event_id"), refID, if stamp.Some? then stamp.value else metaTS,
                     TextOf(fields, "_category"), TextOf(fields, "_event_type"), fields - BOOKKEEPING))
  }

  function RangeQuery(w: World, i: nat, ref: string): Option<seq<Metadata>> {
    var shard := w.route("ref:" + ref);
    if shard !in w.pool then None else w.rangeQuery(i, shard, ref)
  }

  function Resolve(meta: Metadata): Resolution {
    ParsePointer(meta.s3Path, meta.startByte, meta.endByte)
  }

  function Fetch(w: World, i: nat, j: nat, p: Pointer): Option<seq<Byte>> {
    GetRange((key, header) => w.getObject(i, j, key, header), p.key, p.start, p.end)
  }

  // ---------------------------------------------------------------- tasks

  /** The semaphore's capacity per ref. */
  const S3_CONCURRENCY: int := 32

  /** Where an entry task stands, with its locals; from Fetching to Releasing it holds a semaphore slot. */
  datatype EntryPc =
    | Unborn | Resolving | Waiting(p: Pointer) | Fetching(p: Pointer) | Tallying(reply: Option<seq<Byte>>)
    | Checking(reply: Option<seq<Byte>>) | Parsing(raw: seq<Byte>) | Releasing | Leaving | Gone

  datatype Entry = Entry(j: nat, meta: Metadata, pc: EntryPc)

  datatype RefPc =
    | RUnborn | Querying | Counting(reply: Option<seq<Metadata>>) | Branching(reply: Option<seq<Metadata>>)
    | Launching(next: nat) | Joining | Collecting | RLeaving | RGone

  /** A ref task with its local arrays, semaphore and wait group, which it shares with its entry tasks only. */
  datatype RefTask = RefTask(
    i: nat, ref: string, pc: RefPc, entries: seq<Entry>, events: seq<AuthEvent>, fetchErrs: seq<Option<FetchError>>,
    sem: int, fetchWg: int)

  datatype MainPc = Spawning(next: nat) | Waiting | Done

  datatype Counters = Counters(queries: int, found: int, fetches: int, bytes: int)

  datatype State = State(main: MainPc, wg: int, refs: seq<RefTask>, perRef: seq<PerRef>, counters: Counters)

  datatype Action = Main | Ref(i: nat) | Fetcher(i: nat, j: nat)

  function Init(refIDs: seq<string>): State {
    State(Spawning(0), 0,
          seq(|refIDs|, i requires 0 <= i < |refIDs| => RefTask(i, refIDs[i], RUnborn, [], [], [], 0, 0)),
          seq(|refIDs|, i => NO_RESULT), Counters(0, 0, 0, 0))
  }

  // ---------------------------------------------------------------- entry tasks

  /** One step of an entry task: its next place, the slots it writes, and what it adds to shared quantities. */
  datatype Move = Move(
    pc: EntryPc, event: Option<AuthEvent>, err: Option<FetchError>, sem: int, wg: int, fetches: int, bytes: int)

  function Silent(pc: EntryPc): Move { Move(pc, None, None, 0, 0, 0, 0) }

  predicate Steps(pc: EntryPc) { !pc.Unborn? && !pc.Gone? }

  function EntryMove(w: World, i: nat, ref: string, e: Entry): Move
    requires Steps(e.pc)
  {
    match e.pc
    case Resolving =>
      (match Resolve(e.meta)
       case Located(p) => Silent(EntryPc.Waiting(p))
       case Rejected(_) => Silent(Leaving).(err := Some(BadPointer)))
    case Waiting(p) => Silent(Fetching(p)).(sem := 1)
    case Fetching(p) => Silent(Tallying(Fetch(w, i, e.j, p)))
    case Tallying(reply) => Silent(Checking(reply)).(fetches := 1)
    case Checking(reply) =>
      if reply.None? then Silent(Releasing).(err := Some(StoreFailed))
      else Silent(Parsing(reply.value)).(bytes := |reply.value|)
    case Parsing(raw) =>
      (match ParseEvent(w, raw, ref, e.meta.timestamp)
       case Some(ev) => Silent(Releasing).(event := Some(ev))
       case None => Silent(Releasing).(err := Some(BadEvent)))
    case Releasing => Silent(Leaving).(sem := -1)
    case Leaving => Silent(Gone).(wg := -1)
  }

  predicate EntryEnabled(t: RefTask, j: nat) {
    && j < |t.entries| && j < |t.events| && j < |t.fetchErrs|
    && Steps(t.entries[j].pc)
    && (t.entries[j].pc.Waiting? ==> t.sem < S3_CONCURRENCY)
  }

  function EntryStep(t: RefTask, j: nat, m: Move): RefTask
    requires EntryEnabled(t, j)
  {
    t.(entries := t.entries[j := t.entries[j].(pc := m.pc)],
       events := if m.event.Some? then t.events[j := m.event.value] else t.events,
       fetchErrs := if m.err.Some? then t.fetchErrs[j := m.err] else t.fetchErrs,
       sem := t.sem + m.sem, fetchWg := t.fetchWg + m.wg)
  }

  // ---------------------------------------------------------------- ref tasks

  function FreshEntries(metas: seq<Metadata>): seq<Entry> {
    seq(|metas|, j requires 0 <= j < |metas| => Entry(j, metas[j], Unborn))
  }

  predicate Keeps(event: AuthEvent, err: Option<FetchError>) {
    err.None? && (event.eventID != "" || event.referenceID != "")
  }

  /** The collecting loop over the first n slots. */
  function Kept(events: seq<AuthEvent>, errs: seq<Option<FetchError>>, n: nat): seq<AuthEvent>
    requires n <= |events| == |errs|
  {
    if n == 0 then []
    else Kept(events, errs, n - 1) + (if Keeps(events[n - 1], errs[n - 1]) then [events[n - 1]] else [])
  }

  datatype RefMove = RefMove(task: RefTask, publish: Option<PerRef>, wg: int, queries: int, found: int)

  function Quiet(task: RefTask): RefMove { RefMove(task, None, 0, 0, 0) }

  predicate RefEnabled(t: RefTask) {
    match t.pc
    case RUnborn | RGone => false
    case Joining => t.fetchWg == 0
    case Collecting => |t.events| == |t.fetchErrs|
    case _ => true
  }

  function RefStep(w: World, t: RefTask): RefMove
    requires RefEnabled(t)
  {
    match t.pc
    case Querying => Quiet(t.(pc := Counting(RangeQuery(w, t.i, t.ref))))
    case Counting(reply) => Quiet(t.(pc := Branching(reply))).(queries := 1)
    case Branching(reply) =>
      if reply.None? then Quiet(t.(pc := RLeaving)).(publish := Some(PerRef([], true)))
      else if reply.value == [] then Quiet(t.(pc := RLeaving))
      else
        var n := |reply.value|;
        Quiet(t.(pc := Launching(0), entries := FreshEntries(reply.value), events := seq(n, _ => NO_EVENT),
                 fetchErrs := seq(n, _ => None), sem := 0, fetchWg := 0)).(found := n)
    case Launching(next) =>
      if next < |t.entries| then
        Quiet(t.(pc := Launching(next + 1), fetchWg := t.fetchWg + 1,
                 entries := t.entries[next := t.entries[next].(pc := Resolving)]))
      else Quiet(t.(pc := Joining))
    case Joining => Quiet(t.(pc := Collecting))
    case Collecting =>
      Quiet(t.(pc := RLeaving)).(publish := Some(PerRef(Kept(t.events, t.fetchErrs, |t.events|), false)))
    case RLeaving => Quiet(t.(pc := RGone)).(wg := -1)
  }

  // ---------------------------------------------------------------- the whole system

  predicate Enabled(s: State, a: Action) {
    match a
    case Main =>
      (match s.main
       case Spawning(next) => true
       case Waiting => s.wg == 0
       case Done => false)
    case Ref(i) => i < |s.refs| == |s.perRef| && RefEnabled(s.refs[i])
    case Fetcher(i, j) => i < |s.refs| && EntryEnabled(s.refs[i], j)
  }

  function Next(w: World, s: State, a: Action): State
    requires Enabled(s, a)
  {
    match a
    case Main =>
      (match s.main
       case Spawning(next) =>
         if next < |s.refs| then
           s.(main := Spawning(next + 1), wg := s.wg + 1, refs := s.refs[next := s.refs[next].(pc := Querying)])
         else s.(main := MainPc.Waiting)
       case Waiting => s.(main := Done))
    case Ref(i) =>
      var m := RefStep(w, s.refs[i]);
      s.(refs := s.refs[i := m.task], wg := s.wg + m.wg,
         perRef := if m.publish.Some? then s.perRef[i := m.publish.value] else s.perRef,
         counters := s.counters.(queries := s.counters.queries + m.queries, found := s.counters.found + m.found))
    case Fetcher(i, j) =>
      var m := EntryMove(w, i, s.refs[i].ref, s.refs[i].entries[j]);
      s.(refs := s.refs[i := EntryStep(s.refs[i], j, m)],
         counters := s.counters.(fetches := s.counters.fetches + m.fetches, bytes := s.counters.bytes + m.bytes))
  }

  /** A run takes one enabled action after another. */
  predicate Runs(w: World, s: State, run: seq<Action>)
    decreases |run|
  {
    run == [] || (Enabled(s, run[0]) && Runs(w, Next(w, s, run[0]), run[1..]))
  }

  function After(w: World, s: State, run: seq<Action>): State
    requires Runs(w, s, run)
    decreases |run|
  {
    if run == [] then s else After(w, Next(w, s, run[0]), run[1..])
  }

  /** The final gathering loop over the first n per-ref results. */
  function Gathered(perRef: seq<PerRef>, n: nat): seq<AuthEvent>
    requires n <= |perRef|
  {
    if n == 0 then []
    else Gathered(perRef, n - 1) + (if perRef[n - 1].failed then [] else perRef[n - 1].events)
  }

  datatype QueryResult = QueryResult(events: seq<AuthEvent>, counters: Counters)

  function Answer(s: State): QueryResult {
    QueryResult(Gathered(s.perRef, |s.perRef|), s.counters)
  }
}
