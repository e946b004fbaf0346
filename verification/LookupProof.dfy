/** What every step of LookupMany keeps, for one entry task, one ref task and the whole system. */
module LookupProof {
  import opened GoText
  import opened ByteRanges
  import opened Pointers
  import opened LookupModel
  import opened Tallies

  // ---------------------------------------------------------------- the sequential reference

  datatype Outcome = Got(event: AuthEvent) | Lost(err: FetchError)

  /** Fetching one entry on its own. */
  function EntryOutcome(w: World, i: nat, ref: string, j: nat, meta: Metadata): Outcome {
    match Resolve(meta)
    case Rejected(_) => Lost(BadPointer)
    case Located(p) =>
      match Fetch(w, i, j, p)
      case None => Lost(StoreFailed)
      case Some(raw) =>
        match ParseEvent(w, raw, ref, meta.timestamp)
        case None => Lost(BadEvent)
        case Some(event) => Got(event)
  }

  /** How many bytes that brings in. */
  function EntryBytes(w: World, i: nat, j: nat, meta: Metadata): nat {
    match Resolve(meta)
    case Rejected(_) => 0
    case Located(p) => var reply := Fetch(w, i, j, p); if reply.None? then 0 else |reply.value|
  }

  /** The events of the first n entries, fetched one after another. */
  function SeqEvents(w: World, i: nat, ref: string, metas: seq<Metadata>, n: nat): seq<AuthEvent>
    requires n <= |metas|
  {
    if n == 0 then []
    else
      SeqEvents(w, i, ref, metas, n - 1) +
      match EntryOutcome(w, i, ref, n - 1, metas[n - 1])
      case Got(event) => if event.eventID != "" || event.referenceID != "" then [event] else []
      case Lost(_) => []
  }

  function SeqPerRef(w: World, i: nat, ref: string): PerRef {
    match RangeQuery(w, i, ref)
    case None => PerRef([], true)
    case Some(metas) => PerRef(SeqEvents(w, i, ref, metas, |metas|), false)
  }

  /** Of the first n entries, how many resolve to a place in the object store, and so are fetched. */
  function SeqFetches(metas: seq<Metadata>, n: nat): nat
    requires n <= |metas|
  {
    if n == 0 then 0 else SeqFetches(metas, n - 1) + (if Resolve(metas[n - 1]).Located? then 1 else 0)
  }

  function SeqBytes(w: World, i: nat, metas: seq<Metadata>, n: nat): nat
    requires n <= |metas|
  {
    if n == 0 then 0 else SeqBytes(w, i, metas, n - 1) + EntryBytes(w, i, n - 1, metas[n - 1])
  }

  /** One ref on its own: its events in entry order, and what looking it up counts. */
  function SeqRef(w: World, i: nat, ref: string): QueryResult {
    match RangeQuery(w, i, ref)
    case None => QueryResult([], Counters(1, 0, 0, 0))
    case Some(metas) =>
      QueryResult(SeqEvents(w, i, ref, metas, |metas|),
                  Counters(1, |metas|, SeqFetches(metas, |metas|), SeqBytes(w, i, metas, |metas|)))
  }

  function Add(a: Counters, b: Counters): Counters {
    Counters(a.queries + b.queries, a.found + b.found, a.fetches + b.fetches, a.bytes + b.bytes)
  }

  /** LookupMany as a sequential program: the first n refs, one after another. */
  function SeqLookup(w: World, refIDs: seq<string>, n: nat): QueryResult
    requires n <= |refIDs|
  {
    if n == 0 then QueryResult([], Counters(0, 0, 0, 0))
    else
      var before, one := SeqLookup(w, refIDs, n - 1), SeqRef(w, n - 1, refIDs[n - 1]);
      QueryResult(before.events + one.events, Add(before.counters, one.counters))
  }

  // ---------------------------------------------------------------- one entry task

  function FetchSteps(reply: Option<seq<Byte>>): int { if reply.None? then 3 else 4 }

  function ResolvedSteps(w: World, i: nat, e: Entry): int {
    match Resolve(e.meta)
    case Rejected(_) => 1
    case Located(p) => 3 + FetchSteps(Fetch(w, i, e.j, p))
  }

  /** The steps an entry task will still take, its launch included: no schedule changes their number. */
  function EntrySteps(w: World, i: nat, e: Entry): int {
    match e.pc
    case Unborn => 2 + ResolvedSteps(w, i, e)
    case Resolving => 1 + ResolvedSteps(w, i, e)
    case Waiting(p) => 3 + FetchSteps(Fetch(w, i, e.j, p))
    case Fetching(p) => 2 + FetchSteps(Fetch(w, i, e.j, p))
    case Tallying(reply) => 1 + FetchSteps(reply)
    case Checking(reply) => FetchSteps(reply)
    case Parsing(_) => 3
    case Releasing => 2
    case Leaving => 1
    case Gone => 0
  }

  predicate Holds(pc: EntryPc) {
    pc.Fetching? || pc.Tallying? || pc.Checking? || pc.Parsing? || pc.Releasing?
  }

  function EntryTally(w: World, i: nat, e: Entry): Tally {
    var fetched := if e.pc.Checking? || e.pc.Parsing? || e.pc.Releasing? then 1
                   else if (e.pc.Leaving? || e.pc.Gone?) && Resolve(e.meta).Located? then 1 else 0;
    var bytes := if e.pc.Parsing? then |e.pc.raw|
                 else if e.pc.Releasing? || e.pc.Leaving? || e.pc.Gone? then EntryBytes(w, i, e.j, e.meta) else 0;
    Tally(if Holds(e.pc) then 1 else 0, if e.pc.Fetching? then 1 else 0, if Steps(e.pc) then 1 else 0,
          0, 1, fetched, bytes, EntrySteps(w, i, e))
  }

  predicate SlotsHold(event: AuthEvent, err: Option<FetchError>, outcome: Outcome) {
    match outcome
    case Got(ev) => event == ev && err == None
    case Lost(why) => event == NO_EVENT && err == Some(why)
  }

  /** An entry's locals are those of the sequential fetch, and its two slots are empty until it has an outcome. */
  predicate EntryOk(w: World, i: nat, ref: string, e: Entry, event: AuthEvent, err: Option<FetchError>) {
    var settled := e.pc.Releasing? || e.pc.Leaving? || e.pc.Gone?;
    && (if settled then SlotsHold(event, err, EntryOutcome(w, i, ref, e.j, e.meta))
        else event == NO_EVENT && err == None)
    && (match e.pc
        case Waiting(p) => Resolve(e.meta) == Located(p)
        case Fetching(p) => Resolve(e.meta) == Located(p)
        case Tallying(reply) => Resolve(e.meta).Located? && reply == Fetch(w, i, e.j, Resolve(e.meta).pointer)
        case Checking(reply) => Resolve(e.meta).Located? && reply == Fetch(w, i, e.j, Resolve(e.meta).pointer)
        case Parsing(raw) => Resolve(e.meta).Located? && Some(raw) == Fetch(w, i, e.j, Resolve(e.meta).pointer)
        case Releasing => Resolve(e.meta).Located?
        case _ => true)
  }

  /** The contribution changes by exactly what the move does to the shared quantities, and one step is used up. */
  lemma MoveOk(w: World, i: nat, ref: string, e: Entry, event: AuthEvent, err: Option<FetchError>)
    requires Steps(e.pc) && EntryOk(w, i, ref, e, event, err)
    ensures var m := EntryMove(w, i, ref, e);
            var e' := e.(pc := m.pc);
            && EntryOk(w, i, ref, e',
                       if m.event.Some? then m.event.value else event, if m.err.Some? then m.err else err)
            && !m.pc.Unborn?
            && EntryTally(w, i, e') == EntryTally(w, i, e).(
                 slots := EntryTally(w, i, e).slots + m.sem,
                 inFlight := EntryTally(w, i, e').inFlight,
                 live := EntryTally(w, i, e).live + m.wg,
                 fetches := EntryTally(w, i, e).fetches + m.fetches,
                 bytes := EntryTally(w, i, e).bytes + m.bytes,
                 steps := EntryTally(w, i, e).steps - 1)
  {
  }

  // ---------------------------------------------------------------- one ref task

  function EntryTallies(w: World, i: nat, entries: seq<Entry>): seq<Tally> {
    seq(|entries|, k requires 0 <= k < |entries| => EntryTally(w, i, entries[k]))
  }

  function EntriesTally(w: World, t: RefTask): Tally {
    Sum(EntryTallies(w, t.i, t.entries))
  }

  function BranchSteps(w: World, i: nat, reply: Option<seq<Metadata>>): int {
    if reply.None? || reply.value == [] then 2
    else 5 + Sum(EntryTallies(w, i, FreshEntries(reply.value))).steps
  }

  /** The steps a ref task and its entry tasks will still take, its launch included. */
  function RefSteps(w: World, t: RefTask): int {
    match t.pc
    case RUnborn => 3 + BranchSteps(w, t.i, RangeQuery(w, t.i, t.ref))
    case Querying => 2 + BranchSteps(w, t.i, RangeQuery(w, t.i, t.ref))
    case Counting(reply) => 1 + BranchSteps(w, t.i, reply)
    case Branching(reply) => BranchSteps(w, t.i, reply)
    case Launching(_) => 4 + EntriesTally(w, t).steps
    case Joining => 3 + EntriesTally(w, t).steps
    case Collecting => 2 + EntriesTally(w, t).steps
    case RLeaving => 1 + EntriesTally(w, t).steps
    case RGone => EntriesTally(w, t).steps
  }

  function RefTally(w: World, t: RefTask): Tally {
    var sum := EntriesTally(w, t);
    Tally(sum.slots, sum.inFlight, if t.pc.RUnborn? || t.pc.RGone? then 0 else 1,
          if t.pc.RUnborn? || t.pc.Querying? || t.pc.Counting? then 0 else 1,
          sum.found, sum.fetches, sum.bytes, RefSteps(w, t))
  }

  /** The local arrays have been set up from a non-empty answer. */
  predicate Loaded(w: World, t: RefTask) {
    && RangeQuery(w, t.i, t.ref).Some?
    && var metas := RangeQuery(w, t.i, t.ref).value;
    && metas != [] && |t.entries| == |metas|
    && forall k | 0 <= k < |metas| :: t.entries[k].meta == metas[k]
  }

  predicate AllGone(t: RefTask) {
    forall k | 0 <= k < |t.entries| :: t.entries[k].pc.Gone?
  }

  predicate Finished(w: World, t: RefTask) {
    || (Loaded(w, t) && AllGone(t))
    || (t.entries == [] && (RangeQuery(w, t.i, t.ref).None? || RangeQuery(w, t.i, t.ref).value == []))
  }

  predicate PcOk(w: World, t: RefTask) {
    match t.pc
    case RUnborn => t.entries == []
    case Querying => t.entries == []
    case Counting(reply) => t.entries == [] && reply == RangeQuery(w, t.i, t.ref)
    case Branching(reply) => t.entries == [] && reply == RangeQuery(w, t.i, t.ref)
    case Launching(next) =>
      Loaded(w, t) && next <= |t.entries| && forall k | 0 <= k < |t.entries| :: t.entries[k].pc.Unborn? <==> next <= k
    case Joining => Loaded(w, t) && forall k | 0 <= k < |t.entries| :: !t.entries[k].pc.Unborn?
    case Collecting => Loaded(w, t) && AllGone(t)
    case RLeaving => Finished(w, t)
    case RGone => Finished(w, t)
  }

  predicate EntriesOk(w: World, t: RefTask) {
    && |t.events| == |t.fetchErrs| == |t.entries|
    && forall k | 0 <= k < |t.entries| ::
         t.entries[k].j == k && EntryOk(w, t.i, t.ref, t.entries[k], t.events[k], t.fetchErrs[k])
  }

  /** The semaphore counts the entries between acquire and release, and never more than its capacity. */
  predicate RefInv(w: World, t: RefTask) {
    && PcOk(w, t)
    && EntriesOk(w, t)
    && t.sem == EntriesTally(w, t).slots && t.sem <= S3_CONCURRENCY
    && t.fetchWg == EntriesTally(w, t).live
  }

  lemma TalliesUpdate(w: World, i: nat, entries: seq<Entry>, j: nat, e: Entry)
    requires j < |entries|
    ensures EntryTallies(w, i, entries[j := e]) == EntryTallies(w, i, entries)[j := EntryTally(w, i, e)]
  {
    hide EntryTally;
  }

  lemma EntryStepTally(w: World, t: RefTask, j: nat, pc: EntryPc)
    requires j < |t.entries|
    ensures var e := t.entries[j].(pc := pc);
            Sum(EntryTallies(w, t.i, t.entries[j := e])) ==
            Plus(Minus(EntriesTally(w, t), EntryTally(w, t.i, t.entries[j])), EntryTally(w, t.i, e))
  {
    hide EntryTally;
    var e := t.entries[j].(pc := pc);
    TalliesUpdate(w, t.i, t.entries, j, e);
    SumUpdate(EntryTallies(w, t.i, t.entries), j, EntryTally(w, t.i, e));
  }

  /** A step of one entry task touches no other entry's slots. */
  lemma EntryStepKeepsSlots(w: World, t: RefTask, j: nat)
    requires EntriesOk(w, t) && EntryEnabled(t, j)
    ensures var t' := EntryStep(t, j, EntryMove(w, t.i, t.ref, t.entries[j]));
            && EntriesOk(w, t')
            && (forall k | 0 <= k < |t.entries| && k != j ::
                  t'.entries[k] == t.entries[k] && t'.events[k] == t.events[k] && t'.fetchErrs[k] == t.fetchErrs[k])
  {
    MoveOk(w, t.i, t.ref, t.entries[j], t.events[j], t.fetchErrs[j]);
  }

  lemma EntryStepKeepsPc(w: World, t: RefTask, j: nat)
    requires PcOk(w, t) && EntriesOk(w, t) && EntryEnabled(t, j)
    ensures PcOk(w, EntryStep(t, j, EntryMove(w, t.i, t.ref, t.entries[j])))
    ensures t.pc.Launching? || t.pc.Joining?
  {
    MoveOk(w, t.i, t.ref, t.entries[j], t.events[j], t.fetchErrs[j]);
    var t' := EntryStep(t, j, EntryMove(w, t.i, t.ref, t.entries[j]));
    assert forall k | 0 <= k < |t.entries| :: t'.entries[k].meta == t.entries[k].meta;
    assert forall k | 0 <= k < |t.entries| :: t'.entries[k].pc.Unborn? <==> t.entries[k].pc.Unborn?;
    assert !t.entries[j].pc.Gone?;
  }

  lemma EntryStepKeepsTally(w: World, t: RefTask, j: nat)
    requires EntriesOk(w, t) && EntryEnabled(t, j)
    requires t.sem == EntriesTally(w, t).slots && t.sem <= S3_CONCURRENCY && t.fetchWg == EntriesTally(w, t).live
    ensures var m := EntryMove(w, t.i, t.ref, t.entries[j]);
            var t' := EntryStep(t, j, m);
            && t'.sem == EntriesTally(w, t').slots && t'.sem <= S3_CONCURRENCY && t'.fetchWg == EntriesTally(w, t').live
            && EntriesTally(w, t').found == EntriesTally(w, t).found
            && EntriesTally(w, t').fetches == EntriesTally(w, t).fetches + m.fetches
            && EntriesTally(w, t').bytes == EntriesTally(w, t).bytes + m.bytes
            && EntriesTally(w, t').steps == EntriesTally(w, t).steps - 1
  {
    var m := EntryMove(w, t.i, t.ref, t.entries[j]);
    MoveOk(w, t.i, t.ref, t.entries[j], t.events[j], t.fetchErrs[j]);
    EntryStepTally(w, t, j, m.pc);
  }

  /** A step of one entry task keeps its ref's invariant and adds what it counts to the ref's contribution. */
  lemma EntryStepOk(w: World, t: RefTask, j: nat)
    requires RefInv(w, t) && EntryEnabled(t, j)
    ensures var m := EntryMove(w, t.i, t.ref, t.entries[j]);
            var t' := EntryStep(t, j, m);
            && RefInv(w, t') && t'.i == t.i && t'.ref == t.ref && t'.pc == t.pc
            && RefTally(w, t') == RefTally(w, t).(
                 slots := RefTally(w, t').slots, inFlight := RefTally(w, t').inFlight,
                 fetches := RefTally(w, t).fetches + m.fetches,
                 bytes := RefTally(w, t).bytes + m.bytes,
                 steps := RefTally(w, t).steps - 1)
  {
    EntryStepKeepsSlots(w, t, j);
    EntryStepKeepsPc(w, t, j);
    EntryStepKeepsTally(w, t, j);
  }

  /** Freshly made entries hold, owe and have counted nothing but themselves. */
  lemma FreshTally(w: World, i: nat, metas: seq<Metadata>)
    ensures Blank(Sum(EntryTallies(w, i, FreshEntries(metas))))
    ensures Sum(EntryTallies(w, i, FreshEntries(metas))).found == |metas|
  {
    SumBlank(EntryTallies(w, i, FreshEntries(metas)));
    SumFound(EntryTallies(w, i, FreshEntries(metas)));
  }

  /** Once every slot is settled, collecting the slots in order is fetching in order. */
  lemma {:induction false} KeptIsSequential(
    w: World, i: nat, ref: string, metas: seq<Metadata>,
    events: seq<AuthEvent>, errs: seq<Option<FetchError>>, n: nat)
    requires n <= |metas| == |events| == |errs|
    requires forall k: nat | k < |metas| :: SlotsHold(events[k], errs[k], EntryOutcome(w, i, ref, k, metas[k]))
    ensures Kept(events, errs, n) == SeqEvents(w, i, ref, metas, n)
  {
    hide EntryOutcome;
    if n > 0 {
      KeptIsSequential(w, i, ref, metas, events, errs, n - 1);
      assert SlotsHold(events[n - 1], errs[n - 1], EntryOutcome(w, i, ref, n - 1, metas[n - 1]));
    }
  }

  /** The wait group is down to zero only when all entry tasks have gone. */
  lemma JoinMeansGone(w: World, t: RefTask)
    requires RefInv(w, t) && t.pc.Joining? && t.fetchWg == 0
    ensures AllGone(t)
  {
    forall k | 0 <= k < |t.entries| ensures t.entries[k].pc.Gone? {
      NobodyLive(EntryTallies(w, t.i, t.entries), k);
    }
  }

  predicate Published(t: RefTask) { t.pc.RLeaving? || t.pc.RGone? }

  function Slot(w: World, t: RefTask): PerRef {
    if Published(t) then SeqPerRef(w, t.i, t.ref) else NO_RESULT
  }

  lemma LaunchTally(w: World, t: RefTask, next: nat)
    requires RefInv(w, t) && t.pc == Launching(next) && next < |t.entries|
    ensures var entries' := t.entries[next := t.entries[next].(pc := Resolving)];
            Sum(EntryTallies(w, t.i, entries')) == EntriesTally(w, t).(
              live := EntriesTally(w, t).live + 1, steps := EntriesTally(w, t).steps - 1)
  {
    EntryStepTally(w, t, next, Resolving);
  }

  /** What a step of a ref task keeps and contributes; the slot it publishes is the sequential answer. */
  predicate RefMoveOk(w: World, t: RefTask, m: RefMove) {
    && RefInv(w, m.task) && m.task.i == t.i && m.task.ref == t.ref && !m.task.pc.RUnborn?
    && Slot(w, m.task) == (if m.publish.Some? then m.publish.value else Slot(w, t))
    && RefTally(w, m.task) == RefTally(w, t).(
         live := RefTally(w, t).live + m.wg,
         queries := RefTally(w, t).queries + m.queries,
         found := RefTally(w, t).found + m.found,
         steps := RefTally(w, t).steps - 1)
  }

  lemma BranchLoads(w: World, t: RefTask)
    requires RefInv(w, t) && t.pc.Branching? && t.pc.reply.Some? && t.pc.reply.value != []
    ensures PcOk(w, RefStep(w, t).task) && EntriesOk(w, RefStep(w, t).task)
  {
    hide RangeQuery, EntryOutcome, EntrySteps, EntriesTally;
  }

  lemma BranchOk(w: World, t: RefTask)
    requires RefInv(w, t) && t.pc.Branching?
    ensures RefMoveOk(w, t, RefStep(w, t))
  {
    var reply := t.pc.reply;
    if reply.Some? && reply.value != [] {
      hide EntryOutcome, EntryTally, PcOk, EntriesOk;
      BranchLoads(w, t);
      FreshTally(w, t.i, reply.value);
      assert EntryTallies(w, t.i, []) == [];
    }
  }

  lemma LaunchKeeps(w: World, t: RefTask)
    requires RefInv(w, t) && t.pc.Launching?
    ensures PcOk(w, RefStep(w, t).task) && EntriesOk(w, RefStep(w, t).task)
  {
    hide RangeQuery, EntryOutcome, EntrySteps, EntriesTally;
  }

  lemma LaunchOk(w: World, t: RefTask)
    requires RefInv(w, t) && t.pc.Launching?
    ensures RefMoveOk(w, t, RefStep(w, t))
  {
    hide PcOk, EntriesOk, EntryTally;
    LaunchKeeps(w, t);
    if t.pc.next < |t.entries| { LaunchTally(w, t, t.pc.next); }
  }

  lemma CollectsSequentially(w: World, t: RefTask)
    requires RefInv(w, t) && t.pc.Collecting?
    ensures RangeQuery(w, t.i, t.ref).Some?
    ensures Kept(t.events, t.fetchErrs, |t.events|)
         == SeqEvents(w, t.i, t.ref, RangeQuery(w, t.i, t.ref).value, |RangeQuery(w, t.i, t.ref).value|)
  {
    hide EntryOutcome, EntriesTally, RangeQuery;
    var metas := RangeQuery(w, t.i, t.ref).value;
    forall k: nat | k < |metas|
      ensures SlotsHold(t.events[k], t.fetchErrs[k], EntryOutcome(w, t.i, t.ref, k, metas[k]))
    {
      assert t.entries[k] == Entry(k, metas[k], Gone);
    }
    KeptIsSequential(w, t.i, t.ref, metas, t.events, t.fetchErrs, |metas|);
  }

  lemma CollectOk(w: World, t: RefTask)
    requires RefInv(w, t) && t.pc.Collecting?
    ensures RefMoveOk(w, t, RefStep(w, t))
  {
    hide EntryOutcome, EntryTally, Kept, SeqEvents, EntryOk;
    CollectsSequentially(w, t);
  }

  lemma JoinOk(w: World, t: RefTask)
    requires RefInv(w, t) && t.pc.Joining? && t.fetchWg == 0
    ensures RefMoveOk(w, t, RefStep(w, t))
  {
    hide EntryOutcome, EntryTally, EntryOk;
    JoinMeansGone(w, t);
  }

  lemma RefStepOk(w: World, t: RefTask)
    requires RefInv(w, t) && RefEnabled(t)
    ensures RefMoveOk(w, t, RefStep(w, t))
  {
    hide EntryOutcome, EntryTally, EntryOk;
    match t.pc
    case Branching(_) => BranchOk(w, t);
    case Launching(_) => LaunchOk(w, t);
    case Collecting => CollectOk(w, t);
    case Joining => JoinOk(w, t);
    case _ =>
  }

  // ---------------------------------------------------------------- the whole system

  function RefTallies(w: World, refs: seq<RefTask>): seq<Tally> {
    seq(|refs|, k requires 0 <= k < |refs| => RefTally(w, refs[k]))
  }

  function Total(w: World, s: State): Tally {
    Sum(RefTallies(w, s.refs))
  }

  predicate MainOk(w: World, s: State) {
    match s.main
    case Spawning(next) => next <= |s.refs| && forall i | 0 <= i < |s.refs| :: s.refs[i].pc.RUnborn? <==> next <= i
    case Waiting => forall i | 0 <= i < |s.refs| :: !s.refs[i].pc.RUnborn?
    case Done => forall i | 0 <= i < |s.refs| :: s.refs[i].pc.RGone?
  }

  predicate RefsOk(w: World, refIDs: seq<string>, s: State) {
    && |s.refs| == |s.perRef| == |refIDs|
    && forall i | 0 <= i < |refIDs| ::
         && s.refs[i].i == i && s.refs[i].ref == refIDs[i]
         && RefInv(w, s.refs[i])
         && s.perRef[i] == Slot(w, s.refs[i])
  }

  /** The shared wait group and counters are the sums of what all tasks owe and have counted. */
  predicate CountersOk(w: World, s: State) {
    var total := Total(w, s);
    && s.wg == total.live
    && s.counters == Counters(total.queries, total.found, total.fetches, total.bytes)
  }

  predicate Inv(w: World, refIDs: seq<string>, s: State) {
    MainOk(w, s) && RefsOk(w, refIDs, s) && CountersOk(w, s)
  }

  /** How many steps are left, whatever the schedule. */
  function Remaining(w: World, s: State): int {
    (match s.main case Spawning(_) => 2 case Waiting => 1 case Done => 0) + Total(w, s).steps
  }
}
