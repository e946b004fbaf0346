/** ExecuteQuery of the older service and the two concurrent stages under it. */
module QueryEngine {
  import opened FanOut
  import opened FanOutOrder
  import opened FanOutTheorems
  import opened GoText
  import opened Grouping
  import opened Sequences
  import opened StoredEvents

  // ---------------------------------------------------------------- metadata lookup

  datatype ShardFailure = ShardFailure(ref: string)

  type RefJob = Job<string, seq<Metadata>, ShardFailure>

  /** A ref's task: an error is reported, an empty answer dropped, anything else goes into the map. */
  function RefVerdict(w: World, req: Request, i: nat): Verdict<seq<Metadata>, ShardFailure>
    requires i < |req.refIDs|
  {
    match ShardAnswer(w, req, i)
    case None => Failed(ShardFailure(req.refIDs[i]))
    case Some(metas) => if |metas| > 0 then Item(metas) else Nothing
  }

  function RefJobs(w: World, req: Request): seq<RefJob> {
    seq(|req.refIDs|, i requires 0 <= i < |req.refIDs| => Job(req.refIDs[i], 0, RefVerdict(w, req, i)))
  }

  /** The i-th query has come back with entries. */
  predicate Answered(w: World, req: Request, i: nat)
    requires i < |req.refIDs|
  {
    ShardAnswer(w, req, i).Some? && ShardAnswer(w, req, i).value != []
  }

  /** For every ref that some query found entries for, the map holds what one of these queries found. */
  ghost predicate IsLookup(w: World, req: Request, result: map<string, seq<Metadata>>) {
    && (forall i | 0 <= i < |req.refIDs| && Answered(w, req, i) :: req.refIDs[i] in result)
    && forall ref | ref in result :: exists i ::
         0 <= i < |req.refIDs| && req.refIDs[i] == ref && Answered(w, req, i)
         && ShardAnswer(w, req, i).value == result[ref]
  }

  function Failing(w: World, req: Request, n: nat): nat
    requires n <= |req.refIDs|
  {
    if n == 0 then 0 else Failing(w, req, n - 1) + (if ShardAnswer(w, req, n - 1).None? then 1 else 0)
  }

  lemma {:induction false} FailingCount(w: World, req: Request, n: nat)
    requires n <= |req.refIDs|
    ensures |Errors(RefJobs(w, req)[..n])| == Failing(w, req, n)
  {
    if n > 0 {
      FailingCount(w, req, n - 1);
      assert RefJobs(w, req)[..n][..n - 1] == RefJobs(w, req)[..n - 1];
    }
  }

  lemma {:induction false} FailingSet(w: World, req: Request, n: nat)
    requires n <= |req.refIDs|
    ensures Failing(w, req, n) == |set i | 0 <= i < n && ShardAnswer(w, req, i).None?|
  {
    hide ShardAnswer;
    var failed := set i | 0 <= i < n && ShardAnswer(w, req, i).None?;
    if n == 0 {
      assert failed == {};
    } else {
      FailingSet(w, req, n - 1);
      var before := set i | 0 <= i < n - 1 && ShardAnswer(w, req, i).None?;
      assert failed == if ShardAnswer(w, req, n - 1).None? then before + {n - 1} else before;
    }
  }

  /** Of all the shards, a query's answer depends only on the one that the hash of its ref picks. */
  lemma OnlyTheOwnerIsAsked(w: World, other: World, req: Request, i: nat)
    requires i < |req.refIDs| && other == w.(get := other.get)
    requires var ref, path := req.refIDs[i], QueryPath(req, req.refIDs[i]);
             var owner := w.hash("ref:" + ref) % w.shards;
             other.get(i, owner, path) == w.get(i, owner, path)
    ensures ShardAnswer(other, req, i) == ShardAnswer(w, req, i)
  {
  }

  /** On every schedule, the map under the mutex ends up with the refs that have entries, and with entries of theirs. */
  method QueryMetadata(w: World, req: Request) returns (result: map<string, seq<Metadata>>, failures: nat)
    requires w.maxRefs > 0 || req.refIDs == []
    ensures IsLookup(w, req, result)
    ensures failures == |set i | 0 <= i < |req.refIDs| && ShardAnswer(w, req, i).None?|
  {
    hide IsLookup;
    var jobs := RefJobs(w, req);
    var s := Run(Config(Some(w.maxRefs), ToMap), jobs);
    result := s.result;
    MapIsLookup(w, req, s);
    failures := |s.errCh|;
    assert |s.errCh| == |multiset(s.errCh)| == |Errors(jobs)|;
    FailingCount(w, req, |req.refIDs|);
    FailingSet(w, req, |req.refIDs|);
    assert jobs[..|req.refIDs|] == jobs;
  }

  lemma MapIsLookup(w: World, req: Request, s: State<string, seq<Metadata>, ShardFailure>)
    requires Outcome(Config(Some(w.maxRefs), ToMap), RefJobs(w, req), s)
    ensures IsLookup(w, req, s.result)
  {
    hide ShardAnswer;
    var jobs := RefJobs(w, req);
    forall i | 0 <= i < |req.refIDs| && Answered(w, req, i) ensures req.refIDs[i] in s.result {
      assert jobs[i].verdict.Item?;
    }
    forall ref | ref in s.result
      ensures exists i ::
        0 <= i < |req.refIDs| && req.refIDs[i] == ref && Answered(w, req, i)
        && ShardAnswer(w, req, i).value == s.result[ref]
    {
      assert Answers(jobs, ref, s.result[ref]);
      var i :| 0 <= i < |jobs| && jobs[i].key == ref && jobs[i].verdict == Item(s.result[ref]);
      assert Answered(w, req, i);
    }
  }

  /** Whatever a lookup holds has come out of a shard's rows. */
  lemma LookupIsIndexable(w: World, req: Request, result: map<string, seq<Metadata>>)
    requires IsLookup(w, req, result)
    ensures forall ref, m | ref in result && m in result[ref] :: ref in req.refIDs && Indexable(m)
  {
    forall ref, m | ref in result && m in result[ref] ensures ref in req.refIDs && Indexable(m) {
      var i :| 0 <= i < |req.refIDs| && req.refIDs[i] == ref && Answered(w, req, i)
               && ShardAnswer(w, req, i).value == result[ref];
      UsableIsIndexable(w.get(i, w.hash("ref:" + ref) % w.shards, QueryPath(req, ref)).value);
    }
  }

  /** Queries for the same ref that find anything find the same. */
  ghost predicate Consistent(w: World, req: Request) {
    forall i, j | 0 <= i < |req.refIDs| && 0 <= j < |req.refIDs| && req.refIDs[i] == req.refIDs[j]
                  && Answered(w, req, i) && Answered(w, req, j) :: ShardAnswer(w, req, i) == ShardAnswer(w, req, j)
  }

  /**
   * Whether all complete runs leave the same map: exactly when such queries agree, or when there is a single slot, so
   * that the queries run one after another.
   */
  lemma LookupIsUniqueExactly(w: World, req: Request)
    ensures MapIsFixed(Config(Some(w.maxRefs), ToMap), RefJobs(w, req)) <==> Consistent(w, req) || w.maxRefs <= 1
  {
    hide ShardAnswer, MapIsFixed;
    var jobs := RefJobs(w, req);
    MapIsFixedExactly(Config(Some(w.maxRefs), ToMap), jobs);
    assert AnswersAgree(jobs) <==> Consistent(w, req) by {
      assert forall i | 0 <= i < |jobs| ::
        jobs[i].key == req.refIDs[i] && (jobs[i].verdict.Item? <==> Answered(w, req, i));
    }
  }

  /** Two requests whose queries find the same for the same refs have the same lookups. */
  lemma SameLookup(
    w: World, req: Request, req': Request, r: map<string, seq<Metadata>>, r': map<string, seq<Metadata>>)
    requires IsLookup(w, req, r) && IsLookup(w, req', r') && r.Keys == r'.Keys
    requires forall i, j | 0 <= i < |req.refIDs| && 0 <= j < |req'.refIDs| && req.refIDs[i] == req'.refIDs[j]
                           && Answered(w, req, i) && Answered(w, req', j) ::
               ShardAnswer(w, req, i) == ShardAnswer(w, req', j)
    ensures r == r'
  {
    hide ShardAnswer;
  }

  // ---------------------------------------------------------------- event fetching

  datatype FileFailure = FileFailure(path: string)

  type FileJob = Job<string, seq<Event>, FileFailure>

  function FileJobOf(path: string, r: FileOutcome): FileJob
    requires !r.Crashed?
  {
    match r
    case Unavailable => Job(path, 0, Failed(FileFailure(path)))
    case Fetched(events, bytes) => Job(path, bytes, if |events| > 0 then Item(events) else Nothing)
  }

  function Same(): seq<Event> -> seq<Event> {
    (events: seq<Event>) => events
  }

  /** The events of a whole file, whatever else it comes to. */
  function FileEvents(w: World, req: Request, grouped: map<string, seq<Metadata>>): string -> seq<Event> {
    (path: string) =>
      if path in grouped && ReadFile(w, req, grouped[path]).Fetched? then ReadFile(w, req, grouped[path]).events else []
  }

  /** Draining the channel: stop as soon as the limit is reached. */
  method Gather(arrivals: seq<seq<Event>>, limit: int) returns (allEvents: seq<Event>)
    ensures var all := FlatMap(Same(), arrivals);
            allEvents == if 0 < limit <= |all| then all[..limit] else all
  {
    allEvents := [];
    for k := 0 to |arrivals|
      invariant allEvents == FlatMap(Same(), arrivals[..k])
      invariant limit > 0 ==> |allEvents| < limit
    {
      ghost var rest := arrivals[k + 1..];
      assert arrivals == arrivals[..k] + ([arrivals[k]] + rest) && arrivals[..k + 1] == arrivals[..k] + [arrivals[k]];
      FlatMapConcat(Same(), arrivals[..k], [arrivals[k]] + rest);
      FlatMapConcat(Same(), [arrivals[k]], rest);
      FlatMapConcat(Same(), arrivals[..k], [arrivals[k]]);
      FlatMapOne(Same(), arrivals[k]);
      allEvents := allEvents + arrivals[k];
      if limit > 0 && |allEvents| >= limit {
        return allEvents[..limit];
      }
    }
    assert arrivals[..|arrivals|] == arrivals;
  }

  function FileBytes(w: World, req: Request, grouped: map<string, seq<Metadata>>, path: string): nat {
    if path in grouped && ReadFile(w, req, grouped[path]).Fetched? then ReadFile(w, req, grouped[path]).bytes else 0
  }

  function TotalBytes(w: World, req: Request, grouped: map<string, seq<Metadata>>, order: seq<string>): nat {
    if order == [] then 0
    else TotalBytes(w, req, grouped, order[..|order| - 1]) + FileBytes(w, req, grouped, order[|order| - 1])
  }

  /** The jobs' values and bytes are those of the files, taken in the given order, and no file crashes. */
  ghost predicate JobsRead(
    w: World, req: Request, grouped: map<string, seq<Metadata>>, order: seq<string>, jobs: seq<FileJob>)
  {
    && |jobs| == |order|
    && FlatMap(Same(), Items(jobs)) == FlatMap(FileEvents(w, req, grouped), order)
    && BytesRead(jobs) == TotalBytes(w, req, grouped, order)
    && forall path | path in order :: path in grouped && !ReadFile(w, req, grouped[path]).Crashed?
  }

  lemma JobsStep(
    w: World, req: Request, grouped: map<string, seq<Metadata>>, order: seq<string>, jobs: seq<FileJob>, path: string)
    requires JobsRead(w, req, grouped, order, jobs)
    requires path in grouped && !ReadFile(w, req, grouped[path]).Crashed?
    ensures JobsRead(w, req, grouped, order + [path], jobs + [FileJobOf(path, ReadFile(w, req, grouped[path]))])
  {
    hide ReadFile, FileJobOf, FileEvents, FileBytes;
    var g := FileEvents(w, req, grouped);
    ItemsStep(jobs, w, req, grouped, path);
    FlatMapConcat(g, order, [path]);
    FlatMapOne(g, path);
    assert (order + [path])[..|order|] == order;
  }

  lemma ItemsStep(jobs: seq<FileJob>, w: World, req: Request, grouped: map<string, seq<Metadata>>, path: string)
    requires path in grouped && !ReadFile(w, req, grouped[path]).Crashed?
    ensures var job := FileJobOf(path, ReadFile(w, req, grouped[path]));
            && FlatMap(Same(), Items(jobs + [job])) == FlatMap(Same(), Items(jobs)) + FileEvents(w, req, grouped)(path)
            && BytesRead(jobs + [job]) == BytesRead(jobs) + FileBytes(w, req, grouped, path)
  {
    hide ReadFile;
    var job := FileJobOf(path, ReadFile(w, req, grouped[path]));
    assert (jobs + [job])[..|jobs|] == jobs;
    FlatMapConcat(Same(), Items(jobs), ItemOf(job.verdict));
    if job.verdict.Item? {
      FlatMapOne(Same(), job.verdict.value);
    } else {
      assert FileEvents(w, req, grouped)(path) == [];
    }
  }

  /** What each file's task will come to, fixed before any of them is scheduled; None if one of them crashes. */
  method FileJobs(w: World, req: Request, grouped: map<string, seq<Metadata>>, order: seq<string>)
    returns (r: Option<seq<FileJob>>)
    requires forall path | path in order :: path in grouped
    ensures r.None? ==> exists path :: path in grouped && ReadFile(w, req, grouped[path]).Crashed?
    ensures r.Some? ==> JobsRead(w, req, grouped, order, r.value)
  {
    hide ReadFile, JobsRead;
    var jobs: seq<FileJob> := [];
    assert JobsRead(w, req, grouped, order[..0], jobs) by { NoJobs(w, req, grouped); }
    for k := 0 to |order|
      invariant JobsRead(w, req, grouped, order[..k], jobs)
    {
      var path := order[k];
      var file := FetchFile(w, req, grouped[path]);
      if file.Crashed? {
        return None;
      }
      JobsStep(w, req, grouped, order[..k], jobs, path);
      assert order[..k + 1] == order[..k] + [path];
      jobs := jobs + [FileJobOf(path, file)];
    }
    assert order[..|order|] == order;
    return Some(jobs);
  }

  lemma NoJobs(w: World, req: Request, grouped: map<string, seq<Metadata>>)
    ensures JobsRead(w, req, grouped, [], [])
  {
  }

  datatype Fetch = Crash | Events(events: seq<Event>, bytes: nat, files: nat)

  /** `all` is every file's events in the order in which the channel delivered them. */
  ghost predicate Delivered(
    w: World, req: Request, metas: seq<Metadata>, r: Fetch,
    grouped: map<string, seq<Metadata>>, order: seq<string>, all: seq<Event>)
    requires r.Events?
  {
    && IsGrouping(metas, grouped) && Distinct(order) && (forall path :: path in order <==> path in grouped)
    && (forall path | path in grouped :: !ReadFile(w, req, grouped[path]).Crashed?)
    && multiset(all) == multiset(FlatMap(FileEvents(w, req, grouped), order))
    && r.events == (if 0 < req.limit <= |all| then all[..req.limit] else all)
    && r.bytes == TotalBytes(w, req, grouped, order)
    && r.files == |grouped|
  }

  /** All files, in some order of the map and of the arrivals; a crash in any of them is a crash of the process. */
  method FetchEvents(w: World, req: Request, metas: seq<Metadata>) returns (r: Fetch)
    requires w.maxFetches > 0 || metas == []
    ensures r.Crash? ==>
              exists grouped, path ::
                IsGrouping(metas, grouped) && path in grouped && ReadFile(w, req, grouped[path]).Crashed?
    ensures r.Events? ==> exists grouped, order, all :: Delivered(w, req, metas, r, grouped, order, all)
  {
    hide ReadFile, IsGrouping, FileEvents, TotalBytes, Outcome, JobsRead, Delivered;
    var grouped := GroupByPath(metas);
    var order := AnyOrder(grouped.Keys);
    var jobs := FileJobs(w, req, grouped, order);
    if jobs.None? {
      return Crash;
    }
    JobsBounded(w, req, metas, grouped, order, jobs.value);
    var s := Run(Config(Some(w.maxFetches), ToChannel), jobs.value);
    var events := Gather(s.itemCh, req.limit);
    TallyIsBytes(w, jobs.value, s);
    r := Events(events, s.tally, |grouped|);
    ArrivalsAreFiles(w, req, metas, r, grouped, order, jobs.value, s);
  }

  lemma TallyIsBytes(w: World, jobs: seq<FileJob>, s: State<string, seq<Event>, FileFailure>)
    requires Outcome(Config(Some(w.maxFetches), ToChannel), jobs, s)
    ensures s.tally == BytesRead(jobs)
  {
  }

  lemma JobsBounded(
    w: World, req: Request, metas: seq<Metadata>, grouped: map<string, seq<Metadata>>, order: seq<string>,
    jobs: seq<FileJob>)
    requires IsGrouping(metas, grouped) && JobsRead(w, req, grouped, order, jobs)
    ensures metas == [] ==> |jobs| == 0
  {
    HasMember(order);
    if metas == [] {
      assert Paths(metas) == {};
      assert forall path :: path !in order;
    }
  }

  /** What has arrived on the channel is what the files hold. */
  lemma ArrivalsAreFiles(
    w: World, req: Request, metas: seq<Metadata>, r: Fetch, grouped: map<string, seq<Metadata>>, order: seq<string>,
    jobs: seq<FileJob>, s: State<string, seq<Event>, FileFailure>)
    requires IsGrouping(metas, grouped) && Distinct(order) && forall path :: path in order <==> path in grouped
    requires JobsRead(w, req, grouped, order, jobs) && Outcome(Config(Some(w.maxFetches), ToChannel), jobs, s)
    requires var all := FlatMap(Same(), s.itemCh);
             r == Events(if 0 < req.limit <= |all| then all[..req.limit] else all, s.tally, |grouped|)
    ensures Delivered(w, req, metas, r, grouped, order, FlatMap(Same(), s.itemCh))
  {
    hide ReadFile, IsGrouping, FileEvents, TotalBytes, Answers;
    FlatMapPermutation(Same(), s.itemCh, Items(jobs));
  }
}
