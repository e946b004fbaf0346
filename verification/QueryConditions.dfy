/** When the older service's answer is the reference answer, and what it comes to otherwise. */
module QueryConditions {
  import opened ByteRanges
  import opened ExecuteQuery
  import opened FanOut
  import opened FanOutOrder
  import opened FanOutTheorems
  import opened GoSort
  import opened GoText
  import opened Grouping
  import opened QueryEngine
  import opened Pointers
  import opened Sequences
  import opened StoredEvents

  // ---------------------------------------------------------------- requests

  /** When queries for the same ref find the same, neither order nor repetition of the requested refs matters. */
  lemma {:induction false} DuplicateRefsChangeNothing(
    w: World, req: Request, refIDs: seq<string>,
    result: map<string, seq<Metadata>>, result': map<string, seq<Metadata>>)
    requires forall ref :: ref in refIDs <==> ref in req.refIDs
    requires var req' := req.(refIDs := refIDs);
             && IsLookup(w, req, result) && IsLookup(w, req', result')
             && forall i, j | 0 <= i < |req.refIDs| && 0 <= j < |refIDs| && req.refIDs[i] == refIDs[j] ::
                  ShardAnswer(w, req, i) == ShardAnswer(w, req', j)
    ensures multiset(Reference(w, req.(refIDs := refIDs), result')) == multiset(Reference(w, req, result))
  {
    hide ShardAnswer, EntryEvents;
    var req' := req.(refIDs := refIDs);
    SameLookup(w, req, req', result, result') by {
      SameKeys(w, req, req', result, result');
    }
    FlatMapSupport(EntriesIn(result), Dedup(refIDs), Dedup(req.refIDs));
    FlatMapPermutation(EntryFetch(w, req), Wanted(req', result'), Wanted(req, result));
    FlatMapSame(EntryFetch(w, req), EntryFetch(w, req'), Wanted(req', result')) by {
      forall m ensures EntryFetch(w, req)(m) == EntryFetch(w, req')(m) { SameEntry(w, req, refIDs, m); }
    }
  }

  lemma SameKeys(
    w: World, req: Request, req': Request, result: map<string, seq<Metadata>>, result': map<string, seq<Metadata>>)
    requires IsLookup(w, req, result) && IsLookup(w, req', result')
    requires forall ref :: ref in req'.refIDs <==> ref in req.refIDs
    requires forall i, j | 0 <= i < |req.refIDs| && 0 <= j < |req'.refIDs| && req.refIDs[i] == req'.refIDs[j] ::
               ShardAnswer(w, req, i) == ShardAnswer(w, req', j)
    ensures result.Keys == result'.Keys
  {
    hide ShardAnswer;
    forall ref ensures ref in result <==> ref in result' {
      if ref in result {
        var i :| 0 <= i < |req.refIDs| && req.refIDs[i] == ref && Answered(w, req, i);
        assert ref in req'.refIDs;
        var j :| 0 <= j < |req'.refIDs| && req'.refIDs[j] == ref;
        assert ShardAnswer(w, req, i) == ShardAnswer(w, req', j) && Answered(w, req', j);
      }
      if ref in result' {
        var j :| 0 <= j < |req'.refIDs| && req'.refIDs[j] == ref && Answered(w, req', j);
        assert ref in req.refIDs;
        var i :| 0 <= i < |req.refIDs| && req.refIDs[i] == ref;
        assert ShardAnswer(w, req, i) == ShardAnswer(w, req', j) && Answered(w, req, i);
      }
    }
  }

  lemma SameEntry(w: World, req: Request, refIDs: seq<string>, meta: Metadata)
    ensures EntryEvents(w, req.(refIDs := refIDs), meta) == EntryEvents(w, req, meta)
  {
    hide SliceEvents;
    if w.getObject(meta.bucket, meta.objectKey).Some? {
      SliceOne(w, req, w.getObject(meta.bucket, meta.objectKey).value, meta);
      SliceOne(w, req.(refIDs := refIDs), w.getObject(meta.bucket, meta.objectKey).value, meta);
    }
  }

  // ---------------------------------------------------------------- ordinary entries

  predicate ValidRange(meta: Metadata) {
    0 <= meta.startByte <= meta.endByte
  }

  lemma ValidRangesNeverCrash(w: World, req: Request, meta: Metadata)
    requires ValidRange(meta)
    ensures !CrashesAlone(w, req, meta)
  {
    CrashesAloneExactly(w, req, meta);
  }

  /** Buckets without a slash and ranges that do not end before they start: every query is answered, and exactly. */
  lemma {:induction false} OrdinaryQueriesAreExact(
    w: World, req: Request, result: map<string, seq<Metadata>>, metas: seq<Metadata>, r: Response)
    requires Collected(w, req, result, metas) && Responds(w, req, metas, r)
    requires forall m | m in Wanted(req, result) :: Free(m.bucket, '/') && ValidRange(m)
    ensures r.Answer? && forall i, j | 0 <= i < j < |r.events| :: r.events[i].timestamp <= r.events[j].timestamp
    ensures req.limit <= 0 ==> multiset(r.events) == multiset(Reference(w, req, result))
    ensures req.limit > 0 ==>
              var total := |Reference(w, req, result)|;
              && |r.events| == (if req.limit <= total then req.limit else total)
              && multiset(r.events) <= multiset(Reference(w, req, result))
  {
    hide Wanted, IsLookup, Reference, Responds, CrashesAlone, PathsNameObjects;
    var wanted := Wanted(req, result);
    forall a, b | a in wanted && b in wanted ensures !Nested(a.bucket, b.bucket) {
      if Nested(a.bucket, b.bucket) { NestedHasSlash(a.bucket, b.bucket); }
    }
    UnnestedBucketsSuffice(wanted);
    forall m | m in wanted ensures !CrashesAlone(w, req, m) { ValidRangesNeverCrash(w, req, m); }
    EndToEnd(w, req, result, metas, r);
    AscendingAndFiltered(w, req, metas, r);
  }

  // ---------------------------------------------------------------- a world to show what goes wrong

  const SOME_EVENT := Event("e", "r", 0, "", "", map[])

  const ONE_REF := Request(["r"], 0, 0, "", "", 0)

  /** Every shard answers with these rows, every object holds these bytes, and all bytes parse. */
  function FixedWorld(rows: seq<Row>, clients: set<string>, data: seq<Byte>): World {
    World((key: string) => 0, 1, (i: nat, shard: int, path: string) => Some(rows), clients,
          (bucket: string, objectKey: string) => Some(data), (raw: seq<Byte>) => Some(SOME_EVENT), 1, 1)
  }

  lemma FixedAnswer(rows: seq<Row>, clients: set<string>, data: seq<Byte>)
    ensures ShardAnswer(FixedWorld(rows, clients, data), ONE_REF, 0) == Some(Usable(rows))
  {
    hide Usable, QueryPath;
  }

  /** The one lookup there is for the one ref. */
  lemma FixedLookup(rows: seq<Row>, clients: set<string>, data: seq<Byte>, result: map<string, seq<Metadata>>)
    requires Usable(rows) != []
    ensures IsLookup(FixedWorld(rows, clients, data), ONE_REF, result) <==> result == map["r" := Usable(rows)]
  {
    hide Usable, ShardAnswer, FixedWorld;
    var w := FixedWorld(rows, clients, data);
    FixedAnswer(rows, clients, data);
    assert ONE_REF.refIDs == ["r"] && Answered(w, ONE_REF, 0);
    if IsLookup(w, ONE_REF, result) {
      assert ONE_REF.refIDs[0] in result;
      assert forall ref | ref in result :: ref == "r" && result[ref] == Usable(rows);
      assert result.Keys == {"r"};
    }
  }

  lemma WantedOfOne(metas: seq<Metadata>)
    ensures Wanted(ONE_REF, map["r" := metas]) == metas
  {
    assert Dedup(["r"]) == ["r"] by {
      assert ["r"][..0] == [];
      assert Dedup<string>([]) == [];
    }
    FlatMapOne(EntriesIn(map["r" := metas]), "r");
  }

  // ---------------------------------------------------------------- a repeated ref

  const REF_TWICE := ONE_REF.(refIDs := ["r", "r"])

  /** The entry that the i-th query finds. */
  function Found(i: nat): Metadata {
    Metadata("b", "k", 0, 1, if i == 0 then 0 else 1)
  }

  /** A ref's entry is re-indexed, with another time stamp, between the first query for it and the second. */
  function RacingWorld(slots: nat): World {
    FixedWorld([], {"b"}, [0]).(
      get := (i: nat, shard: int, path: string) => Some([RowOf(Found(i))]), maxRefs := slots)
  }

  lemma RacingAnswers(slots: nat, i: nat)
    requires i < 2
    ensures ShardAnswer(RacingWorld(slots), REF_TWICE, i) == Some([Found(i)])
  {
    hide ParseS3Path, QueryPath;
    PipeForm("b", "k");
    UsableOne(RowOf(Found(i)));
  }

  lemma RacingJobs(slots: nat)
    ensures var jobs := RefJobs(RacingWorld(slots), REF_TWICE);
            |jobs| == 2 && forall i | 0 <= i < 2 :: jobs[i] == Job("r", 0, Item([Found(i)]))
  {
    hide ShardAnswer, RacingWorld;
    forall i | 0 <= i < 2
      ensures RefJobs(RacingWorld(slots), REF_TWICE)[i] == Job("r", 0, Item([Found(i)]))
    {
      RacingAnswers(slots, i);
      assert REF_TWICE.refIDs[i] == "r";
    }
  }

  /** With two slots the map may end up with either entry. */
  lemma RepeatedRefRaces() returns (run: seq<Action>, run': seq<Action>)
    ensures var cfg, jobs := Config(Some(2), ToMap), RefJobs(RacingWorld(2), REF_TWICE);
            && Complete(cfg, jobs, run) && After(cfg, jobs, Init(jobs), run).result == map["r" := [Found(0)]]
            && Complete(cfg, jobs, run') && After(cfg, jobs, Init(jobs), run').result == map["r" := [Found(1)]]
  {
    hide RefJobs, RacingWorld, Runs, After;
    RacingJobs(2);
    run := RacingRun(0);
    run' := RacingRun(1);
  }

  lemma RacingRun(d: nat) returns (run: seq<Action>)
    requires d < 2
    ensures var cfg, jobs := Config(Some(2), ToMap), RefJobs(RacingWorld(2), REF_TWICE);
            Complete(cfg, jobs, run) && After(cfg, jobs, Init(jobs), run).result == map["r" := [Found(d)]]
  {
    hide RefJobs, RacingWorld, Runs, After, Outcome;
    var cfg, jobs := Config(Some(2), ToMap), RefJobs(RacingWorld(2), REF_TWICE);
    RacingJobs(2);
    run := AnyoneMayBeLast(cfg, jobs, d);
    EveryScheduleDelivers(cfg, jobs, run);
    OnlyKey(cfg, jobs, After(cfg, jobs, Init(jobs), run), "r");
  }

  lemma OnlyKey(
    cfg: Config, jobs: seq<RefJob>, s: State<string, seq<Metadata>, ShardFailure>, ref: string)
    requires Outcome(cfg, jobs, s) && forall i | 0 <= i < |jobs| :: jobs[i].key == ref
    ensures forall k | k in s.result :: k == ref
  {
    forall k | k in s.result ensures k == ref { assert Answers(jobs, k, s.result[k]); }
  }

  /** With one slot it always ends up with that of the second query. */
  lemma RepeatedRefInOrder(run: seq<Action>)
    requires Complete(Config(Some(1), ToMap), RefJobs(RacingWorld(1), REF_TWICE), run)
    ensures var jobs := RefJobs(RacingWorld(1), REF_TWICE);
            After(Config(Some(1), ToMap), jobs, Init(jobs), run).result == map["r" := [Found(1)]]
  {
    hide RefJobs, RacingWorld, Runs, After;
    var jobs := RefJobs(RacingWorld(1), REF_TWICE);
    RacingJobs(1);
    OneSlotWritesInOrder(Config(Some(1), ToMap), jobs, run);
    assert Fold(jobs, 1) == map["r" := [Found(0)]];
  }

  // ---------------------------------------------------------------- a backward range

  const BACKWARD_ROW := Row("b|k", 1, 0, 0)

  const BACKWARD_WORLD := FixedWorld([BACKWARD_ROW], {"b"}, [0, 0])

  /** One row whose range ends before it starts, in an object of two bytes: the query can only crash. */
  lemma BackwardRangeCrashes(result: map<string, seq<Metadata>>, metas: seq<Metadata>, r: Response)
    requires Collected(BACKWARD_WORLD, ONE_REF, result, metas) && Responds(BACKWARD_WORLD, ONE_REF, metas, r)
    ensures var meta := Metadata("b", "k", 1, 0, 0);
            && Usable([BACKWARD_ROW]) == [meta]
            && CrashesAlone(BACKWARD_WORLD, ONE_REF, meta)
    ensures r == Response.Crashed
  {
    hide Usable, CrashesAlone, Responds, Wanted, FixedWorld, IsLookup;
    var meta := Metadata("b", "k", 1, 0, 0);
    BackwardEntry();
    FixedLookup([BACKWARD_ROW], {"b"}, [0, 0], result);
    WantedOfOne([meta]);
    assert meta in Wanted(ONE_REF, result);
    EndToEnd(BACKWARD_WORLD, ONE_REF, result, metas, r);
  }

  lemma BackwardEntry()
    ensures var meta := Metadata("b", "k", 1, 0, 0);
            Usable([BACKWARD_ROW]) == [meta] && CrashesAlone(BACKWARD_WORLD, ONE_REF, meta)
  {
    hide ParseS3Path, ReadFile;
    assert "b|k" == "b" + ['|'] + "k";
    PipeForm("b", "k");
    UsableOne(BACKWARD_ROW);
    CrashesAloneExactly(BACKWARD_WORLD, ONE_REF, Metadata("b", "k", 1, 0, 0));
  }

  // ---------------------------------------------------------------- nested buckets

  /** The rows of two entries with the same path, in a service that only has a client for the outer bucket. */
  function NestedRows(outer: string, inner: string): seq<Row>
    requires Nested(outer, inner)
  {
    [RowOf(InnerEntry(inner)), RowOf(OuterEntry(outer, inner))]
  }

  function RowOf(meta: Metadata): Row {
    Row(meta.bucket + ['|'] + meta.objectKey, meta.startByte, meta.endByte, meta.timestamp)
  }

  function NestedWorld(outer: string, inner: string): World
    requires Nested(outer, inner)
  {
    FixedWorld(NestedRows(outer, inner), {outer}, [0])
  }

  function NestedEntries(outer: string, inner: string): seq<Metadata>
    requires Nested(outer, inner)
  {
    [InnerEntry(inner), OuterEntry(outer, inner)]
  }

  lemma NestedUsable(outer: string, inner: string)
    requires BucketName(outer) && BucketName(inner) && Nested(outer, inner)
    ensures Usable(NestedRows(outer, inner)) == NestedEntries(outer, inner)
  {
    hide ParseS3Path;
    var a, b := InnerEntry(inner), OuterEntry(outer, inner);
    PipeForm(a.bucket, a.objectKey);
    PipeForm(b.bucket, b.objectKey);
    NestedShareAPath(outer, inner);
    UsableOne(RowOf(a));
    assert NestedRows(outer, inner)[..1] == [RowOf(a)];
  }

  /** Read together, the two entries yield nothing, for want of a client; read alone, the outer one yields an event. */
  lemma NestedLoses(outer: string, inner: string)
    requires BucketName(outer) && BucketName(inner) && Nested(outer, inner)
    ensures var w, metas := NestedWorld(outer, inner), NestedEntries(outer, inner);
            && ReadFile(w, ONE_REF, metas).Unavailable?
            && FlatMap(EntryFetch(w, ONE_REF), metas) == [SOME_EVENT]
  {
    var w, metas := NestedWorld(outer, inner), NestedEntries(outer, inner);
    SliceOne(w, ONE_REF, [0], metas[1]);
    hide ReadFile;
    assert metas == [metas[0]] + [metas[1]];
    FlatMapConcat(EntryFetch(w, ONE_REF), [metas[0]], [metas[1]]);
    FlatMapOne(EntryFetch(w, ONE_REF), metas[0]);
    FlatMapOne(EntryFetch(w, ONE_REF), metas[1]);
  }

  /** For instance, the object b/k of bucket a and the object k of bucket a/b. */
  lemma NestedBucketsLoseAnEvent()
    ensures var rows := [Row("a/b|k", 0, 1, 0), Row("a|b/k", 0, 1, 0)];
            var metas := [Metadata("a/b", "k", 0, 1, 0), Metadata("a", "b/k", 0, 1, 0)];
            var w := FixedWorld(rows, {"a"}, [0]);
            && Usable(rows) == metas && PathOf(metas[0]) == PathOf(metas[1])
            && ReadFile(w, ONE_REF, metas).Unavailable?
            && FlatMap(EntryFetch(w, ONE_REF), metas) == [SOME_EVENT]
  {
    hide Usable, ReadFile, FixedWorld, NestedRows, NestedEntries;
    NestedSpelled();
    NestedUsable("a", "a/b");
    NestedLoses("a", "a/b");
  }

  lemma NestedSpelled()
    ensures BucketName("a") && BucketName("a/b") && Nested("a", "a/b")
    ensures NestedRows("a", "a/b") == [Row("a/b|k", 0, 1, 0), Row("a|b/k", 0, 1, 0)]
    ensures NestedEntries("a", "a/b") == [Metadata("a/b", "k", 0, 1, 0), Metadata("a", "b/k", 0, 1, 0)]
  {
    assert "a" + ['/'] <= "a/b" && "a/b"[2..] + "/k" == "b/k";
    assert "a" + ['|'] + "b/k" == "a|b/k" && "a/b" + ['|'] + "k" == "a/b|k";
  }

  predicate InBuckets(metas: seq<Metadata>, buckets: set<string>) {
    forall m | m in metas :: m.bucket in buckets && ValidRange(m)
  }

  predicate OnePath(metas: seq<Metadata>) {
    forall m | m in metas :: PathOf(m) == PathOf(metas[0])
  }

  /** Whatever the index, the stores and the request: entries of one path read alike together and alone. */
  ghost predicate GroupsReadAlike(buckets: set<string>) {
    forall w, req, metas |
      InBuckets(metas, buckets) && OnePath(metas) && (forall m | m in metas :: Indexable(m)) ::
      ReadsAlike(w, req, metas)
  }

  /** Grouped fetch agrees with per-entry fetch exactly when no bucket is nested in another. */
  lemma GroupedFetchExactly(buckets: set<string>)
    ensures GroupsReadAlike(buckets) <==> Unnested(buckets)
  {
    hide ReadFile, Indexable, PathOf;
    if Unnested(buckets) {
      forall w, req, metas |
        InBuckets(metas, buckets) && OnePath(metas) && (forall m | m in metas :: Indexable(m))
        ensures ReadsAlike(w, req, metas)
      {
        UnnestedGroup(metas, buckets);
        GroupIsElementwise(w, req, metas);
      }
    }
    if x, y :| x in buckets && y in buckets && BucketName(x) && BucketName(y) && Nested(x, y) {
      NestedLoses(x, y);
      NestedShareAPath(x, y);
      assert !ReadsAlike(NestedWorld(x, y), ONE_REF, NestedEntries(x, y));
    }
  }

  lemma UnnestedGroup(metas: seq<Metadata>, buckets: set<string>)
    requires Unnested(buckets) && InBuckets(metas, buckets) && forall m | m in metas :: Indexable(m)
    ensures PathsNameObjects(metas)
    ensures OnePath(metas) ==> SameObject(metas)
  {
    hide PathsNameObjects;
    UnnestedBucketsSuffice(metas);
    if OnePath(metas) {
      forall m | m in metas ensures m.bucket == metas[0].bucket && m.objectKey == metas[0].objectKey {
        SamePathCases(m, metas[0]);
      }
    }
  }

  /** Whatever the index, the stores, the request and the schedule: the answer is the reference answer. */
  ghost predicate QueriesMeetReference(buckets: set<string>) {
    forall w, req, result, metas, r |
      Collected(w, req, result, metas) && InBuckets(metas, buckets) && Responds(w, req, metas, r) ::
      MeetsReference(w, req, result, r)
  }

  /** So do whole queries. */
  lemma EndToEndExactly(buckets: set<string>)
    ensures QueriesMeetReference(buckets) <==> Unnested(buckets)
  {
    hide Responds, MeetsReference, IsLookup;
    if Unnested(buckets) {
      forall w, req, result, metas, r |
        Collected(w, req, result, metas) && InBuckets(metas, buckets) && Responds(w, req, metas, r)
        ensures MeetsReference(w, req, result, r)
      {
        WantedIsIndexable(w, req, result);
        CollectedIsWanted(w, req, result, metas);
        SameEntries(w, req, metas, Wanted(req, result));
        UnnestedGroup(metas, buckets);
        EndToEnd(w, req, result, metas, r);
      }
    }
    if x, y :| x in buckets && y in buckets && BucketName(x) && BucketName(y) && Nested(x, y) {
      var metas, r := NestedEntries(x, y), Answer([], 0, Metrics(1, 2, 1, 0, 0));
      NestedQueryAnswers(x, y);
      NestedQueryLoses(x, y, map["r" := metas], metas, r);
      assert !MeetsReference(NestedWorld(x, y), ONE_REF, map["r" := metas], r) by { MissesReference(x, y); }
    }
  }

  lemma MissesReference(outer: string, inner: string)
    requires Nested(outer, inner)
    requires var result := map["r" := NestedEntries(outer, inner)];
             Reference(NestedWorld(outer, inner), ONE_REF, result) == [SOME_EVENT]
    ensures var result := map["r" := NestedEntries(outer, inner)];
            !MeetsReference(NestedWorld(outer, inner), ONE_REF, result, Answer([], 0, Metrics(1, 2, 1, 0, 0)))
  {
    hide Reference, Wanted, BytesHeld, NestedWorld;
  }

  lemma WantedIsIndexable(w: World, req: Request, result: map<string, seq<Metadata>>)
    requires IsLookup(w, req, result)
    ensures forall m | m in Wanted(req, result) :: Indexable(m)
  {
    LookupIsIndexable(w, req, result);
    FlatMapMembers(EntriesIn(result), Dedup(req.refIDs));
  }

  /** Every query over these two rows comes back empty although an event is there. */
  lemma NestedQueryLoses(
    outer: string, inner: string, result: map<string, seq<Metadata>>, metas: seq<Metadata>, r: Response)
    requires BucketName(outer) && BucketName(inner) && Nested(outer, inner)
    requires var w := NestedWorld(outer, inner);
             Collected(w, ONE_REF, result, metas) && Responds(w, ONE_REF, metas, r)
    ensures r == Answer([], 0, Metrics(1, 2, 1, 0, 0))
    ensures Reference(NestedWorld(outer, inner), ONE_REF, result) == [SOME_EVENT]
  {
    hide Usable, IsLookup, Wanted, Responds, ReadFile, PathOf;
    var entries := NestedEntries(outer, inner);
    NestedUsable(outer, inner);
    FixedLookup(NestedRows(outer, inner), {outer}, [0], result);
    WantedOfOne(entries);
    NestedLoses(outer, inner);
    NestedShareAPath(outer, inner);
    OneKeyOneOrder(entries, metas);
    UnservedAnswer(NestedWorld(outer, inner), entries, r);
  }

  lemma OneKeyOneOrder(entries: seq<Metadata>, metas: seq<Metadata>)
    requires var result := map["r" := entries];
             exists order :: InKeyOrder(result, order) && metas == FlatMap(EntriesIn(result), order)
    ensures metas == entries
  {
    var result := map["r" := entries];
    var order :| InKeyOrder(result, order) && metas == FlatMap(EntriesIn(result), order);
    DistinctSize(order, {"r"});
    assert order[0] in order;
    assert order == ["r"];
    FlatMapOne(EntriesIn(result), "r");
  }

  /** And there is such a query. */
  lemma NestedQueryAnswers(outer: string, inner: string)
    requires BucketName(outer) && BucketName(inner) && Nested(outer, inner)
    ensures var w, metas := NestedWorld(outer, inner), NestedEntries(outer, inner);
            && Collected(w, ONE_REF, map["r" := metas], metas)
            && Responds(w, ONE_REF, metas, Answer([], 0, Metrics(1, 2, 1, 0, 0)))
  {
    hide Usable, IsLookup, Responds, PathOf;
    var metas := NestedEntries(outer, inner);
    NestedUsable(outer, inner);
    FixedLookup(NestedRows(outer, inner), {outer}, [0], map["r" := metas]);
    NestedShareAPath(outer, inner);
    assert InKeyOrder(map["r" := metas], ["r"]);
    FlatMapOne(EntriesIn(map["r" := metas]), "r");
    UnservedAnswer(NestedWorld(outer, inner), metas, Answer([], 0, Metrics(1, 2, 1, 0, 0)));
  }

  /** Two entries with one path, of which the first lies in a bucket without a client. */
  lemma UnservedAnswer(w: World, metas: seq<Metadata>, r: Response)
    requires |metas| == 2 && PathOf(metas[0]) == PathOf(metas[1]) && metas[0].bucket !in w.clients
    ensures Responds(w, ONE_REF, metas, r) <==> r == Answer([], 0, Metrics(1, 2, 1, 0, 0))
  {
    hide OnKey, BytesHeld, PathEvents, PathList, PathFile, PathOf, Paths;
    TwoOnOnePath(metas);
    NothingIn(w, metas);
    if r.Answer? { assert |r.events| == |multiset(r.events)|; }
  }

  lemma TwoOnOnePath(metas: seq<Metadata>)
    requires |metas| == 2 && PathOf(metas[0]) == PathOf(metas[1])
    ensures OnKey(Path(), metas, PathOf(metas[0])) == metas && Paths(metas) == {PathOf(metas[0])}
  {
    hide PathOf;
    var path, last := PathOf(metas[0]), metas[1..];
    assert last == [metas[1]] && last[1..] == [];
    assert OnKey(Path(), last, path) == last;
    assert metas == [metas[0]] + last;
    assert metas[0] in metas;
  }

  /** Files whose first entry lies in a bucket without a client hold no bytes and yield no events. */
  lemma NothingIn(w: World, metas: seq<Metadata>)
    requires forall path | path in Paths(metas) ::
               var group := OnKey(Path(), metas, path);
               group != [] && group[0].bucket !in w.clients
    ensures BytesHeld(w, metas) == 0 && FlatMap(PathEvents(w, ONE_REF, metas), PathList(metas)) == []
    ensures forall path | path in Paths(metas) :: PathFile(w, ONE_REF, metas, path).Unavailable?
  {
    hide OnKey, PathList, Paths;
    FlatMapSupport(FileData(w, metas), [], PathList(metas));
    FlatMapSupport(PathEvents(w, ONE_REF, metas), [], PathList(metas));
    assert multiset(FlatMap(FileData(w, metas), PathList(metas))) == multiset{};
    assert multiset(FlatMap(PathEvents(w, ONE_REF, metas), PathList(metas))) == multiset{};
    assert forall s: seq<Byte> :: |s| == |multiset(s)|;
    assert forall s: seq<Event> :: |s| == |multiset(s)|;
  }
}
