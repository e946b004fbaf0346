/** The older service's query, end to end. */
module ExecuteQuery {
  import opened ByteRanges
  import opened GoSort
  import opened Grouping
  import opened QueryEngine
  import opened Sequences
  import opened StoredEvents

  function EntriesIn(result: map<string, seq<Metadata>>): string -> seq<Metadata> {
    (ref: string) => if ref in result then result[ref] else []
  }

  /** The index entries of the requested refs, each ref taken once. */
  function Wanted(req: Request, result: map<string, seq<Metadata>>): seq<Metadata> {
    FlatMap(EntriesIn(result), Dedup(req.refIDs))
  }

  /** The events of those entries, each fetched on its own: the query's reference answer, as a bag. */
  function Reference(w: World, req: Request, result: map<string, seq<Metadata>>): seq<Event> {
    FlatMap(EntryFetch(w, req), Wanted(req, result))
  }

  /** What the object behind a path holds. */
  function FileData(w: World, metas: seq<Metadata>): string -> seq<Byte> {
    (path: string) =>
      var group := OnKey(Path(), metas, path);
      if group != [] && group[0].bucket in w.clients && w.getObject(group[0].bucket, group[0].objectKey).Some?
      then w.getObject(group[0].bucket, group[0].objectKey).value
      else []
  }

  function PathList(metas: seq<Metadata>): (r: seq<string>)
    ensures Distinct(r) && forall path :: path in r <==> path in Paths(metas)
  {
    var all := seq(|metas|, k requires 0 <= k < |metas| => PathOf(metas[k]));
    assert forall path :: path in all <==> path in Paths(metas) by {
      assert forall k | 0 <= k < |metas| :: all[k] == PathOf(metas[k]) && metas[k] in metas;
    }
    Dedup(all)
  }

  function EventTime(): Event -> int {
    (event: Event) => event.timestamp as int
  }

  datatype Metrics = Metrics(queries: nat, found: nat, files: nat, parsed: nat, bytes: nat)

  datatype Response = Crashed | Answer(events: seq<Event>, totalEvents: nat, metrics: Metrics)

  // ---------------------------------------------------------------- what a query may answer

  /** The entries of some lookup, in whichever order its map yields them. */
  ghost predicate Collected(w: World, req: Request, result: map<string, seq<Metadata>>, metas: seq<Metadata>) {
    && IsLookup(w, req, result)
    && exists order :: InKeyOrder(result, order) && metas == FlatMap(EntriesIn(result), order)
  }

  ghost predicate InKeyOrder(result: map<string, seq<Metadata>>, order: seq<string>) {
    Distinct(order) && forall ref :: ref in order <==> ref in result
  }

  /** So they are the entries of the requested refs, each ref taken once. */
  lemma CollectedIsWanted(w: World, req: Request, result: map<string, seq<Metadata>>, metas: seq<Metadata>)
    requires Collected(w, req, result, metas)
    ensures multiset(metas) == multiset(Wanted(req, result))
  {
    hide IsLookup;
    LookupIsRequested(w, req, result);
    var order :| InKeyOrder(result, order) && metas == FlatMap(EntriesIn(result), order);
    FlatMapSupport(EntriesIn(result), order, Dedup(req.refIDs));
  }

  /** What the file behind a path comes to when all its entries are read together. */
  function PathFile(w: World, req: Request, metas: seq<Metadata>, path: string): FileOutcome {
    ReadFile(w, req, OnKey(Path(), metas, path))
  }

  function PathEvents(w: World, req: Request, metas: seq<Metadata>): string -> seq<Event> {
    (path: string) => if PathFile(w, req, metas, path).Fetched? then PathFile(w, req, metas, path).events else []
  }

  /** As many of the events as the limit allows. */
  predicate IsCut(events: seq<Event>, all: seq<Event>, limit: int) {
    if limit <= 0 then multiset(events) == multiset(all)
    else |events| == (if limit <= |all| then limit else |all|) && multiset(events) <= multiset(all)
  }

  function BytesHeld(w: World, metas: seq<Metadata>): nat {
    |FlatMap(FileData(w, metas), PathList(metas))|
  }

  /** The answer to a query, file by file, whatever the entries are. */
  ghost predicate Responds(w: World, req: Request, metas: seq<Metadata>, r: Response) {
    match r
    case Crashed => exists path :: path in Paths(metas) && PathFile(w, req, metas, path).Crashed?
    case Answer(events, totalEvents, metrics) =>
      && (forall path | path in Paths(metas) :: !PathFile(w, req, metas, path).Crashed?)
      && SortedBy(EventTime(), events)
      && IsCut(events, FlatMap(PathEvents(w, req, metas), PathList(metas)), req.limit)
      && totalEvents == |events|
      && metrics == Metrics(|req.refIDs|, |metas|, |Paths(metas)|, |events|, BytesHeld(w, metas))
  }

  /** The answer to a query, entry by entry: it agrees with the reference answer. */
  ghost predicate MeetsReference(w: World, req: Request, result: map<string, seq<Metadata>>, r: Response) {
    match r
    case Crashed => exists m :: m in Wanted(req, result) && CrashesAlone(w, req, m)
    case Answer(events, totalEvents, metrics) =>
      && (forall m | m in Wanted(req, result) :: !CrashesAlone(w, req, m))
      && SortedBy(EventTime(), events)
      && IsCut(events, Reference(w, req, result), req.limit)
      && totalEvents == |events|
      && metrics == Metrics(|req.refIDs|, |Wanted(req, result)|, |Paths(Wanted(req, result))|, |events|,
                            BytesHeld(w, Wanted(req, result)))
  }

  // ---------------------------------------------------------------- the stages put together

  /** The loop over the metadata map, in whichever order the map yields its keys. */
  method CollectMetadata(result: map<string, seq<Metadata>>) returns (metas: seq<Metadata>)
    ensures exists order :: InKeyOrder(result, order) && metas == FlatMap(EntriesIn(result), order)
  {
    ghost var f := EntriesIn(result);
    var order := AnyOrder(result.Keys);
    metas := [];
    for k := 0 to |order|
      invariant metas == FlatMap(f, order[..k])
    {
      assert order[k] in order;
      assert order[..k + 1] == order[..k] + [order[k]];
      FlatMapConcat(f, order[..k], [order[k]]);
      FlatMapOne(f, order[k]);
      metas := metas + result[order[k]];
    }
    assert order[..|order|] == order;
    assert InKeyOrder(result, order);
  }

  /** `result` is the map left behind by the lookups, `metas` its entries in the order in which they were collected. */
  method Execute(w: World, req: Request)
    returns (r: Response, ghost result: map<string, seq<Metadata>>, ghost metas: seq<Metadata>)
    requires w.maxRefs > 0 && w.maxFetches > 0
    ensures Collected(w, req, result, metas) && Responds(w, req, metas, r)
    ensures r.Answer? ==> forall i, j | 0 <= i < j < |r.events| :: r.events[i].timestamp <= r.events[j].timestamp
    ensures r.Answer? ==>
              forall ev | ev in r.events ::
                && (req.category == "" || ev.category == req.category)
                && (req.eventType == "" || ev.eventType == req.eventType)
    ensures r.Answer? ==>
              && r.totalEvents == r.metrics.parsed == |r.events|
              && r.metrics.queries == |req.refIDs| && r.metrics.found == |metas|
              && r.metrics.files == |Paths(metas)| && r.metrics.bytes == BytesHeld(w, metas)
    ensures PathsNameObjects(Wanted(req, result)) ==> MeetsReference(w, req, result, r)
  {
    hide IsLookup, Delivered, Wanted, IsGrouping, ReadFile, PathsNameObjects, Responds, MeetsReference;
    var found, failures := QueryMetadata(w, req);
    result := found;
    var collected := CollectMetadata(found);
    metas := collected;
    if PathsNameObjects(Wanted(req, result)) {
      forall r | Responds(w, req, metas, r) ensures MeetsReference(w, req, result, r) {
        EndToEnd(w, req, result, metas, r);
      }
    }
    forall r: Response | r.Answer? && Responds(w, req, metas, r)
      ensures forall i, j | 0 <= i < j < |r.events| :: r.events[i].timestamp <= r.events[j].timestamp
      ensures forall ev | ev in r.events ::
                && (req.category == "" || ev.category == req.category)
                && (req.eventType == "" || ev.eventType == req.eventType)
      ensures r.totalEvents == r.metrics.parsed == |r.events|
      ensures r.metrics.queries == |req.refIDs| && r.metrics.found == |metas|
      ensures r.metrics.files == |Paths(metas)| && r.metrics.bytes == BytesHeld(w, metas)
    {
      AscendingAndFiltered(w, req, metas, r);
    }
    if |collected| == 0 {
      r := Answer([], 0, Metrics(|req.refIDs|, 0, 0, 0, 0));
      NothingCollected(w, req, metas);
      return;
    }
    var fetch := FetchEvents(w, req, collected);
    if fetch.Crash? {
      r := Response.Crashed;
      ghost var grouped, path :|
        IsGrouping(metas, grouped) && path in grouped && ReadFile(w, req, grouped[path]).Crashed?;
      CrashMeaning(w, req, metas, grouped, path);
      return;
    }
    var events := SortSlice(EventTime(), fetch.events);
    r := Answer(events, |events|, Metrics(|req.refIDs|, |collected|, fetch.files, |events|, fetch.bytes));
    ghost var grouped, order, all :| Delivered(w, req, metas, fetch, grouped, order, all);
    FetchMeaning(w, req, metas, fetch, grouped, order, all);
    Finished(w, req, metas, fetch, events);
  }

  /** Every answer is in ascending order of time, and whatever is in it matches each filter that is given. */
  lemma AscendingAndFiltered(w: World, req: Request, metas: seq<Metadata>, r: Response)
    requires r.Answer? && Responds(w, req, metas, r)
    ensures forall i, j | 0 <= i < j < |r.events| :: r.events[i].timestamp <= r.events[j].timestamp
    ensures forall ev | ev in r.events ::
              && (req.category == "" || ev.category == req.category)
              && (req.eventType == "" || ev.eventType == req.eventType)
    ensures r.totalEvents == r.metrics.parsed == |r.events|
    ensures r.metrics.queries == |req.refIDs| && r.metrics.found == |metas|
    ensures r.metrics.files == |Paths(metas)| && r.metrics.bytes == BytesHeld(w, metas)
  {
    hide ReadFile, PathList, BytesHeld, OnKey;
    forall i, j | 0 <= i < j < |r.events| ensures r.events[i].timestamp <= r.events[j].timestamp {
      assert EventTime()(r.events[i]) <= EventTime()(r.events[j]);
    }
    var f, all := PathEvents(w, req, metas), FlatMap(PathEvents(w, req, metas), PathList(metas));
    FlatMapMembers(f, PathList(metas));
    forall ev | ev in r.events
      ensures req.category == "" || ev.category == req.category
      ensures req.eventType == "" || ev.eventType == req.eventType
    {
      assert ev in multiset(r.events) && ev in multiset(all) && ev in all;
      var path :| ev in f(path);
      FilePasses(w, req, OnKey(Path(), metas, path));
    }
  }

  /** What is counted for a path is the object that any of its entries points to. */
  lemma FileDataMeaning(w: World, metas: seq<Metadata>, m: Metadata)
    requires PathsNameObjects(metas) && m in metas
    ensures FileData(w, metas)(PathOf(m)) ==
            if m.bucket !in w.clients then []
            else match w.getObject(m.bucket, m.objectKey) case None => [] case Some(data) => data
  {
    hide OnKey, PathOf;
    var group := OnKey(Path(), metas, PathOf(m));
    assert Path()(m) == PathOf(m) && m in group;
    assert group[0] in group && Path()(group[0]) == PathOf(group[0]);
    assert SamePlace(m, group[0]);
  }

  lemma LookupIsRequested(w: World, req: Request, result: map<string, seq<Metadata>>)
    requires IsLookup(w, req, result)
    ensures forall ref | ref in result :: ref in req.refIDs
  {
    hide Answered, ShardAnswer;
  }

  lemma NothingCollected(w: World, req: Request, metas: seq<Metadata>)
    requires |metas| == 0
    ensures Responds(w, req, metas, Answer([], 0, Metrics(|req.refIDs|, 0, 0, 0, 0)))
  {
    assert Paths(metas) == {};
    HasMember(PathList(metas));
  }

  lemma CrashMeaning(
    w: World, req: Request, metas: seq<Metadata>, grouped: map<string, seq<Metadata>>, path: string)
    requires IsGrouping(metas, grouped) && path in grouped && ReadFile(w, req, grouped[path]).Crashed?
    ensures Responds(w, req, metas, Response.Crashed)
  {
    hide ReadFile;
    assert PathFile(w, req, metas, path).Crashed?;
  }

  /** What the channel delivers is what the paths' files hold. */
  lemma FetchMeaning(
    w: World, req: Request, metas: seq<Metadata>, r: Fetch,
    grouped: map<string, seq<Metadata>>, order: seq<string>, all: seq<Event>)
    requires r.Events? && Delivered(w, req, metas, r, grouped, order, all)
    ensures r.files == |Paths(metas)| && r.bytes == BytesHeld(w, metas)
    ensures forall path | path in Paths(metas) :: !PathFile(w, req, metas, path).Crashed?
    ensures IsCut(r.events, FlatMap(PathEvents(w, req, metas), PathList(metas)), req.limit)
  {
    hide ReadFile, FileData, PathList, TotalBytes, OnKey;
    assert |grouped| == |grouped.Keys|;
    FilesAreBytes(w, req, metas, grouped, order);
    FlatMapSame(FileEvents(w, req, grouped), PathEvents(w, req, metas), order);
    FlatMapSupport(PathEvents(w, req, metas), order, PathList(metas));
    SameBagSameSize(all, FlatMap(PathEvents(w, req, metas), PathList(metas)));
    Truncated(all, req.limit);
  }

  lemma Finished(w: World, req: Request, metas: seq<Metadata>, fetch: Fetch, events: seq<Event>)
    requires fetch.Events? && fetch.files == |Paths(metas)| && fetch.bytes == BytesHeld(w, metas)
    requires forall path | path in Paths(metas) :: !PathFile(w, req, metas, path).Crashed?
    requires IsCut(fetch.events, FlatMap(PathEvents(w, req, metas), PathList(metas)), req.limit)
    requires SortedBy(EventTime(), events) && multiset(events) == multiset(fetch.events)
    ensures Responds(w, req, metas,
                     Answer(events, |events|, Metrics(|req.refIDs|, |metas|, fetch.files, |events|, fetch.bytes)))
  {
    hide BytesHeld, PathFile, PathEvents, PathList;
    SameBagSameSize(events, fetch.events);
  }

  // ---------------------------------------------------------------- why that is the reference answer

  /** As long as paths name objects, answering file by file is answering entry by entry. */
  lemma EndToEnd(w: World, req: Request, result: map<string, seq<Metadata>>, metas: seq<Metadata>, r: Response)
    requires Collected(w, req, result, metas) && Responds(w, req, metas, r)
    requires PathsNameObjects(Wanted(req, result))
    ensures MeetsReference(w, req, result, r)
  {
    hide Wanted, Collected, PathsNameObjects, PathFile, PathEvents, FileData, PathList, CrashesAlone;
    var wanted := Wanted(req, result);
    CollectedIsWanted(w, req, result, metas);
    SameEntries(w, req, metas, wanted);
    SameData(w, metas, wanted);
    if r.Crashed? {
      var path :| path in Paths(metas) && PathFile(w, req, metas, path).Crashed?;
      CrashIsAnEntrys(w, req, metas, path);
    } else {
      FilesAreEntries(w, req, metas);
      SameBagSameSize(FlatMap(PathEvents(w, req, metas), PathList(metas)), Reference(w, req, result));
    }
  }

  /** The collected entries are the wanted ones in another order. */
  lemma SameEntries(w: World, req: Request, metas: seq<Metadata>, wanted: seq<Metadata>)
    requires multiset(metas) == multiset(wanted)
    ensures |metas| == |wanted| && Paths(metas) == Paths(wanted)
    ensures forall m :: m in metas <==> m in wanted
    ensures PathsNameObjects(wanted) <==> PathsNameObjects(metas)
    ensures multiset(FlatMap(EntryFetch(w, req), metas)) == multiset(FlatMap(EntryFetch(w, req), wanted))
  {
    assert |metas| == |multiset(metas)| && |wanted| == |multiset(wanted)|;
    assert forall m :: m in metas <==> m in multiset(metas);
    assert forall m :: m in wanted <==> m in multiset(wanted);
    FlatMapPermutation(EntryFetch(w, req), metas, wanted);
  }

  /** The bytes behind the paths do not depend on the order of the entries. */
  lemma SameData(w: World, metas: seq<Metadata>, metas': seq<Metadata>)
    requires PathsNameObjects(metas) && forall m :: m in metas <==> m in metas'
    ensures BytesHeld(w, metas) == BytesHeld(w, metas')
  {
    hide OnKey;
    var f, f' := FileData(w, metas), FileData(w, metas');
    forall path ensures f(path) == f'(path) {
      var group, group' := OnKey(Path(), metas, path), OnKey(Path(), metas', path);
      HasMember(group);
      HasMember(group');
      assert group != [] ==> group[0] in group;
      assert group' != [] ==> group'[0] in group';
      assert forall m: Metadata :: Path()(m) == PathOf(m);
      assert group != [] <==> group' != [];
      if group != [] { assert SamePlace(group[0], group'[0]); }
    }
    FlatMapSame(f, f', PathList(metas'));
    assert Paths(metas) == Paths(metas');
    FlatMapSupport(f, PathList(metas), PathList(metas'));
    assert forall s: seq<Byte> :: |s| == |multiset(s)|;
  }

  /** When paths name objects, each group lies in one object. */
  lemma GroupSameObject(metas: seq<Metadata>, path: string)
    requires PathsNameObjects(metas)
    ensures SameObject(OnKey(Path(), metas, path))
  {
    var group := OnKey(Path(), metas, path);
    forall m | m in group ensures m.bucket == group[0].bucket && m.objectKey == group[0].objectKey {
      assert group[0] in group;
      assert Path()(m) == PathOf(m) && Path()(group[0]) == PathOf(group[0]);
    }
  }

  lemma SameBagSameSize<A>(s: seq<A>, t: seq<A>)
    requires multiset(s) == multiset(t)
    ensures |s| == |t|
  {
    assert |s| == |multiset(s)| && |t| == |multiset(t)|;
  }

  lemma Truncated<A>(all: seq<A>, limit: int)
    ensures multiset(if 0 < limit <= |all| then all[..limit] else all) <= multiset(all)
  {
    if 0 < limit <= |all| { assert all == all[..limit] + all[limit..]; }
  }

  lemma CrashIsAnEntrys(w: World, req: Request, metas: seq<Metadata>, path: string)
    requires PathsNameObjects(metas) && PathFile(w, req, metas, path).Crashed?
    ensures exists m :: m in metas && CrashesAlone(w, req, m)
  {
    hide CrashesAlone, ReadFile, PathsNameObjects;
    var group := OnKey(Path(), metas, path);
    GroupSameObject(metas, path);
    GroupIsElementwise(w, req, group);
    var m :| m in group && CrashesAlone(w, req, m);
    assert m in metas;
  }

  /** Grouped fetch refines per-entry fetch. */
  lemma FilesAreEntries(w: World, req: Request, metas: seq<Metadata>)
    requires PathsNameObjects(metas)
    requires forall path | path in Paths(metas) :: !PathFile(w, req, metas, path).Crashed?
    ensures multiset(FlatMap(PathEvents(w, req, metas), PathList(metas)))
         == multiset(FlatMap(EntryFetch(w, req), metas))
    ensures forall m | m in metas :: !CrashesAlone(w, req, m)
  {
    hide ReadFile, CrashesAlone, PathsNameObjects, PathList;
    var f, g, order := EntryFetch(w, req), PathEvents(w, req, metas), PathList(metas);
    forall path | path in order
      ensures multiset(g(path)) == multiset(FlatMap(f, OnKey(Path(), metas, path)))
      ensures forall m | m in metas && PathOf(m) == path :: !CrashesAlone(w, req, m)
    {
      GroupSameObject(metas, path);
      GroupIsElementwise(w, req, OnKey(Path(), metas, path));
      assert forall m: Metadata :: Path()(m) == PathOf(m);
    }
    forall m | m in metas ensures Path()(m) in order && !CrashesAlone(w, req, m) {
      assert Path()(m) == PathOf(m) && PathOf(m) in Paths(metas);
    }
    GroupwiseIsElementwise(f, Path(), metas, order, g);
  }

  lemma FilesAreBytes(
    w: World, req: Request, metas: seq<Metadata>, grouped: map<string, seq<Metadata>>, order: seq<string>)
    requires IsGrouping(metas, grouped) && Distinct(order) && forall path :: path in order <==> path in grouped
    requires forall path | path in grouped :: !ReadFile(w, req, grouped[path]).Crashed?
    ensures TotalBytes(w, req, grouped, order) == BytesHeld(w, metas)
  {
    TotalIsConcat(w, req, metas, grouped, order);
    FlatMapSupport(FileData(w, metas), order, PathList(metas));
    assert forall s: seq<Byte> :: |s| == |multiset(s)|;
  }

  lemma {:induction false} TotalIsConcat(
    w: World, req: Request, metas: seq<Metadata>, grouped: map<string, seq<Metadata>>, order: seq<string>)
    requires IsGrouping(metas, grouped)
    requires forall path | path in order :: path in grouped && !ReadFile(w, req, grouped[path]).Crashed?
    ensures TotalBytes(w, req, grouped, order) == |FlatMap(FileData(w, metas), order)|
  {
    hide FileData, FileBytes, ReadFile;
    if order != [] {
      var init, last := order[..|order| - 1], order[|order| - 1];
      assert order == init + [last];
      TotalIsConcat(w, req, metas, grouped, init);
      FlatMapConcat(FileData(w, metas), init, [last]);
      FlatMapOne(FileData(w, metas), last);
      assert last in order;
      BytesOfFile(w, req, metas, grouped, last);
    }
  }

  lemma BytesOfFile(w: World, req: Request, metas: seq<Metadata>, grouped: map<string, seq<Metadata>>, path: string)
    requires IsGrouping(metas, grouped) && path in grouped && !ReadFile(w, req, grouped[path]).Crashed?
    ensures FileBytes(w, req, grouped, path) == |FileData(w, metas)(path)|
  {
    hide SliceEvents;
  }
}
