/** The older service's view of the outside world, and reading events out of whole objects. */
module StoredEvents {
  import opened ByteRanges
  import opened GoText
  import opened JsonValues
  import opened Pointers
  import opened Sequences

  type Positive = x: int | x > 0 witness 1

  datatype Row = Row(s3Path: string, startByte: Int64, endByte: Int64, timestamp: Int64)

  datatype Metadata = Metadata(bucket: string, objectKey: string, startByte: Int64, endByte: Int64, timestamp: Int64)

  datatype Event = Event(
    eventID: string, referenceID: string, timestamp: Int64, category: string, eventType: string, data: Fields)

  /** limit is not a size: zero and below mean "no limit". */
  datatype Request = Request(
    refIDs: seq<string>, startTime: Int64, endTime: Int64, category: string, eventType: string, limit: int)

  /**
   * hash is xxhash; get is the HTTP request for the i-th requested ref, to a shard and with a path, which answers
   * with rows (none for "not found") or fails; getObject is a GetObject call; parse decodes one event.
   */
  datatype World = World(
    hash: string -> nat,
    shards: Positive,
    get: (nat, int, string) -> Option<seq<Row>>,
    clients: set<string>,
    getObject: (string, string) -> Option<seq<Byte>>,
    parse: seq<Byte> -> Option<Event>,
    maxRefs: nat,
    maxFetches: nat)

  // ---------------------------------------------------------------- one shard query

  function QueryPath(req: Request, ref: string): string {
    "/get?ref_id=" + ref
    + (if req.startTime > 0 then "&start_time=" + FormatInt(req.startTime as int) else "")
    + (if req.endTime > 0 then "&end_time=" + FormatInt(req.endTime as int) else "")
  }

  /** The rows whose path names a bucket and a key; the others are logged and skipped. */
  function Usable(rows: seq<Row>): seq<Metadata> {
    if rows == [] then []
    else
      var row := rows[|rows| - 1];
      var (bucket, objectKey) := ParseS3Path(row.s3Path);
      Usable(rows[..|rows| - 1]) +
      (if bucket == "" || objectKey == "" then []
       else [Metadata(bucket, objectKey, row.startByte, row.endByte, row.timestamp)])
  }

  method ResolveRows(rows: seq<Row>) returns (metadata: seq<Metadata>)
    ensures metadata == Usable(rows)
  {
    metadata := [];
    for k := 0 to |rows|
      invariant metadata == Usable(rows[..k])
    {
      assert rows[..k + 1][..k] == rows[..k];
      var (bucket, objectKey) := ParseS3Path(rows[k].s3Path);
      if bucket == "" || objectKey == "" {
        continue;
      }
      metadata := metadata + [Metadata(bucket, objectKey, rows[k].startByte, rows[k].endByte, rows[k].timestamp)];
    }
    assert rows[..|rows|] == rows;
  }

  /** The query for the i-th requested ref: the one shard that owns the ref answers, or the query fails. */
  function ShardAnswer(w: World, req: Request, i: nat): Option<seq<Metadata>>
    requires i < |req.refIDs|
  {
    var ref := req.refIDs[i];
    match w.get(i, w.hash("ref:" + ref) % w.shards, QueryPath(req, ref))
    case None => None
    case Some(rows) => Some(Usable(rows))
  }

  // ---------------------------------------------------------------- which entries there can be

  /** A bucket name that a row can spell. */
  predicate BucketName(bucket: string) {
    bucket != "" && Free(bucket, '|')
  }

  predicate Indexable(meta: Metadata) {
    BucketName(meta.bucket) && meta.objectKey != ""
  }

  /** Exactly these entries come out of a row. */
  lemma IndexableExactly(meta: Metadata)
    ensures Indexable(meta) <==> exists row :: Usable([row]) == [meta]
  {
    hide ParseS3Path;
    if Indexable(meta) {
      var row := Row(meta.bucket + ['|'] + meta.objectKey, meta.startByte, meta.endByte, meta.timestamp);
      PipeForm(meta.bucket, meta.objectKey);
      UsableOne(row);
    }
    if row :| Usable([row]) == [meta] {
      assert meta in Usable([row]);
      UsableIsIndexable([row]);
    }
  }

  /** Rows are answered one by one, in their order. */
  lemma {:induction false} UsableConcat(rows: seq<Row>, more: seq<Row>)
    ensures Usable(rows + more) == Usable(rows) + Usable(more)
  {
    hide ParseS3Path;
    if more == [] {
      assert rows + more == rows;
    } else {
      var init := more[..|more| - 1];
      assert (rows + more)[..|rows + more| - 1] == rows + init;
      UsableConcat(rows, init);
    }
  }

  lemma UsableOne(row: Row)
    ensures var (bucket, objectKey) := ParseS3Path(row.s3Path);
            Usable([row]) == if bucket == "" || objectKey == "" then []
                             else [Metadata(bucket, objectKey, row.startByte, row.endByte, row.timestamp)]
  {
    hide ParseS3Path;
    assert [row][..0] == [];
    assert Usable([]) == [];
  }

  lemma {:induction false} UsableIsIndexable(rows: seq<Row>)
    ensures forall m | m in Usable(rows) :: Indexable(m)
  {
    hide ParseS3Path;
    if rows != [] {
      UsableIsIndexable(rows[..|rows| - 1]);
      PathBucketFree(rows[|rows| - 1].s3Path);
    }
  }

  lemma PathBucketFree(s3Path: string)
    ensures Free(ParseS3Path(s3Path).0, '|')
  {
    if Free(s3Path, '|') && S3_SCHEME <= s3Path {
      var rest := s3Path[|S3_SCHEME|..];
      assert forall k | 0 <= k < |rest| :: rest[k] == s3Path[|S3_SCHEME| + k];
      assert Cut(rest, '/').Some? ==> Cut(rest, '/').value.0 == rest[..|Cut(rest, '/').value.0|];
    }
  }

  // ---------------------------------------------------------------- one file

  /** Unavailable is an error return; Crashed is a slice out of range, which takes the process down. */
  datatype FileOutcome = Crashed | Unavailable | Fetched(events: seq<Event>, bytes: nat)

  predicate Passes(req: Request, event: Event) {
    (req.category == "" || event.category == req.category) && (req.eventType == "" || event.eventType == req.eventType)
  }

  /** The event at one range of an object, if it parses and passes; None stands for the panic. */
  function SliceEvent(w: World, req: Request, data: seq<Byte>, meta: Metadata): Option<seq<Event>> {
    match SliceRange(data, meta.startByte, meta.endByte)
    case Panics => None
    case OutOfBounds => Some([])
    case Bytes(bytes) =>
      match w.parse(bytes)
      case None => Some([])
      case Some(event) => Some(if Passes(req, event) then [event] else [])
  }

  function SliceEvents(w: World, req: Request, data: seq<Byte>, metas: seq<Metadata>): Option<seq<Event>> {
    if metas == [] then Some([])
    else
      match (SliceEvents(w, req, data, metas[..|metas| - 1]), SliceEvent(w, req, data, metas[|metas| - 1]))
      case (Some(so), Some(one)) => Some(so + one)
      case _ => None
  }

  /** The whole group is read from the object of its first entry. */
  function ReadFile(w: World, req: Request, metas: seq<Metadata>): FileOutcome {
    if metas == [] then Fetched([], 0)
    else if metas[0].bucket !in w.clients then Unavailable
    else
      match w.getObject(metas[0].bucket, metas[0].objectKey)
      case None => Unavailable
      case Some(data) =>
        match SliceEvents(w, req, data, metas)
        case None => Crashed
        case Some(events) => Fetched(events, |data|)
  }

  method FetchFile(w: World, req: Request, metas: seq<Metadata>) returns (r: FileOutcome)
    ensures r == ReadFile(w, req, metas)
  {
    if |metas| == 0 {
      return Fetched([], 0);
    }
    var bucket, objectKey := metas[0].bucket, metas[0].objectKey;
    if bucket !in w.clients {
      return Unavailable;
    }
    var reply := w.getObject(bucket, objectKey);
    if reply.None? {
      return Unavailable;
    }
    var data := reply.value;
    var events := [];
    for k := 0 to |metas|
      invariant SliceEvents(w, req, data, metas[..k]) == Some(events)
    {
      assert metas[..k + 1][..k] == metas[..k];
      assert events + [] == events;
      var meta := metas[k];
      if meta.startByte as int >= |data| {
        continue;
      }
      var endByte := meta.endByte as int;
      if endByte > |data| {
        endByte := |data|;
      }
      if !(0 <= meta.startByte as int <= endByte) {
        SliceEventsCrash(w, req, data, metas, k + 1);
        return Crashed;
      }
      var parsed := w.parse(data[meta.startByte as int..endByte]);
      if parsed.None? {
        continue;
      }
      var event := parsed.value;
      if req.category != "" && event.category != req.category {
        continue;
      }
      if req.eventType != "" && event.eventType != req.eventType {
        continue;
      }
      events := events + [event];
    }
    assert metas[..|metas|] == metas;
    return Fetched(events, |data|);
  }

  /** A panic at one entry is the outcome of the whole file. */
  lemma {:induction false} SliceEventsCrash(w: World, req: Request, data: seq<Byte>, metas: seq<Metadata>, n: nat)
    requires n <= |metas| && SliceEvents(w, req, data, metas[..n]).None?
    ensures SliceEvents(w, req, data, metas).None?
    decreases |metas|
  {
    if n < |metas| {
      var init := metas[..|metas| - 1];
      assert init[..n] == metas[..n];
      SliceEventsCrash(w, req, data, init, n);
    } else {
      assert metas[..n] == metas;
    }
  }

  // ---------------------------------------------------------------- group against entry

  /** What fetching one entry on its own yields. */
  function EntryEvents(w: World, req: Request, meta: Metadata): seq<Event> {
    match ReadFile(w, req, [meta])
    case Fetched(events, _) => events
    case _ => []
  }

  function EntryFetch(w: World, req: Request): Metadata -> seq<Event> {
    (meta: Metadata) => EntryEvents(w, req, meta)
  }

  predicate SameObject(metas: seq<Metadata>) {
    forall m | m in metas :: m.bucket == metas[0].bucket && m.objectKey == metas[0].objectKey
  }

  predicate CrashesAlone(w: World, req: Request, meta: Metadata) {
    ReadFile(w, req, [meta]).Crashed?
  }

  /** An entry takes the process down exactly when its bytes start inside the object but not before they end. */
  lemma CrashesAloneExactly(w: World, req: Request, meta: Metadata)
    ensures CrashesAlone(w, req, meta) <==>
              && meta.bucket in w.clients && w.getObject(meta.bucket, meta.objectKey).Some?
              && (meta.startByte as int) < |w.getObject(meta.bucket, meta.objectKey).value|
              && (meta.startByte < 0 || meta.endByte < meta.startByte)
  {
    if w.getObject(meta.bucket, meta.objectKey).Some? {
      SliceOne(w, req, w.getObject(meta.bucket, meta.objectKey).value, meta);
    }
  }

  lemma SliceOne(w: World, req: Request, data: seq<Byte>, meta: Metadata)
    ensures SliceEvents(w, req, data, [meta]) == SliceEvent(w, req, data, meta)
  {
    assert [meta][..0] == [];
    assert SliceEvents(w, req, data, []) == Some([]);
    var one := SliceEvent(w, req, data, meta);
    assert one.Some? ==> [] + one.value == one.value;
  }

  /** A well-formed entry of an available object yields the event its bytes parse to, if it passes the filters. */
  lemma EntryEventsMeaning(w: World, req: Request, meta: Metadata, data: seq<Byte>)
    requires meta.bucket in w.clients && w.getObject(meta.bucket, meta.objectKey) == Some(data)
    requires 0 <= meta.startByte <= meta.endByte
    ensures var start, end := meta.startByte as int, meta.endByte as int;
            EntryEvents(w, req, meta) ==
            if start >= |data| then []
            else
              match w.parse(data[start..if end <= |data| then end else |data|])
              case None => []
              case Some(ev) =>
                if req.category != "" && ev.category != req.category then []
                else if req.eventType != "" && ev.eventType != req.eventType then []
                else [ev]
  {
    SliceOne(w, req, data, meta);
  }

  /** Nothing that a filter excludes is ever read from a file. */
  lemma {:induction false} SliceEventsPass(w: World, req: Request, data: seq<Byte>, metas: seq<Metadata>)
    requires SliceEvents(w, req, data, metas).Some?
    ensures forall ev | ev in SliceEvents(w, req, data, metas).value ::
              && (req.category == "" || ev.category == req.category)
              && (req.eventType == "" || ev.eventType == req.eventType)
  {
    if metas != [] { SliceEventsPass(w, req, data, metas[..|metas| - 1]); }
  }

  lemma FilePasses(w: World, req: Request, metas: seq<Metadata>)
    requires ReadFile(w, req, metas).Fetched?
    ensures forall ev | ev in ReadFile(w, req, metas).events ::
              && (req.category == "" || ev.category == req.category)
              && (req.eventType == "" || ev.eventType == req.eventType)
  {
    hide SliceEvents;
    if metas != [] {
      SliceEventsPass(w, req, w.getObject(metas[0].bucket, metas[0].objectKey).value, metas);
    }
  }

  lemma {:induction false} SliceEventsIsElementwise(w: World, req: Request, data: seq<Byte>, metas: seq<Metadata>)
    requires forall m | m in metas :: m.bucket in w.clients && w.getObject(m.bucket, m.objectKey) == Some(data)
    ensures SliceEvents(w, req, data, metas).None? <==> exists m :: m in metas && CrashesAlone(w, req, m)
    ensures SliceEvents(w, req, data, metas).Some? ==>
              SliceEvents(w, req, data, metas).value == FlatMap(EntryFetch(w, req), metas)
  {
    if metas != [] {
      var init, last := metas[..|metas| - 1], metas[|metas| - 1];
      assert metas == init + [last];
      SliceEventsIsElementwise(w, req, data, init);
      FlatMapConcat(EntryFetch(w, req), init, [last]);
      FlatMapOne(EntryFetch(w, req), last);
      LastEntry(w, req, data, metas);
    }
  }

  /** The last entry of a file contributes what it would contribute alone. */
  lemma LastEntry(w: World, req: Request, data: seq<Byte>, metas: seq<Metadata>)
    requires metas != []
    requires var m := metas[|metas| - 1]; m.bucket in w.clients && w.getObject(m.bucket, m.objectKey) == Some(data)
    ensures var m := metas[|metas| - 1];
            var so := SliceEvents(w, req, data, metas[..|metas| - 1]);
            SliceEvents(w, req, data, metas) ==
            if so.None? || CrashesAlone(w, req, m) then None else Some(so.value + EntryEvents(w, req, m))
  {
    SliceOne(w, req, data, metas[|metas| - 1]);
  }

  /** Reading the entries together comes to what reading each of them alone, in order, comes to. */
  ghost predicate ReadsAlike(w: World, req: Request, metas: seq<Metadata>) {
    match ReadFile(w, req, metas)
    case Crashed => exists m :: m in metas && CrashesAlone(w, req, m)
    case Unavailable => FlatMap(EntryFetch(w, req), metas) == [] && forall m | m in metas :: !CrashesAlone(w, req, m)
    case Fetched(events, _) =>
      events == FlatMap(EntryFetch(w, req), metas) && forall m | m in metas :: !CrashesAlone(w, req, m)
  }

  /** So it is for the entries of one object. */
  lemma GroupIsElementwise(w: World, req: Request, metas: seq<Metadata>)
    requires SameObject(metas)
    ensures ReadsAlike(w, req, metas)
  {
    if metas != [] {
      var reply := w.getObject(metas[0].bucket, metas[0].objectKey);
      if metas[0].bucket in w.clients && reply.Some? {
        SliceEventsIsElementwise(w, req, reply.value, metas);
      } else {
        NothingToFetch(w, req, metas);
      }
    }
  }

  lemma {:induction false} NothingToFetch(w: World, req: Request, metas: seq<Metadata>)
    requires forall m | m in metas :: m.bucket !in w.clients || w.getObject(m.bucket, m.objectKey).None?
    ensures FlatMap(EntryFetch(w, req), metas) == []
  {
    if metas != [] {
      assert metas[0] in metas;
      NothingToFetch(w, req, metas[1..]);
    }
  }
}
