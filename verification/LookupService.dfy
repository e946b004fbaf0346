/** The reader service as its callers see it, run under an arbitrary scheduler. */
module LookupService {
  import opened ByteRanges
  import opened GoText
  import opened JsonValues
  import opened LookupModel
  import opened Pointers
  import opened Sequences
  import opened LookupProof
  import opened LookupTheorems

  datatype Response = Response(events: seq<AuthEvent>, totalEvents: nat, eventsParsed: nat, counters: Counters)

  // ---------------------------------------------------------------- parsing one event

  /** parseEvent: copy all fields, then delete the bookkeeping ones. */
  method DecodeEvent(w: World, raw: seq<Byte>, refID: string, metaTS: Int64) returns (r: Option<AuthEvent>)
    ensures r == ParseEvent(w, raw, refID, metaTS)
  {
    var decoded := w.decode(TrimNewlines(raw));
    if decoded.None? {
      return None;
    }
    var fields := decoded.value;
    var ts := metaTS;
    if "_event_timestamp" in fields && fields["_event_timestamp"].Text? {
      var stamp := w.parseTime(fields["_event_timestamp"].text);
      if stamp.Some? {
        ts := stamp.value;
      }
    }
    var names := AnyOrder(fields.Keys);
    var data: Fields := map[];
    for k := 0 to |names|
      invariant forall name :: name in data <==> name in names[..k]
      invariant forall name | name in data :: name in fields && data[name] == fields[name]
    {
      assert names[k] in names;
      assert names[..k + 1] == names[..k] + [names[k]];
      data := data[names[k] := fields[names[k]]];
    }
    assert names[..|names|] == names;
    assert data == fields;
    data := data - {"_event_id"};
    data := data - {"_event_timestamp"};
    data := data - {"reference_id"};
    assert data == fields - BOOKKEEPING;
    return Some(AuthEvent(TextOf(fields, "_event_id"), refID, ts, TextOf(fields, "_category"),
                          TextOf(fields, "_event_type"), data));
  }

  // ---------------------------------------------------------------- the two gathering loops

  /** A ref task's loop over its slots once all its fetches have been joined. */
  method CollectKept(events: seq<AuthEvent>, fetchErrs: seq<Option<FetchError>>) returns (out: seq<AuthEvent>)
    requires |events| == |fetchErrs|
    ensures out == Kept(events, fetchErrs, |events|)
  {
    out := [];
    for j := 0 to |events|
      invariant out == Kept(events, fetchErrs, j)
    {
      if fetchErrs[j] != None {
        continue;
      }
      if events[j].eventID != "" || events[j].referenceID != "" {
        out := out + [events[j]];
      }
    }
  }

  /** The main task's loop over the per-ref results once all refs have been joined. */
  method GatherAll(perRef: seq<PerRef>) returns (allEvents: seq<AuthEvent>)
    ensures allEvents == Gathered(perRef, |perRef|)
  {
    allEvents := [];
    for i := 0 to |perRef|
      invariant allEvents == Gathered(perRef, i)
    {
      if perRef[i].failed {
        continue;
      }
      allEvents := allEvents + perRef[i].events;
    }
  }

  // ---------------------------------------------------------------- the service

  /** None stands for the error on an empty request. The loop takes any enabled action, so it covers every schedule. */
  method LookupMany(w: World, refIDs: seq<string>) returns (r: Option<Response>)
    ensures r.None? <==> refIDs == []
    ensures r.Some? ==>
              && QueryResult(r.value.events, r.value.counters) == SeqLookup(w, refIDs, |refIDs|)
              && r.value.counters.queries == |refIDs|
              && r.value.eventsParsed == r.value.totalEvents == |r.value.events|
              && r.value.totalEvents <= r.value.counters.fetches <= r.value.counters.found
  {
    if |refIDs| == 0 {
      return None;
    }
    var s := Init(refIDs);
    InitOk(w, refIDs);
    RemainingSane(w, refIDs, s);
    while !s.main.Done?
      invariant Inv(w, refIDs, s) && Remaining(w, s) >= 0
      decreases Remaining(w, s)
    {
      ghost var enabled := SomeActionEnabled(w, refIDs, s);
      var a :| Enabled(s, a);
      StepOk(w, refIDs, s, a);
      s := Next(w, s, a);
      RemainingSane(w, refIDs, s);
    }
    var allEvents := GatherAll(s.perRef);
    DoneAnswer(w, refIDs, s);
    SeqLookupCounts(w, refIDs, |refIDs|);
    return Some(Response(allEvents, |allEvents|, |allEvents|, s.counters));
  }

  /** The events of a single ref. */
  method Lookup(w: World, refID: string) returns (events: seq<AuthEvent>)
    ensures events == SeqPerRef(w, 0, refID).events
  {
    var r := LookupMany(w, [refID]);
    events := r.value.events;
    SeqRefEvents(w, 0, refID);
    hide SeqRef, SeqPerRef;
    assert SeqLookup(w, [refID], 1).events == SeqLookup(w, [refID], 0).events + SeqRef(w, 0, refID).events;
  }

  /** The first event with the given ID, or None. */
  method LookupOne(w: World, refID: string, eventID: string) returns (found: Option<AuthEvent>)
    ensures var events := SeqPerRef(w, 0, refID).events;
            match found
            case None => forall k | 0 <= k < |events| :: events[k].eventID != eventID
            case Some(ev) => exists k :: 0 <= k < |events| && events[k] == ev && ev.eventID == eventID
                                         && forall l | 0 <= l < k :: events[l].eventID != eventID
  {
    hide SeqPerRef;
    var events := Lookup(w, refID);
    for k := 0 to |events|
      invariant forall l | 0 <= l < k :: events[l].eventID != eventID
    {
      if events[k].eventID == eventID {
        return Some(events[k]);
      }
    }
    return None;
  }

  // ---------------------------------------------------------------- what the sequential answer amounts to

  lemma OutcomeOf(w: World, i: nat, ref: string, j: nat, meta: Metadata)
    ensures EntryOutcome(w, i, ref, j, meta).Got? ==>
              Resolve(meta).Located? && EntryOutcome(w, i, ref, j, meta).event.referenceID == ref
  {
  }

  lemma {:induction false} SeqEventsCount(w: World, i: nat, ref: string, metas: seq<Metadata>, n: nat)
    requires n <= |metas|
    ensures |SeqEvents(w, i, ref, metas, n)| <= SeqFetches(metas, n) <= n
  {
    hide EntryOutcome, Resolve;
    if n > 0 {
      SeqEventsCount(w, i, ref, metas, n - 1);
      OutcomeOf(w, i, ref, n - 1, metas[n - 1]);
    }
  }

  /** Events parsed, objects fetched and entries found can only shrink from one stage to the next. */
  lemma {:induction false} SeqLookupCounts(w: World, refIDs: seq<string>, n: nat)
    requires n <= |refIDs|
    ensures var r := SeqLookup(w, refIDs, n);
            r.counters.queries == n && |r.events| <= r.counters.fetches <= r.counters.found
  {
    hide SeqRef;
    if n > 0 {
      SeqLookupCounts(w, refIDs, n - 1);
      SeqRefCounts(w, n - 1, refIDs[n - 1]);
    }
  }

  lemma SeqRefEvents(w: World, i: nat, ref: string)
    ensures SeqRef(w, i, ref).events == SeqPerRef(w, i, ref).events
  {
    hide RangeQuery, SeqEvents, SeqFetches, SeqBytes;
  }

  lemma SeqRefCounts(w: World, i: nat, ref: string)
    ensures var r := SeqRef(w, i, ref);
            r.counters.queries == 1 && |r.events| <= r.counters.fetches <= r.counters.found
  {
    hide RangeQuery, SeqEvents, SeqFetches, SeqBytes;
    var metas := RangeQuery(w, i, ref);
    if metas.Some? { SeqEventsCount(w, i, ref, metas.value, |metas.value|); }
  }

  /** The first n entries whose fetch yields an event, failed or not kept. */
  function Successes(w: World, i: nat, ref: string, metas: seq<Metadata>, n: nat): nat
    requires n <= |metas|
  {
    if n == 0 then 0
    else Successes(w, i, ref, metas, n - 1) + (if EntryOutcome(w, i, ref, n - 1, metas[n - 1]).Got? then 1 else 0)
  }

  /** The test on empty IDs drops nothing unless the ref itself is empty; every kept event bears the queried ref. */
  lemma {:induction false} OnlyAnEmptyRefDropsEvents(w: World, i: nat, ref: string, metas: seq<Metadata>, n: nat)
    requires n <= |metas|
    ensures ref != "" ==> |SeqEvents(w, i, ref, metas, n)| == Successes(w, i, ref, metas, n)
    ensures forall ev | ev in SeqEvents(w, i, ref, metas, n) :: ev.referenceID == ref
  {
    hide EntryOutcome, Resolve;
    if n > 0 {
      OnlyAnEmptyRefDropsEvents(w, i, ref, metas, n - 1);
      OutcomeOf(w, i, ref, n - 1, metas[n - 1]);
    }
  }

  // ---------------------------------------------------------------- from an index entry to its bytes

  /** The object behind key p.key holds data and is served under section 14.1.2 of RFC 9110 to call (i, j). */
  ghost predicate Serves(
    w: World, i: nat, j: nat, key: string, data: seq<Byte>, otherwise: string -> Option<seq<Byte>>)
  {
    forall header :: w.getObject(i, j, key, header) == Serve(data, otherwise, header)
  }

  lemma FetchReads(w: World, i: nat, j: nat, p: Pointer, data: seq<Byte>, otherwise: string -> Option<seq<Byte>>)
    requires Serves(w, i, j, p.key, data, otherwise) && 0 <= p.start < p.end
    ensures var end := if p.end as int <= |data| then p.end as int else |data|;
            Fetch(w, i, j, p) == if p.start as int >= |data| then None else Some(data[p.start as int..end])
  {
    RangeReadIsSlice(data, otherwise, p.key, p.start, p.end);
    assert w.getObject(i, j, p.key, RangeHeader(p.start, p.end)) == Serve(data, otherwise, RangeHeader(p.start, p.end));
  }

  /** The outcome of an entry is decided by the bytes [start, end) of the object it points to, and by nothing else. */
  function LineOutcome(w: World, data: seq<Byte>, ref: string, meta: Metadata, start: Int64, end: Int64): Outcome
    requires 0 <= start <= end
  {
    if start as int >= |data| then Lost(StoreFailed)
    else
      match ParseEvent(w, data[start as int..if end as int <= |data| then end as int else |data|], ref, meta.timestamp)
      case None => Lost(BadEvent)
      case Some(event) => Got(event)
  }

  /** An entry written by the index builder as bucket|key|start|end is answered with that line of that object. */
  lemma {:induction false} BuilderEntryReadsItsLine(
    w: World, i: nat, ref: string, j: nat, meta: Metadata, p: Pointer,
    data: seq<Byte>, otherwise: string -> Option<seq<Byte>>)
    requires meta.s3Path == PrintPointer(p) && Printable(p) && 0 <= p.start < p.end
    requires Serves(w, i, j, p.key, data, otherwise)
    ensures EntryOutcome(w, i, ref, j, meta) == LineOutcome(w, data, ref, meta, p.start, p.end)
  {
    hide ParsePointer, Fetch, ParseEvent, PrintPointer, Serves;
    PointerRoundTrip(p, meta.startByte, meta.endByte);
    FetchReads(w, i, j, p, data, otherwise);
  }

  /** An entry of the storage node, bucket|key with the range beside it, is answered with that line of that object. */
  lemma {:induction false} NodeEntryReadsItsLine(
    w: World, i: nat, ref: string, j: nat, meta: Metadata, bucket: string, key: string,
    data: seq<Byte>, otherwise: string -> Option<seq<Byte>>)
    requires meta.s3Path == bucket + ['|'] + key && bucket != "" && bucket[0] != '/'
    requires Free(bucket, '|') && Occurrences(key, '|') <= 1 && 0 <= meta.startByte < meta.endByte
    requires Serves(w, i, j, key, data, otherwise)
    ensures EntryOutcome(w, i, ref, j, meta) == LineOutcome(w, data, ref, meta, meta.startByte, meta.endByte)
  {
    hide ParsePointer, Fetch, ParseEvent, Serves, ParseS3Path;
    var p := Pointer(bucket, key, meta.startByte, meta.endByte);
    assert ParsePointer(meta.s3Path, meta.startByte, meta.endByte) == Located(p) by {
      BucketForm(bucket, key, meta.startByte, meta.endByte);
    }
    FetchReads(w, i, j, p, data, otherwise);
  }
}
