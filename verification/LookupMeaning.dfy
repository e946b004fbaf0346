/** What the sequential reference answer of LookupMany says, in terms of the outside world alone. */
module LookupMeaning {
  import opened ByteRanges
  import opened GoText
  import opened JsonValues
  import opened LookupModel
  import opened LookupProof
  import opened Pointers
  import opened Sequences

  // ---------------------------------------------------------------- one event

  predicate Newlines(s: seq<Byte>) {
    forall k | 0 <= k < |s| :: s[k] == 10 || s[k] == 13
  }

  /** A stored line ends before its trailing line breaks, however many there are. */
  lemma {:induction false} TrimNewlinesMeaning(line: seq<Byte>, newlines: seq<Byte>)
    requires line == [] || (line[|line| - 1] != 10 && line[|line| - 1] != 13)
    requires Newlines(newlines)
    ensures TrimNewlines(line + newlines) == line
  {
    if newlines == [] {
      assert line + newlines == line;
    } else {
      var init := newlines[..|newlines| - 1];
      assert (line + newlines)[..|line + newlines| - 1] == line + init;
      TrimNewlinesMeaning(line, init);
    }
  }

  /** The event of a stored line, field by field. */
  lemma ParseEventMeaning(w: World, line: seq<Byte>, newlines: seq<Byte>, refID: string, metaTS: Int64)
    requires line == [] || (line[|line| - 1] != 10 && line[|line| - 1] != 13)
    requires Newlines(newlines)
    ensures var r := ParseEvent(w, line + newlines, refID, metaTS);
            match w.decode(line)
            case None => r == None
            case Some(fields) =>
              && r.Some?
              && r.value.referenceID == refID
              && IsText(fields, "_event_id", r.value.eventID)
              && IsText(fields, "_category", r.value.category)
              && IsText(fields, "_event_type", r.value.eventType)
              && (r.value.timestamp == match EmbeddedTime(w, fields) case Some(ts) => ts case None => metaTS)
              && (forall name :: name in r.value.data <==>
                    name in fields && name != "_event_id" && name != "_event_timestamp" && name != "reference_id")
              && (forall name | name in r.value.data :: r.value.data[name] == fields[name])
  {
    TrimNewlinesMeaning(line, newlines);
  }

  /** The text under a name; missing, or no text, it counts as empty. */
  predicate IsText(fields: Fields, name: string, text: string) {
    if name !in fields then text == ""
    else
      match fields[name]
      case Text(t) => text == t
      case Other(_) => text == ""
  }

  function EmbeddedTime(w: World, fields: Fields): Option<Int64> {
    if "_event_timestamp" !in fields then None
    else
      match fields["_event_timestamp"]
      case Text(stamp) => w.parseTime(stamp)
      case Other(_) => None
  }

  // ---------------------------------------------------------------- all events, in order

  /** 0, 1, ..., n - 1. */
  function Upto(n: nat): (r: seq<nat>)
    ensures |r| == n && forall k | 0 <= k < n :: r[k] == k
  {
    seq(n, k => k)
  }

  /** The object bytes that entry j brings in; none if its pointer is bad or its read fails. */
  function RawBytes(w: World, i: nat, metas: seq<Metadata>): nat -> seq<Byte> {
    (j: nat) =>
      if j >= |metas| then []
      else
        match ParsePointer(metas[j].s3Path, metas[j].startByte, metas[j].endByte)
        case Rejected(_) => []
        case Located(p) =>
          if p.end <= p.start then []
          else
            match w.getObject(i, j, p.key, RangeHeader(p.start, p.end))
            case None => []
            case Some(raw) => raw
  }

  /** The place that entry j resolves to, if it does; every such place is fetched. */
  function Fetched(metas: seq<Metadata>): nat -> seq<Pointer> {
    (j: nat) =>
      if j >= |metas| then []
      else
        match ParsePointer(metas[j].s3Path, metas[j].startByte, metas[j].endByte)
        case Rejected(_) => []
        case Located(p) => [p]
  }

  /** The event of entry j, unless it is lost on the way or has neither an ID nor a ref. */
  function EntryEvent(w: World, i: nat, ref: string, metas: seq<Metadata>): nat -> seq<AuthEvent> {
    (j: nat) =>
      if j >= |metas| then []
      else
        match ParsePointer(metas[j].s3Path, metas[j].startByte, metas[j].endByte)
        case Rejected(_) => []
        case Located(p) =>
          if p.end <= p.start then []
          else
            match w.getObject(i, j, p.key, RangeHeader(p.start, p.end))
            case None => []
            case Some(raw) =>
              match ParseEvent(w, raw, ref, metas[j].timestamp)
              case None => []
              case Some(ev) => if ev.eventID == "" && ref == "" then [] else [ev]
  }

  lemma OneMore<B>(f: nat -> seq<B>, n: nat)
    ensures FlatMap(f, Upto(n + 1)) == FlatMap(f, Upto(n)) + f(n)
  {
    var last: seq<nat> := [n];
    assert Upto(n + 1) == Upto(n) + last;
    FlatMapConcat(f, Upto(n), last);
    FlatMapOne(f, n);
  }

  /** A ref's events are those of its entries, in index order; its bytes are what their reads bring in. */
  lemma {:induction false} SeqEventsMeaning(w: World, i: nat, ref: string, metas: seq<Metadata>, n: nat)
    requires n <= |metas|
    ensures SeqEvents(w, i, ref, metas, n) == FlatMap(EntryEvent(w, i, ref, metas), Upto(n))
    ensures SeqBytes(w, i, metas, n) == |FlatMap(RawBytes(w, i, metas), Upto(n))|
    ensures SeqFetches(metas, n) == |FlatMap(Fetched(metas), Upto(n))|
  {
    hide EntryOutcome, EntryBytes, EntryEvent, RawBytes, Fetched, Resolve;
    if n > 0 {
      SeqEventsMeaning(w, i, ref, metas, n - 1);
      OneMore(EntryEvent(w, i, ref, metas), n - 1);
      OneMore(RawBytes(w, i, metas), n - 1);
      OneMore(Fetched(metas), n - 1);
      OneEntry(w, i, ref, metas, n - 1);
    }
  }

  lemma OneEntry(w: World, i: nat, ref: string, metas: seq<Metadata>, j: nat)
    requires j < |metas|
    ensures EntryBytes(w, i, j, metas[j]) == |RawBytes(w, i, metas)(j)|
    ensures |Fetched(metas)(j)| == if Resolve(metas[j]).Located? then 1 else 0
    ensures EntryEvent(w, i, ref, metas)(j) ==
            match EntryOutcome(w, i, ref, j, metas[j])
            case Got(event) => if event.eventID != "" || event.referenceID != "" then [event] else []
            case Lost(_) => []
  {
    hide ParsePointer;
  }

  /** What ref i's range query finds; nothing if its shard has no client or fails. */
  function EntriesOf(w: World, refIDs: seq<string>): nat -> seq<Metadata> {
    (i: nat) =>
      if i >= |refIDs| then []
      else
        var shard := w.route("ref:" + refIDs[i]);
        if shard !in w.pool then []
        else match w.rangeQuery(i, shard, refIDs[i]) case None => [] case Some(metas) => metas
  }

  function EventsOf(w: World, refIDs: seq<string>): nat -> seq<AuthEvent> {
    (i: nat) =>
      if i >= |refIDs| then []
      else
        var metas := EntriesOf(w, refIDs)(i);
        FlatMap(EntryEvent(w, i, refIDs[i], metas), Upto(|metas|))
  }

  function BytesOf(w: World, refIDs: seq<string>): nat -> seq<Byte> {
    (i: nat) =>
      if i >= |refIDs| then []
      else
        var metas := EntriesOf(w, refIDs)(i);
        FlatMap(RawBytes(w, i, metas), Upto(|metas|))
  }

  function FetchedBy(w: World, refIDs: seq<string>): nat -> seq<Pointer> {
    (i: nat) =>
      if i >= |refIDs| then []
      else
        var metas := EntriesOf(w, refIDs)(i);
        FlatMap(Fetched(metas), Upto(|metas|))
  }

  lemma OneRef(w: World, refIDs: seq<string>, i: nat)
    requires i < |refIDs|
    ensures var one := SeqRef(w, i, refIDs[i]);
            && one.events == EventsOf(w, refIDs)(i) && one.counters.queries == 1
            && one.counters.found == |EntriesOf(w, refIDs)(i)|
            && one.counters.fetches == |FetchedBy(w, refIDs)(i)|
            && one.counters.bytes == |BytesOf(w, refIDs)(i)|
  {
    hide SeqEvents, SeqBytes, SeqFetches, EntryEvent, RawBytes, Fetched;
    var metas := EntriesOf(w, refIDs)(i);
    SeqEventsMeaning(w, i, refIDs[i], metas, |metas|);
  }

  /** The answer: refs in request order, entries in index order; and the sums that it reports. */
  lemma {:induction false} SeqLookupMeaning(w: World, refIDs: seq<string>, n: nat)
    requires n <= |refIDs|
    ensures var r := SeqLookup(w, refIDs, n);
            && r.events == FlatMap(EventsOf(w, refIDs), Upto(n))
            && r.counters.queries == n
            && r.counters.found == |FlatMap(EntriesOf(w, refIDs), Upto(n))|
            && r.counters.fetches == |FlatMap(FetchedBy(w, refIDs), Upto(n))|
            && r.counters.bytes == |FlatMap(BytesOf(w, refIDs), Upto(n))|
  {
    hide SeqRef, EventsOf, EntriesOf, BytesOf, FetchedBy;
    if n > 0 {
      SeqLookupMeaning(w, refIDs, n - 1);
      OneMore(EventsOf(w, refIDs), n - 1);
      OneMore(EntriesOf(w, refIDs), n - 1);
      OneMore(FetchedBy(w, refIDs), n - 1);
      OneMore(BytesOf(w, refIDs), n - 1);
      OneRef(w, refIDs, n - 1);
    }
  }
}
