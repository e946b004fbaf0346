/** From a half-open byte range to an HTTP Range header, and how that compares with slicing the whole object. */
module ByteRanges {
  import opened GoText

  newtype Byte = x: int | 0 <= x < 256

  /** The header asks for an inclusive range; the subtraction is in Int64, so Dafny checks it cannot underflow. */
  function RangeHeader(start: Int64, end: Int64): string
    requires start < end
  {
    "bytes=" + (FormatInt(start as int) + ['-'] + FormatInt((end - 1) as int))
  }

  /** GetRange: `get` stands for the S3 call on the client's own bucket, given key and Range header. */
  function GetRange(get: (string, string) -> Option<seq<Byte>>, key: string, start: Int64, end: Int64)
    : Option<seq<Byte>>
  {
    if end <= start then None else get(key, RangeHeader(start, end))
  }

  // ---------------------------------------------------------------- the server's side

  /** int-range of section 14.1.2 of RFC 9110: first-pos "-" last-pos, last not below first. */
  function ParseIntRange(header: string): Option<(nat, nat)> {
    if !("bytes=" <= header) then None
    else
      match Cut(header[6..], '-')
      case None => None
      case Some((first, last)) =>
        if first == "" || last == "" || !AllDigits(first) || !AllDigits(last) then None
        else if DecimalValue(last) < DecimalValue(first) then None
        else Some((DecimalValue(first), DecimalValue(last)))
  }

  /** An object served under section 14.1.2; `otherwise` is what it does with a header of any other shape. */
  function Serve(data: seq<Byte>, otherwise: string -> Option<seq<Byte>>, header: string): Option<seq<Byte>> {
    match ParseIntRange(header)
    case None => otherwise(header)
    case Some((first, last)) =>
      if first >= |data| then None
      else Some(data[first..if last + 1 <= |data| then last + 1 else |data|])
  }

  // ---------------------------------------------------------------- the older service's slice

  datatype Slice = OutOfBounds | Panics | Bytes(bytes: seq<Byte>)

  /** Skip when the start is past the end, clip the end, slice; Go panics on a slice with bad bounds. */
  function SliceRange(data: seq<Byte>, start: Int64, end: Int64): Slice {
    if start as int >= |data| then OutOfBounds
    else
      var endByte := if end as int > |data| then |data| else end as int;
      if 0 <= start as int <= endByte then Bytes(data[start as int..endByte]) else Panics
  }

  // ---------------------------------------------------------------- theorems

  lemma RangeHeaderRoundTrip(start: Int64, end: Int64)
    requires 0 <= start < end
    ensures ParseIntRange(RangeHeader(start, end)) == Some((start as int, end as int - 1))
  {
    var first, last := FormatInt(start as int), FormatInt((end - 1) as int);
    assert RangeHeader(start, end)[6..] == first + ['-'] + last;
    CutUnique(first, '-', last);
    FormatNatValue(start as int);
    FormatNatValue((end - 1) as int);
  }

  function GetFrom(data: seq<Byte>, otherwise: string -> Option<seq<Byte>>): (string, string) -> Option<seq<Byte>> {
    (key, header) => Serve(data, otherwise, header)
  }

  predicate SameBytes(ranged: Option<seq<Byte>>, sliced: Slice) {
    match sliced
    case OutOfBounds => ranged == None
    case Bytes(bytes) => ranged == Some(bytes)
    case Panics => false
  }

  /** The bytes a ranged read returns are those of the half-open slice. */
  lemma RangeReadIsSlice(data: seq<Byte>, otherwise: string -> Option<seq<Byte>>, key: string, start: Int64, end: Int64)
    requires 0 <= start < end
    ensures GetRange(GetFrom(data, otherwise), key, start, end)
         == if start as int >= |data| then None
            else Some(data[start as int..if end as int <= |data| then end as int else |data|])
  {
    RangeHeaderRoundTrip(start, end);
  }

  /** Over all int64 ranges, reading by range and slicing the whole object agree exactly on these. */
  lemma RangeReadAgreesExactly(
    data: seq<Byte>, otherwise: string -> Option<seq<Byte>>, key: string, start: Int64, end: Int64)
    ensures SameBytes(GetRange(GetFrom(data, otherwise), key, start, end), SliceRange(data, start, end))
       <==> 0 <= start && (start < end || start as int >= |data|)
  {
    if 0 <= start < end { RangeHeaderRoundTrip(start, end); }
  }
}
