/** The two readers of an index entry's S3 location: parsePointer (new service) and parseS3Path (older service). */
module Pointers {
  import opened GoText

  datatype Pointer = Pointer(bucket: string, key: string, start: Int64, end: Int64)

  datatype PointerError = BadOffsets | Unresolved

  datatype Resolution = Located(pointer: Pointer) | Rejected(error: PointerError)

  function ParsePointer(s3Path: string, metaStart: Int64, metaEnd: Int64): Resolution {
    var path := TrimLeft(s3Path, '/');
    var parts := SplitN(path, '|', 4);
    if |parts| == 4 then
      match (ParseInt(parts[2]), ParseInt(parts[3]))
      case (Some(sb), Some(eb)) => Located(Pointer(parts[0], parts[1], sb, eb))
      case _ => Rejected(BadOffsets)
    else if metaEnd > metaStart then
      match Cut(path, '|')
      case Some(cut) =>
        if |cut.0| > 0 then Located(Pointer(cut.0, cut.1, metaStart, metaEnd))
        else Located(Pointer("", path, metaStart, metaEnd))
      case None => Located(Pointer("", path, metaStart, metaEnd))
    else Rejected(Unresolved)
  }

  const S3_SCHEME := "s3://"

  function ParseS3Path(s3Path: string): (string, string) {
    match Cut(s3Path, '|')
    case Some(cut) => cut
    case None =>
      if S3_SCHEME <= s3Path then
        match Cut(s3Path[|S3_SCHEME|..], '/')
        case Some(cut) => cut
        case None => ("", "")
      else ("", "")
  }

  /** The builder's raw value: bucket|objectKey|startByte|endByte. */
  function PrintPointer(p: Pointer): string {
    p.bucket + ['|'] + (p.key + ['|'] + (FormatInt(p.start as int) + ['|'] + FormatInt(p.end as int)))
  }

  predicate Printable(p: Pointer) {
    Free(p.bucket, '|') && Free(p.key, '|') && (p.bucket == "" || p.bucket[0] != '/')
  }

  // ---------------------------------------------------------------- counting separators

  lemma {:induction false} SplitNCount(s: string, c: char, n: nat)
    requires n > 0
    ensures |SplitN(s, c, n)| == if Occurrences(s, c) < n then Occurrences(s, c) + 1 else n
    decreases n
  {
    FreeHasNone(s, c);
    if Cut(s, c).Some? {
      CutOccurrences(s, c);
      if n > 1 { SplitNCount(Cut(s, c).value.1, c, n - 1); }
    }
  }

  lemma {:induction false} TrimKeepsOccurrences(s: string, trim: char, c: char)
    requires trim != c
    ensures Occurrences(TrimLeft(s, trim), c) == Occurrences(s, c)
  {
    if s != "" && s[0] == trim { TrimKeepsOccurrences(s[1..], trim, c); }
  }

  /** Four pieces spell the path back out, and only the last of them may hold a further separator. */
  lemma FourParts(path: string)
    requires Occurrences(path, '|') >= 3
    ensures var parts := SplitN(path, '|', 4);
            && |parts| == 4
            && (forall k | 0 <= k < 3 :: Free(parts[k], '|'))
            && path == parts[0] + ['|'] + (parts[1] + ['|'] + (parts[2] + ['|'] + parts[3]))
  {
    hide SplitN, Cut;
    var rest := FirstPart(path, 4);
    var rest' := FirstPart(rest, 3);
    var rest'' := FirstPart(rest', 2);
    SplitLast(rest'');
  }

  /** While there is a separator left, splitting takes off what precedes it. */
  lemma FirstPart(path: string, n: nat) returns (rest: string)
    requires Occurrences(path, '|') > 0 && n > 1
    ensures Occurrences(rest, '|') == Occurrences(path, '|') - 1
    ensures var parts := SplitN(path, '|', n);
            Free(parts[0], '|') && path == parts[0] + ['|'] + rest && parts[1..] == SplitN(rest, '|', n - 1)
  {
    FreeHasNone(path, '|');
    CutOccurrences(path, '|');
    rest := Cut(path, '|').value.1;
  }

  lemma SplitPrinted(bucket: string, key: string, a: string, b: string)
    requires Free(bucket, '|') && Free(key, '|') && Free(a, '|')
    ensures SplitN(bucket + ['|'] + (key + ['|'] + (a + ['|'] + b)), '|', 4) == [bucket, key, a, b]
  {
    hide SplitN;
    var s2 := a + ['|'] + b;
    var s1 := key + ['|'] + s2;
    SplitOnce(a, b, 2);
    SplitOnce(key, s2, 3);
    SplitOnce(bucket, s1, 4);
    SplitLast(b);
    assert [bucket] + ([key] + ([a] + [b])) == [bucket, key, a, b];
  }

  lemma SplitLast(s: string)
    ensures SplitN(s, '|', 1) == [s]
  {
  }

  lemma SplitOnce(before: string, after: string, n: nat)
    requires Free(before, '|') && n > 1
    ensures SplitN(before + ['|'] + after, '|', n) == [before] + SplitN(after, '|', n - 1)
  {
    CutUnique(before, '|', after);
  }

  lemma PrintedOccurrences(p: Pointer)
    ensures Occurrences(PrintPointer(p), '|') >= 3
  {
    var a, b := FormatInt(p.start as int), FormatInt(p.end as int);
    OccurrencesConcat(p.bucket + ['|'], p.key + ['|'] + (a + ['|'] + b), '|');
    OccurrencesConcat(p.bucket, ['|'], '|');
    OccurrencesConcat(p.key + ['|'], a + ['|'] + b, '|');
    OccurrencesConcat(p.key, ['|'], '|');
    OccurrencesConcat(a + ['|'], b, '|');
    OccurrencesConcat(a, ['|'], '|');
  }

  // ---------------------------------------------------------------- the forms of a path

  /** Three separators: the range is that of the text, whatever stands beside it, and must be two integers. */
  lemma RawForm(bucket: string, key: string, a: string, b: string, metaStart: Int64, metaEnd: Int64)
    requires Free(bucket, '|') && Free(key, '|') && Free(a, '|') && (bucket == "" || bucket[0] != '/')
    ensures ParsePointer(bucket + ['|'] + (key + ['|'] + (a + ['|'] + b)), metaStart, metaEnd)
         == match (ParseInt(a), ParseInt(b))
            case (Some(start), Some(end)) => Located(Pointer(bucket, key, start, end))
            case _ => Rejected(BadOffsets)
  {
    hide SplitN, Cut;
    var path := bucket + ['|'] + (key + ['|'] + (a + ['|'] + b));
    assert path[0] == if bucket == "" then '|' else bucket[0];
    SplitPrinted(bucket, key, a, b);
  }

  /** A bucket before the first separator, and at most one more: the key is all that follows. */
  lemma BucketForm(bucket: string, key: string, metaStart: Int64, metaEnd: Int64)
    requires bucket != "" && bucket[0] != '/' && Free(bucket, '|') && Occurrences(key, '|') <= 1
    ensures ParsePointer(bucket + ['|'] + key, metaStart, metaEnd)
         == if metaStart < metaEnd then Located(Pointer(bucket, key, metaStart, metaEnd)) else Rejected(Unresolved)
  {
    var path := bucket + ['|'] + key;
    CutUnique(bucket, '|', key);
    CutOccurrences(path, '|');
    assert path[0] == bucket[0] && TrimLeft(path, '/') == path;
    SplitNCount(path, '|', 4);
  }

  /** No bucket: behind its leading slashes, the whole text is the key. */
  lemma BareForm(slashes: nat, key: string, metaStart: Int64, metaEnd: Int64)
    requires Occurrences(key, '|') <= 2
    requires (Free(key, '|') && (key == "" || key[0] != '/')) || (key != "" && key[0] == '|')
    ensures ParsePointer(Repeat('/', slashes) + key, metaStart, metaEnd)
         == if metaStart < metaEnd then Located(Pointer("", key, metaStart, metaEnd)) else Rejected(Unresolved)
  {
    LeadingSlashesIgnored(slashes, key, metaStart, metaEnd);
    assert TrimLeft(key, '/') == key;
    SplitNCount(key, '|', 4);
  }

  /** For the older reader the bucket ends at the first separator, ... */
  lemma PipeForm(bucket: string, key: string)
    requires Free(bucket, '|')
    ensures ParseS3Path(bucket + ['|'] + key) == (bucket, key)
  {
    CutUnique(bucket, '|', key);
  }

  /** ... or, if there is none, at the first slash after the scheme. */
  lemma SchemeForm(bucket: string, key: string)
    requires Free(bucket, '/') && Free(bucket, '|') && Free(key, '|')
    ensures ParseS3Path("s3://" + (bucket + ['/'] + key)) == (bucket, key)
  {
    hide Cut;
    var path := "s3://" + (bucket + ['/'] + key);
    assert path[5..] == bucket + ['/'] + key;
    assert Free(path, '|');
    CutUnique(bucket, '/', key);
  }

  /** Anything else it rejects. */
  lemma OtherForms(path: string)
    requires Free(path, '|')
    requires !("s3://" <= path) || Free(path[5..], '/')
    ensures ParseS3Path(path) == ("", "")
  {
    hide Cut;
  }

  /** What the raw form yields never holds a separator in bucket or key, nor a leading slash. */
  lemma RawFormIsPrintable(s3Path: string, metaStart: Int64, metaEnd: Int64)
    requires Occurrences(s3Path, '|') >= 3
    requires ParsePointer(s3Path, metaStart, metaEnd).Located?
    ensures Printable(ParsePointer(s3Path, metaStart, metaEnd).pointer)
  {
    var path := TrimLeft(s3Path, '/');
    TrimKeepsOccurrences(s3Path, '/', '|');
    FourParts(path);
  }

  // ---------------------------------------------------------------- theorems

  /** Reading a printed pointer returns it for all int64 offsets, exactly when bucket and key can be printed. */
  lemma PointerRoundTrip(p: Pointer, metaStart: Int64, metaEnd: Int64)
    ensures ParsePointer(PrintPointer(p), metaStart, metaEnd) == Located(p) <==> Printable(p)
  {
    PrintedOccurrences(p);
    if ParsePointer(PrintPointer(p), metaStart, metaEnd) == Located(p) {
      RawFormIsPrintable(PrintPointer(p), metaStart, metaEnd);
    }
    if Printable(p) {
      ParseFormat(p.start as int);
      ParseFormat(p.end as int);
      FormatIntFree(p.start as int, '|');
      SplitPrinted(p.bucket, p.key, FormatInt(p.start as int), FormatInt(p.end as int));
      assert PrintPointer(p)[0] == if p.bucket == "" then '|' else p.bucket[0];
    }
  }

  /** Whatever raw text is accepted, printing the result and reading it again changes nothing. */
  lemma {:induction false} ParsePrintParse(
    s3Path: string, metaStart: Int64, metaEnd: Int64, otherStart: Int64, otherEnd: Int64)
    requires Occurrences(s3Path, '|') >= 3
    requires ParsePointer(s3Path, metaStart, metaEnd).Located?
    ensures var p := ParsePointer(s3Path, metaStart, metaEnd).pointer;
            ParsePointer(PrintPointer(p), otherStart, otherEnd) == Located(p)
  {
    RawFormIsPrintable(s3Path, metaStart, metaEnd);
    PointerRoundTrip(ParsePointer(s3Path, metaStart, metaEnd).pointer, otherStart, otherEnd);
  }

  lemma {:induction false} LeadingSlashesIgnored(n: nat, s3Path: string, metaStart: Int64, metaEnd: Int64)
    ensures ParsePointer(Repeat('/', n) + s3Path, metaStart, metaEnd) == ParsePointer(s3Path, metaStart, metaEnd)
  {
    TrimLeftRepeat('/', n, s3Path);
  }

  /**
   * Both readers find the same object, and the metadata range passes through. An empty bucket or key is how the older
   * reader says that it found none.
   */
  predicate ReadersAgree(s3Path: string, metaStart: Int64, metaEnd: Int64) {
    var (bucket, key) := ParseS3Path(s3Path);
    && bucket != "" && key != ""
    && ParsePointer(s3Path, metaStart, metaEnd) == Located(Pointer(bucket, key, metaStart, metaEnd))
  }

  /** The guard a caller can check: a usable range, and one or two separators with text before and after the first. */
  predicate Unambiguous(s3Path: string, metaStart: Int64, metaEnd: Int64) {
    && metaStart < metaEnd
    && 1 <= Occurrences(s3Path, '|') <= 2
    && s3Path[0] != '/' && s3Path[0] != '|'
    && (Occurrences(s3Path, '|') == 1 ==> s3Path[|s3Path| - 1] != '|')
  }

  /** The two parsers agree exactly on the unambiguous paths. */
  lemma ReadersAgreeExactly(s3Path: string, metaStart: Int64, metaEnd: Int64)
    ensures ReadersAgree(s3Path, metaStart, metaEnd) <==> Unambiguous(s3Path, metaStart, metaEnd)
  {
    hide ParsePointer, ParseS3Path;
    if Occurrences(s3Path, '|') >= 3 {
      ManySeparators(s3Path, metaStart, metaEnd);
    } else if Occurrences(s3Path, '|') == 0 {
      NoSeparator(s3Path, metaStart, metaEnd);
    } else {
      FewSeparators(s3Path, metaStart, metaEnd);
    }
  }

  /** The older reader keeps the later separators in the key; the new one cannot. */
  lemma ManySeparators(s3Path: string, metaStart: Int64, metaEnd: Int64)
    requires Occurrences(s3Path, '|') >= 3
    ensures !ReadersAgree(s3Path, metaStart, metaEnd)
  {
    hide SplitN;
    var path := TrimLeft(s3Path, '/');
    TrimKeepsOccurrences(s3Path, '/', '|');
    FourParts(path);
    FreeHasNone(s3Path, '|');
    CutOccurrences(s3Path, '|');
    FreeHasNone(ParseS3Path(s3Path).1, '|');
  }

  /** The older reader finds a part of the text at most; the new one takes the whole text for the key. */
  lemma NoSeparator(s3Path: string, metaStart: Int64, metaEnd: Int64)
    requires Occurrences(s3Path, '|') == 0
    ensures !ReadersAgree(s3Path, metaStart, metaEnd)
  {
    hide SplitN;
    var path := TrimLeft(s3Path, '/');
    TrimKeepsOccurrences(s3Path, '/', '|');
    SplitNCount(path, '|', 4);
    FreeHasNone(s3Path, '|');
    FreeHasNone(path, '|');
  }

  lemma FewSeparators(s3Path: string, metaStart: Int64, metaEnd: Int64)
    requires 1 <= Occurrences(s3Path, '|') <= 2
    ensures ReadersAgree(s3Path, metaStart, metaEnd) <==> Unambiguous(s3Path, metaStart, metaEnd)
  {
    hide SplitN;
    var path := TrimLeft(s3Path, '/');
    TrimKeepsOccurrences(s3Path, '/', '|');
    SplitNCount(path, '|', 4);
    FreeHasNone(s3Path, '|');
    FreeHasNone(path, '|');
    KeyIsEmptyExactly(s3Path);
    if s3Path[0] == '/' {
      var cut := Cut(s3Path, '|').value;
      assert cut.0 != "" && cut.0[0] == '/';
      if path != "" && path[0] != '|' { assert Cut(path, '|').value.0[0] == path[0]; }
    }
  }

  /** Nothing follows the first separator exactly when it is the only one and the last character. */
  lemma KeyIsEmptyExactly(s: string)
    requires Occurrences(s, '|') >= 1 && Cut(s, '|').Some?
    ensures Cut(s, '|').value.1 == "" <==> Occurrences(s, '|') == 1 && s[|s| - 1] == '|'
  {
    var cut := Cut(s, '|').value;
    CutOccurrences(s, '|');
    FreeHasNone(cut.1, '|');
    if cut.1 != "" { assert s[|s| - 1] == cut.1[|cut.1| - 1]; }
  }

  /**
   * The scheme form is read differently: the older reader splits it into bucket and key, the new one takes the whole
   * text, scheme included, for the key.
   */
  lemma SchemeFormDisagrees()
    ensures ParseS3Path("s3://b/k") == ("b", "k")
    ensures ParsePointer("s3://b/k", 0, 1) == Located(Pointer("", "s3://b/k", 0, 1))
    ensures !ReadersAgree("s3://b/k", 0, 1)
  {
    hide SplitN, Cut;
    var path := "s3://b/k";
    assert path[|S3_SCHEME|..] == "b" + ['/'] + "k";
    CutUnique("b", '/', "k");
    assert Free(path, '|');
    FreeHasNone(path, '|');
    SplitNCount(path, '|', 4);
  }

  /** So is a path that names no object: the older reader rejects it, the new one goes on to fetch an empty key. */
  lemma EmptyKeyDisagrees()
    ensures ParseS3Path("/") == ("", "") && ParsePointer("/", 0, 1) == Located(Pointer("", "", 0, 1))
    ensures ParseS3Path("b|") == ("b", "") && ParsePointer("b|", 0, 1) == Located(Pointer("b", "", 0, 1))
    ensures !ReadersAgree("/", 0, 1) && !ReadersAgree("b|", 0, 1)
  {
    assert TrimLeft("/", '/') == "";
    assert "b|" == "b" + ['|'] + "";
    CutUnique("b", '|', "");
    assert Free("/", '|') && Free("", '|');
    SplitOnce("b", "", 4);
    assert Cut("", '|') == None;
  }
}
