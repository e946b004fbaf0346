/** The query string that the older service sends to a shard, and what a reader of it gets back. */
module QueryText {
  import opened GoText
  import opened StoredEvents

  /** What a reader of the query string finds under a name: the first name=value piece (nothing is unescaped). */
  function ParamIn(pieces: seq<string>, name: string): Option<string> {
    if pieces == [] then None
    else
      match Cut(pieces[0], '=')
      case None => ParamIn(pieces[1..], name)
      case Some(cut) => if cut.0 == name then Some(cut.1) else ParamIn(pieces[1..], name)
  }

  function Param(path: string, name: string): Option<string> {
    match Cut(path, '?')
    case None => None
    case Some(cut) => ParamIn(Split(cut.1, '&'), name)
  }

  function IfPositive(n: Int64): Option<string> {
    if n > 0 then Some(FormatInt(n as int)) else None
  }

  /**
   * The ref reads back exactly if it holds no '&', and otherwise cut off before it. If it does, so do the bounds of the
   * time range that are positive.
   */
  lemma QueryPathReads(req: Request, ref: string)
    ensures Param(QueryPath(req, ref), "ref_id") == Some(ref) <==> Free(ref, '&')
    ensures !Free(ref, '&') ==> Param(QueryPath(req, ref), "ref_id") == Some(Cut(ref, '&').value.0)
    ensures Free(ref, '&') ==> Param(QueryPath(req, ref), "start_time") == IfPositive(req.startTime)
    ensures Free(ref, '&') ==> Param(QueryPath(req, ref), "end_time") == IfPositive(req.endTime)
  {
    hide Cut, Split, ParamIn, Piece, Appended, QueryPath;
    var ending := if req.endTime > 0 then [Piece("end_time", req.endTime)] else [];
    var times := (if req.startTime > 0 then [Piece("start_time", req.startTime)] else []) + ending;
    var query := "ref_id=" + ref + Appended(times);
    PathSpelled(req, ref, query, times);
    CutUnique("/get", '?', query);
    TimesRead(req, times, "ref_id");
    TimesRead(req, times, "start_time");
    TimesRead(req, times, "end_time");
    if Free(ref, '&') {
      assert Free("ref_id=", '&');
      SplitAppended("ref_id=" + ref, times);
      RefReads(ref, times, "ref_id");
      RefReads(ref, times, "start_time");
      RefReads(ref, times, "end_time");
    } else {
      CutOffRef(ref, Appended(times));
    }
  }

  function TimeParam(req: Request, asked: string): Option<string> {
    if asked == "start_time" then IfPositive(req.startTime)
    else if asked == "end_time" then IfPositive(req.endTime)
    else None
  }

  lemma TimesRead(req: Request, times: seq<string>, asked: string)
    requires times == (if req.startTime > 0 then [Piece("start_time", req.startTime)] else [])
                      + (if req.endTime > 0 then [Piece("end_time", req.endTime)] else [])
    ensures forall piece | piece in times :: Free(piece, '&')
    ensures ParamIn(times, asked) == TimeParam(req, asked)
  {
    hide Piece, Cut, ParamIn, FormatInt;
    var ending := if req.endTime > 0 then [Piece("end_time", req.endTime)] else [];
    PieceReads("start_time", req.startTime, ending, asked);
    PieceReads("end_time", req.endTime, [], asked);
    NothingRead(asked);
    assert ending == [] || ending == [Piece("end_time", req.endTime)] + [];
    assert times == if req.startTime > 0 then [Piece("start_time", req.startTime)] + ending else ending;
  }

  lemma NothingRead(asked: string)
    ensures ParamIn([], asked) == None
  {
  }

  /** A ref with an ampersand in it reads back cut off. */
  lemma CutOffRef(ref: string, rest: string)
    requires !Free(ref, '&')
    ensures ParamIn(Split("ref_id=" + ref + rest, '&'), "ref_id") == Some(Cut(ref, '&').value.0)
  {
    var cut := Cut(ref, '&').value;
    assert "ref_id=" + ref + rest == ("ref_id=" + cut.0) + ['&'] + (cut.1 + rest);
    SplitCons("ref_id=" + cut.0, '&', cut.1 + rest);
    RefReads(cut.0, Split(cut.1 + rest, '&'), "ref_id");
  }

  function Piece(name: string, n: Int64): string {
    name + ['='] + FormatInt(n as int)
  }

  /** Each piece behind an ampersand. */
  function Appended(pieces: seq<string>): string {
    if pieces == [] then "" else ['&'] + pieces[0] + Appended(pieces[1..])
  }

  lemma PathSpelled(req: Request, ref: string, query: string, times: seq<string>)
    requires times == (if req.startTime > 0 then [Piece("start_time", req.startTime)] else [])
                      + (if req.endTime > 0 then [Piece("end_time", req.endTime)] else [])
    requires query == "ref_id=" + ref + Appended(times)
    ensures QueryPath(req, ref) == "/get" + ['?'] + query
  {
    hide Appended, Piece, FormatInt;
    AppendedTwo(times);
    var startPart := if req.startTime > 0 then "&start_time=" + FormatInt(req.startTime as int) else "";
    var endPart := if req.endTime > 0 then "&end_time=" + FormatInt(req.endTime as int) else "";
    PieceSpelled("start_time", req.startTime);
    PieceSpelled("end_time", req.endTime);
    assert ['&'] + "start_time" + ['='] == "&start_time=" && ['&'] + "end_time" + ['='] == "&end_time=";
    assert Appended(times) == startPart + endPart;
    assert "/get" + ['?'] + "ref_id=" == "/get?ref_id=";
    Regroup("/get" + ['?'], "ref_id=", ref, startPart, endPart);
  }

  lemma PieceSpelled(name: string, n: Int64)
    ensures ['&'] + Piece(name, n) == ['&'] + name + ['='] + FormatInt(n as int)
  {
    hide FormatInt;
  }

  lemma Regroup(a: string, b: string, c: string, d: string, e: string)
    ensures a + b + c + d + e == a + (b + c + (d + e))
  {
  }

  lemma AppendedTwo(pieces: seq<string>)
    requires |pieces| <= 2
    ensures Appended(pieces) == (if |pieces| > 0 then ['&'] + pieces[0] else "")
                                + (if |pieces| > 1 then ['&'] + pieces[1] else "")
  {
    if |pieces| > 0 {
      assert Appended(pieces[1..]) == if |pieces| > 1 then ['&'] + pieces[1] else "" by {
        if |pieces| > 1 { assert pieces[1..][1..] == []; }
      }
    }
  }

  lemma {:induction false} SplitAppended(first: string, pieces: seq<string>)
    requires Free(first, '&') && forall piece | piece in pieces :: Free(piece, '&')
    ensures Split(first + Appended(pieces), '&') == [first] + pieces
    decreases |pieces|
  {
    hide Split, Appended;
    AppendedMore(first, pieces);
    if pieces == [] {
      SplitCons(first, '&', "");
    } else {
      var more := pieces[0] + Appended(pieces[1..]);
      assert pieces[0] in pieces;
      SplitAppended(pieces[0], pieces[1..]);
      SplitCons(first, '&', more);
    }
  }

  lemma AppendedMore(first: string, pieces: seq<string>)
    ensures first + Appended(pieces)
         == if pieces == [] then first else first + ['&'] + (pieces[0] + Appended(pieces[1..]))
  {
    if pieces != [] { Behind(first, pieces[0], Appended(pieces[1..])); }
  }

  lemma Behind(first: string, piece: string, rest: string)
    ensures first + (['&'] + piece + rest) == first + ['&'] + (piece + rest)
  {
  }

  lemma PieceReads(name: string, n: Int64, rest: seq<string>, asked: string)
    requires Free(name, '=') && Free(name, '&')
    ensures Free(Piece(name, n), '&')
    ensures ParamIn([Piece(name, n)] + rest, asked)
         == if name == asked then Some(FormatInt(n as int)) else ParamIn(rest, asked)
  {
    FormatIntFree(n as int, '&');
    CutUnique(name, '=', FormatInt(n as int));
    assert ([Piece(name, n)] + rest)[1..] == rest;
  }

  lemma RefReads(ref: string, rest: seq<string>, asked: string)
    ensures ParamIn(["ref_id=" + ref] + rest, asked) == if asked == "ref_id" then Some(ref) else ParamIn(rest, asked)
  {
    assert "ref_id=" + ref == "ref_id" + ['='] + ref;
    CutUnique("ref_id", '=', ref);
    assert (["ref_id=" + ref] + rest)[1..] == rest;
  }
}
