/** Configuration: the list of shards and the .env file. */
module Config {
  import opened GoText

  // ---------------------------------------------------------------- SHARD_URLS

  /** The trimmed, non-empty pieces between the commas, in order. */
  function NonBlank(parts: seq<string>): (r: seq<string>)
    ensures forall url | url in r :: url != ""
  {
    if parts == [] then []
    else
      var url := TrimSpace(parts[|parts| - 1]);
      NonBlank(parts[..|parts| - 1]) + (if url != "" then [url] else [])
  }

  lemma {:induction false} NonBlankExists(parts: seq<string>)
    ensures NonBlank(parts) == [] <==> forall k | 0 <= k < |parts| :: TrimSpace(parts[k]) == ""
  {
    hide TrimSpace;
    if parts != [] {
      var init := parts[..|parts| - 1];
      NonBlankExists(init);
      assert forall k | 0 <= k < |init| :: init[k] == parts[k];
    }
  }

  /** One piece after another: each gives its trimmed text, or nothing if it is blank. */
  lemma {:induction false} NonBlankConcat(parts: seq<string>, more: seq<string>)
    ensures NonBlank(parts + more) == NonBlank(parts) + NonBlank(more)
  {
    hide TrimSpace;
    if more == [] {
      assert parts + more == parts;
    } else {
      var init := more[..|more| - 1];
      assert (parts + more)[..|parts + more| - 1] == parts + init;
      NonBlankConcat(parts, init);
    }
  }

  lemma NonBlankOne(part: string)
    ensures NonBlank([part]) == if TrimSpace(part) == "" then [] else [TrimSpace(part)]
  {
    hide TrimSpace;
    assert [part][..0] == [];
    assert NonBlank([]) == [];
  }

  /** Plain addresses between commas are the shards' addresses, in their order. */
  lemma {:induction false} PlainListParses(urls: seq<string>)
    requires |urls| >= 1
    requires forall url | url in urls :: url != "" && Trimmed(url, IsSpace) && Free(url, ',')
    ensures NonBlank(Split(Join(urls, ','), ',')) == urls
  {
    hide TrimSpace, NonBlank, Join;
    var url := urls[0];
    assert url in urls;
    TrimsPlain(url);
    NonBlankOne(url);
    if |urls| == 1 {
      assert Join(urls, ',') == url by { JoinOne(urls); }
      SplitCons(url, ',', "");
      assert urls == [url];
    } else {
      var rest := urls[1..];
      assert forall other | other in rest :: other in urls;
      PlainListParses(rest);
      assert Join(urls, ',') == url + [','] + Join(rest, ',') by { JoinOne(urls); }
      SplitCons(url, ',', Join(rest, ','));
      NonBlankConcat([url], Split(Join(rest, ','), ','));
    }
  }

  lemma JoinOne(urls: seq<string>)
    requires |urls| >= 1
    ensures Join(urls, ',') == if |urls| == 1 then urls[0] else urls[0] + [','] + Join(urls[1..], ',')
  {
  }

  lemma TrimsPlain(s: string)
    requires s != "" && Trimmed(s, IsSpace)
    ensures TrimSpace(s) == s
  {
    TrimsTo("", s, "", IsSpace);
    assert "" + s + "" == s;
  }

  /** None stands for "SHARD_URLS is empty". */
  method ParseShardURLs(raw: string) returns (r: Option<seq<string>>)
    ensures r == if NonBlank(Split(raw, ',')) == [] then None else Some(NonBlank(Split(raw, ',')))
    ensures r.Some? ==> |r.value| > 0 && forall url | url in r.value :: url != ""
    ensures r.None? <==> forall part | part in Split(raw, ',') :: TrimSpace(part) == ""
  {
    var parts := Split(raw, ',');
    var urls := [];
    for k := 0 to |parts|
      invariant urls == NonBlank(parts[..k])
    {
      assert parts[..k + 1][..k] == parts[..k];
      var part := TrimSpace(parts[k]);
      if part != "" {
        urls := urls + [part];
      }
    }
    assert parts[..|parts|] == parts;
    NonBlankExists(parts);
    if |urls| == 0 {
      return None;
    }
    return Some(urls);
  }

  // ---------------------------------------------------------------- .env

  type Env = map<string, string>

  function Getenv(env: Env, k: string): string {
    if k in env then env[k] else ""
  }

  /** os.Setenv refuses an empty name, a name with '=' or NUL in it, and a value with NUL in it. */
  predicate Settable(k: string, v: string) {
    k != "" && Free(k, '=') && Free(k, '\0') && Free(v, '\0')
  }

  function Setenv(env: Env, k: string, v: string): Env {
    if Settable(k, v) then env[k := v] else env
  }

  /** The key and value a line assigns, if it is neither blank, nor a comment, nor without '='. */
  function Assignment(line: string): Option<(string, string)> {
    var text := TrimSpace(line);
    if text == "" || text[0] == '#' then None
    else
      match Cut(text, '=')
      case None => None
      case Some(cut) => Some((TrimSpace(cut.0), TrimQuotes(TrimSpace(cut.1))))
  }

  function ApplyLine(env: Env, line: string): Env {
    match Assignment(line)
    case None => env
    case Some((k, v)) => if Getenv(env, k) == "" then Setenv(env, k, v) else env
  }

  function ApplyLines(env: Env, lines: seq<string>): Env {
    if lines == [] then env else ApplyLine(ApplyLines(env, lines[..|lines| - 1]), lines[|lines| - 1])
  }

  /** The process environment, which loadDotEnv changes line by line. */
  class Environment {
    var vars: Env

    /** file is what the scanner yields, or None if the file cannot be opened. */
    method LoadDotEnv(file: Option<seq<string>>)
      modifies this`vars
      ensures vars == if file.None? then old(vars) else ApplyLines(old(vars), file.value)
    {
      if file.None? {
        return;
      }
      var lines := file.value;
      for n := 0 to |lines|
        invariant vars == ApplyLines(old(vars), lines[..n])
      {
        assert lines[..n + 1][..n] == lines[..n];
        var text := TrimSpace(lines[n]);
        if text == "" || text[0] == '#' {
          continue;
        }
        var cut := Cut(text, '=');
        if cut.None? {
          continue;
        }
        var k, v := TrimSpace(cut.value.0), TrimQuotes(TrimSpace(cut.value.1));
        if Getenv(vars, k) == "" {
          vars := Setenv(vars, k, v);
        }
      }
      assert lines[..|lines|] == lines;
    }
  }

  // ---------------------------------------------------------------- what a line means

  /** No character of the given kind at either end. */
  predicate Trimmed(s: string, drop: char -> bool) {
    s != "" ==> !drop(s[0]) && !drop(s[|s| - 1])
  }

  lemma {:induction false} TrimsTo(left: string, s: string, right: string, drop: char -> bool)
    requires s != "" && Trimmed(s, drop)
    requires (forall k | 0 <= k < |left| :: drop(left[k])) && forall k | 0 <= k < |right| :: drop(right[k])
    ensures TrimBack(TrimFront(left + s + right, drop), drop) == s
    decreases |left| + |right|
  {
    var text := left + s + right;
    if left != "" {
      assert text[1..] == left[1..] + s + right;
      TrimsTo(left[1..], s, right, drop);
    } else if right != "" {
      assert text == s + right && text[0] == s[0];
      var init := right[..|right| - 1];
      assert text[..|text| - 1] == left + s + init;
      assert (left + s + init)[0] == s[0];
      TrimsTo(left, s, init, drop);
    } else {
      assert text == s;
    }
  }

  predicate Spaces(s: string) {
    forall k | 0 <= k < |s| :: IsSpace(s[k])
  }

  predicate PlainKey(k: string) {
    k != "" && Trimmed(k, IsSpace) && k[0] != '#' && Free(k, '=')
  }

  predicate PlainValue(v: string) {
    v != "" && Trimmed(v, IsSpace) && Trimmed(v, IsQuote)
  }

  lemma KeyPart(k: string, beforeEq: string)
    requires PlainKey(k) && Spaces(beforeEq)
    ensures TrimSpace(k + beforeEq) == k && Free(k + beforeEq, '=')
  {
    TrimsTo("", k, beforeEq, IsSpace);
    assert "" + k + beforeEq == k + beforeEq;
  }

  lemma ValuePart(afterEq: string, quote: string, v: string)
    requires PlainValue(v) && Spaces(afterEq) && quote in {"", "\"", "'"}
    ensures TrimQuotes(TrimSpace(afterEq + (quote + v + quote))) == v
  {
    var quoted := quote + v + quote;
    TrimsTo(afterEq, quoted, "", IsSpace);
    assert afterEq + quoted + "" == afterEq + quoted;
    TrimsTo(quote, v, quote, IsQuote);
  }

  /** Blanks around key and value do not count, and a value may be put in quotes. */
  lemma LineAssigns(left: string, k: string, beforeEq: string, afterEq: string, quote: string, v: string, right: string)
    requires PlainKey(k) && PlainValue(v) && quote in {"", "\"", "'"}
    requires Spaces(left) && Spaces(beforeEq) && Spaces(afterEq) && Spaces(right)
    ensures Assignment(left + ((k + beforeEq) + ['='] + (afterEq + (quote + v + quote))) + right) == Some((k, v))
  {
    hide TrimFront, TrimBack, TrimSpace, TrimQuotes, Cut;
    var value := afterEq + (quote + v + quote);
    var text := (k + beforeEq) + ['='] + value;
    assert text[0] == k[0] && text[|text| - 1] == (quote + v + quote)[|quote + v + quote| - 1];
    assert TrimSpace(left + text + right) == text by { LineText(left, text, right); }
    KeyPart(k, beforeEq);
    CutUnique(k + beforeEq, '=', value);
    ValuePart(afterEq, quote, v);
  }

  lemma LineText(left: string, text: string, right: string)
    requires text != "" && Trimmed(text, IsSpace) && Spaces(left) && Spaces(right)
    ensures TrimSpace(left + text + right) == text
  {
    TrimsTo(left, text, right, IsSpace);
  }

  /** A comment assigns nothing. */
  lemma CommentAssignsNothing(env: Env, left: string, comment: string)
    requires Spaces(left)
    ensures ApplyLine(env, left + ['#'] + comment) == env
  {
    var line := left + ['#'] + comment;
    TrimFrontStops(left, ['#'] + comment);
    assert left + (['#'] + comment) == line;
    var text := TrimFront(line, IsSpace);
    TrimBackKeepsHead(text);
  }

  lemma {:induction false} TrimFrontStops(left: string, rest: string)
    requires Spaces(left) && rest != "" && !IsSpace(rest[0])
    ensures TrimFront(left + rest, IsSpace) == rest
  {
    if left == "" {
      assert left + rest == rest;
    } else {
      assert (left + rest)[1..] == left[1..] + rest;
      TrimFrontStops(left[1..], rest);
    }
  }

  lemma {:induction false} TrimBackKeepsHead(s: string)
    requires s != "" && !IsSpace(s[0])
    ensures TrimBack(s, IsSpace) != "" && TrimBack(s, IsSpace)[0] == s[0]
  {
    if IsSpace(s[|s| - 1]) { TrimBackKeepsHead(s[..|s| - 1]); }
  }

  /** Nor does a line without '=', a blank one for instance. */
  lemma NoEqualsAssignsNothing(env: Env, line: string)
    requires Free(line, '=')
    ensures ApplyLine(env, line) == env
  {
    TrimKeepsFree(line, '=');
  }

  lemma TrimKeepsFree(s: string, c: char)
    requires Free(s, c)
    ensures Free(TrimSpace(s), c)
  {
    TrimFrontKeepsFree(s, c);
    TrimBackKeepsFree(TrimFront(s, IsSpace), c);
  }

  lemma {:induction false} TrimFrontKeepsFree(s: string, c: char)
    requires Free(s, c)
    ensures Free(TrimFront(s, IsSpace), c)
  {
    if s != "" && IsSpace(s[0]) { TrimFrontKeepsFree(s[1..], c); }
  }

  lemma {:induction false} TrimBackKeepsFree(s: string, c: char)
    requires Free(s, c)
    ensures Free(TrimBack(s, IsSpace), c)
  {
    if s != "" && IsSpace(s[|s| - 1]) { TrimBackKeepsFree(s[..|s| - 1], c); }
  }

  // ---------------------------------------------------------------- what loading the file means

  /** The line assigns k, in a way the operating system accepts. */
  predicate Assigns(line: string, k: string) {
    Assignment(line).Some? && Assignment(line).value.0 == k && Settable(k, Assignment(line).value.1)
  }

  function ValueGiven(line: string, k: string): string {
    if Assigns(line, k) then Assignment(line).value.1 else ""
  }

  /** The first non-empty value the lines give k, or "". */
  function FirstValue(lines: seq<string>, k: string): string {
    if lines == [] then ""
    else
      var so := FirstValue(lines[..|lines| - 1], k);
      if so != "" then so else ValueGiven(lines[|lines| - 1], k)
  }

  /** It is the value some line gives, before which no line gives k a non-empty one. */
  lemma {:induction false} FirstValueMeaning(lines: seq<string>, k: string)
    ensures FirstValue(lines, k) == "" ==> forall n | 0 <= n < |lines| :: ValueGiven(lines[n], k) == ""
    ensures FirstValue(lines, k) != "" ==>
              exists n :: 0 <= n < |lines| && ValueGiven(lines[n], k) == FirstValue(lines, k)
                          && forall m | 0 <= m < n :: ValueGiven(lines[m], k) == ""
  {
    hide ValueGiven;
    if lines != [] {
      var init := lines[..|lines| - 1];
      FirstValueMeaning(init, k);
      if FirstValue(init, k) != "" {
        var n :| 0 <= n < |init| && ValueGiven(init[n], k) == FirstValue(init, k)
                 && forall m | 0 <= m < n :: ValueGiven(init[m], k) == "";
        assert ValueGiven(lines[n], k) == FirstValue(lines, k);
        forall m | 0 <= m < n ensures ValueGiven(lines[m], k) == "" { assert lines[m] == init[m]; }
      } else {
        forall m | 0 <= m < |init| ensures ValueGiven(lines[m], k) == "" { assert lines[m] == init[m]; }
      }
    }
  }

  lemma ApplyLineOn(env: Env, line: string, k: string)
    ensures Getenv(ApplyLine(env, line), k) == if Getenv(env, k) != "" then Getenv(env, k) else ValueGiven(line, k)
    ensures k in ApplyLine(env, line) <==> k in env || Assigns(line, k)
  {
  }

  /** A variable that was set keeps its value; any other takes the first non-empty value the file gives it. */
  lemma {:induction false} ExistingValuesWin(env: Env, lines: seq<string>, k: string)
    ensures Getenv(ApplyLines(env, lines), k) == if Getenv(env, k) != "" then Getenv(env, k) else FirstValue(lines, k)
  {
    hide ApplyLine, ValueGiven;
    if lines != [] {
      var init := lines[..|lines| - 1];
      ExistingValuesWin(env, init, k);
      ApplyLineOn(ApplyLines(env, init), lines[|lines| - 1], k);
    }
  }

  /** A variable is set afterwards exactly if it was before or some line assigns it. */
  lemma {:induction false} SetExactly(env: Env, lines: seq<string>, k: string)
    ensures k in ApplyLines(env, lines) <==> k in env || exists n :: 0 <= n < |lines| && Assigns(lines[n], k)
  {
    hide ApplyLine, Assigns;
    if lines != [] {
      var init, last := lines[..|lines| - 1], lines[|lines| - 1];
      SetExactly(env, init, k);
      ApplyLineOn(ApplyLines(env, init), last, k);
      assert lines == init + [last];
      AssignedSplit(init, last, k);
    }
  }

  lemma AssignedSplit(init: seq<string>, last: string, k: string)
    ensures (exists n :: 0 <= n < |init + [last]| && Assigns((init + [last])[n], k))
       <==> (exists n :: 0 <= n < |init| && Assigns(init[n], k)) || Assigns(last, k)
  {
    hide Assigns;
    var lines := init + [last];
    if n :| 0 <= n < |init| && Assigns(init[n], k) { assert Assigns(lines[n], k); }
    if Assigns(last, k) { assert Assigns(lines[|init|], k); }
    if n :| 0 <= n < |lines| && Assigns(lines[n], k) && n < |init| { assert Assigns(init[n], k); }
  }

  /** Loading the file a second time changes nothing. */
  lemma LoadingTwiceIsLoadingOnce(env: Env, lines: seq<string>)
    ensures ApplyLines(ApplyLines(env, lines), lines) == ApplyLines(env, lines)
  {
    var once := ApplyLines(env, lines);
    var twice := ApplyLines(once, lines);
    hide ApplyLines, FirstValue, Assigns;
    forall k ensures k in twice <==> k in once {
      SetExactly(env, lines, k);
      SetExactly(once, lines, k);
    }
    forall k | k in once ensures twice[k] == once[k] {
      ExistingValuesWin(env, lines, k);
      ExistingValuesWin(once, lines, k);
      SetExactly(once, lines, k);
    }
  }
}
