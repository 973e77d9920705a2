/** The first performance class (`Performance.py` of the package): a timeline
    of one-line dialogue, a performer registry keyed by upper-cased name, the
    backend slots with their context marks, the prompt it builds for a
    backend, and the reading of a reply line by line. */
module LegacyPerformance {
  import opened Text
  import opened Errors
  import opened Constants
  import DialogueLine
  import Backend
  import opened Performers
  import PromptContext
  import Performance
  import opened Generator

  // ------------------------------------------------------ character headers

  /** A character of the pattern `[A-Z ]`. */
  predicate HeaderChar(c: char) {
    IsUpperChar(c) || c == ' '
  }

  /** A match of `[A-Z ]+:`. */
  predicate IsHeader(h: string) {
    |h| >= 2 && h[|h| - 1] == ':' && forall i :: 0 <= i < |h| - 1 ==> HeaderChar(h[i])
  }

  /** How many leading characters are in `[A-Z ]`. */
  function RunLength(s: string): (k: nat)
    ensures k <= |s|
    ensures forall i :: 0 <= i < k ==> HeaderChar(s[i])
    ensures k < |s| ==> !HeaderChar(s[k])
  {
    if s == [] || !HeaderChar(s[0]) then 0 else 1 + RunLength(s[1..])
  }

  /** `re.findall` and `re.split` with the pattern `[A-Z ]+:`: the headers
      in order and the texts around them.  Scanning from the left, a match
      starts where a run of `[A-Z ]` is followed by a colon; a run that is not
      cannot hold a match anywhere inside it. */
  function HeaderSplit(s: string): (r: (seq<string>, seq<string>))
    ensures |r.1| == |r.0| + 1
    ensures forall i :: 0 <= i < |r.0| ==> IsHeader(r.0[i])
    decreases |s|
  {
    if s == [] then ([], [""])
    else
      var k := RunLength(s);
      if 0 < k < |s| && s[k] == ':' then
        var rest := HeaderSplit(s[k + 1..]);
        ([s[..k + 1]] + rest.0, [""] + rest.1)
      else
        var m := if k == 0 then 1 else k;
        var rest := HeaderSplit(s[m..]);
        (rest.0, [s[..m] + rest.1[0]] + rest.1[1..])
  }

  /** Each header followed by the text after it. */
  function Joined(headers: seq<string>, inner: seq<string>): string
    requires |inner| == |headers|
  {
    if headers == [] then "" else headers[0] + inner[0] + Joined(headers[1..], inner[1..])
  }

  /** `HeaderSplit` where the text starts with a header. */
  lemma MatchCase(s: string)
    requires 0 < RunLength(s) < |s| && s[RunLength(s)] == ':'
    ensures var k := RunLength(s);
            HeaderSplit(s) == ([s[..k + 1]] + HeaderSplit(s[k + 1..]).0, [""] + HeaderSplit(s[k + 1..]).1)
  {
  }

  /** `HeaderSplit` where the text does not start with a header. */
  lemma SkipCase(s: string, m: nat)
    requires s != [] && !(0 < RunLength(s) < |s| && s[RunLength(s)] == ':')
    requires m == if RunLength(s) == 0 then 1 else RunLength(s)
    ensures HeaderSplit(s) ==
            (HeaderSplit(s[m..]).0, [s[..m] + HeaderSplit(s[m..]).1[0]] + HeaderSplit(s[m..]).1[1..])
  {
  }

  /** A header found first adds itself with an empty leading text. */
  lemma RejoinHeader(h: string, tail: string, rest: (seq<string>, seq<string>),
                     r: (seq<string>, seq<string>))
    requires |rest.1| == |rest.0| + 1
    requires rest.1[0] + Joined(rest.0, rest.1[1..]) == tail
    requires r == ([h] + rest.0, [""] + rest.1)
    ensures r.1[0] + Joined(r.0, r.1[1..]) == h + tail
  {
    assert r.1[1..] == rest.1;
    assert r.0[1..] == rest.0;
    assert r.1[0] == "";
  }

  /** Skipped text joins the leading text. */
  lemma RejoinSkip(p: string, tail: string, rest: (seq<string>, seq<string>),
                   r: (seq<string>, seq<string>))
    requires |rest.1| == |rest.0| + 1
    requires rest.1[0] + Joined(rest.0, rest.1[1..]) == tail
    requires r == (rest.0, [p + rest.1[0]] + rest.1[1..])
    ensures r.1[0] + Joined(r.0, r.1[1..]) == p + tail
  {
    assert r.1[1..] == rest.1[1..];
  }

  /** The leading text, then each header and the text after it, rebuild the
      line: `findall` and `split` lose nothing. */
  lemma {:induction false} HeaderSplitRejoins(s: string)
    ensures var (headers, pieces) := HeaderSplit(s);
            pieces[0] + Joined(headers, pieces[1..]) == s
    decreases |s|, 1
  {
    if s != [] {
      var k := RunLength(s);
      if 0 < k < |s| && s[k] == ':' {
        RejoinsAfterHeader(s);
      } else {
        RejoinsAfterSkip(s);
      }
    }
  }

  /** `HeaderSplitRejoins` where the text starts with a header. */
  lemma {:induction false} RejoinsAfterHeader(s: string)
    requires 0 < RunLength(s) < |s| && s[RunLength(s)] == ':'
    ensures HeaderSplit(s).1[0] + Joined(HeaderSplit(s).0, HeaderSplit(s).1[1..]) == s
    decreases |s|, 0
  {
    var k := RunLength(s);
    MatchCase(s);
    HeaderSplitRejoins(s[k + 1..]);
    RejoinHeader(s[..k + 1], s[k + 1..], HeaderSplit(s[k + 1..]), HeaderSplit(s));
    assert s == s[..k + 1] + s[k + 1..];
  }

  /** `HeaderSplitRejoins` where the text does not start with a header. */
  lemma {:induction false} RejoinsAfterSkip(s: string)
    requires s != [] && !(0 < RunLength(s) < |s| && s[RunLength(s)] == ':')
    ensures HeaderSplit(s).1[0] + Joined(HeaderSplit(s).0, HeaderSplit(s).1[1..]) == s
    decreases |s|, 0
  {
    var k := RunLength(s);
    var m := if k == 0 then 1 else k;
    SkipCase(s, m);
    HeaderSplitRejoins(s[m..]);
    SkipRejoins(s, m, HeaderSplit(s[m..]), HeaderSplit(s));
  }

  /** `RejoinSkip` with the skipped text cut from `s`. */
  lemma SkipRejoins(s: string, m: nat, rest: (seq<string>, seq<string>), r: (seq<string>, seq<string>))
    requires m <= |s| && |rest.1| == |rest.0| + 1
    requires rest.1[0] + Joined(rest.0, rest.1[1..]) == s[m..]
    requires r == (rest.0, [s[..m] + rest.1[0]] + rest.1[1..])
    ensures r.1[0] + Joined(r.0, r.1[1..]) == s
  {
    RejoinSkip(s[..m], s[m..], rest, r);
    assert s == s[..m] + s[m..];
  }

  // ---------------------------------------------------- reading the reply

  /** `DialogueLine.from_str` under the `ValueError` handler: a rejected
      text adds nothing, and any other error escapes. */
  function Accepted(text: string): (r: Result<seq<DialogueLine.Line>>)
    ensures r == Ok([]) <==> DialogueLine.FromStr(text) == Err(ValueError)
    ensures r.Err? <==> DialogueLine.FromStr(text).Err? && DialogueLine.FromStr(text).error != ValueError
    ensures r.Ok? && r.value != [] ==> r.value == [DialogueLine.FromStr(text).value]
  {
    match DialogueLine.FromStr(text)
    case Ok(l) => Ok([l])
    case Err(e) => if e == ValueError then Ok([]) else Err(e)
  }

  /** Every text of `texts` read in order; the first escaping error stops. */
  function AcceptAll(texts: seq<string>): Result<seq<DialogueLine.Line>> {
    if texts == [] then Ok([])
    else
      match AcceptAll(texts[..|texts| - 1])
      case Err(e) => Err(e)
      case Ok(acc) =>
        match Accepted(texts[|texts| - 1])
        case Err(e) => Err(e)
        case Ok(more) => Ok(acc + more)
  }

  /** The header segment `i` of `n` is read with.  As written (`rotated`)
      it is header `i - 1`, which for `i = 0` is Python's index `-1`, the
      last header; as evidently intended it is header `i`, the one right
      before the segment in the line. */
  function HeaderFor(n: nat, i: nat, rotated: bool): (j: nat)
    requires i < n
    ensures j < n
    ensures !rotated ==> j == i
  {
    if !rotated then i else if i == 0 then n - 1 else i - 1
  }

  /** The texts the first `k` segments after the first header are read as:
      a non-empty segment is prefixed with its stripped header. */
  function SegmentTexts(headers: seq<string>, inner: seq<string>, k: nat, rotated: bool): seq<string>
    requires |inner| == |headers| && k <= |inner|
  {
    if k == 0 then []
    else
      SegmentTexts(headers, inner, k - 1, rotated) +
      (if inner[k - 1] == [] then []
       else [Strip(headers[HeaderFor(|headers|, k - 1, rotated)]) + inner[k - 1]])
  }

  /** What one line of the reply contributes: nothing without a colon; with
      the flag and more than one header, its segments, each read with the
      header `HeaderFor` picks; otherwise the line itself. */
  function LineResult(line: string, discard: bool, rotated: bool): Result<seq<DialogueLine.Line>> {
    if ':' !in line then Ok([])
    else
      var (headers, pieces) := HeaderSplit(line);
      if discard && |headers| > 1 then AcceptAll(SegmentTexts(headers, pieces[1..], |headers|, rotated))
      else Accepted(line)
  }

  /** The first `n` lines of the reply read in order. */
  function LinesParsed(lines: seq<string>, discard: bool, rotated: bool, n: nat)
    : Result<seq<DialogueLine.Line>>
    requires n <= |lines|
  {
    if n == 0 then Ok([])
    else
      match LinesParsed(lines, discard, rotated, n - 1)
      case Err(e) => Err(e)
      case Ok(acc) =>
        match LineResult(lines[n - 1], discard, rotated)
        case Err(e) => Err(e)
        case Ok(more) => Ok(acc + more)
  }

  /** The reply as the backend's flags prepare it: for `gpt2` one leading
      newline goes (an empty reply has no first character), and the cue the
      prompt ended on is put back in front. */
  function Primed(response: string, backendName: string, nextPerformer: Option<Performer>)
    : (r: Result<string>)
    ensures r.Err? <==> Lower(backendName) == "gpt2" && response == []
    ensures r.Err? ==> r.error == IndexError
  {
    var flags := ParserFlags(backendName);
    if flags[IgnoreNewline] && response == [] then Err(IndexError)
    else
      var text := if flags[IgnoreNewline] && response[0] == '\n' then response[1..] else response;
      Ok(if nextPerformer.Some? then Upper(nextPerformer.value.characterName) + ": " + text else text)
  }

  /** What `parse_chatbot_response` returns: as written with `rotated`, as
      evidently intended without. */
  function ParseSpec(response: string, backendName: string, nextPerformer: Option<Performer>, rotated: bool)
    : Result<seq<DialogueLine.Line>>
  {
    match Primed(response, backendName, nextPerformer)
    case Err(e) => Err(e)
    case Ok(text) =>
      var lines := Split(text, '\n');
      LinesParsed(lines, ParserFlags(backendName)[DiscardNames], rotated, |lines|)
  }

  // ------------------------------------------ which header a segment gets

  function Concat(texts: seq<string>): string {
    if texts == [] then "" else texts[0] + Concat(texts[1..])
  }

  lemma {:induction false} ConcatSnoc(texts: seq<string>, t: string)
    ensures Concat(texts + [t]) == Concat(texts) + t
    decreases |texts|
  {
    if texts == [] {
      assert [t][1..] == [];
    } else {
      ConcatSnoc(texts[1..], t);
      assert (texts + [t])[1..] == texts[1..] + [t];
    }
  }

  lemma {:induction false} JoinedSnoc(headers: seq<string>, inner: seq<string>, h: string, x: string)
    requires |inner| == |headers|
    ensures Joined(headers + [h], inner + [x]) == Joined(headers, inner) + h + x
    decreases |headers|
  {
    if headers == [] {
      assert [h][1..] == [] && [x][1..] == [];
    } else {
      JoinedSnoc(headers[1..], inner[1..], h, x);
      assert (headers + [h])[1..] == headers[1..] + [h];
      assert (inner + [x])[1..] == inner[1..] + [x];
    }
  }

  lemma JoinedPrefixSnoc(headers: seq<string>, inner: seq<string>, k: nat)
    requires |inner| == |headers| && 0 < k <= |inner|
    ensures Joined(headers[..k], inner[..k]) ==
            Joined(headers[..k - 1], inner[..k - 1]) + headers[k - 1] + inner[k - 1]
  {
    JoinedSnoc(headers[..k - 1], inner[..k - 1], headers[k - 1], inner[k - 1]);
    assert headers[..k] == headers[..k - 1] + [headers[k - 1]];
    assert inner[..k] == inner[..k - 1] + [inner[k - 1]];
  }

  /** One more segment, read with its own stripped header. */
  lemma RejoinStep(headers: seq<string>, inner: seq<string>, k: nat)
    requires |inner| == |headers| && 0 < k <= |inner|
    requires Strip(headers[k - 1]) == headers[k - 1] && inner[k - 1] != []
    requires Concat(SegmentTexts(headers, inner, k - 1, false)) == Joined(headers[..k - 1], inner[..k - 1])
    ensures Concat(SegmentTexts(headers, inner, k, false)) == Joined(headers[..k], inner[..k])
  {
    var before := SegmentTexts(headers, inner, k - 1, false);
    var t := headers[k - 1] + inner[k - 1];
    assert SegmentTexts(headers, inner, k, false) == before + [t];
    ConcatSnoc(before, t);
    JoinedPrefixSnoc(headers, inner, k);
  }

  /** With stripped headers and no empty segment, the texts of the first `k`
      segments, each read with its own header and put together, are those
      headers and segments in their order in the line. */
  lemma {:induction false} CorrectedRejoins(headers: seq<string>, inner: seq<string>, k: nat)
    requires |inner| == |headers| && k <= |inner|
    requires forall i :: 0 <= i < |headers| ==> Strip(headers[i]) == headers[i]
    requires forall i :: 0 <= i < |inner| ==> inner[i] != []
    ensures Concat(SegmentTexts(headers, inner, k, false)) == Joined(headers[..k], inner[..k])
    decreases k
  {
    if k > 0 {
      CorrectedRejoins(headers, inner, k - 1);
      RejoinStep(headers, inner, k);
    }
  }

  /** Hence a line that starts with its first header is read back whole when
      each segment keeps its own header. */
  lemma CorrectedSegmentsRebuildLine(line: string)
    requires var (headers, pieces) := HeaderSplit(line);
             && pieces[0] == []
             && (forall i :: 0 <= i < |headers| ==> Strip(headers[i]) == headers[i])
             && (forall i :: 1 <= i < |pieces| ==> pieces[i] != [])
    ensures var (headers, pieces) := HeaderSplit(line);
            Concat(SegmentTexts(headers, pieces[1..], |headers|, false)) == line
  {
    var (headers, pieces) := HeaderSplit(line);
    HeaderSplitRejoins(line);
    forall i | 0 <= i < |pieces[1..]| ensures pieces[1..][i] != [] {
      assert pieces[1..][i] == pieces[i + 1];
    }
    CorrectedRejoins(headers, pieces[1..], |headers|);
    assert headers[..|headers|] == headers && pieces[1..][..|headers|] == pieces[1..];
  }

  /** A text without a colon holds no header and is one segment. */
  lemma {:induction false} NoColonNoHeader(s: string)
    requires ':' !in s
    ensures HeaderSplit(s) == ([], [s])
    decreases |s|
  {
    if s != [] {
      var k := RunLength(s);
      var m := if k == 0 then 1 else k;
      NoColonTail(s, m);
      NoColonNoHeader(s[m..]);
      SkipCase(s, m);
      JoinSingle(s, m, HeaderSplit(s[m..]), HeaderSplit(s));
    }
  }

  /** Without a colon the scan skips a run and goes on without a colon. */
  lemma NoColonTail(s: string, m: nat)
    requires ':' !in s && s != []
    requires m == if RunLength(s) == 0 then 1 else RunLength(s)
    ensures 0 < m <= |s| && ':' !in s[m..]
    ensures !(0 < RunLength(s) < |s| && s[RunLength(s)] == ':')
  {
    var k := RunLength(s);
    assert k < |s| ==> s[k] in s;
    assert forall i :: 0 <= i < |s[m..]| ==> s[m..][i] == s[m + i];
  }

  /** A skipped run joins the single text that follows it. */
  lemma JoinSingle(s: string, m: nat, rest: (seq<string>, seq<string>),
                   r: (seq<string>, seq<string>))
    requires m <= |s| && rest == ([], [s[m..]])
    requires r == (rest.0, [s[..m] + rest.1[0]] + rest.1[1..])
    ensures r == ([], [s])
  {
    assert rest.1[0] == s[m..] && rest.1[1..] == [];
    assert s[..m] + s[m..] == s;
    assert [s[..m] + rest.1[0]] + rest.1[1..] == [s];
  }

  /** A header at the start is found first, and the scan goes on after it. */
  lemma HeaderThen(h: string, b: string)
    requires IsHeader(h)
    ensures HeaderSplit(h + b) == ([h] + HeaderSplit(b).0, [""] + HeaderSplit(b).1)
  {
    var s := h + b;
    assert forall i :: 0 <= i < |h| ==> s[i] == h[i];
    assert !HeaderChar(s[|h| - 1]);
    assert forall i :: 0 <= i < |h| - 1 ==> HeaderChar(s[i]);
    assert RunLength(s) == |h| - 1;
    MatchCase(s);
    assert s[..|h|] == h && s[|h|..] == b;
  }

  /** A run of `[A-Z ]` cannot pass a character outside it. */
  lemma RunStops(a: string, b: string)
    requires a != [] && !HeaderChar(a[|a| - 1])
    ensures RunLength(a + b) < |a|
  {
    var s := a + b;
    assert s[|a| - 1] == a[|a| - 1];
  }

  /** Splicing a prefix onto the first segment, twice over. */
  lemma JoinFirst(p: string, t: string, a: string, r: (seq<string>, seq<string>),
                  rest: (seq<string>, seq<string>), inner: (seq<string>, seq<string>))
    requires |inner.1| > 0 && p + t == a
    requires rest == (inner.0, [t + inner.1[0]] + inner.1[1..])
    requires r == (rest.0, [p + rest.1[0]] + rest.1[1..])
    ensures r == (inner.0, [a + inner.1[0]] + inner.1[1..])
  {
    assert ([t + inner.1[0]] + inner.1[1..])[1..] == inner.1[1..];
    assert p + (t + inner.1[0]) == a + inner.1[0];
  }

  /** Cutting `a + b` inside `a`. */
  lemma CutInside(a: string, b: string, m: nat)
    requires m <= |a|
    ensures (a + b)[m..] == a[m..] + b && (a + b)[..m] == a[..m] && a[..m] + a[m..] == a
  {
  }

  /** The tail of a plain prefix is a plain prefix. */
  lemma PlainTail(a: string, m: nat)
    requires m < |a| && ':' !in a && !HeaderChar(a[|a| - 1])
    ensures ':' !in a[m..] && !HeaderChar(a[m..][|a[m..]| - 1])
  {
    var t := a[m..];
    assert forall i :: 0 <= i < |t| ==> t[i] == a[m + i];
  }

  /** A leading text with no colon that does not end inside a run of `[A-Z ]`
      joins the first segment of what follows. */
  lemma {:induction false} PlainPrefix(a: string, b: string)
    requires a != [] && ':' !in a && !HeaderChar(a[|a| - 1])
    ensures HeaderSplit(a + b) ==
            (HeaderSplit(b).0, [a + HeaderSplit(b).1[0]] + HeaderSplit(b).1[1..])
    decreases |a|
  {
    var s := a + b;
    var k := RunLength(s);
    RunStops(a, b);
    assert s[k] == a[k];
    var m := if k == 0 then 1 else k;
    SkipCase(s, m);
    CutInside(a, b, m);
    if m < |a| {
      PlainTail(a, m);
      PlainPrefix(a[m..], b);
      JoinFirst(s[..m], a[m..], a, HeaderSplit(s), HeaderSplit(s[m..]), HeaderSplit(b));
    }
  }

  /** The steps of `TwoHeaderLine`, on the values alone. */
  lemma TwoHeaderSteps(h0: string, x: string, h1: string, y: string,
                       r0: (seq<string>, seq<string>), r1: (seq<string>, seq<string>),
                       r2: (seq<string>, seq<string>), r3: (seq<string>, seq<string>))
    requires r0 == ([], [y])
    requires r1 == ([h1] + r0.0, [""] + r0.1)
    requires |r1.1| > 0 && r2 == (r1.0, [x + r1.1[0]] + r1.1[1..])
    requires r3 == ([h0] + r2.0, [""] + r2.1)
    ensures r3 == ([h0, h1], ["", x, y])
  {
    assert [h1] + r0.0 == [h1];
    assert [""] + r0.1 == ["", y];
    assert r1.1[1..] == [y];
    assert r1.1[0] == "" && x + "" == x;
    assert [x + r1.1[0]] + r1.1[1..] == [x, y];
    assert r2 == ([h1], [x, y]);
    assert [h0] + [h1] == [h0, h1];
    assert [""] + [x, y] == ["", x, y];
  }

  /** A line of two headers, each followed by its text. */
  lemma TwoHeaderLine(h0: string, x: string, h1: string, y: string)
    requires IsHeader(h0) && IsHeader(h1)
    requires x != [] && ':' !in x && !HeaderChar(x[|x| - 1]) && ':' !in y
    ensures HeaderSplit(h0 + x + h1 + y) == ([h0, h1], ["", x, y])
  {
    var t := h1 + y;
    var u := x + t;
    TwoHeaderNested(h0, x, h1, y, t, u);
    assert h0 + x + h1 + y == h0 + u;
  }

  /** `TwoHeaderLine` with the text bracketed from the right. */
  lemma TwoHeaderNested(h0: string, x: string, h1: string, y: string, t: string, u: string)
    requires IsHeader(h0) && IsHeader(h1)
    requires x != [] && ':' !in x && !HeaderChar(x[|x| - 1]) && ':' !in y
    requires t == h1 + y && u == x + t
    ensures HeaderSplit(h0 + u) == ([h0, h1], ["", x, y])
  {
    NoColonNoHeader(y);
    HeaderThen(h1, y);
    PlainPrefix(x, t);
    HeaderThen(h0, u);
    TwoHeaderSteps(h0, x, h1, y, HeaderSplit(y), HeaderSplit(t), HeaderSplit(u), HeaderSplit(h0 + u));
  }

  /** The headers and segments of `A: x B: y`. */
  lemma HeadersOfExample()
    ensures HeaderSplit("A: x B: y") == (["A:", " B:"], ["", " x", " y"])
  {
    assert "A: x B: y" == "A:" + " x" + " B:" + " y";
    assert IsHeader("A:") && IsHeader(" B:");
    TwoHeaderLine("A:", " x", " B:", " y");
  }

  /** With two headers, as written the text after the first is read with the
      second header and the text after the second with the first; the
      corrected reading keeps each with its own. */
  lemma TwoHeadersRotated(h0: string, h1: string, x: string, y: string)
    requires x != [] && y != []
    ensures SegmentTexts([h0, h1], [x, y], 2, true) == [Strip(h1) + x, Strip(h0) + y]
    ensures SegmentTexts([h0, h1], [x, y], 2, false) == [Strip(h0) + x, Strip(h1) + y]
  {
    var hs, xs := [h0, h1], [x, y];
    assert SegmentTexts(hs, xs, 0, true) == [];
    assert SegmentTexts(hs, xs, 1, true) == [] + [Strip(hs[1]) + xs[0]];
    assert SegmentTexts(hs, xs, 2, true) == SegmentTexts(hs, xs, 1, true) + [Strip(hs[0]) + xs[1]];
    assert SegmentTexts(hs, xs, 0, false) == [];
    assert SegmentTexts(hs, xs, 1, false) == [] + [Strip(hs[0]) + xs[0]];
    assert SegmentTexts(hs, xs, 2, false) == SegmentTexts(hs, xs, 1, false) + [Strip(hs[1]) + xs[1]];
  }

  /** The stripped headers of `A: x B: y`. */
  lemma ExampleHeadersStripped()
    ensures Strip("A:") == "A:" && Strip(" B:") == "B:"
  {
    StripPadded("B:");
    assert " " + "B:" == " B:";
    StripOfStripped("A:");
  }

  /** As written the speakers are rotated: in `A: x B: y` (whose headers and
      segments `HeadersOfExample` gives) the text after `A:` is read as spoken
      by `B` and the one after `B:` as spoken by `A`. */
  lemma SegmentsRotated()
    ensures SegmentTexts(["A:", " B:"], [" x", " y"], 2, true) == ["B: x", "A: y"]
  {
    var h0, x, h1, y := "A:", " x", " B:", " y";
    ExampleHeadersStripped();
    TwoHeadersRotated(h0, h1, x, y);
    assert "B:" + x == "B: x" && h0 + y == "A: y";
  }

  /** Read as intended, `A: x B: y` keeps each text with its own header. */
  lemma SegmentsKept()
    ensures SegmentTexts(["A:", " B:"], [" x", " y"], 2, false) == ["A: x", "B: y"]
  {
    var h0, x, h1, y := "A:", " x", " B:", " y";
    ExampleHeadersStripped();
    TwoHeadersRotated(h0, h1, x, y);
    assert h0 + x == "A: x" && "B:" + y == "B: y";
  }

  /** `NAME: text` for a one-word upper-case name reads back as that line. */
  lemma ReadBack(name: string, text: string)
    requires DialogueLine.Canonical(DialogueLine.Line(name, text))
    ensures DialogueLine.FromStr(name + ": " + text) == Ok(DialogueLine.Line(name, text))
  {
    var l := DialogueLine.Line(name, text);
    assert DialogueLine.ToStr(l) == name + ": " + text by {
      assert DialogueLine.Bracketed("") == "";
    }
    DialogueLine.RoundTrip(l);
  }

  /** The four lines the example can give back are canonical. */
  lemma ExampleLinesCanonical(name: string, text: string)
    requires name == "A" || name == "B"
    requires text == "x" || text == "y"
    ensures DialogueLine.Canonical(DialogueLine.Line(name, text))
  {
  }

  /** A text `N: t` of the example reads back as the line of `N` and `t`:
      so the rotated texts of `SegmentsRotated` are read as `B` saying `x`
      and `A` saying `y`. */
  lemma ExampleReadBack(name: string, text: string)
    requires name == "A" || name == "B"
    requires text == "x" || text == "y"
    ensures Accepted(name + ": " + text) == Ok([DialogueLine.Line(name, text)])
  {
    ExampleLinesCanonical(name, text);
    ReadBack(name, text);
  }

  /** Every speaker read from a reply has no colon in their name. */
  lemma {:induction false} AcceptAllNoColon(texts: seq<string>)
    requires AcceptAll(texts).Ok?
    ensures forall l :: l in AcceptAll(texts).value ==> ':' !in l.characterName
    decreases |texts|
  {
    if texts != [] {
      AcceptAllNoColon(texts[..|texts| - 1]);
      DialogueLine.FromStrErrors(texts[|texts| - 1]);
    }
  }

  lemma LineNoColon(line: string, discard: bool, rotated: bool)
    requires LineResult(line, discard, rotated).Ok?
    ensures forall l :: l in LineResult(line, discard, rotated).value ==> ':' !in l.characterName
  {
    if ':' in line {
      var (headers, pieces) := HeaderSplit(line);
      if discard && |headers| > 1 {
        AcceptAllNoColon(SegmentTexts(headers, pieces[1..], |headers|, rotated));
      } else {
        DialogueLine.FromStrErrors(line);
      }
    }
  }

  lemma {:induction false} LinesParsedNoColon(lines: seq<string>, discard: bool, rotated: bool, n: nat)
    requires n <= |lines| && LinesParsed(lines, discard, rotated, n).Ok?
    ensures forall l :: l in LinesParsed(lines, discard, rotated, n).value ==> ':' !in l.characterName
    decreases n
  {
    if n > 0 {
      LinesParsedNoColon(lines, discard, rotated, n - 1);
      LineNoColon(lines[n - 1], discard, rotated);
    }
  }

  /** No name that `parse_chatbot_response` reads contains a colon: each is
      cut at the first colon of its text. */
  lemma ParsedNamesHaveNoColon(response: string, backendName: string, nextPerformer: Option<Performer>,
                                rotated: bool)
    requires ParseSpec(response, backendName, nextPerformer, rotated).Ok?
    ensures forall l :: l in ParseSpec(response, backendName, nextPerformer, rotated).value ==>
                          ':' !in l.characterName
  {
    var text := Primed(response, backendName, nextPerformer).value;
    var lines := Split(text, '\n');
    LinesParsedNoColon(lines, ParserFlags(backendName)[DiscardNames], rotated, |lines|);
  }

  // ------------------------------------------------------ the performance

  /** What `add_dialogue` is given. */
  datatype DialogueInput =
    | LineList(lines: seq<DialogueLine.Line>)   // a list of `DialogueLine` objects only
    | Text(text: string)                        // a string to read as one line
    | One(line: DialogueLine.Line)              // one line

  /** Each line as `str` renders it, followed by `break_dialogue_line()`. */
  function Script(lines: seq<DialogueLine.Line>, fmt: ScriptFormat): string {
    ConcatMap(lines, l => DialogueLine.ToStr(l) + BreakComponent(fmt))
  }

  /** Rendering one more line adds its piece. */
  lemma ScriptSnoc(lines: seq<DialogueLine.Line>, l: DialogueLine.Line, fmt: ScriptFormat)
    ensures Script(lines + [l], fmt) == Script(lines, fmt) + DialogueLine.ToStr(l) + BreakComponent(fmt)
  {
    assert (lines + [l])[..|lines|] == lines;
  }

  /** Rendering one more line of a prefix adds its piece. */
  lemma ScriptPrefixStep(lines: seq<DialogueLine.Line>, i: nat, fmt: ScriptFormat)
    requires i < |lines|
    ensures Script(lines[..i + 1], fmt) == Script(lines[..i], fmt) + DialogueLine.ToStr(lines[i]) + BreakComponent(fmt)
  {
    assert lines[..i + 1] == lines[..i] + [lines[i]];
    ScriptSnoc(lines[..i], lines[i], fmt);
  }

  /** What a backend was shown up to its mark, followed by the lines after
      the mark, is the whole script. */
  lemma ScriptCatchUp(lines: seq<DialogueLine.Line>, mark: nat, fmt: ScriptFormat)
    requires mark <= |lines|
    ensures Script(lines[..mark], fmt) + Script(lines[mark..], fmt) == Script(lines, fmt)
  {
    assert lines[..mark] + lines[mark..] == lines;
    ConcatMapAppend(lines[..mark], lines[mark..], l => DialogueLine.ToStr(l) + BreakComponent(fmt));
  }

  /** Upper-case every name.  The first performance keeps `DialogueLine`
      lines rather than the package's `Dialogue`, hence a copy of
      `Performance.Speakers` over that type. */
  function Speakers(lines: seq<DialogueLine.Line>): (r: seq<string>)
    ensures |r| == |lines|
    ensures forall i :: 0 <= i < |lines| ==> r[i] == Upper(lines[i].characterName)
  {
    seq(|lines|, i requires 0 <= i < |lines| => Upper(lines[i].characterName))
  }

  /** The lines of several rounds, in the order the rounds ran. */
  function Flattened(rounds: seq<seq<DialogueLine.Line>>): seq<DialogueLine.Line> {
    if rounds == [] then [] else Flattened(rounds[..|rounds| - 1]) + rounds[|rounds| - 1]
  }

  lemma FlattenedSnoc(rounds: seq<seq<DialogueLine.Line>>, more: seq<DialogueLine.Line>)
    ensures Flattened(rounds + [more]) == Flattened(rounds) + more
  {
    assert (rounds + [more])[..|rounds|] == rounds;
  }

  /** One more round appended to a script that held the earlier rounds. */
  lemma ScriptStep(script0: seq<DialogueLine.Line>, script1: seq<DialogueLine.Line>, script2: seq<DialogueLine.Line>,
                   rounds: seq<seq<DialogueLine.Line>>, more: seq<DialogueLine.Line>)
    requires script1 == script0 + Flattened(rounds) && script2 == script1 + more
    ensures script2 == script0 + Flattened(rounds + [more])
  {
    FlattenedSnoc(rounds, more);
  }

  /** The speakers of one more round appended to a history that held the
      speakers of the earlier rounds. */
  lemma HistoryStep(history0: seq<string>, history1: seq<string>, history2: seq<string>,
                    rounds: seq<seq<DialogueLine.Line>>, more: seq<DialogueLine.Line>)
    requires history1 == history0 + Speakers(Flattened(rounds)) && history2 == history1 + Speakers(more)
    ensures history2 == history0 + Speakers(Flattened(rounds + [more]))
  {
    FlattenedSnoc(rounds, more);
    SpeakersAppend(Flattened(rounds), more);
  }

  /** A timeline that held the rounds, read back from where it started. */
  lemma TimelineRead(script0: seq<DialogueLine.Line>, history0: seq<string>,
                     script: seq<DialogueLine.Line>, history: seq<string>, rounds: seq<seq<DialogueLine.Line>>)
    requires script == script0 + Flattened(rounds) && history == history0 + Speakers(Flattened(rounds))
    ensures script0 <= script && history == history0 + Speakers(script[|script0|..])
  {
    assert script[|script0|..] == Flattened(rounds);
  }

  lemma SpeakersAppend(a: seq<DialogueLine.Line>, b: seq<DialogueLine.Line>)
    ensures Speakers(a + b) == Speakers(a) + Speakers(b)
  {
  }

  /** A script that grows in two steps, each recording its speakers, has
      recorded the speakers of both. */
  lemma ScriptStaysAhead(s0: seq<DialogueLine.Line>, s1: seq<DialogueLine.Line>, s2: seq<DialogueLine.Line>,
                         h0: seq<string>, h2: seq<string>)
    requires s0 <= s1 <= s2
    requires h2 == h0 + Speakers(s1[|s0|..]) + Speakers(s2[|s1|..])
    ensures h2 == h0 + Speakers(s2[|s0|..])
  {
    var a, b := s1[|s0|..], s2[|s1|..];
    SliceSplit(s0, s1, s2);
    SpeakersAppend(a, b);
    AppendAssoc(h0, Speakers(a), Speakers(b));
  }

  /** Removing a value listed once drops it and keeps every other value. */
  lemma SkipOnce<T>(xs: seq<T>, x: T, other: T)
    requires multiset(xs)[x] <= 1
    ensures x !in RemoveFirst(xs, x)
    ensures other in xs && other != x ==> other in RemoveFirst(xs, x)
  {
    RemovedOnce(xs, x);
    if other in xs && other != x {
      RemoveKeepsOthers(xs, x, other);
    }
  }

  lemma SliceSplit<T>(s0: seq<T>, s1: seq<T>, s2: seq<T>)
    requires s0 <= s1 <= s2
    ensures s2[|s0|..] == s1[|s0|..] + s2[|s1|..]
  {
  }

  lemma AppendAssoc<T>(x: seq<T>, y: seq<T>, z: seq<T>)
    ensures x + y + z == x + (y + z)
  {
  }

  /** The cue of the full-context branch: always the upper-cased name and a
      colon, whatever the format. */
  function Prime(nextPerformer: Option<Performer>): string {
    if nextPerformer.Some? then Upper(nextPerformer.value.characterName) + ": " else ""
  }

  class LegacyPerformance {
    var workingScript: seq<DialogueLine.Line>
    var scriptFormat: ScriptFormat
    var chatbots: seq<Backend.Chatbot>
    /** How many lines of the working script each backend has seen. */
    var chatbotStates: seq<int>
    var modelConfig: Option<Backend.Config>
    var performanceChatbotIndex: nat
    var performers: map<string, Performer>
    /** The dictionary's insertion order. */
    var performerOrder: seq<string>
    var botPerformers: seq<Performer>
    var humanPerformers: seq<Performer>
    var characterHistory: seq<string>
    /** The template text for a prompt file name. */
    const readPrompt: string -> string

    /** One mark per backend, each within the working script; every key is
        the upper-cased name of the performer stored under it. */
    ghost predicate Valid()
      reads this
    {
      && |chatbots| == |chatbotStates|
      && (forall i :: 0 <= i < |chatbotStates| ==> 0 <= chatbotStates[i] <= |workingScript|)
      && Performance.Registry(performers, performerOrder)
      && (forall k :: k in performers ==> k == Upper(performers[k].characterName))
    }

    /** The settings no mutator of the performance touches: the format, the
        fallback configuration and its backend. */
    twostate predicate SettingsKept()
      reads this
    {
      && scriptFormat == old(scriptFormat) && modelConfig == old(modelConfig)
      && performanceChatbotIndex == old(performanceChatbotIndex)
    }

    /** Everything but the timeline (the working script and who has spoken)
        is as it was: the settings, the backends with their marks, and the
        performers. */
    twostate predicate OnlyTimelineMoved()
      reads this
    {
      && SettingsKept()
      && chatbots == old(chatbots) && chatbotStates == old(chatbotStates)
      && performers == old(performers) && performerOrder == old(performerOrder)
      && botPerformers == old(botPerformers) && humanPerformers == old(humanPerformers)
    }

    /** The performers in dictionary order.  The first performance is a class
        of its own, with its own dictionary, so it has its own copy of
        `Performance.Performance.OrderedPerformers`. */
    function OrderedPerformers(): (r: seq<Performer>)
      reads this
      requires Valid()
      ensures |r| == |performerOrder|
      ensures forall i :: 0 <= i < |r| ==> r[i] == performers[performerOrder[i]]
    {
      seq(|performerOrder|, i requires 0 <= i < |performerOrder| && Valid() reads this =>
            performers[performerOrder[i]])
    }

    /** A new performance is empty; with a model configuration it opens a
        backend and uses it as the fallback. */
    constructor(modelConfig: Option<Backend.Config>, readPrompt: string -> string)
      ensures Valid()
      ensures workingScript == [] && characterHistory == [] && performers == map[]
      ensures botPerformers == [] && humanPerformers == []
      ensures scriptFormat == Fountain && this.modelConfig == modelConfig
      ensures this.readPrompt == readPrompt && performanceChatbotIndex == 0
      ensures modelConfig.None? ==> chatbots == [] && chatbotStates == []
      ensures modelConfig.Some? ==>
                && |chatbots| == 1 && fresh(chatbots[0]) && chatbotStates == [0]
                && chatbots[0].config == modelConfig.value
    {
      workingScript := [];
      scriptFormat := Fountain;
      chatbots := [];
      chatbotStates := [];
      performanceChatbotIndex := 0;
      performers := map[];
      performerOrder := [];
      botPerformers := [];
      humanPerformers := [];
      characterHistory := [];
      this.modelConfig := modelConfig;
      this.readPrompt := readPrompt;
      new;
      if modelConfig.Some? {
        performanceChatbotIndex := InitChatbot(modelConfig.value);
      }
    }

    /** `_init_chatbot`: a new backend with mark 0, at the end of the list. */
    method InitChatbot(config: Backend.Config) returns (chatbotIndex: nat)
      requires Valid()
      modifies this
      ensures Valid()
      ensures |chatbots| == |old(chatbots)| + 1 && chatbots[..|old(chatbots)|] == old(chatbots)
      ensures chatbotIndex == |chatbots| - 1
      ensures fresh(chatbots[chatbotIndex]) && chatbots[chatbotIndex].config == config
      ensures chatbotStates == old(chatbotStates) + [0]
      ensures workingScript == old(workingScript) && performers == old(performers)
      ensures performerOrder == old(performerOrder) && botPerformers == old(botPerformers)
      ensures humanPerformers == old(humanPerformers) && characterHistory == old(characterHistory)
      ensures modelConfig == old(modelConfig) && scriptFormat == old(scriptFormat)
      ensures performanceChatbotIndex == old(performanceChatbotIndex)
    {
      var chatbot := new Backend.Chatbot(config);
      chatbots := chatbots + [chatbot];
      chatbotStates := chatbotStates + [0];
      chatbotIndex := |chatbots| - 1;
    }

    /** `add_performer`: every performer is stored under its upper-cased name;
        bots and humans also go to their own lists, and a bot with its own
        configuration gets a new backend. */
    method AddPerformer(performer: Performer)
      requires Valid()
      modifies this, performer
      ensures Valid()
      ensures performers == old(performers)[Upper(performer.characterName) := performer]
      ensures performerOrder == if Upper(performer.characterName) in old(performers) then old(performerOrder)
                                else old(performerOrder) + [Upper(performer.characterName)]
      ensures performer.kind == BotKind ==> botPerformers == old(botPerformers) + [performer]
      ensures performer.kind != BotKind ==> botPerformers == old(botPerformers)
      ensures performer.kind == HumanKind ==> humanPerformers == old(humanPerformers) + [performer]
      ensures performer.kind != HumanKind ==> humanPerformers == old(humanPerformers)
      ensures performer.kind == BotKind && performer.modelConfig.Some? ==>
                && |chatbots| == |old(chatbots)| + 1
                && chatbots[..|old(chatbots)|] == old(chatbots)
                && chatbotStates == old(chatbotStates) + [0]
                && performer.chatbotIndex == |chatbots| - 1
                && fresh(chatbots[performer.chatbotIndex])
                && chatbots[performer.chatbotIndex].config == performer.modelConfig.value
      ensures !(performer.kind == BotKind && performer.modelConfig.Some?) ==>
                && chatbots == old(chatbots) && chatbotStates == old(chatbotStates)
                && performer.chatbotIndex == old(performer.chatbotIndex)
      ensures workingScript == old(workingScript) && characterHistory == old(characterHistory)
      ensures SettingsKept()
    {
      Register(performer);
      if performer.kind == BotKind {
        botPerformers := botPerformers + [performer];
        if performer.modelConfig.Some? {
          var chatbotIndex := InitChatbot(performer.modelConfig.value);
          performer.chatbotIndex := chatbotIndex;
        }
      } else if performer.kind == HumanKind {
        humanPerformers := humanPerformers + [performer];
      }
    }

    /** The dictionary entry of `add_performer`. */
    method Register(performer: Performer)
      requires Valid()
      modifies this
      ensures Valid()
      ensures performers == old(performers)[Upper(performer.characterName) := performer]
      ensures performerOrder == if Upper(performer.characterName) in old(performers) then old(performerOrder)
                                else old(performerOrder) + [Upper(performer.characterName)]
      ensures chatbots == old(chatbots) && chatbotStates == old(chatbotStates)
      ensures botPerformers == old(botPerformers) && humanPerformers == old(humanPerformers)
      ensures workingScript == old(workingScript) && characterHistory == old(characterHistory)
      ensures scriptFormat == old(scriptFormat) && modelConfig == old(modelConfig)
      ensures performanceChatbotIndex == old(performanceChatbotIndex)
    {
      var key := Upper(performer.characterName);
      if key !in performers {
        performerOrder := performerOrder + [key];
      }
      performers := performers[key := performer];
    }

    /** `add_dialogue`.  A list adds each line in order; a string is read as
        one line, and a string `from_str` rejects with `ValueError` adds
        nothing and gives `False`, while its other error escapes.  Each line
        added also records its upper-cased speaker. */
    method AddDialogue(dialogue: DialogueInput) returns (r: Result<bool>)
      requires Valid()
      modifies this
      ensures Valid()
      ensures dialogue.LineList? ==>
                && r == Ok(true)
                && workingScript == old(workingScript) + dialogue.lines
                && characterHistory == old(characterHistory) + Speakers(dialogue.lines)
      ensures dialogue.One? ==>
                && r == Ok(true)
                && workingScript == old(workingScript) + [dialogue.line]
                && characterHistory == old(characterHistory) + [Upper(dialogue.line.characterName)]
      ensures dialogue.Text? ==>
                var parsed := DialogueLine.FromStr(dialogue.text);
                && (parsed.Ok? ==>
                      && r == Ok(true)
                      && workingScript == old(workingScript) + [parsed.value]
                      && characterHistory == old(characterHistory) + [Upper(parsed.value.characterName)])
                && (parsed.Err? ==>
                      && workingScript == old(workingScript)
                      && characterHistory == old(characterHistory)
                      && r == if parsed.error == ValueError then Ok(false) else Err(parsed.error))
      ensures OnlyTimelineMoved()
    {
      match dialogue
      case LineList(lines) =>
        for i := 0 to |lines|
          invariant Valid()
          invariant workingScript == old(workingScript) + lines[..i]
          invariant characterHistory == old(characterHistory) + Speakers(lines[..i])
          invariant OnlyTimelineMoved()
        {
          AddLine(lines[i]);
          assert lines[..i + 1] == lines[..i] + [lines[i]];
          assert Speakers(lines[..i + 1]) == Speakers(lines[..i]) + [Upper(lines[i].characterName)];
        }
        assert lines[..|lines|] == lines;
        r := Ok(true);
      case Text(text) =>
        var parsed := DialogueLine.FromStr(text);
        if parsed.Err? {
          if parsed.error == ValueError {
            return Ok(false);
          }
          return Err(parsed.error);
        }
        AddLine(parsed.value);
        r := Ok(true);
      case One(line) =>
        AddLine(line);
        r := Ok(true);
    }

    /** The single-line case of `add_dialogue`. */
    method AddLine(line: DialogueLine.Line)
      requires Valid()
      modifies this
      ensures Valid()
      ensures workingScript == old(workingScript) + [line]
      ensures characterHistory == old(characterHistory) + [Upper(line.characterName)]
      ensures OnlyTimelineMoved()
    {
      workingScript := workingScript + [line];
      characterHistory := characterHistory + [Upper(line.characterName)];
    }

    /** The bots `pick_next_bot_performer` chooses among: all but the first
        occurrence of the performer stored under the last speaker's
        upper-cased name.  `IndexError` when nobody has spoken yet and
        `KeyError` when that name is not registered. */
    function Candidates(): (r: Result<seq<Performer>>)
      reads this
      requires Valid()
      ensures r.Ok? ==> forall b :: b in r.value ==> b in botPerformers
      ensures r == Err(IndexError) <==> characterHistory == []
      ensures r == Err(KeyError) <==>
                characterHistory != [] && Upper(characterHistory[|characterHistory| - 1]) !in performers
    {
      if characterHistory == [] then Err(IndexError)
      else
        var last := Upper(characterHistory[|characterHistory| - 1]);
        if last !in performers then Err(KeyError)
        else
          var x := performers[last];
          assert forall b :: b in RemoveFirst(botPerformers, x) ==> b in botPerformers by {
            forall b | b in RemoveFirst(botPerformers, x) ensures b in botPerformers {
              RemovedWasThere(botPerformers, x, b);
            }
          }
          Ok(RemoveFirst(botPerformers, x))
    }

    /** A bot that spoke last and is listed once is not chosen again, and any
        other bot stays a candidate. */
    lemma LastSpeakerSkipped(other: Performer)
      requires Valid() && characterHistory != []
      requires Upper(characterHistory[|characterHistory| - 1]) in performers
      requires multiset(botPerformers)[performers[Upper(characterHistory[|characterHistory| - 1])]] <= 1
      ensures Candidates().Ok?
      ensures performers[Upper(characterHistory[|characterHistory| - 1])] !in Candidates().value
      ensures other in botPerformers && other != performers[Upper(characterHistory[|characterHistory| - 1])] ==>
                other in Candidates().value
    {
      var rest := CandidatesAfter();
      SkipOnce(botPerformers, performers[Upper(characterHistory[|characterHistory| - 1])], other);
    }

    /** The candidates once the last speaker is registered. */
    lemma CandidatesAfter() returns (rest: seq<Performer>)
      requires Valid() && characterHistory != []
      requires Upper(characterHistory[|characterHistory| - 1]) in performers
      ensures rest == RemoveFirst(botPerformers, performers[Upper(characterHistory[|characterHistory| - 1])])
      ensures Candidates() == Ok(rest)
    {
      rest := RemoveFirst(botPerformers, performers[Upper(characterHistory[|characterHistory| - 1])]);
    }

    /** `pick_next_bot_performer`: a random candidate; `IndexError` when there
        is none. */
    method PickNextBotPerformer() returns (r: Result<Performer>)
      requires Valid()
      ensures r.Ok? <==> Candidates().Ok? && Candidates().value != []
      ensures r.Ok? ==> r.value in Candidates().value && r.value in botPerformers
      ensures r.Err? && Candidates().Err? ==> r.error == Candidates().error
      ensures r.Err? && Candidates().Ok? ==> r.error == IndexError
    {
      var bots := botPerformers;
      if bots == [] {
        bots := botPerformers;
      }
      if characterHistory == [] {
        return Err(IndexError);
      }
      var lastCharacterName := characterHistory[|characterHistory| - 1];
      if Upper(lastCharacterName) !in performers {
        return Err(KeyError);
      }
      var lastPerformer := performers[Upper(lastCharacterName)];
      if lastPerformer in bots {
        bots := RemoveFirst(bots, lastPerformer);
      }
      if bots == [] {
        return Err(IndexError);
      }
      var i :| 0 <= i < |bots|;
      r := Ok(bots[i]);
    }

    /** Round `i` picked the bot `picks[i]`, whose backend received the
        reply `replies[i]`, and `rounds[i]` is what that reply reads as
        behind the bot's cue. */
    ghost predicate Heard(rounds: seq<seq<DialogueLine.Line>>, picks: seq<Performer>, replies: seq<string>)
      reads this, chatbots, set i | 0 <= i < |picks| :: picks[i]
    {
      && |picks| == |rounds| && |replies| == |rounds|
      && forall i :: 0 <= i < |rounds| ==>
           && picks[i] in botPerformers
           && picks[i].chatbotIndex < |chatbots|
           && replies[i] in chatbots[picks[i].chatbotIndex].replies
           && ParseSpec(replies[i], chatbots[picks[i].chatbotIndex].name, Some(picks[i]), true) == Ok(rounds[i])
    }

    /** The last reply heard is the newest entry of the reply log of the
        backend of the last bot picked. */
    ghost predicate HeardLast(picks: seq<Performer>, replies: seq<string>)
      reads this, chatbots, set i | 0 <= i < |picks| :: picks[i]
    {
      && |picks| > 0 && |replies| == |picks|
      && picks[|picks| - 1].chatbotIndex < |chatbots|
      && var last := chatbots[picks[|picks| - 1].chatbotIndex];
         |last.replies| > 0 && replies[|replies| - 1] == last.replies[|last.replies| - 1]
    }

    /** One more round heard. */
    lemma HeardSnoc(rounds: seq<seq<DialogueLine.Line>>, picks: seq<Performer>, replies: seq<string>,
                    round: seq<DialogueLine.Line>, pick: Performer, reply: string)
      requires Heard(rounds, picks, replies)
      requires pick in botPerformers && pick.chatbotIndex < |chatbots|
      requires reply in chatbots[pick.chatbotIndex].replies
      requires ParseSpec(reply, chatbots[pick.chatbotIndex].name, Some(pick), true) == Ok(round)
      ensures Heard(rounds + [round], picks + [pick], replies + [reply])
    {
      var rounds', picks', replies' := rounds + [round], picks + [pick], replies + [reply];
      forall i | 0 <= i < |rounds'|
        ensures && picks'[i] in botPerformers
                && picks'[i].chatbotIndex < |chatbots|
                && replies'[i] in chatbots[picks'[i].chatbotIndex].replies
                && ParseSpec(replies'[i], chatbots[picks'[i].chatbotIndex].name, Some(picks'[i]), true)
                   == Ok(rounds'[i])
      {
        if i < |rounds| {
          assert picks'[i] == picks[i] && replies'[i] == replies[i] && rounds'[i] == rounds[i];
        }
      }
    }

    /** Since the script was `script0` and the history `history0`, the
        rounds `rounds` were played: the script gained their lines in order,
        the history recorded each line's speaker, and each round was heard
        from its pick's backend. */
    ghost predicate Played(script0: seq<DialogueLine.Line>, history0: seq<string>,
                           rounds: seq<seq<DialogueLine.Line>>, picks: seq<Performer>, replies: seq<string>)
      reads this, chatbots, set i | 0 <= i < |picks| :: picks[i]
    {
      && workingScript == script0 + Flattened(rounds)
      && characterHistory == history0 + Speakers(Flattened(rounds))
      && Heard(rounds, picks, replies)
    }

    /** What the rounds played say about the timeline and the backends. */
    lemma PlayedMeans(script0: seq<DialogueLine.Line>, history0: seq<string>,
                      rounds: seq<seq<DialogueLine.Line>>, picks: seq<Performer>, replies: seq<string>)
      requires Played(script0, history0, rounds, picks, replies)
      ensures workingScript == script0 + Flattened(rounds) && Heard(rounds, picks, replies)
      ensures script0 <= workingScript && characterHistory == history0 + Speakers(workingScript[|script0|..])
    {
      TimelineRead(script0, history0, workingScript, characterHistory, rounds);
    }

    /** `generate_dialogue`: with at least one bot, `maxLines` rounds of
        picking a bot, letting it speak one line and adding what it said; the
        lines of the last round are returned.  The script gains the lines of
        every round in turn, and each line added records its speaker.  Round
        `i` picked `picks[i]`, whose backend answered `replies[i]`, from
        which `rounds[i]` was read. */
    method GenerateDialogue(maxLines: int := 0)
      returns (r: Result<seq<DialogueLine.Line>>, ghost rounds: seq<seq<DialogueLine.Line>>,
               ghost picks: seq<Performer>, ghost replies: seq<string>)
      requires Valid()
      modifies this, chatbots
      ensures Valid()
      ensures old(botPerformers) == [] ==> r == Err(AssertionError) && workingScript == old(workingScript)
      ensures old(botPerformers) != [] && maxLines <= 0 ==>
                r == Ok([]) && workingScript == old(workingScript) && chatbotStates == old(chatbotStates)
      ensures old(botPerformers) != [] && maxLines > 0 && old(characterHistory) == [] ==>
                r == Err(IndexError) && workingScript == old(workingScript)
      ensures old(workingScript) <= workingScript
      ensures characterHistory == old(characterHistory) + Speakers(workingScript[|old(workingScript)|..])
      ensures chatbots == old(chatbots) && |chatbotStates| == |old(chatbotStates)|
      ensures performers == old(performers) && performerOrder == old(performerOrder)
      ensures botPerformers == old(botPerformers) && humanPerformers == old(humanPerformers)
      ensures SettingsKept()
      ensures workingScript == old(workingScript) + Flattened(rounds)
      ensures Heard(rounds, picks, replies)
      ensures r.Ok? && maxLines > 0 ==>
                |rounds| == maxLines && r.value == rounds[maxLines - 1] && HeardLast(picks, replies)
    {
      rounds, picks, replies := [], [], [];
      assert Played(workingScript, characterHistory, rounds, picks, replies) by {
        assert Heard(rounds, picks, replies) && Flattened(rounds) == [] && Speakers([]) == [];
      }
      hide *;
      if |botPerformers| == 0 {
        PlayedMeans(old(workingScript), old(characterHistory), rounds, picks, replies);
        return Err(AssertionError), rounds, picks, replies;
      }
      var lines: seq<DialogueLine.Line> := [];
      var lineIndex := 0;
      while lineIndex < maxLines
        invariant Valid() && botPerformers != []
        invariant lineIndex == 0 ==>
                    && lines == [] && workingScript == old(workingScript) && chatbotStates == old(chatbotStates)
                    && characterHistory == old(characterHistory)
        invariant lineIndex > 0 ==> old(characterHistory) != []
        invariant 0 <= lineIndex && (lineIndex <= maxLines || lineIndex == 0)
        invariant chatbots == old(chatbots) && |chatbotStates| == |old(chatbotStates)|
        invariant performers == old(performers) && performerOrder == old(performerOrder)
        invariant botPerformers == old(botPerformers) && humanPerformers == old(humanPerformers)
        invariant SettingsKept()
        invariant Played(old(workingScript), old(characterHistory), rounds, picks, replies)
        invariant |rounds| == lineIndex && (lineIndex > 0 ==> lines == rounds[lineIndex - 1])
        invariant lineIndex > 0 ==> HeardLast(picks, replies)
        decreases maxLines - lineIndex
      {
        ghost var pick, reply;
        var generated;
        generated, pick, reply := GenerateRound(old(workingScript), old(characterHistory), rounds, picks, replies);
        if generated.Err? {
          PlayedMeans(old(workingScript), old(characterHistory), rounds, picks, replies);
          return Err(generated.error), rounds, picks, replies;
        }
        lines := generated.value;
        rounds, picks, replies := rounds + [generated.value], picks + [pick], replies + [reply];
        lineIndex := lineIndex + 1;
      }
      PlayedMeans(old(workingScript), old(characterHistory), rounds, picks, replies);
      r := Ok(lines);
    }

    /** One round of the loop of `generate_dialogue`: pick a candidate, let
        it speak one line and add what was read from its reply.  `pick` is
        who spoke and `reply` the reply its backend received; the rounds
        played before stay played, and a successful round is played too. */
    method GenerateRound(ghost script0: seq<DialogueLine.Line>, ghost history0: seq<string>,
                         ghost rounds: seq<seq<DialogueLine.Line>>, ghost picks: seq<Performer>,
                         ghost replies: seq<string>)
      returns (r: Result<seq<DialogueLine.Line>>, ghost pick: Performer, ghost reply: string)
      requires Valid() && botPerformers != []
      requires Played(script0, history0, rounds, picks, replies)
      modifies this, chatbots
      ensures Valid()
      ensures old(characterHistory) == [] ==> r == Err(IndexError) && workingScript == old(workingScript)
      ensures r.Err? ==> workingScript == old(workingScript)
      ensures r.Ok? ==> workingScript == old(workingScript) + r.value
      ensures old(workingScript) <= workingScript
      ensures characterHistory == old(characterHistory) + Speakers(workingScript[|old(workingScript)|..])
      ensures chatbots == old(chatbots) && |chatbotStates| == |old(chatbotStates)|
      ensures performers == old(performers) && performerOrder == old(performerOrder)
      ensures botPerformers == old(botPerformers) && humanPerformers == old(humanPerformers)
      ensures SettingsKept()
      ensures r.Err? ==> Played(script0, history0, rounds, picks, replies)
      ensures r.Ok? ==>
                && old(Candidates()).Ok? && pick in old(Candidates()).value
                && pick in botPerformers && pick.chatbotIndex < |chatbots|
                && chatbots[pick.chatbotIndex].replies == old(chatbots[pick.chatbotIndex].replies) + [reply]
                && r == ParseSpec(reply, chatbots[pick.chatbotIndex].name, Some(pick), true)
      ensures r.Ok? ==>
                && Played(script0, history0, rounds + [r.value], picks + [pick], replies + [reply])
                && HeardLast(picks + [pick], replies + [reply])
    {
      hide ParseSpec, Valid, Candidates;
      pick, reply := botPerformers[0], "";
      var botPerformer := PickNextBotPerformer();
      if botPerformer.Err? {
        assert workingScript[|workingScript|..] == [];
        return Err(botPerformer.error), pick, reply;
      }
      pick := botPerformer.value;
      ghost var before, beforeHistory := workingScript, characterHistory;
      r, reply := Speak(botPerformer.value, rounds, picks, replies);
      if r.Ok? {
        assert workingScript[|before|..] == r.value;
        ScriptStep(script0, before, workingScript, rounds, r.value);
        HistoryStep(history0, beforeHistory, characterHistory, rounds, r.value);
      } else {
        assert workingScript[|before|..] == [];
      }
    }

    /** The rest of a round once `performer` is picked: let it speak one
        line and add what was read from its reply.  `reply` is the reply its
        backend received; the rounds heard before stay heard. */
    method Speak(performer: Performer, ghost rounds: seq<seq<DialogueLine.Line>>, ghost picks: seq<Performer>,
                 ghost replies: seq<string>)
      returns (r: Result<seq<DialogueLine.Line>>, ghost reply: string)
      requires Valid() && performer in botPerformers
      requires Heard(rounds, picks, replies)
      modifies this, chatbots
      ensures Valid()
      ensures r.Err? ==> workingScript == old(workingScript)
      ensures r.Ok? ==> workingScript == old(workingScript) + r.value
      ensures old(workingScript) <= workingScript
      ensures characterHistory == old(characterHistory) + Speakers(workingScript[|old(workingScript)|..])
      ensures chatbots == old(chatbots) && |chatbotStates| == |old(chatbotStates)|
      ensures performers == old(performers) && performerOrder == old(performerOrder)
      ensures botPerformers == old(botPerformers) && humanPerformers == old(humanPerformers)
      ensures SettingsKept()
      ensures Heard(rounds, picks, replies)
      ensures r.Ok? ==>
                && performer.chatbotIndex < |chatbots|
                && chatbots[performer.chatbotIndex].replies == old(chatbots[performer.chatbotIndex].replies) + [reply]
                && r == ParseSpec(reply, chatbots[performer.chatbotIndex].name, Some(performer), true)
                && Heard(rounds + [r.value], picks + [performer], replies + [reply])
                && HeardLast(picks + [performer], replies + [reply])
    {
      hide ParseSpec, PromptFor, Valid, Candidates;
      ghost var prompt;
      var generated;
      generated, prompt, reply := GeneratePerformerLines(performer, 1);
      if generated.Err? {
        assert workingScript[|workingScript|..] == [];
        return Err(generated.error), reply;
      }
      var added := AddDialogue(LineList(generated.value));
      assert workingScript[|old(workingScript)|..] == generated.value;
      r := generated;
      HeardSnoc(rounds, picks, replies, generated.value, performer, reply);
    }

    /** `generate_performer_lines`: one prompt, one send, and the reply, with
        the performer's cue put back in front, parsed.  `prompt` names what
        `prepare_chatbot_prompt` built and `response` the backend's reply;
        when the prompt cannot be built nothing is sent. */
    method GeneratePerformerLines(performer: Performer, maxLines: int)
      returns (r: Result<seq<DialogueLine.Line>>, ghost prompt: string, ghost response: string)
      requires Valid()
      modifies this, chatbots
      ensures Valid() && LegacyOnlyMarksMoved(this) && LegacyMarksAdvance(this)
      ensures performer.chatbotIndex >= |chatbots| ==>
                r == Err(IndexError) && chatbotStates == old(chatbotStates)
      ensures forall j :: 0 <= j < |chatbots| ==> old(chatbots[j].replies) <= chatbots[j].replies
      ensures performer.chatbotIndex < |chatbots| ==>
                var i := performer.chatbotIndex;
                var chatbot := chatbots[i];
                var planned := PromptFor(i, old(chatbotStates[i]), Some(performer), maxLines);
                && chatbotStates == old(chatbotStates)[i := |workingScript|]
                && (planned.Err? ==>
                      && planned.error == InvalidPerformer && r == Err(InvalidPerformer)
                      && chatbot.sent == old(chatbot.sent) && chatbot.replies == old(chatbot.replies))
                && (planned.Ok? ==>
                      && prompt == planned.value
                      && chatbot.sent == old(chatbot.sent) + [prompt]
                      && chatbot.replies == old(chatbot.replies) + [response]
                      && r == ParseSpec(response, chatbot.name, Some(performer), true))
    {
      prompt, response := "", "";
      var prepared := PrepareChatbotPrompt(Some(performer), maxLines);
      if prepared.Err? {
        PromptContext.ClassifiedListings(OrderedPerformers());
        return Err(prepared.error), prompt, response;
      }
      prompt := prepared.value;
      var found := GetPerformerChatbot(performer);
      var chatbot := found.value;
      var reply := chatbot.SendMessage(prepared.value);
      response := reply;
      r := ParseChatbotResponse(reply, chatbot, Some(performer));
    }

    /** `get_performer_chatbot` */
    method GetPerformerChatbot(performer: Performer) returns (r: Result<Backend.Chatbot>)
      ensures performer.chatbotIndex < |chatbots| <==> r.Ok?
      ensures r.Ok? ==> r.value == chatbots[performer.chatbotIndex]
      ensures r.Err? ==> r.error == IndexError
    {
      if performer.chatbotIndex >= |chatbots| {
        return Err(IndexError);
      }
      r := Ok(chatbots[performer.chatbotIndex]);
    }

    function ChatbotIndexFor(nextPerformer: Option<Performer>): nat
      reads this, if nextPerformer.Some? then {nextPerformer.value} else {}
    {
      if nextPerformer.Some? then nextPerformer.value.chatbotIndex else performanceChatbotIndex
    }

    /** What `prepare_context` returns for a backend: its template filled with
        the performers in dictionary order and the whole working script;
        `Exception("Invalid performer type.")` when a performer is neither a
        bot nor a human. */
    function ContextFor(chatbot: Backend.Chatbot, maxLines: int): Result<string>
      reads this
      requires Valid()
    {
      PromptContext.ContextSpec(readPrompt(PromptFile(chatbot.name)), OrderedPerformers(),
                                Script(workingScript, scriptFormat), maxLines)
    }

    /** The prompt `prepare_chatbot_prompt` builds for backend `i` whose mark
        was `mark`: the full context behind the prime, the lines past the
        mark behind the cue, or nothing when the backend is up to date. */
    function PromptFor(i: nat, mark: nat, nextPerformer: Option<Performer>, maxLines: int): Result<string>
      reads this
      requires Valid() && i < |chatbots|
    {
      if mark == 0 || !chatbots[i].keepContext then
        match ContextFor(chatbots[i], maxLines)
        case Ok(context) => Ok(context + Prime(nextPerformer))
        case Err(e) => Err(e)
      else if mark < |workingScript| then
        Ok(Script(workingScript[mark..], scriptFormat) + Cue(nextPerformer, scriptFormat))
      else Ok("")
    }

    /** `prepare_chatbot_prompt`.  A backend with mark 0, or one that keeps no
        context, gets the full context behind the `NAME: ` prime, its mark
        moving to the end of the script first, so that a failing context build
        still leaves it moved.  Otherwise it gets the lines past its mark,
        each followed by the line break of the format, then the cue of the
        format, or nothing when it is up to date. */
    method PrepareChatbotPrompt(nextPerformer: Option<Performer>, maxLines: int)
      returns (r: Result<string>)
      requires Valid()
      modifies this
      ensures Valid() && LegacyOnlyMarksMoved(this) && LegacyMarksAdvance(this)
      ensures var i := ChatbotIndexFor(nextPerformer);
              i >= |chatbots| ==> r == Err(IndexError) && chatbotStates == old(chatbotStates)
      ensures var i := ChatbotIndexFor(nextPerformer);
              i < |chatbots| ==>
                && chatbotStates == old(chatbotStates)[i := |workingScript|]
                && r == PromptFor(i, old(chatbotStates[i]), nextPerformer, maxLines)
      ensures var i := ChatbotIndexFor(nextPerformer);
              i < |chatbots| && (old(chatbotStates[i]) == 0 || !chatbots[i].keepContext) ==>
                && chatbotStates == old(chatbotStates)[i := |workingScript|]
                && var context := ContextFor(chatbots[i], maxLines);
                   r == if context.Ok? then Ok(context.value + Prime(nextPerformer)) else context
      ensures var i := ChatbotIndexFor(nextPerformer);
              i < |chatbots| && old(chatbotStates[i]) != 0 && chatbots[i].keepContext ==>
                var mark := old(chatbotStates[i]);
                && (mark < |workingScript| ==>
                      && chatbotStates == old(chatbotStates)[i := |workingScript|]
                      && r == Ok(Script(workingScript[mark..], scriptFormat) + Cue(nextPerformer, scriptFormat)))
                && (mark == |workingScript| ==> chatbotStates == old(chatbotStates) && r == Ok(""))
    {
      var chatbotIndex := ChatbotIndexFor(nextPerformer);
      if chatbotIndex >= |chatbots| {
        return Err(IndexError);
      }
      var chatbot := chatbots[chatbotIndex];
      if !chatbot.keepContext || chatbotStates[chatbotIndex] == 0 {
        r := InitializeContext(chatbotIndex, nextPerformer, maxLines);
      } else {
        var prompt := CatchUpContext(chatbotIndex, nextPerformer);
        r := Ok(prompt);
      }
    }

    /** The first branch of `prepare_chatbot_prompt`. */
    method InitializeContext(chatbotIndex: nat, nextPerformer: Option<Performer>, maxLines: int)
      returns (r: Result<string>)
      requires Valid() && chatbotIndex < |chatbots|
      modifies this
      ensures Valid() && LegacyOnlyMarksMoved(this) && LegacyMarksAdvance(this)
      ensures chatbotStates == old(chatbotStates)[chatbotIndex := |workingScript|]
      ensures var context := ContextFor(chatbots[chatbotIndex], maxLines);
              r == if context.Ok? then Ok(context.value + Prime(nextPerformer)) else context
    {
      var chatbot := chatbots[chatbotIndex];
      MarkCaughtUp(chatbotIndex);
      var context := PrepareContext(chatbot, maxLines);
      if context.Err? {
        return context;
      }
      var prompt := context.value;
      if nextPerformer.Some? {
        prompt := prompt + Upper(nextPerformer.value.characterName) + ": ";
      }
      assert prompt == context.value + Prime(nextPerformer);
      r := Ok(prompt);
    }

    /** The second branch of `prepare_chatbot_prompt`. */
    method CatchUpContext(chatbotIndex: nat, nextPerformer: Option<Performer>)
      returns (prompt: string)
      requires Valid() && chatbotIndex < |chatbots|
      modifies this
      ensures Valid() && LegacyOnlyMarksMoved(this) && LegacyMarksAdvance(this)
      ensures var mark := old(chatbotStates[chatbotIndex]);
              && (mark < |workingScript| ==>
                    && chatbotStates == old(chatbotStates)[chatbotIndex := |workingScript|]
                    && prompt == Script(workingScript[mark..], scriptFormat) + Cue(nextPerformer, scriptFormat))
              && (mark == |workingScript| ==> chatbotStates == old(chatbotStates) && prompt == "")
    {
      prompt := "";
      var chatbotState := chatbotStates[chatbotIndex];
      var contextBehind := |workingScript| - chatbotState;
      if contextBehind > 0 {
        prompt := MissingContext(workingScript[chatbotState..], nextPerformer, scriptFormat);
        MarkCaughtUp(chatbotIndex);
      }
    }

    /** Records that backend `chatbotIndex` has seen the whole working
        script. */
    method MarkCaughtUp(chatbotIndex: nat)
      requires Valid() && chatbotIndex < |chatbots|
      modifies this
      ensures Valid() && LegacyOnlyMarksMoved(this) && LegacyMarksAdvance(this)
      ensures chatbotStates == old(chatbotStates)[chatbotIndex := |workingScript|]
    {
      chatbotStates := chatbotStates[chatbotIndex := |workingScript|];
    }

    /** `prepare_context` */
    method PrepareContext(chatbot: Backend.Chatbot, maxLines: int) returns (r: Result<string>)
      requires Valid()
      ensures r == ContextFor(chatbot, maxLines)
    {
      var promptString := readPrompt(PromptFile(chatbot.name));
      var workingScriptString := RenderLines(workingScript, scriptFormat);
      r := PromptContext.FillTemplate(promptString, OrderedPerformers(), workingScriptString, maxLines);
    }
  }

  /** One more text read after the others. */
  lemma AcceptAllSnoc(texts: seq<string>, t: string)
    ensures AcceptAll(texts + [t]) ==
              match AcceptAll(texts)
              case Err(e) => Err(e)
              case Ok(acc) =>
                match Accepted(t)
                case Err(e) => Err(e)
                case Ok(more) => Ok(acc + more)
  {
    assert (texts + [t])[..|texts|] == texts;
  }

  lemma {:induction false} AcceptAllErrPrefix(xs: seq<string>, ys: seq<string>)
    requires AcceptAll(xs).Err?
    ensures AcceptAll(xs + ys) == AcceptAll(xs)
    decreases |ys|
  {
    if ys != [] {
      var init := ys[..|ys| - 1];
      AcceptAllErrPrefix(xs, init);
      assert xs + ys == (xs + init) + [ys[|ys| - 1]];
      AcceptAllSnoc(xs + init, ys[|ys| - 1]);
    } else {
      assert xs + ys == xs;
    }
  }

  /** The texts of the first `i` segments come first among those of the
      first `n`. */
  lemma {:induction false} SegmentTextsPrefix(headers: seq<string>, inner: seq<string>, i: nat, n: nat,
                                              rotated: bool)
    requires |inner| == |headers| && i <= n <= |inner|
    ensures SegmentTexts(headers, inner, i, rotated) <= SegmentTexts(headers, inner, n, rotated)
    decreases n
  {
    if n > i {
      SegmentTextsPrefix(headers, inner, i, n - 1, rotated);
      PrefixOfAppend(SegmentTexts(headers, inner, i, rotated), SegmentTexts(headers, inner, n - 1, rotated),
                     if inner[n - 1] == [] then []
                     else [Strip(headers[HeaderFor(|headers|, n - 1, rotated)]) + inner[n - 1]]);
    }
  }

  /** One more segment read. */
  lemma SegmentStep(headers: seq<string>, inner: seq<string>, i: nat, rotated: bool,
                    acc: seq<DialogueLine.Line>)
    requires |inner| == |headers| && i < |inner|
    requires AcceptAll(SegmentTexts(headers, inner, i, rotated)) == Ok(acc)
    ensures inner[i] == [] ==> AcceptAll(SegmentTexts(headers, inner, i + 1, rotated)) == Ok(acc)
    ensures inner[i] != [] ==>
              var t := Strip(headers[HeaderFor(|headers|, i, rotated)]) + inner[i];
              var next := AcceptAll(SegmentTexts(headers, inner, i + 1, rotated));
              && (DialogueLine.FromStr(t).Ok? ==> next == Ok(acc + [DialogueLine.FromStr(t).value]))
              && (DialogueLine.FromStr(t) == Err(ValueError) ==> next == Ok(acc))
              && (DialogueLine.FromStr(t).Err? && DialogueLine.FromStr(t).error != ValueError ==>
                    next == Err(DialogueLine.FromStr(t).error))
  {
    var before := SegmentTexts(headers, inner, i, rotated);
    if inner[i] == [] {
      assert SegmentTexts(headers, inner, i + 1, rotated) == before + [];
      assert before + [] == before;
    } else {
      var t := Strip(headers[HeaderFor(|headers|, i, rotated)]) + inner[i];
      assert SegmentTexts(headers, inner, i + 1, rotated) == before + [t];
      AcceptAllSnoc(before, t);
      assert acc + [] == acc;
    }
  }

  /** An error that escapes one segment is what the whole line gives. */
  lemma SegmentErrorStays(headers: seq<string>, inner: seq<string>, i: nat, n: nat, rotated: bool)
    requires |inner| == |headers| && i <= n <= |inner|
    requires AcceptAll(SegmentTexts(headers, inner, i, rotated)).Err?
    ensures AcceptAll(SegmentTexts(headers, inner, n, rotated)) == AcceptAll(SegmentTexts(headers, inner, i, rotated))
  {
    var texts := SegmentTexts(headers, inner, i, rotated);
    var all := SegmentTexts(headers, inner, n, rotated);
    SegmentTextsPrefix(headers, inner, i, n, rotated);
    PrefixRest(texts, all);
    AcceptAllErrPrefix(texts, all[|texts|..]);
  }

  lemma PrefixOfAppend<T>(a: seq<T>, b: seq<T>, c: seq<T>)
    requires a <= b
    ensures a <= b + c
  {
    assert (b + c)[..|b|] == b;
  }

  lemma PrefixRest<T>(a: seq<T>, b: seq<T>)
    requires a <= b
    ensures b == a + b[|a|..]
  {
  }

  /** One more line of the reply read. */
  lemma LineStep(lines: seq<string>, discard: bool, rotated: bool, i: nat, acc: seq<DialogueLine.Line>,
                 more: Result<seq<DialogueLine.Line>>)
    requires i < |lines| && LinesParsed(lines, discard, rotated, i) == Ok(acc)
    requires more == LineResult(lines[i], discard, rotated)
    ensures more.Err? ==> LinesParsed(lines, discard, rotated, i + 1) == Err(more.error)
    ensures more.Ok? ==> LinesParsed(lines, discard, rotated, i + 1) == Ok(acc + more.value)
  {
  }

  /** An error that escapes one line of the reply is what the reply gives. */
  lemma {:induction false} LineErrorStays(lines: seq<string>, discard: bool, rotated: bool, i: nat, n: nat)
    requires i <= n <= |lines|
    requires LinesParsed(lines, discard, rotated, i).Err?
    ensures LinesParsed(lines, discard, rotated, n) == LinesParsed(lines, discard, rotated, i)
    decreases n
  {
    if n > i {
      LineErrorStays(lines, discard, rotated, i, n - 1);
    }
  }

  /** `parse_chatbot_response`: the lines of the reply, each read as
      `ParseSpec` says, with the segments of a line rotated as written. */
  method ParseChatbotResponse(response: string, chatbot: Backend.Chatbot, nextPerformer: Option<Performer>)
    returns (r: Result<seq<DialogueLine.Line>>)
    ensures r == ParseSpec(response, chatbot.name, nextPerformer, true)
  {
    var flags := ParserFlags(chatbot.name);
    var text := response;
    if flags[IgnoreNewline] {
      if text == [] {
        return Err(IndexError);
      }
      if text[0] == '\n' {
        text := text[1..];
      }
    }
    if nextPerformer.Some? {
      text := Upper(nextPerformer.value.characterName) + ": " + text;
    }
    assert Primed(response, chatbot.name, nextPerformer) == Ok(text);
    r := ParseLines(Split(text, '\n'), flags[DiscardNames]);
  }

  /** The loop over the reply's lines. */
  method ParseLines(lines: seq<string>, discard: bool) returns (r: Result<seq<DialogueLine.Line>>)
    ensures r == LinesParsed(lines, discard, true, |lines|)
  {
    var dialogueLines := [];
    for i := 0 to |lines|
      invariant LinesParsed(lines, discard, true, i) == Ok(dialogueLines)
    {
      var more := ParseLine(lines[i], discard);
      LineStep(lines, discard, true, i, dialogueLines, more);
      if more.Err? {
        LineErrorStays(lines, discard, true, i + 1, |lines|);
        return Err(more.error);
      }
      dialogueLines := dialogueLines + more.value;
    }
    r := Ok(dialogueLines);
  }

  /** The body of the loop over the reply's lines. */
  method ParseLine(line: string, discard: bool) returns (r: Result<seq<DialogueLine.Line>>)
    ensures r == LineResult(line, discard, true)
  {
    if ':' !in line {
      return Ok([]);
    }
    var (headers, pieces) := HeaderSplit(line);
    if discard && |headers| > 1 {
      r := ParseSegments(headers, pieces[1..], true);
      return;
    }
    var parsed := DialogueLine.FromStr(line);
    if parsed.Err? {
      if parsed.error == ValueError {
        return Ok([]);
      }
      return Err(parsed.error);
    }
    r := Ok([parsed.value]);
  }

  /** The loop over the segments of a line with several headers: as
      written (`rotated`) segment `i` is prefixed with header `i - 1`, as
      intended with header `i`. */
  method ParseSegments(characterHeaders: seq<string>, innerLines: seq<string>, rotated: bool)
    returns (r: Result<seq<DialogueLine.Line>>)
    requires |innerLines| == |characterHeaders|
    ensures r == AcceptAll(SegmentTexts(characterHeaders, innerLines, |innerLines|, rotated))
  {
    var dialogueLines := [];
    assert AcceptAll(SegmentTexts(characterHeaders, innerLines, 0, rotated)) == Ok(dialogueLines);
    hide DialogueLine.FromStr, Strip, AcceptAll, SegmentTexts;
    for i := 0 to |innerLines|
      invariant AcceptAll(SegmentTexts(characterHeaders, innerLines, i, rotated)) == Ok(dialogueLines)
    {
      if innerLines[i] != "" {
        // as written, Python's index `-1` is the last header
        var header := HeaderFor(|characterHeaders|, i, rotated);
        var innerLine := Strip(characterHeaders[header]) + innerLines[i];
        var parsed := DialogueLine.FromStr(innerLine);
        SegmentStep(characterHeaders, innerLines, i, rotated, dialogueLines);
        if parsed.Ok? {
          dialogueLines := dialogueLines + [parsed.value];
        } else if parsed.error != ValueError {
          SegmentErrorStays(characterHeaders, innerLines, i + 1, |innerLines|, rotated);
          return Err(parsed.error);
        }
      } else {
        SegmentStep(characterHeaders, innerLines, i, rotated, dialogueLines);
      }
    }
    r := Ok(dialogueLines);
  }

  /** The lines a backend has not seen, then the cue of the next performer. */
  method MissingContext(lines: seq<DialogueLine.Line>, nextPerformer: Option<Performer>, fmt: ScriptFormat)
    returns (prompt: string)
    ensures prompt == Script(lines, fmt) + Cue(nextPerformer, fmt)
  {
    var missing := RenderLines(lines, fmt);
    prompt := "" + missing;
    assert prompt == missing;
    if nextPerformer.Some? {
      var name := Upper(nextPerformer.value.characterName);
      prompt := prompt + name;
      prompt := prompt + BreakCharacterName(fmt);
      assert prompt == missing + (name + BreakCharacterName(fmt));
    }
  }

  /** The loops of `prepare_chatbot_prompt` and `prepare_context` that add
      each line and a line break. */
  method RenderLines(lines: seq<DialogueLine.Line>, fmt: ScriptFormat) returns (rendered: string)
    ensures rendered == Script(lines, fmt)
  {
    rendered := "";
    assert lines[..0] == [] && Script([], fmt) == "";
    for i := 0 to |lines|
      invariant rendered == Script(lines[..i], fmt)
    {
      rendered := rendered + DialogueLine.ToStr(lines[i]);
      rendered := rendered + BreakComponent(fmt);
      ScriptPrefixStep(lines, i, fmt);
    }
    assert rendered == Script(lines, fmt) by {
      assert lines[..|lines|] == lines;
    }
  }

  /** Everything but the marks is as it was, and there are as many marks. */
  twostate predicate LegacyOnlyMarksMoved(p: LegacyPerformance)
    reads p
  {
    && p.workingScript == old(p.workingScript) && p.chatbots == old(p.chatbots)
    && |p.chatbotStates| == |old(p.chatbotStates)|
    && p.performers == old(p.performers) && p.performerOrder == old(p.performerOrder)
    && p.botPerformers == old(p.botPerformers) && p.humanPerformers == old(p.humanPerformers)
    && p.characterHistory == old(p.characterHistory) && p.scriptFormat == old(p.scriptFormat)
    && p.performanceChatbotIndex == old(p.performanceChatbotIndex) && p.modelConfig == old(p.modelConfig)
  }

  /** Marks only move forward. */
  twostate predicate LegacyMarksAdvance(p: LegacyPerformance)
    reads p
    requires |p.chatbotStates| == |old(p.chatbotStates)|
  {
    forall j :: 0 <= j < |p.chatbotStates| ==> old(p.chatbotStates[j]) <= p.chatbotStates[j]
  }
}
