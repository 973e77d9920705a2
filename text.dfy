/** Python's `str` primitives used by the parsers, restricted to ASCII:
    `strip`, `upper`, `isupper`, `in`, `split(sep)`, `split(sep, 1)`,
    `replace` and `str(int)`.  Characters outside ASCII are never spaces,
    never cased and are left alone by `Upper`. */
module Text {

  /** `str.isspace` / regex `\s` on ASCII: space, \t \n \v \f \r and the four
      separators \x1c-\x1f. */
  predicate IsSpace(c: char) {
    c == ' ' || ('\t' <= c <= '\r') || (28 as char <= c <= 31 as char)
  }

  predicate IsLowerChar(c: char) { 'a' <= c <= 'z' }

  predicate IsUpperChar(c: char) { 'A' <= c <= 'Z' }

  predicate IsLetter(c: char) { IsLowerChar(c) || IsUpperChar(c) }

  function UpperChar(c: char): (r: char)
    ensures !IsLowerChar(r)
    ensures IsLetter(c) <==> IsLetter(r)
    ensures !IsLowerChar(c) ==> r == c
  {
    if IsLowerChar(c) then (c as int - 32) as char else c
  }

  /** `s.upper()` */
  function Upper(s: string): (r: string)
    ensures |r| == |s|
    ensures forall i :: 0 <= i < |s| ==> r[i] == UpperChar(s[i])
  {
    seq(|s|, i requires 0 <= i < |s| => UpperChar(s[i]))
  }

  function LowerChar(c: char): (r: char)
    ensures !IsUpperChar(r)
    ensures IsLetter(c) <==> IsLetter(r)
    ensures !IsUpperChar(c) ==> r == c
  {
    if IsUpperChar(c) then (c as int + 32) as char else c
  }

  /** `s.lower()` */
  function Lower(s: string): (r: string)
    ensures |r| == |s|
    ensures forall i :: 0 <= i < |s| ==> r[i] == LowerChar(s[i])
  {
    seq(|s|, i requires 0 <= i < |s| => LowerChar(s[i]))
  }

  /** `s.isupper()`: at least one cased character and no lower-case one. */
  predicate IsUpper(s: string) {
    && (exists i :: 0 <= i < |s| && IsUpperChar(s[i]))
    && (forall i :: 0 <= i < |s| ==> !IsLowerChar(s[i]))
  }

  /** `re.search(r"[a-zA-Z]", s)` finds a match. */
  predicate HasLetter(s: string) {
    exists i :: 0 <= i < |s| && IsLetter(s[i])
  }

  lemma UpperIdempotent(s: string)
    ensures Upper(Upper(s)) == Upper(s)
  {
  }

  lemma UpperKeepsSpaces(s: string)
    ensures forall i :: 0 <= i < |s| ==> (IsSpace(Upper(s)[i]) <==> IsSpace(s[i]))
  {
  }

  // ---------------------------------------------------------------- strip

  function LStrip(s: string): (r: string)
    ensures |r| <= |s|
  {
    if s != [] && IsSpace(s[0]) then LStrip(s[1..]) else s
  }

  /** `s.lstrip()` drops exactly the leading spaces. */
  lemma LStripFacts(s: string)
    ensures var r := LStrip(s);
            && r == s[|s| - |r|..]
            && (r == [] || !IsSpace(r[0]))
            && (forall i :: 0 <= i < |s| - |r| ==> IsSpace(s[i]))
    decreases |s|
  {
    if s != [] && IsSpace(s[0]) {
      LStripFacts(s[1..]);
    }
  }

  function RStrip(s: string): (r: string)
    ensures |r| <= |s|
  {
    if s != [] && IsSpace(s[|s| - 1]) then RStrip(s[..|s| - 1]) else s
  }

  /** `s.rstrip()` drops exactly the trailing spaces. */
  lemma RStripFacts(s: string)
    ensures var r := RStrip(s);
            && r == s[..|r|]
            && (r == [] || !IsSpace(r[|r| - 1]))
            && (forall i :: |r| <= i < |s| ==> IsSpace(s[i]))
    decreases |s|
  {
    if s != [] && IsSpace(s[|s| - 1]) {
      RStripFacts(s[..|s| - 1]);
    }
  }

  /** `s.strip()` */
  function Strip(s: string): string {
    LStrip(RStrip(s))
  }

  /** Neither end of `s` is a space: `s.strip() == s`. */
  predicate Stripped(s: string) {
    s == [] || (!IsSpace(s[0]) && !IsSpace(s[|s| - 1]))
  }

  lemma StripIsStripped(s: string)
    ensures Stripped(Strip(s))
    ensures |Strip(s)| <= |s|
  {
    var r := RStrip(s);
    var l := LStrip(r);
    RStripFacts(s);
    LStripFacts(r);
    if l != [] {
      assert l == r[|r| - |l|..];
      assert l[|l| - 1] == r[|r| - 1];
    }
  }

  /** Stripping only removes characters. */
  lemma StripKeepsChars(s: string)
    ensures forall c :: c in Strip(s) ==> c in s
  {
    var r := RStrip(s);
    RStripFacts(s);
    assert forall i :: 0 <= i < |r| ==> r[i] == s[i];
    var l := LStrip(r);
    LStripFacts(r);
    assert forall i :: 0 <= i < |l| ==> l[i] == r[|r| - |l| + i];
  }

  /** Stripping an upper-case text leaves it without lower-case letters. */
  lemma StripNoLower(s: string)
    requires forall i :: 0 <= i < |s| ==> !IsLowerChar(s[i])
    ensures forall i :: 0 <= i < |Strip(s)| ==> !IsLowerChar(Strip(s)[i])
  {
    var r := RStrip(s);
    RStripFacts(s);
    assert forall i :: 0 <= i < |r| ==> r[i] == s[i];
    var l := LStrip(r);
    LStripFacts(r);
    assert forall i :: 0 <= i < |l| ==> l[i] == r[|r| - |l| + i];
  }

  lemma StripNoNewChar(s: string, c: char)
    requires c !in s
    ensures c !in Strip(s)
  {
    StripKeepsChars(s);
  }

  lemma StripOfStripped(s: string)
    requires Stripped(s)
    ensures Strip(s) == s
  {
  }

  /** Trailing spaces do not change the stripped text. */
  lemma StripDropsTrailingSpace(s: string, c: char)
    requires IsSpace(c)
    ensures Strip(s + [c]) == Strip(s)
  {
    assert (s + [c])[..|s + [c]| - 1] == s;
  }

  /** Leading spaces do not change the stripped text. */
  lemma StripDropsLeadingSpace(c: char, s: string)
    requires IsSpace(c)
    ensures Strip([c] + s) == Strip(s)
    decreases |s|
  {
    if s != [] && IsSpace(s[|s| - 1]) {
      assert ([c] + s)[..|[c] + s| - 1] == [c] + s[..|s| - 1];
      StripDropsLeadingSpace(c, s[..|s| - 1]);
    } else if s == [] {
      assert RStrip([c]) == RStrip([]);
    } else {
      assert RStrip([c] + s) == [c] + s;
      assert ([c] + s)[1..] == s;
    }
  }

  lemma StripPadded(s: string)
    requires Stripped(s)
    ensures Strip(" " + s) == s && Strip(s + " ") == s
  {
    StripDropsLeadingSpace(' ', s);
    StripDropsTrailingSpace(s, ' ');
  }

  // ----------------------------------------------------- search and split

  /** Index of the first `c` in `s`, or `|s|` when there is none. */
  function Find(s: string, c: char): (k: nat)
    ensures k <= |s|
    ensures k < |s| ==> s[k] == c
    ensures forall i :: 0 <= i < k ==> s[i] != c
  {
    if s == [] then 0
    else if s[0] == c then 0
    else 1 + Find(s[1..], c)
  }

  /** `c` occurs in `s` exactly when the search stops inside it. */
  lemma FindIn(s: string, c: char)
    ensures Find(s, c) < |s| <==> c in s
  {
    var k := Find(s, c);
    if c in s {
      var j :| 0 <= j < |s| && s[j] == c;
      assert k <= j;
    }
  }

  lemma FindAppend(a: string, b: string, c: char)
    requires c !in a
    ensures Find(a + b, c) == |a| + Find(b, c)
  {
    if a == [] {
      assert a + b == b;
    } else {
      assert (a + b)[0] == a[0] && (a + b)[1..] == a[1..] + b;
      FindAppend(a[1..], b, c);
    }
  }

  /** Splitting `a + [c] + b` at its first `c`, for an `a` without `c`. */
  lemma SplitAtFirst(a: string, c: char, b: string)
    requires c !in a
    ensures c in a + [c] + b
    ensures Before(a + [c] + b, c) == a && After(a + [c] + b, c) == b
  {
    var text := a + [c] + b;
    assert text == a + ([c] + b);
    FindAppend(a, [c] + b, c);
    assert text[..|a|] == a;
    assert text[|a| + 1..] == b;
  }

  /** A first part without a line break splits off in front. */
  lemma SplitCons(d: string, rest: string, text: string, parts: seq<string>)
    requires '\n' !in d && text == d + ['\n'] + rest && Split(rest, '\n') == parts
    ensures Split(text, '\n') == [d] + parts
  {
    SplitAtFirst(d, '\n', rest);
  }

  /** Reading a bracketed part `a + [o] + p + [cl]`: the text before the
      opening bracket, the field after it, and the text before the closing one. */
  lemma BracketSplit(a: string, o: char, p: string, cl: char)
    requires o !in a && o !in p && cl !in p && o != cl
    ensures var s := a + [o] + p + [cl];
            && o in s && cl in s
            && Before(s, o) == a && After(s, o) == p + [cl]
            && Field1(s, o) == p + [cl] && Before(p + [cl], cl) == p
  {
    var s := a + [o] + p + [cl];
    assert s == a + [o] + (p + [cl]);
    SplitAtFirst(a, o, p + [cl]);
    assert o !in p + [cl];
    BeforeAbsent(p + [cl], o);
    SplitAtFirst(p, cl, []);
    assert p + [cl] + [] == p + [cl];
    assert s[|s| - 1] == cl;
  }

  /** `s.split(c)[0]` and `s.split(c, 1)[0]`: the text before the first `c`. */
  function Before(s: string, c: char): (r: string)
    ensures c !in r && |r| <= |s|
  {
    var k := Find(s, c);
    assert forall i :: 0 <= i < k ==> s[..k][i] != c;
    s[..k]
  }

  /** `s.split(c, 1)[1]`: the text after the first `c`. */
  function After(s: string, c: char): (r: string)
    requires c in s
    ensures |r| < |s|
    ensures s == Before(s, c) + [c] + r
  {
    FindIn(s, c);
    s[Find(s, c) + 1..]
  }

  /** `s.split(c)[1]`: the text between the first and the second `c`. */
  function Field1(s: string, c: char): (r: string)
    requires c in s
    ensures c !in r
  {
    Before(After(s, c), c)
  }

  lemma BeforeAbsent(s: string, c: char)
    requires c !in s
    ensures Before(s, c) == s
  {
  }

  /** `s.split(c, 1)`: one part when `c` is absent, otherwise two. */
  function SplitOnce(s: string, c: char): (parts: seq<string>)
    ensures 1 <= |parts| <= 2
    ensures |parts| == 2 <==> c in s
    ensures parts[0] == Before(s, c)
    ensures |parts| == 2 ==> parts[1] == After(s, c)
    ensures c !in s ==> parts == [s]
  {
    if c in s then [Before(s, c), After(s, c)] else [s]
  }

  /** `s.split(c)`: every field between occurrences of `c`. */
  function Split(s: string, c: char): (parts: seq<string>)
    ensures |parts| >= 1
    decreases |s|
  {
    if c in s then [Before(s, c)] + Split(After(s, c), c) else [s]
  }

  function Join(parts: seq<string>, sep: string): string {
    if parts == [] then ""
    else if |parts| == 1 then parts[0]
    else parts[0] + sep + Join(parts[1..], sep)
  }

  /** Splitting and joining again gives back the text; no field holds the separator. */
  lemma {:induction false} SplitJoin(s: string, c: char)
    ensures Join(Split(s, c), [c]) == s
    ensures forall i :: 0 <= i < |Split(s, c)| ==> c !in Split(s, c)[i]
    decreases |s|
  {
    if c in s {
      SplitJoin(After(s, c), c);
    }
  }

  // ------------------------------------------------------------- replace

  /** `s.replace(pat, rep)` for a non-empty `pat`: every non-overlapping
      occurrence, scanning from the left, is replaced. */
  function ReplaceAll(s: string, pat: string, rep: string): string
    requires pat != []
    decreases |s|
  {
    if |s| < |pat| then s
    else if s[..|pat|] == pat then rep + ReplaceAll(s[|pat|..], pat, rep)
    else [s[0]] + ReplaceAll(s[1..], pat, rep)
  }

  predicate MatchAt(s: string, pat: string, i: nat) {
    i + |pat| <= |s| && s[i..i + |pat|] == pat
  }

  ghost predicate Occurs(s: string, pat: string) {
    exists i: nat :: MatchAt(s, pat, i)
  }

  /** A template without the placeholder comes back unchanged. */
  lemma {:induction false} ReplaceAbsent(s: string, pat: string, rep: string)
    requires pat != [] && !Occurs(s, pat)
    ensures ReplaceAll(s, pat, rep) == s
    decreases |s|
  {
    if |s| >= |pat| {
      assert !MatchAt(s, pat, 0);
      if Occurs(s[1..], pat) {
        var i: nat :| MatchAt(s[1..], pat, i);
        assert s[1..][i..i + |pat|] == s[i + 1..i + 1 + |pat|];
        assert MatchAt(s, pat, i + 1);
      }
      ReplaceAbsent(s[1..], pat, rep);
    }
  }

  // -------------------------------------------------------------- digits

  /** `str(n)` for a non-negative integer. */
  function NatToString(n: nat): (r: string)
    ensures |r| >= 1
    ensures forall i :: 0 <= i < |r| ==> '0' <= r[i] <= '9'
    decreases n
  {
    if n < 10 then [('0' as int + n) as char]
    else NatToString(n / 10) + [('0' as int + n % 10) as char]
  }

  /** `str(i)` for any integer: a minus sign before the digits of a negative one. */
  function IntToString(i: int): (r: string)
    ensures |r| >= 1
    ensures r[0] == '-' <==> i < 0
    ensures i >= 0 ==> r == NatToString(i)
  {
    if i < 0 then "-" + NatToString(-i) else NatToString(i)
  }
}
