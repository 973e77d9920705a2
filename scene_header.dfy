/** Scene headings such as `EXT. A PUBLIC PARK - DAY`. */
module SceneHeader {
  import opened Text
  import opened Errors

  datatype Header = Header(locationPrefix: string, location: string, time: string)

  /** `"{prefix} {location} - {time}"` */
  function ToStr(h: Header): string {
    h.locationPrefix + " " + h.location + " - " + h.time
  }

  /** `t` begins with `INT` or `EXT`, an optional `.`, then one whitespace
      character: the regex `^(INT|EXT)\.?\s` matches. */
  predicate HeadMatches(t: string) {
    && |t| >= 4
    && (t[..3] == "INT" || t[..3] == "EXT")
    && (IsSpace(t[3]) || (t[3] == '.' && |t| >= 5 && IsSpace(t[4])))
  }

  /** End of the regex match at the start of `t`, when there is one. */
  function PrefixMatchEnd(t: string): (r: Option<nat>)
    ensures r.Some? <==> HeadMatches(t)
    ensures r.Some? ==> r.value <= |t| && r.value == (if t[3] == '.' then 5 else 4)
  {
    if |t| >= 4 && (t[..3] == "INT" || t[..3] == "EXT") then
      if t[3] == '.' then
        (if |t| >= 5 && IsSpace(t[4]) then Some(5) else None)
      else if IsSpace(t[3]) then Some(4)
      else None
    else None
  }

  /** The text left once the location prefix (if any) is removed. */
  function Remainder(t: string): string {
    match PrefixMatchEnd(t)
    case Some(n) => t[n..]
    case None => t
  }

  /** `SceneHeader.from_str`: never an error, because `split("-", 1)` never
      yields more than two parts. */
  function FromStr(headerString: string): (r: Result<Header>)
    ensures r.Ok?
  {
    var t := Strip(headerString);
    var prefix := if PrefixMatchEnd(t).Some? then t[..3] else "";
    var dashSplit := SplitOnce(Remainder(t), '-');
    if |dashSplit| == 1 then
      Ok(Header(prefix, Strip(dashSplit[0]), ""))
    else if |dashSplit| == 2 then
      Ok(Header(prefix, Strip(dashSplit[0]), Strip(dashSplit[1])))
    else
      Err(ValueError)
  }

  /** The location is the stripped text before the first dash; the time is the
      stripped text after it (dashes and all), or empty when there is no dash. */
  lemma LocationAndTime(headerString: string)
    ensures var rest := Remainder(Strip(headerString));
            && FromStr(headerString).value.location == Strip(Before(rest, '-'))
            && FromStr(headerString).value.time ==
               (if '-' in rest then Strip(After(rest, '-')) else "")
  {
  }

  /** The prefix is `INT` or `EXT` exactly when the stripped text starts with
      it, an optional dot and a space; the location never holds a dash and both
      location and time come out stripped. */
  lemma FromStrFields(headerString: string)
    ensures var t := Strip(headerString);
            FromStr(headerString).value.locationPrefix == (if HeadMatches(t) then t[..3] else "")
    ensures var h := FromStr(headerString).value;
            '-' !in h.location && Stripped(h.location) && Stripped(h.time)
    ensures '-' !in Remainder(Strip(headerString)) ==> FromStr(headerString).value.time == ""
  {
    var rest := Remainder(Strip(headerString));
    LocationAndTime(headerString);
    StripIsStripped(Before(rest, '-'));
    StripNoNewChar(Before(rest, '-'), '-');
    if '-' in rest {
      StripIsStripped(After(rest, '-'));
    }
  }

  /** A heading whose parts are in canonical form survives rendering and parsing. */
  predicate Canonical(h: Header) {
    && (h.locationPrefix == "INT" || h.locationPrefix == "EXT")
    && Stripped(h.location) && '-' !in h.location
    && Stripped(h.time)
  }

  /** The rendering, stripped: only a trailing space (empty time) goes. */
  lemma StripRendering(h: Header)
    requires Canonical(h)
    ensures Strip(ToStr(h)) == RenderedCore(h)
  {
    var t := RenderedCore(h);
    if h.time == [] {
      assert ToStr(h) == t + " ";
      StripDropsTrailingSpace(t, ' ');
    } else {
      assert ToStr(h) == t;
      assert t[|t| - 1] == h.time[|h.time| - 1];
    }
    assert t[0] == h.locationPrefix[0];
    StripOfStripped(t);
  }

  function RenderedCore(h: Header): string {
    h.locationPrefix + " " + h.location + (if h.time == [] then " -" else " - " + h.time)
  }

  /** Splitting `l + " -" + x` at its first dash, for a dash-free `l`. */
  lemma DashSplit(l: string, x: string)
    requires '-' !in l
    ensures '-' in l + " -" + x
    ensures Before(l + " -" + x, '-') == l + " "
    ensures After(l + " -" + x, '-') == x
  {
    var rest := l + " -" + x;
    assert rest == (l + " ") + ("-" + x);
    FindAppend(l + " ", "-" + x, '-');
    assert Find("-" + x, '-') == 0;
    assert rest[..|l| + 1] == l + " ";
    assert rest[|l| + 2..] == x;
  }

  lemma RoundTrip(h: Header)
    requires Canonical(h)
    ensures FromStr(ToStr(h)) == Ok(h)
  {
    StripRendering(h);
    var t := RenderedCore(h);
    assert t[..3] == h.locationPrefix && t[3] == ' ';
    assert Remainder(t) == t[4..];
    var x := if h.time == [] then "" else " " + h.time;
    assert t[4..] == h.location + " -" + x;
    DashSplit(h.location, x);
    StripPadded(h.location);
    StripPadded(h.time);
  }

  /** The dotted spelling `INT. …` / `EXT. …` parses the same way. */
  lemma DottedRoundTrip(h: Header)
    requires Canonical(h) && h.time != []
    ensures FromStr(h.locationPrefix + ". " + h.location + " - " + h.time) == Ok(h)
  {
    var t := h.locationPrefix + ". " + h.location + " - " + h.time;
    assert t[0] == h.locationPrefix[0] && t[|t| - 1] == h.time[|h.time| - 1];
    StripOfStripped(t);
    assert t[..3] == h.locationPrefix && t[3] == '.' && t[4] == ' ';
    assert PrefixMatchEnd(t) == Some(5);
    var x := " " + h.time;
    var rest := h.location + " -" + x;
    assert t == (h.locationPrefix + ". ") + rest;
    assert t[5..] == rest;
    DashSplit(h.location, x);
    StripPadded(h.location);
    StripPadded(h.time);
    assert Strip(t) == t;
    assert Remainder(t) == rest;
    assert SplitOnce(rest, '-') == [h.location + " ", x];
  }

  /** The heading used by the test scene. */
  lemma PublicParkExample()
    ensures FromStr("EXT. A PUBLIC PARK - DAY") == Ok(Header("EXT", "A PUBLIC PARK", "DAY"))
  {
    var h := Header("EXT", "A PUBLIC PARK", "DAY");
    assert Canonical(h);
    assert "EXT. A PUBLIC PARK - DAY" == h.locationPrefix + ". " + h.location + " - " + h.time;
    DottedRoundTrip(h);
  }
}
