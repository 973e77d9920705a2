/** The first one-line dialogue format, `NAME(parenthetical): dialogue`, with
    its parser and its rendering. */
module DialogueLine {
  import opened Text
  import opened Errors

  datatype Line = Line(characterName: string, dialogue: string, parenthetical: string := "")

  /** `DialogueLine.__str__`: the parenthetical, when there is one, sits in
      brackets right after the name, with no space. */
  function ToStr(l: Line): string {
    l.characterName + Bracketed(l.parenthetical) + ": " + l.dialogue
  }

  /** The parenthetical in brackets, or nothing when it is empty. */
  function Bracketed(p: string): string {
    if p != [] then "(" + p + ")" else ""
  }

  /** The name and parenthetical found before the colon: cut at the first `(`
      when there is one, else at the first `[`; otherwise the whole text and no
      parenthetical. */
  function NameAndParen(head: string): (r: (string, string))
    ensures r.1 != [] ==> '(' in head || '[' in head
    ensures '(' !in head && '[' !in head ==> r == (head, "")
  {
    if '(' in head then
      (Strip(Before(head, '(')), Strip(Before(Field1(head, '('), ')')))
    else if '[' in head then
      (Strip(Before(head, '[')), Strip(Before(Field1(head, '['), ']')))
    else
      (head, "")
  }

  /** The text and parenthetical once a bracket in the dialogue is seen: the
      bracketed text replaces any parenthetical found in the name and the
      dialogue is cut at the bracket. */
  function Truncated(dialogue: string, paren: string): (r: (string, string))
    ensures '(' !in dialogue && '[' !in dialogue ==> r == (dialogue, paren)
    ensures '(' in dialogue ==> r.0 == Strip(Before(dialogue, '('))
    ensures '(' !in dialogue && '[' in dialogue ==> r.0 == Strip(Before(dialogue, '['))
  {
    if '(' in dialogue then
      (Strip(Before(dialogue, '(')), Strip(Before(Field1(dialogue, '('), ')')))
    else if '[' in dialogue then
      (Strip(Before(dialogue, '[')), Strip(Before(Field1(dialogue, '['), ']')))
    else
      (dialogue, paren)
  }

  /** The text between a leading and a trailing `"`, kept as it is otherwise;
      `IndexError` on the empty text, whose first character does not exist. */
  function Unquoted(d: string): (r: Result<string>)
    ensures r.Err? <==> d == []
    ensures r.Err? ==> r.error == IndexError
    ensures r.Ok? && !(d[0] == '"' && d[|d| - 1] == '"') ==> r.value == d
    ensures r.Ok? && d[0] == '"' && d[|d| - 1] == '"' ==>
              |r.value| == (if |d| >= 2 then |d| - 2 else 0) &&
              forall i :: 0 <= i < |r.value| ==> r.value[i] == d[i + 1]
  {
    if d == [] then Err(IndexError)
    else if d[0] == '"' && d[|d| - 1] == '"' then
      // `d[1:-1]`, which Python makes empty for a one-character `d`
      Ok(if |d| >= 2 then d[1..|d| - 1] else "")
    else Ok(d)
  }

  /** `DialogueLine.from_str`: `ValueError` without a colon. */
  function FromStr(s: string): (r: Result<Line>)
    ensures ':' !in s ==> r == Err(ValueError)
  {
    if ':' !in s then Err(ValueError)
    else Assemble(Before(s, ':'), Strip(After(s, ':')))
  }

  /** The line built from the text before the first colon and the stripped text
      after it: `ValueError` when there is no dialogue, and the name upper-cased
      and stripped. */
  function Assemble(head: string, dialogue: string): (r: Result<Line>)
    ensures dialogue == [] <==> r == Err(ValueError)
    ensures r.Ok? ==> r.value.characterName == Strip(Upper(NameAndParen(head).0))
  {
    if dialogue == [] then Err(ValueError)
    else
      var (name, paren) := NameAndParen(head);
      var (cut, paren') := Truncated(dialogue, paren);
      match Unquoted(cut)
      case Err(e) => Err(e)
      case Ok(d) => Ok(Line(Strip(Upper(name)), d, paren'))
  }

  /** The two errors: `ValueError` without a colon or without dialogue after
      it, `IndexError` when cutting at a bracket leaves no dialogue. */
  lemma FromStrErrors(s: string)
    ensures FromStr(s) == Err(ValueError) <==> ':' !in s || Strip(After(s, ':')) == []
    ensures FromStr(s) == Err(IndexError) <==>
              ':' in s && Strip(After(s, ':')) != [] &&
              Truncated(Strip(After(s, ':')), NameAndParen(Before(s, ':')).1).0 == []
    ensures FromStr(s).Ok? ==> ':' !in FromStr(s).value.characterName
  {
    if ':' in s {
      var head := Before(s, ':');
      if FromStr(s).Ok? {
        NameKeepsNoColon(head);
      }
    }
  }

  lemma NameKeepsNoColon(head: string)
    requires ':' !in head
    ensures ':' !in Strip(Upper(NameAndParen(head).0))
  {
    if '(' in head {
      StripNoNewChar(Before(head, '('), ':');
    } else if '[' in head {
      StripNoNewChar(Before(head, '['), ':');
    }
    StripNoNewChar(Upper(NameAndParen(head).0), ':');
  }

  /** Only the first colon splits: the name comes from the text before it and
      every later colon stays in the dialogue. */
  lemma FirstColonSplits(name: string, rest: string)
    requires ':' !in name && '(' !in name && '[' !in name
    requires Stripped(rest) && rest != [] && '(' !in rest && '[' !in rest
    requires !(rest[0] == '"' && rest[|rest| - 1] == '"')
    ensures FromStr(name + ":" + rest) == Ok(Line(Strip(Upper(name)), rest))
  {
    assert FromStr(name + ":" + rest) == Assemble(name, rest) by {
      SplitAtFirst(name, ':', rest);
      StripOfStripped(rest);
    }
    assert NameAndParen(name) == (name, "");
    assert Truncated(rest, "") == (rest, "");
    assert Unquoted(rest) == Ok(rest);
  }

  /** A bracket in the dialogue overrides the name's parenthetical and cuts the
      dialogue before it. */
  lemma DialogueParenOverrides(head: string, dialogue: string)
    requires '(' in dialogue && Assemble(head, dialogue).Ok?
    ensures Assemble(head, dialogue).value.parenthetical == Strip(Before(Field1(dialogue, '('), ')'))
    ensures '(' !in Assemble(head, dialogue).value.dialogue
  {
    StripNoNewChar(Before(dialogue, '('), '(');
  }

  /** `"A: (x)"`: the bracket leaves no dialogue, and reading its first
      character fails. */
  lemma EmptyAfterBracketExample()
    ensures FromStr("A: (x)") == Err(IndexError)
  {
    assert FromStr("A: (x)") == Assemble("A", "(x)") by {
      SplitAtFirst("A", ':', " (x)");
      assert "A: (x)" == "A" + [':'] + " (x)";
      StripPadded("(x)");
    }
    assert Truncated("(x)", "").0 == "" by {
      assert Find("(x)", '(') == 0;
    }
  }

  /** The parts a line must have for its rendering to be read back as it is. */
  predicate Canonical(l: Line) {
    && Stripped(l.characterName) && l.characterName != []
    && (forall i :: 0 <= i < |l.characterName| ==> !IsLowerChar(l.characterName[i]))
    && ':' !in l.characterName && '(' !in l.characterName && '[' !in l.characterName
    && Stripped(l.parenthetical)
    && '(' !in l.parenthetical && ')' !in l.parenthetical && ':' !in l.parenthetical
    && Stripped(l.dialogue) && l.dialogue != []
    && '(' !in l.dialogue && '[' !in l.dialogue
    && !(l.dialogue[0] == '"' && l.dialogue[|l.dialogue| - 1] == '"')
  }

  /** Rendering a canonical line and parsing the text gives the line back. */
  lemma RoundTrip(l: Line)
    requires Canonical(l)
    ensures FromStr(ToStr(l)) == Ok(l)
  {
    RenderedSplits(l);
    AssembleCanonical(l);
  }

  /** The text of a rendered canonical line splits at the colon after the
      head, and its dialogue comes back stripped. */
  lemma RenderedSplits(l: Line)
    requires Canonical(l)
    ensures FromStr(ToStr(l)) == Assemble(l.characterName + Bracketed(l.parenthetical), l.dialogue)
  {
    var head := l.characterName + Bracketed(l.parenthetical);
    assert ToStr(l) == head + ":" + (" " + l.dialogue);
    assert ':' !in head;
    SplitAtFirst(head, ':', " " + l.dialogue);
    StripPadded(l.dialogue);
  }

  /** The head and dialogue of a canonical line assemble to the line. */
  lemma AssembleCanonical(l: Line)
    requires Canonical(l)
    ensures Assemble(l.characterName + Bracketed(l.parenthetical), l.dialogue) == Ok(l)
  {
    var name := l.characterName;
    var p := l.parenthetical;
    assert NameAndParen(name + Bracketed(p)) == (name, p) by {
      NameParenSplit(name, p);
    }
    assert Strip(Upper(name)) == name by {
      assert Upper(name) == name;
      StripOfStripped(name);
    }
    assert Truncated(l.dialogue, p) == (l.dialogue, p);
    assert Unquoted(l.dialogue) == Ok(l.dialogue);
  }

  /** The name and parenthetical of a rendered head. */
  lemma NameParenSplit(name: string, p: string)
    requires '(' !in name && '[' !in name && Stripped(name)
    requires '(' !in p && ')' !in p && Stripped(p)
    ensures NameAndParen(name + Bracketed(p)) == (name, p)
  {
    if p == [] {
      assert name + Bracketed(p) == name;
    } else {
      assert name + Bracketed(p) == name + "(" + p + ")";
      BracketedName(name, p);
    }
  }

  lemma BracketedName(name: string, p: string)
    requires '(' !in name && Stripped(name)
    requires '(' !in p && ')' !in p && Stripped(p)
    ensures NameAndParen(name + "(" + p + ")") == (name, p)
  {
    var head := name + "(" + p + ")";
    assert head == name + ['('] + p + [')'];
    BracketSplit(name, '(', p, ')');
    StripOfStripped(name);
    StripOfStripped(p);
  }
}
