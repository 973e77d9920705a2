/** A character's line: a name and the spoken text, which may carry
    parentheticals such as `(whispering)`. */
module Dialogue {
  import opened Text

  /** The text defaults to empty, so a line may carry no speech at all. */
  datatype Dialogue = Dialogue(characterName: string, dialogue: string := "")

  /** `Dialogue.to_str(multi_line)`.  The one-line form joins the one-character
      string `"\n"` with the dialogue as separator, which always yields `"\n"`. */
  function ToStr(d: Dialogue, multiLine: bool := true): (r: string)
    ensures multiLine ==> r == d.characterName + "\n" + d.dialogue
  {
    if multiLine then d.characterName + "\n" + d.dialogue
    else d.characterName + ": " + Join(["\n"], d.dialogue)
  }

  /** The one-line rendering drops the spoken text whatever it is. */
  lemma SingleLineIgnoresDialogue(d: Dialogue)
    ensures ToStr(d, false) == d.characterName + ": \n"
    ensures forall other: string :: ToStr(Dialogue(d.characterName, other), false) == ToStr(d, false)
  {
  }

  /** The multi-line rendering keeps the name and the text on either side of
      the first line break, when the name has none. */
  lemma MultiLineSplits(d: Dialogue)
    requires '\n' !in d.characterName
    ensures Before(ToStr(d), '\n') == d.characterName
    ensures After(ToStr(d), '\n') == d.dialogue
  {
    var r := ToStr(d);
    assert r == d.characterName + ("\n" + d.dialogue);
    FindAppend(d.characterName, "\n" + d.dialogue, '\n');
    assert r[..|d.characterName|] == d.characterName;
    assert r[|d.characterName| + 1..] == d.dialogue;
  }

  // ------------------------------------------------ parentheticals and speech

  /** The `"type"` of a piece: `"paren"` or `"dialogue"`. */
  datatype Kind = Paren | Speech

  datatype Piece = Piece(kind: Kind, text: string)

  /** What `split_parens_and_dialogue` returns for remaining text `d`. On a `(`
      without a closing `)` the text after the `(` is added and the loop stops;
      the text still held, `d` itself, is then added once more. */
  function SplitParens(d: string): seq<Piece>
    decreases |d|
  {
    if '(' !in d then
      (if d != [] then [Piece(Speech, d)] else [])
    else
      var pre := Before(d, '(');
      var post := After(d, '(');
      var head := if pre != [] then [Piece(Speech, pre)] else [];
      if ')' !in post then
        head + [Piece(Speech, post), Piece(Speech, d)]
      else
        head + [Piece(Paren, Before(post, ')'))] + SplitParens(After(post, ')'))
  }

  /** `Dialogue.split_parens_and_dialogue` */
  method SplitParensAndDialogue(line: Dialogue) returns (subcomponents: seq<Piece>)
    ensures subcomponents == SplitParens(line.dialogue)
  {
    subcomponents := [];
    var dialogue := line.dialogue;
    while '(' in dialogue
      invariant subcomponents + SplitParens(dialogue) == SplitParens(line.dialogue)
      decreases |dialogue|
    {
      ghost var before := dialogue;
      ghost var acc := subcomponents;
      var split := SplitOnce(dialogue, '(');
      if split[0] != [] {
        subcomponents := subcomponents + [Piece(Speech, split[0])];
      }
      assert subcomponents == acc + Lead(split[0]);
      if ')' !in split[1] {
        subcomponents := subcomponents + [Piece(Speech, split[1])];
        ScanOpen(acc, before);
        break;
      }
      split := SplitOnce(split[1], ')');
      subcomponents := subcomponents + [Piece(Paren, split[0])];
      dialogue := split[1];
      ScanClosed(acc, before);
    }
    if dialogue != [] {
      subcomponents := subcomponents + [Piece(Speech, dialogue)];
    }
  }

  /** A turn of the scan that meets a `(` with no `)` after it. */
  lemma ScanOpen(acc: seq<Piece>, d: string)
    requires '(' in d && ')' !in After(d, '(')
    ensures acc + SplitParens(d) ==
            acc + Lead(Before(d, '(')) + [Piece(Speech, After(d, '('))] + [Piece(Speech, d)]
  {
    var lead := Lead(Before(d, '('));
    assert SplitParens(d) == lead + [Piece(Speech, After(d, '(')), Piece(Speech, d)];
    PairRegroup(acc, lead, Piece(Speech, After(d, '(')), Piece(Speech, d));
  }

  lemma PairRegroup(acc: seq<Piece>, lead: seq<Piece>, p: Piece, q: Piece)
    ensures acc + (lead + [p, q]) == acc + lead + [p] + [q]
  {
    assert lead + [p, q] == lead + [p] + [q];
  }

  /** A turn of the scan that meets a closed parenthetical. */
  lemma ScanClosed(acc: seq<Piece>, d: string)
    requires '(' in d && ')' in After(d, '(')
    ensures var post := After(d, '(');
            acc + SplitParens(d) ==
            acc + Lead(Before(d, '(')) + [Piece(Paren, Before(post, ')'))] + SplitParens(After(post, ')'))
  {
    var post := After(d, '(');
    var lead := Lead(Before(d, '('));
    var rest := SplitParens(After(post, ')'));
    assert SplitParens(d) == lead + [Piece(Paren, Before(post, ')'))] + rest;
    PiecesRegroup(acc, lead, Piece(Paren, Before(post, ')')), rest);
  }

  lemma PiecesRegroup(acc: seq<Piece>, lead: seq<Piece>, p: Piece, rest: seq<Piece>)
    ensures acc + (lead + [p] + rest) == acc + lead + [p] + rest
  {
  }

  /** Every `(` in the text has a matching `)` after it, so the scan never
      stops early. */
  predicate Closed(d: string)
    decreases |d|
  {
    '(' in d ==>
      && ')' in After(d, '(')
      && Closed(After(After(d, '('), ')'))
  }

  /** The text a piece stands for: speech as it is, a parenthetical in its
      brackets. */
  function PieceText(p: Piece): string {
    match p.kind
    case Speech => p.text
    case Paren => "(" + p.text + ")"
  }

  function Render(pieces: seq<Piece>): string {
    if pieces == [] then "" else PieceText(pieces[0]) + Render(pieces[1..])
  }

  lemma {:induction false} RenderAppend(a: seq<Piece>, b: seq<Piece>)
    ensures Render(a + b) == Render(a) + Render(b)
  {
    if a != [] {
      assert (a + b)[1..] == a[1..] + b;
      RenderAppend(a[1..], b);
    } else {
      assert a + b == b;
    }
  }

  /** Text without `(` is one speech piece, or nothing when it is empty. */
  lemma NoParen(d: string)
    requires '(' !in d
    ensures SplitParens(d) == (if d == [] then [] else [Piece(Speech, d)])
  {
  }

  /** The speech piece for the text before a `(`, if there is any. */
  function Lead(pre: string): seq<Piece> {
    if pre != [] then [Piece(Speech, pre)] else []
  }

  /** One turn of the scan over text whose first `(` is closed. */
  lemma ClosedStep(d: string) returns (pre: string, inner: string, rest: string)
    requires '(' in d && ')' in After(d, '(')
    ensures '(' !in pre && ')' !in inner && |rest| < |d|
    ensures rest == After(After(d, '('), ')')
    ensures d == pre + "(" + inner + ")" + rest
    ensures SplitParens(d) == Lead(pre) + [Piece(Paren, inner)] + SplitParens(rest)
  {
    pre := Before(d, '(');
    var post := After(d, '(');
    inner := Before(post, ')');
    rest := After(post, ')');
    assert d == pre + "(" + post;
    assert post == inner + ")" + rest;
    StrRegroup(pre + "(", inner, ")", rest);
  }

  /** One turn of the scan over text whose first `(` is never closed. */
  lemma OpenStep(d: string)
    requires '(' in d && ')' !in After(d, '(')
    ensures SplitParens(d) ==
      Lead(Before(d, '(')) + [Piece(Speech, After(d, '(')), Piece(Speech, d)]
  {
  }

  lemma StrRegroup(a: string, b: string, c: string, e: string)
    ensures a + (b + c + e) == a + b + c + e
  {
  }

  lemma StrRegroup5(a: string, b: string, c: string, e: string, f: string)
    ensures a + (b + c + e + f) == a + b + c + e + f
  {
  }

  lemma PieceRegroup(a: seq<Piece>, p: Piece, b: seq<Piece>)
    ensures a + [p] + b == a + ([p] + b)
  {
  }

  /** When every `(` is closed, the pieces put back together give the text. */
  lemma {:induction false} Reconstruct(d: string)
    requires Closed(d)
    ensures Render(SplitParens(d)) == d
    decreases |d|
  {
    if '(' in d {
      var pre, inner, rest := ClosedStep(d);
      Reconstruct(rest);
      RenderStep(pre, inner, SplitParens(rest), rest);
    }
  }

  /** Rendering a speech lead, one parenthetical and the pieces of `rest`. */
  lemma RenderStep(pre: string, inner: string, tail: seq<Piece>, rest: string)
    requires Render(tail) == rest
    ensures Render(Lead(pre) + [Piece(Paren, inner)] + tail) == pre + "(" + inner + ")" + rest
  {
    var p := Piece(Paren, inner);
    assert ([p] + tail)[1..] == tail;
    assert Render([p] + tail) == "(" + inner + ")" + rest;
    PieceRegroup(Lead(pre), p, tail);
    RenderAppend(Lead(pre), [p] + tail);
    StrRegroup5(pre, "(", inner, ")", rest);
  }

  /** Parenthetical texts never contain `)`. */
  lemma {:induction false} ParenTextsUnclosed(d: string)
    ensures forall p :: p in SplitParens(d) && p.kind == Paren ==> ')' !in p.text
    decreases |d|
  {
    if '(' in d && ')' in After(d, '(') {
      var pre, inner, rest := ClosedStep(d);
      ParenTextsUnclosed(rest);
      ParenFreeJoin(pre, inner, SplitParens(rest));
    } else if '(' in d {
      OpenStep(d);
    }
  }

  lemma ParenFreeJoin(pre: string, inner: string, tail: seq<Piece>)
    requires ')' !in inner
    requires forall p :: p in tail && p.kind == Paren ==> ')' !in p.text
    ensures forall p :: p in Lead(pre) + [Piece(Paren, inner)] + tail && p.kind == Paren ==>
              ')' !in p.text
  {
  }

  /** No speech piece in `pieces` is empty. */
  predicate SpeechFilled(pieces: seq<Piece>) {
    forall p :: p in pieces && p.kind == Speech ==> p.text != []
  }

  lemma FilledAppend(a: seq<Piece>, b: seq<Piece>)
    requires SpeechFilled(a) && SpeechFilled(b)
    ensures SpeechFilled(a + b)
  {
  }

  /** With every `(` closed, no speech piece is empty. */
  lemma {:induction false} ClosedSpeechFilled(d: string)
    requires Closed(d)
    ensures SpeechFilled(SplitParens(d))
    decreases |d|
  {
    if '(' in d {
      var pre, inner, rest := ClosedStep(d);
      ClosedSpeechFilled(rest);
      LeadParenFilled(pre, inner);
      FilledAppend(Lead(pre) + [Piece(Paren, inner)], SplitParens(rest));
    }
  }

  /** The last piece is non-empty speech and every speech piece before the
      second-to-last is non-empty. */
  predicate OpenShape(r: seq<Piece>) {
    |r| >= 2 && r[|r| - 1].kind == Speech && r[|r| - 1].text != [] &&
    SpeechFilled(r[..|r| - 2])
  }

  /** After an unclosed `(`, only the second-to-last piece, the text after that
      `(`, may be empty speech; the last is the held text, which is not. */
  lemma {:induction false} OpenSpeechFilled(d: string)
    requires !Closed(d)
    ensures OpenShape(SplitParens(d))
    decreases |d|
  {
    if ')' in After(d, '(') {
      var pre, inner, rest := ClosedStep(d);
      assert !Closed(rest);
      OpenSpeechFilled(rest);
      var q := Lead(pre) + [Piece(Paren, inner)];
      LeadParenFilled(pre, inner);
      OpenLift(q, SplitParens(rest));
    } else {
      OpenFirst(d);
    }
  }

  lemma LeadParenFilled(pre: string, inner: string)
    ensures SpeechFilled(Lead(pre) + [Piece(Paren, inner)])
  {
  }

  lemma OpenFirst(d: string)
    requires '(' in d && ')' !in After(d, '(')
    ensures OpenShape(SplitParens(d))
  {
    OpenStep(d);
    var r := SplitParens(d);
    assert r[..|r| - 2] == Lead(Before(d, '('));
  }

  lemma OpenLift(q: seq<Piece>, t: seq<Piece>)
    requires SpeechFilled(q) && OpenShape(t)
    ensures OpenShape(q + t)
  {
    var r := q + t;
    assert r[..|r| - 2] == q + t[..|t| - 2];
    FilledAppend(q, t[..|t| - 2]);
  }

  /** An unclosed `(` makes the whole text appear again after its pieces. */
  lemma UnclosedParenRepeats(a: string, b: string)
    requires '(' !in a && ')' !in b
    ensures SplitParens(a + "(" + b) ==
      Lead(a) + [Piece(Speech, b), Piece(Speech, a + "(" + b)]
  {
    var d := a + "(" + b;
    assert d == a + ("(" + b);
    FindAppend(a, "(" + b, '(');
    assert Before(d, '(') == a;
    assert After(d, '(') == b;
    OpenStep(d);
  }

  lemma UnclosedParenExample()
    ensures SplitParens("hey (you") ==
      [Piece(Speech, "hey "), Piece(Speech, "you"), Piece(Speech, "hey (you")]
  {
    assert "hey (you" == "hey " + "(" + "you";
    UnclosedParenRepeats("hey ", "you");
  }

  /** The spoken text alone: the speech pieces, in order, without separators. */
  function SpeechOf(pieces: seq<Piece>): string {
    if pieces == [] then ""
    else (if pieces[0].kind == Speech then pieces[0].text else "") + SpeechOf(pieces[1..])
  }

  /** With every `(` closed, the speech is the text with the parentheticals cut
      out: no `(` is left in it. */
  lemma {:induction false} SpeechHasNoParen(d: string)
    ensures var r := SplitParens(d);
            Closed(d) ==> '(' !in SpeechOf(r)
    decreases |d|
  {
    if '(' in d && Closed(d) {
      var pre, inner, rest := ClosedStep(d);
      SpeechHasNoParen(rest);
      var p := Piece(Paren, inner);
      PieceRegroup(Lead(pre), p, SplitParens(rest));
      SpeechAppend(Lead(pre), [p] + SplitParens(rest));
      assert SpeechOf([p] + SplitParens(rest)) == SpeechOf(SplitParens(rest));
    }
  }

  /** The speech of one more piece: its text when it is speech. */
  lemma SpeechPrefixStep(pieces: seq<Piece>, i: nat)
    requires i < |pieces|
    ensures SpeechOf(pieces[..i + 1]) ==
            SpeechOf(pieces[..i]) + (if pieces[i].kind == Speech then pieces[i].text else "")
  {
    var p := pieces[i];
    assert pieces[..i + 1] == pieces[..i] + [p];
    SpeechAppend(pieces[..i], [p]);
    assert [p][1..] == [];
  }

  lemma {:induction false} SpeechAppend(a: seq<Piece>, b: seq<Piece>)
    ensures SpeechOf(a + b) == SpeechOf(a) + SpeechOf(b)
  {
    if a != [] {
      assert (a + b)[1..] == a[1..] + b;
      SpeechAppend(a[1..], b);
    } else {
      assert a + b == b;
    }
  }
}
