/** The line-oriented script interpreter: it turns raw text into scene
    headings, actions and lines of dialogue. */
module Interpreter {
  import opened Text
  import opened Errors
  import SceneHeader
  import SceneAction
  import Dialogue
  import opened ScriptComponent

  /** The interpreter's `context`: `"none"`, `"dialogue"` (a cue has been read,
      no speech yet) or `"dialogue_continued"`. */
  datatype Context = NoContext | DialogueContext | DialogueContinued

  /** The `working_component` dictionary: its keys are set one by one and it is
      never emptied between components. */
  datatype WorkingComponent = WorkingComponent(characterName: Option<string>, dialogue: Option<string>)

  const EmptyComponent := WorkingComponent(None, None)

  datatype Machine = Machine(context: Context, working: WorkingComponent)

  const Fresh := Machine(NoContext, EmptyComponent)

  /** A cue has always stored a name before the interpreter leaves `"none"`,
      and some speech has always been stored before `"dialogue_continued"`. */
  predicate Coherent(m: Machine) {
    && (m.context != NoContext ==> m.working.characterName.Some?)
    && (m.context == DialogueContinued ==> m.working.dialogue.Some?)
  }

  /** The heading parser tried first on every line; `None` stands for the
      `ValueError` it may raise. */
  type HeadingParser = string -> Option<SceneHeader.Header>

  /** The parser of `SceneHeader.py`, which never raises. */
  function SceneHeaderParser(): HeadingParser {
    (line: string) => Some(SceneHeader.FromStr(line).value)
  }

  // ------------------------------------------------------- one-line dialogue

  /** The name and parenthetical found in the text before the colon: cut at the
      first `(` when the text holds both `(` and `)`, else at the first `[`
      when it holds both `[` and `]`; otherwise the whole text and no
      parenthetical. */
  function NameAndParen(head: string): (r: (string, string))
    ensures r.1 != [] ==> ('(' in head && ')' in head) || ('[' in head && ']' in head)
  {
    if '(' in head && ')' in head then
      (Strip(Before(head, '(')), Strip(Before(Field1(head, '('), ')')))
    else if '[' in head && ']' in head then
      (Strip(Before(head, '[')), Strip(Before(Field1(head, '['), ']')))
    else
      (head, "")
  }

  /** The character name of a one-line dialogue: the name found before the
      colon, upper-cased and stripped. */
  function SpeakerPart(text: string): (r: string)
    requires ':' in text
    ensures ':' !in r
  {
    var head := Before(text, ':');
    var name := NameAndParen(head).0;
    NameHasNoColon(head, name);
    Strip(Upper(name))
  }

  /** The speech of a one-line dialogue: the stripped text after the first
      colon, preceded by the parenthetical and a space when there is one. */
  function SpeechPart(text: string): (r: string)
    requires ':' in text
    ensures r == [] <==>
      NameAndParen(Before(text, ':')).1 == [] && Strip(After(text, ':')) == []
  {
    var paren := NameAndParen(Before(text, ':')).1;
    var spoken := Strip(After(text, ':'));
    if paren != [] then paren + " " + spoken else spoken
  }

  /** `Interpreter.parse_single_line_dialogue`: `ValueError` without a colon or
      without any speech. */
  function ParseSingleLineDialogue(text: string): (r: Result<Dialogue.Dialogue>)
    ensures r.Err? ==> r.error == ValueError
    ensures r.Err? <==>
      (':' !in text ||
       (NameAndParen(Before(text, ':')).1 == [] && Strip(After(text, ':')) == []))
    ensures r.Ok? ==> ':' !in r.value.characterName && r.value.dialogue != []
  {
    if ':' !in text then Err(ValueError)
    else
      var dialogue := SpeechPart(text);
      if |dialogue| == 0 then Err(ValueError)
      else Ok(Dialogue.Dialogue(SpeakerPart(text), dialogue))
  }

  lemma NameHasNoColon(head: string, name: string)
    requires ':' !in head && name == NameAndParen(head).0
    ensures ':' !in Strip(Upper(name))
  {
    if '(' in head && ')' in head {
      StripNoNewChar(Before(head, '('), ':');
    } else if '[' in head && ']' in head {
      StripNoNewChar(Before(head, '['), ':');
    }
    StripNoNewChar(Upper(name), ':');
  }

  /** The parsed name is upper-case and stripped. */
  lemma SpeakerShape(text: string)
    requires ':' in text
    ensures var n := SpeakerPart(text);
            Stripped(n) && forall i :: 0 <= i < |n| ==> !IsLowerChar(n[i])
  {
    var n := Upper(NameAndParen(Before(text, ':')).0);
    StripIsStripped(n);
    StripNoLower(n);
  }

  /** A line written as `NAME: text` is read back as that name and text. */
  lemma SingleLineRoundTrip(name: string, dialogue: string)
    requires Stripped(name) && forall i :: 0 <= i < |name| ==> !IsLowerChar(name[i])
    requires ':' !in name && '(' !in name && '[' !in name
    requires Stripped(dialogue) && dialogue != []
    ensures ParseSingleLineDialogue(name + ": " + dialogue) == Ok(Dialogue.Dialogue(name, dialogue))
  {
    var text := name + ": " + dialogue;
    SplitAtFirst(name, ':', " " + dialogue);
    assert text == name + ":" + (" " + dialogue);
    assert NameAndParen(name) == (name, "");
    assert Upper(name) == name;
    StripOfStripped(name);
    StripPadded(dialogue);
    assert SpeakerPart(text) == name;
    assert SpeechPart(text) == dialogue;
  }

  /** A parenthetical found in the name is put in front of the speech. */
  lemma ParenPrepended(name: string, p: string, spoken: string)
    requires Stripped(name) && forall i :: 0 <= i < |name| ==> !IsLowerChar(name[i])
    requires ':' !in name && '(' !in name
    requires Stripped(p) && p != [] && ':' !in p && '(' !in p && ')' !in p
    requires Stripped(spoken)
    ensures ParseSingleLineDialogue(name + " (" + p + "): " + spoken) ==
            Ok(Dialogue.Dialogue(name, p + " " + spoken))
  {
    var text := name + " (" + p + "): " + spoken;
    ParenLineSplit(name, p, spoken);
    var head := (name + " ") + "(" + p + ")";
    ParenSplit(name + " ", p);
    StripPadded(name);
    StripOfStripped(p);
    assert NameAndParen(head) == (name, p);
    UpperStripped(name);
    assert SpeakerPart(text) == name;
    StripPadded(spoken);
    assert SpeechPart(text) == p + " " + spoken;
  }

  lemma UpperStripped(name: string)
    requires Stripped(name) && forall i :: 0 <= i < |name| ==> !IsLowerChar(name[i])
    ensures Strip(Upper(name)) == name
  {
    assert Upper(name) == name;
    StripOfStripped(name);
  }

  lemma ParenLineSplit(name: string, p: string, spoken: string)
    requires ':' !in name && ':' !in p
    ensures var text := name + " (" + p + "): " + spoken;
            ':' in text && Before(text, ':') == (name + " ") + "(" + p + ")" &&
            After(text, ':') == " " + spoken
  {
    var head := (name + " ") + "(" + p + ")";
    assert name + " (" + p + "): " + spoken == head + ":" + (" " + spoken);
    SplitAtFirst(head, ':', " " + spoken);
  }

  /** The name and parenthetical of `a + "(" + p + ")"`. */
  lemma ParenSplit(a: string, p: string)
    requires '(' !in a && '(' !in p && ')' !in p
    ensures NameAndParen(a + "(" + p + ")") == (Strip(a), Strip(p))
  {
    BracketSplit(a, '(', p, ')');
  }

  // --------------------------------------------------------- the state machine

  /** `Interpreter.close_working_component`: a line of dialogue from the stored
      name and speech (empty when none was stored), or nothing in `"none"`. */
  function Close(m: Machine): (r: Option<Dialogue.Dialogue>)
    requires Coherent(m)
    ensures r.Some? <==> m.context != NoContext
    ensures r.Some? ==> r.value.characterName == m.working.characterName.value
    ensures r.Some? ==>
              r.value.dialogue == (if m.working.dialogue.Some? then m.working.dialogue.value else "")
  {
    if m.context == NoContext then None
    else
      match m.working.dialogue
      case Some(d) => Some(Dialogue.Dialogue(m.working.characterName.value, d))
      case None => Some(Dialogue.Dialogue(m.working.characterName.value))
  }

  function Closing(m: Machine): seq<Component>
    requires Coherent(m)
  {
    match Close(m)
    case Some(d) => [Line(d)]
    case None => []
  }

  /** One turn of the loop of `parse_lines` on `lines[i]`: the next machine and
      the components it appends. */
  function StepLine(heading: HeadingParser, m: Machine, lines: seq<string>, i: nat)
    : (r: (Machine, seq<Component>))
    requires i < |lines| && Coherent(m)
    ensures Coherent(r.0)
    ensures |r.1| <= 1
  {
    var line := Strip(lines[i]);
    if m.context == NoContext then
      if |line| == 0 then (m, [])
      else if heading(line).Some? then (m, [Heading(heading(line).value)])
      else if ParseSingleLineDialogue(line).Ok? then
        (m, [Line(ParseSingleLineDialogue(line).value)])
      else if SceneAction.FromStr(line).Ok? then
        (m, [Description(SceneAction.FromStr(line).value)])
      else if IsUpper(line) then
        (Machine(DialogueContext, m.working.(characterName := Some(line))), [])
      else (m, [])
    else
      if |line| == 0 then
        if m.context == DialogueContext then
          if i > 0 && |lines[i - 1]| == 0 then (m.(context := NoContext), []) else (m, [])
        else
          (m.(context := NoContext), Closing(m))
      else if m.context == DialogueContext then
        (Machine(DialogueContinued, m.working.(dialogue := Some(line))), [])
      else
        (m.(working := m.working.(dialogue := Some(m.working.dialogue.value + "\n" + line))), [])
  }

  /** No parser accepts the line: not a heading, not a one-line dialogue and
      not an action. */
  predicate Unparsed(heading: HeadingParser, line: string) {
    && heading(line).None?
    && ParseSingleLineDialogue(line).Err?
    && SceneAction.FromStr(line).Err?
  }

  /** In `"none"` a blank line is skipped and every other line either yields
      exactly one component (the state staying `"none"`) or, when no parser
      accepts it, becomes a cue: such a line is upper-case, since only an
      upper-case line is refused as an action, so no line is ever dropped. */
  lemma NoneStep(heading: HeadingParser, m: Machine, lines: seq<string>, i: nat)
    requires i < |lines| && Coherent(m) && m.context == NoContext
    ensures var line := Strip(lines[i]);
            var r := StepLine(heading, m, lines, i);
            && (line == [] ==> r == (m, []))
            && (line != [] && !Unparsed(heading, line) ==> r.0 == m && |r.1| == 1)
            && (line != [] && Unparsed(heading, line) ==>
                  IsUpper(line) && r.1 == [] &&
                  r.0 == Machine(DialogueContext, m.working.(characterName := Some(line))))
  {
    var line := Strip(lines[i]);
    if line != [] && Unparsed(heading, line) {
      assert IsUpper(line);
    }
  }

  /** The first parser that accepts a line decides its component: a heading
      before a one-line dialogue before an action. */
  lemma NoneStepOrder(heading: HeadingParser, m: Machine, lines: seq<string>, i: nat)
    requires i < |lines| && Coherent(m) && m.context == NoContext
    requires Strip(lines[i]) != []
    ensures var line := Strip(lines[i]);
            var r := StepLine(heading, m, lines, i);
            && (heading(line).Some? ==> r.1 == [Heading(heading(line).value)])
            && (heading(line).None? && ':' in line && ParseSingleLineDialogue(line).Ok? ==>
                  r.1[0].Line? && r.1[0].line.dialogue != [])
            && (heading(line).None? && ParseSingleLineDialogue(line).Err? && !IsUpper(line) ==>
                  r.1 == [Description(SceneAction.Action(line))])
  {
  }

  /** While a line of dialogue is being collected: a non-blank line becomes the
      speech or is added after a newline; a blank line leaves `"dialogue"` only
      after a raw empty line, and closes the component in
      `"dialogue_continued"`, whose stored name and speech stay in place. */
  lemma CollectStep(heading: HeadingParser, m: Machine, lines: seq<string>, i: nat)
    requires i < |lines| && Coherent(m) && m.context != NoContext
    ensures var line := Strip(lines[i]);
            var r := StepLine(heading, m, lines, i);
            && (r.1 != [] <==> line == [] && m.context == DialogueContinued)
            && (line == [] && m.context == DialogueContinued ==>
                  r == (m.(context := NoContext),
                        [Line(Dialogue.Dialogue(m.working.characterName.value, m.working.dialogue.value))]))
            && (line == [] && m.context == DialogueContext ==>
                  r.0.working == m.working &&
                  (r.0.context == NoContext <==> i > 0 && lines[i - 1] == []) &&
                  (r.0.context != NoContext ==> r.0 == m))
            && (line != [] ==>
                  r.0.context == DialogueContinued &&
                  r.0.working.characterName == m.working.characterName &&
                  r.0.working.dialogue ==
                    Some(if m.context == DialogueContext then line
                         else m.working.dialogue.value + "\n" + line))
  {
  }

  /** The machine and the components after the first `n` lines. */
  function Run(heading: HeadingParser, start: Machine, lines: seq<string>, n: nat)
    : (r: (Machine, seq<Component>))
    requires n <= |lines| && Coherent(start)
    ensures Coherent(r.0)
    ensures |r.1| <= n
  {
    if n == 0 then (start, [])
    else
      var prev := Run(heading, start, lines, n - 1);
      var next := StepLine(heading, prev.0, lines, n - 1);
      (next.0, prev.1 + next.1)
  }

  /** A scan that starts in `"none"` with every line either blank or a heading
      never leaves `"none"`: the machine comes back unchanged. */
  lemma {:induction false} RunStaysNone(heading: HeadingParser, start: Machine, lines: seq<string>, n: nat)
    requires n <= |lines| && Coherent(start) && start.context == NoContext
    requires forall j :: 0 <= j < n ==> Strip(lines[j]) == [] || heading(Strip(lines[j])).Some?
    ensures Run(heading, start, lines, n).0 == start
    ensures Run(heading, start, lines, n).1 == Headings(heading, lines, n)
  {
    if n > 0 {
      RunStaysNone(heading, start, lines, n - 1);
    }
  }

  /** One heading per non-blank line among the first `n`. */
  function Headings(heading: HeadingParser, lines: seq<string>, n: nat): (r: seq<Component>)
    requires n <= |lines|
    requires forall j :: 0 <= j < n ==> Strip(lines[j]) == [] || heading(Strip(lines[j])).Some?
    ensures forall c :: c in r ==> c.Heading?
  {
    if n == 0 then []
    else
      var line := Strip(lines[n - 1]);
      Headings(heading, lines, n - 1) +
      (if line == [] then [] else [Heading(heading(line).value)])
  }

  /** The heading parser of `SceneHeader.py` accepts every line, so with it the
      interpreter reads nothing but headings, one per non-blank line, and never
      yields a line of dialogue. */
  lemma SceneHeadingsOnly(lines: seq<string>)
    ensures ParseLinesSpec(SceneHeaderParser(), Fresh, lines) == Headings(SceneHeaderParser(), lines, |lines|)
    ensures OfType(ParseLinesSpec(SceneHeaderParser(), Fresh, lines), DialogueType) == []
  {
    RunStaysNone(SceneHeaderParser(), Fresh, lines, |lines|);
    var cs := Headings(SceneHeaderParser(), lines, |lines|);
    OfTypeNone(cs, DialogueType);
  }

  /** What `parse_lines` returns: the components of every line, then the line
      of dialogue still open at the end of the input, if any. */
  function ParseLinesSpec(heading: HeadingParser, start: Machine, lines: seq<string>): seq<Component>
    requires Coherent(start)
  {
    var end := Run(heading, start, lines, |lines|);
    end.1 + Closing(end.0)
  }

  /** A heading parser that refuses every line. */
  function NoHeadings(): HeadingParser {
    (line: string) => None
  }

  /** A line the heading parser refuses and that `parse_lines` reads as a cue. */
  predicate Cue(heading: HeadingParser, name: string) {
    Stripped(name) && ':' !in name && IsUpper(name) && heading(name).None?
  }

  /** The stored speech survives a close: a bare cue at the end of the input
      yields a line of dialogue that repeats the previous speech. */
  lemma TrailingCue(heading: HeadingParser, lines: seq<string>, a: string, speech: string, b: string)
    requires lines == [a, speech, "", b]
    requires Cue(heading, a) && Cue(heading, b) && Stripped(speech) && speech != []
    ensures ParseLinesSpec(heading, Fresh, lines) ==
            [Line(Dialogue.Dialogue(a, speech)), Line(Dialogue.Dialogue(b, speech))]
  {
    var last := Machine(DialogueContext, WorkingComponent(Some(b), Some(speech)));
    var first := [Line(Dialogue.Dialogue(a, speech))];
    TrailingCueLast(heading, lines, a, speech, b);
    ParseLinesEnd(heading, Fresh, lines, last, first);
  }

  /** `BOB`, `hi`, a blank line, then a bare `ALICE`: ALICE is given BOB's line. */
  lemma TrailingCueExample()
    ensures ParseLinesSpec(NoHeadings(), Fresh, ["BOB", "hi", "", "ALICE"]) ==
            [Line(Dialogue.Dialogue("BOB", "hi")), Line(Dialogue.Dialogue("ALICE", "hi"))]
  {
    assert IsUpperChar("BOB"[0]) && IsUpperChar("ALICE"[0]);
    TrailingCue(NoHeadings(), ["BOB", "hi", "", "ALICE"], "BOB", "hi", "ALICE");
  }

  /** What `parse_lines` returns once the scan of every line is known. */
  lemma ParseLinesEnd(heading: HeadingParser, start: Machine, lines: seq<string>,
                      m: Machine, cs: seq<Component>)
    requires Coherent(start) && Coherent(m)
    requires Run(heading, start, lines, |lines|) == (m, cs)
    ensures ParseLinesSpec(heading, start, lines) == cs + Closing(m)
  {
  }

  lemma TrailingCueLast(heading: HeadingParser, lines: seq<string>, a: string, speech: string, b: string)
    requires lines == [a, speech, "", b]
    requires Cue(heading, a) && Cue(heading, b) && Stripped(speech) && speech != []
    ensures Run(heading, Fresh, lines, |lines|) ==
            (Machine(DialogueContext, WorkingComponent(Some(b), Some(speech))),
             [Line(Dialogue.Dialogue(a, speech))])
  {
    var closed := Machine(NoContext, WorkingComponent(Some(a), Some(speech)));
    var last := Machine(DialogueContext, WorkingComponent(Some(b), Some(speech)));
    var first := [Line(Dialogue.Dialogue(a, speech))];
    TrailingCueBlank(heading, lines, a, speech, b);
    CueStep(heading, closed, lines, 3, b);
    Advance(heading, Fresh, lines, 3, closed, first, last, []);
    assert first + [] == first;
  }

  lemma TrailingCueBlank(heading: HeadingParser, lines: seq<string>, a: string, speech: string, b: string)
    requires lines == [a, speech, "", b]
    requires Cue(heading, a) && Stripped(speech) && speech != []
    ensures Run(heading, Fresh, lines, 3) ==
            (Machine(NoContext, WorkingComponent(Some(a), Some(speech))),
             [Line(Dialogue.Dialogue(a, speech))])
  {
    var spoken := Machine(DialogueContinued, WorkingComponent(Some(a), Some(speech)));
    var closed := spoken.(context := NoContext);
    var first := [Line(Dialogue.Dialogue(a, speech))];
    TrailingCueOpening(heading, lines, a, speech, b);
    CollectStep(heading, spoken, lines, 2);
    Advance(heading, Fresh, lines, 2, spoken, [], closed, first);
    assert [] + first == first;
  }

  lemma TrailingCueOpening(heading: HeadingParser, lines: seq<string>, a: string, speech: string, b: string)
    requires lines == [a, speech, "", b]
    requires Cue(heading, a) && Stripped(speech) && speech != []
    ensures Run(heading, Fresh, lines, 2) ==
            (Machine(DialogueContinued, WorkingComponent(Some(a), Some(speech))), [])
  {
    var cued := Machine(DialogueContext, WorkingComponent(Some(a), None));
    var spoken := Machine(DialogueContinued, WorkingComponent(Some(a), Some(speech)));
    CueStep(heading, Fresh, lines, 0, a);
    Advance(heading, Fresh, lines, 0, Fresh, [], cued, []);
    StripOfStripped(speech);
    CollectStep(heading, cued, lines, 1);
    Advance(heading, Fresh, lines, 1, cued, [], spoken, []);
  }

  /** One more line of the scan. */
  lemma Advance(heading: HeadingParser, start: Machine, lines: seq<string>, n: nat,
                m: Machine, cs: seq<Component>, next: Machine, out: seq<Component>)
    requires n < |lines| && Coherent(start)
    requires Run(heading, start, lines, n) == (m, cs)
    requires StepLine(heading, m, lines, n) == (next, out)
    ensures Run(heading, start, lines, n + 1) == (next, cs + out)
  {
  }

  /** A stripped, colon-free, upper-case line that is no heading is a cue. */
  lemma CueStep(heading: HeadingParser, m: Machine, lines: seq<string>, i: nat, name: string)
    requires i < |lines| && Coherent(m) && m.context == NoContext
    requires lines[i] == name && Cue(heading, name)
    ensures StepLine(heading, m, lines, i) ==
            (Machine(DialogueContext, m.working.(characterName := Some(name))), [])
  {
    StripOfStripped(name);
    NoneStep(heading, m, lines, i);
  }

  /** The text actually split into lines: with the flag present (whatever its
      value) one leading newline goes, and empty text has no first character. */
  function Prepared(text: string, flags: set<string>): (r: Result<string>)
    ensures r.Err? <==> ("ignore_first_char_newline" in flags && text == [])
    ensures r.Err? ==> r.error == IndexError
    ensures r.Ok? && "ignore_first_char_newline" !in flags ==> r.value == text
    ensures r.Ok? && "ignore_first_char_newline" in flags ==>
      (if text[0] == '\n' then r.value == text[1..] else r.value == text)
  {
    if "ignore_first_char_newline" in flags then
      if text == [] then Err(IndexError)
      else if text[0] == '\n' then Ok(text[1..])
      else Ok(text)
    else Ok(text)
  }

  /** What `parse_text` returns. */
  function ParseTextSpec(heading: HeadingParser, text: string, flags: set<string>)
    : Result<seq<Component>>
  {
    match Prepared(text, flags)
    case Err(e) => Err(e)
    case Ok(t) => Ok(ParseLinesSpec(heading, Fresh, Split(t, '\n')))
  }

  /** What `Interpreter.interpret` returns. */
  function InterpretSpec(heading: HeadingParser, text: string, flags: set<string>,
                         asType: Option<ComponentType>): Result<seq<Component>>
  {
    match ParseTextSpec(heading, text, flags)
    case Err(e) => Err(e)
    case Ok(cs) => Ok(if asType.Some? then OfType(cs, asType.value) else cs)
  }

  class Interpreter {
    var context: Context
    var workingComponent: WorkingComponent

    function State(): Machine
      reads this
    {
      Machine(context, workingComponent)
    }

    predicate Valid()
      reads this
    {
      Coherent(State())
    }

    constructor()
      ensures context == NoContext && workingComponent == EmptyComponent
    {
      context := NoContext;
      workingComponent := EmptyComponent;
    }

    /** `Interpreter.reset_state` */
    method ResetState()
      modifies this
      ensures context == NoContext && workingComponent == EmptyComponent
    {
      context := NoContext;
      workingComponent := EmptyComponent;
    }

    /** `Interpreter.close_working_component` */
    function CloseWorkingComponent(): (r: Option<Dialogue.Dialogue>)
      reads this
      requires Valid()
      ensures r == Close(State())
    {
      Close(State())
    }

    /** `Interpreter.parse_lines` */
    method ParseLines(heading: HeadingParser, lines: seq<string>) returns (components: seq<Component>)
      requires Valid()
      modifies this
      ensures Valid()
      ensures State() == Run(heading, old(State()), lines, |lines|).0
      ensures components == ParseLinesSpec(heading, old(State()), lines)
    {
      ghost var start := State();
      components := [];
      for lineIndex := 0 to |lines|
        invariant Valid()
        invariant (State(), components) == Run(heading, start, lines, lineIndex)
      {
        var emitted := ParseLine(heading, lines, lineIndex);
        components := components + emitted;
      }
      var component := CloseWorkingComponent();
      if component.Some? {
        components := components + [Line(component.value)];
      }
    }

    /** One turn of the loop of `parse_lines`, on `lines[lineIndex]`; returns
        what it appends to `components`. */
    method ParseLine(heading: HeadingParser, lines: seq<string>, lineIndex: nat)
      returns (emitted: seq<Component>)
      requires Valid() && lineIndex < |lines|
      modifies this
      ensures Valid()
      ensures (State(), emitted) == StepLine(heading, old(State()), lines, lineIndex)
    {
      emitted := [];
      var line := Strip(lines[lineIndex]);
      if context == NoContext {
        if |line| == 0 {
          return;
        }
        var header := heading(line);
        if header.Some? {
          return [Heading(header.value)];
        }
        var spoken := ParseSingleLineDialogue(line);
        if spoken.Ok? {
          return [Line(spoken.value)];
        }
        var action := SceneAction.FromStr(line);
        if action.Ok? {
          return [Description(action.value)];
        }
        if IsUpper(line) {
          workingComponent := workingComponent.(characterName := Some(line));
          context := DialogueContext;
        }
      } else if |line| == 0 {
        if context == DialogueContext {
          if lineIndex > 0 && |lines[lineIndex - 1]| == 0 {
            context := NoContext;
          }
        } else {
          var component := CloseWorkingComponent();
          emitted := [Line(component.value)];
          context := NoContext;
        }
      } else if context == DialogueContext {
        workingComponent := workingComponent.(dialogue := Some(line));
        context := DialogueContinued;
      } else {
        workingComponent := workingComponent.(dialogue := Some(workingComponent.dialogue.value + "\n" + line));
      }
    }

    /** `Interpreter.parse_text` */
    method ParseText(heading: HeadingParser, text: string, flags: set<string>)
      returns (r: Result<seq<Component>>)
      modifies this
      ensures Valid()
      ensures r == ParseTextSpec(heading, text, flags)
    {
      ResetState();
      var body := text;
      if "ignore_first_char_newline" in flags {
        if text == [] {
          return Err(IndexError);
        }
        if text[0] == '\n' {
          body := text[1..];
        }
      }
      var lines := Split(body, '\n');
      var components := ParseLines(heading, lines);
      r := Ok(components);
    }

    /** The `as_type` loop of `interpret`. */
    static method KeepType(scriptComponents: seq<Component>, t: ComponentType)
      returns (validComponents: seq<Component>)
      ensures validComponents == OfType(scriptComponents, t)
    {
      validComponents := [];
      for i := 0 to |scriptComponents|
        invariant validComponents == OfType(scriptComponents[..i], t)
      {
        var component := scriptComponents[i];
        if TypeOf(component) == t {
          validComponents := validComponents + [component];
        }
        OfTypeSnoc(scriptComponents[..i], component, t);
        assert scriptComponents[..i + 1] == scriptComponents[..i] + [component];
      }
      assert scriptComponents[..|scriptComponents|] == scriptComponents;
    }

    /** `Interpreter.interpret`: a fresh interpreter parses the text; with a
        type given, only the components of that type are kept. */
    static method Interpret(heading: HeadingParser, text: string, flags: set<string>,
                            asType: Option<ComponentType>)
      returns (r: Result<seq<Component>>)
      ensures r == InterpretSpec(heading, text, flags, asType)
    {
      var interpreter := new Interpreter();
      var parsed := interpreter.ParseText(heading, text, flags);
      if parsed.Err? {
        return Err(parsed.error);
      }
      var scriptComponents := parsed.value;
      if asType.Some? {
        scriptComponents := KeepType(scriptComponents, asType.value);
      }
      r := Ok(scriptComponents);
    }
  }
}
