/** The first version of the script interpreter: it reads screenplay-style
    text (a cue line, then speech, then a blank line) and builds lines of
    dialogue, which it then throws away. */
module LegacyInterpreter {
  import opened Text
  import opened Errors

  /** The `Dialogue` class of the first component module. */
  datatype Spoken = Spoken(characterName: string, dialogue: string, parenthetical: string := "")

  /** The local `context`: `"none"`, `"character_name"`, `"dialogue"` and
      `"dialogue_continued"`. */
  datatype Context = NoContext | CharacterName | DialogueContext | DialogueContinued

  /** The `working_component` dictionary: each key is set on its own and the
      dictionary is never emptied. */
  datatype Working = Working(characterName: Option<string>, dialogue: Option<string>,
                             parenthetical: Option<string>)

  const Empty := Working(None, None, None)

  /** The loop's locals: the context, the working dictionary and the list of
      closed components. */
  datatype Scan = Scan(context: Context, working: Working, components: seq<Spoken>)

  const Start := Scan(NoContext, Empty, [])

  /** A line the interpreter takes for a cue: stripped and upper-case. */
  predicate CueLine(line: string) {
    Stripped(line) && IsUpper(line)
  }

  /** `line[0] == "(" and line[-1] == ")"` on a non-empty line. */
  predicate ParenLine(line: string) {
    line != [] && line[0] == '(' && line[|line| - 1] == ')'
  }

  /** `line[1:-1]`: the text between the brackets. */
  function Inner(line: string): (r: string)
    requires ParenLine(line)
    ensures "(" + r + ")" == line
  {
    line[1..|line| - 1]
  }

  /** A line the interpreter takes for speech: stripped, non-empty, not
      upper-case and not in brackets. */
  predicate SpeechLine(line: string) {
    Stripped(line) && line != [] && !IsUpper(line) && !ParenLine(line)
  }

  /** The keys the context needs are present: a name from `"dialogue"` on,
      and speech as well in `"dialogue_continued"`. */
  predicate Coherent(s: Scan) {
    && (s.context == DialogueContext || s.context == DialogueContinued ==>
          s.working.characterName.Some?)
    && (s.context == DialogueContinued ==> s.working.dialogue.Some?)
  }

  /** Every stored name was a cue line, every stored speech a speech line, and
      every closed component is formed from both. */
  predicate Sound(s: Scan) {
    && (s.working.characterName.Some? ==> CueLine(s.working.characterName.value))
    && (s.working.dialogue.Some? ==> SpeechLine(s.working.dialogue.value))
    && (forall c :: c in s.components ==> Formed(c))
  }

  /** A line of dialogue as the interpreter closes it: a cue for a name and a
      speech line for its text. */
  predicate Formed(c: Spoken) {
    CueLine(c.characterName) && SpeechLine(c.dialogue)
  }

  /** `Interpreter.close_component`: a line of dialogue from the keys present,
      only in `"dialogue_continued"`; a missing name or speech is a missing
      constructor argument. */
  function CloseComponent(component: Working, context: Context): (r: Result<Spoken>)
    ensures context != DialogueContinued <==> r == Err(ValueError)
    ensures r.Ok? <==>
              context == DialogueContinued &&
              component.characterName.Some? && component.dialogue.Some?
    ensures r.Ok? ==>
              && r.value.characterName == component.characterName.value
              && r.value.dialogue == component.dialogue.value
              && r.value.parenthetical ==
                 (if component.parenthetical.Some? then component.parenthetical.value else "")
  {
    if context != DialogueContinued then Err(ValueError)
    else if component.characterName.None? || component.dialogue.None? then Err(TypeError)
    else
      match component.parenthetical
      case Some(p) => Ok(Spoken(component.characterName.value, component.dialogue.value, p))
      case None => Ok(Spoken(component.characterName.value, component.dialogue.value))
  }

  /** One turn of the loop on `lines[i]`, split by the context it starts
      in. */
  function StepLine(s: Scan, lines: seq<string>, i: nat): (r: Scan)
    requires i < |lines| && Coherent(s)
    ensures Coherent(r)
  {
    Turn(s, Strip(lines[i]), i > 0 && |lines[i - 1]| == 0)
  }

  /** The turn on the stripped `line`; `afterEmpty` says the raw line before
      it was empty. */
  function Turn(s: Scan, line: string, afterEmpty: bool): (r: Scan)
    requires Coherent(s)
    ensures Coherent(r)
  {
    if s.context == NoContext || s.context == CharacterName then OutsideStep(s, line)
    else if line == [] then BlankStep(s, afterEmpty)
    else InsideStep(s, line)
  }

  /** Outside a component a non-blank upper-case line is a cue; anything
      else is skipped. */
  function OutsideStep(s: Scan, line: string): (r: Scan)
    requires s.context == NoContext || s.context == CharacterName
    ensures Coherent(r) && r.components == s.components
  {
    if line != [] && IsUpper(line) then
      Scan(DialogueContext, s.working.(characterName := Some(line)), s.components)
    else s
  }

  /** A blank line inside a component: after a cue it ends the component
      only if the raw line before was empty too; after speech it closes the
      component. */
  function BlankStep(s: Scan, afterEmpty: bool): (r: Scan)
    requires Coherent(s) && (s.context == DialogueContext || s.context == DialogueContinued)
    ensures Coherent(r)
    ensures s.context == DialogueContext ==> r.components == s.components
    ensures s.context == DialogueContinued ==>
              r.components == s.components + [CloseComponent(s.working, s.context).value]
  {
    if s.context == DialogueContext then
      if afterEmpty then s.(context := NoContext) else s
    else
      Scan(CharacterName, s.working,
           s.components + [CloseComponent(s.working, s.context).value])
  }

  /** A non-blank line inside a component: an upper-case line is ignored, a
      bracketed one is the parenthetical, anything else the speech. */
  function InsideStep(s: Scan, line: string): (r: Scan)
    requires Coherent(s) && (s.context == DialogueContext || s.context == DialogueContinued)
    requires line != []
    ensures Coherent(r) && r.components == s.components
  {
    if IsUpper(line) then s
    else if ParenLine(line) then
      Scan(DialogueContext, s.working.(parenthetical := Some(Inner(line))), s.components)
    else
      Scan(DialogueContinued, s.working.(dialogue := Some(line)), s.components)
  }

  /** The locals after the first `n` lines. */
  function Run(lines: seq<string>, n: nat): (r: Scan)
    requires n <= |lines|
    ensures Coherent(r)
  {
    if n == 0 then Start else StepLine(Run(lines, n - 1), lines, n - 1)
  }

  /** The text split into lines: `KeyError` without the flag, and with the
      flag set a leading newline goes, or `IndexError` on empty text. */
  function Prepared(text: string, flags: map<string, bool>): (r: Result<string>)
    ensures r == Err(KeyError) <==> "ignore_first_char_newline" !in flags
    ensures r == Err(IndexError) <==>
              "ignore_first_char_newline" in flags && flags["ignore_first_char_newline"] && text == []
    ensures r.Ok? && !flags["ignore_first_char_newline"] ==> r.value == text
    ensures r.Ok? && flags["ignore_first_char_newline"] ==>
              r.value == (if text[0] == '\n' then text[1..] else text)
  {
    if "ignore_first_char_newline" !in flags then Err(KeyError)
    else if flags["ignore_first_char_newline"] then
      if text == [] then Err(IndexError)
      else if text[0] == '\n' then Ok(text[1..])
      else Ok(text)
    else Ok(text)
  }

  /** The list `interpret` builds before it returns. */
  function ComponentsSpec(text: string, flags: map<string, bool>): Result<seq<Spoken>> {
    match Prepared(text, flags)
    case Err(e) => Err(e)
    case Ok(t) => Ok(Run(Split(t, '\n'), |Split(t, '\n')|).components)
  }

  /** Closed components are never changed: a longer scan extends the list. */
  lemma RunExtends(lines: seq<string>, n: nat, m: nat)
    requires n < m <= |lines|
    ensures Run(lines, n).components <= Run(lines, m).components
  {
    ExtendedUpTo(lines, n, m);
  }

  /** The components after `n` lines are a prefix of those after `k`. */
  predicate Extended(lines: seq<string>, n: nat, k: nat)
    requires n <= k <= |lines|
  {
    Run(lines, n).components <= Run(lines, k).components
  }

  lemma {:induction false} ExtendedUpTo(lines: seq<string>, n: nat, k: nat)
    requires n <= k <= |lines|
    ensures Extended(lines, n, k)
    decreases k
  {
    if k == n {
      PrefixReflexive(Run(lines, n).components);
    } else {
      ExtendedUpTo(lines, n, k - 1);
      ExtendsNext(lines, n, k);
    }
  }

  lemma PrefixReflexive(a: seq<Spoken>)
    ensures a <= a
  {
    assert a[..|a|] == a;
  }

  lemma ExtendsNext(lines: seq<string>, n: nat, k: nat)
    requires n < k <= |lines| && Extended(lines, n, k - 1)
    ensures Extended(lines, n, k)
  {
    StepExtends(Run(lines, n).components, Run(lines, k - 1), lines, k - 1);
  }

  lemma StepExtends(a: seq<Spoken>, s: Scan, lines: seq<string>, i: nat)
    requires i < |lines| && Coherent(s) && a <= s.components
    ensures a <= StepLine(s, lines, i).components
  {
    var r := StepLine(s, lines, i).components;
    assert s.components <= r by {
      if r != s.components {
        assert r == s.components + [CloseComponent(s.working, s.context).value];
      }
    }
    PrefixTransitive(a, s.components, r);
  }

  lemma PrefixTransitive(a: seq<Spoken>, b: seq<Spoken>, c: seq<Spoken>)
    requires a <= b && b <= c
    ensures a <= c
  {
    assert c[..|b|][..|a|] == c[..|a|];
  }

  /** Every closed line of dialogue carries a cue for its name and a speech line
      for its text. */
  lemma {:induction false} RunFormed(lines: seq<string>, n: nat)
    requires n <= |lines|
    ensures Sound(Run(lines, n))
  {
    var k := 0;
    while k < n
      invariant k <= n && Sound(Run(lines, k))
    {
      SoundNext(lines, k);
      k := k + 1;
    }
  }

  lemma SoundNext(lines: seq<string>, n: nat)
    requires n < |lines| && Sound(Run(lines, n))
    ensures Sound(Run(lines, n + 1))
  {
    StepSound(Run(lines, n), lines, n);
  }

  lemma StepSound(s: Scan, lines: seq<string>, i: nat)
    requires i < |lines| && Coherent(s) && Sound(s)
    ensures Sound(StepLine(s, lines, i))
  {
    StripIsStripped(lines[i]);
    TurnSound(s, Strip(lines[i]), i > 0 && |lines[i - 1]| == 0);
  }

  lemma TurnSound(s: Scan, line: string, afterEmpty: bool)
    requires Coherent(s) && Sound(s) && Stripped(line)
    ensures Sound(Turn(s, line, afterEmpty))
  {
    if s.context == NoContext || s.context == CharacterName {
      OutsideSound(s, line);
    } else if line == [] {
      BlankSound(s, afterEmpty);
    } else {
      InsideSound(s, line);
    }
  }

  lemma OutsideSound(s: Scan, line: string)
    requires Sound(s) && Stripped(line)
    requires s.context == NoContext || s.context == CharacterName
    ensures Sound(OutsideStep(s, line))
  {
  }

  /** Closing a component adds a formed one. */
  lemma BlankSound(s: Scan, afterEmpty: bool)
    requires Coherent(s) && Sound(s)
    requires s.context == DialogueContext || s.context == DialogueContinued
    ensures Sound(BlankStep(s, afterEmpty))
  {
    if s.context == DialogueContinued {
      FormedSnoc(s.components, CloseComponent(s.working, s.context).value);
    }
  }

  lemma InsideSound(s: Scan, line: string)
    requires Coherent(s) && Sound(s) && Stripped(line) && line != []
    requires s.context == DialogueContext || s.context == DialogueContinued
    ensures Sound(InsideStep(s, line))
  {
  }

  lemma FormedSnoc(cs: seq<Spoken>, c: Spoken)
    requires forall d :: d in cs ==> Formed(d)
    requires Formed(c)
    ensures forall d :: d in cs + [c] ==> Formed(d)
  {
  }

  /** A component is closed exactly on a blank line after speech. */
  lemma StepCloses(s: Scan, lines: seq<string>, i: nat)
    requires i < |lines| && Coherent(s)
    ensures var r := StepLine(s, lines, i);
            |r.components| == |s.components| + 1 <==>
            Strip(lines[i]) == [] && s.context == DialogueContinued
  {
  }

  /** A cue line read outside a component stores the name. */
  lemma CueStep(s: Scan, lines: seq<string>, i: nat)
    requires i < |lines| && Coherent(s) && CueLine(lines[i])
    requires s.context == NoContext || s.context == CharacterName
    ensures StepLine(s, lines, i) ==
            Scan(DialogueContext, s.working.(characterName := Some(lines[i])), s.components)
  {
    StripOfStripped(lines[i]);
  }

  /** A speech line read after a cue replaces the stored speech. */
  lemma SpeechStep(s: Scan, lines: seq<string>, i: nat)
    requires i < |lines| && Coherent(s) && SpeechLine(lines[i])
    requires s.context == DialogueContext || s.context == DialogueContinued
    ensures StepLine(s, lines, i) ==
            Scan(DialogueContinued, s.working.(dialogue := Some(lines[i])), s.components)
  {
    StripOfStripped(lines[i]);
  }

  /** A bracketed line read after a cue: a parenthetical unless it is
      upper-case, in which case nothing changes. */
  lemma ParenStep(s: Scan, lines: seq<string>, i: nat)
    requires i < |lines| && Coherent(s) && Stripped(lines[i]) && ParenLine(lines[i])
    requires s.context == DialogueContext || s.context == DialogueContinued
    ensures var line := lines[i];
            StepLine(s, lines, i) ==
            if IsUpper(line) then s
            else Scan(DialogueContext, s.working.(parenthetical := Some(Inner(line))), s.components)
  {
    StripOfStripped(lines[i]);
  }

  /** A blank line after speech closes the component. */
  lemma CloseStep(s: Scan, lines: seq<string>, i: nat)
    requires i < |lines| && Coherent(s) && lines[i] == [] && s.context == DialogueContinued
    ensures StepLine(s, lines, i) ==
            Scan(CharacterName, s.working, s.components + [CloseComponent(s.working, s.context).value])
  {
  }

  /** One more line of the scan. */
  lemma Advance(lines: seq<string>, n: nat, s: Scan, t: Scan)
    requires n < |lines| && Coherent(s)
    requires Run(lines, n) == s && StepLine(s, lines, n) == t
    ensures Run(lines, n + 1) == t
  {
  }

  /** A scan that opens on a cue line. */
  lemma Opening(lines: seq<string>)
    requires |lines| >= 1 && CueLine(lines[0])
    ensures Run(lines, 1) == Scan(DialogueContext, Working(Some(lines[0]), None, None), [])
  {
    CueStep(Start, lines, 0);
  }

  /** A cue, a speech line and a blank line make one line of dialogue. */
  lemma Exchange(lines: seq<string>, name: string, speech: string)
    requires lines == [name, speech, ""]
    requires CueLine(name) && SpeechLine(speech)
    ensures Run(lines, |lines|).components == [Spoken(name, speech)]
  {
    var w := Working(Some(name), None, None);
    var s1 := Scan(DialogueContext, w, []);
    var s2 := Scan(DialogueContinued, w.(dialogue := Some(speech)), []);
    Opening(lines);
    SpeechStep(s1, lines, 1);
    Advance(lines, 1, s1, s2);
    CloseStep(s2, lines, 2);
    Advance(lines, 2, s2, StepLine(s2, lines, 2));
  }

  /** Only a blank line closes a component, and there is no close at the end
      of the input: speech on the last line is lost. */
  lemma LastSpeechLost(lines: seq<string>, name: string, speech: string)
    requires lines == [name, speech]
    requires CueLine(name) && SpeechLine(speech)
    ensures Run(lines, |lines|).components == []
    ensures Run(lines, |lines|).context == DialogueContinued
  {
    var s1 := Scan(DialogueContext, Working(Some(name), None, None), []);
    Opening(lines);
    SpeechStep(s1, lines, 1);
    Advance(lines, 1, s1, StepLine(s1, lines, 1));
  }

  /** A second speech line replaces the first instead of extending it. */
  lemma SpeechOverwrites(lines: seq<string>, name: string, first: string, second: string)
    requires lines == [name, first, second, ""]
    requires CueLine(name) && SpeechLine(first) && SpeechLine(second)
    ensures Run(lines, |lines|).components == [Spoken(name, second)]
  {
    var w := Working(Some(name), None, None);
    var s1 := Scan(DialogueContext, w, []);
    var s2 := Scan(DialogueContinued, w.(dialogue := Some(first)), []);
    var s3 := Scan(DialogueContinued, w.(dialogue := Some(second)), []);
    Opening(lines);
    SpeechStep(s1, lines, 1);
    Advance(lines, 1, s1, s2);
    SpeechStep(s2, lines, 2);
    Advance(lines, 2, s2, s3);
    CloseStep(s3, lines, 3);
    Advance(lines, 3, s3, StepLine(s3, lines, 3));
  }

  /** A bracketed line after the cue gives the parenthetical, unless it is
      upper-case: then it is taken for a stray cue and ignored, since the
      upper-case test comes first. */
  lemma Parenthetical(lines: seq<string>, name: string, paren: string, speech: string)
    requires lines == [name, paren, speech, ""]
    requires CueLine(name) && SpeechLine(speech) && Stripped(paren) && ParenLine(paren)
    ensures Run(lines, |lines|).components ==
            [Spoken(name, speech, if IsUpper(paren) then "" else Inner(paren))]
  {
    var w := Working(Some(name), None, None);
    var s1 := Scan(DialogueContext, w, []);
    Opening(lines);
    ParenStep(s1, lines, 1);
    if IsUpper(paren) {
      Advance(lines, 1, s1, s1);
      SpeechClose(lines, s1, speech);
    } else {
      var s2 := Scan(DialogueContext, w.(parenthetical := Some(Inner(paren))), []);
      Advance(lines, 1, s1, s2);
      SpeechClose(lines, s2, speech);
    }
  }

  /** The last two lines of a four-line exchange: speech, then a blank line. */
  lemma SpeechClose(lines: seq<string>, s: Scan, speech: string)
    requires |lines| == 4 && lines[2] == speech && lines[3] == ""
    requires SpeechLine(speech) && s.context == DialogueContext && s.components == []
    requires s.working.characterName.Some? && Run(lines, 2) == s
    ensures Run(lines, 4).components ==
            [CloseComponent(s.working.(dialogue := Some(speech)), DialogueContinued).value]
  {
    var s3 := Scan(DialogueContinued, s.working.(dialogue := Some(speech)), []);
    SpeechStep(s, lines, 2);
    Advance(lines, 2, s, s3);
    CloseStep(s3, lines, 3);
    Advance(lines, 3, s3, StepLine(s3, lines, 3));
  }

  /** The loop of `interpret` on its lines, starting from the empty state. */
  method ScanLines(lines: seq<string>) returns (scriptComponents: seq<Spoken>)
    ensures scriptComponents == Run(lines, |lines|).components
  {
    var context := NoContext;
    var workingComponent := Empty;
    scriptComponents := [];
    for lineIndex := 0 to |lines|
      invariant Scan(context, workingComponent, scriptComponents) == Run(lines, lineIndex)
    {
      context, workingComponent, scriptComponents :=
        ScanLine(context, workingComponent, scriptComponents, lines, lineIndex);
    }
  }

  /** One turn of the loop of `interpret`, on `lines[lineIndex]`. */
  method ScanLine(context0: Context, working0: Working, components0: seq<Spoken>,
                  lines: seq<string>, lineIndex: nat)
    returns (context: Context, workingComponent: Working, scriptComponents: seq<Spoken>)
    requires lineIndex < |lines| && Coherent(Scan(context0, working0, components0))
    ensures Scan(context, workingComponent, scriptComponents) ==
            StepLine(Scan(context0, working0, components0), lines, lineIndex)
  {
    context, workingComponent, scriptComponents := context0, working0, components0;
    var line := Strip(lines[lineIndex]);
    if context == NoContext || context == CharacterName {
      if |line| == 0 {
        return;
      } else if IsUpper(line) {
        workingComponent := workingComponent.(characterName := Some(line));
        context := DialogueContext;
      }
    } else if |line| == 0 {
      if context == DialogueContext {
        if lineIndex > 0 && |lines[lineIndex - 1]| == 0 {
          context := NoContext;
        }
      }
      if context == DialogueContinued {
        var component := CloseComponent(workingComponent, context);
        scriptComponents := scriptComponents + [component.value];
        context := CharacterName;
      }
    } else if IsUpper(line) {
      // only a warning
    } else if line[0] == '(' && line[|line| - 1] == ')' {
      workingComponent := workingComponent.(parenthetical := Some(Inner(line)));
      context := DialogueContext;
    } else {
      workingComponent := workingComponent.(dialogue := Some(line));
      context := DialogueContinued;
    }
  }

  /** The body of `Interpreter.interpret`: the flag check, then the scan. */
  method Components(text: string, flags: map<string, bool>) returns (r: Result<seq<Spoken>>)
    ensures r == ComponentsSpec(text, flags)
  {
    if "ignore_first_char_newline" !in flags {
      return Err(KeyError);
    }
    var body := text;
    if flags["ignore_first_char_newline"] {
      if |text| == 0 {
        return Err(IndexError);
      }
      if text[0] == '\n' {
        body := text[1..];
      }
    }
    var lines := Split(body, '\n');
    var scriptComponents := ScanLines(lines);
    r := Ok(scriptComponents);
  }

  /** `Interpreter.interpret`: the components are built and dropped, since
      the method has no `return`; only the errors reach the caller. */
  method Interpret(text: string, flags: map<string, bool>) returns (r: Result<Unit>)
    ensures r.Err? <==> ComponentsSpec(text, flags).Err?
    ensures r.Err? ==> r.error == ComponentsSpec(text, flags).error
  {
    var scriptComponents := Components(text, flags);
    if scriptComponents.Err? {
      return Err(scriptComponents.error);
    }
    r := Ok(Unit);
  }

  /** `Interpreter.parse_single_line`: `ValueError` without a colon or without
      text after it once stripped; nothing is returned otherwise. */
  function ParseSingleLine(text: string): (r: Result<Unit>)
    ensures r.Err? ==> r.error == ValueError
    ensures r.Err? <==> |SplitOnce(text, ':')| == 1 || Strip(SplitOnce(text, ':')[1]) == []
  {
    var colonSplit := SplitOnce(text, ':');
    if |colonSplit| == 1 then Err(ValueError)
    else if Strip(colonSplit[1]) == [] then Err(ValueError)
    else Ok(Unit)
  }
}
