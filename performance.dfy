/** A performance: the append-only working script, who has spoken, the
    performers keyed by upper-cased name, and one context mark per backend. */
module Performance {
  import opened Text
  import opened Errors
  import opened Constants
  import opened ScriptComponent
  import Dialogue
  import Interpreter
  import Backend
  import opened Performers

  /** What `add_dialogue` is given. */
  datatype DialogueInput =
    | DialogueList(lines: seq<Dialogue.Dialogue>)   // a list of `Dialogue` objects only
    | Text(text: string)                            // a string to interpret
    | Single(line: Dialogue.Dialogue)               // one line

  /** The dictionary's keys are exactly the entries of `order`, each once, in
      insertion order. */
  ghost predicate Registry(performers: map<string, Performer>, order: seq<string>) {
    && (forall k :: k in performers <==> k in order)
    && (forall i, j :: 0 <= i < j < |order| ==> order[i] != order[j])
  }

  /** Upper-case every name. */
  function Speakers(lines: seq<Dialogue.Dialogue>): (r: seq<string>)
    ensures |r| == |lines|
    ensures forall i :: 0 <= i < |lines| ==> r[i] == Upper(lines[i].characterName)
  {
    seq(|lines|, i requires 0 <= i < |lines| => Upper(lines[i].characterName))
  }

  function AsComponents(lines: seq<Dialogue.Dialogue>): (r: seq<Component>)
    ensures |r| == |lines|
    ensures forall i :: 0 <= i < |lines| ==> r[i] == Line(lines[i])
  {
    seq(|lines|, i requires 0 <= i < |lines| => Line(lines[i]))
  }

  class Performance {
    var workingScript: seq<Component>
    var scriptFormat: ScriptFormat
    var numLines: int
    var chatbots: seq<Backend.Chatbot>
    /** How many components of the working script each backend has seen. */
    var chatbotStates: seq<int>
    var modelConfig: Option<Backend.Config>
    var performanceChatbotIndex: nat
    var performers: map<string, Performer>
    /** The dictionary's insertion order. */
    var performerOrder: seq<string>
    var botPerformers: seq<Performer>
    var humanPerformers: seq<Performer>
    var characterHistory: seq<string>
    /** The heading attempt of the interpreter the performance uses. */
    const heading: Interpreter.HeadingParser

    /** One mark per backend, each within the working script; every key is
        the upper-cased name of the bot or human stored under it. */
    ghost predicate Valid()
      reads this
    {
      && |chatbots| == |chatbotStates|
      && (forall i :: 0 <= i < |chatbotStates| ==> 0 <= chatbotStates[i] <= |workingScript|)
      && Registry(performers, performerOrder)
      && (forall k :: k in performers ==>
            k == Upper(performers[k].characterName) && performers[k].kind != BaseKind)
    }

    /** The settings no mutator of the performance touches: the format, the
        line count, the fallback configuration and its backend. */
    twostate predicate SettingsKept()
      reads this
    {
      && scriptFormat == old(scriptFormat) && numLines == old(numLines)
      && modelConfig == old(modelConfig) && performanceChatbotIndex == old(performanceChatbotIndex)
    }

    /** Everything but the timeline (the working script and who has spoken)
        is as it was: the settings, the backends with their marks, and the
        performers. */
    twostate predicate OnlyTimelineMoved()
      reads this
    {
      && SettingsKept()
      && chatbots == old(chatbots) && chatbotStates == old(chatbotStates)
      && performers == old(performers) && performerOrder == old(performerOrder)
      && botPerformers == old(botPerformers) && humanPerformers == old(humanPerformers)
    }

    /** The performers in dictionary order. */
    function OrderedPerformers(): (r: seq<Performer>)
      reads this
      requires Valid()
      ensures |r| == |performerOrder|
      ensures forall i :: 0 <= i < |r| ==> r[i] == performers[performerOrder[i]]
    {
      seq(|performerOrder|, i requires 0 <= i < |performerOrder| && Valid() reads this =>
            performers[performerOrder[i]])
    }

    /** A new performance is empty; with a model configuration it opens a
        backend, told not to keep its own replies in context, and uses it as
        the fallback. */
    constructor(modelConfig: Option<Backend.Config>, heading: Interpreter.HeadingParser)
      ensures Valid()
      ensures workingScript == [] && characterHistory == [] && performers == map[]
      ensures botPerformers == [] && humanPerformers == []
      ensures scriptFormat == Fountain && numLines == 0 && this.heading == heading
      ensures modelConfig.None? ==>
                chatbots == [] && chatbotStates == [] && performanceChatbotIndex == 0 &&
                this.modelConfig == None
      ensures modelConfig.Some? ==>
                && this.modelConfig == Some(modelConfig.value.(keepResponseInContext := false))
                && |chatbots| == 1 && fresh(chatbots[0]) && chatbotStates == [0]
                && chatbots[0].config == this.modelConfig.value
                && performanceChatbotIndex == 0
    {
      workingScript := [];
      scriptFormat := Fountain;
      numLines := 0;
      chatbots := [];
      chatbotStates := [];
      performanceChatbotIndex := 0;
      performers := map[];
      performerOrder := [];
      botPerformers := [];
      humanPerformers := [];
      characterHistory := [];
      this.heading := heading;
      this.modelConfig := None;
      new;
      var config := modelConfig;
      if config.Some? {
        config := Some(config.value.(keepResponseInContext := false));
        performanceChatbotIndex := InitChatbot(config.value);
      }
      this.modelConfig := config;
    }

    /** `_init_chatbot`: a new backend with mark 0, at the end of the list. */
    method InitChatbot(config: Backend.Config) returns (chatbotIndex: nat)
      requires Valid()
      modifies this
      ensures Valid()
      ensures |chatbots| == |old(chatbots)| + 1 && chatbots[..|old(chatbots)|] == old(chatbots)
      ensures chatbotIndex == |chatbots| - 1
      ensures fresh(chatbots[chatbotIndex]) && chatbots[chatbotIndex].config == config
      ensures chatbotStates == old(chatbotStates) + [0]
      ensures workingScript == old(workingScript) && performers == old(performers)
      ensures performerOrder == old(performerOrder) && botPerformers == old(botPerformers)
      ensures humanPerformers == old(humanPerformers) && characterHistory == old(characterHistory)
      ensures modelConfig == old(modelConfig) && scriptFormat == old(scriptFormat)
      ensures performanceChatbotIndex == old(performanceChatbotIndex) && numLines == old(numLines)
    {
      var chatbot := new Backend.Chatbot(config);
      chatbots := chatbots + [chatbot];
      chatbotStates := chatbotStates + [0];
      chatbotIndex := |chatbots| - 1;
    }

    /** Store `performer` under `key`; a new key goes to the end of the
        order, a known one keeps its place. */
    method Register(key: string, performer: Performer)
      requires Valid() && key == Upper(performer.characterName) && performer.kind != BaseKind
      modifies this
      ensures Valid()
      ensures performers == old(performers)[key := performer]
      ensures performerOrder == if key in old(performers) then old(performerOrder)
                                else old(performerOrder) + [key]
      ensures workingScript == old(workingScript) && chatbots == old(chatbots)
      ensures chatbotStates == old(chatbotStates) && botPerformers == old(botPerformers)
      ensures humanPerformers == old(humanPerformers) && characterHistory == old(characterHistory)
      ensures modelConfig == old(modelConfig) && scriptFormat == old(scriptFormat)
      ensures performanceChatbotIndex == old(performanceChatbotIndex) && numLines == old(numLines)
    {
      if key !in performers {
        performerOrder := performerOrder + [key];
      }
      performers := performers[key := performer];
    }

    /** `add_bot_performer` */
    method AddBotPerformer(performer: Performer)
      requires Valid() && performer.kind == BotKind
      modifies this, performer
      ensures Valid()
      ensures GetPerformer(Upper(performer.characterName)) == Ok(performer)
      ensures performers == old(performers)[Upper(performer.characterName) := performer]
      ensures botPerformers == old(botPerformers) + [performer]
      ensures humanPerformers == old(humanPerformers)
      ensures performer.modelConfig.None? ==>
                chatbots == old(chatbots) && chatbotStates == old(chatbotStates) &&
                performer.chatbotIndex == old(performer.chatbotIndex)
      ensures performer.modelConfig.Some? ==>
                && |chatbots| == |old(chatbots)| + 1
                && chatbots[..|old(chatbots)|] == old(chatbots)
                && chatbotStates == old(chatbotStates) + [0]
                && performer.chatbotIndex == |chatbots| - 1
                && fresh(chatbots[performer.chatbotIndex])
                && chatbots[performer.chatbotIndex].config == performer.modelConfig.value
      ensures performerOrder == if Upper(performer.characterName) in old(performers) then old(performerOrder)
                                else old(performerOrder) + [Upper(performer.characterName)]
      ensures workingScript == old(workingScript) && characterHistory == old(characterHistory)
      ensures SettingsKept()
    {
      Register(Upper(performer.characterName), performer);
      botPerformers := botPerformers + [performer];
      if performer.modelConfig.Some? {
        var chatbotIndex := InitChatbot(performer.modelConfig.value);
        performer.chatbotIndex := chatbotIndex;
      }
    }

    /** `add_human_performer` */
    method AddHumanPerformer(performer: Performer)
      requires Valid() && performer.kind == HumanKind
      modifies this
      ensures Valid()
      ensures GetPerformer(Upper(performer.characterName)) == Ok(performer)
      ensures performers == old(performers)[Upper(performer.characterName) := performer]
      ensures humanPerformers == old(humanPerformers) + [performer]
      ensures botPerformers == old(botPerformers)
      ensures performerOrder == if Upper(performer.characterName) in old(performers) then old(performerOrder)
                                else old(performerOrder) + [Upper(performer.characterName)]
      ensures chatbots == old(chatbots) && chatbotStates == old(chatbotStates)
      ensures workingScript == old(workingScript) && characterHistory == old(characterHistory)
      ensures SettingsKept()
    {
      Register(Upper(performer.characterName), performer);
      humanPerformers := humanPerformers + [performer];
    }

    /** `add_performer`: bots and humans go to their own lists; any other
        performer is ignored. */
    method AddPerformer(performer: Performer)
      requires Valid()
      modifies this, performer
      ensures Valid()
      ensures performer.kind == BotKind ==> botPerformers == old(botPerformers) + [performer]
      ensures performer.kind != BotKind ==> botPerformers == old(botPerformers)
      ensures performer.kind == HumanKind ==> humanPerformers == old(humanPerformers) + [performer]
      ensures performer.kind != HumanKind ==> humanPerformers == old(humanPerformers)
      ensures performer.kind == BaseKind ==>
                performers == old(performers) && performerOrder == old(performerOrder) && chatbots == old(chatbots)
      ensures performer.kind != BaseKind ==>
                && performers == old(performers)[Upper(performer.characterName) := performer]
                && performerOrder == if Upper(performer.characterName) in old(performers) then old(performerOrder)
                                     else old(performerOrder) + [Upper(performer.characterName)]
      ensures performer.kind == BotKind && performer.modelConfig.Some? ==>
                && |chatbots| == |old(chatbots)| + 1
                && chatbots[..|old(chatbots)|] == old(chatbots)
                && chatbotStates == old(chatbotStates) + [0]
                && performer.chatbotIndex == |chatbots| - 1
                && fresh(chatbots[performer.chatbotIndex])
                && chatbots[performer.chatbotIndex].config == performer.modelConfig.value
      ensures !(performer.kind == BotKind && performer.modelConfig.Some?) ==>
                && chatbots == old(chatbots) && chatbotStates == old(chatbotStates)
                && performer.chatbotIndex == old(performer.chatbotIndex)
      ensures workingScript == old(workingScript) && characterHistory == old(characterHistory)
      ensures SettingsKept()
    {
      if performer.kind == BotKind {
        AddBotPerformer(performer);
      } else if performer.kind == HumanKind {
        AddHumanPerformer(performer);
      }
    }

    /** `add_component`: one component at the end of the working script. */
    method AddComponent(component: Component)
      requires Valid()
      modifies this
      ensures Valid()
      ensures workingScript == old(workingScript) + [component]
      ensures characterHistory == old(characterHistory)
      ensures OnlyTimelineMoved()
    {
      workingScript := workingScript + [component];
    }

    /** `set_scene`: the first heading the interpreter finds in the text. */
    method SetScene(sceneHeader: string) returns (r: Result<Unit>)
      requires Valid()
      modifies this
      ensures Valid()
      ensures r.Ok? <==> FirstOfType(heading, sceneHeader, HeadingType).Ok?
      ensures r.Err? ==> r.error == FirstOfType(heading, sceneHeader, HeadingType).error
      ensures r.Ok? ==>
                workingScript == old(workingScript) + [FirstOfType(heading, sceneHeader, HeadingType).value]
      ensures r.Err? ==> workingScript == old(workingScript)
      ensures characterHistory == old(characterHistory)
      ensures OnlyTimelineMoved()
    {
      var components := Interpreter.Interpreter.Interpret(heading, sceneHeader, {}, Some(HeadingType));
      InterpretWithoutFlags(heading, sceneHeader, HeadingType);
      if components.value == [] {
        return Err(IndexError);
      }
      AddComponent(components.value[0]);
      r := Ok(Unit);
    }

    /** `add_description`: the first action the interpreter finds in the text. */
    method AddDescription(description: string) returns (r: Result<Unit>)
      requires Valid()
      modifies this
      ensures Valid()
      ensures r.Ok? <==> FirstOfType(heading, description, ActionType).Ok?
      ensures r.Err? ==> r.error == FirstOfType(heading, description, ActionType).error
      ensures r.Ok? ==>
                workingScript == old(workingScript) + [FirstOfType(heading, description, ActionType).value]
      ensures r.Err? ==> workingScript == old(workingScript)
      ensures characterHistory == old(characterHistory)
      ensures OnlyTimelineMoved()
    {
      var components := Interpreter.Interpreter.Interpret(heading, description, {}, Some(ActionType));
      InterpretWithoutFlags(heading, description, ActionType);
      if components.value == [] {
        return Err(IndexError);
      }
      AddComponent(components.value[0]);
      r := Ok(Unit);
    }

    /** `add_dialogue`.  A list adds each line in order; a string adds the
        first line of dialogue the interpreter finds in it, and a string with
        none raises `IndexError`, which the `ValueError` handler lets through.
        Each line added also records its upper-cased speaker. */
    method AddDialogue(dialogue: DialogueInput) returns (r: Result<bool>)
      requires Valid()
      modifies this
      ensures Valid()
      ensures dialogue.DialogueList? ==>
                && r == Ok(true)
                && workingScript == old(workingScript) + AsComponents(dialogue.lines)
                && characterHistory == old(characterHistory) + Speakers(dialogue.lines)
      ensures dialogue.Single? ==>
                && r == Ok(true)
                && workingScript == old(workingScript) + [Line(dialogue.line)]
                && characterHistory == old(characterHistory) + [Upper(dialogue.line.characterName)]
      ensures dialogue.Text? ==>
                var found := FirstOfType(heading, dialogue.text, DialogueType);
                && (found.Ok? ==> r == Ok(true))
                && (found.Err? ==> r == Err(IndexError))
                && (found.Ok? ==>
                      && workingScript == old(workingScript) + [found.value]
                      && characterHistory == old(characterHistory) + [Upper(found.value.line.characterName)])
                && (found.Err? ==>
                      workingScript == old(workingScript) && characterHistory == old(characterHistory))
      ensures OnlyTimelineMoved()
    {
      match dialogue
      case DialogueList(lines) =>
        for i := 0 to |lines|
          invariant Valid()
          invariant workingScript == old(workingScript) + AsComponents(lines[..i])
          invariant characterHistory == old(characterHistory) + Speakers(lines[..i])
          invariant OnlyTimelineMoved()
        {
          AddLine(lines[i]);
          assert AsComponents(lines[..i + 1]) == AsComponents(lines[..i]) + [Line(lines[i])];
          assert Speakers(lines[..i + 1]) == Speakers(lines[..i]) + [Upper(lines[i].characterName)];
        }
        assert lines[..|lines|] == lines;
        r := Ok(true);
      case Text(text) =>
        var components := Interpreter.Interpreter.Interpret(heading, text, {}, Some(DialogueType));
        InterpretWithoutFlags(heading, text, DialogueType);
        if components.value == [] {
          return Err(IndexError);
        }
        OfTypeOnly(heading, text, DialogueType);
        assert components.value[0] in components.value;
        AddLine(components.value[0].line);
        r := Ok(true);
      case Single(line) =>
        AddLine(line);
        r := Ok(true);
    }

    /** The single-line case of `add_dialogue`. */
    method AddLine(line: Dialogue.Dialogue)
      requires Valid()
      modifies this
      ensures Valid()
      ensures workingScript == old(workingScript) + [Line(line)]
      ensures characterHistory == old(characterHistory) + [Upper(line.characterName)]
      ensures OnlyTimelineMoved()
    {
      AddComponent(Line(line));
      characterHistory := characterHistory + [Upper(line.characterName)];
    }

    /** `get_performer`: the performer stored under exactly this key. */
    function GetPerformer(characterName: string): (r: Result<Performer>)
      reads this
      ensures r.Ok? <==> characterName in performers
      ensures r.Ok? ==> r.value == performers[characterName]
      ensures r.Err? ==> r.error == PerformerNotFound
    {
      if characterName !in performers then Err(PerformerNotFound)
      else Ok(performers[characterName])
    }

    /** `extract_speech_from_dialogue`: the speech pieces of the line, in
        order, with the parentheticals dropped. */
    static method ExtractSpeechFromDialogue(dialogue: Dialogue.Dialogue) returns (spokenDialogue: string)
      ensures spokenDialogue == Dialogue.SpeechOf(Dialogue.SplitParens(dialogue.dialogue))
    {
      var subcomponents := Dialogue.SplitParensAndDialogue(dialogue);
      spokenDialogue := "";
      for i := 0 to |subcomponents|
        invariant spokenDialogue == Dialogue.SpeechOf(subcomponents[..i])
      {
        var subcomponent := subcomponents[i];
        if subcomponent.kind == Dialogue.Speech {
          spokenDialogue := spokenDialogue + subcomponent.text;
        }
        Dialogue.SpeechPrefixStep(subcomponents, i);
      }
      assert subcomponents[..|subcomponents|] == subcomponents;
    }
  }

  /** The first component of type `t` that `interpret(text, as_type=t)`
      returns; `IndexError` when there is none. */
  function FirstOfType(heading: Interpreter.HeadingParser, text: string, t: ComponentType)
    : (r: Result<Component>)
    ensures r.Ok? ==> TypeOf(r.value) == t
    ensures r.Err? ==> r.error == IndexError
  {
    match Interpreter.InterpretSpec(heading, text, {}, Some(t))
    case Err(e) => Err(e)
    case Ok(cs) => if cs == [] then Err(IndexError) else (OfTypeOnly(heading, text, t); Ok(cs[0]))
  }

  /** Without flags the interpreter never raises: only the newline flag can
      make it read the first character of an empty text. */
  lemma InterpretWithoutFlags(heading: Interpreter.HeadingParser, text: string, t: ComponentType)
    ensures Interpreter.InterpretSpec(heading, text, {}, Some(t)).Ok?
  {
  }

  lemma OfTypeOnly(heading: Interpreter.HeadingParser, text: string, t: ComponentType)
    requires Interpreter.InterpretSpec(heading, text, {}, Some(t)).Ok?
    ensures forall c :: c in Interpreter.InterpretSpec(heading, text, {}, Some(t)).value ==> TypeOf(c) == t
  {
  }

  // ------------------------------------- with the heading parser of SceneHeader.py

  /** With this parser every non-blank line is a heading, so no action is ever
      found and `add_description` always raises `IndexError`. */
  lemma DescriptionNeverFound(text: string)
    ensures FirstOfType(Interpreter.SceneHeaderParser(), text, ActionType) == Err(IndexError)
  {
    var lines := Split(text, '\n');
    Interpreter.SceneHeadingsOnly(lines);
    var cs := Interpreter.Headings(Interpreter.SceneHeaderParser(), lines, |lines|);
    OfTypeNone(cs, ActionType);
  }

  /** Likewise no line of dialogue is found in a string, so `add_dialogue` on a
      string always raises `IndexError` and adds nothing. */
  lemma DialogueTextNeverFound(text: string)
    ensures FirstOfType(Interpreter.SceneHeaderParser(), text, DialogueType) == Err(IndexError)
  {
    Interpreter.SceneHeadingsOnly(Split(text, '\n'));
  }

  /** `set_scene` succeeds exactly when the text has a non-blank line, and
      stores the heading read from the first one. */
  lemma SceneFromFirstLine(text: string)
    ensures FirstOfType(Interpreter.SceneHeaderParser(), text, HeadingType).Ok? <==>
            !AllBlank(Split(text, '\n'), |Split(text, '\n')|)
  {
    var lines := Split(text, '\n');
    var h := Interpreter.SceneHeaderParser();
    var cs := Interpreter.Headings(h, lines, |lines|);
    assert Interpreter.InterpretSpec(h, text, {}, Some(HeadingType)) == Ok(OfType(cs, HeadingType)) by {
      assert Interpreter.Prepared(text, {}) == Ok(text);
      Interpreter.SceneHeadingsOnly(lines);
    }
    OfTypeOfUniform(cs, HeadingType);
    HeadingsEmpty(h, lines, |lines|);
  }

  /** The first `n` lines are blank once stripped. */
  predicate AllBlank(lines: seq<string>, n: nat)
    requires n <= |lines|
  {
    n == 0 || (AllBlank(lines, n - 1) && Strip(lines[n - 1]) == [])
  }

  lemma {:induction false} HeadingsEmpty(h: Interpreter.HeadingParser, lines: seq<string>, n: nat)
    requires n <= |lines|
    requires forall j :: 0 <= j < n ==> Strip(lines[j]) == [] || h(Strip(lines[j])).Some?
    ensures |Interpreter.Headings(h, lines, n)| == 0 <==> AllBlank(lines, n)
  {
    if n > 0 {
      HeadingsEmpty(h, lines, n - 1);
      HeadingsEmptyStep(h, lines, n);
    }
  }

  lemma HeadingsEmptyStep(h: Interpreter.HeadingParser, lines: seq<string>, n: nat)
    requires 0 < n <= |lines|
    requires forall j :: 0 <= j < n ==> Strip(lines[j]) == [] || h(Strip(lines[j])).Some?
    requires |Interpreter.Headings(h, lines, n - 1)| == 0 <==> AllBlank(lines, n - 1)
    ensures |Interpreter.Headings(h, lines, n)| == 0 <==> AllBlank(lines, n)
  {
    var line := Strip(lines[n - 1]);
    assert |Interpreter.Headings(h, lines, n)| ==
           |Interpreter.Headings(h, lines, n - 1)| + (if line == [] then 0 else 1);
  }

  /** `get_performer` does not upper-case: a name with a lower-case letter is
      never found, since every key is an upper-cased name. */
  lemma LookupIsExact(p: Performance, characterName: string, i: nat)
    requires p.Valid() && i < |characterName| && IsLowerChar(characterName[i])
    ensures p.GetPerformer(characterName) == Err(PerformerNotFound)
  {
  }
}
