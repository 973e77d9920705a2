/** The first generation controller (`Generator.py`): the same mark logic and
    pick rule as the current generator, one send per line with no retry, and a
    catch-up prompt rendered in the performance's own format.  Its reply
    parse goes through the first interpreter, which returns nothing; the
    controller therefore takes its parse as a parameter, and the two ways of
    filling it are defined at the end of the module. */
module LegacyGenerator {
  import opened Text
  import opened Errors
  import opened Constants
  import opened ScriptComponent
  import Dialogue
  import Interpreter
  import LegacyInterpreter
  import Backend
  import opened Performers
  import PromptContext
  import Performance
  import opened Generator

  /** How a reply is read: the reply text and the parser flags give the
      components found in it, or the error raised on the way. */
  type Parse = (string, map<string, bool>) -> Result<seq<Component>>

  /** The lines of dialogue `parse` reads from a backend's reply to a
      prompt that cued `performer`, or the error it raised on the way. */
  function ParsedReply(parse: Parse, fmt: ScriptFormat, backendName: string, performer: Performer,
                       response: string): Result<seq<Component>>
  {
    match parse(Cue(Some(performer), fmt) + response, ParserFlags(backendName))
    case Ok(cs) => Ok(OfType(cs, DialogueType))
    case Err(e) => Err(e)
  }

  /** Round `i` asked the bot `picks[i]`, one of the candidates, whose
      backend received the reply `replies[i]`, and `parse` read `rounds[i]`
      from it. */
  ghost predicate HeardParsed(p: Performance.Performance, parse: Parse, rounds: seq<seq<Component>>,
                        picks: seq<Performer>, replies: seq<string>)
    reads p, p.chatbots, set i | 0 <= i < |picks| :: picks[i]
  {
    && p.Valid() && |picks| == |rounds| && |replies| == |rounds|
    && forall i :: 0 <= i < |rounds| ==>
         && Pickable(p, picks[i])
         && picks[i] in p.botPerformers
         && picks[i].chatbotIndex < |p.chatbots|
         && replies[i] in p.chatbots[picks[i].chatbotIndex].replies
         && ParsedReply(parse, p.scriptFormat, p.chatbots[picks[i].chatbotIndex].name, picks[i], replies[i])
              == Ok(rounds[i])
  }

  /** One more round heard. */
  lemma HeardParsedSnoc(p: Performance.Performance, parse: Parse, rounds: seq<seq<Component>>, picks: seq<Performer>,
                  replies: seq<string>, round: seq<Component>, pick: Performer, reply: string)
    requires HeardParsed(p, parse, rounds, picks, replies)
    requires Pickable(p, pick)
    requires pick in p.botPerformers && pick.chatbotIndex < |p.chatbots|
    requires reply in p.chatbots[pick.chatbotIndex].replies
    requires ParsedReply(parse, p.scriptFormat, p.chatbots[pick.chatbotIndex].name, pick, reply) == Ok(round)
    ensures HeardParsed(p, parse, rounds + [round], picks + [pick], replies + [reply])
  {
    var rounds', picks', replies' := rounds + [round], picks + [pick], replies + [reply];
    forall i | 0 <= i < |rounds'|
      ensures && Pickable(p, picks'[i])
              && picks'[i] in p.botPerformers
              && picks'[i].chatbotIndex < |p.chatbots|
              && replies'[i] in p.chatbots[picks'[i].chatbotIndex].replies
              && ParsedReply(parse, p.scriptFormat, p.chatbots[picks'[i].chatbotIndex].name, picks'[i],
                             replies'[i]) == Ok(rounds'[i])
    {
      if i < |rounds| {
        assert picks'[i] == picks[i] && replies'[i] == replies[i] && rounds'[i] == rounds[i];
      }
    }
  }

  class LegacyGenerator {
    const performance: Performance.Performance
    /** The template text for a prompt file name. */
    const readPrompt: string -> string
    const parse: Parse
    var queuedPerformer: Option<Performer>

    constructor(performance: Performance.Performance, readPrompt: string -> string, parse: Parse)
      ensures this.performance == performance && this.readPrompt == readPrompt
      ensures this.parse == parse && queuedPerformer == None
    {
      this.performance := performance;
      this.readPrompt := readPrompt;
      this.parse := parse;
      queuedPerformer := None;
    }

    /** `generate`: a fresh generator asked for `maxLines` lines. */
    static method Generate(performance: Performance.Performance, readPrompt: string -> string,
                           parse: Parse, maxLines: int := 0)
      returns (r: Result<seq<Component>>, ghost rounds: seq<seq<Component>>,
               ghost picks: seq<Performer>, ghost replies: seq<string>)
      requires performance.Valid()
      modifies performance, performance.chatbots
      ensures performance.Valid() && OnlyMarksMoved(performance) && MarksAdvance(performance)
      ensures old(performance.botPerformers) == [] ==> r == Err(AssertionError)
      ensures old(performance.botPerformers) != [] && maxLines <= 0 ==>
                r == Ok([]) && performance.chatbotStates == old(performance.chatbotStates)
      ensures (old(performance.botPerformers) != [] && maxLines > 0 &&
               old(performance.characterHistory) == []) ==> r == Err(IndexError)
      ensures r.Ok? ==> forall c :: c in r.value ==> c.Line?
      ensures forall i :: 0 <= i < |rounds| ==> forall c :: c in rounds[i] ==> c.Line?
      ensures HeardParsed(performance, parse, rounds, picks, replies)
      ensures r.Ok? && maxLines > 0 ==>
                |rounds| == maxLines && r.value == rounds[maxLines - 1] && HeardLast(performance, picks, replies)
    {
      var generator := new LegacyGenerator(performance, readPrompt, parse);
      r, rounds, picks, replies := generator.GenerateDialogue(maxLines);
    }

    /** One pass of the loop of `generate_dialogue`: pick the next bot and
        have it speak one line.  `pick` is who spoke and `reply` the last
        reply its backend received, which the line was read from; the
        rounds heard before stay heard. */
    method NextRound(ghost rounds: seq<seq<Component>>, ghost picks: seq<Performer>, ghost replies: seq<string>)
      returns (r: Result<seq<Component>>, ghost pick: Performer, ghost reply: string)
      requires performance.Valid() && performance.botPerformers != []
      requires HeardParsed(performance, parse, rounds, picks, replies)
      modifies this, performance, performance.chatbots
      ensures performance.Valid() && OnlyMarksMoved(performance) && MarksAdvance(performance)
      ensures HeardParsed(performance, parse, rounds, picks, replies)
      ensures old(performance.characterHistory) == [] ==> r == Err(IndexError)
      ensures r.Ok? ==>
                && (forall c :: c in r.value ==> c.Line?)
                && Pickable(performance, pick)
                && pick in performance.botPerformers && pick.chatbotIndex < |performance.chatbots|
                && var log := performance.chatbots[pick.chatbotIndex];
                   && log.replies != [] && reply == log.replies[|log.replies| - 1]
                   && ParsedReply(parse, performance.scriptFormat, log.name, pick, reply) == Ok(r.value)
      ensures r.Ok? ==>
                && HeardParsed(performance, parse, rounds + [r.value], picks + [pick], replies + [reply])
                && HeardLast(performance, picks + [pick], replies + [reply])
    {
      hide PromptFor, ParsedReply;
      pick, reply := performance.botPerformers[0], "";
      var botPerformer := PickNextBotPerformer(performance);
      if botPerformer.Err? {
        return Err(botPerformer.error), pick, reply;
      }
      var performer := botPerformer.value;
      pick := performer;
      CandidatesAreBots(performance);
      ghost var prompt;
      r, prompt, reply := GeneratePerformerLines(performer, 1);
      if r.Ok? {
        HeardParsedSnoc(performance, parse, rounds, picks, replies, r.value, pick, reply);
      }
    }

    /** `generate_dialogue`: with the default of no lines nobody is picked and
        the result is empty; otherwise one pick and one send per line, and
        only the lines of the last round come back.  Round `i` picked
        `picks[i]`, whose backend answered `replies[i]`, from which
        `rounds[i]` was read. */
    method GenerateDialogue(maxLines: int := 0)
      returns (r: Result<seq<Component>>, ghost rounds: seq<seq<Component>>,
               ghost picks: seq<Performer>, ghost replies: seq<string>)
      requires performance.Valid()
      modifies this, performance, performance.chatbots
      ensures performance.Valid() && OnlyMarksMoved(performance) && MarksAdvance(performance)
      ensures old(performance.botPerformers) == [] ==> r == Err(AssertionError)
      ensures old(performance.botPerformers) != [] && maxLines <= 0 ==>
                r == Ok([]) && performance.chatbotStates == old(performance.chatbotStates)
      ensures (old(performance.botPerformers) != [] && maxLines > 0 &&
               old(performance.characterHistory) == []) ==> r == Err(IndexError)
      ensures r.Ok? ==> forall c :: c in r.value ==> c.Line?
      ensures forall i :: 0 <= i < |rounds| ==> forall c :: c in rounds[i] ==> c.Line?
      ensures HeardParsed(performance, parse, rounds, picks, replies)
      ensures r.Ok? && maxLines > 0 ==>
                |rounds| == maxLines && r.value == rounds[maxLines - 1] && HeardLast(performance, picks, replies)
    {
      hide PromptFor, ParsedReply;
      rounds, picks, replies := [], [], [];
      assert HeardParsed(performance, parse, rounds, picks, replies);
      hide HeardParsed, Candidates;
      if |performance.botPerformers| == 0 {
        return Err(AssertionError), rounds, picks, replies;
      }
      var dialogueComponents: seq<Component> := [];
      var lineIndex := 0;
      while lineIndex < maxLines
        invariant performance.Valid() && OnlyMarksMoved(performance) && MarksAdvance(performance)
        invariant forall c :: c in dialogueComponents ==> c.Line?
        invariant lineIndex == 0 ==>
                    dialogueComponents == [] && performance.chatbotStates == old(performance.chatbotStates)
        invariant lineIndex > 0 ==> old(performance.characterHistory) != []
        invariant 0 <= lineIndex && (lineIndex <= maxLines || lineIndex == 0)
        invariant |rounds| == lineIndex && (lineIndex > 0 ==> dialogueComponents == rounds[lineIndex - 1])
        invariant forall i :: 0 <= i < |rounds| ==> forall c :: c in rounds[i] ==> c.Line?
        invariant HeardParsed(performance, parse, rounds, picks, replies)
        invariant lineIndex > 0 ==> HeardLast(performance, picks, replies)
        decreases maxLines - lineIndex
      {
        ghost var performer, reply;
        var lines;
        lines, performer, reply := NextRound(rounds, picks, replies);
        if lines.Err? {
          return Err(lines.error), rounds, picks, replies;
        }
        dialogueComponents := lines.value;
        rounds, picks, replies := rounds + [lines.value], picks + [performer], replies + [reply];
        lineIndex := lineIndex + 1;
      }
      r := Ok(dialogueComponents);
    }

    /** `generate_performer_lines`: one prompt, one send and no retry; the
        reply, primed with the performer's cue, is parsed and only its lines
        of dialogue are kept.  `prompt` names what `prepare_chatbot_prompt`
        built and `response` the backend's reply. */
    method GeneratePerformerLines(performer: Performer, maxLines: int)
      returns (r: Result<seq<Component>>, ghost prompt: string, ghost response: string)
      requires performance.Valid()
      modifies this, performance, performance.chatbots
      ensures performance.Valid() && OnlyMarksMoved(performance) && MarksAdvance(performance)
      ensures performer.chatbotIndex >= |performance.chatbots| ==>
                r == Err(IndexError) && performance.chatbotStates == old(performance.chatbotStates)
      ensures forall j :: 0 <= j < |performance.chatbots| ==>
                old(performance.chatbots[j].replies) <= performance.chatbots[j].replies
      ensures performer.chatbotIndex < |performance.chatbots| ==>
                var i := performer.chatbotIndex;
                var chatbot := performance.chatbots[i];
                && performance.chatbotStates == old(performance.chatbotStates)[i := |performance.workingScript|]
                && prompt == PromptFor(i, old(performance.chatbotStates[i]), Some(performer), maxLines)
                && chatbot.sent == old(chatbot.sent) + [prompt]
                && chatbot.replies == old(chatbot.replies) + [response]
                && r == ParsedReply(parse, performance.scriptFormat, chatbot.name, performer, response)
      ensures r.Ok? ==> forall c :: c in r.value ==> c.Line?
    {
      prompt, response := "", "";
      var prepared := PrepareChatbotPrompt(Some(performer), maxLines);
      if prepared.Err? {
        return Err(prepared.error), prompt, response;
      }
      prompt := prepared.value;
      var found := GetPerformerChatbot(performer);
      r, response := Ask(found.value, performer, prepared.value);
    }

    /** The send and the reading of `generate_performer_lines`: the prompt
        goes to the backend once, and the reply, behind the performer's cue,
        is parsed and only its lines of dialogue are kept. */
    method Ask(chatbot: Backend.Chatbot, performer: Performer, prompt: string)
      returns (r: Result<seq<Component>>, ghost response: string)
      modifies chatbot
      ensures chatbot.sent == old(chatbot.sent) + [prompt]
      ensures chatbot.replies == old(chatbot.replies) + [response]
      ensures r == ParsedReply(parse, performance.scriptFormat, chatbot.name, performer, response)
    {
      var reply := chatbot.SendMessage(prompt);
      response := reply;
      var scriptComponents := ParseChatbotResponse(reply, chatbot, Some(performer));
      if scriptComponents.Err? {
        return Err(scriptComponents.error), response;
      }
      var dialogueComponents := Interpreter.Interpreter.KeepType(scriptComponents.value, DialogueType);
      r := Ok(dialogueComponents);
    }

    /** `get_performer_chatbot` */
    method GetPerformerChatbot(performer: Performer) returns (r: Result<Backend.Chatbot>)
      ensures performer.chatbotIndex < |performance.chatbots| <==> r.Ok?
      ensures r.Ok? ==> r.value == performance.chatbots[performer.chatbotIndex]
      ensures r.Err? ==> r.error == IndexError
    {
      if performer.chatbotIndex >= |performance.chatbots| {
        return Err(IndexError);
      }
      r := Ok(performance.chatbots[performer.chatbotIndex]);
    }

    function ChatbotIndexFor(nextPerformer: Option<Performer>): nat
      reads performance, if nextPerformer.Some? then {nextPerformer.value} else {}
    {
      if nextPerformer.Some? then nextPerformer.value.chatbotIndex
      else performance.performanceChatbotIndex
    }

    /** What `prepare_context` returns for a backend: its template filled with
        the performers in registration order and the whole working script, in
        the performance's format. */
    function ContextFor(chatbot: Backend.Chatbot, maxLines: int): Result<string>
      reads performance
      requires performance.Valid()
    {
      PromptContext.ContextSpec(readPrompt(PromptFile(chatbot.name)), performance.OrderedPerformers(),
                                Rendered(performance.workingScript, performance.scriptFormat), maxLines)
    }

    /** The prompt `prepare_chatbot_prompt` builds for backend `i` whose mark
        was `mark`: the full context, the components past the mark, or
        nothing when the backend is up to date; then the cue. */
    function PromptFor(i: nat, mark: nat, nextPerformer: Option<Performer>, maxLines: int): string
      reads performance
      requires performance.Valid() && i < |performance.chatbots|
    {
      var ws := performance.workingScript;
      if mark == 0 || !performance.chatbots[i].keepContext then
        match ContextFor(performance.chatbots[i], maxLines)
        case Ok(context) => context + Cue(nextPerformer, performance.scriptFormat)
        case Err(_) => ""
      else if mark < |ws| then Rendered(ws[mark..], performance.scriptFormat) + Cue(nextPerformer, performance.scriptFormat)
      else ""
    }

    /** `prepare_chatbot_prompt`.  A backend with mark 0, or one that keeps no
        context, gets the full context; otherwise it gets the components past
        its mark, each followed by the performance's own component break, or
        nothing when it is up to date.  The mark moves to the end of the
        script whenever a prompt is built. */
    method PrepareChatbotPrompt(nextPerformer: Option<Performer>, maxLines: int)
      returns (r: Result<string>)
      requires performance.Valid()
      modifies this, performance
      ensures performance.Valid() && OnlyMarksMoved(performance) && MarksAdvance(performance)
      ensures ChatbotIndexFor(nextPerformer) < |performance.chatbots| ==> r.Ok?
      ensures var i := ChatbotIndexFor(nextPerformer);
              i < |performance.chatbots| ==>
                && performance.chatbotStates == old(performance.chatbotStates)[i := |performance.workingScript|]
                && r == Ok(PromptFor(i, old(performance.chatbotStates[i]), nextPerformer, maxLines))
      ensures var i := ChatbotIndexFor(nextPerformer);
              i >= |performance.chatbots| ==>
                && r == Err(IndexError)
                && performance.chatbotStates == old(performance.chatbotStates)
                && queuedPerformer == old(queuedPerformer)
      ensures var i := ChatbotIndexFor(nextPerformer);
              var ws := performance.workingScript;
              i < |performance.chatbots| &&
              (old(performance.chatbotStates[i]) == 0 || !performance.chatbots[i].keepContext) ==>
                && performance.chatbotStates == old(performance.chatbotStates)[i := |ws|]
                && ContextFor(performance.chatbots[i], maxLines).Ok?
                && r == Ok(ContextFor(performance.chatbots[i], maxLines).value +
                           Cue(nextPerformer, performance.scriptFormat))
                && queuedPerformer == old(queuedPerformer)
      ensures var i := ChatbotIndexFor(nextPerformer);
              var ws := performance.workingScript;
              i < |performance.chatbots| &&
              old(performance.chatbotStates[i]) != 0 && performance.chatbots[i].keepContext ==>
                var mark := old(performance.chatbotStates[i]);
                && (mark < |ws| ==>
                      && performance.chatbotStates == old(performance.chatbotStates)[i := |ws|]
                      && r == Ok(Rendered(ws[mark..], performance.scriptFormat) +
                                 Cue(nextPerformer, performance.scriptFormat))
                      && queuedPerformer == nextPerformer)
                && (mark == |ws| ==>
                      && performance.chatbotStates == old(performance.chatbotStates)
                      && r == Ok("")
                      && queuedPerformer == old(queuedPerformer))
    {
      var chatbotIndex := ChatbotIndexFor(nextPerformer);
      if chatbotIndex >= |performance.chatbots| {
        return Err(IndexError);
      }
      var chatbot := performance.chatbots[chatbotIndex];
      var prompt;
      if performance.chatbotStates[chatbotIndex] == 0 || !chatbot.keepContext {
        prompt := InitializeContext(chatbotIndex, nextPerformer, maxLines);
      } else {
        prompt := CatchUpContext(chatbotIndex, nextPerformer);
      }
      r := Ok(prompt);
    }

    /** The first branch of `prepare_chatbot_prompt`: the mark moves to the
        end of the script before the full context is built. */
    method InitializeContext(chatbotIndex: nat, nextPerformer: Option<Performer>, maxLines: int)
      returns (prompt: string)
      requires performance.Valid() && chatbotIndex < |performance.chatbots|
      modifies performance
      ensures performance.Valid() && OnlyMarksMoved(performance) && MarksAdvance(performance)
      ensures performance.chatbotStates ==
                old(performance.chatbotStates)[chatbotIndex := |performance.workingScript|]
      ensures ContextFor(performance.chatbots[chatbotIndex], maxLines).Ok?
      ensures prompt == ContextFor(performance.chatbots[chatbotIndex], maxLines).value +
                        Cue(nextPerformer, performance.scriptFormat)
    {
      var chatbot := performance.chatbots[chatbotIndex];
      performance.chatbotStates := performance.chatbotStates[chatbotIndex := |performance.workingScript|];
      var context := PrepareContext(chatbot, maxLines);
      prompt := context.value;
      if nextPerformer.Some? {
        prompt := prompt + Upper(nextPerformer.value.characterName);
        prompt := prompt + BreakCharacterName(performance.scriptFormat);
      }
      assert prompt == context.value + Cue(nextPerformer, performance.scriptFormat);
    }

    /** The second branch of `prepare_chatbot_prompt`: each component past
        the mark and a break after it, then the cue. */
    method CatchUpContext(chatbotIndex: nat, nextPerformer: Option<Performer>)
      returns (prompt: string)
      requires performance.Valid() && chatbotIndex < |performance.chatbots|
      modifies this, performance
      ensures performance.Valid() && OnlyMarksMoved(performance) && MarksAdvance(performance)
      ensures var ws := performance.workingScript;
              var mark := old(performance.chatbotStates[chatbotIndex]);
              && (mark < |ws| ==>
                    && performance.chatbotStates == old(performance.chatbotStates)[chatbotIndex := |ws|]
                    && prompt == Rendered(ws[mark..], performance.scriptFormat) +
                                 Cue(nextPerformer, performance.scriptFormat)
                    && queuedPerformer == nextPerformer)
              && (mark == |ws| ==>
                    && performance.chatbotStates == old(performance.chatbotStates)
                    && prompt == ""
                    && queuedPerformer == old(queuedPerformer))
    {
      prompt := "";
      var chatbotState := performance.chatbotStates[chatbotIndex];
      var contextBehind := |performance.workingScript| - chatbotState;
      if contextBehind > 0 {
        var missing := performance.workingScript[chatbotState..];
        prompt := Generator.ComponentsToStr(missing, performance.scriptFormat);
        ghost var rendered := prompt;
        if nextPerformer.Some? {
          prompt := prompt + Upper(nextPerformer.value.characterName);
          prompt := prompt + BreakCharacterName(performance.scriptFormat);
        }
        assert prompt == rendered + Cue(nextPerformer, performance.scriptFormat);
        queuedPerformer := nextPerformer;
        performance.chatbotStates := performance.chatbotStates[chatbotIndex := |performance.workingScript|];
      }
    }

    /** `prepare_context`: it cannot fail, since a performance stores only
        bots and humans. */
    method PrepareContext(chatbot: Backend.Chatbot, maxLines: int) returns (r: Result<string>)
      requires performance.Valid()
      ensures r == ContextFor(chatbot, maxLines)
      ensures r.Ok?
    {
      var promptString := readPrompt(PromptFile(chatbot.name));
      var workingScriptString :=
        Generator.ComponentsToStr(performance.workingScript, performance.scriptFormat);
      r := PromptContext.FillTemplate(promptString, performance.OrderedPerformers(),
                                      workingScriptString, maxLines);
      ContextAccepted(performance);
    }

    /** `parse_chatbot_response`: the flags of the backend and the reply
        behind the performer's cue go to the parse. */
    method ParseChatbotResponse(response: string, chatbot: Backend.Chatbot,
                                nextPerformer: Option<Performer>)
      returns (r: Result<seq<Component>>)
      ensures r == parse(Cue(nextPerformer, performance.scriptFormat) + response, ParserFlags(chatbot.name))
    {
      var flags := ParserFlags(chatbot.name);
      var text := response;
      if nextPerformer.Some? {
        var characterName := Upper(nextPerformer.value.characterName) +
                             BreakCharacterName(performance.scriptFormat);
        text := characterName + response;
      }
      assert text == Cue(nextPerformer, performance.scriptFormat) + response;
      r := parse(text, flags);
    }
  }

  /** Rendering one more component adds its piece. */
  lemma RenderedSnoc(cs: seq<Component>, c: Component, fmt: ScriptFormat)
    ensures Rendered(cs + [c], fmt) == Rendered(cs, fmt) + ToStr(c) + BreakComponent(fmt)
  {
    RenderedAppend(cs, [c], fmt);
    assert [c][..0] == [];
  }

  // --------------------------------------------------- reading the reply

  /** The parse as written: the first interpreter's `interpret` raises what
      it raises on the way in, and otherwise returns `None`, over which the
      generator's filter loop raises `TypeError`. */
  function InterpretAsWritten(text: string, flags: map<string, bool>): (r: Result<seq<Component>>)
    ensures r.Err?
    ensures r == Err(TypeError) <==> LegacyInterpreter.Prepared(text, flags).Ok?
  {
    match LegacyInterpreter.Prepared(text, flags)
    case Err(e) => Err(e)
    case Ok(_) => Err(TypeError)
  }

  /** So every reply the generator reads, whatever the backend and the
      format, ends in `TypeError`: no line is ever generated. */
  lemma ReplyNeverRead(performer: Performer, fmt: ScriptFormat, response: string, backendName: string)
    ensures InterpretAsWritten(Cue(Some(performer), fmt) + response, ParserFlags(backendName)) ==
            Err(TypeError)
  {
    var text := Cue(Some(performer), fmt) + response;
    assert text[|Upper(performer.characterName)|] == BreakCharacterName(fmt)[0];
  }

  /** The parse as intended: the lines of dialogue the first interpreter has
      collected when it finishes, in the dialogue class of the package (which
      has no parenthetical). */
  function InterpretCorrected(text: string, flags: map<string, bool>): (r: Result<seq<Component>>)
    ensures r.Ok? <==> LegacyInterpreter.ComponentsSpec(text, flags).Ok?
    ensures r.Err? ==> r.error == LegacyInterpreter.ComponentsSpec(text, flags).error
    ensures r.Ok? ==> |r.value| == |LegacyInterpreter.ComponentsSpec(text, flags).value|
  {
    match LegacyInterpreter.ComponentsSpec(text, flags)
    case Err(e) => Err(e)
    case Ok(spoken) =>
      Ok(seq(|spoken|, i requires 0 <= i < |spoken| =>
               Line(Dialogue.Dialogue(spoken[i].characterName, spoken[i].dialogue))))
  }

  /** With the intended parse the generator hands back every line the
      interpreter read, in order, each spoken by an upper-case cue and
      holding a speech line. */
  lemma CorrectedKeepsEveryLine(text: string, flags: map<string, bool>)
    requires InterpretCorrected(text, flags).Ok?
    ensures var cs := InterpretCorrected(text, flags).value;
            && OfType(cs, DialogueType) == cs
            && forall c :: c in cs ==>
                 c.Line? && LegacyInterpreter.CueLine(c.line.characterName) &&
                 LegacyInterpreter.SpeechLine(c.line.dialogue)
  {
    var t := LegacyInterpreter.Prepared(text, flags).value;
    var lines := Split(t, '\n');
    LegacyInterpreter.RunFormed(lines, |lines|);
    var spoken := LegacyInterpreter.ComponentsSpec(text, flags).value;
    var cs := InterpretCorrected(text, flags).value;
    forall c | c in cs
      ensures c.Line? && LegacyInterpreter.CueLine(c.line.characterName)
      ensures LegacyInterpreter.SpeechLine(c.line.dialogue)
    {
      var i :| 0 <= i < |cs| && cs[i] == c;
      assert spoken[i] in spoken;
    }
    OfTypeOfUniform(cs, DialogueType);
  }
}
