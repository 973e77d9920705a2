/** `Performance.generate_dialogue` and `components_to_str`: the performance
    side of generation, which asks the generator for lines and writes them
    into the timeline. */
module PerformanceGeneration {
  import opened Errors
  import opened Constants
  import opened ScriptComponent
  import Dialogue
  import Performance
  import Generator
  import Performers

  /** What `generate_dialogue` hands back, as `return_as` selects it: the
      component list, the rendered script, or Python's `None`. */
  datatype Returned =
    | AsList(components: seq<Component>)
    | AsText(text: string)
    | NoValue

  /** The spellings of `return_as` that select the rendered script. */
  predicate IsTextRequest(returnAs: string) {
    returnAs == "str" || returnAs == "string" || returnAs == "text"
  }

  /** The dialogue lines carried by components that are all lines; putting
      them back into components gives the same list. */
  function LinesOf(cs: seq<Component>): (r: seq<Dialogue.Dialogue>)
    requires forall c :: c in cs ==> c.Line?
    ensures Performance.AsComponents(r) == cs
  {
    assert forall i :: 0 <= i < |cs| ==> cs[i] in cs;
    seq(|cs|, i requires 0 <= i < |cs| && forall c :: c in cs ==> c.Line? => cs[i].line)
  }

  /** `components_to_str`, in the performance's own format. */
  method ComponentsToStr(p: Performance.Performance, components: seq<Component>)
    returns (r: string)
    ensures r == Generator.Rendered(components, p.scriptFormat)
  {
    r := Generator.Generator.ComponentsToStr(components, p.scriptFormat);
  }

  /** `generate_dialogue`: generate, append every generated line to the
      timeline (and its speaker to the history), then hand the lines back in
      the requested form. Errors of the generator propagate and leave the
      timeline as it was. `generated` names the lines that were produced;
      round `i` of the generation asked `picks[i]`, one of the candidates
      when the call began, whose backend answered `replies[i]`, from which
      `rounds[i]` was read. */
  method GenerateDialogue(p: Performance.Performance, filters: Generator.FilterRegistry,
                          readPrompt: string -> string, numLines: int, returnAs: string)
    returns (r: Result<Returned>, ghost generated: seq<Component>, ghost rounds: seq<seq<Component>>,
             ghost picks: seq<Performers.Performer>, ghost replies: seq<string>)
    requires p.Valid()
    modifies p, p.chatbots, filters
    ensures p.Valid()
    ensures old(p.botPerformers) == [] ==> r == Err(AssertionError)
    ensures (old(p.botPerformers) != [] && numLines > 0 &&
             old(p.characterHistory) == []) ==> r == Err(IndexError)
    ensures r.Err? ==>
              p.workingScript == old(p.workingScript) && p.characterHistory == old(p.characterHistory)
    ensures r.Ok? ==>
              && (forall c :: c in generated ==> c.Line?)
              && (numLines > 0 <==> generated != [])
              && p.workingScript == old(p.workingScript) + generated
              && p.characterHistory == old(p.characterHistory) +
                   Performance.Speakers(LinesOf(generated))
    ensures r.Ok? && returnAs == "list" ==> r.value == AsList(generated)
    ensures r.Ok? && IsTextRequest(returnAs) ==>
              r.value == AsText(Generator.Rendered(generated, p.scriptFormat))
    ensures r.Ok? && returnAs != "list" && !IsTextRequest(returnAs) ==> r.value == NoValue
    ensures p.SettingsKept()
    ensures p.botPerformers == old(p.botPerformers) && p.humanPerformers == old(p.humanPerformers)
    ensures p.performers == old(p.performers) && p.performerOrder == old(p.performerOrder)
    ensures p.chatbots == old(p.chatbots) && |p.chatbotStates| == |old(p.chatbotStates)|
    ensures Generator.MarksAdvance(p)
    ensures Generator.Asked(p, rounds, picks, replies)
    ensures forall i :: 0 <= i < |picks| ==>
              old(Generator.Candidates(p)).Ok? && picks[i] in old(Generator.Candidates(p)).value
    ensures r.Ok? && numLines > 0 ==>
              |rounds| == numLines && generated == rounds[numLines - 1] && Generator.HeardLast(p, picks, replies)
  {
    var dialogueComponents;
    dialogueComponents, rounds, picks, replies := Generator.Generator.Generate(p, filters, readPrompt, numLines);
    if dialogueComponents.Err? {
      return Err(dialogueComponents.error), [], rounds, picks, replies;
    }
    var components := dialogueComponents.value;
    generated := components;
    r := AddGenerated(p, components, returnAs, rounds, picks, replies);
  }

  /** The part of `generate_dialogue` after generation: the lines go to the
      timeline through `add_dialogue`, and come back in the requested form. */
  method AddGenerated(p: Performance.Performance, components: seq<Component>, returnAs: string,
                      ghost rounds: seq<seq<Component>>, ghost picks: seq<Performers.Performer>,
                      ghost replies: seq<string>)
    returns (r: Result<Returned>)
    requires p.Valid() && forall c :: c in components ==> c.Line?
    modifies p
    ensures p.Valid() && p.OnlyTimelineMoved()
    ensures p.workingScript == old(p.workingScript) + components
    ensures p.characterHistory == old(p.characterHistory) + Performance.Speakers(LinesOf(components))
    ensures returnAs == "list" ==> r == Ok(AsList(components))
    ensures IsTextRequest(returnAs) ==> r == Ok(AsText(Generator.Rendered(components, p.scriptFormat)))
    ensures returnAs != "list" && !IsTextRequest(returnAs) ==> r == Ok(NoValue)
    ensures Generator.Asked(p, rounds, picks, replies) == old(Generator.Asked(p, rounds, picks, replies))
    ensures Generator.HeardLast(p, picks, replies) == old(Generator.HeardLast(p, picks, replies))
  {
    var added := p.AddDialogue(Performance.DialogueList(LinesOf(components)));
    assert Generator.Asked(p, rounds, picks, replies) == old(Generator.Asked(p, rounds, picks, replies));
    assert Generator.HeardLast(p, picks, replies) == old(Generator.HeardLast(p, picks, replies));
    hide *;
    if returnAs == "list" {
      r := Ok(AsList(components));
    } else if IsTextRequest(returnAs) {
      var text := ComponentsToStr(p, components);
      r := Ok(AsText(text));
    } else {
      r := Ok(NoValue);
    }
  }
}
