/** The generator of the current package: it picks the next bot to speak,
    prompts that bot's backend with what the backend has not yet seen, and
    keeps the lines of dialogue that come back. */
module Generator {
  import opened Text
  import opened Errors
  import opened Constants
  import opened ScriptComponent
  import Interpreter
  import Backend
  import opened Performers
  import PromptContext
  import Performance

  // ------------------------------------------------------------ formatting

  /** `break_character_name`: what sits between a speaker's name and the
      speech. */
  function BreakCharacterName(fmt: ScriptFormat): (r: string)
    ensures r != []
    ensures fmt == Minimal ==> r == ": "
    ensures fmt == Fountain ==> r == "\n"
  {
    match fmt
    case Minimal => ": "
    case Fountain => "\n"
  }

  /** `break_component`: what follows every component. */
  function BreakComponent(fmt: ScriptFormat): (r: string)
    ensures r != [] && forall i :: 0 <= i < |r| ==> r[i] == '\n'
    ensures fmt == Minimal ==> |r| == 1
    ensures fmt == Fountain ==> |r| == 2
  {
    match fmt
    case Minimal => "\n"
    case Fountain => "\n\n"
  }

  /** One component's text and the break after it. */
  function Piece(c: Component, fmt: ScriptFormat): string {
    ToStr(c) + BreakComponent(fmt)
  }

  /** Each component's text followed by the break of `fmt`. */
  function Rendered(cs: seq<Component>, fmt: ScriptFormat): string
  {
    ConcatMap(cs, c => Piece(c, fmt))
  }

  /** `f` applied to each element, concatenated. */
  function ConcatMap<T>(xs: seq<T>, f: T -> string): string
  {
    if xs == [] then "" else ConcatMap(xs[..|xs| - 1], f) + f(xs[|xs| - 1])
  }

  /** Rendering a concatenation renders each part. */
  lemma RenderedAppend(a: seq<Component>, b: seq<Component>, fmt: ScriptFormat)
    ensures Rendered(a + b, fmt) == Rendered(a, fmt) + Rendered(b, fmt)
  {
    ConcatMapAppend(a, b, c => Piece(c, fmt));
  }

  lemma {:induction false} ConcatMapAppend<T>(a: seq<T>, b: seq<T>, f: T -> string)
    ensures ConcatMap(a + b, f) == ConcatMap(a, f) + ConcatMap(b, f)
  {
    if b == [] {
      assert a + b == a;
    } else {
      var init, last := b[..|b| - 1], b[|b| - 1];
      var ab := a + b;
      assert ab[..|ab| - 1] == a + init && ab[|ab| - 1] == last;
      ConcatMapAppend(a, init, f);
      var x, y, z := ConcatMap(a, f), ConcatMap(init, f), f(last);
      assert (x + y) + z == x + (y + z);
    }
  }

  /** What a backend was shown up to its mark, followed by the part after the
      mark that catches it up, is the whole script. */
  lemma CatchUp(cs: seq<Component>, mark: nat, fmt: ScriptFormat)
    requires mark <= |cs|
    ensures Rendered(cs[..mark], fmt) + Rendered(cs[mark..], fmt) == Rendered(cs, fmt)
  {
    assert cs[..mark] + cs[mark..] == cs;
    RenderedAppend(cs[..mark], cs[mark..], fmt);
  }

  /** The cue a prompt ends on: the upper-cased name of the next speaker and
      the name break, or nothing when no speaker is named. */
  function Cue(nextPerformer: Option<Performer>, fmt: ScriptFormat): string {
    if nextPerformer.Some? then Upper(nextPerformer.value.characterName) + BreakCharacterName(fmt)
    else ""
  }

  /** The lines of dialogue read from a backend's reply to a prompt that
      cued `performer`: the cue and the reply, read with the heading parser
      and the backend's flag keys, kept to lines of dialogue. */
  function ReplyDialogue(heading: Interpreter.HeadingParser, fmt: ScriptFormat, backendName: string,
                         performer: Performer, response: string): seq<Component>
  {
    match Interpreter.InterpretSpec(heading, Cue(Some(performer), fmt) + response,
                                    ParserFlags(backendName).Keys, None)
    case Ok(cs) => OfType(cs, DialogueType)
    case Err(_) => []
  }

  // ----------------------------------------------------------- the backend

  /** The prompt file `retrieve_chatbot_prompt_base` reads for a backend,
      chosen by its lower-cased name. */
  function PromptFile(backendName: string): (r: string)
    ensures r in {"gpt4all.txt", "rwkv-raven.txt", "gpt2.txt", "minimal-predict.txt"}
    ensures r == "minimal-predict.txt" <==> Lower(backendName) !in {"gpt4all", "rwkv", "gpt2"}
  {
    var key := Lower(backendName);
    if key == "gpt4all" then "gpt4all.txt"
    else if key == "rwkv" then "rwkv-raven.txt"
    else if key == "gpt2" then "gpt2.txt"
    else "minimal-predict.txt"
  }

  /** The file does not depend on the case of the name. */
  lemma PromptFileCaseless(a: string, b: string)
    requires |a| == |b|
    requires forall i :: 0 <= i < |a| ==> LowerChar(a[i]) == LowerChar(b[i])
    ensures PromptFile(a) == PromptFile(b)
  {
    assert Lower(a) == Lower(b);
  }

  const IgnoreNewline := "ignore_first_char_newline"
  const DiscardNames := "discard_multiple_char_names"

  /** The flag dictionary of `parse_chatbot_response`: both keys are always
      present, and set only for gpt2. */
  function ParserFlags(backendName: string): (r: map<string, bool>)
    ensures r.Keys == {IgnoreNewline, DiscardNames}
    ensures r[IgnoreNewline] <==> Lower(backendName) == "gpt2"
    ensures r[DiscardNames] <==> Lower(backendName) == "gpt2"
  {
    var on := Lower(backendName) == "gpt2";
    map[IgnoreNewline := on, DiscardNames := on]
  }

  /** The interpreter only asks whether a flag is present, so every backend
      gets the same parse: the leading newline of the reply is always dropped. */
  lemma FlagValuesUnused(a: string, b: string)
    ensures ParserFlags(a).Keys == ParserFlags(b).Keys
    ensures IgnoreNewline in ParserFlags(a).Keys
  {
  }

  // -------------------------------------------------------------- picking

  /** `list.remove(x)`: the first occurrence of `x` goes, if there is one. */
  function RemoveFirst<T(==)>(xs: seq<T>, x: T): (r: seq<T>)
    ensures x in xs ==> |r| == |xs| - 1 && multiset(r) == multiset(xs) - multiset{x}
    ensures x !in xs ==> r == xs
  {
    if xs == [] then []
    else
      assert xs == [xs[0]] + xs[1..];
      if xs[0] == x then xs[1..] else [xs[0]] + RemoveFirst(xs[1..], x)
  }

  /** Removing a value listed once leaves no copy of it. */
  lemma RemovedOnce<T>(xs: seq<T>, x: T)
    requires multiset(xs)[x] <= 1
    ensures x !in RemoveFirst(xs, x)
  {
    if x in xs {
      assert multiset(RemoveFirst(xs, x))[x] == 0;
    }
  }

  /** Removing one value keeps every other value. */
  lemma RemoveKeepsOthers<T>(xs: seq<T>, x: T, y: T)
    requires y in xs && y != x
    ensures y in RemoveFirst(xs, x)
  {
    if x in xs {
      assert multiset(RemoveFirst(xs, x))[y] == multiset(xs)[y];
    }
  }

  /** Nothing is added by removing. */
  lemma {:induction false} RemovedWasThere<T>(xs: seq<T>, x: T, y: T)
    requires y in RemoveFirst(xs, x)
    ensures y in xs
  {
    if xs != [] && xs[0] != x && y != xs[0] {
      RemovedWasThere(xs[1..], x, y);
    }
  }

  /** Every key is an upper-cased name, so upper-casing a key leaves it. */
  lemma KeyIsUpper(p: Performance.Performance, key: string)
    requires p.Valid() && key in p.performers
    ensures Upper(key) == key
  {
    UpperIdempotent(p.performers[key].characterName);
  }

  /** The bots `pick_next_bot_performer` chooses among: all of them when the
      last speaker is unknown, otherwise all but the first occurrence of the
      last speaker; `IndexError` when nobody has spoken yet. */
  function Candidates(p: Performance.Performance): Result<seq<Performer>>
    reads p
    requires p.Valid()
  {
    var history := p.characterHistory;
    if history == [] then Err(IndexError)
    else
      var last := history[|history| - 1];
      if last !in p.performers then Ok(p.botPerformers)
      else (KeyIsUpper(p, last); Ok(RemoveFirst(p.botPerformers, p.performers[Upper(last)])))
  }

  /** Only bots are chosen among. */
  lemma CandidatesAreBots(p: Performance.Performance)
    requires p.Valid() && Candidates(p).Ok?
    ensures forall b :: b in Candidates(p).value ==> b in p.botPerformers
  {
    var history := p.characterHistory;
    var last := history[|history| - 1];
    if last in p.performers {
      KeyIsUpper(p, last);
      var x := p.performers[last];
      forall b | b in RemoveFirst(p.botPerformers, x) ensures b in p.botPerformers {
        RemovedWasThere(p.botPerformers, x, b);
      }
    }
  }

  /** A bot that spoke last and is listed once is not chosen again, and any
      other bot stays a candidate. */
  lemma LastSpeakerSkipped(p: Performance.Performance, other: Performer)
    requires p.Valid() && p.characterHistory != []
    requires p.characterHistory[|p.characterHistory| - 1] in p.performers
    requires multiset(p.botPerformers)[p.performers[p.characterHistory[|p.characterHistory| - 1]]] <= 1
    ensures Candidates(p).Ok?
    ensures p.performers[p.characterHistory[|p.characterHistory| - 1]] !in Candidates(p).value
    ensures other in p.botPerformers &&
            other != p.performers[p.characterHistory[|p.characterHistory| - 1]] ==>
              other in Candidates(p).value
  {
    var last := p.characterHistory[|p.characterHistory| - 1];
    KeyIsUpper(p, last);
    RemovedOnce(p.botPerformers, p.performers[last]);
    if other in p.botPerformers && other != p.performers[last] {
      RemoveKeepsOthers(p.botPerformers, p.performers[last], other);
    }
  }

  /** Once someone has spoken, a speaker the performance does not know leaves
      every bot a candidate. */
  lemma UnknownSpeakerAllBots(p: Performance.Performance)
    requires p.Valid() && p.characterHistory != []
    requires p.characterHistory[|p.characterHistory| - 1] !in p.performers
    ensures Candidates(p) == Ok(p.botPerformers)
  {
  }

  // ------------------------------------------------------------ filtering

  /** `filter_non_alphabetical`: a line of dialogue needs a letter in its
      speech, any other component a letter in its text. */
  function FilterNonAlphabetical(component: Component): bool {
    HasLetter(if component.Line? then component.line.dialogue else ToStr(component))
  }

  /** A line whose speech has no letter is refused even though its rendering,
      which starts with the speaker's name, has one. */
  lemma SpeechDecidesFilter(name: string, speech: string)
    requires HasLetter(name) && !HasLetter(speech)
    ensures !FilterNonAlphabetical(Line(Dialogue.Dialogue(name, speech)))
    ensures HasLetter(ToStr(Line(Dialogue.Dialogue(name, speech))))
  {
    var i :| 0 <= i < |name| && IsLetter(name[i]);
    var s := ToStr(Line(Dialogue.Dialogue(name, speech)));
    assert s[i] == name[i];
  }

  /** The class-wide `component_filters` list, shared by every generator. */
  class FilterRegistry {
    var componentFilters: seq<Component -> bool>

    constructor()
      ensures componentFilters == []
    {
      componentFilters := [];
    }
  }

  /** The part of the performance a generator leaves alone: everything but the
      backend marks. */
  twostate predicate OnlyMarksMoved(p: Performance.Performance)
    reads p
  {
    && p.workingScript == old(p.workingScript) && p.chatbots == old(p.chatbots)
    && |p.chatbotStates| == |old(p.chatbotStates)|
    && p.performers == old(p.performers) && p.performerOrder == old(p.performerOrder)
    && p.botPerformers == old(p.botPerformers) && p.humanPerformers == old(p.humanPerformers)
    && p.characterHistory == old(p.characterHistory) && p.scriptFormat == old(p.scriptFormat)
    && p.performanceChatbotIndex == old(p.performanceChatbotIndex)
    && p.modelConfig == old(p.modelConfig) && p.numLines == old(p.numLines)
  }

  /** Marks only move forward. */
  twostate predicate MarksAdvance(p: Performance.Performance)
    reads p
    requires |p.chatbotStates| == |old(p.chatbotStates)|
  {
    forall j :: 0 <= j < |p.chatbotStates| ==> old(p.chatbotStates[j]) <= p.chatbotStates[j]
  }

  /** `k` copies of one message. */
  function Copies(m: string, k: nat): (r: seq<string>)
    ensures |r| == k && forall j :: 0 <= j < k ==> r[j] == m
  {
    seq(k, _ => m)
  }

  lemma CopiesSnoc(m: string, k: nat)
    ensures Copies(m, k + 1) == Copies(m, k) + [m]
  {
    assert Copies(m, k + 1)[..k] == Copies(m, k);
  }

  /** The replies in `replies` after `repliesBefore`, one for each message
      in `sent` after `sentBefore`. */
  ghost predicate Answered(sentBefore: seq<string>, sent: seq<string>,
                           repliesBefore: seq<string>, replies: seq<string>) {
    && repliesBefore <= replies
    && |replies| - |repliesBefore| == |sent| - |sentBefore|
  }

  const MaxAttempts := 10

  /** What the retry loop of `generate_performer_lines` leaves behind, on
      the backend's logs before and after: it sent the prompt `k` times and
      got `k` replies, every reply but an accepted last one read as fewer
      than `numLines` lines of dialogue, and the accepted one is the result.
      A local backend gives up after `MaxAttempts` sends, a remote one after
      its first. */
  ghost predicate Retried(heading: Interpreter.HeadingParser, fmt: ScriptFormat, backendName: string,
                          isRemote: bool, performer: Performer, prompt: string, numLines: int,
                          sentBefore: seq<string>, sent: seq<string>,
                          repliesBefore: seq<string>, replies: seq<string>, r: Result<seq<Component>>)
  {
    && Answered(sentBefore, sent, repliesBefore, replies)
    && (r.Err? ==> r.error in {GenerationFailed, RemoteAborted})
    && (r.Ok? ==> exists k :: 1 <= k <= MaxAttempts && sent == sentBefore + Copies(prompt, k))
    && (r == Err(GenerationFailed) ==> !isRemote && sent == sentBefore + Copies(prompt, MaxAttempts))
    && (r == Err(RemoteAborted) ==> isRemote && sent == sentBefore + [prompt])
    && (isRemote ==> r.Ok? || r == Err(RemoteAborted))
    && (forall j :: |repliesBefore| <= j < |replies| - (if r.Ok? then 1 else 0) ==>
          |ReplyDialogue(heading, fmt, backendName, performer, replies[j])| < numLines)
    && (r.Ok? ==>
          && |replies| > |repliesBefore|
          && |r.value| >= numLines
          && r.value == ReplyDialogue(heading, fmt, backendName, performer, replies[|replies| - 1]))
  }

  /** The retry loop after `k` sends, none of them answered well enough. */
  ghost predicate Pending(heading: Interpreter.HeadingParser, fmt: ScriptFormat, backendName: string,
                          performer: Performer, prompt: string, numLines: int,
                          sentBefore: seq<string>, sent: seq<string>,
                          repliesBefore: seq<string>, replies: seq<string>, k: nat)
  {
    && sent == sentBefore + Copies(prompt, k)
    && repliesBefore <= replies && |replies| == |repliesBefore| + k
    && forall j :: |repliesBefore| <= j < |replies| ==>
         |ReplyDialogue(heading, fmt, backendName, performer, replies[j])| < numLines
  }

  /** A reply too short to accept: one more pending send. */
  lemma RetryShort(heading: Interpreter.HeadingParser, fmt: ScriptFormat, backendName: string,
                   performer: Performer, prompt: string, numLines: int,
                   sentBefore: seq<string>, sent: seq<string>, repliesBefore: seq<string>, replies: seq<string>,
                   k: nat, response: string)
    requires Pending(heading, fmt, backendName, performer, prompt, numLines,
                     sentBefore, sent, repliesBefore, replies, k)
    requires |ReplyDialogue(heading, fmt, backendName, performer, response)| < numLines
    ensures Pending(heading, fmt, backendName, performer, prompt, numLines,
                    sentBefore, sent + [prompt], repliesBefore, replies + [response], k + 1)
  {
    hide ReplyDialogue;
    CopiesSnoc(prompt, k);
    var replies' := replies + [response];
    forall j | |repliesBefore| <= j < |replies'|
      ensures |ReplyDialogue(heading, fmt, backendName, performer, replies'[j])| < numLines
    {
      if j < |replies| {
        assert replies'[j] == replies[j];
      }
    }
  }

  /** A reply long enough ends the loop with what it reads as. */
  lemma RetryAccepted(heading: Interpreter.HeadingParser, fmt: ScriptFormat, backendName: string,
                      isRemote: bool, performer: Performer, prompt: string, numLines: int,
                      sentBefore: seq<string>, sent: seq<string>, repliesBefore: seq<string>, replies: seq<string>,
                      k: nat, response: string)
    requires k < MaxAttempts && (isRemote ==> k == 0)
    requires Pending(heading, fmt, backendName, performer, prompt, numLines,
                     sentBefore, sent, repliesBefore, replies, k)
    requires |ReplyDialogue(heading, fmt, backendName, performer, response)| >= numLines
    ensures Retried(heading, fmt, backendName, isRemote, performer, prompt, numLines,
                    sentBefore, sent + [prompt], repliesBefore, replies + [response],
                    Ok(ReplyDialogue(heading, fmt, backendName, performer, response)))
  {
    hide ReplyDialogue;
    CopiesSnoc(prompt, k);
    var replies' := replies + [response];
    assert repliesBefore <= replies';
    forall j | |repliesBefore| <= j < |replies'| - 1
      ensures |ReplyDialogue(heading, fmt, backendName, performer, replies'[j])| < numLines
    {
      assert replies'[j] == replies[j];
    }
    assert sent + [prompt] == sentBefore + Copies(prompt, k + 1);
  }

  /** The loop gives up: after the last allowed send on a local backend, or
      after the first on a remote one. */
  lemma RetryGivesUp(heading: Interpreter.HeadingParser, fmt: ScriptFormat, backendName: string,
                     isRemote: bool, performer: Performer, prompt: string, numLines: int,
                     sentBefore: seq<string>, sent: seq<string>, repliesBefore: seq<string>, replies: seq<string>,
                     k: nat, r: Result<seq<Component>>)
    requires Pending(heading, fmt, backendName, performer, prompt, numLines,
                     sentBefore, sent, repliesBefore, replies, k)
    requires r == Err(GenerationFailed) ==> k == MaxAttempts && !isRemote
    requires r == Err(RemoteAborted) ==> k == 1 && isRemote
    requires r == Err(GenerationFailed) || r == Err(RemoteAborted)
    ensures Retried(heading, fmt, backendName, isRemote, performer, prompt, numLines,
                    sentBefore, sent, repliesBefore, replies, r)
  {
    hide ReplyDialogue;
    assert Copies(prompt, 1) == [prompt];
  }

  /** `pick_next_bot_performer`, the same in both generators: a random
      candidate; `IndexError` when nobody has spoken or nobody is left to
      choose. */
  method PickNextBotPerformer(performance: Performance.Performance) returns (r: Result<Performer>)
    requires performance.Valid()
    ensures r.Ok? <==> Candidates(performance).Ok? && Candidates(performance).value != []
    ensures r.Ok? ==> r.value in Candidates(performance).value
    ensures r.Err? ==> r.error == IndexError
  {
    var botPerformers := performance.botPerformers;
    if |performance.characterHistory| == 0 {
      return Err(IndexError);
    }
    var lastCharacterName := performance.characterHistory[|performance.characterHistory| - 1];
    if lastCharacterName in performance.performers {
      KeyIsUpper(performance, lastCharacterName);
      var lastPerformer := performance.performers[Upper(lastCharacterName)];
      if lastPerformer in botPerformers {
        botPerformers := RemoveFirst(botPerformers, lastPerformer);
      }
    }
    if |botPerformers| == 0 {
      return Err(IndexError);
    }
    var choice :| 0 <= choice < |botPerformers|;
    r := Ok(botPerformers[choice]);
  }

  /** `pick` is one of the bots `pick_next_bot_performer` chooses among. */
  ghost predicate Pickable(p: Performance.Performance, pick: Performer)
    reads p
    requires p.Valid()
  {
    Candidates(p).Ok? && pick in Candidates(p).value
  }

  /** Round `i` asked the bot `picks[i]`, whose backend received the reply
      `replies[i]`, and `rounds[i]` is what was read from it. */
  ghost predicate Asked(p: Performance.Performance, rounds: seq<seq<Component>>, picks: seq<Performer>,
                           replies: seq<string>)
    reads p, p.chatbots, set i | 0 <= i < |picks| :: picks[i]
  {
    && |picks| == |rounds| && |replies| == |rounds|
    && forall i :: 0 <= i < |rounds| ==>
         && picks[i] in p.botPerformers
         && picks[i].chatbotIndex < |p.chatbots|
         && replies[i] in p.chatbots[picks[i].chatbotIndex].replies
         && rounds[i] == ReplyDialogue(p.heading, p.scriptFormat, p.chatbots[picks[i].chatbotIndex].name,
                                       picks[i], replies[i])
  }

  /** The rounds were answered, and every bot asked was one of the
      candidates. */
  ghost predicate Heard(p: Performance.Performance, rounds: seq<seq<Component>>, picks: seq<Performer>,
                        replies: seq<string>)
    reads p, p.chatbots, set i | 0 <= i < |picks| :: picks[i]
  {
    && p.Valid() && Asked(p, rounds, picks, replies)
    && forall i :: 0 <= i < |picks| ==> Pickable(p, picks[i])
  }

  /** One more round heard. */
  lemma HeardSnoc(p: Performance.Performance, rounds: seq<seq<Component>>, picks: seq<Performer>,
                  replies: seq<string>, round: seq<Component>, pick: Performer, reply: string)
    requires Heard(p, rounds, picks, replies)
    requires Pickable(p, pick)
    requires pick in p.botPerformers && pick.chatbotIndex < |p.chatbots|
    requires reply in p.chatbots[pick.chatbotIndex].replies
    requires round == ReplyDialogue(p.heading, p.scriptFormat, p.chatbots[pick.chatbotIndex].name, pick, reply)
    ensures Heard(p, rounds + [round], picks + [pick], replies + [reply])
  {
    var rounds', picks', replies' := rounds + [round], picks + [pick], replies + [reply];
    forall i | 0 <= i < |rounds'|
      ensures && Pickable(p, picks'[i])
              && picks'[i] in p.botPerformers
              && picks'[i].chatbotIndex < |p.chatbots|
              && replies'[i] in p.chatbots[picks'[i].chatbotIndex].replies
              && rounds'[i] == ReplyDialogue(p.heading, p.scriptFormat, p.chatbots[picks'[i].chatbotIndex].name,
                                             picks'[i], replies'[i])
    {
      if i < |rounds| {
        assert picks'[i] == picks[i] && replies'[i] == replies[i] && rounds'[i] == rounds[i];
      }
    }
  }

  /** The last round was read from the last reply its bot's backend
      received. */
  ghost predicate HeardLast(p: Performance.Performance, picks: seq<Performer>, replies: seq<string>)
    reads p, p.chatbots, set i | 0 <= i < |picks| :: picks[i]
  {
    && picks != [] && |replies| == |picks| && picks[|picks| - 1].chatbotIndex < |p.chatbots|
    && var last := p.chatbots[picks[|picks| - 1].chatbotIndex];
       last.replies != [] && replies[|replies| - 1] == last.replies[|last.replies| - 1]
  }

  class Generator {
    const performance: Performance.Performance
    /** The performance's format when the generator was made. */
    const scriptFormat: ScriptFormat
    const filters: FilterRegistry
    /** The text of a packaged prompt file, by file name. */
    const readPrompt: string -> string
    var queuedPerformer: Option<Performer>

    /** A generator copies the performance's format and adds its own
        alphabetical filter to the shared list. */
    constructor(performance: Performance.Performance, filters: FilterRegistry,
                readPrompt: string -> string)
      modifies filters
      ensures this.performance == performance && scriptFormat == performance.scriptFormat
      ensures this.filters == filters && this.readPrompt == readPrompt
      ensures queuedPerformer == None
      ensures filters.componentFilters == old(filters.componentFilters) + [FilterNonAlphabetical]
    {
      this.performance := performance;
      scriptFormat := performance.scriptFormat;
      this.filters := filters;
      this.readPrompt := readPrompt;
      queuedPerformer := None;
      new;
      filters.componentFilters := filters.componentFilters + [FilterNonAlphabetical];
    }

    /** `Generator.generate`: a fresh generator's `generate_dialogue`. */
    static method Generate(performance: Performance.Performance, filters: FilterRegistry,
                           readPrompt: string -> string, numLines: int := 1)
      returns (r: Result<seq<Component>>, ghost rounds: seq<seq<Component>>,
               ghost picks: seq<Performer>, ghost replies: seq<string>)
      requires performance.Valid()
      modifies performance, performance.chatbots, filters
      ensures performance.Valid() && OnlyMarksMoved(performance) && MarksAdvance(performance)
      ensures old(performance.botPerformers) == [] ==> r == Err(AssertionError)
      ensures old(performance.botPerformers) != [] && numLines <= 0 ==> r == Ok([])
      ensures (old(performance.botPerformers) != [] && numLines > 0 &&
               old(performance.characterHistory) == []) ==> r == Err(IndexError)
      ensures r.Ok? ==> forall c :: c in r.value ==> c.Line?
      ensures r.Ok? && numLines > 0 ==> r.value != []
      ensures forall i :: 0 <= i < |rounds| ==> rounds[i] != [] && forall c :: c in rounds[i] ==> c.Line?
      ensures Heard(performance, rounds, picks, replies)
      ensures forall i :: 0 <= i < |picks| ==>
                old(Candidates(performance)).Ok? && picks[i] in old(Candidates(performance)).value
      ensures r.Ok? && numLines > 0 ==>
                |rounds| == numLines && r.value == rounds[numLines - 1] && HeardLast(performance, picks, replies)
    {
      ghost var candidates := Candidates(performance);
      var generator := new Generator(performance, filters, readPrompt);
      r, rounds, picks, replies := generator.GenerateDialogue(numLines);
      assert Candidates(performance) == candidates;
    }

    /** One pass of the loop of `generate_dialogue`: pick the next bot and
        have it speak one line.  `pick` is who spoke and `reply` the last
        reply its backend received, which the line was read from; the
        rounds heard before stay heard. */
    method NextRound(ghost rounds: seq<seq<Component>>, ghost picks: seq<Performer>, ghost replies: seq<string>)
      returns (r: Result<seq<Component>>, ghost pick: Performer, ghost reply: string)
      requires performance.Valid() && performance.botPerformers != []
      requires Heard(performance, rounds, picks, replies)
      modifies this, performance, performance.chatbots
      ensures performance.Valid() && OnlyMarksMoved(performance) && MarksAdvance(performance)
      ensures Heard(performance, rounds, picks, replies)
      ensures old(performance.characterHistory) == [] ==> r == Err(IndexError)
      ensures r.Err? ==> r.error in {IndexError, GenerationFailed, RemoteAborted}
      ensures r.Ok? ==>
                && r.value != [] && (forall c :: c in r.value ==> c.Line?)
                && Pickable(performance, pick)
                && pick in performance.botPerformers && pick.chatbotIndex < |performance.chatbots|
                && var log := performance.chatbots[pick.chatbotIndex];
                   && log.replies != [] && reply == log.replies[|log.replies| - 1]
                   && r.value == ReplyDialogue(performance.heading, performance.scriptFormat, log.name, pick, reply)
      ensures r.Ok? ==>
                && Heard(performance, rounds + [r.value], picks + [pick], replies + [reply])
                && HeardLast(performance, picks + [pick], replies + [reply])
    {
      hide ReplyDialogue, PromptFor;
      pick, reply := performance.botPerformers[0], "";
      var botPerformer := PickNextBotPerformer(performance);
      if botPerformer.Err? {
        return Err(botPerformer.error), pick, reply;
      }
      var performer := botPerformer.value;
      pick := performer;
      CandidatesAreBots(performance);
      ghost var prompt;
      r, prompt := GeneratePerformerLines(performer, 1);
      assert Candidates(performance) == old(Candidates(performance));
      assert Pickable(performance, pick);
      assert Heard(performance, rounds, picks, replies);
      hide Heard, Pickable, Candidates;
      if r.Ok? {
        var log := performance.chatbots[performer.chatbotIndex];
        reply := log.replies[|log.replies| - 1];
        HeardSnoc(performance, rounds, picks, replies, r.value, pick, reply);
      }
    }

    /** `generate_dialogue`: one pick and one line per requested line; the
        lines of the last round are returned, and nothing is added to the
        performance.  Round `i` picked `picks[i]`, whose backend answered
        `replies[i]`, from which `rounds[i]` was read. */
    method GenerateDialogue(numLines: int := 1)
      returns (r: Result<seq<Component>>, ghost rounds: seq<seq<Component>>,
               ghost picks: seq<Performer>, ghost replies: seq<string>)
      requires performance.Valid()
      modifies this, performance, performance.chatbots
      ensures performance.Valid() && OnlyMarksMoved(performance) && MarksAdvance(performance)
      ensures old(performance.botPerformers) == [] ==> r == Err(AssertionError)
      ensures old(performance.botPerformers) != [] && numLines <= 0 ==> r == Ok([])
      ensures (old(performance.botPerformers) != [] && numLines > 0 &&
               old(performance.characterHistory) == []) ==> r == Err(IndexError)
      ensures r.Ok? ==> forall c :: c in r.value ==> c.Line?
      ensures r.Ok? && numLines > 0 ==> r.value != []
      ensures |picks| == |rounds| && |replies| == |rounds|
      ensures forall i :: 0 <= i < |rounds| ==> rounds[i] != [] && forall c :: c in rounds[i] ==> c.Line?
      ensures Heard(performance, rounds, picks, replies)
      ensures r.Ok? && numLines > 0 ==>
                |rounds| == numLines && r.value == rounds[numLines - 1] && HeardLast(performance, picks, replies)
    {
      hide ReplyDialogue;
      rounds, picks, replies := [], [], [];
      assert Heard(performance, rounds, picks, replies);
      hide Heard, Candidates;
      if |performance.botPerformers| == 0 {
        return Err(AssertionError), rounds, picks, replies;
      }
      var dialogueComponents: seq<Component> := [];
      var lineIndex := 0;
      while lineIndex < numLines
        invariant performance.Valid() && OnlyMarksMoved(performance) && MarksAdvance(performance)
        invariant forall c :: c in dialogueComponents ==> c.Line?
        invariant lineIndex > 0 ==> dialogueComponents != []
        invariant lineIndex == 0 ==> dialogueComponents == []
        invariant 0 <= lineIndex && (lineIndex <= numLines || lineIndex == 0)
        invariant lineIndex > 0 ==> old(performance.characterHistory) != []
        invariant |rounds| == lineIndex && |picks| == lineIndex && |replies| == lineIndex
        invariant lineIndex > 0 ==> dialogueComponents == rounds[lineIndex - 1]
        invariant forall i :: 0 <= i < |rounds| ==> rounds[i] != [] && forall c :: c in rounds[i] ==> c.Line?
        invariant Heard(performance, rounds, picks, replies)
        invariant lineIndex > 0 ==> HeardLast(performance, picks, replies)
        decreases numLines - lineIndex
      {
        ghost var performer, reply;
        var lines;
        lines, performer, reply := NextRound(rounds, picks, replies);
        if lines.Err? {
          return Err(lines.error), rounds, picks, replies;
        }
        dialogueComponents := lines.value;
        rounds, picks, replies := rounds + [lines.value], picks + [performer], replies + [reply];
        lineIndex := lineIndex + 1;
      }
      r := Ok(dialogueComponents);
    }

    /** `generate_performer_lines`: prompt the performer's backend until its
        reply holds at least `numLines` lines of dialogue, then keep those
        lines.  `prompt` names what `prepare_chatbot_prompt` built. */
    method GeneratePerformerLines(performer: Performer, numLines: int)
      returns (r: Result<seq<Component>>, ghost prompt: string)
      requires performance.Valid()
      modifies this, performance, performance.chatbots
      ensures performance.Valid() && OnlyMarksMoved(performance) && MarksAdvance(performance)
      ensures performer.chatbotIndex >= |performance.chatbots| <==> r == Err(IndexError)
      ensures performer.chatbotIndex >= |performance.chatbots| ==>
                performance.chatbotStates == old(performance.chatbotStates)
      ensures r.Err? ==> r.error in {IndexError, GenerationFailed, RemoteAborted}
      ensures r.Ok? ==> |r.value| >= numLines && forall c :: c in r.value ==> c.Line?
      ensures forall j :: 0 <= j < |performance.chatbots| ==>
                old(performance.chatbots[j].replies) <= performance.chatbots[j].replies
      ensures performer.chatbotIndex < |performance.chatbots| ==>
                var i := performer.chatbotIndex;
                var chatbot := performance.chatbots[i];
                && performance.chatbotStates == old(performance.chatbotStates)[i := |performance.workingScript|]
                && prompt == PromptFor(i, old(performance.chatbotStates[i]), Some(performer), numLines)
                && Retried(performance.heading, performance.scriptFormat, chatbot.name, chatbot.isRemote, performer,
                           prompt, numLines, old(chatbot.sent), chatbot.sent, old(chatbot.replies), chatbot.replies, r)
      ensures performance.heading == Interpreter.SceneHeaderParser() && numLines >= 1 ==> r.Err?
    {
      hide ReplyDialogue;
      prompt := "";
      var prepared := PrepareChatbotPrompt(Some(performer), numLines);
      if prepared.Err? {
        return Err(prepared.error), prompt;
      }
      prompt := prepared.value;
      var chatbot := GetPerformerChatbot(performer).value;
      var scriptComponents := SendUntilValid(chatbot, prepared.value, performer, numLines);
      if scriptComponents.Err? {
        return Err(scriptComponents.error), prompt;
      }
      var dialogueComponents := Interpreter.Interpreter.KeepType(scriptComponents.value, DialogueType);
      assert dialogueComponents == scriptComponents.value;
      r := Ok(dialogueComponents);
    }

    /** The retry loop of `generate_performer_lines`: send the prompt, parse
        and filter the reply, and accept it once it holds `numLines`
        components; otherwise restore the saved context and try again.  The
        tenth failure, or the first on a remote backend, gives up.  Every
        reply before an accepted last one was too short. */
    method SendUntilValid(chatbot: Backend.Chatbot, prompt: string, performer: Performer, numLines: int)
      returns (r: Result<seq<Component>>)
      modifies chatbot
      ensures Retried(performance.heading, performance.scriptFormat, chatbot.name, chatbot.isRemote, performer,
                      prompt, numLines, old(chatbot.sent), chatbot.sent, old(chatbot.replies), chatbot.replies, r)
      ensures r.Ok? ==> r.value == OfType(r.value, DialogueType)
      ensures performance.heading == Interpreter.SceneHeaderParser() && numLines >= 1 ==> r.Err?
    {
      var context := chatbot.GetContext();
      ghost var sentBefore := chatbot.sent;
      ghost var repliesBefore := chatbot.replies;
      ghost var heading, fmt := performance.heading, performance.scriptFormat;
      var validGeneration := false;
      var scriptComponents: seq<Component> := [];
      var attempt := 0;
      assert Copies(prompt, 0) == [];
      while !validGeneration
        invariant 0 <= attempt < MaxAttempts
        invariant chatbot.isRemote ==> attempt == 0
        invariant !validGeneration ==>
                    Pending(heading, fmt, chatbot.name, performer, prompt, numLines,
                            sentBefore, chatbot.sent, repliesBefore, chatbot.replies, attempt)
        invariant validGeneration ==>
                    Retried(heading, fmt, chatbot.name, chatbot.isRemote, performer, prompt, numLines,
                            sentBefore, chatbot.sent, repliesBefore, chatbot.replies, Ok(scriptComponents))
        invariant scriptComponents == OfType(scriptComponents, DialogueType)
        invariant validGeneration && performance.heading == Interpreter.SceneHeaderParser() ==>
                    scriptComponents == []
        decreases if validGeneration then 0 else 1, MaxAttempts - attempt
      {
        var valid := TryOnce(chatbot, prompt, performer, numLines, sentBefore, repliesBefore, attempt);
        if |valid| >= numLines {
          validGeneration := true;
          scriptComponents := valid;
        } else {
          attempt := attempt + 1;
          if attempt >= MaxAttempts {
            RetryGivesUp(heading, fmt, chatbot.name, chatbot.isRemote, performer, prompt, numLines,
                         sentBefore, chatbot.sent, repliesBefore, chatbot.replies, attempt, Err(GenerationFailed));
            return Err(GenerationFailed);
          }
          if chatbot.isRemote {
            RetryGivesUp(heading, fmt, chatbot.name, chatbot.isRemote, performer, prompt, numLines,
                         sentBefore, chatbot.sent, repliesBefore, chatbot.replies, attempt, Err(RemoteAborted));
            return Err(RemoteAborted);
          }
          chatbot.SetContext(context);
        }
      }
      r := Ok(scriptComponents);
    }

    /** One pass of the retry loop after `attempt` short replies: a reply
        long enough ends the loop with what it reads as, a short one leaves
        one more attempt pending. */
    method TryOnce(chatbot: Backend.Chatbot, prompt: string, performer: Performer, numLines: int,
                   ghost sentBefore: seq<string>, ghost repliesBefore: seq<string>, ghost attempt: nat)
      returns (valid: seq<Component>)
      requires attempt < MaxAttempts && (chatbot.isRemote ==> attempt == 0)
      requires Pending(performance.heading, performance.scriptFormat, chatbot.name, performer, prompt, numLines,
                       sentBefore, chatbot.sent, repliesBefore, chatbot.replies, attempt)
      modifies chatbot
      ensures |valid| >= numLines ==>
                Retried(performance.heading, performance.scriptFormat, chatbot.name, chatbot.isRemote, performer,
                        prompt, numLines, sentBefore, chatbot.sent, repliesBefore, chatbot.replies, Ok(valid))
      ensures |valid| < numLines ==>
                Pending(performance.heading, performance.scriptFormat, chatbot.name, performer, prompt, numLines,
                        sentBefore, chatbot.sent, repliesBefore, chatbot.replies, attempt + 1)
      ensures valid == OfType(valid, DialogueType)
      ensures performance.heading == Interpreter.SceneHeaderParser() ==> valid == []
    {
      ghost var sent, replies := chatbot.sent, chatbot.replies;
      ghost var response;
      valid, response := Attempt(chatbot, prompt, performer);
      if |valid| >= numLines {
        RetryAccepted(performance.heading, performance.scriptFormat, chatbot.name, chatbot.isRemote, performer,
                      prompt, numLines, sentBefore, sent, repliesBefore, replies, attempt, response);
      } else {
        RetryShort(performance.heading, performance.scriptFormat, chatbot.name, performer, prompt, numLines,
                   sentBefore, sent, repliesBefore, replies, attempt, response);
      }
    }

    /** One pass of the retry loop: send the prompt once, then parse and
        filter the reply, named `response`. */
    method Attempt(chatbot: Backend.Chatbot, prompt: string, performer: Performer)
      returns (valid: seq<Component>, ghost response: string)
      modifies chatbot
      ensures chatbot.sent == old(chatbot.sent) + [prompt]
      ensures chatbot.replies == old(chatbot.replies) + [response]
      ensures valid == ReplyDialogue(performance.heading, performance.scriptFormat, chatbot.name, performer,
                                     response)
      ensures valid == OfType(valid, DialogueType)
      ensures performance.heading == Interpreter.SceneHeaderParser() ==> valid == []
    {
      var reply := chatbot.SendMessage(prompt);
      response := reply;
      var parsed := ParseChatbotResponse(reply, chatbot, Some(performer));
      valid := FilterScriptComponents(parsed.value);
      OfTypeOfUniform(valid, DialogueType);
      if performance.heading == Interpreter.SceneHeaderParser() {
        ParsedHasNoDialogue(Cue(Some(performer), performance.scriptFormat) + reply,
                            ParserFlags(chatbot.name).Keys);
      }
    }

    /** `filter_script_components`: the components the validation keeps, in
        order, which are the lines of dialogue. */
    method FilterScriptComponents(scriptComponents: seq<Component>)
      returns (validComponents: seq<Component>)
      ensures validComponents == OfType(scriptComponents, DialogueType)
    {
      validComponents := [];
      for i := 0 to |scriptComponents|
        invariant validComponents == OfType(scriptComponents[..i], DialogueType)
      {
        var component := scriptComponents[i];
        var valid := ValidateScriptComponent(component);
        if valid {
          validComponents := validComponents + [component];
        }
        OfTypeSnoc(scriptComponents[..i], component, DialogueType);
        assert scriptComponents[..i + 1] == scriptComponents[..i] + [component];
      }
      assert scriptComponents[..|scriptComponents|] == scriptComponents;
    }

    /** `validate_script_component`: a line of dialogue passes; anything else
        fails whatever the filters say, since the loop can only refuse. */
    method ValidateScriptComponent(component: Component) returns (valid: bool)
      ensures valid <==> TypeOf(component) == DialogueType
    {
      if component.Line? {
        return true;
      }
      for i := 0 to |filters.componentFilters| {
        var componentFilter := filters.componentFilters[i];
        if !componentFilter(component) {
          return false;
        }
      }
      return false;
    }

    /** `get_performer_chatbot` */
    function GetPerformerChatbot(performer: Performer): (r: Result<Backend.Chatbot>)
      reads performance, performer
      ensures r.Ok? <==> performer.chatbotIndex < |performance.chatbots|
      ensures r.Ok? ==> r.value == performance.chatbots[performer.chatbotIndex]
      ensures r.Err? ==> r.error == IndexError
    {
      if performer.chatbotIndex < |performance.chatbots| then Ok(performance.chatbots[performer.chatbotIndex])
      else Err(IndexError)
    }

    /** The backend that speaks for `nextPerformer`, or the performance's own. */
    function ChatbotIndexFor(nextPerformer: Option<Performer>): nat
      reads performance, if nextPerformer.Some? then {nextPerformer.value} else {}
    {
      if nextPerformer.Some? then nextPerformer.value.chatbotIndex
      else performance.performanceChatbotIndex
    }

    /** What `prepare_context` returns for a backend: its template filled with
        the performers in registration order and the whole working script in
        the generator's format. */
    function ContextFor(chatbot: Backend.Chatbot, numLines: int): Result<string>
      reads performance
      requires performance.Valid()
    {
      PromptContext.ContextSpec(readPrompt(PromptFile(chatbot.name)), performance.OrderedPerformers(),
                                Rendered(performance.workingScript, scriptFormat), numLines)
    }

    /** The prompt `prepare_chatbot_prompt` builds for the backend at `i`
        when its mark is `mark`: the full context and the cue for a mark of 0
        or a backend that keeps no context; otherwise the components past the
        mark, rendered as Fountain, and the cue, or nothing when the backend
        is up to date. */
    function PromptFor(i: nat, mark: nat, nextPerformer: Option<Performer>, numLines: int): string
      reads this, performance
      requires performance.Valid() && i < |performance.chatbots|
    {
      var chatbot := performance.chatbots[i];
      var ws := performance.workingScript;
      if mark == 0 || !chatbot.keepContext then
        match ContextFor(chatbot, numLines)
        case Ok(context) => context + Cue(nextPerformer, performance.scriptFormat)
        case Err(_) => ""
      else if mark < |ws| then Rendered(ws[mark..], Fountain) + Cue(nextPerformer, performance.scriptFormat)
      else ""
    }

    /** `prepare_chatbot_prompt`.  A backend with mark 0, or one that keeps no
        context, gets the full context and its mark moves to the end of the
        script; otherwise it gets only the components past its mark, rendered
        as Fountain, or nothing when it is up to date.  Either prompt ends on
        the cue of the next speaker. */
    method PrepareChatbotPrompt(nextPerformer: Option<Performer>, numLines: int)
      returns (r: Result<string>)
      requires performance.Valid()
      modifies this, performance
      ensures performance.Valid() && OnlyMarksMoved(performance) && MarksAdvance(performance)
      ensures ChatbotIndexFor(nextPerformer) < |performance.chatbots| ==> r.Ok?
      ensures var i := ChatbotIndexFor(nextPerformer);
              i >= |performance.chatbots| ==>
                && r == Err(IndexError)
                && performance.chatbotStates == old(performance.chatbotStates)
                && queuedPerformer == old(queuedPerformer)
      ensures var i := ChatbotIndexFor(nextPerformer);
              var ws := performance.workingScript;
              i < |performance.chatbots| &&
              (old(performance.chatbotStates[i]) == 0 || !performance.chatbots[i].keepContext) ==>
                && performance.chatbotStates == old(performance.chatbotStates)[i := |ws|]
                && ContextFor(performance.chatbots[i], numLines).Ok?
                && r == Ok(ContextFor(performance.chatbots[i], numLines).value +
                           Cue(nextPerformer, performance.scriptFormat))
                && queuedPerformer == old(queuedPerformer)
      ensures var i := ChatbotIndexFor(nextPerformer);
              var ws := performance.workingScript;
              i < |performance.chatbots| &&
              old(performance.chatbotStates[i]) != 0 && performance.chatbots[i].keepContext ==>
                var mark := old(performance.chatbotStates[i]);
                && (mark < |ws| ==>
                      && performance.chatbotStates == old(performance.chatbotStates)[i := |ws|]
                      && r == Ok(Rendered(ws[mark..], Fountain) + Cue(nextPerformer, performance.scriptFormat))
                      && queuedPerformer == nextPerformer)
                && (mark == |ws| ==>
                      && performance.chatbotStates == old(performance.chatbotStates)
                      && r == Ok("")
                      && queuedPerformer == old(queuedPerformer))
      ensures var i := ChatbotIndexFor(nextPerformer);
              i < |performance.chatbots| ==>
                && performance.chatbotStates == old(performance.chatbotStates)[i := |performance.workingScript|]
                && r == Ok(PromptFor(i, old(performance.chatbotStates[i]), nextPerformer, numLines))
    {
      var chatbotIndex := if nextPerformer.Some? then nextPerformer.value.chatbotIndex
                          else performance.performanceChatbotIndex;
      if chatbotIndex >= |performance.chatbots| {
        return Err(IndexError);
      }
      var chatbot := performance.chatbots[chatbotIndex];
      var prompt;
      if performance.chatbotStates[chatbotIndex] == 0 || !chatbot.keepContext {
        prompt := InitializeContext(chatbotIndex, nextPerformer, numLines);
      } else {
        prompt := CatchUpContext(chatbotIndex, nextPerformer);
      }
      r := Ok(prompt);
    }

    /** The first branch of `prepare_chatbot_prompt`: the mark moves to the
        end of the script, then the full context is prepared. */
    method InitializeContext(chatbotIndex: nat, nextPerformer: Option<Performer>, numLines: int)
      returns (prompt: string)
      requires performance.Valid() && chatbotIndex < |performance.chatbots|
      modifies performance
      ensures performance.Valid() && OnlyMarksMoved(performance) && MarksAdvance(performance)
      ensures performance.chatbotStates ==
                old(performance.chatbotStates)[chatbotIndex := |performance.workingScript|]
      ensures ContextFor(performance.chatbots[chatbotIndex], numLines).Ok?
      ensures prompt == ContextFor(performance.chatbots[chatbotIndex], numLines).value +
                        Cue(nextPerformer, performance.scriptFormat)
    {
      var chatbot := performance.chatbots[chatbotIndex];
      performance.chatbotStates := performance.chatbotStates[chatbotIndex := |performance.workingScript|];
      var context := PrepareContext(chatbot, numLines);
      prompt := context.value;
      if nextPerformer.Some? {
        prompt := prompt + Upper(nextPerformer.value.characterName);
        prompt := prompt + BreakCharacterName(performance.scriptFormat);
      }
      assert prompt == context.value + Cue(nextPerformer, performance.scriptFormat);
    }

    /** The second branch of `prepare_chatbot_prompt`: a backend behind the
        script gets the components past its mark, and its mark moves to the
        end; one that is up to date gets nothing. */
    method CatchUpContext(chatbotIndex: nat, nextPerformer: Option<Performer>)
      returns (prompt: string)
      requires performance.Valid() && chatbotIndex < |performance.chatbots|
      modifies this, performance
      ensures performance.Valid() && OnlyMarksMoved(performance) && MarksAdvance(performance)
      ensures var ws := performance.workingScript;
              var mark := old(performance.chatbotStates[chatbotIndex]);
              && (mark < |ws| ==>
                    && performance.chatbotStates == old(performance.chatbotStates)[chatbotIndex := |ws|]
                    && prompt == Rendered(ws[mark..], Fountain) + Cue(nextPerformer, performance.scriptFormat)
                    && queuedPerformer == nextPerformer)
              && (mark == |ws| ==>
                    && performance.chatbotStates == old(performance.chatbotStates)
                    && prompt == ""
                    && queuedPerformer == old(queuedPerformer))
    {
      prompt := "";
      var chatbotState := performance.chatbotStates[chatbotIndex];
      var contextBehind := |performance.workingScript| - chatbotState;
      if contextBehind > 0 {
        var missingLines := performance.workingScript[chatbotState..];
        var missing := ComponentsToStr(missingLines);
        prompt := prompt + missing;
        if nextPerformer.Some? {
          prompt := prompt + Upper(nextPerformer.value.characterName);
          prompt := prompt + BreakCharacterName(performance.scriptFormat);
        }
        assert prompt == missing + Cue(nextPerformer, performance.scriptFormat);
        queuedPerformer := nextPerformer;
        performance.chatbotStates := performance.chatbotStates[chatbotIndex := |performance.workingScript|];
      }
    }

    /** `prepare_context`; it cannot fail, since a performance stores only
        bots and humans. */
    method PrepareContext(chatbot: Backend.Chatbot, numLines: int) returns (r: Result<string>)
      requires performance.Valid()
      ensures r == ContextFor(chatbot, numLines)
      ensures r.Ok?
    {
      var promptString := readPrompt(PromptFile(chatbot.name));
      var workingScriptString := ComponentsToStr(performance.workingScript, scriptFormat);
      r := PromptContext.FillTemplate(promptString, performance.OrderedPerformers(),
                                      workingScriptString, numLines);
      ContextAccepted(performance);
    }

    /** `components_to_str` */
    static method ComponentsToStr(components: seq<Component>, scriptFormat: ScriptFormat := Fountain)
      returns (returnString: string)
      ensures returnString == Rendered(components, scriptFormat)
    {
      returnString := "";
      for i := 0 to |components|
        invariant returnString == Rendered(components[..i], scriptFormat)
      {
        returnString := returnString + ToStr(components[i]) + BreakComponent(scriptFormat);
        assert ToStr(components[i]) + BreakComponent(scriptFormat) == Piece(components[i], scriptFormat);
        assert components[..i + 1][..i] == components[..i];
      }
      assert components[..|components|] == components;
    }

    /** `parse_chatbot_response`: the reply, after the cue the prompt ended
        on, read by the performance's interpreter.  With a speaker named the
        text is never empty, so the parse never fails. */
    method ParseChatbotResponse(response: string, chatbot: Backend.Chatbot,
                                nextPerformer: Option<Performer>)
      returns (r: Result<seq<Component>>)
      ensures r == Interpreter.InterpretSpec(performance.heading,
                     Cue(nextPerformer, performance.scriptFormat) + response,
                     ParserFlags(chatbot.name).Keys, None)
      ensures r.Err? <==> nextPerformer.None? && response == []
      ensures r.Err? ==> r.error == IndexError
    {
      var flags := map[IgnoreNewline := false, DiscardNames := false];
      if Lower(chatbot.name) == "gpt2" {
        flags := flags[IgnoreNewline := true];
        flags := flags[DiscardNames := true];
      }
      assert flags.Keys == ParserFlags(chatbot.name).Keys;
      var text := response;
      if nextPerformer.Some? {
        var characterName := Upper(nextPerformer.value.characterName) +
                             BreakCharacterName(performance.scriptFormat);
        text := characterName + text;
      }
      assert text == Cue(nextPerformer, performance.scriptFormat) + response;
      r := Interpreter.Interpreter.Interpret(performance.heading, text, flags.Keys, None);
      InterpretFailsOnEmpty(performance.heading, text, flags.Keys);
    }
  }

  /** A performance stores only bots and humans, so its context can always be
      prepared. */
  lemma ContextAccepted(p: Performance.Performance)
    requires p.Valid()
    ensures PromptContext.Classified(p.OrderedPerformers()).Ok?
  {
    var ps := p.OrderedPerformers();
    forall i | 0 <= i < |ps| ensures ps[i].kind != BaseKind {
      assert p.performerOrder[i] in p.performers;
    }
    PromptContext.ClassifiedListings(ps);
  }

  /** With the newline flag present, the interpreter fails exactly on empty
      text, and then with `IndexError`. */
  lemma InterpretFailsOnEmpty(heading: Interpreter.HeadingParser, text: string, flags: set<string>)
    requires IgnoreNewline in flags
    ensures Interpreter.InterpretSpec(heading, text, flags, None).Err? <==> text == []
    ensures Interpreter.InterpretSpec(heading, text, flags, None).Err? ==>
              Interpreter.InterpretSpec(heading, text, flags, None).error == IndexError
  {
    assert Interpreter.Prepared(text, flags).Err? <==> text == [];
  }

  /** With the heading parser of SceneHeader.py a reply never yields a line of
      dialogue. */
  lemma ParsedHasNoDialogue(text: string, flags: set<string>)
    requires Interpreter.InterpretSpec(Interpreter.SceneHeaderParser(), text, flags, None).Ok?
    ensures OfType(Interpreter.InterpretSpec(Interpreter.SceneHeaderParser(), text, flags, None).value,
                   DialogueType) == []
  {
    var t := Interpreter.Prepared(text, flags).value;
    Interpreter.SceneHeadingsOnly(Split(t, '\n'));
  }
}
