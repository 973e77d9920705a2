/** The first performance: a running dialogue history, a setting, the human
    and bot performers, and the prompt that asks one bot to write dialogue
    for all of its characters. */
module RootPerformance {
  import opened Text
  import opened Errors
  import opened RootPerformer

  // ------------------------------------------------------------ the prompt

  /** The fixed sentences of the prompt.  The lemmas below hold whatever the
      wording, so they are stated for any `Wording`; the prompt uses `Standard`. */
  datatype Wording = Wording(intro: string, humanIntro: string, settingIntro: string,
                             historyIntro: string, formIntro: string,
                             capLead: string, capTail: string)

  const Standard := Wording(
    "Please generate dialogue for the following characters:\n",
    "The following are characters played by humans; "
      + "please do not generate dialogue for these characters:\n",
    "The setting of the scene is as follows:\n",
    "The following dialogue has already been spoken:\n",
    "Each line of dialogue should take the following form:\n" + "CHARACTER NAME: Dialogue\n",
    "Please generate no more than ",
    " lines dialogue.\n")

  /** Each performer's description on a line of its own, in list order. */
  function Listing(ps: seq<Performer>): string {
    if ps == [] then ""
    else Listing(ps[..|ps| - 1]) + GetDescription(ps[|ps| - 1]) + "\n"
  }

  /** The dialogue-history section, present only once something was said. */
  function HistorySection(w: Wording, history: string): string {
    if history != "" then w.historyIntro + history + "\n" else ""
  }

  /** The number of lines asked for: `max_lines`, or one per bot when it is 0. */
  function Cap(maxLines: int, bots: seq<Performer>): int {
    if maxLines != 0 then maxLines else |bots|
  }

  function CapLine(w: Wording, cap: int): string {
    w.capLead + IntToString(cap) + w.capTail
  }

  /** The prompt up to the history section. */
  function Front(w: Wording, bots: seq<Performer>, humans: seq<Performer>, setting: string): string {
    w.intro + Listing(bots) + "\n" + w.humanIntro + Listing(humans) + "\n"
      + w.settingIntro + setting + "\n" + "\n"
  }

  /** The prompt after the history section. */
  function Back(w: Wording, bots: seq<Performer>, maxLines: int): string {
    w.formIntro + "\n" + CapLine(w, Cap(maxLines, bots))
  }

  /** What `prepare_singlebot_prompt` returns, in wording `w`. */
  function SinglebotPrompt(w: Wording, bots: seq<Performer>, humans: seq<Performer>,
                           setting: string, history: string, maxLines: int): string {
    Front(w, bots, humans, setting) + HistorySection(w, history) + Back(w, bots, maxLines)
  }

  /** Listing a concatenation lists each part. */
  lemma {:induction false} ListingAppend(a: seq<Performer>, b: seq<Performer>)
    ensures Listing(a + b) == Listing(a) + Listing(b)
    decreases |b|
  {
    if b == [] {
      assert a + b == a;
    } else {
      var b' := b[..|b| - 1];
      var tail := GetDescription(b[|b| - 1]) + "\n";
      assert (a + b)[..|a + b| - 1] == a + b';
      assert (a + b)[|a + b| - 1] == b[|b| - 1];
      assert Listing(a + b) == Listing(a + b') + tail;
      ListingAppend(a, b');
      assert Listing(b) == Listing(b') + tail;
      assert Listing(a) + Listing(b') + tail == Listing(a) + (Listing(b') + tail);
    }
  }

  /** The description of the `i`-th performer is a line of its own between
      the lines of the performers before and after it. */
  lemma ListingAt(ps: seq<Performer>, i: nat)
    requires i < |ps|
    ensures Listing(ps) == Listing(ps[..i]) + GetDescription(ps[i]) + "\n" + Listing(ps[i + 1..])
  {
    var head := ps[..i + 1];
    assert head + ps[i + 1..] == ps;
    ListingAppend(head, ps[i + 1..]);
    assert head[..|head| - 1] == ps[..i] && head[|head| - 1] == ps[i];
  }

  /** When no description holds a newline, splitting the listing at newlines
      gives back the descriptions, one per line, and an empty last field. */
  lemma {:induction false} ListingLines(ps: seq<Performer>)
    requires forall p :: p in ps ==> '\n' !in GetDescription(p)
    ensures Split(Listing(ps), '\n') == Descriptions(ps) + [""]
  {
    if ps != [] {
      var d := GetDescription(ps[0]);
      ListingCons(ps);
      assert ps[0] in ps;
      assert forall p :: p in ps[1..] ==> p in ps;
      ListingLines(ps[1..]);
      LinesStep(d, Listing(ps[1..]), Listing(ps), Descriptions(ps[1..]));
    }
  }

  /** A first line without a line break splits off in front. */
  lemma LinesStep(d: string, rest: string, text: string, lines: seq<string>)
    requires '\n' !in d && text == d + ['\n'] + rest
    requires Split(rest, '\n') == lines + [""]
    ensures Split(text, '\n') == [d] + lines + [""]
  {
    SplitCons(d, rest, text, lines + [""]);
  }

  /** The listing is the first description, a line break, and the rest. */
  lemma ListingCons(ps: seq<Performer>)
    requires ps != []
    ensures Listing(ps) == GetDescription(ps[0]) + ['\n'] + Listing(ps[1..])
  {
    assert ps == [ps[0]] + ps[1..];
    ListingAppend([ps[0]], ps[1..]);
    assert Listing([ps[0]]) == GetDescription(ps[0]) + "\n" by {
      assert [ps[0]][..0] == [];
    }
  }

  function Descriptions(ps: seq<Performer>): seq<string> {
    if ps == [] then [] else [GetDescription(ps[0])] + Descriptions(ps[1..])
  }

  /** The history section is there exactly when something has been said, and
      holds the history as it is. */
  lemma HistoryOnlyWhenSpoken(w: Wording, bots: seq<Performer>, humans: seq<Performer>,
                              setting: string, history: string, maxLines: int)
    ensures history == "" ==>
              SinglebotPrompt(w, bots, humans, setting, history, maxLines) ==
              Front(w, bots, humans, setting) + Back(w, bots, maxLines)
    ensures history != "" ==>
              SinglebotPrompt(w, bots, humans, setting, history, maxLines) ==
              Front(w, bots, humans, setting) + w.historyIntro + history + "\n" + Back(w, bots, maxLines)
  {
    if history == "" {
      assert HistorySection(w, history) == "";
    }
  }

  /** The prompt ends with the line that caps the number of lines asked for. */
  lemma EndsWithCap(w: Wording, bots: seq<Performer>, humans: seq<Performer>,
                    setting: string, history: string, maxLines: int)
    ensures var p := SinglebotPrompt(w, bots, humans, setting, history, maxLines);
            var last := CapLine(w, Cap(maxLines, bots));
            |p| >= |last| && p[|p| - |last|..] == last
  {
    var front := Front(w, bots, humans, setting) + HistorySection(w, history) + w.formIntro + "\n";
    var last := CapLine(w, Cap(maxLines, bots));
    assert SinglebotPrompt(w, bots, humans, setting, history, maxLines) == front + last;
    assert (front + last)[|front|..] == last;
  }

  /** The prompt put together piece by piece is the three sections. */
  lemma BackRegroup(front: string, history: string, w: Wording, count: string, prompt: string)
    requires prompt == front + history + w.formIntro + "\n" + w.capLead + count + w.capTail
    ensures prompt == front + history + (w.formIntro + "\n" + (w.capLead + count + w.capTail))
  {
  }

  // ------------------------------------------------------- the performance

  class Performance {
    var dialogueHistory: string
    var settingDescription: string
    var maxLines: int
    var humans: seq<Performer>
    var bots: seq<Performer>

    /** `Performance.__init__`; `max_lines` is the class default 0. */
    constructor()
      ensures dialogueHistory == "" && settingDescription == "" && maxLines == 0
      ensures humans == [] && bots == []
    {
      dialogueHistory := "";
      settingDescription := "";
      maxLines := 0;
      humans := [];
      bots := [];
    }

    /** `Performance.add_performer`: humans and bots go to their own list;
        anything else is refused. */
    method AddPerformer(performer: Performer) returns (r: Result<Unit>)
      modifies this
      ensures performer.role == HumanRole ==>
                r.Ok? && humans == old(humans) + [performer] && bots == old(bots)
      ensures performer.role == BotRole ==>
                r.Ok? && bots == old(bots) + [performer] && humans == old(humans)
      ensures performer.role == PlainRole ==>
                r == Err(InvalidPerformer) && humans == old(humans) && bots == old(bots)
      ensures dialogueHistory == old(dialogueHistory)
      ensures settingDescription == old(settingDescription) && maxLines == old(maxLines)
    {
      if performer.role == HumanRole {
        humans := humans + [performer];
      } else if performer.role == BotRole {
        bots := bots + [performer];
      } else {
        return Err(InvalidPerformer);
      }
      r := Ok(Unit);
    }

    /** `Performance.add_setting` */
    method AddSetting(settingDescription: string)
      modifies this
      ensures this.settingDescription == settingDescription
      ensures dialogueHistory == old(dialogueHistory) && maxLines == old(maxLines)
      ensures humans == old(humans) && bots == old(bots)
    {
      this.settingDescription := settingDescription;
    }

    /** `Performance.add_dialog`: one `NAME: text` line at the end of the
        history; the name is not upper-cased. */
    method AddDialog(performer: Performer, dialogue: string)
      modifies this
      ensures dialogueHistory == old(dialogueHistory) + performer.characterName + ": " + dialogue + "\n"
      ensures settingDescription == old(settingDescription) && maxLines == old(maxLines)
      ensures humans == old(humans) && bots == old(bots)
    {
      dialogueHistory := dialogueHistory + performer.characterName + ": " + dialogue + "\n";
    }

    /** `Performance.prepare_singlebot_prompt` */
    method PrepareSinglebotPrompt() returns (promptString: string)
      ensures promptString ==
              SinglebotPrompt(Standard, bots, humans, settingDescription, dialogueHistory, maxLines)
    {
      promptString := BuildPrompt(Standard, bots, humans, settingDescription, dialogueHistory, maxLines);
    }

    /** The body of `prepare_singlebot_prompt`, for any wording. */
    static method BuildPrompt(w: Wording, bots: seq<Performer>, humans: seq<Performer>,
                              settingDescription: string, dialogueHistory: string, maxLines: int)
      returns (promptString: string)
      ensures promptString ==
              SinglebotPrompt(w, bots, humans, settingDescription, dialogueHistory, maxLines)
    {
      promptString := BuildFront(w, bots, humans, settingDescription);
      ghost var front := promptString;
      if dialogueHistory != "" {
        promptString := promptString + w.historyIntro;
        promptString := promptString + dialogueHistory;
        promptString := promptString + "\n";
      }
      assert promptString == front + HistorySection(w, dialogueHistory);
      ghost var middle := promptString;
      promptString := promptString + w.formIntro;
      promptString := promptString + "\n";
      assert promptString == middle + w.formIntro + "\n";
      var cap := if maxLines != 0 then maxLines else |bots|;
      var count := IntToString(cap);
      promptString := promptString + w.capLead + count + w.capTail;
      assert count == IntToString(Cap(maxLines, bots));
      BackRegroup(front, HistorySection(w, dialogueHistory), w, count, promptString);
    }

    /** The performers and the setting, the part of the prompt before the
        history. */
    static method BuildFront(w: Wording, bots: seq<Performer>, humans: seq<Performer>,
                             settingDescription: string)
      returns (promptString: string)
      ensures promptString == Front(w, bots, humans, settingDescription)
    {
      promptString := "";
      promptString := promptString + w.intro;
      assert promptString == w.intro;
      promptString := AppendDescriptions(promptString, bots);
      promptString := promptString + "\n";
      promptString := promptString + w.humanIntro;
      ghost var lead := promptString;
      promptString := AppendDescriptions(promptString, humans);
      promptString := promptString + "\n";
      assert promptString == lead + Listing(humans) + "\n";
      promptString := promptString + w.settingIntro;
      promptString := promptString + settingDescription + "\n";
      promptString := promptString + "\n";
    }

    /** The loop that adds one description line per performer. */
    static method AppendDescriptions(prefix: string, performers: seq<Performer>)
      returns (promptString: string)
      ensures promptString == prefix + Listing(performers)
    {
      promptString := prefix;
      for i := 0 to |performers|
        invariant promptString == prefix + Listing(performers[..i])
      {
        assert performers[..i + 1][..i] == performers[..i];
        promptString := promptString + GetDescription(performers[i]) + "\n";
      }
      assert performers[..|performers|] == performers;
    }
  }
}
