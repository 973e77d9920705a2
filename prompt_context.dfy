/** The full-context prompt shared by the generators: the performers' lines,
    the rendered script and the length directive, put in place of the
    template's placeholders. */
module PromptContext {
  import opened Text
  import opened Errors
  import opened Performers

  // ------------------------------------------------------------- listings

  /** One more description for a listing: a line break goes first unless the
      listing is still empty. */
  function AppendLine(acc: string, d: string): string {
    if acc != "" then acc + "\n" + d else d
  }

  /** The listing the loop builds from `ds`, one `AppendLine` per entry. */
  function Listed(ds: seq<string>): string {
    if ds == [] then "" else AppendLine(Listed(ds[..|ds| - 1]), ds[|ds| - 1])
  }

  lemma {:induction false} JoinSnoc(ds: seq<string>, d: string, sep: string)
    ensures Join(ds + [d], sep) == if ds == [] then d else Join(ds, sep) + sep + d
  {
    if |ds| == 1 {
      assert (ds + [d])[1..] == [d];
    } else if |ds| > 1 {
      assert (ds + [d])[1..] == ds[1..] + [d];
      JoinSnoc(ds[1..], d, sep);
    }
  }

  /** With no empty description, the listing is the descriptions joined by
      line breaks. */
  lemma {:induction false} ListedJoins(ds: seq<string>)
    requires forall i :: 0 <= i < |ds| ==> ds[i] != []
    ensures Listed(ds) == Join(ds, "\n")
  {
    if ds != [] {
      var init := ds[..|ds| - 1];
      ListedJoins(init);
      assert Listed(init) == "" <==> init == [] by {
        if init != [] {
          ListedNonEmpty(init);
        }
      }
      JoinSnoc(init, ds[|ds| - 1], "\n");
      assert init + [ds[|ds| - 1]] == ds;
    }
  }

  lemma ListedNonEmpty(ds: seq<string>)
    requires ds != [] && ds[|ds| - 1] != []
    ensures Listed(ds) != ""
  {
  }

  /** Splitting the joined text at line breaks gives the entries back when
      none of them holds one. */
  lemma {:induction false} JoinSplits(ds: seq<string>)
    requires ds != []
    requires forall i :: 0 <= i < |ds| ==> '\n' !in ds[i]
    ensures Split(Join(ds, "\n"), '\n') == ds
  {
    if |ds| == 1 {
      BeforeAbsent(ds[0], '\n');
    } else {
      JoinSplits(ds[1..]);
      assert Join(ds, "\n") == ds[0] + ['\n'] + Join(ds[1..], "\n");
      SplitCons(ds[0], Join(ds[1..], "\n"), Join(ds, "\n"), ds[1..]);
      assert ds == [ds[0]] + ds[1..];
    }
  }

  /** Each description is on a line of its own: splitting the listing at line
      breaks gives the descriptions back, in order. */
  lemma ListedLines(ds: seq<string>)
    requires ds != []
    requires forall i :: 0 <= i < |ds| ==> ds[i] != [] && '\n' !in ds[i]
    ensures Split(Listed(ds), '\n') == ds
  {
    ListedJoins(ds);
    JoinSplits(ds);
  }

  // ---------------------------------------------------------- performers

  /** The descriptions of the performers of kind `k`, in order. */
  function DescriptionsOf(ps: seq<Performer>, k: Kind): (r: seq<string>)
    ensures |r| <= |ps|
  {
    if ps == [] then []
    else DescriptionsOf(ps[..|ps| - 1], k) +
         (if ps[|ps| - 1].kind == k then [ps[|ps| - 1].GetDescription()] else [])
  }

  /** The bot listing and the human listing the loop over the performers
      builds; a performer of neither kind is refused. */
  function Classified(ps: seq<Performer>): Result<(string, string)> {
    if ps == [] then Ok(("", ""))
    else
      match Classified(ps[..|ps| - 1])
      case Err(e) => Err(e)
      case Ok(acc) =>
        var p := ps[|ps| - 1];
        if p.kind == BotKind then Ok((AppendLine(acc.0, p.GetDescription()), acc.1))
        else if p.kind == HumanKind then Ok((acc.0, AppendLine(acc.1, p.GetDescription())))
        else Err(InvalidPerformer)
  }

  predicate BotsAndHumans(ps: seq<Performer>) {
    forall i :: 0 <= i < |ps| ==> ps[i].kind != BaseKind
  }

  /** The performers are refused exactly when one is neither a bot nor a
      human; otherwise the bots are listed apart from the humans, each in
      order. */
  lemma {:induction false} ClassifiedListings(ps: seq<Performer>)
    ensures Classified(ps).Ok? <==> BotsAndHumans(ps)
    ensures Classified(ps).Err? ==> Classified(ps).error == InvalidPerformer
    ensures Classified(ps).Ok? ==>
              Classified(ps).value == (Listed(DescriptionsOf(ps, BotKind)),
                                       Listed(DescriptionsOf(ps, HumanKind)))
  {
    if ps != [] {
      var init := ps[..|ps| - 1];
      ClassifiedListings(init);
      var p := ps[|ps| - 1];
      BotsAndHumansSnoc(ps);
      var d := p.GetDescription();
      var b := DescriptionsOf(init, BotKind) + (if p.kind == BotKind then [d] else []);
      var h := DescriptionsOf(init, HumanKind) + (if p.kind == HumanKind then [d] else []);
      assert DescriptionsOf(ps, BotKind) == b && DescriptionsOf(ps, HumanKind) == h;
      if p.kind == BotKind {
        assert b[..|b| - 1] == DescriptionsOf(init, BotKind);
        assert h == DescriptionsOf(init, HumanKind);
      } else if p.kind == HumanKind {
        assert h[..|h| - 1] == DescriptionsOf(init, HumanKind);
        assert b == DescriptionsOf(init, BotKind);
      }
    }
  }

  lemma BotsAndHumansSnoc(ps: seq<Performer>)
    requires ps != []
    ensures BotsAndHumans(ps) <==> BotsAndHumans(ps[..|ps| - 1]) && ps[|ps| - 1].kind != BaseKind
  {
    var init := ps[..|ps| - 1];
    assert forall i :: 0 <= i < |init| ==> init[i] == ps[i];
  }

  /** The loop over the performers of `prepare_context`. */
  method CollectDescriptions(ps: seq<Performer>) returns (r: Result<(string, string)>)
    ensures r == Classified(ps)
  {
    var botCharacters := "";
    var humanCharacters := "";
    for i := 0 to |ps|
      invariant Classified(ps[..i]) == Ok((botCharacters, humanCharacters))
    {
      var performer := ps[i];
      assert ps[..i + 1][..i] == ps[..i] && ps[..i + 1][i] == performer;
      ghost var before := (botCharacters, humanCharacters);
      if performer.kind == BotKind {
        if botCharacters != "" {
          botCharacters := botCharacters + "\n";
        }
        botCharacters := botCharacters + performer.GetDescription();
      } else if performer.kind == HumanKind {
        if humanCharacters != "" {
          humanCharacters := humanCharacters + "\n";
        }
        humanCharacters := humanCharacters + performer.GetDescription();
      } else {
        ClassifiedRefused(ps, i);
        return Err(InvalidPerformer);
      }
      assert botCharacters == (if performer.kind == BotKind then AppendLine(before.0, performer.GetDescription()) else before.0);
      assert humanCharacters == (if performer.kind == HumanKind then AppendLine(before.1, performer.GetDescription()) else before.1);
    }
    assert ps[..|ps|] == ps;
    r := Ok((botCharacters, humanCharacters));
  }

  /** One refused performer refuses the whole list. */
  lemma ClassifiedRefused(ps: seq<Performer>, i: nat)
    requires i < |ps| && ps[i].kind == BaseKind
    ensures Classified(ps) == Err(InvalidPerformer)
  {
    ClassifiedListings(ps);
  }

  // ----------------------------------------------------------- the template

  const BotsKey := "{{bot_characters}}"
  const HumansKey := "{{human_characters}}"
  const ScriptKey := "{{working_script}}"
  /** The directive placeholder takes the blank line before it along. */
  const ExtraKey := "\n\n{{extra_directions}}"

  const ExtraLead := "\n\nPlease generate no more than "
  const ExtraTail := " lines of dialogue."

  /** The length directive: only for a non-zero number of lines. */
  function ExtraDirections(numLines: int): (r: string)
    ensures numLines == 0 <==> r == ""
    ensures numLines != 0 ==> r == ExtraLead + IntToString(numLines) + ExtraTail
  {
    if numLines != 0 then ExtraLead + IntToString(numLines) + ExtraTail else ""
  }

  /** The placeholders and their texts, in the order they are replaced. */
  function Replacements(bots: string, humans: string, script: string, extra: string)
    : seq<(string, string)>
  {
    [(BotsKey, bots), (HumansKey, humans), (ScriptKey, script), (ExtraKey, extra)]
  }

  predicate NonEmptyKeys(pairs: seq<(string, string)>) {
    forall i :: 0 <= i < |pairs| ==> pairs[i].0 != []
  }

  lemma ReplacementKeys(bots: string, humans: string, script: string, extra: string)
    ensures NonEmptyKeys(Replacements(bots, humans, script, extra))
  {
  }

  /** Every replacement applied in turn, each to the result of the ones
      before it. */
  function ReplaceEach(s: string, pairs: seq<(string, string)>): string
    requires NonEmptyKeys(pairs)
    decreases |pairs|
  {
    if pairs == [] then s
    else ReplaceEach(ReplaceAll(s, pairs[0].0, pairs[0].1), pairs[1..])
  }

  /** The loop that replaces the placeholders. */
  method ReplacePlaceholders(template: string, pairs: seq<(string, string)>)
    returns (promptString: string)
    requires NonEmptyKeys(pairs)
    ensures promptString == ReplaceEach(template, pairs)
  {
    promptString := template;
    for i := 0 to |pairs|
      invariant ReplaceEach(promptString, pairs[i..]) == ReplaceEach(template, pairs)
    {
      assert pairs[i..][1..] == pairs[i + 1..];
      promptString := ReplaceAll(promptString, pairs[i].0, pairs[i].1);
    }
  }

  /** What `prepare_context` returns for a template, the performers in
      registration order and the rendered working script. */
  function ContextSpec(template: string, ps: seq<Performer>, script: string, numLines: int)
    : Result<string>
  {
    match Classified(ps)
    case Err(e) => Err(e)
    case Ok(lists) =>
      Ok(ReplaceEach(template, Replacements(lists.0, lists.1, script, ExtraDirections(numLines))))
  }

  lemma EmptyLead(a: string, b: string, c: string)
    ensures "" + a + b + c == a + b + c
  {
  }

  /** The part of `prepare_context` after the working script is rendered. */
  method FillTemplate(template: string, ps: seq<Performer>, script: string, numLines: int)
    returns (r: Result<string>)
    ensures r == ContextSpec(template, ps, script, numLines)
  {
    var lists := CollectDescriptions(ps);
    if lists.Err? {
      return Err(lists.error);
    }
    var extraDirections := "";
    if numLines != 0 {
      var count := IntToString(numLines);
      extraDirections := extraDirections + ExtraLead + count + ExtraTail;
      EmptyLead(ExtraLead, count, ExtraTail);
    }
    assert extraDirections == ExtraDirections(numLines);
    var pairs := Replacements(lists.value.0, lists.value.1, script, extraDirections);
    ReplacementKeys(lists.value.0, lists.value.1, script, extraDirections);
    var filled := ReplacePlaceholders(template, pairs);
    r := Ok(filled);
  }

  /** A template that holds no placeholder comes back as it is. */
  lemma PlainTemplate(template: string, ps: seq<Performer>, script: string, numLines: int)
    requires BotsAndHumans(ps)
    requires !Occurs(template, BotsKey) && !Occurs(template, HumansKey)
    requires !Occurs(template, ScriptKey) && !Occurs(template, ExtraKey)
    ensures ContextSpec(template, ps, script, numLines) == Ok(template)
  {
    ClassifiedListings(ps);
    var lists := Classified(ps).value;
    var extra := ExtraDirections(numLines);
    ReplaceAbsent(template, BotsKey, lists.0);
    ReplaceAbsent(template, HumansKey, lists.1);
    ReplaceAbsent(template, ScriptKey, script);
    ReplaceAbsent(template, ExtraKey, extra);
    ReplaceInOrder(template, lists.0, lists.1, script, extra);
  }

  /** A template that is just the script placeholder becomes the rendered
      script, provided the script does not itself hold the directive
      placeholder. */
  lemma ScriptOnlyTemplate(ps: seq<Performer>, script: string, numLines: int)
    requires BotsAndHumans(ps)
    requires !Occurs(script, ExtraKey)
    ensures ContextSpec(ScriptKey, ps, script, numLines) == Ok(script)
  {
    ClassifiedListings(ps);
    var lists := Classified(ps).value;
    assert !Occurs(ScriptKey, BotsKey) by {
      forall i: nat ensures !MatchAt(ScriptKey, BotsKey, i) {
        if i == 0 {
          assert ScriptKey[2] != BotsKey[2];
        }
      }
    }
    assert !Occurs(ScriptKey, HumansKey) by {
      forall i: nat ensures !MatchAt(ScriptKey, HumansKey, i) {
        assert |HumansKey| > |ScriptKey|;
      }
    }
    ReplaceAbsent(ScriptKey, BotsKey, lists.0);
    ReplaceAbsent(ScriptKey, HumansKey, lists.1);
    assert ReplaceAll(ScriptKey, ScriptKey, script) == script by {
      assert ScriptKey[|ScriptKey|..] == [];
    }
    ReplaceAbsent(script, ExtraKey, ExtraDirections(numLines));
    ReplaceInOrder(ScriptKey, lists.0, lists.1, script, ExtraDirections(numLines));
  }

  /** The four replacements, spelt out in the order they are made. */
  lemma ReplaceInOrder(s: string, bots: string, humans: string, script: string, extra: string)
    ensures ReplaceEach(s, Replacements(bots, humans, script, extra)) ==
            ReplaceAll(ReplaceAll(ReplaceAll(ReplaceAll(s, BotsKey, bots), HumansKey, humans),
                                  ScriptKey, script), ExtraKey, extra)
  {
    var pairs := Replacements(bots, humans, script, extra);
    var s1 := ReplaceAll(s, BotsKey, bots);
    var s2 := ReplaceAll(s1, HumansKey, humans);
    var s3 := ReplaceAll(s2, ScriptKey, script);
    assert ReplaceEach(s, pairs) == ReplaceEach(s1, pairs[1..]);
    assert ReplaceEach(s1, pairs[1..]) == ReplaceEach(s2, pairs[2..]) by {
      assert pairs[1..][1..] == pairs[2..];
    }
    assert ReplaceEach(s2, pairs[2..]) == ReplaceEach(s3, pairs[3..]) by {
      assert pairs[2..][1..] == pairs[3..];
    }
    assert ReplaceEach(s3, pairs[3..]) == ReplaceAll(s3, ExtraKey, extra) by {
      assert pairs[3..][1..] == [];
    }
  }
}
