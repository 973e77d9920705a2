/** The first performer record: a character name, a description and the
    performance the performer belongs to. */
module RootPerformer {
  import opened Text
  import opened Errors

  /** Which subclass the performer was built from, because `add_performer`
      tells them apart with `isinstance`. */
  datatype Role = HumanRole | BotRole | PlainRole

  /** A handle on the performance the performer was given, if any. */
  type PerformanceHandle = nat

  datatype Performer = Performer(role: Role, characterName: string, characterDesc: string,
                                 performance: Option<PerformanceHandle>)

  const NoDescription := "No description"

  /** `Performer.__init__`: a missing or empty description becomes
      `"No description"`; name and performance are kept as given. */
  function NewPerformer(role: Role, characterName: string, characterDesc: Option<string>,
                        performance: Option<PerformanceHandle>): (p: Performer)
    ensures p.role == role && p.characterName == characterName && p.performance == performance
    ensures characterDesc.Some? && characterDesc.value != [] ==> p.characterDesc == characterDesc.value
    ensures characterDesc.None? || characterDesc.value == [] ==> p.characterDesc == NoDescription
    ensures p.characterDesc != []
  {
    var desc := if characterDesc.Some? && characterDesc.value != [] then characterDesc.value
                else NoDescription;
    Performer(role, characterName, desc, performance)
  }

  /** `Performer.get_description` */
  function GetDescription(p: Performer): string {
    Upper(p.characterName) + ": " + p.characterDesc
  }

  /** The description opens with the upper-cased name and `": "`; when the
      name has no colon, the text before the first colon is that name and
      the description follows the `": "`. */
  lemma DescriptionShape(p: Performer)
    ensures GetDescription(p)[..|p.characterName| + 2] == Upper(p.characterName) + ": "
    ensures ':' !in p.characterName ==>
              && Before(GetDescription(p), ':') == Upper(p.characterName)
              && After(GetDescription(p), ':') == " " + p.characterDesc
  {
    var name := Upper(p.characterName);
    var d := GetDescription(p);
    assert d == name + ": " + p.characterDesc;
    assert d[..|name| + 2] == name + ": ";
    if ':' !in p.characterName {
      assert ':' !in name by {
        forall i | 0 <= i < |name|
          ensures name[i] != ':'
        {
          assert p.characterName[i] != ':';
        }
      }
      assert d == name + [':'] + (" " + p.characterDesc);
      SplitAtFirst(name, ':', " " + p.characterDesc);
    }
  }
}
