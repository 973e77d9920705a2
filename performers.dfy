/** The performers of the package: bots, humans and the plain base class, with
    the backend slot a bot is given when the performance registers it. */
module Performers {
  import opened Text
  import opened Errors
  import Backend

  /** The class a performer was built from, as `isinstance` tells them apart. */
  datatype Kind = BotKind | HumanKind | BaseKind

  /** The description given to a performer built without one. */
  const NoDescription := "No description"

  class Performer {
    const kind: Kind
    const characterName: string
    const characterDesc: string
    /** A bot's own backend configuration, if it has one. */
    const modelConfig: Option<Backend.Config>
    /** Which backend of the performance speaks for this performer. */
    var chatbotIndex: nat

    /** A missing or empty description becomes `"No description"`; a new
        performer uses backend 0. */
    constructor(kind: Kind, characterName: string, characterDesc: Option<string>,
                modelConfig: Option<Backend.Config>)
      ensures this.kind == kind && this.characterName == characterName
      ensures this.modelConfig == modelConfig
      ensures characterDesc.Some? && characterDesc.value != [] ==>
                this.characterDesc == characterDesc.value
      ensures characterDesc.None? || characterDesc.value == [] ==>
                this.characterDesc == NoDescription
      ensures chatbotIndex == 0
    {
      this.kind := kind;
      this.characterName := characterName;
      this.characterDesc :=
        if characterDesc.Some? && characterDesc.value != [] then characterDesc.value
        else NoDescription;
      this.modelConfig := modelConfig;
      chatbotIndex := 0;
    }

    /** `get_description`: the upper-cased name, a colon, a space, then the
        description. */
    function GetDescription(): (r: string)
      ensures |r| == |characterName| + 2 + |characterDesc|
      ensures r[..|characterName|] == Upper(characterName)
      ensures r[|characterName|..|characterName| + 2] == ": "
      ensures r[|characterName| + 2..] == characterDesc
    {
      Upper(characterName) + ": " + characterDesc
    }
  }

  /** A description is never empty, and holds a line break only when the name
      or the description does. */
  lemma DescriptionLine(p: Performer)
    ensures p.GetDescription() != []
    ensures '\n' in p.GetDescription() ==> '\n' in p.characterName || '\n' in p.characterDesc
  {
    var d := p.GetDescription();
    var n := |p.characterName|;
    if '\n' in d {
      var k :| 0 <= k < |d| && d[k] == '\n';
      if k < n {
        assert d[k] == UpperChar(p.characterName[k]);
        assert p.characterName[k] == '\n';
      } else if k >= n + 2 {
        assert d[k] == p.characterDesc[k - n - 2];
      }
    }
  }
}
