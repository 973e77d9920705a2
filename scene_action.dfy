/** Scene action lines: free text that must not be fully upper-case. */
module SceneAction {
  import opened Text
  import opened Errors

  datatype Action = Action(action: string)

  /** `SceneAction.to_str` */
  function ToStr(a: Action): string {
    a.action
  }

  /** `SceneAction.from_str`: an all-caps line is reserved for character cues. */
  function FromStr(actionStr: string): (r: Result<Action>)
    ensures r.Err? <==> IsUpper(actionStr)
    ensures r.Err? ==> r.error == ValueError
    ensures r.Ok? ==> r.value.action == actionStr
  {
    if IsUpper(actionStr) then Err(ValueError) else Ok(Action(actionStr))
  }

  /** An accepted text is stored unchanged, so rendering gives it back. */
  lemma RoundTrip(s: string)
    requires !IsUpper(s)
    ensures FromStr(s).Ok? && ToStr(FromStr(s).value) == s
  {
  }

  /** Text without any cased letter (`""`, `"…"`, `"123"`) is an action. */
  lemma UncasedIsAction(s: string)
    requires forall i :: 0 <= i < |s| ==> !IsLetter(s[i])
    ensures FromStr(s) == Ok(Action(s))
  {
  }

  lemma UncasedExamples()
    ensures FromStr("").Ok? && FromStr("…").Ok? && FromStr("123").Ok?
  {
    UncasedIsAction("");
    UncasedIsAction("…");
    UncasedIsAction("123");
  }

  /** The description line of the test scene is accepted. */
  const TestDescription: string :=
    "An odd blue FROG is sitting on a bench. " + "A HOMELESS MAN comes walking by, " + "looking glum."

  lemma TestDescriptionAccepted()
    ensures FromStr(TestDescription) == Ok(Action(TestDescription))
  {
    assert TestDescription[1] == 'n';
  }
}
