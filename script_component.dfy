/** The three kinds of script component and what they have in common. */
module ScriptComponent {
  import SceneHeader
  import SceneAction
  import Dialogue

  datatype Component =
    | Heading(header: SceneHeader.Header)
    | Description(action: SceneAction.Action)
    | Line(line: Dialogue.Dialogue)

  /** The classes an `isinstance` test can name. */
  datatype ComponentType = HeadingType | ActionType | DialogueType

  function TypeOf(c: Component): ComponentType {
    match c
    case Heading(_) => HeadingType
    case Description(_) => ActionType
    case Line(_) => DialogueType
  }

  /** `component.to_str()`; a line of dialogue uses its multi-line form. */
  function ToStr(c: Component): string {
    match c
    case Heading(h) => SceneHeader.ToStr(h)
    case Description(a) => SceneAction.ToStr(a)
    case Line(d) => Dialogue.ToStr(d)
  }

  /** The components of type `t`, in their original order. */
  function OfType(cs: seq<Component>, t: ComponentType): (r: seq<Component>)
    ensures |r| <= |cs|
    ensures forall c :: c in r ==> c in cs && TypeOf(c) == t
  {
    if cs == [] then []
    else (if TypeOf(cs[0]) == t then [cs[0]] else []) + OfType(cs[1..], t)
  }

  /** Every component of type `t` is kept. */
  lemma {:induction false} OfTypeKeeps(cs: seq<Component>, t: ComponentType)
    ensures forall c :: c in cs && TypeOf(c) == t ==> c in OfType(cs, t)
  {
    if cs != [] {
      OfTypeKeeps(cs[1..], t);
      assert forall c :: c in cs ==> c == cs[0] || c in cs[1..];
    }
  }

  /** Filtering a concatenation filters each part. */
  lemma {:induction false} OfTypeAppend(a: seq<Component>, b: seq<Component>, t: ComponentType)
    ensures OfType(a + b, t) == OfType(a, t) + OfType(b, t)
  {
    if a == [] {
      assert a + b == b;
    } else {
      assert (a + b)[1..] == a[1..] + b;
      OfTypeAppend(a[1..], b, t);
    }
  }

  /** Filtering a list extended by one component. */
  lemma OfTypeSnoc(cs: seq<Component>, c: Component, t: ComponentType)
    ensures OfType(cs + [c], t) == OfType(cs, t) + (if TypeOf(c) == t then [c] else [])
  {
    OfTypeAppend(cs, [c], t);
    assert [c][1..] == [];
  }

  /** Nothing is kept when no component has type `t`. */
  lemma {:induction false} OfTypeNone(cs: seq<Component>, t: ComponentType)
    requires forall c :: c in cs ==> TypeOf(c) != t
    ensures OfType(cs, t) == []
  {
    if cs != [] {
      assert cs[0] in cs;
      OfTypeNone(cs[1..], t);
    }
  }

  /** A list that holds only components of type `t` is left as it is, so
      filtering twice is filtering once. */
  lemma {:induction false} OfTypeOfUniform(cs: seq<Component>, t: ComponentType)
    requires forall c :: c in cs ==> TypeOf(c) == t
    ensures OfType(cs, t) == cs
  {
    if cs != [] {
      assert cs[0] in cs;
      OfTypeOfUniform(cs[1..], t);
    }
  }
}
