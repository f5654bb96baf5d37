/** ParameterView: renders a method parameter as its type, a space and its name. */
module ParameterView {
  import opened Wrappers
  import opened CodeGen
  import opened CodeModel

  /**
   * ParameterView.render, where `on` is the generator's rendering of type
   * nodes. The type's fragment is taken with Optional.get, so an absent one
   * throws NoSuchElementException; otherwise the result is present.
   */
  function Render(on: Type -> Optional<string>, model: Field): (r: Result<string>)
    ensures r.Success? <==> on(model.typ).Of?
    ensures r.Failure? ==> r.error == NoSuchElement
    ensures r.Success? ==>
              var t := on(model.typ).value;
              |r.value| == |t| + |SPACE| + |model.name| &&
              r.value[..|t|] == t &&
              r.value[|t|..|t| + |SPACE|] == SPACE &&
              r.value[|t| + |SPACE|..] == model.name
  {
    match on(model.typ)
    case Empty => Failure(NoSuchElement)
    case Of(t) => Success(t + SPACE + model.name)
  }

  /** Recovers the rendered type from a rendered parameter, given the parameter's name. */
  function TypeText(rendered: string, name: string): string
    requires |rendered| >= |name| + |SPACE|
  {
    rendered[..|rendered| - |name| - |SPACE|]
  }

  /**
   * The rendering is unambiguous: the type text and the name can be read back
   * from it, and two parameters with the same name render alike only when
   * their types render alike.
   */
  lemma TypeTextRoundTrip(on: Type -> Optional<string>, model: Field)
    requires on(model.typ).Of?
    ensures |Render(on, model).value| >= |model.name| + |SPACE|
    ensures TypeText(Render(on, model).value, model.name) == on(model.typ).value
  {
  }

  lemma RenderInjective(on: Type -> Optional<string>, a: Field, b: Field)
    requires a.name == b.name
    requires Render(on, a).Success? && Render(on, b).Success?
    ensures Render(on, a) == Render(on, b) <==> on(a.typ) == on(b.typ)
  {
    if Render(on, a) == Render(on, b) {
      TypeTextRoundTrip(on, a);
      TypeTextRoundTrip(on, b);
    }
  }
}
