/**
 * StatementView: renders a statement of the code model. A simple statement
 * carries its text already; any other statement is a composite whose children
 * are rendered through the generator and joined with the empty separator.
 */
module StatementView {
  import opened Wrappers
  import opened CodeGen

  /** Statement_: a SimpleStatement holding its text, or a composite of child statements. */
  datatype Statement = Simple(text: string) | Composite(statements: seq<Statement>)

  /**
   * StatementView.render. The composite branch wraps the joined text in
   * Optional.of, so every statement renders to a present fragment, also a
   * composite without children.
   */
  function Render(s: Statement): (r: Optional<string>)
    decreases s
    ensures r.Of?
    ensures s.Simple? ==> r == Of(s.text)
    ensures s == Composite([]) ==> r == Of("")
  {
    match s
    case Simple(text) => Of(text)
    case Composite(statements) => Of(Join(Present(RenderEach(statements)), EMPTY))
  }

  /** CodeGenerator.onEach over statements: one fragment per child, in child order. */
  function RenderEach(statements: seq<Statement>): (r: seq<Optional<string>>)
    decreases statements
    ensures |r| == |statements|
    ensures forall i :: 0 <= i < |r| ==> r[i] == Render(statements[i]) && r[i].Of?
  {
    if statements == [] then [] else [Render(statements[0])] + RenderEach(statements[1..])
  }

  /** Reference definition: the texts of the simple statements, left to right. */
  function Leaves(s: Statement): seq<string>
    decreases s
  {
    match s
    case Simple(text) => [text]
    case Composite(statements) => LeavesAll(statements)
  }

  function LeavesAll(statements: seq<Statement>): seq<string>
    decreases statements
  {
    if statements == [] then [] else Leaves(statements[0]) + LeavesAll(statements[1..])
  }

  /** Number of statement nodes in a tree. */
  function Size(s: Statement): nat
    decreases s
  {
    match s
    case Simple(_) => 1
    case Composite(statements) => 1 + SizeAll(statements)
  }

  function SizeAll(statements: seq<Statement>): nat
    decreases statements
  {
    if statements == [] then 0 else Size(statements[0]) + SizeAll(statements[1..])
  }

  /** A rendering together with the statements it handed to the generator, in order. */
  datatype Traced = Traced(fragment: Optional<string>, dispatched: seq<Statement>)

  /**
   * StatementView.render, recording every statement passed to the generator:
   * it gives the same fragment as Render; a simple statement dispatches
   * nothing; a composite dispatches each of its children, and what each
   * child's own rendering dispatches. Every dispatched statement is strictly smaller than
   * `s`, which is why rendering terminates, and exactly Size(s) - 1
   * statements are dispatched.
   */
  function RenderTraced(s: Statement): (r: Traced)
    decreases s
    ensures r.fragment == Render(s)
    ensures s.Simple? ==> r.dispatched == []
    ensures |r.dispatched| == Size(s) - 1
    ensures forall d :: d in r.dispatched ==> Size(d) < Size(s)
    ensures s.Composite? ==> forall i :: 0 <= i < |s.statements| ==> s.statements[i] in r.dispatched
  {
    match s
    case Simple(text) => Traced(Of(text), [])
    case Composite(statements) =>
      var (fragments, dispatched) := RenderEachTraced(statements);
      Traced(Of(Join(Present(fragments), EMPTY)), dispatched)
  }

  /** CodeGenerator.onEach over statements, recording what is dispatched. */
  function RenderEachTraced(statements: seq<Statement>): (r: (seq<Optional<string>>, seq<Statement>))
    decreases statements
    ensures r.0 == RenderEach(statements)
    ensures |r.1| == SizeAll(statements)
    ensures forall d :: d in r.1 ==> Size(d) <= SizeAll(statements)
    ensures forall i :: 0 <= i < |statements| ==> statements[i] in r.1
  {
    if statements == [] then ([], [])
    else
      var head := RenderTraced(statements[0]);
      var rest := RenderEachTraced(statements[1..]);
      ([head.fragment] + rest.0, [statements[0]] + head.dispatched + rest.1)
  }

  /**
   * Reference definition: every statement strictly below `s`, listed in
   * post-order (each child after its own descendants).
   */
  function Below(s: Statement): seq<Statement>
    decreases s
  {
    match s
    case Simple(_) => []
    case Composite(statements) => BelowAll(statements)
  }

  function BelowAll(statements: seq<Statement>): seq<Statement>
    decreases statements
  {
    if statements == [] then [] else Below(statements[0]) + [statements[0]] + BelowAll(statements[1..])
  }

  /**
   * Rendering hands every statement below `s` to the generator exactly as
   * often as it occurs below `s`: once per node of the tree.
   */
  lemma {:induction false} TracedIsBelow(s: Statement)
    decreases s
    ensures multiset(RenderTraced(s).dispatched) == multiset(Below(s))
  {
    match s
    case Simple(_) =>
    case Composite(statements) =>
      TracedEachIsBelowAll(statements);
  }

  lemma {:induction false} TracedEachIsBelowAll(statements: seq<Statement>)
    decreases statements
    ensures multiset(RenderEachTraced(statements).1) == multiset(BelowAll(statements))
  {
    if statements != [] {
      TracedIsBelow(statements[0]);
      TracedEachIsBelowAll(statements[1..]);
      var head := RenderTraced(statements[0]).dispatched;
      var rest := RenderEachTraced(statements[1..]).1;
      assert RenderEachTraced(statements).1 == [statements[0]] + head + rest;
      assert BelowAll(statements) == Below(statements[0]) + [statements[0]] + BelowAll(statements[1..]);
    }
  }

  /** Rendering any statement tree yields its leaves' texts concatenated in order. */
  lemma {:induction false} RenderIsLeafConcat(s: Statement)
    decreases s
    ensures Render(s) == Of(ConcatAll(Leaves(s)))
  {
    match s
    case Simple(text) =>
      assert Render(s) == Of(text);
      assert Leaves(s) == [text];
      assert ConcatAll([text]) == text + ConcatAll([]);
      assert ConcatAll([text]) == text;
    case Composite(statements) =>
      RenderEachIsLeafConcat(statements);
      JoinEmptyIsConcat(Present(RenderEach(statements)));
  }

  lemma {:induction false} RenderEachIsLeafConcat(statements: seq<Statement>)
    decreases statements
    ensures ConcatAll(Present(RenderEach(statements))) == ConcatAll(LeavesAll(statements))
  {
    if statements != [] {
      var rest := RenderEach(statements[1..]);
      assert RenderEach(statements)[1..] == rest;
      RenderIsLeafConcat(statements[0]);
      RenderEachIsLeafConcat(statements[1..]);
      ConcatAllAppend(Leaves(statements[0]), LeavesAll(statements[1..]));
    }
  }

  /**
   * Nothing is inserted between children: the rendering of a composite of
   * `a + b` is the rendering of `a` directly followed by that of `b`.
   */
  lemma CompositeAppend(a: seq<Statement>, b: seq<Statement>)
    ensures Render(Composite(a + b)).value == Render(Composite(a)).value + Render(Composite(b)).value
  {
    RenderIsLeafConcat(Composite(a + b));
    RenderIsLeafConcat(Composite(a));
    RenderIsLeafConcat(Composite(b));
    LeavesAllAppend(a, b);
    ConcatAllAppend(LeavesAll(a), LeavesAll(b));
  }

  lemma {:induction false} LeavesAllAppend(a: seq<Statement>, b: seq<Statement>)
    ensures LeavesAll(a + b) == LeavesAll(a) + LeavesAll(b)
  {
    if a == [] {
      assert a + b == b;
    } else {
      assert (a + b)[1..] == a[1..] + b;
      LeavesAllAppend(a[1..], b);
    }
  }

  /** The scenario of a composite of two simple statements. */
  lemma TwoSimpleStatements()
    ensures Render(Composite([Simple("a();"), Simple("b();")])) == Of("a();b();")
  {
    var s := Composite([Simple("a();"), Simple("b();")]);
    RenderIsLeafConcat(s);
    assert LeavesAll([Simple("b();")]) == ["b();"];
    assert Leaves(s) == ["a();", "b();"];
    assert ConcatAll(["b();"]) == "b();" + ConcatAll([]);
    assert ["a();", "b();"][1..] == ["b();"];
    assert ConcatAll(["a();", "b();"]) == "a();" + "b();" == "a();b();";
  }
}
