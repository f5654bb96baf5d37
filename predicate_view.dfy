/**
 * AbstractSpeedmentPredicateView: renders a field predicate to an SQL
 * fragment. A concrete view supplies the fragment of the predicate as if it
 * were not negated; a negated predicate then has that fragment's SQL text
 * wrapped, in place, in "(NOT (" and ")".
 */
module PredicateView {
  import opened Wrappers

  /** A value bound to a placeholder of a prepared statement. */
  datatype SqlValue = SqlValue(repr: string)

  /** A field predicate of the query API; only its negation flag matters to this view. */
  datatype SpeedmentPredicate = SpeedmentPredicate(columnName: string, operator: string, operands: seq<SqlValue>, negated: bool)

  /** What a concrete view's renderUninverted builds: SQL text and its bound values. */
  datatype Uninverted = Uninverted(sql: string, objects: seq<SqlValue>)

  /** SqlPredicateFragment: SQL text and its values; setSql changes the text in place. */
  class SqlPredicateFragment {
    var sql: string
    var objects: seq<SqlValue>

    /** SqlPredicateFragment.of(sql, objects). */
    constructor (sql: string, objects: seq<SqlValue>)
      ensures this.sql == sql && this.objects == objects
    {
      this.sql := sql;
      this.objects := objects;
    }

    function GetSql(): (r: string)
      reads this
      ensures r == sql
    {
      sql
    }

    /** setSql: replaces the SQL text and returns this same fragment. */
    method SetSql(sql: string) returns (self: SqlPredicateFragment)
      modifies this
      ensures self == this
      ensures this.sql == sql && objects == old(objects)
    {
      this.sql := sql;
      self := this;
    }
  }

  const NOT_OPEN: string := "(NOT ("
  const NOT_CLOSE: string := ")"

  /** The text a negated predicate's SQL becomes. */
  function Negate(sql: string): (r: string)
    ensures |r| == |sql| + 7
    ensures r[..6] == NOT_OPEN && r[|r| - 1] == ')'
    ensures r[6..6 + |sql|] == sql
  {
    NOT_OPEN + sql + NOT_CLOSE
  }

  /**
   * The SQL text render produces from the uninverted text: unchanged for a
   * plain predicate; for a negated one, wrapped so that the uninverted text
   * can be read back out of it.
   */
  function RenderedSql(negated: bool, uninvertedSql: string): (r: string)
    ensures !negated ==> r == uninvertedSql
    ensures negated ==> StripNegation(r) == Of(uninvertedSql) && |r| == |uninvertedSql| + 7
  {
    if negated then StripNegate(uninvertedSql); Negate(uninvertedSql) else uninvertedSql
  }

  /** Reads the original text back out of a negated one; Empty if the text is not of that form. */
  function StripNegation(sql: string): (r: Optional<string>)
    ensures r.Of? ==> Negate(r.value) == sql
  {
    if |sql| >= 7 && sql[..6] == NOT_OPEN && sql[|sql| - 1] == ')' then
      assert sql == NOT_OPEN + sql[6..|sql| - 1] + NOT_CLOSE;
      Of(sql[6..|sql| - 1])
    else Empty
  }

  /** Negation is undone by StripNegation: the original SQL survives intact. */
  lemma StripNegate(sql: string)
    ensures StripNegation(Negate(sql)) == Of(sql)
  {
    var r := Negate(sql);
    assert r[6..|r| - 1] == sql;
  }

  /** Number of '(' minus number of ')'. */
  function Nesting(s: string): int {
    if s == [] then 0
    else (if s[0] == '(' then 1 else if s[0] == ')' then -1 else 0) + Nesting(s[1..])
  }

  /** Parenthesis-balanced: no prefix closes more than it opened, and all are closed. */
  predicate Balanced(s: string) {
    Nesting(s) == 0 && forall k :: 0 <= k <= |s| ==> Nesting(s[..k]) >= 0
  }

  lemma {:induction false} NestingAppend(a: string, b: string)
    ensures Nesting(a + b) == Nesting(a) + Nesting(b)
  {
    if a == [] {
      assert a + b == b;
    } else {
      assert (a + b)[1..] == a[1..] + b;
      NestingAppend(a[1..], b);
    }
  }

  lemma NestingOfNotOpen()
    ensures Nesting(NOT_OPEN) == 2
    ensures forall k :: 0 <= k <= |NOT_OPEN| ==> Nesting(NOT_OPEN[..k]) >= 0
  {
    assert NOT_OPEN[1..] == "NOT (";
    assert "NOT ("[1..] == "OT (";
    assert "OT ("[1..] == "T (";
    assert "T ("[1..] == " (";
    assert " ("[1..] == "(";
    assert "("[1..] == "";
    forall k | 0 <= k <= |NOT_OPEN|
      ensures Nesting(NOT_OPEN[..k]) >= 0
    {
      NoCloseNonNegative(NOT_OPEN[..k]);
    }
  }

  lemma {:induction false} NoCloseNonNegative(s: string)
    requires forall i :: 0 <= i < |s| ==> s[i] != ')'
    ensures Nesting(s) >= 0
  {
    if s != [] {
      NoCloseNonNegative(s[1..]);
    }
  }

  /**
   * The negation wrapper as written opens two parentheses and closes one: it
   * leaves one more '(' open than its input, so a balanced input is never
   * balanced after it.
   */
  lemma NegateLeavesOneOpen(sql: string)
    ensures Nesting(Negate(sql)) == Nesting(sql) + 1
    ensures Balanced(sql) ==> !Balanced(Negate(sql))
  {
    NestingAppend(NOT_OPEN, sql);
    NestingAppend(NOT_OPEN + sql, NOT_CLOSE);
    NestingOfNotOpen();
    assert Nesting(NOT_CLOSE) == -1 by {
      assert NOT_CLOSE[1..] == "";
    }
  }

  /** A concrete input: the negation of "a = 1". */
  lemma NegateExample()
    ensures Negate("a = 1") == "(NOT (a = 1)"
    ensures Balanced("a = 1") && !Balanced(Negate("a = 1"))
  {
    var s := "a = 1";
    assert s[1..] == " = 1" && " = 1"[1..] == "= 1" && "= 1"[1..] == " 1" && " 1"[1..] == "1" && "1"[1..] == "";
    forall k | 0 <= k <= |s|
      ensures Nesting(s[..k]) >= 0
    {
      NoCloseNonNegative(s[..k]);
    }
    NegateLeavesOneOpen(s);
  }

  const NOT_CLOSE_BOTH: string := "))"

  /** The negation evidently intended: both opened parentheses closed again. */
  function NegateIntended(sql: string): (r: string)
    ensures |r| == |sql| + 8
    ensures r[6..6 + |sql|] == sql
  {
    NOT_OPEN + sql + NOT_CLOSE_BOTH
  }

  /** The intended negation keeps a balanced input balanced. */
  lemma NegateIntendedKeepsBalance(sql: string)
    ensures Nesting(NegateIntended(sql)) == Nesting(sql)
    ensures Balanced(sql) ==> Balanced(NegateIntended(sql))
  {
    var r := NegateIntended(sql);
    NestingOfNotOpen();
    NestingAppend(NOT_OPEN, sql);
    NestingAppend(NOT_OPEN + sql, NOT_CLOSE_BOTH);
    assert NOT_CLOSE_BOTH[1..] == ")" && ")"[1..] == "";
    assert Nesting(")") == -1;
    assert Nesting(NOT_CLOSE_BOTH) == -2;
    if Balanced(sql) {
      forall k | 0 <= k <= |r|
        ensures Nesting(r[..k]) >= 0
      {
        if k <= 6 {
          assert r[..k] == NOT_OPEN[..k];
        } else if k <= 6 + |sql| {
          assert r[..k] == NOT_OPEN + sql[..k - 6];
          NestingAppend(NOT_OPEN, sql[..k - 6]);
        } else {
          assert r[..k] == (NOT_OPEN + sql) + NOT_CLOSE_BOTH[..k - 6 - |sql|];
          NestingAppend(NOT_OPEN + sql, NOT_CLOSE_BOTH[..k - 6 - |sql|]);
          assert k - 6 - |sql| == 1 ==> NOT_CLOSE_BOTH[..1] == ")";
          assert k - 6 - |sql| == 2 ==> NOT_CLOSE_BOTH[..2] == NOT_CLOSE_BOTH;
        }
      }
    }
  }

  /**
   * AbstractSpeedmentPredicateView. The concrete view's renderUninverted is
   * the function `uninverted`; `uninvertedCalls` counts its invocations.
   */
  class AbstractPredicateView {
    const uninverted: SpeedmentPredicate -> Uninverted
    ghost var uninvertedCalls: nat

    constructor (uninverted: SpeedmentPredicate -> Uninverted)
      ensures this.uninverted == uninverted && uninvertedCalls == 0
    {
      this.uninverted := uninverted;
      uninvertedCalls := 0;
    }

    /** renderUninverted: a fresh fragment for the predicate as if not negated. */
    method RenderUninverted(model: SpeedmentPredicate) returns (f: SqlPredicateFragment)
      modifies this
      ensures fresh(f)
      ensures f.sql == uninverted(model).sql && f.objects == uninverted(model).objects
      ensures uninvertedCalls == old(uninvertedCalls) + 1
    {
      var u := uninverted(model);
      f := new SqlPredicateFragment(u.sql, u.objects);
      uninvertedCalls := uninvertedCalls + 1;
    }

    /**
     * render: the uninverted fragment, with its SQL wrapped once in the
     * negation when the predicate is negated; its values are kept.
     */
    method Render(model: SpeedmentPredicate) returns (r: SqlPredicateFragment)
      modifies this
      ensures fresh(r)
      ensures r.sql == RenderedSql(model.negated, uninverted(model).sql)
      ensures r.objects == uninverted(model).objects
      ensures uninvertedCalls == old(uninvertedCalls) + 1
    {
      var unInverted := RenderUninverted(model);
      if !model.negated {
        r := unInverted;
      } else {
        r := unInverted.SetSql(NOT_OPEN + unInverted.GetSql() + NOT_CLOSE);
      }
    }

    /** transform: rejects null (here Empty), otherwise the same as render. */
    method Transform(model: Optional<SpeedmentPredicate>) returns (r: Result<SqlPredicateFragment>)
      modifies this
      ensures r.Failure? <==> model.Empty?
      ensures r.Failure? ==> r.error == NullPointer && uninvertedCalls == old(uninvertedCalls)
      ensures r.Success? ==>
                fresh(r.value) &&
                r.value.sql == RenderedSql(model.value.negated, uninverted(model.value).sql) &&
                r.value.objects == uninverted(model.value).objects &&
                uninvertedCalls == old(uninvertedCalls) + 1
    {
      if model.Empty? {
        return Failure(NullPointer);
      }
      var f := Render(model.value);
      r := Success(f);
    }
  }

  /** The static factories `of(sql)`, `of(sql, objects)` and `of(sql, object)`. */
  method OfSql(sql: string) returns (f: SqlPredicateFragment)
    ensures fresh(f) && f.sql == sql && f.objects == []
  {
    f := new SqlPredicateFragment(sql, []);
  }

  method OfSqlObjects(sql: string, objects: seq<SqlValue>) returns (f: SqlPredicateFragment)
    ensures fresh(f) && f.sql == sql && f.objects == objects
  {
    f := new SqlPredicateFragment(sql, objects);
  }

  method OfSqlObject(sql: string, value: SqlValue) returns (f: SqlPredicateFragment)
    ensures fresh(f) && f.sql == sql && f.objects == [value]
  {
    f := new SqlPredicateFragment(sql, [value]);
  }
}
