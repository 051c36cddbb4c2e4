/** Concrete parses, taken from the repository's tests that still agree with
    src/parsy/__init__.py, worked out on the model. The failure locations are those of
    the corrected `string`; each scenario that fails also states the outcome with the
    literal matcher as written, whose failure location is the whole stream. */
module Scenarios {
  import opened Outcomes
  import opened Parsers
  import opened Combine
  import opened Laws

  /** `string('x') >> string('y')` gives "y" on "xy" and rejects "y" and "z" at index 0
      (as written: at the stream "y" or "z"). */
  lemma ThenScenario()
    ensures Parse(Then(String("x"), String("y")), "xy") == Parsed("y")
    ensures Parse(Then(String("x"), String("y")), "y") == ParseError(Index(0), "x")
    ensures Parse(Then(String("x"), String("y")), "z") == ParseError(Index(0), "x")
    ensures Parse(Then(StringAsWritten("x"), StringAsWritten("y")), "y") == ParseError(WholeStream("y"), "x")
    ensures Parse(Then(StringAsWritten("x"), StringAsWritten("y")), "z") == ParseError(WholeStream("z"), "x")
  {
    StringMatch("x", "xy", 0);
    StringMatch("y", "xy", 1);
    StringMatch("x", "y", 0);
    StringMatch("x", "z", 0);
    StringAsWrittenReportsStream("x", "y", 0);
    StringAsWrittenReportsStream("x", "z", 0);
    assert "y"[0..1][0] != "x"[0];
    assert "z"[0..1][0] != "x"[0];
  }

  /** `string('x').bind(binder)` hands "x" to the binder, whose parser then runs
      after it; on "x" alone that second parser fails at index 1 (as written: at the
      stream "x"). */
  lemma BindScenario()
    ensures Parse(Bind(String("x"), (r: string) => Map(String("y"), (t: string) => r + t)), "xy") == Parsed("xy")
    ensures Parse(Bind(String("x"), (r: string) => String("y")), "xy") == Parsed("y")
    ensures Parse(Bind(String("x"), (r: string) => String("y")), "x") == ParseError(Index(1), "y")
    ensures Parse(Bind(StringAsWritten("x"), (r: string) => StringAsWritten("y")), "x") == ParseError(WholeStream("x"), "y")
  {
    StringAsWrittenReportsStream("x", "x", 0);
    StringAsWrittenReportsStream("y", "x", 1);
    StringMatch("x", "xy", 0);
    StringMatch("y", "xy", 1);
    var f := (r: string) => Map(String("y"), (t: string) => r + t);
    assert Bind(String("x"), f).fn("xy", 0) == f("x").fn("xy", 1);
    MapOutcome(String("y"), (t: string) => "x" + t, "xy", 1);
    assert "x" + "y" == "xy";
    StringMatch("x", "x", 0);
    StringMatch("y", "x", 1);
  }

  /** `string('x') | string('y')` accepts either letter. */
  lemma OrScenario()
    ensures Parse(Or(String("x"), String("y")), "x") == Parsed("x")
    ensures Parse(Or(String("x"), String("y")), "y") == Parsed("y")
  {
    StringMatch("x", "x", 0);
    StringMatch("x", "y", 0);
    StringMatch("y", "y", 0);
    assert "y"[0..1][0] != "x"[0];
  }

  /** `(string('\\') >> string('y')) | string('z')`: after the left branch has read the
      backslash of "\\z" and failed at index 1, the right branch runs from index 0, and
      its failure there is what `ParseError` reports: at index 0 (as written: at the
      stream "\\z"). */
  lemma OrWithThenScenario()
    ensures Parse(Or(Then(String("\\"), String("y")), String("z")), "\\y") == Parsed("y")
    ensures Parse(Or(Then(String("\\"), String("y")), String("z")), "z") == Parsed("z")
    ensures Parse(Or(Then(String("\\"), String("y")), String("z")), "\\z") == ParseError(Index(0), "z")
    ensures Parse(Or(Then(StringAsWritten("\\"), StringAsWritten("y")), StringAsWritten("z")), "\\z") == ParseError(WholeStream("\\z"), "z")
  {
    StringAsWrittenReportsStream("\\", "\\z", 0);
    StringAsWrittenReportsStream("y", "\\z", 1);
    StringAsWrittenReportsStream("z", "\\z", 0);
    StringMatch("\\", "\\y", 0);
    StringMatch("y", "\\y", 1);
    StringMatch("\\", "z", 0);
    StringMatch("z", "z", 0);
    assert "z"[0..1][0] != "\\"[0];
    StringMatch("\\", "\\z", 0);
    StringMatch("y", "\\z", 1);
    StringMatch("z", "\\z", 0);
    assert "\\z"[1..2][0] != "y"[0];
    assert "\\z"[0..1][0] != "z"[0];
  }

  /** `string('x').many()` over a run of "x" ending in another character stops
      just before that character. */
  lemma {:induction false} ManyXsStop(s: Stream, k: nat)
    requires k < |s| && s[|s| - 1] != 'x'
    requires forall j :: k <= j < |s| - 1 ==> s[j] == 'x'
    ensures Progressing(String("x"))
    ensures ManyFrom(String("x"), s, k).next == |s| - 1
    decreases |s| - k
  {
    StringForward("x");
    StringMatch("x", s, k);
    if k < |s| - 1 {
      assert s[k..k + 1] == [s[k]];
      ManyXsStop(s, k + 1);
    } else {
      assert s[k..k + 1][0] != "x"[0];
    }
  }

  /** `string('x').many() >> string('y')` gives "y" on any run of "x" ending in "y",
      among them "y", "xy" and "xxxxxy". */
  lemma ManyWithThenScenario(s: Stream)
    requires 0 < |s| && s[|s| - 1] == 'y'
    requires forall j :: 0 <= j < |s| - 1 ==> s[j] == 'x'
    ensures Progressing(String("x"))
    ensures Parse(Then(Many(String("x")), String("y")), s) == Parsed("y")
  {
    StringForward("x");
    ManyXsStop(s, 0);
    ThenOutcome(Many(String("x")), String("y"), s, 0);
    StringMatch("y", s, |s| - 1);
    assert s[|s| - 1..|s|] == [s[|s| - 1]];
  }

  lemma ManyWithThenTestInputs()
    ensures Progressing(String("x"))
    ensures Parse(Then(Many(String("x")), String("y")), "y") == Parsed("y")
    ensures Parse(Then(Many(String("x")), String("y")), "xy") == Parsed("y")
    ensures Parse(Then(Many(String("x")), String("y")), "xxxxxy") == Parsed("y")
  {
    ManyWithThenScenario("y");
    ManyWithThenScenario("xy");
    ManyWithThenScenario("xxxxxy");
  }

  /** `parse` is not anchored at the end of the input: `string('x').many()` on "1"
      collects nothing and succeeds, leaving "1" unconsumed. (The repository's later
      tests expect an error here, from an end-anchored `parse` this source lacks.) */
  lemma ParseLeavesRest()
    ensures Progressing(String("x"))
    ensures Parse(Many(String("x")), "1") == Parsed([])
  {
    StringForward("x");
    StringMatch("x", "1", 0);
    assert "1"[0..1][0] != "x"[0];
  }

  /** A routine written as the generator
        x = yield string('x'); y = yield string('y'); return y
      with its state counting the yields still to come. */
  function XThenY(): Routine<nat, string>
  {
    Routine(Yield(String("x"), 1),
            (st: nat, v: string) => if st == 1 then Yield(String("y"), 0) else Return(v),
            (st: nat) => st)
  }

  /** `combine` over that routine behaves as `string('x') >> string('y')`. */
  lemma CombineScenario()
    ensures Ranked(XThenY())
    ensures Equivalent(CombineParser(XThenY()), Then(String("x"), String("y")))
  {
  }
}
