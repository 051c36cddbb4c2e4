# parsy combinator core, modelled in Dafny

This project models the parser-combinator engine of an early snapshot of parsy,
`src/parsy/__init__.py`. A parser is a function of (stream, index) that either
succeeds with a new index and a value, or fails with a location and a description
of what it expected. The snapshot has these parts:

- the `Parser` class with `parse`, `bind`, `map`, `then`, `skip`, `result`, `many`
  and `|` (`__or__`);
- the primitives `success`, `string` and `regex`;
- the generator-driven sequencing `combine`.

The source writes every parser in continuation-passing style. A parser there takes
the stream, the index, an `on_success` and an `on_failure` continuation. No
combinator calls a continuation more than once, so the model is in direct style.
`Parsers.Parser` wraps a function from (stream, index) to an `Outcome`, which is
`Success(next, value)` or `Failure(where, expected)`. Module `Continuations`
restates the source's own continuation-passing definitions and proves that they
agree with the direct-style ones.

Modules:

- `Outcomes` (outcomes.dfy): streams, Python slicing, failure locations and outcomes.
- `Parsers` (parsers.dfy): the parser type, its primitives and combinators, `many`
  (a specification function plus the loop the source runs), and `parse`.
- `Combine` (combine.dfy): `combine` as an explicit routine driven by a loop.
- `Continuations` (continuations.dfy): the continuation-passing form.
- `Laws`, `ManyLaws`, `CombineLaws` (laws.dfy, many_laws.dfy, combine_laws.dfy):
  the properties.
- `Scenarios` (scenarios.dfy): concrete parses from the repository's tests that
  still agree with this snapshot, with the corrected `string` (see "## Findings").
  Where a scenario fails, it also states the as-written outcome, whose location is
  the whole stream rather than an index.

How the snapshot differs from the later library that its tests describe:

- It has no furthest-failure tracking. `p | q` reports only `q`'s failure
  (`Laws.OrBacktracks`, `Scenarios.OrWithThenScenario`).
- `expected` is a single string, not a set.
- `parse` does not require the whole input to be consumed (`Scenarios.ParseLeavesRest`).
- There is no forward declaration, `seq`, `alt`, `times`, `sep_by` or `until`.

The model follows the snapshot in all of these.

Modelling choices:

- `many` is a recursive specification function (`Parsers.ManyFrom`) and a method
  with the source's `while` loop (`Parsers.RunMany`). The loop reassigns `index` and
  appends to `aggregate`, and is proved equal to the function. `many` requires
  `Progressing(p)`: every success of `p`, at every stream and index, moves forward and
  stays within the stream. This is enough for the loop to end, and more than it needs
  for a `Forward` parser, which never moves back or past the end. Every parser built
  from `success`, `string`, `regex` and the combinators is `Forward` (`Laws.StringForward`,
  `Laws.RegexForward`, `Laws.BindForward`, `Laws.OrForward`, `Laws.ManyForward`,
  `CombineLaws.CombineForward`). For such a parser the loop ends unless a success
  without movement happens at an index it reaches; only the other direction is proved:
  once one does, the loop never ends (`ManyLaws.ManyLoopsWithoutProgress`). For example,
  `string('a') | regex('(?=z)')` is not `Progressing`, yet on "aab" the loop stops
  with ['a', 'a'] (`ManyLaws.ManyStopsWithoutProgressing`). A parser built directly
  with `Parser(fn)` that is not `Forward` can move on every success and still never
  stop, for instance one that always succeeds one past the index.
- Python's generator is modelled as a state machine, `Combine.Routine`. It has a
  first step, a `resume` function from (state, sent value) to the next step, and a
  `rank` on states. A step is `Yield(parser, state)`, `Return(value)` or
  `ReturnParser(parser)`. `Ranked` demands that the rank falls on each further
  yield, so the driving loop `Combine.RunCombine` terminates. The rank is not part
  of the source.
- A value in Python can be of any type. Here each parser has one value type `V`, and
  a routine uses one value type for everything it yields.
- Python's `re` module is not modelled. `regex` takes a `Matcher` function that
  gives the end of a match anchored at the index. As with `match.end()` for an index
  within the stream (every index a parse from 0 reaches), that end is never before the
  index and never past the end of the stream. Python clamps an index past the end to
  the stream's length; the model's matcher does not.

## Model

| member | source | states |
|---|---|---|
| `Laws.SucceedNeverFails` | src/parsy/__init__.py:119-124 | `success(v)` never fails: at any index it succeeds there with `v`, consuming nothing |
| `Continuations.CallSucceed` | src/parsy/__init__.py:121-122 | `success_parser` calls `on_success(index, val)` |
| `Laws.SliceMatches` | src/parsy/__init__.py:131 | `stream[i:i+len(s)] == s` holds exactly when `s` is empty or occurs at `i`; a slice past the end is shorter, never an error |
| `Laws.StringMatch` | src/parsy/__init__.py:126-134 | `string(s)` succeeds iff `s` occurs at the index (or is empty), then ends at index+len(s) with value `s`; otherwise it fails at the index expecting `s` (corrected location) |
| `Laws.StringAsWrittenReportsStream` | src/parsy/__init__.py:130-134 | as written, `string(s)` succeeds in exactly the same cases, but its failure names the whole stream as the location |
| `Continuations.CallStringAsWritten` | src/parsy/__init__.py:130-134 | `string_parser` calls `on_success(index+slen, s)` on a match, else `on_failure(stream, s)` |
| `Laws.StringFailureLosesIndex` | src/parsy/__init__.py:134 | on "ay", `string('a') >> string('x')` fails with the location 'ay' as written, but index 1 once corrected |
| `Laws.StringForward` | src/parsy/__init__.py:126-134 | `string(s)` never moves back or past the end; with non-empty `s` every success advances |
| `Laws.RegexForward` | src/parsy/__init__.py:140-150 | `regex` never moves back or past the end; if its matches are never empty, every success advances |
| `Laws.RegexOutcome` | src/parsy/__init__.py:140-150 | `regex` succeeds iff the matcher matches at the index, ending at the match end with the matched slice; otherwise it fails at the index expecting the pattern |
| `Laws.BindFailure` | src/parsy/__init__.py:26-35 | if `p` fails, `p.bind(f)` fails with `p`'s failure unchanged |
| `Laws.BindIgnoresContinuation` | src/parsy/__init__.py:26-35 | if `p` fails, the outcome does not depend on `f` (`f` is never called) |
| `Laws.BindSuccess` | src/parsy/__init__.py:29-31 | if `p` succeeds at `j` with `r`, `p.bind(f)` gives exactly what `f(r)` gives from `j` |
| `Continuations.CallBind` | src/parsy/__init__.py:26-35 | the source's continuation-passing `bound_parser` agrees with the model's `Bind` |
| `Laws.BindLeftIdentity` | src/parsy/__init__.py:26-35 | `success(v).bind(f)` behaves as `f(v)` |
| `Laws.BindRightIdentity` | src/parsy/__init__.py:26-35 | `p.bind(success)` behaves as `p` |
| `Laws.BindAssociative` | src/parsy/__init__.py:26-35 | `p.bind(f).bind(g)` behaves as `p.bind(lambda r: f(r).bind(g))` |
| `Laws.BindForward` | src/parsy/__init__.py:26-35 | `bind` of forward parsers never moves back or past the end |
| `Laws.MapOutcome` | src/parsy/__init__.py:37-38 | `p.map(g)` ends where `p` ends with `g` of its value; a failure is unchanged |
| `Laws.MapComposes` | src/parsy/__init__.py:37-38 | `p.map(f).map(g)` behaves as `p.map(lambda r: g(f(r)))` |
| `Laws.MapProgressing` | src/parsy/__init__.py:37-38 | mapping does not change how far a parser moves |
| `Laws.ThenOutcome` | src/parsy/__init__.py:40-41 | `p.then(q)` is `p`'s failure, or `q` run from where `p` stopped, so it ends after `q` with `q`'s value |
| `Laws.ThenProgressing` | src/parsy/__init__.py:40-41 | an advancing parser followed by a forward one always advances |
| `Laws.ResultOutcome` | src/parsy/__init__.py:46-47 | `p.result(v)` ends where `p` ends with value `v`; a failure is unchanged |
| `Laws.SkipOutcome` | src/parsy/__init__.py:43-44 | `p.skip(q)` ends after `q` with `p`'s value; the first failure of `p` or `q` is the outcome |
| `Parsers.OrOperator` | src/parsy/__init__.py:72-84 | `p \| other` raises `TypeError` exactly when `other` is not a parser; otherwise it tries `p` and then `other` |
| `Laws.OrLeftBiased` | src/parsy/__init__.py:76-82 | if `p` succeeds, `p \| q` gives `p`'s outcome, whatever `q` |
| `Laws.OrBacktracks` | src/parsy/__init__.py:78-80 | if `p` fails, `p \| q` gives exactly `q`'s outcome from the original index; `p`'s failure is discarded |
| `Continuations.CallOr` | src/parsy/__init__.py:76-82 | the source's `or_parser`, whose failure continuation reruns from the closed-over index, agrees with `Or` |
| `Laws.OrAssociative` | src/parsy/__init__.py:72-84 | ordered choice may be regrouped |
| `Laws.OrForward` | src/parsy/__init__.py:72-84 | choice of forward (or advancing) parsers is forward (or advancing) |
| `Parsers.ManyFrom` | src/parsy/__init__.py:49-67 | `many` never fails, never moves back, stays within the stream, and collects nothing exactly when it does not move |
| `Parsers.RunMany` | src/parsy/__init__.py:51-65 | the source's loop, which moves `index` and appends to `aggregate` while `p` succeeds, gives exactly the outcome of `many` |
| `Continuations.CallMany` | src/parsy/__init__.py:62-65 | `many_parser` always ends in `on_success(index, aggregate)`, never in `on_failure` |
| `ManyLaws.ManyRepeats` | src/parsy/__init__.py:53-65 | `many` returns the values of `p`'s successive successes, in order; it ends where `p` next fails, and that failed attempt changes neither index nor list |
| `ManyLaws.ManyIsLongestRepeat` | src/parsy/__init__.py:53-65 | any run of successes of `p` that ends at a failure is exactly what `many` returns |
| `ManyLaws.ManyGreedy` | src/parsy/__init__.py:62-63 | `p` can be repeated `n` times in a row iff `n` is at most the number of values `many` collects |
| `ManyLaws.ManyLoopsWithoutProgress` | src/parsy/__init__.py:62-63 | if `p` succeeds without moving at an index the loop reaches, no number of repetitions reaches a failure, so the loop never ends |
| `ManyLaws.ManyStopsWithoutProgressing` | src/parsy/__init__.py:62-65 | `string('a') \| regex('(?=z)')` is not `Progressing`, yet on "aab" it succeeds twice and then fails, so the loop stops with ['a', 'a'] |
| `Laws.ManyForward` | src/parsy/__init__.py:49-67 | `many` of an advancing parser never moves back or past the end |
| `Combine.RunCombine` | src/parsy/__init__.py:101-117 | the loop that runs each yielded parser, stops at the first failure, and sends each value back gives exactly the outcome of `combine` |
| `CombineLaws.SendYield` | src/parsy/__init__.py:105-108 | a yielded parser runs from the current index; its failure fails the whole parser, and on success its value is sent to the routine, whose next step runs from the new index |
| `CombineLaws.SendReturn` | src/parsy/__init__.py:109-113 | a plain returned value `v` becomes `success(v)` |
| `CombineLaws.SendReturnParser` | src/parsy/__init__.py:109-111 | a returned parser is run as the final step |
| `CombineLaws.CombineStartsAfresh` | src/parsy/__init__.py:102-103 | every run starts the routine from its first step, independent of earlier runs |
| `CombineLaws.CombineForward` | src/parsy/__init__.py:101-117 | a routine that runs only forward parsers gives a forward parser |
| `Parsers.Parse` | src/parsy/__init__.py:16-24 | `parse` runs from index 0; it gives the value on success, whatever is left unconsumed, and on failure a `ParseError` with the failure's location and expectation |
| `Continuations.CallParse` | src/parsy/__init__.py:16-24 | `parse` is the parser called at 0 with a success continuation returning the result and a failure continuation raising `ParseError` |
| `Scenarios.ThenScenario` | test/test_parsy.py:24-29 | `string('x') >> string('y')` gives "y" on "xy" and fails on "y" and "z", at index 0 with the corrected `string`; as written the location is the stream "y" or "z" |
| `Scenarios.BindScenario` | test/test_parsy.py:31-44 | `string('x').bind(binder)` passes "x" to the binder; with a binder returning `string('y')` it gives "y" on "xy", and it fails on "x" alone at index 1 with the corrected `string`; as written the location is the stream "x" |
| `Scenarios.OrScenario` | test/test_parsy.py:144-148 | `string('x') \| string('y')` accepts either letter |
| `Scenarios.OrWithThenScenario` | test/test_parsy.py:150-155 | `(string('\\') >> string('y')) \| string('z')` accepts "\\y" and "z"; on "\\z" it backtracks and fails expecting "z", at index 0 with the corrected `string`; as written the location is the stream "\\z" |
| `Scenarios.ManyXsStop` | src/parsy/__init__.py:62-65 | `string('x').many()` over a run of "x" stops just before the first other character |
| `Scenarios.ManyWithThenScenario` | test/test_parsy.py:165-169 | `string('x').many() >> string('y')` gives "y" on any run of "x" followed by "y" |
| `Scenarios.ManyWithThenTestInputs` | test/test_parsy.py:165-169 | `string('x').many() >> string('y')` gives "y" on "y", "xy" and "xxxxxy" |
| `Scenarios.ParseLeavesRest` | src/parsy/__init__.py:16-24 | `string('x').many().parse('1')` succeeds with an empty list, since `parse` does not demand the end of input |
| `Scenarios.CombineScenario` | src/parsy/__init__.py:101-117 | a routine that yields `string('x')` and then `string('y')` and returns the second value behaves as `string('x') >> string('y')` |

## Left out

- The operator aliases `>>=`, `>>` and `<<` (src/parsy/__init__.py:89-98) are the same functions as `Bind`, `Then` and `Skip`. They get no members of their own.
- `times` (src/parsy/__init__.py:69-70) only raises a string literal and has no behaviour to model.
- `whitespace` is one particular `regex`. Python's `re` engine is a foreign library, so `regex` takes its matcher as a parameter.
- The text of error messages is not modelled: the `ParseError` message and the `TypeError` message of `__or__`. Only the (location, expected) payload of `ParseError` is kept. The `TypeError` message formats the class `Parser` rather than the offending operand.
- Parsers.RunMany: the method and `many` require `Progressing(p)` at every stream and index. The source accepts any parser. For a `Forward` parser its loop ends unless a success without movement happens at an index the loop reaches; only the "never ends" direction is proved (`ManyLaws.ManyLoopsWithoutProgress`). Some parsers the source handles are therefore excluded (`ManyLaws.ManyStopsWithoutProgressing`).
- Parsers.ManyFrom: has the same `Progressing(p)` precondition as `Parsers.RunMany`, stronger than termination needs, for the same reason: it gives `many` a termination measure that does not depend on the stream's contents.
- Combine.RunCombine: the method and `combine` require a `Ranked` routine, which yields a bounded number of times. The source accepts any generator. A generator that stops only because the input runs out is not covered.
- Python's dynamic typing is not modelled. Every parser has a single value type, and the right operand of `|` is either a parser or "some other value". A routine for `combine` says by its step (`Return` or `ReturnParser`) whether its returned value is a parser. The source decides this with `isinstance(result.value, Parser)`. So a `Return(v)` whose `v` is itself a parser gives `Success(i, v)` in the model, where the source would run `v`.
- Host call-stack depth is not modelled. This covers the recursive continuation calls and the `send`/`bind` chain in `combine`.
- Sharing of the mutable `aggregate` list between `many` and its caller is not modelled; the model returns a sequence value.
- The version import is not part of this model.

## Findings

| source | as written | input that shows it | evidently intended | confidence | as-written member | corrected member |
|---|---|---|---|---|---|---|
| src/parsy/__init__.py:134 | on a mismatch `string_parser` calls `on_failure(stream, s)`, passing the whole stream as the failure location | `(string('a') >> string('x')).parse('ay')` raises a `ParseError` located at 'ay' (message "expected 'x' at 'ay'") instead of at index 1 | report the index at which the literal was expected, as `regex_parser` does at line 150 | not executed | `Parsers.StringAsWritten`, shown by `Laws.StringFailureLosesIndex` | `Parsers.String`, proved by `Laws.StringMatch` |
