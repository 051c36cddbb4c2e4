/** `combine(fn)` of src/parsy/__init__.py: a parser written as a generator that
    yields parsers one at a time and receives each one's result back.

    Python's generator keeps its local state hidden between `send` calls. Here that
    state is explicit: a routine is a first step and a function that, given the
    routine's state and the value sent in, gives the next step. A `rank` on states
    bounds the number of yields still to come, which is what makes the driving loop
    terminate; Python gives no such bound. */
module Combine {
  import opened Outcomes
  import opened Parsers

  /** What the generator produces when it is resumed: a parser to run next (and the
      state to resume from), or the `StopIteration` value it returns, which is either a
      plain value or a parser to run as the last step. */
  datatype Step<S, V> =
    | Yield(parser: Parser<V>, state: S)
    | Return(value: V)
    | ReturnParser(last: Parser<V>)

  /** The generator function `fn`: `start` is what the first `send(None)` produces. */
  datatype Routine<!S, !V> = Routine(start: Step<S, V>, resume: (S, V) -> Step<S, V>, rank: S -> nat)

  /** Each resumption that yields again lowers the rank: the routine yields finitely often. */
  ghost predicate Ranked<S(!new), V(!new)>(g: Routine<S, V>)
  {
    forall st: S, v: V :: g.resume(st, v).Yield? ==> g.rank(g.resume(st, v).state) < g.rank(st)
  }

  function StepRank<S(!new), V(!new)>(g: Routine<S, V>, step: Step<S, V>): nat
  {
    match step
    case Yield(_, st) => g.rank(st) + 1
    case _ => 0
  }

  /** Running the generator from `step` at index `i`: each yielded parser runs where the
      previous one stopped and its value is sent back; the first failure is the result. */
  function Drive<S(!new), V(!new)>(g: Routine<S, V>, step: Step<S, V>, s: Stream, i: nat): Outcome<V>
    requires Ranked(g)
    decreases StepRank(g, step)
  {
    match step
    case Return(v) => Succeed(v).fn(s, i)
    case ReturnParser(q) => q.fn(s, i)
    case Yield(p, st) =>
      match p.fn(s, i)
      case Failure(w, e) => Failure(w, e)
      case Success(j, v) => Drive(g, g.resume(st, v), s, j)
  }

  /** `send(val)` after the generator has produced `step`: the parser that runs the rest. */
  function Send<S(!new), V(!new)>(g: Routine<S, V>, step: Step<S, V>): Parser<V>
    requires Ranked(g)
  {
    Parser((s: Stream, i: nat) => Drive(g, step, s, i))
  }

  /** `combine(fn)`: the generator is only started inside `success(None).bind(...)`,
      so every run of the parser begins from `start`. */
  function CombineParser<S(!new), V(!new)>(g: Routine<S, V>): Parser<V>
    requires Ranked(g)
  {
    Bind(Succeed(()), (_: ()) => Send(g, g.start))
  }

  /** The generator driven by a loop: run the yielded parser, stop on failure,
      otherwise move the index and resume the routine with the value. */
  method RunCombine<S(!new), V(!new)>(g: Routine<S, V>, s: Stream, i: nat) returns (r: Outcome<V>)
    requires Ranked(g)
    ensures r == CombineParser(g).fn(s, i)
  {
    var index := i;
    var step := g.start;
    while step.Yield?
      invariant Drive(g, g.start, s, i) == Drive(g, step, s, index)
      decreases StepRank(g, step)
    {
      var attempt := step.parser.fn(s, index);
      if attempt.Failure? {
        return Failure(attempt.where, attempt.expected);
      }
      index := attempt.next;
      step := g.resume(step.state, attempt.value);
    }
    match step
    case Return(v) => r := Success(index, v);
    case ReturnParser(q) => r := q.fn(s, index);
  }
}
