/** `combine(fn)` of src/parsy/__init__.py behaves as a sequential loop: these lemmas
    relate the driving loop to the source's own recursive definition, in which
    `send(val)` returns `next_parser.bind(lambda result: send(result))`. */
module CombineLaws {
  import opened Outcomes
  import opened Parsers
  import opened Combine

  /** A yielded parser runs from the current index; its failure is the outcome of the
      whole parser, and its value is sent back to the routine, whose next step runs
      from where the yielded parser stopped. */
  lemma SendYield<S(!new), V(!new)>(g: Routine<S, V>, p: Parser<V>, st: S, s: Stream, i: nat)
    requires Ranked(g)
    ensures Send(g, Yield(p, st)).fn(s, i) == Bind(p, (v: V) => Send(g, g.resume(st, v))).fn(s, i)
    ensures p.fn(s, i).Failure? ==> Send(g, Yield(p, st)).fn(s, i) == Failure(p.fn(s, i).where, p.fn(s, i).expected)
  {
  }

  /** A plain value returned by the routine becomes `success(value)`. */
  lemma SendReturn<S(!new), V(!new)>(g: Routine<S, V>, v: V, s: Stream, i: nat)
    requires Ranked(g)
    ensures Send(g, Return(v)).fn(s, i) == Success(i, v)
  {
  }

  /** A parser returned by the routine is run as the last step. */
  lemma SendReturnParser<S(!new), V(!new)>(g: Routine<S, V>, q: Parser<V>, s: Stream, i: nat)
    requires Ranked(g)
    ensures Send(g, ReturnParser(q)).fn(s, i) == q.fn(s, i)
  {
  }

  /** Every run of `combine(fn)` starts the routine afresh from its first step, whatever
      runs came before: the outcome depends only on the stream and the index. */
  lemma CombineStartsAfresh<S(!new), V(!new)>(g: Routine<S, V>, s: Stream, i: nat)
    requires Ranked(g)
    ensures CombineParser(g).fn(s, i) == Send(g, g.start).fn(s, i)
  {
  }

  /** The parser a step will run next, if any, never moves back or past the end. */
  ghost predicate StepForward<S, V>(step: Step<S, V>)
  {
    match step
    case Yield(p, _) => Forward(p)
    case Return(_) => true
    case ReturnParser(q) => Forward(q)
  }

  /** Every parser the routine can yield or return is forward. */
  ghost predicate RoutineForward<S(!new), V(!new)>(g: Routine<S, V>)
  {
    StepForward(g.start) && forall st: S, v: V :: StepForward(g.resume(st, v))
  }

  lemma {:induction false} DriveForward<S(!new), V(!new)>(g: Routine<S, V>, step: Step<S, V>, s: Stream, i: nat)
    requires Ranked(g) && RoutineForward(g) && StepForward(step)
    ensures Drive(g, step, s, i).Success? ==> i <= Drive(g, step, s, i).next <= Max(i, |s|)
    decreases StepRank(g, step)
  {
    match step
    case Return(_) =>
    case ReturnParser(q) =>
    case Yield(p, st) =>
      match p.fn(s, i)
      case Failure(_, _) =>
      case Success(j, v) =>
        assert StepForward(g.resume(st, v));
        DriveForward(g, g.resume(st, v), s, j);
  }

  /** A routine that only runs forward parsers gives a forward parser. */
  lemma CombineForward<S(!new), V(!new)>(g: Routine<S, V>)
    requires Ranked(g) && RoutineForward(g)
    ensures Forward(CombineParser(g))
  {
    forall s: Stream, i: nat | CombineParser(g).fn(s, i).Success?
      ensures i <= CombineParser(g).fn(s, i).next <= Max(i, |s|)
    {
      DriveForward(g, g.start, s, i);
    }
  }
}
