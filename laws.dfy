/** Laws of the combinator algebra of src/parsy/__init__.py: what each primitive and
    combinator gives in terms of the outcomes of the parsers it is built from, and the
    index discipline (never backwards, never past the end) they all keep. */
module Laws {
  import opened Outcomes
  import opened Parsers

  /** Two parsers that give the same outcome on every stream and at every index. */
  ghost predicate Equivalent<V>(p: Parser<V>, q: Parser<V>)
  {
    forall s: Stream, i: nat :: p.fn(s, i) == q.fn(s, i)
  }

  // ---------------------------------------------------------------- success

  /** `success(v)` never fails and consumes nothing. */
  lemma SucceedNeverFails<V>(v: V, s: Stream, i: nat)
    ensures Succeed(v).fn(s, i) == Success(i, v)
  {
  }

  // ---------------------------------------------------------------- string

  /** The slice `stream[i:i+len(lit)]` equals `lit` exactly when `lit` is empty or lies
      in the stream at `i`; a slice that runs past the end is just shorter. */
  lemma SliceMatches(s: Stream, i: nat, lit: string)
    ensures Slice(s, i, i + |lit|) == lit <==> lit == [] || (i + |lit| <= |s| && s[i..i + |lit|] == lit)
  {
  }

  /** `string(lit)` succeeds exactly when `lit` occurs at the index, moving past it
      with `lit` as value; otherwise it fails at the index expecting `lit`. A short
      stream or an index past its end is a mismatch, not an error. */
  lemma StringMatch(lit: string, s: Stream, i: nat)
    ensures String(lit).fn(s, i).Success? <==> lit == [] || (i + |lit| <= |s| && s[i..i + |lit|] == lit)
    ensures String(lit).fn(s, i).Success? ==> String(lit).fn(s, i) == Success(i + |lit|, lit)
    ensures String(lit).fn(s, i).Failure? ==> String(lit).fn(s, i) == Failure(Index(i), lit)
  {
  }

  /** The literal matcher as written succeeds exactly where the corrected one does, but
      on a mismatch it names the whole stream as the location and loses the index. */
  lemma StringAsWrittenReportsStream(lit: string, s: Stream, i: nat)
    ensures StringAsWritten(lit).fn(s, i).Success? <==> lit == [] || (i + |lit| <= |s| && s[i..i + |lit|] == lit)
    ensures StringAsWritten(lit).fn(s, i).Success? ==> StringAsWritten(lit).fn(s, i) == String(lit).fn(s, i)
    ensures StringAsWritten(lit).fn(s, i).Failure? ==> StringAsWritten(lit).fn(s, i) == Failure(WholeStream(s), lit)
  {
    SliceMatches(s, i, lit);
  }

  /** A concrete input: after `a` has been read from "ay", the literal `x` is missing at
      index 1, yet the `ParseError` built from the as-written matcher carries the stream
      "ay" and not the index 1, so its message reads "expected 'x' at 'ay'". */
  lemma StringFailureLosesIndex()
    ensures Parse(Then(String("a"), StringAsWritten("x")), "ay") == ParseError(WholeStream("ay"), "x")
    ensures Parse(Then(String("a"), String("x")), "ay") == ParseError(Index(1), "x")
  {
    StringMatch("a", "ay", 0);
    StringAsWrittenReportsStream("x", "ay", 1);
    StringMatch("x", "ay", 1);
    assert "ay"[1..2][0] != "x"[0];
    ThenOutcome(String("a"), StringAsWritten("x"), "ay", 0);
    ThenOutcome(String("a"), String("x"), "ay", 0);
  }

  // ---------------------------------------------------------------- regex

  /** `regex(exp)` succeeds exactly when the matcher finds a match at the index; it
      then moves to the end of the match, never backwards, with the matched text as
      value. Otherwise it fails at the index expecting the pattern. */
  lemma RegexOutcome(pattern: string, m: Matcher, s: Stream, i: nat)
    ensures Regex(pattern, m).fn(s, i).Success? <==> m(s, i).Some?
    ensures Regex(pattern, m).fn(s, i).Success? ==>
      i <= Regex(pattern, m).fn(s, i).next == m(s, i).value &&
      Regex(pattern, m).fn(s, i).value == Slice(s, i, m(s, i).value)
    ensures Regex(pattern, m).fn(s, i).Failure? ==> Regex(pattern, m).fn(s, i) == Failure(Index(i), pattern)
  {
  }

  // ---------------------------------------------------------------- bind

  /** When `p` fails, `p.bind(f)` fails with `p`'s failure unchanged. */
  lemma BindFailure<A, B>(p: Parser<A>, f: A -> Parser<B>, s: Stream, i: nat)
    requires p.fn(s, i).Failure?
    ensures Bind(p, f).fn(s, i) == Failure(p.fn(s, i).where, p.fn(s, i).expected)
  {
  }

  /** When `p` fails, the continuation plays no part: any two give the same outcome. */
  lemma BindIgnoresContinuation<A, B>(p: Parser<A>, f: A -> Parser<B>, g: A -> Parser<B>, s: Stream, i: nat)
    requires p.fn(s, i).Failure?
    ensures Bind(p, f).fn(s, i) == Bind(p, g).fn(s, i)
  {
  }

  /** When `p` succeeds at `j` with `r`, `p.bind(f)` is `f(r)` run from `j`. */
  lemma BindSuccess<A, B>(p: Parser<A>, f: A -> Parser<B>, s: Stream, i: nat)
    requires p.fn(s, i).Success?
    ensures Bind(p, f).fn(s, i) == f(p.fn(s, i).value).fn(s, p.fn(s, i).next)
  {
  }

  /** `success(v).bind(f)` is `f(v)`. */
  lemma BindLeftIdentity<A, B>(v: A, f: A -> Parser<B>)
    ensures Equivalent(Bind(Succeed(v), f), f(v))
  {
  }

  /** `p.bind(success)` is `p`. */
  lemma BindRightIdentity<V>(p: Parser<V>)
    ensures Equivalent(Bind(p, (r: V) => Succeed(r)), p)
  {
  }

  /** Nested binds may be regrouped. */
  lemma BindAssociative<A, B, C>(p: Parser<A>, f: A -> Parser<B>, g: B -> Parser<C>)
    ensures Equivalent(Bind(Bind(p, f), g), Bind(p, (r: A) => Bind(f(r), g)))
  {
  }

  // ---------------------------------------------------------------- map, then, skip, result

  /** `p.map(g)` stops where `p` stops, with `g` of its value; a failure is unchanged. */
  lemma MapOutcome<A, B>(p: Parser<A>, g: A -> B, s: Stream, i: nat)
    ensures Map(p, g).fn(s, i) ==
      match p.fn(s, i)
      case Success(j, r) => Success(j, g(r))
      case Failure(w, e) => Failure(w, e)
  {
  }

  /** Mapping twice is mapping once with the composed function. */
  lemma MapComposes<A, B, C>(p: Parser<A>, f: A -> B, g: B -> C)
    ensures Equivalent(Map(Map(p, f), g), Map(p, (r: A) => g(f(r))))
  {
  }

  /** `p.then(q)` gives `p`'s failure, or else `q` run from where `p` stopped,
      so on success it ends where `q` ends with `q`'s value. */
  lemma ThenOutcome<A, B>(p: Parser<A>, q: Parser<B>, s: Stream, i: nat)
    ensures Then(p, q).fn(s, i) ==
      match p.fn(s, i)
      case Success(j, _) => q.fn(s, j)
      case Failure(w, e) => Failure(w, e)
  {
  }

  /** `p.result(v)` stops where `p` stops, with value `v`; a failure is unchanged. */
  lemma ResultOutcome<A, B>(p: Parser<A>, v: B, s: Stream, i: nat)
    ensures Result(p, v).fn(s, i) ==
      match p.fn(s, i)
      case Success(j, _) => Success(j, v)
      case Failure(w, e) => Failure(w, e)
  {
  }

  /** `p.skip(q)` ends where `q` ends but keeps `p`'s value; the first failure of
      `p` or of `q` is the outcome. */
  lemma SkipOutcome<A, B>(p: Parser<A>, q: Parser<B>, s: Stream, i: nat)
    ensures Skip(p, q).fn(s, i) ==
      match p.fn(s, i)
      case Failure(w, e) => Failure(w, e)
      case Success(j, r) =>
        match q.fn(s, j)
        case Success(k, _) => Success(k, r)
        case Failure(w, e) => Failure(w, e)
  {
  }

  // ---------------------------------------------------------------- or

  /** `p | q` is left-biased: when `p` succeeds its outcome is the result, whatever `q`. */
  lemma OrLeftBiased<V>(p: Parser<V>, q: Parser<V>, s: Stream, i: nat)
    requires p.fn(s, i).Success?
    ensures Or(p, q).fn(s, i) == p.fn(s, i)
  {
  }

  /** When `p` fails, `p | q` backtracks: `q` runs from the original index and its
      outcome, success or failure, is the result; `p`'s failure is dropped. */
  lemma OrBacktracks<V>(p: Parser<V>, q: Parser<V>, s: Stream, i: nat)
    requires p.fn(s, i).Failure?
    ensures Or(p, q).fn(s, i) == q.fn(s, i)
  {
  }

  /** Ordered choice may be regrouped. */
  lemma OrAssociative<V>(p: Parser<V>, q: Parser<V>, r: Parser<V>)
    ensures Equivalent(Or(Or(p, q), r), Or(p, Or(q, r)))
  {
  }

  // ---------------------------------------------------------------- index discipline

  /** `string(lit)` never moves back or past the end; with a non-empty literal it
      always advances, so it may be repeated by `many`. */
  lemma StringForward(lit: string)
    ensures Forward(String(lit))
    ensures |lit| > 0 ==> Progressing(String(lit))
  {
    forall s: Stream, i: nat | String(lit).fn(s, i).Success?
      ensures i <= String(lit).fn(s, i).next <= Max(i, |s|)
      ensures |lit| > 0 ==> i < String(lit).fn(s, i).next <= |s|
    {
      StringMatch(lit, s, i);
    }
  }

  /** `regex(exp)` never moves back or past the end, so it composes with `many` (when
      its matches are never empty) and `combine` as `string` does. */
  lemma RegexForward(pattern: string, m: Matcher)
    ensures Forward(Regex(pattern, m))
    ensures (forall s: Stream, i: nat :: m(s, i).Some? ==> i < m(s, i).value) ==> Progressing(Regex(pattern, m))
  {
  }

  /** `bind` keeps the index discipline of its parts. */
  lemma BindForward<A(!new), B>(p: Parser<A>, f: A -> Parser<B>)
    requires Forward(p)
    requires forall r: A :: Forward(f(r))
    ensures Forward(Bind(p, f))
  {
  }

  /** A sequence whose first part always advances, and whose second never moves
      back, always advances. */
  lemma ThenProgressing<A, B>(p: Parser<A>, q: Parser<B>)
    requires Progressing(p)
    requires Forward(q)
    ensures Progressing(Then(p, q))
  {
  }

  /** Mapping a value does not change how far a parser moves. */
  lemma MapProgressing<A, B>(p: Parser<A>, g: A -> B)
    requires Progressing(p)
    ensures Progressing(Map(p, g))
  {
  }

  /** Ordered choice of two forward (or two advancing) parsers is again one. */
  lemma OrForward<V>(p: Parser<V>, q: Parser<V>)
    ensures Forward(p) && Forward(q) ==> Forward(Or(p, q))
    ensures Progressing(p) && Progressing(q) ==> Progressing(Or(p, q))
  {
  }

  /** `many` never moves back or past the end. */
  lemma ManyForward<V>(p: Parser<V>)
    requires Progressing(p)
    ensures Forward(Many(p))
  {
  }
}
