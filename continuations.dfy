/** The source's own calling convention: `Parser.__call__(stream, index, on_success,
    on_failure)`. Each lemma here restates one definition of src/parsy/__init__.py in
    that continuation-passing form and shows it equal to the direct-style model, so
    the model runs every continuation exactly where the source does. */
module Continuations {
  import opened Outcomes
  import opened Parsers

  /** Running a parser with two continuations: exactly one of them is called, once. */
  function Call<V, R>(p: Parser<V>, s: Stream, i: nat,
                      onSuccess: (nat, V) -> R, onFailure: (Location, string) -> R): R
  {
    match p.fn(s, i)
    case Success(j, v) => onSuccess(j, v)
    case Failure(w, e) => onFailure(w, e)
  }

  /** `success_parser` tail-calls `on_success(index, val)`. */
  lemma CallSucceed<V, R>(v: V, s: Stream, i: nat, ks: (nat, V) -> R, kf: (Location, string) -> R)
    ensures Call(Succeed(v), s, i, ks, kf) == ks(i, v)
  {
  }

  /** `string_parser` calls `on_success(index + len(s), s)` on a match and
      `on_failure(stream, s)` otherwise. */
  lemma CallStringAsWritten<R>(lit: string, s: Stream, i: nat, ks: (nat, string) -> R, kf: (Location, string) -> R)
    ensures Call(StringAsWritten(lit), s, i, ks, kf) ==
      if Slice(s, i, i + |lit|) == lit then ks(i + |lit|, lit) else kf(WholeStream(s), lit)
  {
  }

  /** `bound_parser` runs `p` with a success continuation that builds `f(result)` and
      runs it from the new index with the outer continuations; `on_failure` is passed
      through untouched. */
  lemma CallBind<A, B, R>(p: Parser<A>, f: A -> Parser<B>, s: Stream, i: nat,
                          ks: (nat, B) -> R, kf: (Location, string) -> R)
    ensures Call(Bind(p, f), s, i, ks, kf) ==
      Call(p, s, i, (j: nat, r: A) => Call(f(r), s, j, ks, kf), kf)
  {
  }

  /** `or_parser` runs the left parser with a failure continuation that runs the right
      parser from the original, closed-over index. */
  lemma CallOr<V, R>(p: Parser<V>, q: Parser<V>, s: Stream, i: nat,
                     ks: (nat, V) -> R, kf: (Location, string) -> R)
    ensures Call(Or(p, q), s, i, ks, kf) ==
      Call(p, s, i, ks, (w: Location, e: string) => Call(q, s, i, ks, kf))
  {
  }

  /** `many_parser` never calls its `on_failure`: it always ends in `on_success`. */
  lemma CallMany<V, R>(p: Parser<V>, s: Stream, i: nat, ks: (nat, seq<V>) -> R, kf: (Location, string) -> R)
    requires Progressing(p)
    ensures Call(Many(p), s, i, ks, kf) == ks(ManyFrom(p, s, i).next, ManyFrom(p, s, i).value)
  {
  }

  /** `parse` tail-calls the parser from index 0 with the identity-like success
      continuation and a failure continuation that raises `ParseError`. */
  lemma CallParse<V>(p: Parser<V>, s: Stream)
    ensures Parse(p, s) ==
      Call(p, s, 0, (_: nat, r: V) => Parsed(r), (w: Location, e: string) => ParseError(w, e))
  {
  }
}
