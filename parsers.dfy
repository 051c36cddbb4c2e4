/** The `Parser` class of src/parsy/__init__.py, its primitives and its combinators.

    The source writes a parser as a function of (stream, index, on_success, on_failure)
    in continuation-passing style. Every combinator calls each continuation at most
    once, so a parser is modelled here in direct style, as a function from
    (stream, index) to an `Outcome`; module `Continuations` shows that the source's
    continuation-passing definitions agree with these. */
module Parsers {
  import opened Outcomes

  /** A parser: `Parser.fn`, run by `__call__`. */
  datatype Parser<V> = Parser(fn: (Stream, nat) -> Outcome<V>)

  /** The parser never moves backwards, and moves only as far as the end of the stream. */
  ghost predicate Forward<V>(p: Parser<V>)
  {
    forall s: Stream, i: nat :: p.fn(s, i).Success? ==> i <= p.fn(s, i).next <= Max(i, |s|)
  }

  /** Every success consumes at least one element of the stream, at every stream and
      index. This is enough for `many` to stop. For a `Forward` parser it is stronger
      than the loop needs, which stops unless a success without movement happens at
      an index it reaches. */
  ghost predicate Progressing<V>(p: Parser<V>)
  {
    forall s: Stream, i: nat :: p.fn(s, i).Success? ==> i < p.fn(s, i).next <= |s|
  }

  // ---------------------------------------------------------------- primitives

  /** `success(val)`: succeeds with `val`, consuming nothing. */
  function Succeed<V>(v: V): Parser<V>
  {
    Parser((s: Stream, i: nat) => Success(i, v))
  }

  /** `string(s)` exactly as written: on a mismatch it reports the whole stream,
      not the index, as the failure location. */
  function StringAsWritten(lit: string): Parser<string>
  {
    Parser((s: Stream, i: nat) =>
      if Slice(s, i, i + |lit|) == lit then Success(i + |lit|, lit)
      else Failure(WholeStream(s), lit))
  }

  /** `string(s)` as evidently intended: the same match, with the failure reported at
      the index where the literal was expected. The rest of the model uses this one. */
  function String(lit: string): Parser<string>
  {
    Parser((s: Stream, i: nat) =>
      if Slice(s, i, i + |lit|) == lit then Success(i + |lit|, lit)
      else Failure(Index(i), lit))
  }

  /** What `regex` needs of Python's `re` module: given a stream and a start index,
      the end of a match anchored at that index, if there is one. As with `match.end()`,
      that end is never before the index and never past the end of the stream. */
  type Matcher = m: (Stream, nat) -> Option<nat>
    | forall s: Stream, i: nat :: m(s, i).Some? ==> i <= m(s, i).value <= Max(i, |s|)
    witness (s: Stream, i: nat) => None

  /** `regex(exp)`: succeeds at the end of the match with the matched text
      (`match.group(0)`), and fails at the index with the pattern as expectation. */
  function Regex(pattern: string, matcher: Matcher): Parser<string>
  {
    Parser((s: Stream, i: nat) =>
      match matcher(s, i)
      case Some(end) => Success(end, Slice(s, i, end))
      case None => Failure(Index(i), pattern))
  }

  // ---------------------------------------------------------------- combinators

  /** `p.bind(f)`: run `p`; on success run `f(result)` from where `p` stopped;
      a failure of `p` is passed on unchanged. */
  function Bind<A, B>(p: Parser<A>, f: A -> Parser<B>): Parser<B>
  {
    Parser((s: Stream, i: nat) =>
      match p.fn(s, i)
      case Success(j, r) => f(r).fn(s, j)
      case Failure(w, e) => Failure(w, e))
  }

  /** `p.map(g)`, defined in the source through `bind` and `success`. */
  function Map<A, B>(p: Parser<A>, g: A -> B): Parser<B>
  {
    Bind(p, (r: A) => Succeed(g(r)))
  }

  /** `p.then(q)` (also `p >> q`). */
  function Then<A, B>(p: Parser<A>, q: Parser<B>): Parser<B>
  {
    Bind(p, (_: A) => q)
  }

  /** `p.result(v)`. */
  function Result<A, B>(p: Parser<A>, v: B): Parser<B>
  {
    Then(p, Succeed(v))
  }

  /** `p.skip(q)` (also `p << q`). */
  function Skip<A, B>(p: Parser<A>, q: Parser<B>): Parser<A>
  {
    Bind(p, (r: A) => Result(q, r))
  }

  /** The parser `p | q` builds: run `p`; if it fails, run `q` from the index `p`
      started at, and report whatever `q` reports. */
  function Or<V>(p: Parser<V>, q: Parser<V>): Parser<V>
  {
    Parser((s: Stream, i: nat) =>
      match p.fn(s, i)
      case Success(j, r) => Success(j, r)
      case Failure(_, _) => q.fn(s, i))
  }

  /** The right operand of `|`, which Python does not restrict to parsers. */
  datatype Operand<V> = ParserOperand(parser: Parser<V>) | OtherValue

  /** Building `p | other`: either the combined parser or the `TypeError` raised
      at construction time. */
  datatype Built<V> = Built(parser: Parser<V>) | TypeError

  /** `Parser.__or__`: a `TypeError` exactly when the right operand is not a parser. */
  function OrOperator<V>(p: Parser<V>, other: Operand<V>): (r: Built<V>)
    ensures r.TypeError? <==> other.OtherValue?
    ensures r.Built? ==> forall s: Stream, i: nat ::
      r.parser.fn(s, i) == (if p.fn(s, i).Success? then p.fn(s, i) else other.parser.fn(s, i))
  {
    match other
    case ParserOperand(q) => Built(Or(p, q))
    case OtherValue => TypeError
  }

  /** The outcome of `many` from index `i`: repeat `p` until its first failure,
      collecting the values of its successes in order. */
  function ManyFrom<V>(p: Parser<V>, s: Stream, i: nat): (r: Outcome<seq<V>>)
    requires Progressing(p)
    ensures r.Success?
    ensures i <= r.next
    ensures r.next == i <==> r.value == []
    ensures r.next != i ==> r.next <= |s|
    decreases |s| - i
  {
    match p.fn(s, i)
    case Failure(_, _) => Success(i, [])
    case Success(j, v) =>
      var rest := ManyFrom(p, s, j);
      Success(rest.next, [v] + rest.value)
  }

  /** `p.many()`. */
  function Many<V>(p: Parser<V>): Parser<seq<V>>
    requires Progressing(p)
  {
    Parser((s: Stream, i: nat) => ManyFrom(p, s, i))
  }

  /** `many_parser` as the source runs it: a loop that moves `index` forward and
      appends to `aggregate` while `p` succeeds, and then succeeds itself. */
  method RunMany<V>(p: Parser<V>, s: Stream, i: nat) returns (r: Outcome<seq<V>>)
    requires Progressing(p)
    ensures r == Many(p).fn(s, i)
  {
    var index := i;
    var aggregate: seq<V> := [];
    assert aggregate + ManyFrom(p, s, index).value == ManyFrom(p, s, index).value;
    while true
      invariant ManyFrom(p, s, i) == Success(ManyFrom(p, s, index).next, aggregate + ManyFrom(p, s, index).value)
      decreases |s| - index
    {
      var attempt := p.fn(s, index);
      if attempt.Failure? {
        break;
      }
      ghost var rest := ManyFrom(p, s, attempt.next);
      assert ManyFrom(p, s, index).value == [attempt.value] + rest.value;
      assert aggregate + ([attempt.value] + rest.value) == (aggregate + [attempt.value]) + rest.value;
      index := attempt.next;
      aggregate := aggregate + [attempt.value];
    }
    assert aggregate + [] == aggregate;
    r := Success(index, aggregate);
  }

  // ---------------------------------------------------------------- top level

  /** What `Parser.parse` gives its caller: the value, or the `ParseError` it raises. */
  datatype ParseResult<V> = Parsed(value: V) | ParseError(where: Location, expected: string)

  /** `p.parse(string)`: run from index 0; a success gives its value whatever is left
      unconsumed, a failure becomes a `ParseError` carrying its location and expectation. */
  function Parse<V>(p: Parser<V>, s: Stream): (r: ParseResult<V>)
    ensures r.Parsed? <==> p.fn(s, 0).Success?
    ensures r.Parsed? ==> r.value == p.fn(s, 0).value
    ensures r.ParseError? ==> r.where == p.fn(s, 0).where && r.expected == p.fn(s, 0).expected
  {
    match p.fn(s, 0)
    case Success(_, v) => Parsed(v)
    case Failure(w, e) => ParseError(w, e)
  }
}
