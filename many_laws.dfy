/** What `p.many()` (src/parsy/__init__.py, `many_parser`) computes, stated against an
    independent reference: running `p` a given number of times in sequence. */
module ManyLaws {
  import opened Outcomes
  import opened Parsers
  import opened Laws

  /** `p` run `n` times in a row, each run starting where the previous one stopped,
      collecting the values; the first failure is the outcome. */
  function Repeat<V>(p: Parser<V>, s: Stream, i: nat, n: nat): (r: Outcome<seq<V>>)
    ensures r.Success? ==> |r.value| == n
    decreases n
  {
    if n == 0 then Success(i, [])
    else
      match p.fn(s, i)
      case Failure(w, e) => Failure(w, e)
      case Success(j, v) =>
        match Repeat(p, s, j, n - 1)
        case Failure(w, e) => Failure(w, e)
        case Success(k, vs) => Success(k, [v] + vs)
  }

  /** `many` gives exactly the successive successes of `p`, in order, and ends at the
      index where `p` next fails: the failed attempt changes neither index nor list. */
  lemma {:induction false} ManyRepeats<V>(p: Parser<V>, s: Stream, i: nat)
    requires Progressing(p)
    ensures Repeat(p, s, i, |ManyFrom(p, s, i).value|) == ManyFrom(p, s, i)
    ensures p.fn(s, ManyFrom(p, s, i).next).Failure?
    decreases |s| - i
  {
    match p.fn(s, i)
    case Failure(_, _) =>
    case Success(j, v) =>
      ManyRepeats(p, s, j);
      var rest := ManyFrom(p, s, j);
      assert ManyFrom(p, s, i) == Success(rest.next, [v] + rest.value);
      assert Repeat(p, s, i, 1 + |rest.value|) == Success(rest.next, [v] + rest.value);
  }

  /** Conversely, any number of successive successes of `p` followed by a failure is
      what `many` returns: its outcome is determined by that stopping point. */
  lemma {:induction false} ManyIsLongestRepeat<V>(p: Parser<V>, s: Stream, i: nat, n: nat)
    requires Progressing(p)
    requires Repeat(p, s, i, n).Success?
    requires p.fn(s, Repeat(p, s, i, n).next).Failure?
    ensures ManyFrom(p, s, i) == Repeat(p, s, i, n)
    decreases n
  {
    if n > 0 {
      var j := p.fn(s, i).next;
      ManyIsLongestRepeat(p, s, j, n - 1);
    }
  }

  /** `many` is greedy: `p` can be run `n` times in a row exactly when `n` is at most
      the number of values `many` collects. */
  lemma {:induction false} ManyGreedy<V>(p: Parser<V>, s: Stream, i: nat, n: nat)
    requires Progressing(p)
    ensures Repeat(p, s, i, n).Success? <==> n <= |ManyFrom(p, s, i).value|
    decreases n
  {
    if n > 0 {
      match p.fn(s, i)
      case Failure(_, _) =>
      case Success(j, v) =>
        ManyGreedy(p, s, j, n - 1);
    }
  }

  lemma {:induction false} RepeatStays<V>(p: Parser<V>, s: Stream, i: nat, n: nat)
    requires p.fn(s, i).Success? && p.fn(s, i).next == i
    ensures Repeat(p, s, i, n).Success? && Repeat(p, s, i, n).next == i
    decreases n
  {
    if n > 0 {
      RepeatStays(p, s, i, n - 1);
    }
  }

  /** Why `many` needs progress: when `p` succeeds at an index without moving, no
      number of repetitions ever reaches a failure of `p`, so the source's loop
      `while self(stream, index, success, failure)` never ends there. */
  lemma ManyLoopsWithoutProgress<V>(p: Parser<V>, s: Stream, i: nat)
    requires p.fn(s, i).Success? && p.fn(s, i).next == i
    ensures forall n: nat :: Repeat(p, s, i, n).Success? && p.fn(s, Repeat(p, s, i, n).next).Success?
  {
    forall n: nat
      ensures Repeat(p, s, i, n).Success? && p.fn(s, Repeat(p, s, i, n).next).Success?
    {
      RepeatStays(p, s, i, n);
    }
  }

  /** The matcher of a zero-width lookahead `(?=z)`: an empty match before each 'z'. */
  function LookaheadZ(): Matcher
  {
    (s: Stream, i: nat) => if i < |s| && s[i] == 'z' then Some(i) else None
  }

  /** `Progressing` is more than the loop needs. `string('a') | regex('(?=z)')`
      succeeds without moving before a 'z', so it is not `Progressing`; yet on "aab"
      it succeeds twice and then fails, so `many_parser` stops there with ['a', 'a']. */
  lemma ManyStopsWithoutProgressing()
    ensures !Progressing(Or(String("a"), Regex("(?=z)", LookaheadZ())))
    ensures Repeat(Or(String("a"), Regex("(?=z)", LookaheadZ())), "aab", 0, 2) == Success(2, ["a", "a"])
    ensures Or(String("a"), Regex("(?=z)", LookaheadZ())).fn("aab", 2).Failure?
  {
    var p := Or(String("a"), Regex("(?=z)", LookaheadZ()));
    StringMatch("a", "z", 0);
    assert "z"[0..1][0] != "a"[0];
    RegexOutcome("(?=z)", LookaheadZ(), "z", 0);
    OrBacktracks(String("a"), Regex("(?=z)", LookaheadZ()), "z", 0);
    assert p.fn("z", 0).Success? && p.fn("z", 0).next == 0;
    StringMatch("a", "aab", 0);
    StringMatch("a", "aab", 1);
    StringMatch("a", "aab", 2);
    assert "aab"[0..1] == "a";
    assert "aab"[1..2] == "a";
    assert "aab"[2..3][0] != "a"[0];
    RegexOutcome("(?=z)", LookaheadZ(), "aab", 2);
    OrBacktracks(String("a"), Regex("(?=z)", LookaheadZ()), "aab", 2);
    assert p.fn("aab", 0) == Success(1, "a");
    assert p.fn("aab", 1) == Success(2, "a");
    assert Repeat(p, "aab", 2, 0) == Success(2, []);
    var tail := ["a"];
    assert [p.fn("aab", 1).value] + [] == tail;
    assert Repeat(p, "aab", 1, 1) == Success(2, tail);
    assert [p.fn("aab", 0).value] + tail == ["a", "a"];
  }
}
