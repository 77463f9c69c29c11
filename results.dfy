/**
 * What `process` can return at all, whatever the input: a decimal value
 * inside the signed 32-bit range, an octal or hexadecimal value in
 * [0, 2^32], an overflow report that always carries its message (the
 * message-less report of OVERFLOW_STATE never occurs, since no transition
 * enters that state), or one of the two error messages.
 */
module Results {
  import opened Utils
  import opened LexicalSpec
  import opened Accumulation
  import opened Transitions

  ghost predicate Possible(o: Output)
  {
    match o
    case Dec(v) => MIN_INT <= v <= MAX_INT
    case Oct(v) => 0 <= v <= UNSIGNED_MAX_INT
    case Hex(v) => 0 <= v <= UNSIGNED_MAX_INT
    case Overflow(reason) => reason.Some?
    case Error(message) => message == GENERIC_ERROR || message == H_ERROR
  }

  /** Whatever a single transition of a reachable scanner returns is possible. */
  lemma StepOutput(s: Scanner, c: char)
    requires Invariant(s)
    ensures Step(s, c).1.Some? ==> Possible(Step(s, c).1.value)
  {
    if Step(s, c).1.Some? {
      StepTransition(s, c);
      if IsSink(s.state) {
        SinkStep(s, c);
      } else {
        EndMarkerAccepts(s, c);
        assert Invariant(s.(base := AcceptBase(s.state)));
      }
    }
  }

  /** The `for` loop of `process` keeps the invariant and returns only possible results. */
  lemma {:induction false} FeedOutput(cs: seq<char>)
    ensures Invariant(Feed(Initial, cs).0)
    ensures Feed(Initial, cs).1.Some? ==> Possible(Feed(Initial, cs).1.value)
  {
    if cs != [] {
      var p := cs[..|cs| - 1];
      FeedOutput(p);
      StepKeepsInvariant(Feed(Initial, p).0, cs[|cs| - 1]);
      StepOutput(Feed(Initial, p).0, cs[|cs| - 1]);
    }
  }

  /** The `while` loop of `process` ends with a possible result. */
  lemma DrainOutput(s: Scanner, r: Option<Output>)
    requires Invariant(s) && (r.Some? ==> Possible(r.value))
    ensures Possible(Drain(s, r).1)
    decreases if r.Some? then 0 else 1 + EndRank(s.state)
  {
    if r.Some? {
      DrainSettled(s, r);
    } else {
      DrainOnce(s);
      EndMarkerSettles(s);
      StepKeepsInvariant(s, END_MARKER);
      StepOutput(s, END_MARKER);
      DrainOutput(Step(s, END_MARKER).0, Step(s, END_MARKER).1);
    }
  }

  /** `process` returns only possible results; in particular never the OVERFLOW_STATE report. */
  lemma OutputPossible(input: string)
    requires |input| > 0
    ensures Possible(Classify(input))
    ensures Classify(input) != Overflow(None)
  {
    FeedOutput(Lower(input));
    DrainOutput(Feed(Initial, Lower(input)).0, Feed(Initial, Lower(input)).1);
  }
}
