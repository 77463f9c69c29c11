/**
 * End markers: every character outside the input set ends a number the
 * way the '!' that `process` feeds does. Because the `for` loop of
 * `process` does not stop when a character returns a result, an end
 * marker in the middle of the input only records a base, which every
 * later transition either overwrites or ignores.
 */
module EndMarkers {
  import opened Utils
  import opened LexicalSpec
  import opened Transitions

  /** Every character outside the input set acts as '!' does. */
  lemma AnyEndMarker(s: Scanner, e: char)
    requires e !in INPUT_SET
    ensures Step(s, e) == Step(s, END_MARKER)
  {
    EndMarkerOutside();
    if AcceptBase(s.state) != NoBase {
      EndMarkerAccepts(s, e);
      EndMarkerAccepts(s, END_MARKER);
    } else if IsSink(s.state) {
      SinkStep(s, e);
      SinkStep(s, END_MARKER);
    } else {
      PendingEnd(s, e);
      PendingEnd(s, END_MARKER);
    }
  }

  /** START_STATE, HEX_STATE and ONE_DIGIT_STATE fall into the error state on an end marker. */
  lemma PendingEnd(s: Scanner, e: char)
    requires e !in INPUT_SET && AcceptBase(s.state) == NoBase && !IsSink(s.state)
    ensures Step(s, e) == (s.(base := if s.state == HexState then BaseHex else s.base, state := ErrorState), None)
  {
  }

  /** Once an end marker has produced a result, further end markers repeat it and change nothing. */
  lemma AnswerIsFinal(s: Scanner, e1: char, e2: char)
    requires Step(s, e1).1.Some? && e2 !in INPUT_SET
    ensures Step(Step(s, e1).0, e2) == Step(s, e1)
  {
    StepTransition(s, e1);
    if IsSink(s.state) {
      SinkStep(s, e1);
      SinkStep(s, e2);
    } else {
      assert AcceptBase(s.state) != NoBase;
      EndMarkerAccepts(s, e1);
      EndMarkerAccepts(Step(s, e1).0, e2);
    }
  }

  /** An end marker after characters that have not produced a result acts as the first '!' of the `while` loop. */
  lemma EndMarkerPending(cs: seq<char>, e: char)
    requires e !in INPUT_SET && Feed(Initial, cs).1.None?
    ensures Conclude(cs + [e]) == Conclude(cs)
  {
    var s := Feed(Initial, cs).0;
    FeedSnoc(Initial, cs, e);
    AnyEndMarker(s, e);
    DrainOnce(s);
  }

  /** An end marker after an end marker that produced a result repeats that result. */
  lemma EndMarkerAnswered(cs: seq<char>, e: char)
    requires cs != [] && e !in INPUT_SET && Feed(Initial, cs).1.Some?
    ensures Conclude(cs + [e]) == Conclude(cs)
  {
    var pre, last := cs[..|cs| - 1], cs[|cs| - 1];
    assert cs == pre + [last];
    FeedSnoc(Initial, pre, last);
    FeedSnoc(Initial, cs, e);
    AnswerIsFinal(Feed(Initial, pre).0, last, e);
  }

  /** An end marker after some characters changes neither the final fields nor the result. */
  lemma ConcludeEndMarker(cs: seq<char>, e: char)
    requires cs != [] && e !in INPUT_SET
    ensures Conclude(cs + [e]) == Conclude(cs)
  {
    if Feed(Initial, cs).1.None? {
      EndMarkerPending(cs, e);
    } else {
      EndMarkerAnswered(cs, e);
    }
  }

  /**
   * An end marker after the input changes nothing: `process(x + c)` ends
   * with the same fields and result as `process(x)` ("256B^" and "256B",
   * "256Z" and "256").
   */
  lemma TrailingEndMarker(input: string, c: char)
    requires |input| > 0 && LowerChar(c) !in INPUT_SET
    ensures Run(input + [c]) == Run(input)
  {
    assert Lower(input + [c]) == Lower(input) + [LowerChar(c)];
    ConcludeEndMarker(Lower(input), LowerChar(c));
  }

  /** Two scanners that differ at most in their recorded base. */
  predicate SameButBase(s: Scanner, t: Scanner)
  {
    s.(base := NoBase) == t.(base := NoBase)
  }

  /**
   * The recorded base is never read before it is set again: two scanners
   * that differ only in it take the same transition and return the same.
   */
  lemma StepIgnoresBase(s: Scanner, t: Scanner, c: char)
    requires SameButBase(s, t)
    ensures SameButBase(Step(s, c).0, Step(t, c).0)
    ensures Step(s, c).1 == Step(t, c).1
  {
    match s.state
    case StartState =>
    case AnyState =>
    case DecState =>
    case HexState =>
    case DecHexState =>
    case OctHexState =>
    case HState =>
    case OneDigitState =>
    case _ =>
  }

  lemma {:induction false} FeedIgnoresBase(s: Scanner, t: Scanner, q: seq<char>)
    requires SameButBase(s, t)
    ensures SameButBase(Feed(s, q).0, Feed(t, q).0)
    ensures Feed(s, q).1 == Feed(t, q).1
  {
    if q != [] {
      FeedIgnoresBase(s, t, q[..|q| - 1]);
      StepIgnoresBase(Feed(s, q[..|q| - 1]).0, Feed(t, q[..|q| - 1]).0, q[|q| - 1]);
    }
  }

  lemma DrainIgnoresBase(s: Scanner, t: Scanner, r: Option<Output>)
    requires SameButBase(s, t)
    ensures Drain(s, r).1 == Drain(t, r).1
    decreases if r.Some? then 0 else 1 + EndRank(s.state)
  {
    if r.Some? {
      DrainSettled(s, r);
      DrainSettled(t, r);
    } else {
      DrainOnce(s);
      DrainOnce(t);
      EndMarkerSettles(s);
      StepIgnoresBase(s, t, END_MARKER);
      DrainIgnoresBase(Step(s, END_MARKER).0, Step(t, END_MARKER).0, Step(s, END_MARKER).1);
    }
  }

  /**
   * An end marker inside the input, where the scanner already holds a
   * complete number, is skipped: the scan goes on as if it were not there
   * ("12 34" reads as "1234"). In any other state it decides the result.
   */
  lemma MidEndMarker(p: seq<char>, e: char, q: seq<char>)
    requires e !in INPUT_SET && q != []
    requires EndRank(Walk(StartState, p)) == 0
    ensures Conclude(p + [e] + q).1 == Conclude(p + q).1
  {
    FeedWalk(Initial, p);
    var s := Feed(Initial, p).0;
    FeedSnoc(Initial, p, e);
    FeedSplit(Initial, p + [e], q);
    FeedSplit(Initial, p, q);
    var s' := Step(s, e).0;
    if IsSink(s.state) {
      SinkStep(s, e);
    } else {
      EndMarkerAccepts(s, e);
    }
    assert SameButBase(s', s);
    FeedIgnoresBase(s', s, q);
    DrainIgnoresBase(Feed(s', q).0, Feed(s, q).0, Feed(s, q).1);
  }
}
