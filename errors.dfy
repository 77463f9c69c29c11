/**
 * The error reports of `process`. Once the scanner is in one of its three
 * sink states (OVERFLOW_STATE, ERROR_STATE, UNEXPECTED_H_ERROR) nothing
 * after it matters: the report of that sink is the result. The malformed
 * inputs of the class comment's grammar are shown to reach a sink.
 */
module Errors {
  import opened Utils
  import opened LexicalSpec
  import opened Accumulation
  import opened Transitions
  import opened Literals

  /** The table's walk, one more character. */
  lemma WalkSnoc(st: State, p: seq<char>, c: char)
    ensures Walk(st, p + [c]) == Transition(Walk(st, p), ClassOf(c))
  {
    assert (p + [c])[..|p|] == p;
  }

  /** A step that lands in a sink returns nothing or that sink's report. */
  lemma IntoSink(s: Scanner, c: char)
    requires IsSink(Step(s, c).0.state)
    ensures Step(s, c).1.None? || Step(s, c).1 == Some(SinkOutput(Step(s, c).0.state))
  {
    if IsSink(s.state) {
      SinkStep(s, c);
    } else {
      StepTransition(s, c);
    }
  }

  /** A sink absorbs every character: it keeps every field and returns at most its own report. */
  lemma {:induction false} SinkFeed(s: Scanner, q: seq<char>)
    requires IsSink(s.state)
    ensures Feed(s, q).0 == s
    ensures Feed(s, q).1.None? || Feed(s, q).1 == Some(SinkOutput(s.state))
  {
    if q != [] {
      SinkFeed(s, q[..|q| - 1]);
      SinkStep(s, q[|q| - 1]);
    }
  }

  /** The `while` loop of `process` on a sink ends with the sink's report. */
  lemma SinkFinal(s: Scanner, r: Option<Output>)
    requires IsSink(s.state) && (r.None? || r == Some(SinkOutput(s.state)))
    ensures Drain(s, r).1 == SinkOutput(s.state)
  {
    if r.None? {
      SettleSink(s);
    } else {
      DrainSettled(s, r);
    }
  }

  lemma LastSplit(p: seq<char>)
    requires p != []
    ensures p == p[..|p| - 1] + [p[|p| - 1]]
  {
  }

  /** A prefix that walks the table into a sink leaves the scanner there, with at most the sink's report. */
  lemma SinkPrefix(p: seq<char>)
    requires p != [] && IsSink(Walk(StartState, p))
    ensures Feed(Initial, p).0.state == Walk(StartState, p)
    ensures Feed(Initial, p).1.None? || Feed(Initial, p).1 == Some(SinkOutput(Walk(StartState, p)))
  {
    var pre, c := p[..|p| - 1], p[|p| - 1];
    LastSplit(p);
    FeedWalk(Initial, p);
    var t := Feed(Initial, pre).0;
    FeedSnoc(Initial, pre, c);
    assert Feed(Initial, p) == Step(t, c);
    IntoSink(t, c);
  }

  /**
   * A sink decides the result: when a prefix of the lower-cased input
   * walks the table into a sink, `process` returns that sink's report,
   * whatever characters follow.
   */
  lemma SinkDecides(input: string, p: seq<char>, rest: seq<char>)
    requires Lower(input) == p + rest && p != []
    requires IsSink(Walk(StartState, p))
    ensures Classify(input) == SinkOutput(Walk(StartState, p))
  {
    SinkPrefix(p);
    var s := Feed(Initial, p).0;
    if rest == [] {
      assert Lower(input) == p;
      SinkFinal(s, Feed(Initial, p).1);
    } else {
      FeedSplit(Initial, p, rest);
      SinkFeed(s, rest);
      SinkFinal(s, Feed(s, rest).1);
    }
  }

  /** The states the table can be in after a non-empty input without an 'h'. */
  predicate BeforeH(st: State)
  {
    st != StartState && st != HState && st != UnexpectedHError && st != OverflowState
  }

  lemma {:induction false} NoHWalk(p: seq<char>)
    requires p != [] && 'h' !in p
    ensures BeforeH(Walk(StartState, p))
  {
    var pre, c := p[..|p| - 1], p[|p| - 1];
    assert p == pre + [c];
    WalkSnoc(StartState, pre, c);
    if pre != [] {
      assert 'h' !in pre by {
        assert forall i :: 0 <= i < |pre| ==> pre[i] == p[i];
      }
      NoHWalk(pre);
    }
  }

  /**
   * A sign anywhere but first is the generic error, as long as no 'h' came
   * before it: "+-12", "+45-12", "12-".
   */
  lemma SignNotFirst(input: string, i: nat)
    requires 0 < i < |input| && Lower(input)[i] in SIGN && 'h' !in Lower(input)[..i]
    ensures Classify(input) == Error(GENERIC_ERROR)
  {
    var cs := Lower(input);
    var p := cs[..i + 1];
    assert p == cs[..i] + [cs[i]] && cs == p + cs[i + 1..];
    NoHWalk(cs[..i]);
    WalkSnoc(StartState, cs[..i], cs[i]);
    SinkDecides(input, p, cs[i + 1..]);
  }

  /** A sign alone, or a sign followed by anything but a decimal digit, is the generic error: "+", "-", "+h". */
  lemma SignWithoutDigit(input: string)
    requires |input| > 0 && input[0] in SIGN
    requires |input| == 1 || LowerChar(input[1]) !in DIGITS
    ensures Classify(input) == Error(GENERIC_ERROR)
  {
    var cs := Lower(input);
    if |input| == 1 {
      assert cs == [input[0]];
      SignFirst(input[0]);
      ClassifyAfter(input, Feed(Initial, cs).0);
      SettlePending(Feed(Initial, cs).0);
    } else {
      var p := cs[..2];
      assert p == [] + [cs[0]] + [cs[1]] && cs == p + cs[2..];
      WalkSnoc(StartState, [], cs[0]);
      WalkSnoc(StartState, [cs[0]], cs[1]);
      SinkDecides(input, p, cs[2..]);
    }
  }

  /**
   * A signed decimal followed by a letter, a 'b' or a sign is the generic
   * error ("-2345B"); followed by an 'h' it is the 'H' error, since a
   * hexadecimal number has no sign.
   */
  lemma DecSuffix(c: char)
    requires c in SIGN + ACF + {'b', 'h'}
    ensures IsSink(Transition(DecState, ClassOf(c)))
    ensures SinkOutput(Transition(DecState, ClassOf(c))) == if c == 'h' then Error(H_ERROR) else Error(GENERIC_ERROR)
  {
  }

  lemma SignedThenSuffix(input: string, sg: char, ds: seq<char>, c: char, rest: seq<char>)
    requires Lower(input) == [sg] + ds + [c] + rest
    requires sg in SIGN && |ds| > 0 && AllIn(ds, DIGITS)
    requires c in SIGN + ACF + {'b', 'h'}
    ensures Classify(input) == if c == 'h' then Error(H_ERROR) else Error(GENERIC_ERROR)
  {
    SignedRun(sg, ds);
    FeedWalk(Initial, [sg] + ds);
    WalkSnoc(StartState, [sg] + ds, c);
    DecSuffix(c);
    assert Lower(input) == ([sg] + ds + [c]) + rest;
    SinkDecides(input, [sg] + ds + [c], rest);
  }

  /** An 'h' with no digits before it is the 'H' error: "H". */
  lemma LeadingH(input: string)
    requires |input| > 0 && LowerChar(input[0]) == 'h'
    ensures Classify(input) == Error(H_ERROR)
  {
    var cs := Lower(input);
    assert cs == [] + [cs[0]] + cs[1..];
    WalkSnoc(StartState, [], cs[0]);
    SinkDecides(input, [cs[0]], cs[1..]);
  }

  /**
   * After a digit run and its 'h', a second 'h' is the 'H' error
   * ("FFFFFHH") and any other character of the input set the generic error
   * ("FFFFFHFFF").
   */
  lemma HSuffix(c: char)
    requires c in INPUT_SET
    ensures IsSink(Transition(HState, ClassOf(c)))
    ensures SinkOutput(Transition(HState, ClassOf(c))) == if c == 'h' then Error(H_ERROR) else Error(GENERIC_ERROR)
  {
  }

  /** The states a non-empty digit run can leave the table in. */
  predicate InRun(st: State)
  {
    st == AnyState || st == DecHexState || st == OctHexState || st == HexState
  }

  lemma {:induction false} DigitWalk(ds: seq<char>)
    requires |ds| > 0 && AllIn(ds, HEX_DIGITS)
    ensures InRun(Walk(StartState, ds))
  {
    var pre, c := ds[..|ds| - 1], ds[|ds| - 1];
    assert ds == pre + [c];
    WalkSnoc(StartState, pre, c);
    if pre != [] {
      assert AllIn(pre, HEX_DIGITS);
      DigitWalk(pre);
    }
  }

  /** A non-empty digit run and its 'h' walk the table to H_STATE. */
  lemma RunThenH(ds: seq<char>)
    requires InRun(Walk(StartState, ds))
    ensures Walk(StartState, ds + ['h']) == HState
  {
    WalkSnoc(StartState, ds, 'h');
  }

  lemma AfterH(input: string, ds: seq<char>, c: char, rest: seq<char>)
    requires Lower(input) == ds + ['h'] + [c] + rest
    requires |ds| > 0 && AllIn(ds, HEX_DIGITS) && c in INPUT_SET
    ensures Classify(input) == if c == 'h' then Error(H_ERROR) else Error(GENERIC_ERROR)
  {
    DigitWalk(ds);
    RunThenH(ds);
    WalkSnoc(StartState, ds + ['h'], c);
    HSuffix(c);
    assert Lower(input) == (ds + ['h'] + [c]) + rest;
    SinkDecides(input, ds + ['h'] + [c], rest);
  }

  /**
   * A digit run that reads neither as decimal nor as octal (one holding a
   * letter other than a 'b' after octal digits) needs its 'h': an end marker
   * right after it is the generic error, whatever follows.
   */
  lemma HexRunUnterminated(input: string, ds: seq<char>, e: char, rest: seq<char>)
    requires Lower(input) == ds + [e] + rest
    requires AllIn(ds, HEX_DIGITS) && RunState(ds) == HexState && e !in INPUT_SET
    ensures Classify(input) == Error(GENERIC_ERROR)
  {
    RunWalk(ds);
    WalkSnoc(StartState, ds, e);
    SinkDecides(input, ds + [e], rest);
  }

  /** An end marker first, before any digit, is the generic error. */
  lemma LeadingEndMarker(input: string)
    requires |input| > 0 && LowerChar(input[0]) !in INPUT_SET
    ensures Classify(input) == Error(GENERIC_ERROR)
  {
    var cs := Lower(input);
    assert cs == [] + [cs[0]] + cs[1..];
    WalkSnoc(StartState, [], cs[0]);
    SinkDecides(input, [cs[0]], cs[1..]);
  }
}
