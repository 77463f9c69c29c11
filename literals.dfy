/**
 * What `process` returns for the three literal forms of the class comment,
 * `(+|-)?[0-9]+`, `[0-7]+[bB]` and `[0-9a-fA-F]+[hH]`, and for a run of
 * digit characters with no suffix at all.
 */
module Literals {
  import opened Utils
  import opened LexicalSpec
  import opened Accumulation
  import opened Transitions

  /** A decimal result: the value, or the signed overflow report outside [-2^31, 2^31 - 1]. */
  function DecimalOutcome(v: int): (r: Output)
    ensures r.Dec? <==> MIN_INT <= v <= MAX_INT
    ensures r.Dec? ==> r.value == v
    ensures !r.Dec? ==> r == Overflow(Some(SIGNED_OVERFLOW))
  {
    if MIN_INT <= v <= MAX_INT then Dec(v) else Overflow(Some(SIGNED_OVERFLOW))
  }

  /** An octal result: the value, or the unsigned overflow report above 2^32. */
  function OctalOutcome(v: int): (r: Output)
    ensures r.Oct? <==> v <= UNSIGNED_MAX_INT
    ensures r.Oct? ==> r.value == v
    ensures !r.Oct? ==> r == Overflow(Some(UNSIGNED_OVERFLOW))
  {
    if v <= UNSIGNED_MAX_INT then Oct(v) else Overflow(Some(UNSIGNED_OVERFLOW))
  }

  /** A hexadecimal result: the value, or the unsigned overflow report above 2^32. */
  function HexOutcome(v: int): (r: Output)
    ensures r.Hex? <==> v <= UNSIGNED_MAX_INT
    ensures r.Hex? ==> r.value == v
    ensures !r.Hex? ==> r == Overflow(Some(UNSIGNED_OVERFLOW))
  {
    if v <= UNSIGNED_MAX_INT then Hex(v) else Overflow(Some(UNSIGNED_OVERFLOW))
  }

  /**
   * The state a run of digit characters leaves the scanner in, read off the
   * run itself: octal digits only, decimal digits only, octal digits with
   * a 'b' after a leading octal digit, or anything else (a hexadecimal run).
   */
  ghost function RunState(ds: seq<char>): State
  {
    if ds == [] then StartState
    else if AllIn(ds, LOWER_DIGIT) then AnyState
    else if AllIn(ds, DIGITS) then DecHexState
    else if ds[0] in LOWER_DIGIT && AllIn(ds, LOWER_DIGIT + {'b'}) then OctHexState
    else HexState
  }

  lemma AllInSnoc(ds: seq<char>, c: char, chars: set<char>)
    ensures AllIn(ds + [c], chars) <==> AllIn(ds, chars) && c in chars
  {
    if AllIn(ds + [c], chars) {
      assert forall i :: 0 <= i < |ds| ==> ds[i] == (ds + [c])[i];
      assert c == (ds + [c])[|ds|];
    }
  }

  /** The table's walk over a run agrees with the run's own classification, one character at a time. */
  lemma RunStateSnoc(ds: seq<char>, c: char)
    requires AllIn(ds, HEX_DIGITS) && c in HEX_DIGITS
    ensures Transition(RunState(ds), ClassOf(c)) == RunState(ds + [c])
  {
    AllInSnoc(ds, c, LOWER_DIGIT);
    AllInSnoc(ds, c, DIGITS);
    AllInSnoc(ds, c, LOWER_DIGIT + {'b'});
    if ds == [] {
      assert (ds + [c])[0] == c;
    } else {
      assert (ds + [c])[0] == ds[0];
      if !AllIn(ds, LOWER_DIGIT + {'b'}) {
        assert !AllIn(ds + [c], LOWER_DIGIT + {'b'});
      }
    }
  }

  /** The run's classification is the state the DFA table reaches on it. */
  lemma {:induction false} RunWalk(ds: seq<char>)
    requires AllIn(ds, HEX_DIGITS)
    ensures Walk(StartState, ds) == RunState(ds)
  {
    if ds != [] {
      var p, c := ds[..|ds| - 1], ds[|ds| - 1];
      assert ds == p + [c];
      assert AllIn(p, HEX_DIGITS);
      RunWalk(p);
      RunStateSnoc(p, c);
    }
  }

  /** A step that `_value_transition` made keeps the totals faithful, one more digit read. */
  lemma ValueStepTracks(s: Scanner, next: Scanner, ds: seq<char>, c: char)
    requires AllIn(ds, HEX_DIGITS) && c in HEX_DIGITS
    requires s.sign == 1 || s.sign == -1
    requires TracksMatch(s, ds) && ValueStep(s, next, c)
    ensures AllIn(ds + [c], HEX_DIGITS)
    ensures TracksMatch(next, ds + [c])
  {
    ValueTransitionTracks(s, ds, next.state, c);
  }

  /** One more character of a digit run. */
  lemma RunStep(s: Scanner, ds: seq<char>, c: char)
    requires AllIn(ds, HEX_DIGITS) && c in HEX_DIGITS
    requires s.sign == 1 && s.state == RunState(ds) && TracksMatch(s, ds)
    ensures AllIn(ds + [c], HEX_DIGITS)
    ensures Step(s, c).1.None? && Step(s, c).0.sign == 1
    ensures Step(s, c).0.state == RunState(ds + [c])
    ensures TracksMatch(Step(s, c).0, ds + [c])
  {
    StepTransition(s, c);
    RunStateSnoc(ds, c);
    ValueStepTracks(s, Step(s, c).0, ds, c);
  }

  /**
   * After a run of digit characters the scanner has returned nothing, the
   * sign is positive, the state is the run's classification and all three
   * totals are faithful to the run's values.
   */
  lemma {:induction false} DigitRun(ds: seq<char>)
    requires AllIn(ds, HEX_DIGITS)
    ensures Feed(Initial, ds).1.None?
    ensures Feed(Initial, ds).0.sign == 1
    ensures Feed(Initial, ds).0.state == RunState(ds)
    ensures TracksMatch(Feed(Initial, ds).0, ds)
  {
    if ds != [] {
      var p, c := ds[..|ds| - 1], ds[|ds| - 1];
      assert ds == p + [c];
      assert AllIn(p, HEX_DIGITS);
      DigitRun(p);
      RunStep(Feed(Initial, p).0, p, c);
    }
  }

  /** One more digit after a sign. */
  lemma SignedStep(s: Scanner, sg: char, ds: seq<char>, c: char)
    requires AllIn(ds, HEX_DIGITS) && c in DIGITS
    requires (s.sign == 1 || s.sign == -1) && TracksMatch(s, ds)
    requires s.state == OneDigitState || s.state == DecState
    ensures AllIn(ds + [c], HEX_DIGITS)
    ensures Step(s, c).1.None? && Step(s, c).0.sign == s.sign
    ensures Step(s, c).0.state == DecState
    ensures TracksMatch(Step(s, c).0, ds + [c])
  {
    StepTransition(s, c);
    ValueStepTracks(s, Step(s, c).0, ds, c);
  }

  /** A leading sign is recorded and moves to ONE_DIGIT_STATE. */
  lemma SignFirst(sg: char)
    requires sg in SIGN
    ensures Feed(Initial, [sg]) == (Initial.(state := OneDigitState, sign := if sg == '-' then -1 else 1), None)
  {
    assert [sg][..0] == [];
  }

  /** A sign and one decimal digit. */
  lemma SignedFirstDigit(sg: char, c: char)
    requires sg in SIGN && c in DIGITS
    ensures Feed(Initial, [sg, c]).1.None?
    ensures Feed(Initial, [sg, c]).0.sign == if sg == '-' then -1 else 1
    ensures Feed(Initial, [sg, c]).0.state == DecState
    ensures TracksMatch(Feed(Initial, [sg, c]).0, [c])
  {
    SignFirst(sg);
    FeedSnoc(Initial, [sg], c);
    assert [sg] + [c] == [sg, c] && [] + [c] == [c];
    SignedStep(Feed(Initial, [sg]).0, sg, [], c);
  }

  /**
   * After a sign and a non-empty run of decimal digits the scanner has
   * returned nothing, holds that sign, is in DEC_STATE and its totals are
   * faithful to the digits.
   */
  lemma {:induction false} SignedRun(sg: char, ds: seq<char>)
    requires sg in SIGN && |ds| > 0 && AllIn(ds, DIGITS)
    ensures AllIn(ds, HEX_DIGITS)
    ensures Feed(Initial, [sg] + ds).1.None?
    ensures Feed(Initial, [sg] + ds).0.sign == if sg == '-' then -1 else 1
    ensures Feed(Initial, [sg] + ds).0.state == DecState
    ensures TracksMatch(Feed(Initial, [sg] + ds).0, ds)
  {
    var p, c := ds[..|ds| - 1], ds[|ds| - 1];
    assert ds == p + [c];
    if p == [] {
      assert ds == [c] && [sg] + ds == [sg, c];
      SignedFirstDigit(sg, c);
    } else {
      assert [sg] + ds == ([sg] + p) + [c];
      assert AllIn(p, DIGITS);
      SignedRun(sg, p);
      FeedSnoc(Initial, [sg] + p, c);
      SignedStep(Feed(Initial, [sg] + p).0, sg, p, c);
    }
  }

  /** What `process` returns for a run of digit characters with no suffix. */
  ghost function RunOutcome(ds: seq<char>): Output
    requires AllIn(ds, HEX_DIGITS)
  {
    match RunState(ds)
    case AnyState => DecimalOutcome(ValueIn(ds, 10))
    case DecHexState => DecimalOutcome(ValueIn(ds, 10))
    case OctHexState => OctalOutcome(OctalValue(ds))
    case _ => Error(GENERIC_ERROR)
  }

  /** A scanner in a state that reads as decimal settles on the first end marker with its decimal total. */
  lemma SettleDecimal(s: Scanner, v: int)
    requires s.state == AnyState || s.state == DecHexState || s.state == DecState
    requires TrackHolds(s.dec, v, MIN_INT, MAX_INT)
    ensures Drain(s, None).1 == DecimalOutcome(v)
  {
    Accepted(s);
  }

  /** OCT_HEX_STATE settles on the first end marker with its octal total. */
  lemma SettleOctal(s: Scanner, v: int)
    requires s.state == OctHexState && v >= 0 && TrackHolds(s.oct, v, 0, UNSIGNED_MAX_INT)
    ensures Drain(s, None).1 == OctalOutcome(v)
  {
    Accepted(s);
  }

  /** H_STATE settles on the first end marker with its hexadecimal total. */
  lemma SettleHex(s: Scanner, v: int)
    requires s.state == HState && v >= 0 && TrackHolds(s.hex, v, 0, UNSIGNED_MAX_INT)
    ensures Drain(s, None).1 == HexOutcome(v)
  {
    Accepted(s);
  }

  lemma Accepted(s: Scanner)
    requires AcceptBase(s.state) != NoBase
    ensures Drain(s, None).1 == Accept(s.(base := AcceptBase(s.state))).value
  {
    var s' := s.(base := AcceptBase(s.state));
    EndMarkerOutside();
    EndMarkerAccepts(s, END_MARKER);
    DrainOnce(s);
    assert Drain(s, None) == Drain(s', Accept(s'));
    DrainSettled(s', Accept(s'));
  }

  /** A sink settles on the first end marker with its report. */
  lemma SettleSink(s: Scanner)
    requires IsSink(s.state)
    ensures Drain(s, None).1 == SinkOutput(s.state)
  {
    EndMarkerOutside();
    SinkStep(s, END_MARKER);
    DrainOnce(s);
    DrainSettled(s, Some(SinkOutput(s.state)));
  }

  /**
   * START_STATE, ONE_DIGIT_STATE and HEX_STATE have nothing to settle on:
   * the first end marker moves to the error state, the second reports it.
   */
  lemma SettlePending(s: Scanner)
    requires EndRank(s.state) == 1
    ensures Drain(s, None).1 == Error(GENERIC_ERROR)
  {
  }

  /**
   * A bare run is read as decimal when it holds decimal digits only, as
   * octal when it is octal digits with a 'b' after the first (every digit
   * of value 8 or more skipped, so digits after the 'b' still count), and is
   * an error otherwise: a hexadecimal run needs its 'h'.
   */
  lemma BareRun(input: string)
    requires |input| > 0 && AllIn(Lower(input), HEX_DIGITS)
    ensures Classify(input) == RunOutcome(Lower(input))
  {
    var ds := Lower(input);
    DigitRun(ds);
    var s := Feed(Initial, ds).0;
    ClassifyAfter(input, s);
    match RunState(ds)
    case AnyState => SettleDecimal(s, ValueIn(ds, 10));
    case DecHexState => SettleDecimal(s, ValueIn(ds, 10));
    case OctHexState => SettleOctal(s, OctalValue(ds));
    case HexState => SettlePending(s);
  }

  /** ASCII case folding leaves every character of the input set alone. */
  lemma LowerKeeps(cs: seq<char>)
    requires AllIn(cs, INPUT_SET)
    ensures Lower(cs) == cs
  {
  }

  lemma LowerSnoc(cs: seq<char>, c: char)
    ensures Lower(cs + [c]) == Lower(cs) + [LowerChar(c)]
  {
  }

  /** A run of decimal digits is a digit run of the input set that reads as decimal. */
  lemma DecimalDigits(ds: seq<char>)
    requires |ds| > 0 && AllIn(ds, DIGITS)
    ensures AllIn(ds, HEX_DIGITS) && AllIn(ds, INPUT_SET)
    ensures RunState(ds) == AnyState || RunState(ds) == DecHexState
  {
  }

  /** `(+|-)?[0-9]+` without the sign: the decimal value, or OVERFLOW above 2^31 - 1. */
  lemma UnsignedDecimal(input: string)
    requires |input| > 0 && AllIn(input, DIGITS)
    ensures Classify(input) == DecimalOutcome(ValueIn(input, 10))
  {
    DecimalDigits(input);
    LowerKeeps(input);
    DigitRun(input);
    var s := Feed(Initial, input).0;
    ClassifyAfter(input, s);
    SettleDecimal(s, ValueIn(input, 10));
  }

  lemma SignedLower(sg: char, ds: string)
    requires sg in SIGN && AllIn(ds, DIGITS)
    ensures Lower([sg] + ds) == [sg] + ds
  {
    assert AllIn([sg] + ds, INPUT_SET) by {
      forall i | 0 <= i < |[sg] + ds|
        ensures ([sg] + ds)[i] in INPUT_SET
      {
        if i > 0 {
          assert ([sg] + ds)[i] == ds[i - 1];
        }
      }
    }
    LowerKeeps([sg] + ds);
  }

  lemma OctalLower(ds: string, b: char)
    requires AllIn(ds, LOWER_DIGIT) && (b == 'b' || b == 'B')
    ensures Lower(ds + [b]) == ds + ['b']
  {
    LowerKeeps(ds);
    LowerSnoc(ds, b);
  }

  /** `(+|-)?[0-9]+` with the sign: the signed value, or OVERFLOW outside [-2^31, 2^31 - 1]. */
  lemma SignedDecimal(sg: char, ds: string)
    requires sg in SIGN && |ds| > 0 && AllIn(ds, DIGITS)
    ensures AllIn(ds, HEX_DIGITS)
    ensures Classify([sg] + ds) == DecimalOutcome(Signed(if sg == '-' then -1 else 1, ValueIn(ds, 10)))
  {
    SignedLower(sg, ds);
    SignedRun(sg, ds);
    var s := Feed(Initial, [sg] + ds).0;
    ClassifyAfter([sg] + ds, s);
    SettleDecimal(s, Signed(s.sign, ValueIn(ds, 10)));
  }

  /** With only octal digits, the octal track's value is the run read in base 8. */
  lemma {:induction false} OctalDigitsValue(ds: seq<char>)
    requires AllIn(ds, LOWER_DIGIT)
    ensures AllIn(ds, HEX_DIGITS)
    ensures OctalValue(ds) == ValueIn(ds, 8)
  {
    if ds != [] {
      assert AllIn(ds[..|ds| - 1], LOWER_DIGIT);
      OctalDigitsValue(ds[..|ds| - 1]);
    }
  }

  /** Octal digits then a 'b' make an OCT_HEX_STATE run whose octal value is that of the digits. */
  lemma OctalRun(ds: seq<char>)
    requires |ds| > 0 && AllIn(ds, LOWER_DIGIT)
    ensures AllIn(ds + ['b'], HEX_DIGITS)
    ensures RunState(ds + ['b']) == OctHexState
    ensures OctalValue(ds + ['b']) == ValueIn(ds, 8)
  {
    var cs := ds + ['b'];
    AllInSnoc(ds, 'b', HEX_DIGITS);
    AllInSnoc(ds, 'b', LOWER_DIGIT);
    AllInSnoc(ds, 'b', LOWER_DIGIT + {'b'});
    assert !AllIn(cs, DIGITS) by {
      assert cs[|ds|] == 'b';
    }
    assert cs[0] == ds[0];
    OctalDigitsValue(ds);
    ValueInSnoc(ds, 'b', 8);
  }

  /** `[0-7]+[bB]`: the octal value of the digits, or OVERFLOW above 2^32. */
  lemma OctalLiteral(ds: string, b: char)
    requires |ds| > 0 && AllIn(ds, LOWER_DIGIT) && (b == 'b' || b == 'B')
    ensures AllIn(ds, HEX_DIGITS)
    ensures Classify(ds + [b]) == OctalOutcome(ValueIn(ds, 8))
  {
    OctalLower(ds, b);
    OctalRun(ds);
    var cs := ds + ['b'];
    DigitRun(cs);
    var s := Feed(Initial, cs).0;
    ClassifyAfter(ds + [b], s);
    SettleOctal(s, OctalValue(cs));
  }

  /** An 'h' after a digit run moves to H_STATE and leaves the hexadecimal total alone. */
  lemma HStep(s: Scanner)
    requires s.state in {AnyState, DecHexState, OctHexState, HexState}
    ensures Step(s, 'h').1.None? && Step(s, 'h').0.state == HState && Step(s, 'h').0.hex == s.hex
  {
  }

  /** `[0-9a-fA-F]+[hH]`: the hexadecimal value of the characters before the 'h', or OVERFLOW above 2^32. */
  lemma HexLiteral(ds: string, h: char)
    requires |ds| > 0 && AllIn(Lower(ds), HEX_DIGITS) && (h == 'h' || h == 'H')
    ensures Classify(ds + [h]) == HexOutcome(ValueIn(Lower(ds), 16))
  {
    var cs := Lower(ds);
    LowerSnoc(ds, h);
    DigitRun(cs);
    var s := Feed(Initial, cs).0;
    HStep(s);
    FeedSnoc(Initial, cs, 'h');
    var hs := Step(s, 'h').0;
    ClassifyAfter(ds + [h], hs);
    SettleHex(hs, ValueIn(cs, 16));
  }
}
