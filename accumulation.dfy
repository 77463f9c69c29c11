/**
 * Exactness of the speculative accumulation: each running total's overflow
 * flag is set exactly when the true value of the digits read so far leaves
 * the track's range, and while it is clear the total is that true value.
 */
module Accumulation {
  import opened Utils
  import opened LexicalSpec
  import opened Transitions

  ghost predicate AllIn(cs: seq<char>, chars: set<char>)
  {
    forall i :: 0 <= i < |cs| ==> cs[i] in chars
  }

  /** The value of a run of digit characters read in `radix` (every character counts). */
  function ValueIn(ds: seq<char>, radix: nat): nat
    requires AllIn(ds, HEX_DIGITS)
  {
    if ds == [] then 0
    else ValueIn(ds[..|ds| - 1], radix) * radix + GetCharValue(ds[|ds| - 1])
  }

  /** The octal value of the characters of `ds` whose digit value is at most 7. */
  function OctalValue(ds: seq<char>): nat
    requires AllIn(ds, HEX_DIGITS)
  {
    if ds == [] then 0
    else if GetCharValue(ds[|ds| - 1]) <= 7 then OctalValue(ds[..|ds| - 1]) * 8 + GetCharValue(ds[|ds| - 1])
    else OctalValue(ds[..|ds| - 1])
  }

  /** The track is faithful to the true value `v` over the range [lo, hi]. */
  ghost predicate TrackHolds(t: Track, v: int, lo: int, hi: int)
  {
    && (t.overflowed <==> !(lo <= v <= hi))
    && (!t.overflowed ==> t.total == v)
  }

  /** A track as `_value_transition` leaves it: frozen once overflowed. */
  function Advance(t: Track, radix: int, value: int, sign: int, signed: bool): Track
  {
    if t.overflowed then t else Accumulate(t, radix, value, sign, signed)
  }

  /** A magnitude carrying the scanner's sign (+1 or -1). */
  function Signed(sign: int, n: int): int
  {
    if sign < 0 then -n else n
  }

  /** The three tracks of `s` are faithful to the digits `ds` read so far. */
  ghost predicate TracksMatch(s: Scanner, ds: seq<char>)
    requires AllIn(ds, HEX_DIGITS)
  {
    && TrackHolds(s.dec, Signed(s.sign, ValueIn(ds, 10)), MIN_INT, MAX_INT)
    && TrackHolds(s.oct, OctalValue(ds), 0, UNSIGNED_MAX_INT)
    && TrackHolds(s.hex, ValueIn(ds, 16), 0, UNSIGNED_MAX_INT)
  }

  lemma MulGrows(v: int, radix: int)
    requires v >= 0 && radix >= 1
    ensures radix * v >= v
  {
    MulLeft(1, radix, v);
  }

  /** The decimal track, positive sign: the signed flag follows the true value exactly. */
  lemma PositiveAdvance(t: Track, d: int, v: int)
    requires TrackHolds(t, v, MIN_INT, MAX_INT) && v >= 0 && 0 <= d <= 15
    ensures TrackHolds(Advance(t, 10, d, 1, true), 10 * v + d, MIN_INT, MAX_INT)
  {
    if !t.overflowed {
      MultGuardInRange(v, 10);
      if !MultWillOverflow(v, 10, true) {
        AddGuardInRange(v * 10, d, 1);
      }
    }
  }

  /** The decimal track, negative sign. */
  lemma NegativeAdvance(t: Track, d: int, v: int)
    requires TrackHolds(t, v, MIN_INT, MAX_INT) && v <= 0 && 0 <= d <= 15
    ensures TrackHolds(Advance(t, 10, d, -1, true), 10 * v - d, MIN_INT, MAX_INT)
  {
    if !t.overflowed {
      MultGuardInRange(v, 10);
      if !MultWillOverflow(v, 10, true) {
        AddGuardInRange(v * 10, d, -1);
      }
    }
  }

  /** The octal and hexadecimal tracks: the flag is set exactly when the true value exceeds 2^32. */
  lemma UnsignedAdvance(t: Track, radix: int, d: int, v: int)
    requires TrackHolds(t, v, 0, UNSIGNED_MAX_INT)
    requires v >= 0 && radix >= 1 && d >= 0
    ensures TrackHolds(Advance(t, radix, d, 1, false), radix * v + d, 0, UNSIGNED_MAX_INT)
  {
    MulGrows(v, radix);
    if !t.overflowed {
      MultGuardUnsigned(v, radix);
      assert radix * v == v * radix;
    }
  }

  lemma ValueInSnoc(ds: seq<char>, c: char, radix: nat)
    requires AllIn(ds, HEX_DIGITS) && c in HEX_DIGITS
    ensures AllIn(ds + [c], HEX_DIGITS)
    ensures ValueIn(ds + [c], radix) == ValueIn(ds, radix) * radix + GetCharValue(c)
    ensures OctalValue(ds + [c]) ==
      if GetCharValue(c) <= 7 then OctalValue(ds) * 8 + GetCharValue(c) else OctalValue(ds)
  {
    assert (ds + [c])[..|ds|] == ds;
  }

  lemma DecTrackStep(s: Scanner, ds: seq<char>, next: State, c: char)
    requires AllIn(ds, HEX_DIGITS) && c in HEX_DIGITS
    requires s.sign == 1 || s.sign == -1
    requires TrackHolds(s.dec, Signed(s.sign, ValueIn(ds, 10)), MIN_INT, MAX_INT)
    ensures AllIn(ds + [c], HEX_DIGITS)
    ensures TrackHolds(ValueTransition(s, next, c).dec, Signed(s.sign, ValueIn(ds + [c], 10)), MIN_INT, MAX_INT)
  {
    var d: int := GetCharValue(c);
    assert ValueTransition(s, next, c).dec == Advance(s.dec, 10, d, s.sign, true);
    ValueInSnoc(ds, c, 10);
    var v: int := ValueIn(ds, 10);
    var w: int := ValueIn(ds + [c], 10);
    assert w == v * 10 + d;
    if s.sign == 1 {
      PositiveAdvance(s.dec, d, v);
    } else {
      NegativeAdvance(s.dec, d, -v);
    }
  }

  lemma OctTrackStep(s: Scanner, ds: seq<char>, next: State, c: char)
    requires AllIn(ds, HEX_DIGITS) && c in HEX_DIGITS
    requires TrackHolds(s.oct, OctalValue(ds), 0, UNSIGNED_MAX_INT)
    ensures AllIn(ds + [c], HEX_DIGITS)
    ensures TrackHolds(ValueTransition(s, next, c).oct, OctalValue(ds + [c]), 0, UNSIGNED_MAX_INT)
  {
    var d: int := GetCharValue(c);
    ValueInSnoc(ds, c, 8);
    if d <= 7 {
      assert ValueTransition(s, next, c).oct == Advance(s.oct, 8, d, 1, false);
      UnsignedAdvance(s.oct, 8, d, OctalValue(ds));
      assert 8 * OctalValue(ds) + d == OctalValue(ds + [c]);
    }
  }

  lemma HexTrackStep(s: Scanner, ds: seq<char>, next: State, c: char)
    requires AllIn(ds, HEX_DIGITS) && c in HEX_DIGITS
    requires TrackHolds(s.hex, ValueIn(ds, 16), 0, UNSIGNED_MAX_INT)
    ensures AllIn(ds + [c], HEX_DIGITS)
    ensures TrackHolds(ValueTransition(s, next, c).hex, ValueIn(ds + [c], 16), 0, UNSIGNED_MAX_INT)
  {
    var d: int := GetCharValue(c);
    assert ValueTransition(s, next, c).hex == Advance(s.hex, 16, d, 1, false);
    ValueInSnoc(ds, c, 16);
    UnsignedAdvance(s.hex, 16, d, ValueIn(ds, 16));
    assert 16 * ValueIn(ds, 16) + d == ValueIn(ds + [c], 16);
  }

  /** One `_value_transition` keeps all three tracks faithful to the digits read. */
  lemma ValueTransitionTracks(s: Scanner, ds: seq<char>, next: State, c: char)
    requires AllIn(ds, HEX_DIGITS) && c in HEX_DIGITS
    requires s.sign == 1 || s.sign == -1
    requires TracksMatch(s, ds)
    ensures AllIn(ds + [c], HEX_DIGITS)
    ensures TracksMatch(ValueTransition(s, next, c), ds + [c])
  {
    DecTrackStep(s, ds, next, c);
    OctTrackStep(s, ds, next, c);
    HexTrackStep(s, ds, next, c);
  }

  /** The range half of the invariant survives one `_value_transition`. */
  lemma ValueTransitionInvariant(s: Scanner, next: State, c: char)
    requires Invariant(s) && c in HEX_DIGITS
    requires next != OverflowState && next != StartState
    ensures Invariant(ValueTransition(s, next, c))
  {
    var d: int := GetCharValue(c);
    if !s.dec.overflowed {
      if s.sign == 1 {
        PositiveAdvance(s.dec, d, s.dec.total);
      } else {
        NegativeAdvance(s.dec, d, s.dec.total);
      }
    }
    if !s.oct.overflowed && d <= 7 {
      UnsignedAdvance(s.oct, 8, d, s.oct.total);
    }
    if !s.hex.overflowed {
      UnsignedAdvance(s.hex, 16, d, s.hex.total);
    }
  }

  lemma InvariantFromStart(s: Scanner, c: char)
    requires Invariant(s) && s.state == StartState
    ensures Invariant(Step(s, c).0)
  {
    if c in SIGN {
    } else if c in LOWER_DIGIT {
      ValueTransitionInvariant(s, AnyState, c);
    } else if c in UPPER_DIGIT {
      ValueTransitionInvariant(s, DecHexState, c);
    } else if c in ACF + {'b'} {
      ValueTransitionInvariant(s, HexState, c);
    }
  }

  lemma InvariantFromAny(s: Scanner, c: char)
    requires Invariant(s) && s.state == AnyState
    ensures Invariant(Step(s, c).0)
  {
    if c in SIGN {
    } else if c in LOWER_DIGIT {
      ValueTransitionInvariant(s, AnyState, c);
    } else if c in UPPER_DIGIT {
      ValueTransitionInvariant(s, DecHexState, c);
    } else if c in ACF {
      ValueTransitionInvariant(s, HexState, c);
    } else if c == 'b' {
      ValueTransitionInvariant(s, OctHexState, c);
    }
  }

  lemma InvariantFromDec(s: Scanner, c: char)
    requires Invariant(s) && s.state == DecState
    ensures Invariant(Step(s, c).0)
  {
    if c in SIGN + ACF + {'b'} {
    } else if c in DIGITS {
      ValueTransitionInvariant(s.(base := BaseDec), DecState, c);
    }
  }

  lemma InvariantFromHex(s: Scanner, c: char)
    requires Invariant(s) && s.state == HexState
    ensures Invariant(Step(s, c).0)
  {
    if c in SIGN {
    } else if c in HEX_DIGITS {
      ValueTransitionInvariant(s.(base := BaseHex), HexState, c);
    }
  }

  lemma InvariantFromDecHex(s: Scanner, c: char)
    requires Invariant(s) && s.state == DecHexState
    ensures Invariant(Step(s, c).0)
  {
    if c in SIGN {
    } else if c in DIGITS {
      ValueTransitionInvariant(s, DecHexState, c);
    } else if c in ACF + {'b'} {
      ValueTransitionInvariant(s, HexState, c);
    }
  }

  lemma InvariantFromOctHex(s: Scanner, c: char)
    requires Invariant(s) && s.state == OctHexState
    ensures Invariant(Step(s, c).0)
  {
    if c in SIGN {
    } else if c in LOWER_DIGIT + {'b'} {
      ValueTransitionInvariant(s, OctHexState, c);
    } else if c in UPPER_DIGIT + ACF {
      ValueTransitionInvariant(s, HexState, c);
    }
  }

  lemma InvariantFromOneDigit(s: Scanner, c: char)
    requires Invariant(s) && s.state == OneDigitState
    ensures Invariant(Step(s, c).0)
  {
    if c in DIGITS {
      ValueTransitionInvariant(s, DecState, c);
    }
  }

  /**
   * Every transition keeps the invariant: while a flag is clear its total is
   * in range (and the decimal total carries the sign), OVERFLOW_STATE is
   * never entered, and START_STATE is never re-entered.
   */
  lemma StepKeepsInvariant(s: Scanner, c: char)
    requires Invariant(s)
    ensures Invariant(Step(s, c).0)
    ensures Step(s, c).0.state != StartState
  {
    StepTransition(s, c);
    match s.state
    case StartState => InvariantFromStart(s, c);
    case AnyState => InvariantFromAny(s, c);
    case DecState => InvariantFromDec(s, c);
    case HexState => InvariantFromHex(s, c);
    case DecHexState => InvariantFromDecHex(s, c);
    case OctHexState => InvariantFromOctHex(s, c);
    case OneDigitState => InvariantFromOneDigit(s, c);
    case HState =>
    case _ => SinkStep(s, c);
  }

  /** A flag, once set, stays set until the scanner is reset. */
  lemma OverflowIsSticky(s: Scanner, c: char)
    ensures s.dec.overflowed ==> Step(s, c).0.dec.overflowed
    ensures s.oct.overflowed ==> Step(s, c).0.oct.overflowed
    ensures s.hex.overflowed ==> Step(s, c).0.hex.overflowed
  {
    match s.state
    case StartState =>
    case AnyState =>
    case DecState =>
    case HexState =>
    case DecHexState =>
    case OctHexState =>
    case HState =>
    case OneDigitState =>
    case _ => SinkStep(s, c);
  }
}
