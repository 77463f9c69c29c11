/**
 * The LexicalAnalyser object of lexical_analyser.py: nine fields that its
 * methods update in place. Each method is proved to do to the fields what
 * the corresponding function of LexicalSpec does to a Scanner value.
 */
module Analyser {
  import opened Utils
  import opened LexicalSpec
  import Accumulation
  import Transitions

  class LexicalAnalyser {
    var state: State
    var sign: int
    var base: Base
    var decTotal: int
    var octTotal: int
    var hexTotal: int
    var decOverflowed: bool
    var octOverflowed: bool
    var hexOverflowed: bool

    /** The fields as one Scanner value. */
    function Snapshot(): Scanner
      reads this
    {
      Scanner(state, sign, base, Track(decTotal, decOverflowed), Track(octTotal, octOverflowed),
              Track(hexTotal, hexOverflowed))
    }

    ghost predicate Valid()
      reads this
    {
      Invariant(Snapshot())
    }

    /** A fresh object starts from the class-level defaults. */
    constructor ()
      ensures Snapshot() == Initial
      ensures Valid()
    {
      state, sign, base := StartState, 1, NoBase;
      decTotal, octTotal, hexTotal := 0, 0, 0;
      decOverflowed, octOverflowed, hexOverflowed := false, false, false;
    }

    /**
     * `process`: reset, feed the lower-cased characters, then end markers
     * until a result appears. The result depends on `input` alone, whatever
     * the object held before.
     */
    method Process(input: string) returns (result: Output)
      requires |input| > 0
      modifies this
      ensures (Snapshot(), result) == Run(input)
      ensures Valid()
    {
      Reset();
      var lowered := Lower(input);
      var last: Option<Output> := None;
      for i := 0 to |lowered|
        invariant (Snapshot(), last) == Feed(Initial, lowered[..i])
        invariant Valid()
      {
        assert lowered[..i + 1][..i] == lowered[..i];
        Accumulation.StepKeepsInvariant(Snapshot(), lowered[i]);
        last := NextState(lowered[i]);
      }
      assert lowered[..|lowered|] == lowered;
      while last.None?
        invariant Drain(Snapshot(), last) == Run(input)
        invariant Valid()
        decreases if last.Some? then 0 else 1 + EndRank(state)
      {
        Accumulation.StepKeepsInvariant(Snapshot(), END_MARKER);
        Transitions.EndMarkerProgress(Snapshot());
        last := NextState(END_MARKER);
      }
      result := last.value;
    }

    /** `_reset`: every field back to its initial value. */
    method Reset()
      modifies this
      ensures Snapshot() == Initial
      ensures Valid()
    {
      state := StartState;
      sign := 1;
      base := NoBase;
      decTotal := 0;
      octTotal := 0;
      hexTotal := 0;
      decOverflowed := false;
      octOverflowed := false;
      hexOverflowed := false;
    }

    /**
     * `_value_transition`: update the three running totals on a digit
     * character, each only while its flag is clear, then move to
     * `nextState`. The three blocks of the source are the three methods below.
     */
    method ValueTransition(nextState: State, c: char)
      requires c in HEX_DIGITS
      modifies this
      ensures Snapshot() == LexicalSpec.ValueTransition(old(Snapshot()), nextState, c)
      ensures old(decOverflowed) ==> decOverflowed
      ensures old(octOverflowed) ==> octOverflowed
      ensures old(hexOverflowed) ==> hexOverflowed
    {
      var value := GetCharValue(c);
      UpdateDecimal(value);
      UpdateOctal(value);
      UpdateHexadecimal(value);
      state := nextState;
    }

    /** The decimal block: multiply by 10, then add the signed digit, each guarded. */
    method UpdateDecimal(value: int)
      modifies this`decTotal, this`decOverflowed
      ensures Track(decTotal, decOverflowed) ==
        if old(decOverflowed) then old(Track(decTotal, decOverflowed))
        else Accumulate(old(Track(decTotal, decOverflowed)), 10, value, sign, true)
    {
      if !decOverflowed {
        if !MultWillOverflow(decTotal, 10, true) {
          decTotal := decTotal * 10;
        } else {
          decOverflowed := true;
        }
        if !AddWillOverflow(decTotal, value, true) {
          decTotal := decTotal + value * sign;
        } else {
          decOverflowed := true;
        }
      }
    }

    /** The octal block: digits of value 8 and above leave the octal total alone. */
    method UpdateOctal(value: int)
      modifies this`octTotal, this`octOverflowed
      ensures Track(octTotal, octOverflowed) ==
        if old(octOverflowed) || value > 7 then old(Track(octTotal, octOverflowed))
        else Accumulate(old(Track(octTotal, octOverflowed)), 8, value, 1, false)
    {
      if !octOverflowed {
        if value <= 7 {
          if !MultWillOverflow(octTotal, 8, false) {
            octTotal := octTotal * 8;
          } else {
            octOverflowed := true;
          }
          if !AddWillOverflow(octTotal, value, false) {
            octTotal := octTotal + value;
          } else {
            octOverflowed := true;
          }
        }
      }
    }

    /** The hexadecimal block: every digit character counts. */
    method UpdateHexadecimal(value: int)
      modifies this`hexTotal, this`hexOverflowed
      ensures Track(hexTotal, hexOverflowed) ==
        if old(hexOverflowed) then old(Track(hexTotal, hexOverflowed))
        else Accumulate(old(Track(hexTotal, hexOverflowed)), 16, value, 1, false)
    {
      if !hexOverflowed {
        if !MultWillOverflow(hexTotal, 16, false) {
          hexTotal := hexTotal * 16;
        } else {
          hexOverflowed := true;
        }
        if !AddWillOverflow(hexTotal, value, false) {
          hexTotal := hexTotal + value;
        } else {
          hexOverflowed := true;
        }
      }
    }

    /** `_next_state`: one transition of the DFA on a lower-cased character. */
    method NextState(c: char) returns (r: Option<Output>)
      modifies this
      ensures (Snapshot(), r) == Step(old(Snapshot()), c)
    {
      r := None;
      if state == StartState {
        if c in SIGN {
          if c == '-' {
            sign := -1;
          }
          state := OneDigitState;
        } else if c in LOWER_DIGIT {
          ValueTransition(AnyState, c);
        } else if c in UPPER_DIGIT {
          ValueTransition(DecHexState, c);
        } else if c in ACF + {'b'} {
          ValueTransition(HexState, c);
        } else if c == 'h' {
          state := UnexpectedHError;
        } else {
          state := ErrorState;
        }
      } else if state == AnyState {
        if c in SIGN {
          state := ErrorState;
        } else if c in LOWER_DIGIT {
          ValueTransition(AnyState, c);
        } else if c in UPPER_DIGIT {
          ValueTransition(DecHexState, c);
        } else if c in ACF {
          ValueTransition(HexState, c);
        } else if c == 'b' {
          ValueTransition(OctHexState, c);
        } else if c == 'h' {
          state := HState;
        } else {
          base := BaseDec;
          r := Accept();
        }
      } else if state == DecState {
        base := BaseDec;
        if c in SIGN + ACF + {'b'} {
          state := ErrorState;
        } else if c in LOWER_DIGIT {
          ValueTransition(DecState, c);
        } else if c in UPPER_DIGIT {
          ValueTransition(DecState, c);
        } else if c == 'h' {
          state := UnexpectedHError;
        } else {
          r := Accept();
        }
      } else if state == HexState {
        base := BaseHex;
        if c in SIGN {
          state := ErrorState;
        } else if c in LOWER_DIGIT + UPPER_DIGIT + ACF + {'b'} {
          ValueTransition(HexState, c);
        } else if c == 'h' {
          state := HState;
        } else {
          state := ErrorState;
        }
      } else if state == DecHexState {
        if c in SIGN {
          state := ErrorState;
        } else if c in LOWER_DIGIT + UPPER_DIGIT {
          ValueTransition(DecHexState, c);
        } else if c in ACF + {'b'} {
          ValueTransition(HexState, c);
        } else if c == 'h' {
          state := HState;
        } else {
          base := BaseDec;
          r := Accept();
        }
      } else if state == OctHexState {
        if c in SIGN {
          state := ErrorState;
        } else if c in LOWER_DIGIT + {'b'} {
          ValueTransition(OctHexState, c);
        } else if c in UPPER_DIGIT + ACF {
          ValueTransition(HexState, c);
        } else if c == 'h' {
          state := HState;
        } else {
          base := BaseOct;
          r := Accept();
        }
      } else if state == HState {
        if c in SIGN + LOWER_DIGIT + UPPER_DIGIT + ACF + {'b'} {
          state := ErrorState;
        } else if c == 'h' {
          state := UnexpectedHError;
        } else {
          base := BaseHex;
          r := Accept();
        }
      } else if state == OneDigitState {
        if c in LOWER_DIGIT + UPPER_DIGIT {
          ValueTransition(DecState, c);
        } else {
          state := ErrorState;
        }
      } else if state == OverflowState {
        if c !in INPUT_SET {
          r := Some(Overflow(None));
        }
      } else if state == ErrorState {
        if c !in INPUT_SET {
          r := Some(Error(GENERIC_ERROR));
        }
      } else if state == UnexpectedHError {
        if c !in INPUT_SET {
          r := Some(Error(H_ERROR));
        }
      }
    }

    /**
     * `accept`: a pure read of the fields. On a valid object it never
     * reports a value outside the range of the resolved base.
     */
    function Accept(): (r: Option<Output>)
      reads this
      ensures r.Some? <==> base != NoBase
      ensures Valid() && r.Some? && r.value.Dec? ==> MIN_INT <= r.value.value <= MAX_INT
      ensures Valid() && r.Some? && (r.value.Oct? || r.value.Hex?) ==> 0 <= r.value.value <= UNSIGNED_MAX_INT
    {
      LexicalSpec.Accept(Snapshot())
    }
  }
}
