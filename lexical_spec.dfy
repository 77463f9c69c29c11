/**
 * The scanner of lexical_analyser.py as values: the DFA's state record,
 * one transition (`_next_state`), the speculative update of the three
 * running totals (`_value_transition`), `accept`, and `process` as a fold
 * over the lower-cased input followed by end markers.
 */
module LexicalSpec {
  import opened Utils

  datatype Option<T> = None | Some(value: T)

  const SIGN: set<char> := {'-', '+'}
  /** LOWER_DIGIT + UPPER_DIGIT, written out. */
  const DIGITS: set<char> := {'0', '1', '2', '3', '4', '5', '6', '7', '8', '9'}
  /**
   * Every character outside this set is an end marker. It is
   * SIGN + LOWER_DIGIT + UPPER_DIGIT + ACF + {'b', 'h'}, written out
   * (InputSetUnion).
   */
  const INPUT_SET: set<char> :=
    {'-', '+', '0', '1', '2', '3', '4', '5', '6', '7', '8', '9', 'a', 'b', 'c', 'd', 'e', 'f', 'h'}
  /** The end marker `process` feeds after the input. */
  const END_MARKER: char := '!'

  const GENERIC_ERROR: string := "Unexpected character found in the input stream"
  const H_ERROR: string := "Unexpected character 'H'. 'H' marks the end of a hexadecimal number only"
  const SIGNED_OVERFLOW: string := "Signed Integer Overflow: value is outside the range -(2^31) <> +((2^31)-1"
  const UNSIGNED_OVERFLOW: string := "Integer Overflow: value is larger than (2^32)-1"

  lemma InputSetUnion()
    ensures INPUT_SET == SIGN + LOWER_DIGIT + UPPER_DIGIT + ACF + {'b', 'h'}
    ensures DIGITS == LOWER_DIGIT + UPPER_DIGIT
    ensures HEX_DIGITS == LOWER_DIGIT + UPPER_DIGIT + ACF + {'b'}
  {
  }

  datatype State =
    | StartState | AnyState | DecState | HexState | DecHexState | OctHexState
    | HState | OneDigitState | OverflowState | ErrorState | UnexpectedHError

  /** The resolved base; `NoBase` is the source's `None`. */
  datatype Base = NoBase | BaseDec | BaseOct | BaseHex

  /** The pair `process` returns: a classification and a value or message. */
  datatype Output =
    | Dec(value: int)
    | Oct(value: int)
    | Hex(value: int)
    | Overflow(reason: Option<string>)
    | Error(message: string)

  /** One running total with its sticky overflow flag. */
  datatype Track = Track(total: int, overflowed: bool)

  /** Every field of a LexicalAnalyser object. */
  datatype Scanner = Scanner(state: State, sign: int, base: Base, dec: Track, oct: Track, hex: Track)

  /** The field values `_reset` (and the class defaults) establish. */
  const Initial: Scanner :=
    Scanner(StartState, 1, NoBase, Track(0, false), Track(0, false), Track(0, false))

  /** One guarded step of a running total: multiply by `radix`, then add `value * sign`. */
  function Accumulate(t: Track, radix: int, value: int, sign: int, signed: bool): (r: Track)
    ensures t.overflowed ==> r.overflowed
    ensures !r.overflowed ==> r.total == t.total * radix + value * sign
  {
    var t1 := if !MultWillOverflow(t.total, radix, signed) then t.(total := t.total * radix)
              else t.(overflowed := true);
    if !AddWillOverflow(t1.total, value, signed) then t1.(total := t1.total + value * sign)
    else t1.(overflowed := true)
  }

  /** `_value_transition`: update every total not yet overflowed, then move to `next`. */
  function ValueTransition(s: Scanner, next: State, c: char): (r: Scanner)
    requires c in HEX_DIGITS
    ensures r.state == next && r.sign == s.sign && r.base == s.base
    ensures s.dec.overflowed ==> r.dec == s.dec
    ensures s.oct.overflowed ==> r.oct == s.oct
    ensures s.hex.overflowed ==> r.hex == s.hex
  {
    var value := GetCharValue(c);
    s.(state := next,
       dec := if s.dec.overflowed then s.dec else Accumulate(s.dec, 10, value, s.sign, true),
       oct := if s.oct.overflowed || value > 7 then s.oct else Accumulate(s.oct, 8, value, 1, false),
       hex := if s.hex.overflowed then s.hex else Accumulate(s.hex, 16, value, 1, false))
  }

  /** `accept`: the total of the resolved base, or the overflow report; nothing when no base is set. */
  function Accept(s: Scanner): (r: Option<Output>)
    ensures r.Some? <==> s.base != NoBase
    ensures Invariant(s) && r.Some? && r.value.Dec? ==> MIN_INT <= r.value.value <= MAX_INT
    ensures Invariant(s) && r.Some? && (r.value.Oct? || r.value.Hex?) ==> 0 <= r.value.value <= UNSIGNED_MAX_INT
    ensures r.Some? && r.value.Overflow? ==> r.value.reason.Some?
  {
    match s.base
    case NoBase => None
    case BaseDec => Some(if !s.dec.overflowed then Dec(s.dec.total) else Overflow(Some(SIGNED_OVERFLOW)))
    case BaseOct => Some(if !s.oct.overflowed then Oct(s.oct.total) else Overflow(Some(UNSIGNED_OVERFLOW)))
    case BaseHex => Some(if !s.hex.overflowed then Hex(s.hex.total) else Overflow(Some(UNSIGNED_OVERFLOW)))
  }

  /**
   * What a scanner holding a result answers: a sink its fixed report, any
   * other state `accept` of its recorded base.
   */
  predicate Reports(s: Scanner, o: Output)
  {
    match s.state
    case OverflowState => o == Overflow(None)
    case ErrorState => o == Error(GENERIC_ERROR)
    case UnexpectedHError => o == Error(H_ERROR)
    case _ => Accept(s) == Some(o)
  }

  /** `_next_state`: one transition on an already lower-cased character, and what it returns. */
  function Step(s: Scanner, c: char): (r: (Scanner, Option<Output>))
    ensures r.0.state != StartState
    ensures r.1.Some? ==> c !in INPUT_SET && Reports(r.0, r.1.value)
  {
    match s.state
    case StartState =>
      if c in SIGN then (s.(sign := if c == '-' then -1 else s.sign, state := OneDigitState), None)
      else if c in LOWER_DIGIT then (ValueTransition(s, AnyState, c), None)
      else if c in UPPER_DIGIT then (ValueTransition(s, DecHexState, c), None)
      else if c in ACF + {'b'} then (ValueTransition(s, HexState, c), None)
      else if c == 'h' then (s.(state := UnexpectedHError), None)
      else (s.(state := ErrorState), None)
    case AnyState =>
      if c in SIGN then (s.(state := ErrorState), None)
      else if c in LOWER_DIGIT then (ValueTransition(s, AnyState, c), None)
      else if c in UPPER_DIGIT then (ValueTransition(s, DecHexState, c), None)
      else if c in ACF then (ValueTransition(s, HexState, c), None)
      else if c == 'b' then (ValueTransition(s, OctHexState, c), None)
      else if c == 'h' then (s.(state := HState), None)
      else var s' := s.(base := BaseDec); (s', Accept(s'))
    case DecState =>
      var s0 := s.(base := BaseDec);
      if c in SIGN + ACF + {'b'} then (s0.(state := ErrorState), None)
      else if c in LOWER_DIGIT then (ValueTransition(s0, DecState, c), None)
      else if c in UPPER_DIGIT then (ValueTransition(s0, DecState, c), None)
      else if c == 'h' then (s0.(state := UnexpectedHError), None)
      else (s0, Accept(s0))
    case HexState =>
      var s0 := s.(base := BaseHex);
      if c in SIGN then (s0.(state := ErrorState), None)
      else if c in LOWER_DIGIT + UPPER_DIGIT + ACF + {'b'} then (ValueTransition(s0, HexState, c), None)
      else if c == 'h' then (s0.(state := HState), None)
      else (s0.(state := ErrorState), None)
    case DecHexState =>
      if c in SIGN then (s.(state := ErrorState), None)
      else if c in LOWER_DIGIT + UPPER_DIGIT then (ValueTransition(s, DecHexState, c), None)
      else if c in ACF + {'b'} then (ValueTransition(s, HexState, c), None)
      else if c == 'h' then (s.(state := HState), None)
      else var s' := s.(base := BaseDec); (s', Accept(s'))
    case OctHexState =>
      if c in SIGN then (s.(state := ErrorState), None)
      else if c in LOWER_DIGIT + {'b'} then (ValueTransition(s, OctHexState, c), None)
      else if c in UPPER_DIGIT + ACF then (ValueTransition(s, HexState, c), None)
      else if c == 'h' then (s.(state := HState), None)
      else var s' := s.(base := BaseOct); (s', Accept(s'))
    case HState =>
      if c in SIGN + LOWER_DIGIT + UPPER_DIGIT + ACF + {'b'} then (s.(state := ErrorState), None)
      else if c == 'h' then (s.(state := UnexpectedHError), None)
      else var s' := s.(base := BaseHex); (s', Accept(s'))
    case OneDigitState =>
      if c in LOWER_DIGIT + UPPER_DIGIT then (ValueTransition(s, DecState, c), None)
      else (s.(state := ErrorState), None)
    case OverflowState =>
      (s, if c !in INPUT_SET then Some(Overflow(None)) else None)
    case ErrorState =>
      (s, if c !in INPUT_SET then Some(Error(GENERIC_ERROR)) else None)
    case UnexpectedHError =>
      (s, if c !in INPUT_SET then Some(Error(H_ERROR)) else None)
  }

  /** The `for` loop of `process`: the scanner after `cs` and what the last character returned. */
  function Feed(s: Scanner, cs: seq<char>): (r: (Scanner, Option<Output>))
    ensures cs != [] ==> r.0.state != StartState
    ensures r.1.Some? ==> cs != [] && cs[|cs| - 1] !in INPUT_SET && Reports(r.0, r.1.value)
    decreases |cs|
  {
    if cs == [] then (s, None)
    else Step(Feed(s, cs[..|cs| - 1]).0, cs[|cs| - 1])
  }

  /** How many end markers a state may still need before it returns something. */
  function EndRank(st: State): nat
  {
    if st == StartState || st == HexState || st == OneDigitState then 1 else 0
  }

  /** The `while` loop of `process`: feed end markers until there is a result. */
  function Drain(s: Scanner, r: Option<Output>): (res: (Scanner, Output))
    ensures (r.Some? ==> Reports(s, r.value)) ==> Reports(res.0, res.1)
    ensures r.None? && EndRank(s.state) == 0 ==> Some(res.1) == Step(s, END_MARKER).1
    ensures r.None? && EndRank(s.state) == 1 ==> res.1 == Error(GENERIC_ERROR)
    ensures r.None? || s.state != StartState ==> res.0.state != StartState
    decreases if r.Some? then 0 else 1 + EndRank(s.state)
  {
    if r.Some? then (s, r.value)
    else
      EndMarkerSettles(s);
      var (s', r') := Step(s, END_MARKER);
      Drain(s', r')
  }

  /**
   * Only the states of rank 1 return nothing on an end marker, and they
   * drop into ERROR_STATE, of rank 0.
   */
  lemma EndMarkerSettles(s: Scanner)
    ensures Step(s, END_MARKER).1.None? <==> EndRank(s.state) == 1
    ensures EndRank(s.state) == 1 ==> Step(s, END_MARKER).0.state == ErrorState
  {
    if EndRank(s.state) == 1 {
      EndMarkerFails(s);
    } else {
      EndMarkerAnswers(s);
    }
  }

  lemma EndMarkerFails(s: Scanner)
    requires s.state == StartState || s.state == HexState || s.state == OneDigitState
    ensures Step(s, END_MARKER).0.state == ErrorState
  {
  }

  lemma EndMarkerAnswers(s: Scanner)
    requires EndRank(s.state) == 0
    ensures Step(s, END_MARKER).1.Some?
  {
    assert END_MARKER !in INPUT_SET;
  }

  /** ASCII case folding, as `str.lower()` does on byte strings. */
  function LowerChar(c: char): (r: char)
    ensures !('A' <= r <= 'Z')
    ensures 'A' <= c <= 'Z' ==> 'a' <= r <= 'z'
    ensures !('A' <= c <= 'Z') ==> r == c
  {
    if 'A' <= c <= 'Z' then (c as int + 32) as char else c
  }

  function Lower(s: string): (r: string)
    ensures |r| == |s|
    ensures forall i :: 0 <= i < |s| ==> r[i] == LowerChar(s[i])
  {
    seq(|s|, i requires 0 <= i < |s| => LowerChar(s[i]))
  }

  /** What `process` ends with on lower-cased characters: the scanner's fields and the result. */
  function Conclude(cs: seq<char>): (r: (Scanner, Output))
    ensures Reports(r.0, r.1)
    ensures cs == [] ==> r.1 == Error(GENERIC_ERROR)
    ensures Feed(Initial, cs).1.Some? ==> r.1 == Feed(Initial, cs).1.value
  {
    var (s, r) := Feed(Initial, cs);
    Drain(s, r)
  }

  /** `process`: the final fields and the result. The source fails on an empty string. */
  function Run(input: string): (r: (Scanner, Output))
    requires |input| > 0
    ensures r.0.state != StartState
    ensures Reports(r.0, r.1)
  {
    Conclude(Lower(input))
  }

  /** The result of `process(input)`. */
  function Classify(input: string): (r: Output)
    requires |input| > 0
    ensures r.Error? <==> Run(input).0.state == ErrorState || Run(input).0.state == UnexpectedHError
    ensures r == Error(H_ERROR) <==> Run(input).0.state == UnexpectedHError
  {
    Run(input).1
  }

  /** The per-track invariant every reachable scanner keeps. */
  ghost predicate Invariant(s: Scanner)
  {
    && (s.sign == 1 || s.sign == -1)
    && s.state != OverflowState
    && (s.state == StartState ==> s == Initial)
    && (!s.dec.overflowed ==> MIN_INT <= s.dec.total <= MAX_INT)
    && (!s.dec.overflowed ==> if s.sign == 1 then s.dec.total >= 0 else s.dec.total <= 0)
    && (!s.oct.overflowed ==> 0 <= s.oct.total <= UNSIGNED_MAX_INT)
    && (!s.hex.overflowed ==> 0 <= s.hex.total <= UNSIGNED_MAX_INT)
  }
}
