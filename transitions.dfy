/**
 * The DFA of lexical_analyser.py as a table over character classes, proved
 * to be the state component of `_next_state` whatever the totals hold, and
 * its extension to strings.
 */
module Transitions {
  import opened Utils
  import opened LexicalSpec

  /** The classes of characters the transitions distinguish. */
  datatype CharClass =
    | SignChar          // '-' or '+'
    | OctalDigit        // '0'..'7'
    | DecimalOnlyDigit  // '8', '9'
    | HexLetter         // 'a', 'c', 'd', 'e', 'f'
    | LetterB           // 'b': a hexadecimal digit or the octal suffix
    | LetterH           // 'h': the hexadecimal suffix
    | EndChar           // anything outside the input set

  function ClassOf(c: char): (k: CharClass)
    ensures k == EndChar <==> c !in INPUT_SET
    ensures k in {OctalDigit, DecimalOnlyDigit} <==> c in DIGITS
    ensures k in {OctalDigit, DecimalOnlyDigit, HexLetter, LetterB} <==> c in HEX_DIGITS
  {
    if c in SIGN then SignChar
    else if c in LOWER_DIGIT then OctalDigit
    else if c in UPPER_DIGIT then DecimalOnlyDigit
    else if c in ACF then HexLetter
    else if c == 'b' then LetterB
    else if c == 'h' then LetterH
    else EndChar
  }

  /** The transition table, one row per state. */
  function Transition(st: State, k: CharClass): (r: State)
    ensures r != StartState
    ensures IsSink(st) ==> r == st
  {
    match st
    case StartState =>
      (match k
       case SignChar => OneDigitState
       case OctalDigit => AnyState
       case DecimalOnlyDigit => DecHexState
       case HexLetter => HexState
       case LetterB => HexState
       case LetterH => UnexpectedHError
       case EndChar => ErrorState)
    case AnyState =>
      (match k
       case SignChar => ErrorState
       case OctalDigit => AnyState
       case DecimalOnlyDigit => DecHexState
       case HexLetter => HexState
       case LetterB => OctHexState
       case LetterH => HState
       case EndChar => AnyState)
    case DecState =>
      (match k
       case OctalDigit => DecState
       case DecimalOnlyDigit => DecState
       case LetterH => UnexpectedHError
       case EndChar => DecState
       case _ => ErrorState)
    case HexState =>
      (match k
       case SignChar => ErrorState
       case LetterH => HState
       case EndChar => ErrorState
       case _ => HexState)
    case DecHexState =>
      (match k
       case SignChar => ErrorState
       case OctalDigit => DecHexState
       case DecimalOnlyDigit => DecHexState
       case HexLetter => HexState
       case LetterB => HexState
       case LetterH => HState
       case EndChar => DecHexState)
    case OctHexState =>
      (match k
       case SignChar => ErrorState
       case OctalDigit => OctHexState
       case LetterB => OctHexState
       case DecimalOnlyDigit => HexState
       case HexLetter => HexState
       case LetterH => HState
       case EndChar => OctHexState)
    case HState =>
      (match k
       case LetterH => UnexpectedHError
       case EndChar => HState
       case _ => ErrorState)
    case OneDigitState =>
      (match k
       case OctalDigit => DecState
       case DecimalOnlyDigit => DecState
       case _ => ErrorState)
    case OverflowState => OverflowState
    case ErrorState => ErrorState
    case UnexpectedHError => UnexpectedHError
  }

  /** The states no character leaves. */
  predicate IsSink(st: State)
  {
    st == OverflowState || st == ErrorState || st == UnexpectedHError
  }

  /** `next` holds the sign and totals `_value_transition` on `c` leaves from `s`. */
  ghost predicate ValueStep(s: Scanner, next: Scanner, c: char)
    requires c in HEX_DIGITS
  {
    var v := ValueTransition(s, next.state, c);
    next.sign == v.sign && next.dec == v.dec && next.oct == v.oct && next.hex == v.hex
  }

  /**
   * `_next_state` moves to the state the table gives, and returns something
   * exactly when it reads an end marker in a state that needs nothing more.
   */
  lemma StepTransition(s: Scanner, c: char)
    ensures Step(s, c).0.state == Transition(s.state, ClassOf(c))
    ensures Step(s, c).1.Some? <==> c !in INPUT_SET && EndRank(s.state) == 0
    ensures c in HEX_DIGITS && !IsSink(Transition(s.state, ClassOf(c))) ==> ValueStep(s, Step(s, c).0, c)
  {
    match s.state
    case StartState => FromStart(s, c);
    case AnyState => FromAny(s, c);
    case DecState => FromDec(s, c);
    case HexState => FromHex(s, c);
    case DecHexState => FromDecHex(s, c);
    case OctHexState => FromOctHex(s, c);
    case HState => FromH(s, c);
    case OneDigitState => FromOneDigit(s, c);
    case _ =>
  }

  /**
   * The `while` loop of `process` feeds at most two end markers: only the
   * three states that still lack a digit or an 'h' return nothing on one,
   * and they fall into the error state, which the next one settles.
   */
  lemma EndMarkerProgress(s: Scanner)
    ensures Step(s, END_MARKER).1.None? ==>
      EndRank(s.state) == 1 && Step(s, END_MARKER).0.state == ErrorState
    ensures Step(Step(s, END_MARKER).0, END_MARKER).1.Some? || Step(s, END_MARKER).1.Some?
  {
    EndMarkerOutside();
    StepTransition(s, END_MARKER);
    StepTransition(Step(s, END_MARKER).0, END_MARKER);
  }

  /** The `for` loop of `process`, one more character. */
  lemma FeedSnoc(s: Scanner, p: seq<char>, c: char)
    ensures Feed(s, p + [c]) == Step(Feed(s, p).0, c)
  {
    assert (p + [c])[..|p|] == p;
  }

  /** `process` after a `for` loop that left `s` with no result. */
  lemma ClassifyAfter(input: string, s: Scanner)
    requires |input| > 0 && Feed(Initial, Lower(input)) == (s, None)
    ensures Classify(input) == Drain(s, None).1
  {
  }

  /** The state the table reaches from `st` after the characters `cs`. */
  function Walk(st: State, cs: seq<char>): State
  {
    if cs == [] then st else Transition(Walk(st, cs[..|cs| - 1]), ClassOf(cs[|cs| - 1]))
  }

  /** The state after the `for` loop of `process` is the table's walk over the characters. */
  lemma {:induction false} FeedWalk(s: Scanner, cs: seq<char>)
    ensures Feed(s, cs).0.state == Walk(s.state, cs)
  {
    if cs != [] {
      FeedWalk(s, cs[..|cs| - 1]);
      StepTransition(Feed(s, cs[..|cs| - 1]).0, cs[|cs| - 1]);
    }
  }

  /** Feeding `p` then a non-empty `q` is feeding `q` from where `p` left the scanner. */
  lemma {:induction false} FeedSplit(s: Scanner, p: seq<char>, q: seq<char>)
    requires q != []
    ensures Feed(s, p + q) == Feed(Feed(s, p).0, q)
  {
    var q' := q[..|q| - 1];
    assert (p + q)[..|p + q| - 1] == p + q';
    if q' != [] {
      FeedSplit(s, p, q');
    } else {
      assert p + q' == p;
    }
  }

  lemma {:induction false} WalkSplit(st: State, p: seq<char>, q: seq<char>)
    ensures Walk(st, p + q) == Walk(Walk(st, p), q)
  {
    if q == [] {
      assert p + q == p;
    } else {
      assert (p + q)[..|p + q| - 1] == p + q[..|q| - 1];
      WalkSplit(st, p, q[..|q| - 1]);
    }
  }

  /** The base `_next_state` records in a state before it accepts on an end marker. */
  function AcceptBase(st: State): Base
  {
    match st
    case AnyState => BaseDec
    case DecHexState => BaseDec
    case DecState => BaseDec
    case OctHexState => BaseOct
    case HState => BaseHex
    case _ => NoBase
  }

  /** The report a sink state gives on an end marker. */
  function SinkOutput(st: State): Output
  {
    match st
    case UnexpectedHError => Error(H_ERROR)
    case OverflowState => Overflow(None)
    case _ => Error(GENERIC_ERROR)
  }

  /** The character `process` feeds after the input is an end marker. */
  lemma EndMarkerOutside()
    ensures END_MARKER !in INPUT_SET
  {
  }

  /** In a state that needs nothing more, an end marker records the base and accepts. */
  lemma EndMarkerAccepts(s: Scanner, e: char)
    requires AcceptBase(s.state) != NoBase && e !in INPUT_SET
    ensures Step(s, e) == (s.(base := AcceptBase(s.state)), Accept(s.(base := AcceptBase(s.state))))
  {
    match s.state
    case AnyState =>
    case DecHexState =>
    case DecState =>
    case OctHexState =>
    case HState =>
  }

  /** A sink keeps every field, and reports on an end marker only. */
  lemma SinkStep(s: Scanner, c: char)
    requires IsSink(s.state)
    ensures Step(s, c) == (s, if c !in INPUT_SET then Some(SinkOutput(s.state)) else None)
  {
  }

  /** `Drain` once it has a result. */
  lemma DrainSettled(s: Scanner, r: Option<Output>)
    requires r.Some?
    ensures Drain(s, r) == (s, r.value)
  {
  }

  /** `Drain` without a result feeds one end marker. */
  lemma DrainOnce(s: Scanner)
    ensures Drain(s, None) == Drain(Step(s, END_MARKER).0, Step(s, END_MARKER).1)
  {
  }

  lemma FromStart(s: Scanner, c: char)
    requires s.state == StartState
    ensures Step(s, c).0.state == Transition(s.state, ClassOf(c))
    ensures Step(s, c).1.None?
    ensures c in HEX_DIGITS && !IsSink(Transition(s.state, ClassOf(c))) ==> ValueStep(s, Step(s, c).0, c)
  {
  }

  lemma FromAny(s: Scanner, c: char)
    requires s.state == AnyState
    ensures Step(s, c).0.state == Transition(s.state, ClassOf(c))
    ensures Step(s, c).1.Some? <==> c !in INPUT_SET
    ensures c in HEX_DIGITS && !IsSink(Transition(s.state, ClassOf(c))) ==> ValueStep(s, Step(s, c).0, c)
  {
  }

  lemma FromDec(s: Scanner, c: char)
    requires s.state == DecState
    ensures Step(s, c).0.state == Transition(s.state, ClassOf(c))
    ensures Step(s, c).1.Some? <==> c !in INPUT_SET
    ensures c in HEX_DIGITS && !IsSink(Transition(s.state, ClassOf(c))) ==> ValueStep(s, Step(s, c).0, c)
  {
  }

  lemma FromHex(s: Scanner, c: char)
    requires s.state == HexState
    ensures Step(s, c).0.state == Transition(s.state, ClassOf(c))
    ensures Step(s, c).1.None?
    ensures c in HEX_DIGITS && !IsSink(Transition(s.state, ClassOf(c))) ==> ValueStep(s, Step(s, c).0, c)
  {
  }

  lemma FromDecHex(s: Scanner, c: char)
    requires s.state == DecHexState
    ensures Step(s, c).0.state == Transition(s.state, ClassOf(c))
    ensures Step(s, c).1.Some? <==> c !in INPUT_SET
    ensures c in HEX_DIGITS && !IsSink(Transition(s.state, ClassOf(c))) ==> ValueStep(s, Step(s, c).0, c)
  {
  }

  lemma FromOctHex(s: Scanner, c: char)
    requires s.state == OctHexState
    ensures Step(s, c).0.state == Transition(s.state, ClassOf(c))
    ensures Step(s, c).1.Some? <==> c !in INPUT_SET
    ensures c in HEX_DIGITS && !IsSink(Transition(s.state, ClassOf(c))) ==> ValueStep(s, Step(s, c).0, c)
  {
  }

  lemma FromH(s: Scanner, c: char)
    requires s.state == HState
    ensures Step(s, c).0.state == Transition(s.state, ClassOf(c))
    ensures Step(s, c).1.Some? <==> c !in INPUT_SET
  {
  }

  lemma FromOneDigit(s: Scanner, c: char)
    requires s.state == OneDigitState
    ensures Step(s, c).0.state == Transition(s.state, ClassOf(c))
    ensures Step(s, c).1.None?
    ensures c in HEX_DIGITS && !IsSink(Transition(s.state, ClassOf(c))) ==> ValueStep(s, Step(s, c).0, c)
  {
  }
}
