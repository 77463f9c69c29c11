# Lexical analyser for decimal, octal and hexadecimal literals

This project models the `LexicalAnalyser` of lexical_analyser.py and the
helpers of utils.py in Dafny. The analyser is a single-pass scanner with
eleven states. It reads one numeric literal and classifies it as one of:

- a signed decimal, `(+|-)?[0-9]+`;
- an unsigned octal, `[0-7]+[bB]`;
- an unsigned hexadecimal, `[0-9a-fA-F]+[hH]`.

While it scans, it keeps three speculative running totals, one per base.
Each total has its own sticky overflow flag. It returns the total of the
base the input settles on, an overflow report, or one of two error
messages.

The model has two layers.

- **Value layer** (`LexicalSpec`). A `Scanner` record holds every field
  of the object. `Step` is one call of `_next_state`. `ValueTransition`
  is `_value_transition` and `Accept` is `accept`. `Feed` is the `for`
  loop of `process` over the lower-cased input. `Drain` is its `while`
  loop, which feeds `'!'` until a result appears. `Run` and `Classify`
  are `process` itself. `Transitions` abstracts the state component of
  `Step` into a table over seven character classes.
- **Object layer** (`Analyser.LexicalAnalyser`). A class with the
  object's nine fields. Its methods change those fields in place with the
  same branches as the source. Each method is proved to do to the fields
  what the value layer does to a `Scanner`.

Both layers keep the source's own readings:

- The unsigned bound is `UNSIGNED_MAX_INT = 4294967296`, which is 2^32,
  not 2^32 - 1. So a total of exactly 2^32 is accepted as a value. The
  unsigned overflow message (lexical_analyser.py:261 and 267) says
  "larger than (2^32)-1", but the code compares with 2^32, and the model
  follows the code (`TestTable.HexTwoToThe32`, `TestTable.OctTwoToThe32`).
- OCT_HEX_STATE accepts more octal digits after a `b` and settles as
  octal on an end marker. So `"1b2"` is OCT 10 (`TestTable.DigitsAfterB`).
- The `for` loop of `process` does not stop when a character returns a
  result. So an end marker in the middle of a complete number is skipped:
  `"12 34"` is DEC 1234 (`EndMarkers.MidEndMarker`, `TestTable.SpaceInside`).
- `process` fails on the empty string, because `result` is never
  assigned. `Run`, `Classify` and `Process` therefore require a non-empty
  input.
- No transition enters OVERFLOW_STATE. Overflow is reported only through
  `accept` (`Results.OutputPossible`).

## Model

| member | source | states |
|---|---|---|
| Utils.MultWillOverflow | utils.py:8-18 | a zero multiplier never counts as overflow |
| Utils.DivGuard | utils.py:14-18 | for a positive divisor, `a > n / b` (floor division) holds exactly when `a * b > n` |
| Utils.MultGuardSigned | utils.py:12-16 | signed multiply guard: with both operands positive it fires exactly when `a * b > 2^31 - 1`; otherwise exactly when `abs(a) * abs(b) > 2^31` |
| Utils.MultGuardUnsigned | utils.py:17-18 | unsigned multiply guard: for a positive multiplier it fires exactly when `a * b > 2^32` |
| Utils.MultGuardInRange | utils.py:12-16 | for a positive multiplier the signed guard fires exactly when the product leaves [-2^31, 2^31 - 1] |
| Utils.AddWillOverflow | utils.py:20-31 | a zero addend never counts as overflow; the unsigned guard fires exactly when `b != 0` and `a + b > 2^32` |
| Utils.AddGuardSigned | utils.py:25-29 | signed add guard: false for `b = 0`; with both operands positive it fires exactly when `a + b > 2^31 - 1`, otherwise exactly when `abs(a) + abs(b) > 2^31` |
| Utils.MultGuardMissesOverflow | utils.py:12-16 | for two negative operands the signed multiply guard misses an overflow: `mult_will_overflow(-2, -2^30, True)` is false while the product is 2^31 |
| Utils.AddGuardFalseAlarm | utils.py:25-29 | for operands of opposite signs the signed add guard reports an overflow the sum does not have: `add_will_overflow(2^31 - 1, -2, True)` |
| Utils.AddGuardInRange | utils.py:25-29 | adding a digit value with the sign the total already has, the signed guard fires exactly when `a + sign * b` leaves [-2^31, 2^31 - 1] |
| Utils.GetCharValue | utils.py:34-51 | '0'..'9' map to 0..9 and 'a'..'f' to 10..15; the value is at most 15, and at most 7 exactly for '0'..'7' |
| LexicalSpec.InputSetUnion | lexical_analyser.py:4-8 | the input set is the signs, the digits, 'a', 'c'-'f', 'b' and 'h'; the decimal digits are LOWER_DIGIT + UPPER_DIGIT, and the characters given to `get_char_value` are those plus ACF and 'b' |
| LexicalSpec.ValueTransition | lexical_analyser.py:69-112 | `_value_transition` moves to the given state and keeps sign and base; a total whose flag is set is left untouched |
| LexicalSpec.Accept | lexical_analyser.py:249-267 | `accept` answers exactly when a base is set; on a reachable scanner a DEC value is in [-2^31, 2^31 - 1] and an OCT or HEX value in [0, 2^32]; its overflow reports always carry a message |
| LexicalSpec.Lower | lexical_analyser.py:50 | lower-casing keeps the length and folds every character independently |
| LexicalSpec.Accumulate | lexical_analyser.py:79-87 | one guarded multiply-then-add of a running total: a set flag stays set, and an unflagged result is exactly `radix * total + sign * value` (the same shape serves lines 91-99 and 102-110) |
| LexicalSpec.Step | lexical_analyser.py:114-247 | `_next_state` never returns to START_STATE, returns something only on an end marker, and what it returns is the report of the state it leaves the scanner in (a sink's fixed report, otherwise `accept`); the table it follows is `Transitions.StepTransition` |
| LexicalSpec.Feed | lexical_analyser.py:50-51 | the `for` loop leaves START_STATE on any character; a result it holds came from a final end marker and is the report of the final state; one character at a time it is `Transitions.FeedSnoc` |
| LexicalSpec.Drain | lexical_analyser.py:53-54 | the `while` loop keeps a result that is the report of its state; without one it returns the answer of the first end marker in a state of rank 0, and the generic error in START, HEX and ONE_DIGIT_STATE; one round is `Transitions.DrainOnce` |
| LexicalSpec.LowerChar | lexical_analyser.py:50 | folding never yields an upper-case letter, maps 'A'..'Z' into 'a'..'z' and keeps every other character |
| LexicalSpec.Conclude | lexical_analyser.py:49-55 | the result is the report of the final state; on no characters at all it is the generic error; a result of the `for` loop stands |
| LexicalSpec.Run | lexical_analyser.py:42-55 | `process` never ends in START_STATE, and its result is the report of the state it ends in |
| LexicalSpec.Classify | lexical_analyser.py:42-55 | `process` returns an error message exactly when it ends in ERROR_STATE or UNEXPECTED_H_ERROR, and the 'H' message exactly in the latter |
| LexicalSpec.EndMarkerSettles | lexical_analyser.py:53-54 | an end marker returns nothing exactly in a state of rank 1 (START, HEX, ONE_DIGIT), and then moves to ERROR_STATE, of rank 0; so the `while` loop ends |
| LexicalSpec.EndMarkerFails | lexical_analyser.py:131-132 | START_STATE, HEX_STATE and ONE_DIGIT_STATE move to ERROR_STATE on an end marker |
| LexicalSpec.EndMarkerAnswers | lexical_analyser.py:149-151 | every other state returns a result on an end marker |
| Accumulation.PositiveAdvance | lexical_analyser.py:78-87 | with a positive sign, one guarded decimal step keeps the track faithful: the flag is set exactly when `10 * v + d` leaves the signed range, and otherwise the total is that value |
| Accumulation.NegativeAdvance | lexical_analyser.py:78-87 | the same for a negative sign and `10 * v - d` |
| Accumulation.UnsignedAdvance | lexical_analyser.py:89-110 | one guarded unsigned step keeps a track faithful to `radix * v + d` over [0, 2^32] |
| Accumulation.ValueInSnoc | lexical_analyser.py:89-90 | one more digit multiplies the run's value by the radix and adds the digit; the octal value skips digits above 7 |
| Accumulation.DecTrackStep | lexical_analyser.py:78-87 | after `_value_transition` the decimal track is faithful to the signed decimal value of the digits read |
| Accumulation.OctTrackStep | lexical_analyser.py:89-99 | the octal track is faithful to the octal value of the digits of value at most 7 |
| Accumulation.HexTrackStep | lexical_analyser.py:101-110 | the hexadecimal track is faithful to the hexadecimal value of all digits read |
| Accumulation.ValueTransitionTracks | lexical_analyser.py:69-112 | one `_value_transition` keeps all three tracks faithful |
| Accumulation.ValueTransitionInvariant | lexical_analyser.py:69-112 | `_value_transition` keeps every unflagged total in its range and the decimal total carrying the sign |
| Accumulation.InvariantFromStart | lexical_analyser.py:117-132 | transitions out of START_STATE keep the invariant |
| Accumulation.InvariantFromAny | lexical_analyser.py:134-151 | transitions out of ANY_STATE keep the invariant |
| Accumulation.InvariantFromDec | lexical_analyser.py:153-167 | transitions out of DEC_STATE keep the invariant |
| Accumulation.InvariantFromHex | lexical_analyser.py:169-181 | transitions out of HEX_STATE keep the invariant |
| Accumulation.InvariantFromDecHex | lexical_analyser.py:183-196 | transitions out of DEC_HEX_STATE keep the invariant |
| Accumulation.InvariantFromOctHex | lexical_analyser.py:198-211 | transitions out of OCT_HEX_STATE keep the invariant |
| Accumulation.InvariantFromOneDigit | lexical_analyser.py:224-232 | transitions out of ONE_DIGIT_STATE keep the invariant |
| Accumulation.StepKeepsInvariant | lexical_analyser.py:114-247 | every transition keeps the per-track invariant, never enters OVERFLOW_STATE and never returns to START_STATE |
| Accumulation.OverflowIsSticky | lexical_analyser.py:78-110 | once set, an overflow flag stays set on every transition |
| Transitions.ClassOf | lexical_analyser.py:4-8 | end markers are exactly the characters outside the input set; the digit classes are exactly the decimal and the hexadecimal digits |
| Transitions.Transition | lexical_analyser.py:114-247 | no transition returns to START_STATE, and the sink states never leave themselves |
| Transitions.StepTransition | lexical_analyser.py:114-247 | `_next_state` moves to the state the table gives for the character's class; it returns something exactly on an end marker in a state of rank 0; every value transition updates the totals as `_value_transition` does |
| Transitions.FromStart | lexical_analyser.py:117-132 | the START_STATE row of the table |
| Transitions.FromAny | lexical_analyser.py:134-151 | the ANY_STATE row |
| Transitions.FromDec | lexical_analyser.py:153-167 | the DEC_STATE row |
| Transitions.FromHex | lexical_analyser.py:169-181 | the HEX_STATE row |
| Transitions.FromDecHex | lexical_analyser.py:183-196 | the DEC_HEX_STATE row |
| Transitions.FromOctHex | lexical_analyser.py:198-211 | the OCT_HEX_STATE row |
| Transitions.FromH | lexical_analyser.py:213-222 | the H_STATE row |
| Transitions.FromOneDigit | lexical_analyser.py:224-232 | the ONE_DIGIT_STATE row |
| Transitions.EndMarkerProgress | lexical_analyser.py:53-54 | the `while` loop feeds at most two end markers: a first one that returns nothing leaves ERROR_STATE, and the second returns |
| Transitions.FeedSnoc | lexical_analyser.py:50-51 | the `for` loop with one more character is one more `_next_state` |
| Transitions.ClassifyAfter | lexical_analyser.py:49-55 | when the `for` loop returned nothing, `process` returns what the `while` loop does |
| Transitions.FeedWalk | lexical_analyser.py:50-51 | the state after the `for` loop is the table's walk over the characters |
| Transitions.FeedSplit | lexical_analyser.py:50-51 | feeding `p` then a non-empty `q` is feeding `q` from where `p` left the scanner |
| Transitions.WalkSplit | lexical_analyser.py:50-51 | the table's walk over `p + q` continues from the walk over `p` |
| Transitions.EndMarkerOutside | lexical_analyser.py:54 | '!' is outside the input set |
| Transitions.EndMarkerAccepts | lexical_analyser.py:149-151 | in ANY, DEC, DEC_HEX, OCT_HEX and H_STATE an end marker records the state's base and returns `accept` |
| Transitions.SinkStep | lexical_analyser.py:234-247 | a sink keeps every field and returns its fixed report on an end marker, nothing otherwise |
| Transitions.DrainSettled | lexical_analyser.py:53 | the `while` loop returns a result it already has |
| Transitions.DrainOnce | lexical_analyser.py:53-54 | without a result the `while` loop feeds one end marker |
| Literals.DecimalOutcome | lexical_analyser.py:251-255 | a decimal result is the value inside [-2^31, 2^31 - 1], and the signed overflow report outside |
| Literals.OctalOutcome | lexical_analyser.py:257-261 | an octal result is the value up to 2^32, and the unsigned overflow report above |
| Literals.HexOutcome | lexical_analyser.py:263-267 | a hexadecimal result is the value up to 2^32, and the unsigned overflow report above |
| Literals.RunStateSnoc | lexical_analyser.py:117-211 | on a digit run the table's state is the run's classification (all octal: ANY; all decimal: DEC_HEX; octal with a 'b' after the first digit: OCT_HEX; otherwise HEX), one character at a time |
| Literals.ValueStepTracks | lexical_analyser.py:69-112 | a transition that updates the totals as `_value_transition` does keeps all three tracks faithful to the digits read so far |
| Literals.RunWalk | lexical_analyser.py:117-211 | the table's walk over a digit run is the run's classification |
| Literals.RunStep | lexical_analyser.py:117-211 | one more digit of a run returns nothing, keeps the positive sign and keeps the tracks faithful |
| Literals.DigitRun | lexical_analyser.py:50-51 | after a digit run the `for` loop has returned nothing, the sign is positive, the state is the run's classification and all three totals are faithful |
| Literals.SignFirst | lexical_analyser.py:119-122 | a leading sign records -1 for '-' and moves to ONE_DIGIT_STATE |
| Literals.SignedStep | lexical_analyser.py:153-163 | a decimal digit after a sign, or in DEC_STATE, moves to DEC_STATE and keeps the tracks faithful |
| Literals.SignedFirstDigit | lexical_analyser.py:224-230 | a sign and one digit leave DEC_STATE with that sign |
| Literals.SignedRun | lexical_analyser.py:119-163 | after a sign and a non-empty decimal run the state is DEC_STATE with that sign and faithful totals |
| Literals.SettleDecimal | lexical_analyser.py:149-151 | ANY, DEC_HEX and DEC_STATE end with the decimal outcome of the decimal track |
| Literals.SettleOctal | lexical_analyser.py:209-211 | OCT_HEX_STATE ends with the octal outcome of the octal track |
| Literals.SettleHex | lexical_analyser.py:220-222 | H_STATE ends with the hexadecimal outcome of the hexadecimal track |
| Literals.Accepted | lexical_analyser.py:149-151 | an accepting state ends with `accept` of its base |
| Literals.SettleSink | lexical_analyser.py:239-247 | a sink ends with its report |
| Literals.SettlePending | lexical_analyser.py:180-181 | START, ONE_DIGIT and HEX_STATE end with the generic error |
| Literals.BareRun | lexical_analyser.py:42-55 | a run of digit characters with no suffix is decimal when it holds decimal digits only, octal when it is octal digits with a 'b' after the first, and the generic error otherwise |
| Literals.LowerKeeps | lexical_analyser.py:50 | lower-casing leaves characters of the input set alone |
| Literals.LowerSnoc | lexical_analyser.py:50 | lower-casing commutes with appending a character |
| Literals.DecimalDigits | lexical_analyser.py:5-6 | a decimal run lies in the input set and reads as ANY or DEC_HEX |
| Literals.UnsignedDecimal | lexical_analyser.py:123-151 | `[0-9]+` is DEC of its value inside the signed range, and the signed overflow report outside |
| Literals.SignedLower | lexical_analyser.py:50 | a sign and decimal digits are already lower case |
| Literals.OctalLower | lexical_analyser.py:50 | octal digits and 'B' lower-case to the digits and 'b' |
| Literals.SignedDecimal | lexical_analyser.py:119-167 | `(+|-)[0-9]+` is DEC of the signed value inside the signed range, and the signed overflow report outside |
| Literals.OctalDigitsValue | lexical_analyser.py:89-99 | on octal digits the octal track's value is the run read in base 8 |
| Literals.OctalRun | lexical_analyser.py:145-146 | octal digits then 'b' classify as OCT_HEX, and the 'b' (value 11) does not count in the octal value |
| Literals.OctalLiteral | lexical_analyser.py:198-211 | `[0-7]+[bB]` is OCT of its base-8 value up to 2^32, and the unsigned overflow report above |
| Literals.HStep | lexical_analyser.py:147-148 | an 'h' after a digit run moves to H_STATE without touching the hexadecimal total |
| Literals.HexLiteral | lexical_analyser.py:213-222 | `[0-9a-fA-F]+[hH]` is HEX of the lower-cased digits' base-16 value ('b' counting 11) up to 2^32, and the unsigned overflow report above |
| Errors.IntoSink | lexical_analyser.py:131-132 | a transition into a sink returns nothing or that sink's report |
| Errors.SinkFeed | lexical_analyser.py:234-247 | a sink absorbs any further characters: every field stays, and only its own report is ever returned |
| Errors.SinkFinal | lexical_analyser.py:239-247 | the `while` loop on a sink ends with the sink's report |
| Errors.SinkPrefix | lexical_analyser.py:234-247 | after a prefix that walks the table into a sink the scanner is in that sink, holding nothing or the sink's report |
| Errors.SinkDecides | lexical_analyser.py:239-247 | once a prefix of the input walks into a sink, `process` returns that sink's report whatever follows |
| Errors.NoHWalk | lexical_analyser.py:117-232 | without an 'h', a non-empty input never reaches START, H_STATE, UNEXPECTED_H_ERROR or OVERFLOW_STATE |
| Errors.SignNotFirst | lexical_analyser.py:137-138 | a sign anywhere but first, with no 'h' before it, is the generic error |
| Errors.SignWithoutDigit | lexical_analyser.py:229-232 | a sign alone, or a sign followed by anything but a decimal digit, is the generic error |
| Errors.DecSuffix | lexical_analyser.py:158-165 | in DEC_STATE a sign, a letter or 'b' leads to ERROR_STATE and an 'h' to UNEXPECTED_H_ERROR |
| Errors.SignedThenSuffix | lexical_analyser.py:158-165 | a signed decimal followed by a sign, a letter or 'b' is the generic error, and followed by 'h' the 'H' error, whatever follows |
| Errors.LeadingH | lexical_analyser.py:129-130 | an 'h' first is the 'H' error |
| Errors.HSuffix | lexical_analyser.py:216-219 | in H_STATE an 'h' leads to UNEXPECTED_H_ERROR and any other input-set character to ERROR_STATE |
| Errors.DigitWalk | lexical_analyser.py:117-211 | a non-empty digit run leaves the table in ANY, DEC_HEX, OCT_HEX or HEX_STATE |
| Errors.RunThenH | lexical_analyser.py:147-148 | a digit run and its 'h' reach H_STATE |
| Errors.AfterH | lexical_analyser.py:213-219 | after a digit run and its 'h', a second 'h' is the 'H' error and any other input-set character the generic error |
| Errors.HexRunUnterminated | lexical_analyser.py:180-181 | a run that classifies as hexadecimal, followed by an end marker instead of 'h', is the generic error whatever follows |
| Errors.LeadingEndMarker | lexical_analyser.py:131-132 | an end marker first is the generic error |
| EndMarkers.AnyEndMarker | lexical_analyser.py:8 | every character outside the input set gives the same transition and result as '!' |
| EndMarkers.PendingEnd | lexical_analyser.py:180-181 | START, HEX and ONE_DIGIT_STATE move to ERROR_STATE on an end marker and return nothing; HEX_STATE records BASE_HEX first |
| EndMarkers.AnswerIsFinal | lexical_analyser.py:149-151 | after an end marker has returned a result, a further end marker returns the same result and changes nothing |
| EndMarkers.EndMarkerPending | lexical_analyser.py:53-54 | an extra end marker after characters that returned nothing acts as the first end marker of the `while` loop |
| EndMarkers.EndMarkerAnswered | lexical_analyser.py:50-51 | an extra end marker after an end marker that returned a result repeats it |
| EndMarkers.ConcludeEndMarker | lexical_analyser.py:50-54 | an end marker appended to a non-empty input changes neither the final fields nor the result |
| EndMarkers.TrailingEndMarker | lexical_analyser.py:50-54 | `process(x + c)` equals `process(x)` for every `c` that lower-cases to an end marker |
| EndMarkers.StepIgnoresBase | lexical_analyser.py:114-247 | two scanners that differ only in their recorded base make the same transition and return the same |
| EndMarkers.FeedIgnoresBase | lexical_analyser.py:50-51 | the same over any sequence of characters |
| EndMarkers.DrainIgnoresBase | lexical_analyser.py:53-54 | the `while` loop returns the same for scanners that differ only in their base |
| EndMarkers.MidEndMarker | lexical_analyser.py:50-51 | an end marker inside the input, where the scanner holds a complete number or is in a sink, is skipped |
| Results.StepOutput | lexical_analyser.py:114-247 | whatever a transition of a reachable scanner returns is a possible result |
| Results.FeedOutput | lexical_analyser.py:50-51 | the `for` loop keeps the invariant and returns only possible results |
| Results.DrainOutput | lexical_analyser.py:53-54 | the `while` loop ends with a possible result |
| Results.OutputPossible | lexical_analyser.py:42-55 | `process` returns DEC in the signed range, OCT or HEX in [0, 2^32], an overflow report with its message (never the report of OVERFLOW_STATE), or one of the two error messages |
| Analyser.LexicalAnalyser.constructor | lexical_analyser.py:32-40 | a new object holds the initial field values and satisfies the invariant |
| Analyser.LexicalAnalyser.Process | lexical_analyser.py:42-55 | `process` ends with the fields and result of `Run(input)`, whatever the object held before, and leaves the object valid |
| Analyser.LexicalAnalyser.Reset | lexical_analyser.py:57-67 | `_reset` restores every field to its initial value |
| Analyser.LexicalAnalyser.ValueTransition | lexical_analyser.py:69-112 | the fields become `LexicalSpec.ValueTransition` of the old ones; a set flag stays set |
| Analyser.LexicalAnalyser.UpdateDecimal | lexical_analyser.py:78-87 | the decimal total and flag take one guarded step unless the flag was set |
| Analyser.LexicalAnalyser.UpdateOctal | lexical_analyser.py:89-99 | the octal total and flag take one guarded step unless the flag was set or the digit exceeds 7 |
| Analyser.LexicalAnalyser.UpdateHexadecimal | lexical_analyser.py:101-110 | the hexadecimal total and flag take one guarded step unless the flag was set |
| Analyser.LexicalAnalyser.NextState | lexical_analyser.py:114-247 | the fields and the returned value are those of `LexicalSpec.Step` on the old fields |
| Analyser.LexicalAnalyser.Accept | lexical_analyser.py:249-267 | `accept` answers exactly when a base is set; on a valid object its values lie in the range of their base |
| TestTable.Twelve | test.py:7 | "12" is DEC 12 |
| TestTable.MinusTwelve | test.py:8 | "-12" is DEC -12 |
| TestTable.LeadingZero | test.py:9 | "011" is DEC 11 |
| TestTable.OneHundredOne | test.py:10 | "101" is DEC 101 |
| TestTable.NearMax | test.py:11 | "2147483645" is DEC 2147483645 |
| TestTable.Max | test.py:12 | "2147483647" is DEC 2147483647 |
| TestTable.MinusMax | test.py:13 | "-2147483647" is DEC -2147483647 |
| TestTable.Min | test.py:14 | "-2147483648" is DEC -2147483648 |
| TestTable.AboveMax | test.py:15 | "2147483648" is the signed overflow report |
| TestTable.BelowMin | test.py:16 | "-2147483649" is the signed overflow report |
| TestTable.LoneSigns | test.py:17-18 | "-" and "+" are the generic error |
| TestTable.TwoSigns | test.py:19 | "+-12" is the generic error |
| TestTable.SignInMiddle | test.py:20 | "+45-12" is the generic error |
| TestTable.Zero | test.py:21 | "0" is DEC 0 |
| TestTable.PlusZero | test.py:22 | "+0" is DEC 0 |
| TestTable.MinusZero | test.py:23 | "-0" is DEC 0 |
| TestTable.MinusFiveDigits | test.py:24 | "-23456" is DEC -23456 |
| TestTable.Hex123 | test.py:27 | "123H" is HEX 291 |
| TestTable.HexLeadingZeros | test.py:28 | "00123H" is HEX 291 |
| TestTable.HexA32 | test.py:29 | "A32H" is HEX 2610 |
| TestTable.HexWithB | test.py:30 | "3F2B1H" is HEX 258737 |
| TestTable.HexMax | test.py:31 | "FFFFFFFFH" is HEX 4294967295 |
| TestTable.HexAboveMax | test.py:32 | "FFFFFFFFFH" is the unsigned overflow report |
| TestTable.AfterTheH | test.py:33 | "FFFFFHFFF" is the generic error |
| TestTable.OnlyH | test.py:34 | "H" is the 'H' error |
| TestTable.TwoHs | test.py:35 | "FFFFFHH" is the 'H' error |
| TestTable.Oct256 | test.py:38 | "256B" is OCT 174 |
| TestTable.Oct23456 | test.py:39 | "23456B" is OCT 10030 |
| TestTable.OctMax | test.py:40 | "37777777777b" is OCT 4294967295 |
| TestTable.OctAboveMax | test.py:41 | "47777777777b" is the unsigned overflow report |
| TestTable.SignedOctal | test.py:42 | "-2345B" is the generic error |
| TestTable.SignedHex | lexical_analyser.py:164-165 | "-12h" is the 'H' error |
| TestTable.OctCaret | test.py:46 | "256B^" is OCT 174 |
| TestTable.DecZ | test.py:47 | "256Z" is DEC 256 |
| TestTable.DecTilde | test.py:48 | "256~" is DEC 256 |
| TestTable.Dec256 | test.py:47 | "256" is DEC 256 |
| TestTable.HexUnderscore | test.py:49 | "12H_" is HEX 18 |
| TestTable.HexTwoToThe32 | utils.py:3 | "100000000h" is HEX 4294967296: a total of 2^32 is not an overflow |
| TestTable.OctTwoToThe32 | utils.py:3 | "40000000000b" is OCT 4294967296 |
| TestTable.DigitsAfterB | lexical_analyser.py:203-211 | "1b2" is OCT 10: digits after the 'b' still count in the octal total |
| TestTable.HexWithoutH | lexical_analyser.py:180-181 | "A3" is the generic error: a hexadecimal run needs its 'h' |
| TestTable.SpaceInside | lexical_analyser.py:50-51 | "12 34" is DEC 1234: the space returns a result that the next characters overwrite |

## Left out

- Run, Classify, Analyser.LexicalAnalyser.Process: these require a non-empty input. On the empty string `process` raises an `UnboundLocalError`, because `result` is never assigned; that failure is not modelled.
- The `__main__` block (lexical_analyser.py:269-286) is left out. It reads a file named on the command line and prints the results, which is I/O.
- The test.py harness (its prints and exceptions) is left out. Its table of inputs is modelled as the lemmas of `TestTable`.
- Python's `is` comparisons on small integers and one-character strings are modelled as equality. That is what they do under CPython's interning.
- The class-level field defaults (lexical_analyser.py:32-40) are shared by all instances in Python. Here they are per-object fields set by the constructor. `process` resets every field before it reads them, so the difference is not observable.
- `str.lower()` is modelled as ASCII case folding. Every character it would fold beyond ASCII lies outside the input set either way, so it acts as an end marker.
- `get_char_value` raises on a character outside '0'..'9' and 'a'..'f'. `Utils.GetCharValue` requires such a character instead, because the scanner never calls it with anything else.
- Utils.MultGuardSigned, Utils.AddGuardSigned: these state the guards as written. The guards are exact range tests only for the operand signs the scanner uses: a positive radix, a non-negative digit, and a total carrying the sign. Those cases are `Utils.MultGuardInRange` and `Utils.AddGuardInRange`. For other signs the guards are wrong in both directions: `add_will_overflow(2147483647, -2)` reports an overflow the sum does not have (`Utils.AddGuardFalseAlarm`), and `mult_will_overflow(-2, -1073741824)` misses the overflow of a product of 2^31 (`Utils.MultGuardMissesOverflow`). The scanner never makes such a call, so no corrected guard is modelled.
- Overflow is reported through the two unsigned messages with the 2^32 bound the code uses. The messages' own wording (2^32 - 1) is kept as text only.
