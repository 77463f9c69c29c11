/**
 * The rows of the test table in test.py, and the inputs that show the
 * implementation's own readings (the 2^32 bound, digits after an octal
 * 'b', an end marker inside the input), each derived from the general
 * theorems of the other modules.
 */
module TestTable {
  import opened Utils
  import opened LexicalSpec
  import opened Accumulation
  import opened Transitions
  import opened Literals
  import opened Errors
  import opened EndMarkers

  /** test.py line 7. */
  lemma Twelve()
    ensures Classify("12") == Dec(12)
  {
    UnsignedDecimal("12");
    DecimalOf12();
  }

  /** test.py line 8. */
  lemma MinusTwelve()
    ensures Classify("-12") == Dec(-12)
  {
    assert "-12" == ['-'] + "12";
    SignedDecimal('-', "12");
    DecimalOf12();
  }

  /** test.py line 9. */
  lemma LeadingZero()
    ensures Classify("011") == Dec(11)
  {
    UnsignedDecimal("011");
    DecimalOf011();
  }

  /** test.py line 10. */
  lemma OneHundredOne()
    ensures Classify("101") == Dec(101)
  {
    UnsignedDecimal("101");
    DecimalOf101();
  }

  /** test.py line 11. */
  lemma NearMax()
    ensures Classify("2147483645") == Dec(2147483645)
  {
    UnsignedDecimal("2147483645");
    DecimalOf2147483645();
  }

  /** test.py line 12. */
  lemma Max()
    ensures Classify("2147483647") == Dec(2147483647)
  {
    UnsignedDecimal("2147483647");
    DecimalOf2147483647();
  }

  /** test.py line 13. */
  lemma MinusMax()
    ensures Classify("-2147483647") == Dec(-2147483647)
  {
    assert "-2147483647" == ['-'] + "2147483647";
    SignedDecimal('-', "2147483647");
    DecimalOf2147483647();
  }

  /** test.py line 14. */
  lemma Min()
    ensures Classify("-2147483648") == Dec(-2147483648)
  {
    assert "-2147483648" == ['-'] + "2147483648";
    SignedDecimal('-', "2147483648");
    DecimalOf2147483648();
  }

  /** test.py line 15. */
  lemma AboveMax()
    ensures Classify("2147483648") == Overflow(Some(SIGNED_OVERFLOW))
  {
    UnsignedDecimal("2147483648");
    DecimalOf2147483648();
  }

  /** test.py line 16. */
  lemma BelowMin()
    ensures Classify("-2147483649") == Overflow(Some(SIGNED_OVERFLOW))
  {
    assert "-2147483649" == ['-'] + "2147483649";
    SignedDecimal('-', "2147483649");
    DecimalOf2147483649();
  }

  /** test.py line 21. */
  lemma Zero()
    ensures Classify("0") == Dec(0)
  {
    UnsignedDecimal("0");
    DecimalOf0();
  }

  /** test.py line 22. */
  lemma PlusZero()
    ensures Classify("+0") == Dec(0)
  {
    assert "+0" == ['+'] + "0";
    SignedDecimal('+', "0");
    DecimalOf0();
  }

  /** test.py line 23. */
  lemma MinusZero()
    ensures Classify("-0") == Dec(0)
  {
    assert "-0" == ['-'] + "0";
    SignedDecimal('-', "0");
    DecimalOf0();
  }

  /** test.py line 24. */
  lemma MinusFiveDigits()
    ensures Classify("-23456") == Dec(-23456)
  {
    assert "-23456" == ['-'] + "23456";
    SignedDecimal('-', "23456");
    DecimalOf23456();
  }

  /** test.py line 27. */
  lemma Hex123()
    ensures Classify("123H") == Hex(291)
  {
    assert "123H" == "123" + ['H'];
    assert Lower("123") == "123";
    HexLiteral("123", 'H');
    HexOf123();
  }

  /** test.py line 28. */
  lemma HexLeadingZeros()
    ensures Classify("00123H") == Hex(291)
  {
    assert "00123H" == "00123" + ['H'];
    assert Lower("00123") == "00123";
    HexLiteral("00123", 'H');
    HexOf00123();
  }

  /** test.py line 29. */
  lemma HexA32()
    ensures Classify("A32H") == Hex(2610)
  {
    assert "A32H" == "A32" + ['H'];
    assert Lower("A32") == "a32";
    HexLiteral("A32", 'H');
    HexOfA32();
  }

  /** test.py line 30. */
  lemma HexWithB()
    ensures Classify("3F2B1H") == Hex(258737)
  {
    assert "3F2B1H" == "3F2B1" + ['H'];
    assert Lower("3F2B1") == "3f2b1";
    HexLiteral("3F2B1", 'H');
    HexOf3F2B1();
  }

  /** test.py line 31. */
  lemma HexMax()
    ensures Classify("FFFFFFFFH") == Hex(4294967295)
  {
    assert "FFFFFFFFH" == "FFFFFFFF" + ['H'];
    assert Lower("FFFFFFFF") == "ffffffff";
    HexLiteral("FFFFFFFF", 'H');
    HexOfFFFFFFFF();
  }

  /** test.py line 32. */
  lemma HexAboveMax()
    ensures Classify("FFFFFFFFFH") == Overflow(Some(UNSIGNED_OVERFLOW))
  {
    assert "FFFFFFFFFH" == "FFFFFFFFF" + ['H'];
    assert Lower("FFFFFFFFF") == "fffffffff";
    HexLiteral("FFFFFFFFF", 'H');
    HexOfFFFFFFFFF();
  }

  /** test.py line 38. */
  lemma Oct256()
    ensures Classify("256B") == Oct(174)
  {
    assert "256B" == "256" + ['B'];
    OctalLiteral("256", 'B');
    OctalOf256();
  }

  /** test.py line 39. */
  lemma Oct23456()
    ensures Classify("23456B") == Oct(10030)
  {
    assert "23456B" == "23456" + ['B'];
    OctalLiteral("23456", 'B');
    OctalOf23456();
  }

  /** test.py line 40. */
  lemma OctMax()
    ensures Classify("37777777777b") == Oct(4294967295)
  {
    assert "37777777777b" == "37777777777" + ['b'];
    OctalLiteral("37777777777", 'b');
    OctalOf37777777777();
  }

  /** test.py line 41. */
  lemma OctAboveMax()
    ensures Classify("47777777777b") == Overflow(Some(UNSIGNED_OVERFLOW))
  {
    assert "47777777777b" == "47777777777" + ['b'];
    OctalLiteral("47777777777", 'b');
    OctalOf47777777777();
  }

  /** test.py lines 17-18: a sign alone is the generic error. */
  lemma LoneSigns()
    ensures Classify("-") == Error(GENERIC_ERROR)
    ensures Classify("+") == Error(GENERIC_ERROR)
  {
    SignWithoutDigit("-");
    SignWithoutDigit("+");
  }

  /** test.py line 19: two signs at the start. */
  lemma TwoSigns()
    ensures Classify("+-12") == Error(GENERIC_ERROR)
  {
    assert Lower("+-12") == "+-12";
    assert Lower("+-12")[..1] == "+";
    SignNotFirst("+-12", 1);
  }

  /** test.py line 20: a sign in the middle of the input. */
  lemma SignInMiddle()
    ensures Classify("+45-12") == Error(GENERIC_ERROR)
  {
    assert Lower("+45-12") == "+45-12";
    assert Lower("+45-12")[..3] == "+45";
    SignNotFirst("+45-12", 3);
  }

  /** test.py line 33: characters after the 'H'. */
  lemma AfterTheH()
    ensures Classify("FFFFFHFFF") == Error(GENERIC_ERROR)
  {
    assert Lower("FFFFFHFFF") == "fffff" + ['h'] + ['f'] + "ff";
    AfterH("FFFFFHFFF", "fffff", 'f', "ff");
  }

  /** test.py line 34: an 'H' alone. */
  lemma OnlyH()
    ensures Classify("H") == Error(H_ERROR)
  {
    LeadingH("H");
  }

  /** test.py line 35: a second 'H'. */
  lemma TwoHs()
    ensures Classify("FFFFFHH") == Error(H_ERROR)
  {
    assert Lower("FFFFFHH") == "fffff" + ['h'] + ['h'] + [];
    AfterH("FFFFFHH", "fffff", 'h', []);
  }

  /** test.py line 42: an octal number has no sign. */
  lemma SignedOctal()
    ensures Classify("-2345B") == Error(GENERIC_ERROR)
  {
    assert Lower("-2345B") == ['-'] + "2345" + ['b'] + [];
    SignedThenSuffix("-2345B", '-', "2345", 'b', []);
  }

  /** A hexadecimal number has no sign either; its 'h' is the 'H' error. */
  lemma SignedHex()
    ensures Classify("-12h") == Error(H_ERROR)
  {
    assert Lower("-12h") == ['-'] + "12" + ['h'] + [];
    SignedThenSuffix("-12h", '-', "12", 'h', []);
  }

  /** test.py line 46: '^' ends an octal number. */
  lemma OctCaret()
    ensures Classify("256B^") == Oct(174)
  {
    assert "256B^" == "256B" + ['^'];
    TrailingEndMarker("256B", '^');
    Oct256();
  }

  /** test.py line 47: 'Z' (a letter outside the input set) ends a decimal number. */
  lemma DecZ()
    ensures Classify("256Z") == Dec(256)
  {
    assert "256Z" == "256" + ['Z'];
    TrailingEndMarker("256", 'Z');
    Dec256();
  }

  /** test.py line 48: '~' ends a decimal number. */
  lemma DecTilde()
    ensures Classify("256~") == Dec(256)
  {
    assert "256~" == "256" + ['~'];
    TrailingEndMarker("256", '~');
    Dec256();
  }

  lemma Dec256()
    ensures Classify("256") == Dec(256)
  {
    UnsignedDecimal("256");
    DecimalOf256();
  }

  /** test.py line 49: '_' after a hexadecimal number. */
  lemma HexUnderscore()
    ensures Classify("12H_") == Hex(18)
  {
    assert "12H_" == "12H" + ['_'];
    TrailingEndMarker("12H", '_');
    assert "12H" == "12" + ['H'];
    HexLiteral("12", 'H');
    HexOf12();
  }

  /** The unsigned bound is 2^32 itself: 16^8 is accepted as a hexadecimal value. */
  lemma HexTwoToThe32()
    ensures Classify("100000000h") == Hex(4294967296)
  {
    assert "100000000h" == "100000000" + ['h'];
    assert Lower("100000000") == "100000000";
    HexOf100000000();
    HexLiteral("100000000", 'h');
  }

  /** The unsigned bound is 2^32 itself: 4 * 8^10 is accepted as an octal value. */
  lemma OctTwoToThe32()
    ensures Classify("40000000000b") == Oct(4294967296)
  {
    assert "40000000000b" == "40000000000" + ['b'];
    OctalLiteral("40000000000", 'b');
    OctalOf40000000000();
  }

  /** Digits after the 'b' of an octal run still count: "1b2" is OCT 10 (octal "12"). */
  lemma DigitsAfterB()
    ensures Classify("1b2") == Oct(10)
  {
    var cs := "1b2";
    assert Lower(cs) == cs;
    assert AllIn(cs, HEX_DIGITS);
    assert !AllIn(cs, LOWER_DIGIT) && !AllIn(cs, DIGITS) by {
      assert cs[1] == 'b';
    }
    assert AllIn(cs, LOWER_DIGIT + {'b'});
    assert RunState(cs) == OctHexState;
    BareRun(cs);
    assert cs[..2] == "1b" && "1b"[..1] == "1";
    assert OctalValue(cs) == 10;
  }

  /** A run of hexadecimal digits without its 'h' is the generic error. */
  lemma HexWithoutH()
    ensures Classify("A3") == Error(GENERIC_ERROR)
  {
    var cs := "a3";
    assert Lower("A3") == cs;
    assert AllIn(cs, HEX_DIGITS);
    assert !AllIn(cs, DIGITS) && !(cs[0] in LOWER_DIGIT) by {
      assert cs[0] == 'a';
    }
    assert RunState(cs) == HexState;
    BareRun("A3");
  }

  /** A space between two decimal runs is skipped: "12 34" is DEC 1234. */
  lemma SpaceInside()
    ensures Classify("12 34") == Dec(1234)
  {
    assert AllIn("12", LOWER_DIGIT) && AllIn("12", HEX_DIGITS);
    RunWalk("12");
    assert Lower("12 34") == "12" + [' '] + "34";
    MidEndMarker("12", ' ', "34");
    assert "12" + "34" == "1234";
    assert Lower("1234") == "1234";
    UnsignedDecimal("1234");
    DecimalOf1234();
  }

  // Values of the digit strings above, one step per digit.

  lemma DecimalOf12()
    ensures ValueIn("12", 10) == 12
  {
    assert "12"[..1] == "1";
  }

  lemma DecimalOf011()
    ensures ValueIn("011", 10) == 11
  {
    assert "011"[..2] == "01";
    assert "01"[..1] == "0";
  }

  lemma DecimalOf101()
    ensures ValueIn("101", 10) == 101
  {
    assert "101"[..2] == "10";
    assert "10"[..1] == "1";
  }

  lemma DecimalOf2147483645()
    ensures ValueIn("2147483645", 10) == 2147483645
  {
    assert "2147483645"[..9] == "214748364";
    assert "214748364"[..8] == "21474836";
    assert "21474836"[..7] == "2147483";
    assert "2147483"[..6] == "214748";
    assert "214748"[..5] == "21474";
    assert "21474"[..4] == "2147";
    assert "2147"[..3] == "214";
    assert "214"[..2] == "21";
    assert "21"[..1] == "2";
  }

  lemma DecimalOf2147483647()
    ensures ValueIn("2147483647", 10) == 2147483647
  {
    assert "2147483647"[..9] == "214748364";
    assert "214748364"[..8] == "21474836";
    assert "21474836"[..7] == "2147483";
    assert "2147483"[..6] == "214748";
    assert "214748"[..5] == "21474";
    assert "21474"[..4] == "2147";
    assert "2147"[..3] == "214";
    assert "214"[..2] == "21";
    assert "21"[..1] == "2";
  }

  lemma DecimalOf2147483648()
    ensures ValueIn("2147483648", 10) == 2147483648
  {
    assert "2147483648"[..9] == "214748364";
    assert "214748364"[..8] == "21474836";
    assert "21474836"[..7] == "2147483";
    assert "2147483"[..6] == "214748";
    assert "214748"[..5] == "21474";
    assert "21474"[..4] == "2147";
    assert "2147"[..3] == "214";
    assert "214"[..2] == "21";
    assert "21"[..1] == "2";
  }

  lemma DecimalOf2147483649()
    ensures ValueIn("2147483649", 10) == 2147483649
  {
    assert "2147483649"[..9] == "214748364";
    assert "214748364"[..8] == "21474836";
    assert "21474836"[..7] == "2147483";
    assert "2147483"[..6] == "214748";
    assert "214748"[..5] == "21474";
    assert "21474"[..4] == "2147";
    assert "2147"[..3] == "214";
    assert "214"[..2] == "21";
    assert "21"[..1] == "2";
  }

  lemma DecimalOf0()
    ensures ValueIn("0", 10) == 0
  {
  }

  lemma DecimalOf23456()
    ensures ValueIn("23456", 10) == 23456
  {
    assert "23456"[..4] == "2345";
    assert "2345"[..3] == "234";
    assert "234"[..2] == "23";
    assert "23"[..1] == "2";
  }

  lemma HexOf123()
    ensures ValueIn("123", 16) == 291
  {
    assert "123"[..2] == "12";
    assert "12"[..1] == "1";
  }

  lemma HexOf00123()
    ensures ValueIn("00123", 16) == 291
  {
    assert "00123"[..4] == "0012";
    assert "0012"[..3] == "001";
    assert "001"[..2] == "00";
    assert "00"[..1] == "0";
  }

  lemma HexOfA32()
    ensures ValueIn("a32", 16) == 2610
  {
    assert "a32"[..2] == "a3";
    assert "a3"[..1] == "a";
  }

  lemma HexOf3F2B1()
    ensures ValueIn("3f2b1", 16) == 258737
  {
    assert "3f2b1"[..4] == "3f2b";
    assert "3f2b"[..3] == "3f2";
    assert "3f2"[..2] == "3f";
    assert "3f"[..1] == "3";
  }

  lemma HexOfFFFFFFFF()
    ensures ValueIn("ffffffff", 16) == 4294967295
  {
    assert "ffffffff"[..7] == "fffffff";
    assert "fffffff"[..6] == "ffffff";
    assert "ffffff"[..5] == "fffff";
    assert "fffff"[..4] == "ffff";
    assert "ffff"[..3] == "fff";
    assert "fff"[..2] == "ff";
    assert "ff"[..1] == "f";
  }

  lemma HexOfFFFFFFFFF()
    ensures ValueIn("fffffffff", 16) == 68719476735
  {
    assert "fffffffff"[..8] == "ffffffff";
    assert "ffffffff"[..7] == "fffffff";
    assert "fffffff"[..6] == "ffffff";
    assert "ffffff"[..5] == "fffff";
    assert "fffff"[..4] == "ffff";
    assert "ffff"[..3] == "fff";
    assert "fff"[..2] == "ff";
    assert "ff"[..1] == "f";
  }

  lemma OctalOf256()
    ensures ValueIn("256", 8) == 174
  {
    assert "256"[..2] == "25";
    assert "25"[..1] == "2";
  }

  lemma OctalOf23456()
    ensures ValueIn("23456", 8) == 10030
  {
    assert "23456"[..4] == "2345";
    assert "2345"[..3] == "234";
    assert "234"[..2] == "23";
    assert "23"[..1] == "2";
  }

  lemma OctalOf37777777777()
    ensures ValueIn("37777777777", 8) == 4294967295
  {
    assert "37777777777"[..10] == "3777777777";
    assert "3777777777"[..9] == "377777777";
    assert "377777777"[..8] == "37777777";
    assert "37777777"[..7] == "3777777";
    assert "3777777"[..6] == "377777";
    assert "377777"[..5] == "37777";
    assert "37777"[..4] == "3777";
    assert "3777"[..3] == "377";
    assert "377"[..2] == "37";
    assert "37"[..1] == "3";
  }

  lemma OctalOf47777777777()
    ensures ValueIn("47777777777", 8) == 5368709119
  {
    assert "47777777777"[..10] == "4777777777";
    assert "4777777777"[..9] == "477777777";
    assert "477777777"[..8] == "47777777";
    assert "47777777"[..7] == "4777777";
    assert "4777777"[..6] == "477777";
    assert "477777"[..5] == "47777";
    assert "47777"[..4] == "4777";
    assert "4777"[..3] == "477";
    assert "477"[..2] == "47";
    assert "47"[..1] == "4";
  }

  lemma DecimalOf256()
    ensures ValueIn("256", 10) == 256
  {
    assert "256"[..2] == "25";
    assert "25"[..1] == "2";
  }

  lemma HexOf12()
    ensures ValueIn("12", 16) == 18
  {
    assert "12"[..1] == "1";
  }

  lemma HexOf100000000()
    ensures ValueIn("100000000", 16) == 4294967296
  {
    assert "100000000"[..8] == "10000000";
    assert "10000000"[..7] == "1000000";
    assert "1000000"[..6] == "100000";
    assert "100000"[..5] == "10000";
    assert "10000"[..4] == "1000";
    assert "1000"[..3] == "100";
    assert "100"[..2] == "10";
    assert "10"[..1] == "1";
  }

  lemma OctalOf40000000000()
    ensures ValueIn("40000000000", 8) == 4294967296
  {
    assert "40000000000"[..10] == "4000000000";
    assert "4000000000"[..9] == "400000000";
    assert "400000000"[..8] == "40000000";
    assert "40000000"[..7] == "4000000";
    assert "4000000"[..6] == "400000";
    assert "400000"[..5] == "40000";
    assert "40000"[..4] == "4000";
    assert "4000"[..3] == "400";
    assert "400"[..2] == "40";
    assert "40"[..1] == "4";
  }

  lemma DecimalOf1234()
    ensures ValueIn("1234", 10) == 1234
  {
    assert "1234"[..3] == "123";
    assert "123"[..2] == "12";
    assert "12"[..1] == "1";
  }
}
