/**
 * The field-period formatter `field_period_to_text` of server/Functions.ts and
 * its line-for-line JavaScript copy server/Functions.js: a questionnaire name
 * such as "OPN2004" carries a two-character year at offset 3 and a
 * two-character month at offset 5, and the formatter turns them into a label.
 * The model follows the code as written, including its month lookup
 * `monthNames[m]` (not `m - 1`) and its "Unknown" fallback.
 */
module FieldPeriod {
  import opened Wrappers
  import opened JsStrings

  /** The formatter's `monthNames` array. */
  const MonthNames: seq<string> := ["January", "February", "March", "April", "May", "June",
                                    "July", "August", "September", "October", "November", "December"]

  /** The calendar's name for month `m` (1 = January), independently of `MonthNames`. */
  function CalendarMonth(m: int): string
    requires 1 <= m <= 12
  {
    match m
    case 1 => "January"   case 2 => "February"  case 3 => "March"     case 4 => "April"
    case 5 => "May"       case 6 => "June"      case 7 => "July"      case 8 => "August"
    case 9 => "September" case 10 => "October"  case 11 => "November" case _ => "December"
  }

  /**
   * `isNumber(s)`, that is `!isNaN(parseFloat(s)) && isFinite(s)`, on a string
   * of at most two characters (the formatter only passes `substr(5, 2)`).
   * `parseFloat` needs a digit after white space, a sign or a point; `Number`
   * (inside `isFinite`) needs the whole trimmed string to be a decimal literal.
   * Two characters leave a digit, two digits, or a digit with white space on
   * either side, a leading sign, or a point on either side.
   */
  predicate IsNumber(s: string)
    requires |s| <= 2
  {
    if |s| == 1 then IsDigit(s[0])
    else if |s| == 2 then
      (IsDigit(s[0]) && (IsDigit(s[1]) || IsJsWhiteSpace(s[1]) || s[1] == '.'))
      || ((IsJsWhiteSpace(s[0]) || s[0] == '+' || s[0] == '-' || s[0] == '.') && IsDigit(s[1]))
    else false
  }

  /**
   * `parseInt(s)` without a radix, on a string of at most two characters;
   * None stands for NaN. Leading white space is skipped and one sign is read
   * before the digits; a `0x` prefix switches to hexadecimal and leaves no
   * digit to read.
   */
  function ParseInt(s: string): Option<int>
    requires |s| <= 2
  {
    if |s| == 0 || s == "0x" || s == "0X" then None
    else if IsDigit(s[0]) then
      if |s| == 2 && IsDigit(s[1]) then Some(10 * DigitValue(s[0]) + DigitValue(s[1]))
      else Some(DigitValue(s[0]))
    else if |s| == 2 && (IsJsWhiteSpace(s[0]) || s[0] == '+') && IsDigit(s[1]) then Some(DigitValue(s[1]))
    else if |s| == 2 && s[0] == '-' && IsDigit(s[1]) then Some(0 - DigitValue(s[1]) as int)
    else None
  }

  /** The characters the month is read from: `substr(5, 2)`. */
  function MonthCode(name: string): (c: string)
    ensures |c| <= 2
  {
    Substr(name, 5, 2)
  }

  /** The characters the year is read from: `substr(3, 2)`. */
  function YearCode(name: string): (c: string)
    ensures |c| <= 2
  {
    Substr(name, 3, 2)
  }

  /** `month_number_int` after the `isNumber` test: -1 unless the code is a number; None is NaN. */
  function MonthNumber(code: string): Option<int>
    requires |code| <= 2
  {
    if IsNumber(code) then ParseInt(code) else Some(-1)
  }

  /** Whether the month number passes the formatter's range test `> 0 && < 13`. */
  predicate InRange(m: Option<int>) { m.Some? && 0 < m.value < 13 }

  /** JavaScript's `monthNames[i]` converted to text: "undefined" past the end of the array. */
  function MonthNameAt(i: int): string
  {
    if 0 <= i < |MonthNames| then MonthNames[i] else "undefined"
  }

  /** The value of the local `month` after both tests. */
  function MonthPart(code: string): string
    requires |code| <= 2
  {
    var m := MonthNumber(code);
    if InRange(m) then MonthNameAt(m.value) else "Unknown"
  }

  /** Every label the month part can take. */
  predicate IsMonthLabel(l: string) { l in MonthNames || l == "Unknown" || l == "undefined" }

  /**
   * `field_period_to_text(name)`. Total: it never fails, whatever the length
   * of `name`. The result is a month label, then " 20", then the two year
   * characters unchecked.
   */
  function FieldPeriodToText(name: string): (r: string)
    ensures |r| >= 3 + |YearCode(name)|
    ensures r[|r| - |YearCode(name)| - 3..] == " 20" + YearCode(name)
    ensures IsMonthLabel(r[..|r| - |YearCode(name)| - 3])
  {
    var month := MonthPart(MonthCode(name));
    assert IsMonthLabel(month);
    var r := month + " 20" + YearCode(name);
    assert r[..|r| - |YearCode(name)| - 3] == month;
    r
  }

  /** `a + s == b + s` only when `a == b`. */
  lemma CancelSuffix(a: string, b: string, s: string)
    requires a + s == b + s
    ensures a == b
  {
    assert |a| == |b|;
    assert a == (a + s)[..|a|];
    assert b == (b + s)[..|b|];
  }

  /** Appending the same suffix keeps two strings apart. */
  lemma SuffixKeepsDifference(a: string, b: string, s: string)
    requires a != b
    ensures a + s != b + s
  {
    if a + s == b + s {
      CancelSuffix(a, b, s);
    }
  }

  /** One ASCII digit is a number and reads as its value. */
  lemma OneDigitCode(code: string)
    requires |code| == 1 && IsDigit(code[0])
    ensures IsNumber(code) && MonthNumber(code) == Some(DigitValue(code[0]))
  {
  }

  /** Two ASCII digits are a number and read as their decimal value. */
  lemma TwoDigitCode(code: string)
    requires |code| == 2 && IsDigit(code[0]) && IsDigit(code[1])
    ensures IsNumber(code)
    ensures MonthNumber(code) == Some(10 * DigitValue(code[0]) + DigitValue(code[1]))
  {
  }

  /** `monthNames[i]` is the calendar month after month `i`. */
  lemma MonthNamesOneAhead(i: int)
    requires 0 <= i < 12
    ensures MonthNames[i] == CalendarMonth(i + 1)
  {
  }

  /** The month part is "Unknown" exactly when the month number fails the range test. */
  lemma UnknownExactlyWhenOutOfRange(name: string)
    ensures FieldPeriodToText(name) == "Unknown 20" + YearCode(name)
            <==> !InRange(MonthNumber(MonthCode(name)))
  {
    var month := MonthPart(MonthCode(name));
    assert FieldPeriodToText(name) == month + (" 20" + YearCode(name));
    assert "Unknown 20" + YearCode(name) == "Unknown" + (" 20" + YearCode(name));
    if FieldPeriodToText(name) == "Unknown 20" + YearCode(name) {
      CancelSuffix(month, "Unknown", " 20" + YearCode(name));
    }
  }

  /** A month code that is not a number leaves the month "Unknown". */
  lemma NonNumericMonthIsUnknown(name: string)
    requires !IsNumber(MonthCode(name))
    ensures FieldPeriodToText(name) == "Unknown 20" + YearCode(name)
  {
  }

  /** A month number 1..11 is shown as the FOLLOWING calendar month ("04" reads as May). */
  lemma MonthShownOneLate(name: string, m: int)
    requires 1 <= m <= 11 && MonthNumber(MonthCode(name)) == Some(m)
    ensures FieldPeriodToText(name) == CalendarMonth(m + 1) + " 20" + YearCode(name)
  {
    MonthNamesOneAhead(m);
  }

  /** Month 12 passes the range test but reads past the array: the label is "undefined". */
  lemma DecemberReadsPastTheArray(name: string)
    requires MonthNumber(MonthCode(name)) == Some(12)
    ensures FieldPeriodToText(name) == "undefined 20" + YearCode(name)
  {
  }

  /** Names too short to hold a month character have an "Unknown" month. */
  lemma ShortNameHasUnknownMonth(name: string)
    requires |name| <= 5
    ensures FieldPeriodToText(name) == "Unknown 20" + YearCode(name)
  {
  }

  /** A two-digit month code in "01".."11" gives the following month's name. */
  lemma TwoDigitMonthShownOneLate(name: string)
    requires |name| >= 7 && IsDigit(name[5]) && IsDigit(name[6])
    requires 1 <= 10 * DigitValue(name[5]) + DigitValue(name[6]) <= 11
    ensures FieldPeriodToText(name)
            == CalendarMonth(10 * DigitValue(name[5]) + DigitValue(name[6]) + 1) + " 20" + YearCode(name)
  {
    TwoDigitCode(MonthCode(name));
    MonthShownOneLate(name, 10 * DigitValue(name[5]) + DigitValue(name[6]));
  }

  /**
   * JavaScript's number tests accept more than two digits: a digit padded
   * with white space, signed, or followed by a point reads as that digit; a
   * leading point passes `isNumber` but `parseInt` gives NaN.
   */
  lemma LooseMonthCodes(code: string)
    requires |code| == 2
    ensures (IsJsWhiteSpace(code[0]) || code[0] == '+') && IsDigit(code[1])
            ==> MonthNumber(code) == Some(DigitValue(code[1]))
    ensures IsDigit(code[0]) && (IsJsWhiteSpace(code[1]) || code[1] == '.')
            ==> MonthNumber(code) == Some(DigitValue(code[0]))
    ensures code[0] == '-' && IsDigit(code[1]) ==> MonthNumber(code) == Some(0 - DigitValue(code[1]) as int)
    ensures code[0] == '.' && IsDigit(code[1]) ==> IsNumber(code) && MonthNumber(code) == None
  {
  }

  /**
   * What server/tests/functions.test.ts and the route tests expect of the
   * formatter they import: month `m` named as calendar month `m`, and the
   * sentinel "Field period unknown" for any other code.
   */
  function ExpectedFieldPeriod(name: string): string
  {
    var m := MonthNumber(MonthCode(name));
    if InRange(m) then CalendarMonth(m.value) + " 20" + YearCode(name) else "Field period unknown"
  }

  /** The formatter assembled from its parts. */
  lemma TextFromParts(name: string)
    ensures FieldPeriodToText(name) == MonthPart(MonthCode(name)) + " 20" + YearCode(name)
  {
  }

  /** The characters at offsets 3..6 of a seven-character name are its year and month codes. */
  lemma CodesOfSevenCharacterName(name: string)
    requires |name| == 7
    ensures YearCode(name) == [name[3], name[4]]
    ensures MonthCode(name) == [name[5], name[6]]
  {
  }

  /** "OPN2004": the code shows "May 2020"; functions.test.ts expects "April 2020". */
  lemma Opn2004ShownAsMay(name: string)
    requires name == "OPN2004"
    ensures FieldPeriodToText(name) == "May 2020"
    ensures ExpectedFieldPeriod(name) == "April 2020"
  {
    CodesOfSevenCharacterName(name);
    TwoDigitCode(MonthCode(name));
    assert MonthNumber(MonthCode(name)) == Some(4);
    TextFromParts(name);
  }

  /** "OPN2001": the code shows "February 2020"; functions.test.ts expects "January 2020". */
  lemma Opn2001ShownAsFebruary(name: string)
    requires name == "OPN2001"
    ensures FieldPeriodToText(name) == "February 2020"
    ensures ExpectedFieldPeriod(name) == "January 2020"
  {
    CodesOfSevenCharacterName(name);
    TwoDigitCode(MonthCode(name));
    assert MonthNumber(MonthCode(name)) == Some(1);
    TextFromParts(name);
  }

  /** "OPN2012": the code reads past `monthNames`; functions.test.ts expects "December 2020". */
  lemma Opn2012ShownAsUndefined(name: string)
    requires name == "OPN2012"
    ensures FieldPeriodToText(name) == "undefined 2020"
    ensures ExpectedFieldPeriod(name) == "December 2020"
  {
    CodesOfSevenCharacterName(name);
    TwoDigitCode(MonthCode(name));
    assert MonthNumber(MonthCode(name)) == Some(12);
    TextFromParts(name);
  }

  /** "DST2022": month 22 is out of range; the code keeps the year, the test expects the sentinel. */
  lemma Dst2022KeepsYear(name: string)
    requires name == "DST2022"
    ensures FieldPeriodToText(name) == "Unknown 2020"
    ensures ExpectedFieldPeriod(name) == "Field period unknown"
  {
    CodesOfSevenCharacterName(name);
    TwoDigitCode(MonthCode(name));
    assert MonthNumber(MonthCode(name)) == Some(22);
    TextFromParts(name);
  }

  /** "OPN20AB": the month is not a number; the code keeps the year, the test expects the sentinel. */
  lemma Opn20abKeepsYear(name: string)
    requires name == "OPN20AB"
    ensures FieldPeriodToText(name) == "Unknown 2020"
    ensures ExpectedFieldPeriod(name) == "Field period unknown"
  {
    CodesOfSevenCharacterName(name);
    assert !IsNumber(MonthCode(name));
    TextFromParts(name);
  }

  /** "XXXXX05" from the route tests: the code shows "June 20XX" where "May 20XX" is expected. */
  lemma Xxxxx05ShownAsJune(name: string)
    requires name == "XXXXX05"
    ensures FieldPeriodToText(name) == "June 20XX"
    ensures ExpectedFieldPeriod(name) == "May 20XX"
  {
    CodesOfSevenCharacterName(name);
    TwoDigitCode(MonthCode(name));
    assert MonthNumber(MonthCode(name)) == Some(5);
    TextFromParts(name);
  }

  /** No month that passes the range test is shown under its own calendar name. */
  lemma NoMonthShownUnderItsName(m: int)
    requires 1 <= m <= 12
    ensures MonthNameAt(m) != CalendarMonth(m)
  {
    if m < 12 {
      MonthNamesOneAhead(m);
    }
  }

  /** The formatter as written never produces what the tests expect, for any name. */
  lemma CodeNeverMeetsTestedExpectation(name: string)
    ensures FieldPeriodToText(name) != ExpectedFieldPeriod(name)
  {
    var m := MonthNumber(MonthCode(name));
    var year := " 20" + YearCode(name);
    var month := MonthPart(MonthCode(name));
    TextFromParts(name);
    assert FieldPeriodToText(name) == month + year;
    if InRange(m) {
      assert ExpectedFieldPeriod(name) == CalendarMonth(m.value) + year;
      NoMonthShownUnderItsName(m.value);
      SuffixKeepsDifference(month, CalendarMonth(m.value), year);
    } else {
      assert (month + year)[0] == 'U';
    }
  }
}
