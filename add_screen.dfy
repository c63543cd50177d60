/** The add-medicine screen of src/screens/AddScreen.tsx: the date/time
    label formatter and the picker state. A moment is given by the values
    its `Date` getters return: day of month, month index (0 for January),
    hours and minutes. */
module AddScreen {
  import opened Wrappers

  datatype Moment = Moment(date: nat, month: nat, hours: nat, minutes: nat)

  /** The values JavaScript's `Date` getters can return. */
  predicate ValidMoment(m: Moment) {
    1 <= m.date <= 31 && m.month <= 11 && m.hours <= 23 && m.minutes <= 59
  }

  predicate IsDigit(c: char) {
    '0' <= c <= '9'
  }

  function DigitChar(d: nat): (c: char)
    requires d < 10
    ensures IsDigit(c) && c as int - '0' as int == d
  {
    ('0' as int + d) as char
  }

  /** `String(n)` for a natural number: its decimal digits. */
  function DecimalString(n: nat): (s: string)
    ensures |s| >= 1
    ensures forall k :: 0 <= k < |s| ==> IsDigit(s[k])
    ensures n < 10 <==> |s| == 1
  {
    if n < 10 then [DigitChar(n)] else DecimalString(n / 10) + [DigitChar(n % 10)]
  }

  /** The value of one decimal digit; other characters count as 0. */
  function DigitValue(c: char): (d: nat)
    ensures d < 10
    ensures IsDigit(c) ==> DigitChar(d) == c
  {
    if IsDigit(c) then c as int - '0' as int else 0
  }

  /** The number a string of decimal digits denotes. */
  function DigitsValue(s: string): nat {
    if s == [] then 0
    else DigitsValue(s[..|s| - 1]) * 10 + DigitValue(s[|s| - 1])
  }

  /** Reading `String(n)` back gives `n`. */
  lemma {:induction false} DecimalStringRoundTrip(n: nat)
    ensures DigitsValue(DecimalString(n)) == n
  {
    var s := DecimalString(n);
    if n >= 10 {
      DecimalStringRoundTrip(n / 10);
      assert s[..|s| - 1] == DecimalString(n / 10);
    } else {
      assert s[..|s| - 1] == [];
    }
  }

  /** `s.padStart(2, '0')`. */
  function PadStart2(s: string): (r: string)
    ensures |s| >= 2 ==> r == s
    ensures |s| < 2 ==> |r| == 2 && r[2 - |s|..] == s && forall k :: 0 <= k < 2 - |s| ==> r[k] == '0'
  {
    if |s| >= 2 then s else seq(2 - |s|, _ => '0') + s
  }

  /** `String(n).padStart(2, '0')`. */
  function Pad2(n: nat): string {
    PadStart2(DecimalString(n))
  }

  /** A value below 100 becomes exactly two digits that read back as it:
      a single digit gets a leading '0', larger values are unchanged. */
  lemma Pad2Digits(n: nat)
    requires n < 100
    ensures |Pad2(n)| == 2 && IsDigit(Pad2(n)[0]) && IsDigit(Pad2(n)[1])
    ensures DigitsValue(Pad2(n)) == n
    ensures n < 10 ==> Pad2(n) == ['0', DigitChar(n)]
    ensures n >= 10 ==> Pad2(n) == DecimalString(n)
  {
    var p := Pad2(n);
    if n < 10 {
      assert p == ['0', DigitChar(n)];
      assert p[..1] == ['0'];
    } else {
      assert DecimalString(n / 10) == [DigitChar(n / 10)];
      DecimalStringRoundTrip(n);
    }
  }

  /** `${dd}/${mm}, ${hh}${min}` with the month written as given by
      `monthOf` from the month index. */
  function Layout(m: Moment, monthOf: nat): string {
    Pad2(m.date) + "/" + Pad2(monthOf) + ", " + Pad2(m.hours) + Pad2(m.minutes)
  }

  /** `formatDateTime` as written: the month is `getMonth() + 2`. */
  function FormatDateTime(m: Moment): (r: string)
    requires ValidMoment(m)
    ensures |r| == 11 && r[2] == '/' && r[5..7] == ", "
    ensures r[3..5] == Pad2(m.month + 2)
  {
    LayoutFields(m, m.month + 2);
    Layout(m, m.month + 2)
  }

  /** `formatDateTime` with the calendar month, `getMonth() + 1`. */
  function FormatDateTimeCorrected(m: Moment): (r: string)
    requires ValidMoment(m)
    ensures |r| == 11 && r[2] == '/' && r[5..7] == ", "
    ensures r[3..5] == Pad2(m.month + 1)
  {
    LayoutFields(m, m.month + 1);
    Layout(m, m.month + 1)
  }

  /** Where the four two-character fields sit in the label. */
  lemma FieldPositions(a: string, b: string, c: string, d: string)
    requires |a| == 2 && |b| == 2 && |c| == 2 && |d| == 2
    ensures var r := a + "/" + b + ", " + c + d;
            |r| == 11 && r[2] == '/' && r[5..7] == ", " &&
            r[0..2] == a && r[3..5] == b && r[7..9] == c && r[9..11] == d
  {
  }

  /** The label is eleven characters: day, '/', month, ", ", then hour and
      minute with nothing between them; each two-digit field reads back as
      the value it was made from. */
  lemma LayoutFields(m: Moment, monthOf: nat)
    requires ValidMoment(m) && monthOf < 100
    ensures var r := Layout(m, monthOf);
            |r| == 11 && r[2] == '/' && r[5..7] == ", " &&
            r[0..2] == Pad2(m.date) && r[3..5] == Pad2(monthOf) &&
            r[7..9] == Pad2(m.hours) && r[9..11] == Pad2(m.minutes)
  {
    Pad2Digits(m.date);
    Pad2Digits(monthOf);
    Pad2Digits(m.hours);
    Pad2Digits(m.minutes);
    FieldPositions(Pad2(m.date), Pad2(monthOf), Pad2(m.hours), Pad2(m.minutes));
  }

  /** A field made by `Pad2` from a value below 100 is all digits and
      reads back as that value. */
  lemma ReadField(f: string, n: nat)
    requires n < 100 && f == Pad2(n)
    ensures forall k :: 0 <= k < |f| ==> IsDigit(f[k])
    ensures DigitsValue(f) == n
  {
    Pad2Digits(n);
  }

  /** Each field of the label reads back as the value it was made from. */
  lemma LayoutValues(m: Moment, monthOf: nat)
    requires ValidMoment(m) && monthOf < 100
    ensures var r := Layout(m, monthOf);
            |r| == 11 && DigitsValue(r[3..5]) == monthOf &&
            DigitsValue(r[0..2]) == m.date && DigitsValue(r[7..9]) == m.hours && DigitsValue(r[9..11]) == m.minutes
  {
    var r := Layout(m, monthOf);
    LayoutFields(m, monthOf);
    ReadField(r[0..2], m.date);
    ReadField(r[3..5], monthOf);
    ReadField(r[7..9], m.hours);
    ReadField(r[9..11], m.minutes);
  }

  /** As written, the month field reads as the month index plus two. */
  lemma FormatDateTimeMonthField(m: Moment)
    requires ValidMoment(m)
    ensures var r := FormatDateTime(m);
            |r| == 11 && DigitsValue(r[3..5]) == m.month + 2 &&
            DigitsValue(r[0..2]) == m.date && DigitsValue(r[7..9]) == m.hours && DigitsValue(r[9..11]) == m.minutes
  {
    LayoutValues(m, m.month + 2);
  }

  /** January renders as "02" and December as "13", which names no month. */
  lemma FormatDateTimeMonthOffByOne()
    ensures FormatDateTime(Moment(1, 0, 9, 5)) == "01/02, 0905"
    ensures FormatDateTime(Moment(31, 11, 23, 59))[3..5] == "13"
  {
    Pad2Digits(1);
    Pad2Digits(2);
    Pad2Digits(9);
    Pad2Digits(5);
    LayoutFields(Moment(31, 11, 23, 59), 13);
    Pad2Digits(13);
    assert DecimalString(1) == "1";
    assert DecimalString(13) == "13";
  }

  /** Corrected, the month field reads as the calendar month, 1 to 12. */
  lemma FormatDateTimeCorrectedMonth(m: Moment)
    requires ValidMoment(m)
    ensures var r := FormatDateTimeCorrected(m);
            |r| == 11 && 1 <= DigitsValue(r[3..5]) <= 12 && DigitsValue(r[3..5]) == m.month + 1
  {
    LayoutValues(m, m.month + 1);
  }

  datatype PickerMode = DateMode | TimeMode

  datatype DropdownItem = DropdownItem(text: string, value: string)

  /** The medicine types the dropdown offers. */
  const TypeItems: seq<DropdownItem> :=
    [DropdownItem("Capsule", "capsule"), DropdownItem("Drop", "drop"), DropdownItem("Tablet", "tablet")]

  lemma TypeItemsValues()
    ensures |TypeItems| == 3
    ensures (set i | 0 <= i < |TypeItems| :: TypeItems[i].value) == {"capsule", "drop", "tablet"}
    ensures (set i | 0 <= i < |TypeItems| :: TypeItems[i].text) == {"Capsule", "Drop", "Tablet"}
  {
    assert TypeItems[0].value == "capsule" && TypeItems[1].value == "drop" && TypeItems[2].value == "tablet";
    assert TypeItems[0].text == "Capsule" && TypeItems[1].text == "Drop" && TypeItems[2].text == "Tablet";
  }

  class PickerState {
    var mode: PickerMode
    var show: bool
    var dateTime: Moment

    constructor (now: Moment)
      ensures mode == DateMode && !show && dateTime == now
    {
      mode, show, dateTime := DateMode, false, now;
    }

    /** `showMode`: sets the mode and opens the picker. */
    method ShowMode(currentMode: PickerMode)
      modifies this`mode, this`show
      ensures mode == currentMode && show
    {
      mode := currentMode;
      show := true;
    }

    /** `onChange`: a supplied moment replaces the stored one; the picker
        closes either way. */
    method OnChange(selected: Option<Moment>)
      modifies this`dateTime, this`show
      ensures dateTime == if selected.Some? then selected.value else old(dateTime)
      ensures !show
    {
      if selected.Some? {
        dateTime := selected.value;
      }
      show := false;
    }
  }
}
