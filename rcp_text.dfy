/** The text rules of the RCP metadata reader: the `Label:<tab>value<newline>`
    lines of its parameter dictionary and their CSV form, the fixed-width
    date and time fields that datetime.strptime accepts and strftime writes
    back, the acquisition-mode and flag wording, and the symbolic form of
    the floating-point values it prints. */
module RcpText {

  import opened Common
  import opened Text
  import opened Fields

  /** f"{title}:{tab}{value}{nl}": one dictionary value. */
  function Line(title: string, value: string): string
  {
    title + ":\t" + value + "\n"
  }

  /** The .txt output: the dictionary values written one after another. */
  function TxtText(values: seq<string>): string
  {
    if values == [] then "" else TxtText(values[..|values| - 1]) + values[|values| - 1]
  }

  /** The .csv output: each value written with value.replace('\t', ','). */
  function CsvText(values: seq<string>): string
  {
    if values == [] then "" else CsvText(values[..|values| - 1]) + ReplaceChar(values[|values| - 1], '\t', ',')
  }

  /** The CSV file is the TXT file with every tab turned into a comma. */
  lemma {:induction false} CsvIsTxtWithCommas(values: seq<string>)
    ensures CsvText(values) == ReplaceChar(TxtText(values), '\t', ',')
    decreases |values|
  {
    if values != [] {
      var n := |values| - 1;
      CsvIsTxtWithCommas(values[..n]);
      ReplaceCharConcat(TxtText(values[..n]), values[n], '\t', ',');
    }
  }

  /** A line whose title and value hold no tab reads `title:,value` in CSV. */
  lemma CsvLine(title: string, value: string)
    requires '\t' !in title && '\t' !in value
    ensures ReplaceChar(Line(title, value), '\t', ',') == title + ":," + value + "\n"
  {
    var l, r := ReplaceChar(Line(title, value), '\t', ','), title + ":," + value + "\n";
    assert |l| == |r|;
    forall k | 0 <= k < |l| ensures l[k] == r[k] {
      if k < |title| {
        assert Line(title, value)[k] == title[k];
      } else if k >= |title| + 2 && k < |title| + 2 + |value| {
        assert Line(title, value)[k] == value[k - |title| - 2];
      }
    }
  }

  // ----- datetime.strptime / strftime on the fixed-width slices -----

  datatype CivilDate = CivilDate(year: nat, month: nat, day: nat)
  datatype ClockTime = ClockTime(hour: nat, minute: nat, second: nat)

  function DigitValue(c: char): nat
    requires IsDigit(c)
  {
    c as int - '0' as int
  }

  function TwoDigits(a: char, b: char): nat
    requires IsDigit(a) && IsDigit(b)
  {
    10 * DigitValue(a) + DigitValue(b)
  }

  /** %m at full width: 1[0-2] | 0[1-9]. */
  function Month2(a: char, b: char): Option<nat>
  {
    if IsDigit(a) && IsDigit(b) && 1 <= TwoDigits(a, b) <= 12 then Some(TwoDigits(a, b)) else None
  }

  /** %d at full width: 3[01] | [12]\d | 0[1-9] | ' '[1-9]. */
  function Day2(a: char, b: char): Option<nat>
  {
    if a == ' ' && '1' <= b <= '9' then Some(DigitValue(b))
    else if IsDigit(a) && IsDigit(b) && 1 <= TwoDigits(a, b) <= 31 then Some(TwoDigits(a, b))
    else None
  }

  /** %Y: four digits. */
  function Year4(s: string): Option<nat>
  {
    if |s| == 4 && AllDigits(s) then Some(DigitsValue(s)) else None
  }

  predicate Leap(y: nat)
  {
    y % 4 == 0 && (y % 100 != 0 || y % 400 == 0)
  }

  function DaysInMonth(y: nat, m: nat): nat
  {
    if m == 2 then (if Leap(y) then 29 else 28)
    else if m == 4 || m == 6 || m == 9 || m == 11 then 30
    else 31
  }

  /** What the datetime constructor accepts. */
  predicate ValidDate(d: CivilDate)
  {
    1 <= d.year <= 9999 && 1 <= d.month <= 12 && 1 <= d.day <= DaysInMonth(d.year, d.month)
  }

  predicate ValidTime(t: ClockTime)
  {
    t.hour < 24 && t.minute < 60 && t.second < 60
  }

  function MakeDate(y: Option<nat>, m: Option<nat>, d: Option<nat>): (r: Result<CivilDate>)
    ensures r.Ok? ==> ValidDate(r.value)
  {
    if y.Some? && m.Some? && d.Some? && ValidDate(CivilDate(y.value, m.value, d.value))
    then Ok(CivilDate(y.value, m.value, d.value))
    else Err(BadDate)
  }

  /** datetime.strptime(s, '%m/%d/%Y') on a ten-character slice. Every
      field must then take its widest form, so the regular expression
      strptime builds matches the whole slice only in this layout. */
  function ParseMdy(s: string): (r: Result<CivilDate>)
    ensures r.Ok? ==> ValidDate(r.value)
  {
    if |s| == 10 && s[2] == '/' && s[5] == '/' then MakeDate(Year4(s[6..10]), Month2(s[0], s[1]), Day2(s[3], s[4]))
    else Err(BadDate)
  }

  /** datetime.strptime(s, '%Y-%m-%d') on a ten-character slice. */
  function ParseYmd(s: string): (r: Result<CivilDate>)
    ensures r.Ok? ==> ValidDate(r.value)
  {
    if |s| == 10 && s[4] == '-' && s[7] == '-' then MakeDate(Year4(s[..4]), Month2(s[5], s[6]), Day2(s[8], s[9]))
    else Err(BadDate)
  }

  /** datetime.strptime(s, '%H%M%S') on a six-character slice: %H is
      2[0-3] | [0-1]\d, %M is [0-5]\d, %S is 6[0-1] | [0-5]\d, and the
      datetime constructor refuses a second of 60 or 61. */
  function ParseHms(s: string): (r: Result<ClockTime>)
    ensures r.Ok? ==> ValidTime(r.value)
  {
    if |s| == 6 && AllDigits(s) && TwoDigits(s[0], s[1]) < 24 && TwoDigits(s[2], s[3]) < 60 && TwoDigits(s[4], s[5]) < 60
    then Ok(ClockTime(TwoDigits(s[0], s[1]), TwoDigits(s[2], s[3]), TwoDigits(s[4], s[5])))
    else Err(BadDate)
  }

  /** A zero-padded two-digit field (%d, %m, %H, %M, %S on output). */
  function Pad2(n: nat): (r: string)
    requires n < 100
    ensures |r| == 2 && AllDigits(r)
  {
    [DigitChar(n / 10), DigitChar(n % 10)]
  }

  /** %Y on output for a four-digit year. */
  function Pad4(n: nat): (r: string)
    requires n < 10000
    ensures |r| == 4 && AllDigits(r)
  {
    Pad2(n / 100) + Pad2(n % 100)
  }

  /** f"{date:%d/%m/%Y}". */
  function DmyText(d: CivilDate): string
    requires ValidDate(d)
  {
    Pad2(d.day) + "/" + Pad2(d.month) + "/" + Pad4(d.year)
  }

  /** f"{time:%H:%M:%S}". */
  function HmsText(t: ClockTime): string
    requires ValidTime(t)
  {
    Pad2(t.hour) + ":" + Pad2(t.minute) + ":" + Pad2(t.second)
  }

  /** The date as the source writes it in a Versa file, MM/DD/YYYY. */
  function MdyText(d: CivilDate): string
    requires ValidDate(d)
  {
    Pad2(d.month) + "/" + Pad2(d.day) + "/" + Pad4(d.year)
  }

  /** The date as a recipe time stamp writes it, YYYY-MM-DD. */
  function YmdText(d: CivilDate): string
    requires ValidDate(d)
  {
    Pad4(d.year) + "-" + Pad2(d.month) + "-" + Pad2(d.day)
  }

  /** The time as a recipe time stamp writes it, HHMMSS. */
  function HmsDigits(t: ClockTime): string
    requires ValidTime(t)
  {
    Pad2(t.hour) + Pad2(t.minute) + Pad2(t.second)
  }

  lemma Pad2Digits(a: char, b: char)
    requires IsDigit(a) && IsDigit(b)
    ensures Pad2(TwoDigits(a, b)) == [a, b]
  {
    var n := TwoDigits(a, b);
    assert n / 10 == DigitValue(a) && n % 10 == DigitValue(b);
  }

  lemma TwoDigitsPad2(n: nat)
    requires n < 100
    ensures TwoDigits(Pad2(n)[0], Pad2(n)[1]) == n
  {
  }

  lemma Digits4(s: string)
    requires |s| == 4 && AllDigits(s)
    ensures DigitsValue(s) == 100 * TwoDigits(s[0], s[1]) + TwoDigits(s[2], s[3])
  {
    assert s[..3][..2] == s[..2] && s[..2][..1] == s[..1] && s[..1][..0] == [];
    assert DigitsValue(s[..1]) == DigitValue(s[0]);
    assert DigitsValue(s[..2]) == TwoDigits(s[0], s[1]);
    assert DigitsValue(s[..3]) == 10 * TwoDigits(s[0], s[1]) + DigitValue(s[2]);
  }

  lemma Pad4Digits(s: string)
    requires |s| == 4 && AllDigits(s)
    ensures DigitsValue(s) < 10000 && Pad4(DigitsValue(s)) == s
  {
    Digits4(s);
    var n := DigitsValue(s);
    assert n / 100 == TwoDigits(s[0], s[1]) && n % 100 == TwoDigits(s[2], s[3]);
    Pad2Digits(s[0], s[1]);
    Pad2Digits(s[2], s[3]);
  }

  lemma Year4Pad4(n: nat)
    requires n < 10000
    ensures Year4(Pad4(n)) == Some(n)
  {
    var s := Pad4(n);
    Digits4(s);
    TwoDigitsPad2(n / 100);
    TwoDigitsPad2(n % 100);
  }

  /** The day field as strftime writes it back: a leading blank becomes 0. */
  function DayDigits(a: char, b: char): string
  {
    [if a == ' ' then '0' else a, b]
  }

  lemma Day2Pad2(a: char, b: char)
    requires Day2(a, b).Some?
    ensures Day2(a, b).value < 100 && Pad2(Day2(a, b).value) == DayDigits(a, b)
  {
    if a == ' ' {
      assert Day2(a, b).value == DigitValue(b);
    } else {
      Pad2Digits(a, b);
    }
  }

  /** A Versa date MM/DD/YYYY that parses is written back as DD/MM/YYYY:
      the same digits, day and month swapped (a blank before a one-digit
      day becomes 0). */
  lemma VersaDateRearranged(s: string)
    requires ParseMdy(s).Ok?
    ensures DmyText(ParseMdy(s).value) == DayDigits(s[3], s[4]) + "/" + s[0..2] + "/" + s[6..10]
  {
    Pad2Digits(s[0], s[1]);
    Day2Pad2(s[3], s[4]);
    Pad4Digits(s[6..10]);
    assert s[0..2] == [s[0], s[1]];
  }

  /** A recipe date YYYY-MM-DD that parses is written back as DD/MM/YYYY. */
  lemma RecipeDateRearranged(s: string)
    requires ParseYmd(s).Ok?
    ensures DmyText(ParseYmd(s).value) == DayDigits(s[8], s[9]) + "/" + s[5..7] + "/" + s[..4]
  {
    Pad2Digits(s[5], s[6]);
    Day2Pad2(s[8], s[9]);
    Pad4Digits(s[..4]);
    assert s[5..7] == [s[5], s[6]];
  }

  /** A recipe time HHMMSS that parses is written back as HH:MM:SS. */
  lemma RecipeTimeRearranged(s: string)
    requires ParseHms(s).Ok?
    ensures HmsText(ParseHms(s).value) == s[..2] + ":" + s[2..4] + ":" + s[4..6]
  {
    Pad2Digits(s[0], s[1]);
    Pad2Digits(s[2], s[3]);
    Pad2Digits(s[4], s[5]);
    assert s[..2] == [s[0], s[1]] && s[2..4] == [s[2], s[3]] && s[4..6] == [s[4], s[5]];
  }

  /** Every valid date written MM/DD/YYYY parses back to itself. */
  lemma ParseMdyComplete(d: CivilDate)
    requires ValidDate(d)
    ensures ParseMdy(MdyText(d)) == Ok(d)
  {
    var s := MdyText(d);
    TwoDigitsPad2(d.month);
    TwoDigitsPad2(d.day);
    Year4Pad4(d.year);
    assert s[6..10] == Pad4(d.year);
  }

  /** Every valid date written YYYY-MM-DD parses back to itself. */
  lemma ParseYmdComplete(d: CivilDate)
    requires ValidDate(d)
    ensures ParseYmd(YmdText(d)) == Ok(d)
  {
    var s := YmdText(d);
    TwoDigitsPad2(d.month);
    TwoDigitsPad2(d.day);
    Year4Pad4(d.year);
    assert s[..4] == Pad4(d.year);
  }

  /** Every valid time written HHMMSS parses back to itself. */
  lemma ParseHmsComplete(t: ClockTime)
    requires ValidTime(t)
    ensures ParseHms(HmsDigits(t)) == Ok(t)
  {
    TwoDigitsPad2(t.hour);
    TwoDigitsPad2(t.minute);
    TwoDigitsPad2(t.second);
  }

  // ----- acquisition mode and flags -----

  datatype Mode = Normal | Wide | Stitch | WideStitch

  function ModeOf(wide: bool, stitch: bool): Mode
  {
    if wide then (if stitch then WideStitch else Wide) else (if stitch then Stitch else Normal)
  }

  function ModeName(m: Mode): string
  {
    match m
    case Normal => "Normal"
    case Wide => "Wide"
    case Stitch => "Stitch"
    case WideStitch => "Wide Stitch"
  }

  /** The wide test on the acquisition-mode string: its last 245
      characters dropped, the rest compared with 'Tomography Wide'. */
  predicate IsWideString(s: string)
  {
    DropLast(s, 245) == "Tomography Wide"
  }

  /** The wide test accepts exactly 'Tomography Wide' followed by 245 more
      characters, whatever they are. */
  lemma IsWideStringSpec(s: string)
    ensures IsWideString(s) <==> |s| == 260 && s[..15] == "Tomography Wide"
  {
    if IsWideString(s) {
      assert |DropLast(s, 245)| == 15;
    }
  }

  /** HART and variable exposure: "Enabled" only for the value 1. */
  function FlagName(v: int): string
  {
    if v == 1 then "Enabled" else "Disabled"
  }

  // ----- printed floating-point values -----

  /** A floating-point value the reader prints, kept as the expression
      that computes it from the fields read (Python's float arithmetic and
      repr are not modelled). */
  datatype FExpr =
    | Field(f: Float32)            // a '<f' field, widened to a Python float
    | Int(n: int)                  // an integer field or literal
    | Abs(e: FExpr)
    | Add(a: FExpr, b: FExpr)
    | Mul(a: FExpr, b: FExpr)
    | Div(a: FExpr, b: FExpr)
    | Square(e: FExpr)
    | Sqrt(e: FExpr)
    | Asin(e: FExpr)
    | ParseFloat(s: string)        // float(text)
    | Round(e: FExpr, digits: nat) // round(x, n)
    | RoundInt(e: FExpr)           // round(x)

  /** The recipe current: 0.0 when the voltage or the power is zero (no
      division is made then), otherwise round(power * 1000 / voltage, 1). */
  function RecipeCurrent(volts: Float32, watts: Float32, render: FExpr -> string): string
  {
    if IsZero(volts) || IsZero(watts) then "0.0"
    else render(Round(Div(Mul(Field(watts), Int(1000)), Field(volts)), 1))
  }
}
