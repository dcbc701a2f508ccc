/** The stored timestamp format, and why comparing its strings compares the moments. */
module Timestamps {
  import Lex

  /** A UTC calendar moment, to the second. */
  datatype Moment = Moment(year: nat, month: nat, day: nat, hour: nat, minute: nat, second: nat)

  predicate Leap(year: nat) {
    year % 4 == 0 && (year % 100 != 0 || year % 400 == 0)
  }

  function DaysIn(year: nat, month: nat): nat {
    if month == 2 then (if Leap(year) then 29 else 28)
    else if month in {4, 6, 9, 11} then 30 else 31
  }

  /** A real calendar moment of the years 0 to 9999. */
  predicate Valid(m: Moment) {
    m.year <= 9999 && 1 <= m.month <= 12 && 1 <= m.day <= DaysIn(m.year, m.month) && m.hour < 24 && m.minute < 60
      && m.second < 60
  }

  function Digit(n: nat): char
    requires n < 10
  {
    '0' + n as char
  }

  function Pad2(n: nat): string
    requires n < 100
  {
    [Digit(n / 10), Digit(n % 10)]
  }

  /** Years take four digits, and a fifth from the year 10000 on. */
  function PadYear(year: nat): string
    requires year < 100000
  {
    (if year >= 10000 then [Digit(year / 10000)] else "") + Pad2(year / 100 % 100) + Pad2(year % 100)
  }

  function FormatISO(m: Moment): string
    requires m.year < 100000 && m.month < 100 && m.day < 100 && m.hour < 100 && m.minute < 100 && m.second < 100
  {
    PadYear(m.year) + ("-" + Pad2(m.month) + ("-" + Pad2(m.day)
                                              + ("T" + Pad2(m.hour) + (":" + Pad2(m.minute)
                                                                       + (":" + Pad2(m.second) + "+00:00")))))
  }

  /** Calendar order. */
  predicate Before(a: Moment, b: Moment) {
    if a.year != b.year then a.year < b.year
    else if a.month != b.month then a.month < b.month
    else if a.day != b.day then a.day < b.day
    else if a.hour != b.hour then a.hour < b.hour
    else if a.minute != b.minute then a.minute < b.minute
    else a.second < b.second
  }

  lemma DigitOrder(a: nat, b: nat)
    requires a < 10 && b < 10
    ensures Digit(a) < Digit(b) <==> a < b
    ensures Digit(a) == Digit(b) <==> a == b
  {
  }

  lemma Pad2Order(a: nat, b: nat)
    requires a < 100 && b < 100
    ensures Lex.Less(Pad2(a), Pad2(b)) <==> a < b
    ensures Pad2(a) == Pad2(b) <==> a == b
  {
    DigitOrder(a / 10, b / 10);
    DigitOrder(a % 10, b % 10);
    hide Digit;
    assert Pad2(a)[1..] == [Digit(a % 10)] && Pad2(b)[1..] == [Digit(b % 10)];
    assert !Lex.Less("", "");
    assert Lex.Less(Pad2(a)[1..], Pad2(b)[1..]) <==> Digit(a % 10) < Digit(b % 10);
    assert a == 10 * (a / 10) + a % 10 && b == 10 * (b / 10) + b % 10;
    if Pad2(a) == Pad2(b) {
      assert Pad2(a)[0] == Digit(a / 10) && Pad2(a)[1] == Digit(a % 10);
      assert Pad2(b)[0] == Digit(b / 10) && Pad2(b)[1] == Digit(b % 10);
    }
  }

  lemma YearOrder(a: nat, b: nat)
    requires a <= 9999 && b <= 9999
    ensures Lex.Less(PadYear(a), PadYear(b)) <==> a < b
    ensures (PadYear(a) == PadYear(b) <==> a == b) && |PadYear(a)| == 4
  {
    Pad2Order(a / 100, b / 100);
    Pad2Order(a % 100, b % 100);
    hide Pad2;
    Lex.Fields(Pad2(a / 100), Pad2(a % 100), Pad2(b / 100), Pad2(b % 100)) by { PadSize(a / 100); PadSize(b / 100); }
    assert a / 100 % 100 == a / 100 && b / 100 % 100 == b / 100;
    PadSize(a / 100);
    PadSize(b / 100);
    PadSize(a % 100);
    assert "" + Pad2(a / 100) == Pad2(a / 100) && "" + Pad2(b / 100) == Pad2(b / 100);
    if PadYear(a) == PadYear(b) {
      assert PadYear(a)[..2] == Pad2(a / 100) && PadYear(b)[..2] == Pad2(b / 100);
      assert PadYear(a)[2..] == Pad2(a % 100) && PadYear(b)[2..] == Pad2(b % 100);
    }
  }

  lemma PadSize(n: nat)
    requires n < 100
    ensures |Pad2(n)| == 2
  {
  }

  /** One separator and one two-digit field in front of what follows. */
  lemma FieldOrder(separator: string, a: nat, x: string, b: nat, y: string)
    requires |separator| == 1 && a < 100 && b < 100
    ensures Lex.Less(separator + Pad2(a) + x, separator + Pad2(b) + y) <==> a < b || (a == b && Lex.Less(x, y))
    ensures separator + Pad2(a) + x == separator + Pad2(b) + y <==> a == b && x == y
  {
    PadSize(a);
    PadSize(b);
    Lex.Fields(separator + Pad2(a), x, separator + Pad2(b), y);
    Lex.Fields(separator, Pad2(a), separator, Pad2(b));
    Lex.Irreflexive(separator);
    Pad2Order(a, b);
    hide Pad2;
    var s, t := separator + Pad2(a) + x, separator + Pad2(b) + y;
    assert s[1..3] == Pad2(a) && t[1..3] == Pad2(b) && s[3..] == x && t[3..] == y;
    assert separator + Pad2(a) == separator + Pad2(b) <==> a == b by {
      assert (separator + Pad2(a))[1..] == Pad2(a) && (separator + Pad2(b))[1..] == Pad2(b);
    }
  }

  lemma ClockOrder(a: Moment, b: Moment)
    requires a.hour < 100 && a.minute < 100 && a.second < 100 && b.hour < 100 && b.minute < 100 && b.second < 100
    ensures var (x, y) := (Clock(a), Clock(b));
            && (Lex.Less(x, y) <==> ClockBefore(a, b))
            && (x == y <==> a.hour == b.hour && a.minute == b.minute && a.second == b.second)
  {
    var p, q := ":" + Pad2(a.second) + "+00:00", ":" + Pad2(b.second) + "+00:00";
    FieldOrder(":", a.second, "+00:00", b.second, "+00:00");
    Lex.Irreflexive("+00:00");
    var r, s := ":" + Pad2(a.minute) + p, ":" + Pad2(b.minute) + q;
    FieldOrder(":", a.minute, p, b.minute, q);
    FieldOrder("T", a.hour, r, b.hour, s);
  }

  function Clock(m: Moment): string
    requires m.hour < 100 && m.minute < 100 && m.second < 100
  {
    "T" + Pad2(m.hour) + (":" + Pad2(m.minute) + (":" + Pad2(m.second) + "+00:00"))
  }

  predicate ClockBefore(a: Moment, b: Moment) {
    if a.hour != b.hour then a.hour < b.hour
    else if a.minute != b.minute then a.minute < b.minute
    else a.second < b.second
  }

  /** For the years 0 to 9999 the strings compare as the moments do, and differ when they differ. */
  lemma FormatKeepsOrder(a: Moment, b: Moment)
    requires Valid(a) && Valid(b)
    ensures Lex.Less(FormatISO(a), FormatISO(b)) <==> Before(a, b)
    ensures FormatISO(a) == FormatISO(b) <==> a == b
  {
    hide Pad2, PadYear, Lex.Less;
    ClockOrder(a, b);
    var x, y := Clock(a), Clock(b);
    FieldOrder("-", a.day, x, b.day, y);
    var p, q := "-" + Pad2(a.day) + x, "-" + Pad2(b.day) + y;
    FieldOrder("-", a.month, p, b.month, q);
    var r, s := "-" + Pad2(a.month) + p, "-" + Pad2(b.month) + q;
    YearOrder(a.year, b.year);
    YearOrder(b.year, a.year);
    Lex.Fields(PadYear(a.year), r, PadYear(b.year), s);
    if PadYear(a.year) + r == PadYear(b.year) + s {
      assert (PadYear(a.year) + r)[..4] == PadYear(a.year) && (PadYear(b.year) + s)[..4] == PadYear(b.year);
      assert (PadYear(a.year) + r)[4..] == r && (PadYear(b.year) + s)[4..] == s;
    }
  }

  /** The year 10000 sorts before every later part of the year 9999: that is where the format stops keeping order. */
  lemma YearTenThousandSortsFirst(a: Moment, b: Moment)
    requires Valid(a) && a.year >= 2000 && b == Moment(10000, 1, 1, 0, 0, 0)
    ensures Before(a, b) && Lex.Less(FormatISO(b), FormatISO(a))
  {
    var x := PadYear(a.year);
    assert x[0] == Digit(a.year / 100 % 100 / 10);
    assert FormatISO(a)[0] == x[0] && FormatISO(b)[0] == '1';
  }
}
