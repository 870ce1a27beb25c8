/**
 The "YYYY-MM" months of the billing tables.

 The ledger compares, sorts and takes the maximum of month texts. The modules that use this one count
 months instead (twelve times the year, plus the month from zero); the lemmas here say that nothing is
 lost: printing and parsing undo each other, and text order is calendar order up to the year 9999.
 */
module Calendar {
  import opened Basics

  datatype YearMonth = YearMonth(year: nat, month: nat) {
    predicate Valid() { 1 <= month <= 12 }

    function Index(): int { 12 * year + month - 1 }
  }

  function FromIndex(m: nat): YearMonth { YearMonth(m / 12, m % 12 + 1) }

  /** The months a Python datetime can name: years 1 to 9999. */
  predicate InCalendar(m: int) { 12 <= m < 120000 }

  predicate IsDigit(c: char) { '0' <= c <= '9' }

  function DigitChar(d: int): char
    requires 0 <= d < 10
  {
    '0' + d as char
  }

  /** Decimal digits of n, with leading zeros up to the width: the format `0<width>d`. */
  function Padded(n: nat, width: nat): string
    decreases n, width
  {
    if n == 0 && width == 0 then ""
    else Padded(n / 10, if width > 0 then width - 1 else 0) + [DigitChar(n % 10)]
  }

  function Print(m: nat): string {
    Padded(m / 12, 4) + "-" + Padded(m % 12 + 1, 2)
  }

  predicate AllDigits(s: string) { forall i :: 0 <= i < |s| ==> IsDigit(s[i]) }

  function ParseDigits(s: string): nat
    requires AllDigits(s)
  {
    if s == "" then 0
    else 10 * ParseDigits(s[..|s| - 1]) + (s[|s| - 1] - '0') as int
  }

  function DashAt(s: string): nat
    ensures DashAt(s) <= |s|
    ensures forall i :: 0 <= i < DashAt(s) ==> s[i] != '-'
    ensures DashAt(s) < |s| ==> s[DashAt(s)] == '-'
  {
    if s == "" || s[0] == '-' then 0 else 1 + DashAt(s[1..])
  }

  /** Two runs of digits around one dash; anything else is no month. */
  function Parse(s: string): Option<YearMonth> {
    var d := DashAt(s);
    if d == 0 || d + 1 >= |s| || !AllDigits(s[..d]) || !AllDigits(s[d + 1..]) then None
    else Some(YearMonth(ParseDigits(s[..d]), ParseDigits(s[d + 1..])))
  }

  /** Python's order on texts, character by character. */
  predicate TextLess(a: string, b: string) {
    if b == "" then false
    else if a == "" then true
    else a[0] < b[0] || (a[0] == b[0] && TextLess(a[1..], b[1..]))
  }

  lemma {:induction false} PaddedIsDigits(n: nat, width: nat)
    ensures AllDigits(Padded(n, width))
    ensures |Padded(n, width)| >= width
    ensures ParseDigits(Padded(n, width)) == n
    decreases n, width
  {
    if n == 0 && width == 0 {
    } else {
      var w := if width > 0 then width - 1 else 0;
      PaddedIsDigits(n / 10, w);
      assert Padded(n, width)[..|Padded(n, width)| - 1] == Padded(n / 10, w);
    }
  }

  lemma FirstDash(a: string, b: string)
    requires AllDigits(a)
    ensures DashAt(a + "-" + b) == |a|
  {
    var s := a + "-" + b;
    assert forall i :: 0 <= i < |a| ==> s[i] == a[i] && IsDigit(s[i]);
    assert s[|a|] == '-';
  }

  /** Parsing what was printed gives the month back, for every month of every year. */
  lemma ParseUndoesPrint(m: nat)
    ensures Parse(Print(m)) == Some(FromIndex(m))
    ensures FromIndex(m).Valid() && FromIndex(m).Index() == m
  {
    var y, mo := Padded(m / 12, 4), Padded(m % 12 + 1, 2);
    PaddedIsDigits(m / 12, 4);
    PaddedIsDigits(m % 12 + 1, 2);
    FirstDash(y, mo);
    assert Print(m)[..|y|] == y && Print(m)[|y| + 1..] == mo;
  }

  function Pow10(k: nat): nat { if k == 0 then 1 else 10 * Pow10(k - 1) }

  lemma {:induction false} ParsedPadsBack(s: string)
    requires AllDigits(s)
    ensures ParseDigits(s) < Pow10(|s|)
    ensures Padded(ParseDigits(s), |s|) == s
  {
    if s == "" {
    } else {
      ParsedPadsBack(s[..|s| - 1]);
      var n := ParseDigits(s);
      assert n / 10 == ParseDigits(s[..|s| - 1]);
      assert DigitChar(n % 10) == s[|s| - 1];
      assert s == s[..|s| - 1] + [s[|s| - 1]];
    }
  }

  /** Printing what was parsed gives the text back, for every well-formed "YYYY-MM". */
  lemma PrintUndoesParse(s: string)
    requires |s| == 7 && s[4] == '-' && AllDigits(s[..4]) && AllDigits(s[5..])
    requires 1 <= ParseDigits(s[5..]) <= 12
    ensures Parse(s).Some? && Parse(s).value.Valid() && Print(Parse(s).value.Index()) == s
  {
    assert s == s[..4] + "-" + s[5..];
    FirstDash(s[..4], s[5..]);
    ParsedPadsBack(s[..4]);
    ParsedPadsBack(s[5..]);
    var ym := Parse(s).value;
    assert ym.Index() / 12 == ym.year && ym.Index() % 12 + 1 == ym.month;
  }

  lemma {:induction false} TextLessSplit(a: string, b: string, u: string, v: string)
    requires |a| == |b|
    ensures TextLess(a + u, b + v) <==> (TextLess(a, b) || (a == b && TextLess(u, v)))
  {
    if a == "" {
      assert a + u == u && b + v == v;
    } else {
      TextLessSplit(a[1..], b[1..], u, v);
      assert (a + u)[1..] == a[1..] + u && (b + v)[1..] == b[1..] + v;
      assert a == [a[0]] + a[1..] && b == [b[0]] + b[1..];
    }
  }

  lemma {:induction false} PaddedOrder(x: nat, y: nat, width: nat)
    requires x < Pow10(width) && y < Pow10(width)
    ensures |Padded(x, width)| == |Padded(y, width)| == width
    ensures TextLess(Padded(x, width), Padded(y, width)) <==> x < y
    ensures Padded(x, width) == Padded(y, width) <==> x == y
    decreases width
  {
    if width == 0 {
    } else {
      PaddedOrder(x / 10, y / 10, width - 1);
      TextLessSplit(Padded(x / 10, width - 1), Padded(y / 10, width - 1), [DigitChar(x % 10)], [DigitChar(y % 10)]);
      PaddedIsDigits(x, width);
      PaddedIsDigits(y, width);
    }
  }

  lemma YearOrder(a: nat, b: nat)
    requires a < 120000 && b < 120000
    ensures |Padded(a / 12, 4)| == |Padded(b / 12, 4)|
    ensures TextLess(Padded(a / 12, 4), Padded(b / 12, 4)) <==> a / 12 < b / 12
    ensures Padded(a / 12, 4) == Padded(b / 12, 4) <==> a / 12 == b / 12
  {
    assert Pow10(4) == 10000;
    PaddedOrder(a / 12, b / 12, 4);
  }

  lemma MonthOrder(a: nat, b: nat)
    ensures TextLess("-" + Padded(a % 12 + 1, 2), "-" + Padded(b % 12 + 1, 2)) <==> a % 12 < b % 12
  {
    assert Pow10(2) == 100;
    PaddedOrder(a % 12 + 1, b % 12 + 1, 2);
    TextLessSplit("-", "-", Padded(a % 12 + 1, 2), Padded(b % 12 + 1, 2));
  }

  /** Why the ledger may use `max`, `<` and sorting on month texts: up to the year 9999 they follow the calendar. */
  lemma TextOrderIsCalendarOrder(a: nat, b: nat)
    requires a < 120000 && b < 120000
    ensures TextLess(Print(a), Print(b)) <==> a < b
    ensures Print(a) == Print(b) <==> a == b
  {
    YearOrder(a, b);
    MonthOrder(a, b);
    var ya, yb := Padded(a / 12, 4), Padded(b / 12, 4);
    var ma, mb := "-" + Padded(a % 12 + 1, 2), "-" + Padded(b % 12 + 1, 2);
    assert Print(a) == ya + ma && Print(b) == yb + mb;
    TextLessSplit(ya, yb, ma, mb);
    ParseUndoesPrint(a);
    ParseUndoesPrint(b);
  }

  /** Five-digit years would break it: December 9999 comes before January 10000, but not as texts. */
  lemma TextOrderBreaksAtYear10000()
    ensures TextLess(Print(120000), Print(119999))
  {
    LeadingDigit(10000, 4);
    LeadingDigit(1000, 3);
    LeadingDigit(100, 2);
    LeadingDigit(10, 1);
    LeadingDigit(9999, 4);
    LeadingDigit(999, 3);
    LeadingDigit(99, 2);
    assert Padded(10000, 4)[0] == '1';
    assert Padded(9999, 4)[0] == '9';
  }

  lemma LeadingDigit(n: nat, width: nat)
    requires 10 <= n && width >= 1
    ensures |Padded(n, width)| > 0 && |Padded(n / 10, width - 1)| > 0
    ensures Padded(n, width)[0] == Padded(n / 10, width - 1)[0]
  {
  }

  lemma PrintOfIndex(ym: YearMonth)
    requires ym.Valid()
    ensures ym.Index() >= 0 && Print(ym.Index()) == Padded(ym.year, 4) + "-" + Padded(ym.month, 2)
  {
    assert ym.Index() / 12 == ym.year && ym.Index() % 12 + 1 == ym.month;
  }

  /** The months strictly between two months, in order: month and year are stepped as two counters. */
  method MonthsBetweenExclusive(startYm: string, endYm: string) returns (result: seq<string>)
    requires Parse(startYm).Some? && Parse(startYm).value.Valid()
    requires Parse(endYm).Some? && Parse(endYm).value.Valid()
    ensures var a, b := Parse(startYm).value.Index(), Parse(endYm).value.Index();
            && |result| == (if a + 1 < b then b - a - 1 else 0)
            && forall i :: 0 <= i < |result| ==> result[i] == Print(a + 1 + i)
  {
    hide Parse;
    hide Print;
    hide Padded;
    var year: nat, month: nat := Parse(startYm).value.year, Parse(startYm).value.month;
    var end := Parse(endYm).value;
    ghost var a: int, b: int := 12 * year + month - 1, end.Index();
    result := [];
    while true
      invariant 1 <= month <= 12
      invariant 12 * year + month - 1 == a + |result|
      invariant |result| == 0 || a + |result| < b
      invariant forall i :: 0 <= i < |result| ==> result[i] == Print(a + 1 + i)
      decreases b - (12 * year + month - 1)
    {
      month := month + 1;
      if month > 12 {
        month := 1;
        year := year + 1;
      }
      if year > end.year || (year == end.year && month >= end.month) {
        break;
      }
      PrintOfIndex(YearMonth(year, month));
      result := result + [Padded(year, 4) + "-" + Padded(month, 2)];
    }
  }
}
