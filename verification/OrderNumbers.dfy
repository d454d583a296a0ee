/** Daily order numbers `GG-YYYYMMDD-NNNN` and the dash-free payment reference. */
module OrderNumbers {
  import opened Characters

  predicate AllDigits(s: string) {
    forall c :: c in s ==> IsAsciiDigit(c)
  }

  /** A UTC calendar day as `strftime("%Y%m%d")` prints it. */
  type Day = s: string | |s| == 8 && AllDigits(s) witness "20260101"

  // ----- Decimal numerals, zero-padded to four places -----

  function Digit(d: nat): char
    requires d < 10
  {
    '0' + d as char
  }

  function Numeral(n: nat): (s: string)
    ensures s != "" && AllDigits(s)
  {
    if n < 10 then [Digit(n)] else Numeral(n / 10) + [Digit(n % 10)]
  }

  function PadTo(s: string, width: nat): string
    decreases width - |s|
  {
    if |s| < width then PadTo("0" + s, width) else s
  }

  /** `f"{n:04d}"`. */
  function Pad4(n: nat): string {
    PadTo(Numeral(n), 4)
  }

  function Value(s: string): nat
    requires AllDigits(s)
  {
    if s == "" then 0
    else
      assert IsAsciiDigit(s[|s| - 1]);
      10 * Value(s[..|s| - 1]) + (s[|s| - 1] as nat - '0' as nat)
  }

  lemma {:induction false} ValueOfNumeral(n: nat)
    ensures Value(Numeral(n)) == n
  {
    if n >= 10 {
      ValueOfNumeral(n / 10);
      assert Numeral(n)[..|Numeral(n)| - 1] == Numeral(n / 10);
    }
  }

  lemma {:induction false} LeadingZero(s: string)
    requires AllDigits(s)
    ensures AllDigits("0" + s) && Value("0" + s) == Value(s)
  {
    if s == "" {
      assert "0" + s == "0" && "0"[..0] == "";
    } else {
      LeadingZero(s[..|s| - 1]);
      assert ("0" + s)[..|s|] == "0" + s[..|s| - 1];
    }
  }

  lemma {:induction false} PadKeepsValue(s: string, width: nat)
    requires AllDigits(s)
    ensures AllDigits(PadTo(s, width)) && Value(PadTo(s, width)) == Value(s)
    ensures |PadTo(s, width)| == if |s| < width then width else |s|
    decreases width - |s|
  {
    LeadingZero(s);
    if |s| < width {
      PadKeepsValue("0" + s, width);
    }
  }

  lemma {:induction false} NumeralLength(n: nat)
    ensures |Numeral(n)| <= 4 <==> n <= 9999
  {
    assert n <= 9999 <==> n / 10 <= 999;
    assert n / 10 <= 999 <==> n / 100 <= 99;
    assert n / 100 <= 99 <==> n / 1000 <= 9;
    assert n / 10 / 10 == n / 100 && n / 100 / 10 == n / 1000;
    if n >= 10 && n / 10 >= 10 && n / 100 >= 10 {
      assert |Numeral(n)| == |Numeral(n / 1000)| + 3 by {
        assert |Numeral(n)| == |Numeral(n / 10)| + 1;
        assert |Numeral(n / 10)| == |Numeral(n / 100)| + 1;
      }
      assert |Numeral(n / 1000)| == 1 <==> n / 1000 < 10;
    }
  }

  /** The padded sequence has exactly four digits up to 9999, more past that, and never loses its value. */
  lemma {:induction false} Pad4Faithful(n: nat)
    ensures AllDigits(Pad4(n)) && Value(Pad4(n)) == n
    ensures |Pad4(n)| >= 4
    ensures |Pad4(n)| == 4 <==> n <= 9999
  {
    ValueOfNumeral(n);
    PadKeepsValue(Numeral(n), 4);
    NumeralLength(n);
  }

  // ----- Order numbers -----

  function Prefix(day: Day): string {
    "GG-" + day + "-"
  }

  function Number(day: Day, k: nat): string {
    Prefix(day) + Pad4(k)
  }

  predicate NotDash(c: char) {
    c != '-'
  }

  /** `order_number.replace("-", "")`. */
  function PaymentReferenceFor(number: string): string {
    Filter(NotDash, number)
  }

  lemma {:induction false} NumberInjective(d1: Day, k1: nat, d2: Day, k2: nat)
    ensures Prefix(d1) <= Number(d2, k2) <==> d1 == d2
    ensures Number(d1, k1) == Number(d2, k2) <==> d1 == d2 && k1 == k2
  {
    Pad4Faithful(k1);
    Pad4Faithful(k2);
    var n1, n2 := Number(d1, k1), Number(d2, k2);
    assert n1[3..11] == d1 && n1[12..] == Pad4(k1);
    assert n2[3..11] == d2 && n2[12..] == Pad4(k2);
    if Prefix(d1) <= n2 {
      assert Prefix(d1)[3..11] == d1;
      assert d1 == n2[..12][3..11] == n2[3..11];
    }
  }

  /** Dropping the dashes leaves the day and the sequence side by side. */
  lemma {:induction false} ReferenceText(day: Day, k: nat)
    ensures PaymentReferenceFor(Number(day, k)) == "GG" + day + Pad4(k)
  {
    Pad4Faithful(k);
    FilterConcat(NotDash, Prefix(day), Pad4(k));
    FilterConcat(NotDash, "GG-" + day, "-");
    FilterConcat(NotDash, "GG-", day);
    FilterConcat(NotDash, "GG", "-");
    FilterKeepsAll(NotDash, "GG");
    FilterDropsAll(NotDash, "-");
    FilterKeepsAll(NotDash, day);
    FilterKeepsAll(NotDash, Pad4(k));
    assert "GG" + "-" == "GG-";
    assert "GG" + "" == "GG";
    assert ("GG" + day) + "" == "GG" + day;
  }

  /** No two orders share a payment reference, past 9999 orders a day included. */
  lemma {:induction false} ReferenceInjective(d1: Day, k1: nat, d2: Day, k2: nat)
    requires PaymentReferenceFor(Number(d1, k1)) == PaymentReferenceFor(Number(d2, k2))
    ensures d1 == d2 && k1 == k2
  {
    ReferenceText(d1, k1);
    ReferenceText(d2, k2);
    Pad4Faithful(k1);
    Pad4Faithful(k2);
    var r1, r2 := "GG" + d1 + Pad4(k1), "GG" + d2 + Pad4(k2);
    assert r1[2..10] == d1 && r1[10..] == Pad4(k1);
    assert r2[2..10] == d2 && r2[10..] == Pad4(k2);
  }

  // ----- Allocation -----

  /** The taken numbers of `day` whose sequence is at least `k`. */
  ghost function TakenFrom(taken: set<string>, day: Day, k: nat): set<string> {
    set s | s in taken && exists j :: k <= j && s == Number(day, j)
  }

  lemma {:induction false} TakenShrinks(taken: set<string>, day: Day, k: nat)
    requires Number(day, k) in taken
    ensures |TakenFrom(taken, day, k + 1)| < |TakenFrom(taken, day, k)|
  {
    var s := Number(day, k);
    var a, b := TakenFrom(taken, day, k), TakenFrom(taken, day, k + 1);
    forall x | x in b
      ensures x in a && x != s
    {
      var j :| k + 1 <= j && x == Number(day, j);
      NumberInjective(day, j, day, k);
    }
    assert s in a;
    CardinalityGrows(b, a);
  }

  lemma CardinalityGrows(b: set<string>, a: set<string>)
    requires b < a
    ensures |b| < |a|
  {
    assert |a| == |b| + |a - b| by {
      assert b + (a - b) == a;
    }
  }

  lemma CardinalityAtMost(b: set<string>, a: set<string>)
    requires b <= a
    ensures |b| <= |a|
  {
    assert b + (a - b) == a;
  }

  /** The first free sequence from `k` on. */
  function FreeSequence(taken: set<string>, day: Day, k: nat): (r: nat)
    ensures k <= r <= k + |TakenFrom(taken, day, k)|
    ensures Number(day, r) !in taken
    ensures forall j :: k <= j < r ==> Number(day, j) in taken
    decreases |TakenFrom(taken, day, k)|
  {
    if Number(day, k) in taken then
      TakenShrinks(taken, day, k);
      FreeSequence(taken, day, k + 1)
    else k
  }

  function NextSequence(taken: set<string>, day: Day): (r: nat)
    ensures |taken| + 1 <= r <= 2 * |taken| + 1
    ensures Number(day, r) !in taken
  {
    CardinalityAtMost(TakenFrom(taken, day, |taken| + 1), taken);
    FreeSequence(taken, day, |taken| + 1)
  }

  /** The numbers of one day run from 1 without a gap. */
  ghost predicate Dense(taken: set<string>, day: Day) {
    taken == Numbers(day, |taken|)
  }

  /** The first `n` numbers of a day. */
  function Numbers(day: Day, n: nat): set<string> {
    set k | 1 <= k <= n :: Number(day, k)
  }

  /** From a gapless day the next number is the next in line, and the day stays gapless. */
  lemma {:induction false} DenseNext(taken: set<string>, day: Day)
    requires Dense(taken, day)
    ensures NextSequence(taken, day) == |taken| + 1
    ensures Dense(taken + {Number(day, |taken| + 1)}, day)
  {
    var n := |taken|;
    if Number(day, n + 1) in taken {
      var k :| 1 <= k <= n && Number(day, n + 1) == Number(day, k);
      NumberInjective(day, n + 1, day, k);
    }
    assert |taken + {Number(day, n + 1)}| == n + 1;
    assert taken + {Number(day, n + 1)} == Numbers(day, n + 1);
  }

  /** The numbers of `day` among `numbers`: `LIKE` on the day's prefix. */
  function TakenIn(numbers: seq<string>, day: Day): set<string> {
    set s | s in numbers && Prefix(day) <= s
  }

  /** The search loop over the committed numbers of the day. */
  method GenerateOrderNumber(numbers: seq<string>, day: Day) returns (number: string)
    ensures number == Number(day, NextSequence(TakenIn(numbers, day), day))
    ensures number !in numbers
  {
    var prefix := Prefix(day);
    var taken := TakenIn(numbers, day);
    var sequence := |taken| + 1;
    while prefix + Pad4(sequence) in taken
      invariant sequence >= |taken| + 1
      invariant FreeSequence(taken, day, |taken| + 1) == FreeSequence(taken, day, sequence)
      decreases |TakenFrom(taken, day, sequence)|
    {
      TakenShrinks(taken, day, sequence);
      sequence := sequence + 1;
    }
    number := prefix + Pad4(sequence);
    assert number == Number(day, sequence);
  }
}
