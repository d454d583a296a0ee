/** Character classes and string primitives shared by the text-handling modules. */
module Characters {

  /** The characters Python's `str.strip` and the regex class `\s` treat as whitespace. */
  predicate IsSpace(c: char) {
    || '\t' <= c <= '\r'
    || '\U{1C}' <= c <= ' '
    || c == '\U{85}' || c == '\U{A0}' || c == '\U{1680}'
    || '\U{2000}' <= c <= '\U{200A}'
    || c == '\U{2028}' || c == '\U{2029}' || c == '\U{202F}' || c == '\U{205F}' || c == '\U{3000}'
  }

  predicate IsAsciiDigit(c: char) {
    '0' <= c <= '9'
  }

  /** First code points of the decimal-digit blocks outside ASCII (Unicode category Nd). */
  const OTHER_ZEROS: seq<int> := [
    0x660, 0x6F0, 0x7C0, 0x966, 0x9E6, 0xA66, 0xAE6, 0xB66, 0xBE6, 0xC66, 0xCE6, 0xD66, 0xDE6, 0xE50, 0xED0, 0xF20,
    0x1040, 0x1090, 0x17E0, 0x1810, 0x1946, 0x19D0, 0x1A80, 0x1A90, 0x1B50, 0x1BB0, 0x1C40, 0x1C50,
    0xA620, 0xA8D0, 0xA900, 0xA9D0, 0xA9F0, 0xAA50, 0xABF0, 0xFF10,
    0x104A0, 0x10D30, 0x11066, 0x110F0, 0x11136, 0x111D0, 0x112F0, 0x11450, 0x114D0, 0x11650, 0x116C0, 0x11730,
    0x118E0, 0x11950, 0x11C50, 0x11D50, 0x11DA0, 0x11F50, 0x16A60, 0x16AC0, 0x16B50,
    0x1D7CE, 0x1D7D8, 0x1D7E2, 0x1D7EC, 0x1D7F6, 0x1E140, 0x1E2F0, 0x1E4F0, 0x1E950, 0x1FBF0]

  predicate IsOtherDigit(c: char) {
    exists i :: 0 <= i < |OTHER_ZEROS| && OTHER_ZEROS[i] <= c as int < OTHER_ZEROS[i] + 10
  }

  /** The regex class `\d` on text: every decimal digit, not only the ASCII ones. */
  predicate IsDecimalDigit(c: char) {
    if c as int < 128 then IsAsciiDigit(c) else IsOtherDigit(c)
  }

  predicate IsAsciiLetter(c: char) {
    'a' <= c <= 'z' || 'A' <= c <= 'Z'
  }

  /** ASCII lower case; every other character is left alone. */
  function LowerAscii(c: char): char {
    if 'A' <= c <= 'Z' then (c as int + 32) as char else c
  }

  /** ASCII upper case; every other character is left alone. */
  function UpperAscii(c: char): char {
    if 'a' <= c <= 'z' then (c as int - 32) as char else c
  }

  function Map(f: char -> char, s: string): (r: string)
    ensures |r| == |s|
    ensures forall i :: 0 <= i < |s| ==> r[i] == f(s[i])
  {
    seq(|s|, i requires 0 <= i < |s| => f(s[i]))
  }

  function Lower(s: string): string {
    Map(LowerAscii, s)
  }

  function Upper(s: string): string {
    Map(UpperAscii, s)
  }

  /** The characters of `s` that satisfy `keep`, in order. */
  function Filter(keep: char -> bool, s: string): (r: string)
    ensures forall c :: c in r ==> keep(c)
  {
    if s == "" then ""
    else if keep(s[0]) then [s[0]] + Filter(keep, s[1..])
    else Filter(keep, s[1..])
  }

  lemma {:induction false} FilterConcat(keep: char -> bool, s: string, t: string)
    ensures Filter(keep, s + t) == Filter(keep, s) + Filter(keep, t)
  {
    if s == "" {
      assert s + t == t;
    } else {
      FilterConcat(keep, s[1..], t);
      assert (s + t)[1..] == s[1..] + t;
    }
  }

  lemma {:induction false} FilterKeepsAll(keep: char -> bool, s: string)
    requires forall c :: c in s ==> keep(c)
    ensures Filter(keep, s) == s
  {
    if s != "" {
      FilterKeepsAll(keep, s[1..]);
    }
  }

  lemma {:induction false} FilterDropsAll(keep: char -> bool, s: string)
    requires forall c :: c in s ==> !keep(c)
    ensures Filter(keep, s) == ""
  {
    if s != "" {
      FilterDropsAll(keep, s[1..]);
    }
  }

  function StripLeft(drop: char -> bool, s: string): (r: string)
    ensures |r| <= |s| && r == s[|s| - |r|..]
    ensures r != "" ==> !drop(r[0])
  {
    if s != "" && drop(s[0]) then StripLeft(drop, s[1..]) else s
  }

  function StripRight(drop: char -> bool, s: string): (r: string)
    ensures r <= s
    ensures r != "" ==> !drop(r[|r| - 1])
  {
    if s != "" && drop(s[|s| - 1]) then StripRight(drop, s[..|s| - 1]) else s
  }

  /** `str.strip`: both ends, with the characters that satisfy `drop` removed. */
  function Strip(drop: char -> bool, s: string): string {
    StripRight(drop, StripLeft(drop, s))
  }

  /** `part` stands in `s` at position `i`. */
  predicate OccursAt(s: string, part: string, i: nat) {
    i + |part| <= |s| && s[i..i + |part|] == part
  }

  /** `part` is a substring of `s`. */
  ghost predicate Occurs(s: string, part: string) {
    exists i: nat :: OccursAt(s, part, i)
  }

  /** Stripping cuts out one stretch of the text. */
  lemma StripOccurs(drop: char -> bool, s: string) returns (i: nat)
    ensures OccursAt(s, Strip(drop, s), i)
  {
    hide StripLeft, StripRight;
    var left := StripLeft(drop, s);
    i := |s| - |left|;
    var m := StripRight(drop, left);
    assert s[i..][..|m|] == s[i..i + |m|];
  }

  lemma UpperOccurs(s: string, part: string, i: nat)
    requires OccursAt(s, part, i)
    ensures OccursAt(Upper(s), Upper(part), i)
  {
    hide UpperAscii;
    assert Upper(s)[i..i + |part|] == Upper(part);
  }

  /** Joins the pieces of `parts`. */
  function Concat(parts: seq<string>): string {
    if parts == [] then "" else parts[0] + Concat(parts[1..])
  }

  lemma {:induction false} ConcatSnoc(parts: seq<string>, last: string)
    ensures Concat(parts + [last]) == Concat(parts) + last
  {
    if parts == [] {
      assert parts + [last] == [last];
      assert Concat([last]) == last + Concat([]);
    } else {
      ConcatSnoc(parts[1..], last);
      assert (parts + [last])[1..] == parts[1..] + [last];
    }
  }
}
