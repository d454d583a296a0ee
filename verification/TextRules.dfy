/** Search patterns, slugs and phone numbers: the text helpers that other features rely on. */
module TextRules {
  import opened Wrappers
  import opened Characters

  // ----- Literal search under LIKE -----

  predicate IsMeta(c: char) {
    c == '\\' || c == '%' || c == '_'
  }

  function EscapeChar(c: char): string {
    if IsMeta(c) then ['\\', c] else [c]
  }

  function EscapeLike(v: string): string {
    if v == "" then "" else EscapeChar(v[0]) + EscapeLike(v[1..])
  }

  /** `LIKE` with backslash as the escape, section 9.7.1 of the PostgreSQL manual; a lone final escape
      matches nothing. */
  predicate Like(s: string, p: string)
    decreases |p|, |s|
  {
    if p == "" then s == ""
    else if p[0] == '%' then exists i :: 0 <= i <= |s| && Like(s[i..], p[1..])
    else if p[0] == '_' then s != "" && Like(s[1..], p[1..])
    else if p[0] == '\\' then |p| >= 2 && s != "" && s[0] == p[1] && Like(s[1..], p[2..])
    else s != "" && s[0] == p[0] && Like(s[1..], p[1..])
  }

  /** `ILIKE`: both sides case-folded, character by character. */
  predicate ILike(fold: char -> char, s: string, p: string) {
    Like(Map(fold, s), Map(fold, p))
  }

  /** Folding neither changes a metacharacter nor makes one. */
  ghost predicate KeepsMeta(fold: char -> char) {
    forall c :: (IsMeta(c) ==> fold(c) == c) && (!IsMeta(c) ==> !IsMeta(fold(c)))
  }

  lemma LikeOneChar(s: string, c: char, p: string)
    ensures Like(s, EscapeChar(c) + p) <==> s != "" && s[0] == c && Like(s[1..], p)
  {
    var q := EscapeChar(c) + p;
    assert q[|EscapeChar(c)|..] == p;
  }

  /** An escaped keyword at the head of a pattern matches exactly itself. */
  lemma {:induction false} EscapedMatchesItself(s: string, k: string, rest: string)
    ensures Like(s, EscapeLike(k) + rest) <==> k <= s && Like(s[|k|..], rest)
    decreases |k|
  {
    hide Like, IsMeta, EscapeChar;
    if k == "" {
      assert EscapeLike(k) + rest == rest && s[0..] == s;
    } else {
      assert EscapeLike(k) + rest == EscapeChar(k[0]) + (EscapeLike(k[1..]) + rest);
      LikeOneChar(s, k[0], EscapeLike(k[1..]) + rest);
      if s != "" {
        EscapedMatchesItself(s[1..], k[1..], rest);
        assert k <= s <==> k[0] == s[0] && k[1..] <= s[1..];
        if k <= s {
          assert s[1..][|k[1..]|..] == s[|k|..];
        }
      }
    }
  }

  lemma PercentMatchesAll(s: string)
    ensures Like(s, "%")
  {
    assert "%"[1..] == "";
    assert s[|s|..] == "";
    assert Like(s[|s|..], "%"[1..]);
  }

  lemma {:induction false} LikeSubstring(s: string, k: string)
    ensures Like(s, "%" + EscapeLike(k) + "%") <==> Occurs(s, k)
  {
    hide EscapeLike;
    var p := "%" + EscapeLike(k) + "%";
    assert p[1..] == EscapeLike(k) + "%";
    forall i | 0 <= i <= |s|
      ensures Like(s[i..], p[1..]) <==> OccursAt(s, k, i)
    {
      EscapedMatchesItself(s[i..], k, "%");
      if i + |k| <= |s| {
        assert s[i..][..|k|] == s[i..i + |k|];
        PercentMatchesAll(s[i..][|k|..]);
      }
    }
    if i: nat :| OccursAt(s, k, i) {
      assert Like(s[i..], p[1..]);
    }
  }

  lemma MapConcat(f: char -> char, a: string, b: string)
    ensures Map(f, a + b) == Map(f, a) + Map(f, b)
  {
  }

  lemma EscapeCharFolds(fold: char -> char, c: char)
    requires KeepsMeta(fold)
    ensures Map(fold, EscapeChar(c)) == EscapeChar(fold(c))
  {
    assert IsMeta('\\');
  }

  lemma {:induction false} EscapeFolds(fold: char -> char, k: string)
    requires KeepsMeta(fold)
    ensures Map(fold, EscapeLike(k)) == EscapeLike(Map(fold, k))
  {
    hide KeepsMeta, EscapeChar;
    if k == "" {
      assert Map(fold, k) == "";
    } else {
      EscapeFolds(fold, k[1..]);
      EscapeCharFolds(fold, k[0]);
      MapConcat(fold, EscapeChar(k[0]), EscapeLike(k[1..]));
      assert Map(fold, k) == [fold(k[0])] + Map(fold, k[1..]);
    }
  }

  /** Storefront search over the active plants and the two copy columns of a locale; a column may be null. */
  predicate SearchMatches(
    fold: char -> char, query: string, isActive: bool, name: Option<string>, description: Option<string>) {
    var keyword := Strip(IsSpace, query);
    var pattern := "%" + EscapeLike(keyword) + "%";
    keyword != "" && isActive &&
    ((name.Some? && ILike(fold, name.value, pattern)) || (description.Some? && ILike(fold, description.value, pattern)))
  }

  /** A plant is found exactly when it is active and the trimmed keyword occurs literally, up to case,
      in one of its columns. */
  lemma {:induction false} SearchIsLiteral(
    fold: char -> char, query: string, isActive: bool, name: Option<string>, description: Option<string>)
    requires KeepsMeta(fold)
    ensures var k := Map(fold, Strip(IsSpace, query));
            SearchMatches(fold, query, isActive, name, description) <==>
            k != "" && isActive && ((name.Some? && Occurs(Map(fold, name.value), k)) ||
                        (description.Some? && Occurs(Map(fold, description.value), k)))
  {
    hide Like, EscapeLike, Strip, IsSpace, Occurs;
    var keyword := Strip(IsSpace, query);
    var k := Map(fold, keyword);
    EscapeFolds(fold, keyword);
    assert IsMeta('%');
    assert Map(fold, "%" + EscapeLike(keyword) + "%") == "%" + EscapeLike(k) + "%";
    if name.Some? {
      LikeSubstring(Map(fold, name.value), k);
    }
    if description.Some? {
      LikeSubstring(Map(fold, description.value), k);
    }
  }

  // ----- Slugs -----

  /** `str.lower` as far as the result can hold ASCII characters. */
  function LowerChar(c: char): string {
    if c == '\U{212A}' then "k" else if c == '\U{130}' then "i\U{307}" else [LowerAscii(c)]
  }

  function LowerText(s: string): string {
    if s == "" then "" else LowerChar(s[0]) + LowerText(s[1..])
  }

  predicate IsSlugSeparator(c: char) {
    IsSpace(c) || c == '_'
  }

  predicate IsDash(c: char) {
    c == '-'
  }

  predicate IsSlugChar(c: char) {
    'a' <= c <= 'z' || '0' <= c <= '9' || c == '-'
  }

  /** Replaces every maximal run of `sep` characters by one dash. */
  function RunsToDash(sep: char -> bool, s: string): string
    decreases |s|
  {
    if s == "" then ""
    else if sep(s[0]) then "-" + RunsToDash(sep, StripLeft(sep, s))
    else [s[0]] + RunsToDash(sep, s[1..])
  }

  function NormalizeSlug(slug: string): string {
    var dashed := RunsToDash(IsSlugSeparator, LowerText(Strip(IsSpace, slug)));
    var valid := Filter(IsSlugChar, dashed);
    Strip(IsDash, RunsToDash(IsDash, valid))
  }

  predicate NoDoubleDash(s: string) {
    forall i :: 0 <= i < |s| - 1 ==> !(s[i] == '-' && s[i + 1] == '-')
  }

  /** Empty, or runs of a-z and 0-9 separated by single dashes. */
  predicate WellFormedSlug(s: string) {
    (forall c :: c in s ==> IsSlugChar(c)) && NoDoubleDash(s) &&
    (s != "" ==> s[0] != '-' && s[|s| - 1] != '-')
  }

  lemma PrependKeepsShape(c: char, r: string)
    requires (forall d :: d in r ==> IsSlugChar(d)) && NoDoubleDash(r)
    requires IsSlugChar(c) && (r != "" && r[0] == '-' ==> c != '-')
    ensures (forall d :: d in [c] + r ==> IsSlugChar(d)) && NoDoubleDash([c] + r)
  {
    hide IsSlugChar;
    assert forall i :: 0 <= i < |r| ==> ([c] + r)[i + 1] == r[i];
  }

  lemma {:induction false} DashRunsCollapse(s: string)
    requires forall c :: c in s ==> IsSlugChar(c)
    ensures var r := RunsToDash(IsDash, s);
            (forall c :: c in r ==> IsSlugChar(c)) && NoDoubleDash(r) && (r == "" <==> s == "") &&
            (r != "" ==> (r[0] == '-' <==> s[0] == '-'))
    decreases |s|
  {
    hide IsSlugChar, NoDoubleDash;
    if s == "" {
      NoDashInNothing();
    } else {
      var rest := if IsDash(s[0]) then StripLeft(IsDash, s) else s[1..];
      assert forall c :: c in rest ==> c in s;
      DashRunsCollapse(rest);
      PrependKeepsShape(s[0], RunsToDash(IsDash, rest));
    }
  }

  lemma NoDashInNothing()
    ensures NoDoubleDash("")
  {
  }

  lemma SliceKeepsShape(s: string, i: nat, r: string)
    requires (forall c :: c in s ==> IsSlugChar(c)) && NoDoubleDash(s) && OccursAt(s, r, i)
    ensures (forall c :: c in r ==> IsSlugChar(c)) && NoDoubleDash(r)
  {
    hide IsSlugChar;
    assert forall k :: 0 <= k < |r| ==> r[k] == s[i + k];
  }

  lemma StripEnds(s: string)
    ensures var r := Strip(IsDash, s); r != "" ==> r[0] != '-' && r[|r| - 1] != '-'
  {
    hide StripLeft, StripRight;
  }

  lemma StripKeepsShape(s: string)
    requires (forall c :: c in s ==> IsSlugChar(c)) && NoDoubleDash(s)
    ensures WellFormedSlug(Strip(IsDash, s))
  {
    hide Strip, IsSlugChar, NoDoubleDash;
    var i := StripOccurs(IsDash, s);
    SliceKeepsShape(s, i, Strip(IsDash, s));
    StripEnds(s);
  }

  /** Nothing to do on a text without characters of the class. */
  lemma {:induction false} NoRuns(sep: char -> bool, s: string)
    requires forall c :: c in s ==> !sep(c)
    ensures RunsToDash(sep, s) == s
  {
    if s != "" {
      NoRuns(sep, s[1..]);
    }
  }

  lemma {:induction false} SingleDashesStay(s: string)
    requires NoDoubleDash(s)
    ensures RunsToDash(IsDash, s) == s
    decreases |s|
  {
    hide NoDoubleDash, StripLeft;
    if s != "" {
      SingleDashTail(s);
      SingleDashesStay(s[1..]);
    }
  }

  lemma SingleDashTail(s: string)
    requires s != "" && NoDoubleDash(s)
    ensures NoDoubleDash(s[1..])
    ensures s[0] == '-' ==> StripLeft(IsDash, s) == s[1..]
  {
    assert forall i :: 0 <= i < |s[1..]| ==> s[1..][i] == s[i + 1];
    assert s[0] == '-' ==> StripLeft(IsDash, s) == StripLeft(IsDash, s[1..]) == s[1..];
  }

  lemma LowerStaysOnSlugChar(c: char)
    requires IsSlugChar(c)
    ensures LowerChar(c) == [c]
  {
  }

  lemma {:induction false} LowerStays(s: string)
    requires forall c :: c in s ==> IsSlugChar(c)
    ensures LowerText(s) == s
  {
    hide LowerChar, IsSlugChar;
    if s != "" {
      LowerStaysOnSlugChar(s[0]);
      LowerStays(s[1..]);
    }
  }

  lemma NothingToStrip(drop: char -> bool, s: string)
    requires s != "" ==> !drop(s[0]) && !drop(s[|s| - 1])
    ensures Strip(drop, s) == s
  {
  }

  /** Normalized slugs are well-formed, and the well-formed slugs are exactly the ones left alone. */
  lemma {:induction false} SlugNormalForm(slug: string)
    ensures WellFormedSlug(NormalizeSlug(slug))
    ensures NormalizeSlug(slug) == slug <==> WellFormedSlug(slug)
    ensures NormalizeSlug(NormalizeSlug(slug)) == NormalizeSlug(slug)
  {
    hide NormalizeSlug, WellFormedSlug;
    NormalizedIsWellFormed(slug);
    WellFormedIsNormal(NormalizeSlug(slug));
    if WellFormedSlug(slug) {
      WellFormedIsNormal(slug);
    }
  }

  lemma NormalizedIsWellFormed(slug: string)
    ensures WellFormedSlug(NormalizeSlug(slug))
  {
    hide RunsToDash, LowerText, Strip;
    var valid := Filter(IsSlugChar, RunsToDash(IsSlugSeparator, LowerText(Strip(IsSpace, slug))));
    DashRunsCollapse(valid);
    StripKeepsShape(RunsToDash(IsDash, valid));
  }

  lemma WellFormedIsNormal(s: string)
    requires WellFormedSlug(s)
    ensures NormalizeSlug(s) == s
  {
    hide RunsToDash, LowerText, Strip, Filter;
    assert s != "" ==> IsSlugChar(s[0]) && IsSlugChar(s[|s| - 1]);
    NothingToStrip(IsSpace, s);
    LowerStays(s);
    NoRuns(IsSlugSeparator, s);
    FilterKeepsAll(IsSlugChar, s);
    SingleDashesStay(s);
    NothingToStrip(IsDash, s);
  }

  // ----- Vietnamese phone numbers -----

  predicate NotPhoneSeparator(c: char) {
    !(IsSpace(c) || c == '(' || c == ')' || c == '.' || c == '-')
  }

  predicate IsZero(c: char) {
    c == '0'
  }

  function NormalizeVnPhone(phone: string): string {
    Canonical(Filter(NotPhoneSeparator, Strip(IsSpace, phone)))
  }

  /** The rewriting of a number without separators. */
  function Canonical(value: string): string {
    if "+84" <= value then Localized(value, value[3..])
    else if "84" <= value && |value| == 11 then Localized(value, value[2..])
    else value
  }

  /** `0` and the subscriber number, or the text as typed when there is no subscriber number. */
  function Localized(value: string, national: string): string {
    var subscriber := StripLeft(IsZero, national);
    if subscriber != "" then "0" + subscriber else value
  }

  lemma {:induction false} FilterStripLeft(keep: char -> bool, drop: char -> bool, s: string)
    requires forall c :: drop(c) ==> !keep(c)
    ensures Filter(keep, StripLeft(drop, s)) == Filter(keep, s)
  {
    if s != "" && drop(s[0]) {
      FilterStripLeft(keep, drop, s[1..]);
    }
  }

  lemma {:induction false} FilterStripRight(keep: char -> bool, drop: char -> bool, s: string)
    requires forall c :: drop(c) ==> !keep(c)
    ensures Filter(keep, StripRight(drop, s)) == Filter(keep, s)
  {
    if s != "" && drop(s[|s| - 1]) {
      var init, last := s[..|s| - 1], [s[|s| - 1]];
      FilterStripRight(keep, drop, init);
      FilterConcat(keep, init, last);
      FilterDropsAll(keep, last);
      assert s == init + last;
    }
  }

  /** Trimming first changes nothing: whitespace is a separator anyway. */
  lemma PhoneDigits(phone: string)
    ensures Filter(NotPhoneSeparator, Strip(IsSpace, phone)) == Filter(NotPhoneSeparator, phone)
  {
    hide StripLeft, StripRight, Filter;
    FilterStripLeft(NotPhoneSeparator, IsSpace, phone);
    FilterStripRight(NotPhoneSeparator, IsSpace, StripLeft(IsSpace, phone));
  }

  lemma CanonicalTwice(value: string)
    ensures Canonical(Canonical(value)) == Canonical(value)
  {
    hide StripLeft;
    assert "+84"[0] == '+' && "84"[0] == '8';
    var r := Canonical(value);
    if r != value {
      assert r[0] == '0';
    }
  }

  lemma CanonicalHasNoSeparator(value: string)
    requires forall c :: c in value ==> NotPhoneSeparator(c)
    ensures forall c :: c in Canonical(value) ==> NotPhoneSeparator(c)
  {
    hide StripLeft, NotPhoneSeparator;
    ZeroIsNoSeparator();
    assert forall c :: c in Canonical(value) ==> c == '0' || c in value;
  }

  lemma ZeroIsNoSeparator()
    ensures NotPhoneSeparator('0')
  {
  }

  /** Normalizing twice is normalizing once, on every input. */
  lemma {:induction false} PhoneIdempotent(phone: string)
    ensures NormalizeVnPhone(NormalizeVnPhone(phone)) == NormalizeVnPhone(phone)
  {
    hide Strip, Canonical, NotPhoneSeparator, Filter;
    var value := Filter(NotPhoneSeparator, Strip(IsSpace, phone));
    var r := Canonical(value);
    CanonicalHasNoSeparator(value);
    PhoneDigits(r);
    FilterKeepsAll(NotPhoneSeparator, r);
    CanonicalTwice(value);
  }

  /** A nine-digit subscriber number that does not start with 0. */
  predicate IsSubscriber(s: string) {
    |s| == 9 && s[0] != '0' && forall c :: c in s ==> IsAsciiDigit(c)
  }

  /** However it is written and separated, a Vietnamese number has one canonical form. */
  lemma {:induction false} PhoneFormsAgree(phone: string, s: string)
    requires IsSubscriber(s)
    requires Filter(NotPhoneSeparator, phone) in {"+84" + s, "84" + s, "0" + s, "+840" + s}
    ensures NormalizeVnPhone(phone) == "0" + s
  {
    hide Strip, IsSpace, Filter;
    var value := Filter(NotPhoneSeparator, phone);
    PhoneDigits(phone);
    assert StripLeft(IsZero, s) == s;
    if value == "+840" + s {
      assert value[3..] == "0" + s && ("0" + s)[1..] == s;
      assert "+84" <= value;
    } else if value == "+84" + s {
      assert value[3..] == s;
    } else if value == "84" + s {
      assert value[2..] == s;
      assert value[0] == '8';
    } else {
      assert value[0] == '0';
    }
  }
}
