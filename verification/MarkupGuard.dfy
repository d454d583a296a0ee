/** The leaked tool-call markup filter of the chat feature: the whole-text strip and the streaming guard. */
module MarkupGuard {
  import opened Characters

  predicate IsBar(c: char) {
    c == '|' || c == '\U{FF5C}'
  }

  const LONG_S := '\U{17F}'

  // ----- The two regular expressions, read off the source -----

  function SkipSpaces(s: string): string {
    if s != "" && IsSpace(s[0]) then SkipSpaces(s[1..]) else s
  }

  function SkipBars(s: string): string {
    if s != "" && IsBar(s[0]) then SkipBars(s[1..]) else s
  }

  /** What is left of the text after `\s*` `/?` `\s*`. */
  function SkipSlash(s: string): string {
    var r := SkipSpaces(s);
    if r != "" && r[0] == '/' then SkipSpaces(r[1..]) else r
  }

  /** Whether `c` stands for the lower-case letter `p` under `re.IGNORECASE`. */
  predicate IgnoresCase(c: char, p: char) {
    LowerAscii(c) == p || (p == 's' && c == LONG_S)
  }

  predicate StartsWithWord(s: string, w: string) {
    |w| <= |s| && forall i :: 0 <= i < |w| ==> IgnoresCase(s[i], w[i])
  }

  /** The marker pattern matches at the very start of `s`. */
  predicate MarkerAt(s: string) {
    s != "" && s[0] == '<' &&
    var r := SkipSlash(s[1..]);
    r != "" && IsBar(r[0]) &&
    var w := SkipSpaces(SkipBars(r));
    StartsWithWord(w, "dsml") || StartsWithWord(w, "tool")
  }

  /** The partial pattern matches all of `s`, and its letters can still begin a marker word. */
  predicate MayGrow(s: string) {
    s != "" && s[0] == '<' &&
    var r := SkipSlash(s[1..]);
    var bars := r != "" && IsBar(r[0]);
    var word := SkipSpaces(SkipBars(r));
    |word| <= 4 && (forall c :: c in word ==> IsAsciiLetter(c)) &&
    (word == "" || (bars && (Lower(word) <= "dsml" || Lower(word) <= "tool")))
  }

  /** Position of the leftmost marker, or the length of the text when there is none. */
  function MarkerStart(s: string): (i: nat)
    ensures i <= |s|
    ensures i < |s| ==> MarkerAt(s[i..])
    ensures forall j :: 0 <= j < i ==> !MarkerAt(s[j..])
  {
    if s == "" then 0
    else if MarkerAt(s) then
      assert s[0..] == s;
      0
    else
      var i := 1 + MarkerStart(s[1..]);
      assert forall j :: 1 <= j <= |s| ==> s[j..] == s[1..][j - 1..];
      assert s[0..] == s;
      i
  }

  predicate ContainsToolMarkup(s: string) {
    MarkerStart(s) < |s|
  }

  function StripToolMarkup(s: string): string {
    s[..MarkerStart(s)]
  }

  /** `text.rfind("<")`, or the length of the text when there is no `<`. */
  function LastOpening(s: string): (i: nat)
    ensures i <= |s|
    ensures i < |s| ==> s[i] == '<'
    ensures forall j :: 0 <= j < |s| && s[j] == '<' ==> j <= i < |s|
  {
    if s == "" then 0
    else if s[|s| - 1] == '<' then |s| - 1
    else
      var i := LastOpening(s[..|s| - 1]);
      if i == |s| - 1 then |s| else i
  }

  /** Where the withheld suffix starts, or the length of the text when nothing is withheld. */
  function HoldStart(s: string): (i: nat)
    ensures i <= |s|
  {
    var i := LastOpening(s);
    if i < |s| && MayGrow(s[i..]) then i else |s|
  }

  // ----- The guard as a function of its state -----

  datatype GuardState = GuardState(pending: string, captured: string, capturing: bool)

  const FRESH := GuardState("", "", false)

  function Feed(g: GuardState, chunk: string): (GuardState, string) {
    if g.capturing then (g.(captured := g.captured + chunk), "")
    else
      var text := g.pending + chunk;
      var m := MarkerStart(text);
      if m < |text| then (GuardState("", g.captured + text[m..], true), text[..m])
      else
        var h := HoldStart(text);
        (GuardState(text[h..], g.captured, false), text[..h])
  }

  function Finish(g: GuardState): (GuardState, string) {
    (g.(pending := ""), if g.capturing then "" else g.pending)
  }

  /** State and emitted text after feeding `chunks` in order. */
  function FeedAll(g: GuardState, chunks: seq<string>): (GuardState, string)
    decreases |chunks|
  {
    if chunks == [] then (g, "")
    else
      var (g1, out) := Feed(g, chunks[0]);
      var (g2, rest) := FeedAll(g1, chunks[1..]);
      (g2, out + rest)
  }

  /** Everything one stream round emits: every `feed`, then `finish`. */
  function Emitted(chunks: seq<string>): string {
    var (g, out) := FeedAll(FRESH, chunks);
    out + Finish(g).1
  }

  function Captured(chunks: seq<string>): string {
    FeedAll(FRESH, chunks).0.captured
  }

  // ----- A finite automaton for the marker pattern -----

  datatype State =
    Start | Opened | Slashed | Bars | Gap | D | DS | DSM | T | TO | TOO | Accept | Dead

  /** With `longS` the automaton reads the long s as the s of the marker word. */
  function Step(longS: bool, q: State, c: char): State {
    match q
    case Start => if c == '<' then Opened else Dead
    case Opened =>
      if IsSpace(c) then Opened else if c == '/' then Slashed else if IsBar(c) then Bars else Dead
    case Slashed => if IsSpace(c) then Slashed else if IsBar(c) then Bars else Dead
    case Bars => if IsBar(c) then Bars else if IsSpace(c) then Gap else FirstLetter(c)
    case Gap => if IsSpace(c) then Gap else FirstLetter(c)
    case D => if LowerAscii(c) == 's' || (longS && c == LONG_S) then DS else Dead
    case DS => if LowerAscii(c) == 'm' then DSM else Dead
    case DSM => if LowerAscii(c) == 'l' then Accept else Dead
    case T => if LowerAscii(c) == 'o' then TO else Dead
    case TO => if LowerAscii(c) == 'o' then TOO else Dead
    case TOO => if LowerAscii(c) == 'l' then Accept else Dead
    case Accept => Accept
    case Dead => Dead
  }

  function FirstLetter(c: char): State {
    if LowerAscii(c) == 'd' then D else if LowerAscii(c) == 't' then T else Dead
  }

  function Run(longS: bool, q: State, s: string): State
    decreases |s|
  {
    if s == "" then q else Run(longS, Step(longS, q, s[0]), s[1..])
  }

  predicate Live(q: State) {
    q != Dead && q != Accept
  }

  lemma {:induction false} RunConcat(longS: bool, q: State, s: string, t: string)
    ensures Run(longS, q, s + t) == Run(longS, Run(longS, q, s), t)
    decreases |s|
  {
    if s == "" {
      assert s + t == t;
    } else {
      assert (s + t)[1..] == s[1..] + t;
      RunConcat(longS, Step(longS, q, s[0]), s[1..], t);
    }
  }

  lemma {:induction false} RunAbsorbs(longS: bool, q: State, s: string)
    requires !Live(q)
    ensures Run(longS, q, s) == q
  {
    if s != "" {
      RunAbsorbs(longS, q, s[1..]);
    }
  }

  /** Without the long s the automaton follows the full one or dies. */
  lemma {:induction false} AsciiRunFollows(q: State, s: string)
    ensures Run(false, q, s) == Run(true, q, s) || Run(false, q, s) == Dead
    ensures LONG_S !in s ==> Run(false, q, s) == Run(true, q, s)
    decreases |s|
  {
    if s != "" {
      AsciiRunFollows(Step(true, q, s[0]), s[1..]);
      if Step(false, q, s[0]) != Step(true, q, s[0]) {
        RunAbsorbs(false, Dead, s[1..]);
      }
    }
  }

  /** A second `<` kills any run that is still live. */
  lemma {:induction false} LiveHasOneOpening(longS: bool, q: State, s: string)
    requires q != Start
    requires Live(Run(longS, q, s))
    ensures '<' !in s
    decreases |s|
  {
    if s != "" {
      if !Live(Step(longS, q, s[0])) {
        RunAbsorbs(longS, Step(longS, q, s[0]), s[1..]);
      }
      LiveHasOneOpening(longS, Step(longS, q, s[0]), s[1..]);
    }
  }

  // ----- The automaton is the marker pattern -----

  lemma {:induction false} WordRun(longS: bool, q: State, s: string)
    requires q == Bars || q == Gap
    requires s == "" || !(IsSpace(s[0]) || IsBar(s[0]))
    ensures Run(longS, q, s) == if s == "" then q else Run(longS, FirstLetter(s[0]), s[1..])
  {
  }

  lemma {:induction false} SkipSpacesRun(longS: bool, q: State, s: string)
    requires q == Opened || q == Slashed || q == Gap
    ensures Run(longS, q, s) == Run(longS, q, SkipSpaces(s))
    ensures SkipSpaces(s) == "" || !IsSpace(SkipSpaces(s)[0])
  {
    if s != "" && IsSpace(s[0]) {
      SkipSpacesRun(longS, q, s[1..]);
    }
  }

  /** Reading the bars and the spaces after them, up to the marker word. */
  lemma {:induction false} BarsRun(longS: bool, s: string)
    ensures var w := SkipSpaces(SkipBars(s));
            Live(Run(longS, Bars, s)) == Live(Run(longS, Gap, w)) &&
            (Run(longS, Bars, s) == Accept) == (Run(longS, Gap, w) == Accept)
    ensures var w := SkipSpaces(SkipBars(s)); w == "" || !IsSpace(w[0])
  {
    if s == "" {
    } else if IsBar(s[0]) {
      BarsRun(longS, s[1..]);
    } else if IsSpace(s[0]) {
      SkipSpacesRun(longS, Gap, s);
      assert Step(longS, Bars, s[0]) == Step(longS, Gap, s[0]) == Gap;
    } else {
      assert SkipSpaces(s) == s;
      WordRun(longS, Bars, s);
      WordRun(longS, Gap, s);
    }
  }

  /** At most four letters, read from `Gap`, unrolled. */
  lemma {:induction false} RunWord(longS: bool, s: string)
    ensures s == "" ==> Run(longS, Gap, s) == Gap
    ensures |s| == 1 ==> Run(longS, Gap, s) == Step(longS, Gap, s[0])
    ensures |s| == 2 ==> Run(longS, Gap, s) == Step(longS, Step(longS, Gap, s[0]), s[1])
    ensures |s| == 3 ==> Run(longS, Gap, s) == Step(longS, Step(longS, Step(longS, Gap, s[0]), s[1]), s[2])
    ensures |s| >= 4 ==>
              Run(longS, Gap, s) ==
              Run(longS, Step(longS, Step(longS, Step(longS, Step(longS, Gap, s[0]), s[1]), s[2]), s[3]), s[4..])
  {
    if |s| >= 1 {
      var q1, t1 := Step(longS, Gap, s[0]), s[1..];
      assert Run(longS, Gap, s) == Run(longS, q1, t1);
      if |s| >= 2 {
        var q2, t2 := Step(longS, q1, s[1]), s[2..];
        assert t1[1..] == t2 && Run(longS, q1, t1) == Run(longS, q2, t2);
        if |s| >= 3 {
          var q3, t3 := Step(longS, q2, s[2]), s[3..];
          assert t2[1..] == t3 && Run(longS, q2, t2) == Run(longS, q3, t3);
          if |s| >= 4 {
            assert t3[1..] == s[4..] && Run(longS, q3, t3) == Run(longS, Step(longS, q3, s[3]), s[4..]);
          }
        }
      }
    }
  }

  /** The marker word, once the spaces before it are gone. */
  lemma {:induction false} WordAccepted(s: string)
    requires s == "" || !IsSpace(s[0])
    ensures Run(true, Gap, s) == Accept <==> StartsWithWord(s, "dsml") || StartsWithWord(s, "tool")
  {
    RunWord(true, s);
    if |s| >= 4 {
      var q := Step(true, Step(true, Step(true, Step(true, Gap, s[0]), s[1]), s[2]), s[3]);
      assert !Live(q);
      RunAbsorbs(true, q, s[4..]);
    }
  }

  /** The letters of an unfinished marker word. */
  lemma {:induction false} WordLive(s: string)
    requires s == "" || !IsSpace(s[0])
    ensures Live(Run(false, Gap, s)) <==> |s| < 4 && (Lower(s) <= "dsml" || Lower(s) <= "tool")
  {
    RunWord(false, s);
    if |s| >= 4 {
      var q := Step(false, Step(false, Step(false, Step(false, Gap, s[0]), s[1]), s[2]), s[3]);
      assert !Live(q);
      RunAbsorbs(false, q, s[4..]);
    }
  }

  /** The optional slash and the spaces around it. */
  lemma {:induction false} SlashRun(longS: bool, s: string)
    ensures var r := SkipSlash(s);
            if r != "" && IsBar(r[0]) then Run(longS, Opened, s) == Run(longS, Bars, r)
            else if r == "" then Live(Run(longS, Opened, s))
            else Run(longS, Opened, s) == Dead
  {
    SkipSpacesRun(longS, Opened, s);
    var r := SkipSpaces(s);
    if r != "" && r[0] == '/' {
      SkipSpacesRun(longS, Slashed, r[1..]);
    }
    var t := SkipSlash(s);
    if t != "" {
      if IsBar(t[0]) {
        assert Run(longS, Bars, t) == Run(longS, Bars, t[1..]);
      } else {
        RunAbsorbs(longS, Dead, t[1..]);
      }
    }
  }

  /** The automaton accepts exactly the texts the marker pattern matches at their start. */
  lemma {:induction false} AutomatonIsMarker(s: string)
    ensures MarkerAt(s) <==> Run(true, Start, s) == Accept
  {
    if s != "" && s[0] == '<' {
      SlashRun(true, s[1..]);
      var r := SkipSlash(s[1..]);
      if r != "" && IsBar(r[0]) {
        BarsRun(true, r);
        WordAccepted(SkipSpaces(SkipBars(r)));
      }
    } else if s != "" {
      RunAbsorbs(true, Dead, s[1..]);
    }
  }

  /** Away from a finished marker, the partial pattern is liveness of the automaton without the long s. */
  lemma {:induction false} AutomatonIsPartial(s: string)
    requires s != "" && !MarkerAt(s)
    ensures MayGrow(s) <==> Live(Run(false, Start, s))
  {
    if s[0] == '<' {
      SlashRun(false, s[1..]);
      var r := SkipSlash(s[1..]);
      var w := SkipSpaces(SkipBars(r));
      if r != "" && IsBar(r[0]) {
        BarsRun(false, r);
        WordLive(w);
        if Lower(w) <= "dsml" || Lower(w) <= "tool" {
          WordLetters(w);
        }
      } else if r != "" {
        assert SkipBars(r) == r;
        SkipSlashEnds(s[1..]);
        assert w == r;
      }
    } else {
      RunAbsorbs(false, Dead, s[1..]);
    }
  }

  lemma {:induction false} SkipSlashEnds(s: string)
    ensures SkipSlash(s) == "" || !IsSpace(SkipSlash(s)[0])
  {
    SkipSpacesRun(true, Opened, s);
    var r := SkipSpaces(s);
    if r != "" && r[0] == '/' {
      SkipSpacesRun(true, Slashed, r[1..]);
    }
  }

  /** A lower-cased prefix of a marker word is made of letters; four of them are the whole word. */
  lemma {:induction false} WordLetters(w: string)
    requires Lower(w) <= "dsml" || Lower(w) <= "tool"
    ensures forall c :: c in w ==> IsAsciiLetter(c)
    ensures |w| == 4 ==> StartsWithWord(w, "dsml") || StartsWithWord(w, "tool")
  {
    forall i | 0 <= i < |w|
      ensures IsAsciiLetter(w[i])
    {
      assert Lower(w)[i] == LowerAscii(w[i]);
    }
  }

  // ----- The long s -----

  /** The marker at the start of `s` has U+017F for the s of its word. */
  predicate SpelledWithLongS(s: string)
    requires MarkerAt(s)
  {
    var w := SkipSpaces(SkipBars(SkipSlash(s[1..])));
    w[1] == LONG_S
  }

  /** The leftmost marker of the text, if there is one, is spelled with U+017F. */
  predicate FirstMarkerHasLongS(t: string) {
    MarkerStart(t) < |t| && SpelledWithLongS(t[MarkerStart(t)..])
  }

  lemma {:induction false} PlainMarkerRun(s: string)
    requires MarkerAt(s)
    ensures Run(false, Start, s) == Accept <==> !SpelledWithLongS(s)
  {
    SlashRun(false, s[1..]);
    var r := SkipSlash(s[1..]);
    BarsRun(false, r);
    var w := SkipSpaces(SkipBars(r));
    RunWord(false, w);
    var q := Step(false, Step(false, Step(false, Step(false, Gap, w[0]), w[1]), w[2]), w[3]);
    assert !Live(q);
    RunAbsorbs(false, q, w[4..]);
  }

  /** The text with every U+017F written as an s. */
  function WithPlainS(s: string): string {
    Map((c: char) => if c == LONG_S then 's' else c, s)
  }

  /** Writing the long s as an s is what the full automaton does anyway. */
  lemma {:induction false} PlainSRun(q: State, s: string)
    ensures Run(false, q, WithPlainS(s)) == Run(true, q, WithPlainS(s)) == Run(true, q, s)
    decreases |s|
  {
    if s != "" {
      var c, d := s[0], WithPlainS(s)[0];
      assert WithPlainS(s)[1..] == WithPlainS(s[1..]);
      assert Step(false, q, d) == Step(true, q, d) == Step(true, q, c);
      PlainSRun(Step(true, q, c), s[1..]);
    }
  }

  /** The text ends in an unfinished marker that the partial pattern only misses because its s is U+017F. */
  predicate EndsInLongS(t: string) {
    var s := t[LastOpening(t)..];
    MarkerStart(t) == |t| && MayGrow(WithPlainS(s)) && !MayGrow(s)
  }

  lemma {:induction false} OpenEnd(t: string)
    requires MarkerStart(t) == |t|
    ensures var s := t[LastOpening(t)..];
            MayGrow(WithPlainS(s)) <==> s != "" && Live(Run(true, Start, s))
    ensures EndsInLongS(t) ==> HoldStart(t) == |t|
    ensures HoldStart(t) == |t| && !EndsInLongS(t) ==> !MayGrow(WithPlainS(t[LastOpening(t)..]))
    ensures HoldStart(t) < |t| ==> HoldStart(t) == LastOpening(t) && MayGrow(WithPlainS(t[LastOpening(t)..]))
  {
    hide MarkerAt, MayGrow, MarkerStart, LastOpening;
    var s := t[LastOpening(t)..];
    if s == "" {
      NothingGrows(s);
    } else {
      PlainSRun(Start, s);
      AutomatonIsMarker(s);
      AutomatonIsMarker(WithPlainS(s));
      AutomatonIsPartial(s);
      AutomatonIsPartial(WithPlainS(s));
      AsciiRunFollows(Start, s);
    }
  }

  lemma NothingGrows(s: string)
    requires s == ""
    ensures !MayGrow(s) && !MayGrow(WithPlainS(s))
  {
  }

  // ----- Searching a text that grows at the end -----

  lemma MarkerOpens(s: string)
    requires MarkerAt(s)
    ensures s != "" && s[0] == '<'
  {
  }

  lemma {:induction false} LastOpeningIs(s: string, i: nat)
    requires i < |s| && s[i] == '<'
    requires forall j :: i < j < |s| ==> s[j] != '<'
    ensures LastOpening(s) == i
  {
  }

  lemma {:induction false} NoLastOpening(s: string)
    requires '<' !in s
    ensures LastOpening(s) == |s|
  {
  }

  lemma {:induction false} MarkerStays(s: string, c: string)
    requires MarkerAt(s)
    ensures MarkerAt(s + c)
  {
    hide MarkerAt;
    AutomatonIsMarker(s);
    AutomatonIsMarker(s + c);
    RunConcat(true, Start, s, c);
    RunAbsorbs(true, Accept, c);
  }

  /** No marker starts at `i` in the longer text once another `<` follows without one. */
  lemma {:induction false} MarkerNeedsLastOpening(s: string, c: string, j: nat)
    requires !MarkerAt(s) && MarkerAt(s + c)
    requires 0 < j < |s|
    ensures s[j] != '<'
  {
    hide MarkerAt;
    AutomatonIsMarker(s);
    AutomatonIsMarker(s + c);
    RunConcat(true, Start, s, c);
    if Run(true, Start, s) == Dead {
      RunAbsorbs(true, Dead, c);
    }
    MarkerOpens(s + c);
    assert s[0] == (s + c)[0];
    LiveHasOneOpening(true, Opened, s[1..]);
    assert s[j] == s[1..][j - 1];
  }

  /** A marker that has been found stays the first one. */
  lemma {:induction false} FoundMarkerStays(t: string, c: string)
    requires MarkerStart(t) < |t|
    ensures MarkerStart(t + c) == MarkerStart(t)
  {
    hide MarkerAt;
    var m := MarkerStart(t);
    assert (t + c)[m..] == t[m..] + c;
    MarkerStays(t[m..], c);
    MarkerOpens(t[m..]);
    var k := MarkerStart(t + c);
    if k < m {
      assert (t + c)[k..] == t[k..] + c;
      assert t[k..][m - k] == t[m] == t[m..][0];
      MarkerNeedsLastOpening(t[k..], c, m - k);
    }
  }

  /** A first marker that starts inside the old text starts at its last `<`, in an end that was open. */
  lemma {:induction false} MarkerAtOpenEnd(t: string, c: string)
    requires MarkerStart(t) == |t| && MarkerStart(t + c) < |t|
    ensures MarkerStart(t + c) == LastOpening(t) && Live(Run(true, Start, t[LastOpening(t)..]))
  {
    hide MarkerAt, MarkerStart, LastOpening;
    var k := MarkerStart(t + c);
    var s := t[k..];
    assert (t + c)[k..] == s + c;
    AutomatonIsMarker(s + c);
    AutomatonIsMarker(s);
    RunConcat(true, Start, s, c);
    if Run(true, Start, s) == Dead {
      RunAbsorbs(true, Dead, c);
    }
    MarkerOpens(s + c);
    forall j | k < j < |t|
      ensures t[j] != '<'
    {
      assert t[j] == s[j - k];
      MarkerNeedsLastOpening(s, c, j - k);
    }
    assert t[k] == s[0] == (s + c)[0];
    LastOpeningIs(t, k);
  }

  /** A new first marker that starts inside the old text starts where that was withheld, unless it ended in a long s. */
  lemma {:induction false} NewMarkerWasHeld(t: string, c: string)
    requires MarkerStart(t) == |t| && MarkerStart(t + c) < |t|
    requires !EndsInLongS(t)
    ensures HoldStart(t) == MarkerStart(t + c)
  {
    hide MarkerAt, MayGrow, MarkerStart, LastOpening, HoldStart, EndsInLongS;
    MarkerAtOpenEnd(t, c);
    OpenEnd(t);
  }

  /** Searching from a point before the first marker finds the same marker. */
  lemma {:induction false} SearchFrom(t: string, h: nat)
    requires h <= MarkerStart(t)
    ensures MarkerStart(t[h..]) + h == MarkerStart(t)
  {
    hide MarkerAt;
    var m, n := MarkerStart(t), MarkerStart(t[h..]);
    assert t[h..][n..] == t[h + n..];
    assert t[h..][m - h..] == t[m..];
  }

  /** The withheld suffix of a longer text lies inside what was withheld before plus the new chunk. */
  lemma {:induction false} HoldFrom(t: string, c: string)
    requires MarkerStart(t + c) == |t + c| && MarkerStart(t) == |t|
    ensures HoldStart(t[HoldStart(t)..] + c) + HoldStart(t) == HoldStart(t + c)
  {
    hide MarkerAt, MayGrow, MarkerStart, LastOpening;
    var h, x := HoldStart(t), t + c;
    var y := t[h..] + c;
    assert forall j :: 0 <= j < |y| ==> y[j] == x[h + j];
    if h < |t| {
      assert x[h] == t[h];
    }
    var i := LastOpening(x);
    if i == |x| {
      NoLastOpening(y);
    } else if h <= i {
      assert y[i - h] == '<';
      LastOpeningIs(y, i - h);
      assert y[i - h..] == x[i..];
    } else {
      NoLastOpening(y);
      assert t[i] == x[i];
      assert forall j :: i < j < |t| ==> t[j] == x[j];
      LastOpeningIs(t, i);
      assert x[i..] == t[i..] + c;
      DeadStaysUnheld(t[i..], c);
    }
  }

  lemma {:induction false} DeadStaysUnheld(s: string, c: string)
    requires s != "" && !MarkerAt(s) && !MarkerAt(s + c) && !MayGrow(s)
    ensures !MayGrow(s + c)
  {
    hide MarkerAt, MayGrow;
    AutomatonIsPartial(s);
    AutomatonIsPartial(s + c);
    AutomatonIsMarker(s);
    AsciiRunFollows(Start, s);
    RunConcat(false, Start, s, c);
    RunAbsorbs(false, Run(false, Start, s), c);
  }

  // ----- The guard after a text -----

  /** What the guard has let through of the text `t`, unless a cut fell behind a long s of its first marker. */
  function Released(t: string): string {
    if MarkerStart(t) < |t| then t[..MarkerStart(t)] else t[..HoldStart(t)]
  }

  /** The guard's state in the same case. */
  function StateAfter(t: string): GuardState {
    if MarkerStart(t) < |t| then GuardState("", t[MarkerStart(t)..], true)
    else GuardState(t[HoldStart(t)..], "", false)
  }

  /** The cut between `t` and `c` falls inside the first marker, behind its long s. */
  predicate CutsBehindLongS(t: string, c: string) {
    EndsInLongS(t) && MarkerStart(t + c) < |t|
  }

  /** The search of one `feed` sees the text from the withheld suffix on, and finds what the whole text holds. */
  lemma {:induction false} FeedSearches(t: string, c: string)
    requires MarkerStart(t) == |t| && !CutsBehindLongS(t, c)
    ensures var h, text := HoldStart(t), t[HoldStart(t)..] + c;
            h + MarkerStart(text) == MarkerStart(t + c) &&
            (MarkerStart(text) == |text| ==> h + HoldStart(text) == HoldStart(t + c))
  {
    hide MarkerAt, MayGrow, MarkerStart, HoldStart, EndsInLongS;
    var x, h := t + c, HoldStart(t);
    assert x[h..] == t[h..] + c;
    if MarkerStart(x) < |t| {
      NewMarkerWasHeld(t, c);
    }
    SearchFrom(x, h);
    if MarkerStart(x) == |x| {
      HoldFrom(t, c);
    }
  }

  lemma CutTail(t: string, c: string, h: nat, k: nat)
    requires h <= |t| && k <= |t[h..] + c|
    ensures h + |t[h..] + c| == |t + c| && "" + (t[h..] + c)[k..] == (t[h..] + c)[k..] == (t + c)[h + k..]
  {
  }

  lemma CutHead(t: string, c: string, h: nat, k: nat)
    requires h <= |t| && k <= |t[h..] + c|
    ensures h + |t[h..] + c| == |t + c| && t[..h] + (t[h..] + c)[..k] == (t + c)[..h + k]
  {
  }

  lemma {:induction false} FeedWhileCapturing(t: string, c: string)
    requires MarkerStart(t) < |t|
    ensures var (g, out) := Feed(StateAfter(t), c);
            g == StateAfter(t + c) && Released(t) + out == Released(t + c)
  {
    hide MarkerStart, HoldStart;
    FoundMarkerStays(t, c);
    CutTail(t, c, MarkerStart(t), 0);
    CutHead(t, c, MarkerStart(t), 0);
  }

  lemma FeedFinds(t: string, c: string, h: nat, k: nat)
    requires MarkerStart(t) == |t| && HoldStart(t) == h
    requires MarkerStart(t[h..] + c) == k < |t[h..] + c| && MarkerStart(t + c) == h + k
    ensures var (g, out) := Feed(StateAfter(t), c);
            g == StateAfter(t + c) && Released(t) + out == Released(t + c)
  {
    hide MarkerStart, HoldStart;
    CutTail(t, c, h, k);
    CutHead(t, c, h, k);
  }

  lemma FeedHolds(t: string, c: string, h: nat, k: nat)
    requires MarkerStart(t) == |t| && HoldStart(t) == h && MarkerStart(t + c) == |t + c|
    requires MarkerStart(t[h..] + c) == |t[h..] + c| && HoldStart(t[h..] + c) == k && HoldStart(t + c) == h + k
    ensures var (g, out) := Feed(StateAfter(t), c);
            g == StateAfter(t + c) && Released(t) + out == Released(t + c)
  {
    hide MarkerStart, HoldStart;
    CutTail(t, c, h, k);
    CutHead(t, c, h, k);
  }

  lemma {:induction false} FeedWhileSearching(t: string, c: string)
    requires MarkerStart(t) == |t| && !CutsBehindLongS(t, c)
    ensures var (g, out) := Feed(StateAfter(t), c);
            g == StateAfter(t + c) && Released(t) + out == Released(t + c)
  {
    hide MarkerStart, HoldStart, CutsBehindLongS, Feed, StateAfter, Released;
    FeedSearches(t, c);
    var h := HoldStart(t);
    var text := t[h..] + c;
    CutTail(t, c, h, 0);
    if MarkerStart(text) < |text| {
      FeedFinds(t, c, h, MarkerStart(text));
    } else {
      FeedHolds(t, c, h, HoldStart(text));
    }
  }

  /** One `feed` takes the state after `t` to the state after `t + c`. */
  lemma {:induction false} FeedExtends(t: string, c: string)
    requires !CutsBehindLongS(t, c)
    ensures var (g, out) := Feed(StateAfter(t), c);
            g == StateAfter(t + c) && Released(t) + out == Released(t + c)
  {
    hide MarkerStart, Feed, StateAfter, Released, CutsBehindLongS;
    if MarkerStart(t) < |t| {
      FeedWhileCapturing(t, c);
    } else {
      FeedWhileSearching(t, c);
    }
  }

  /** Some cut of the text into `chunks` falls inside its first marker, behind the long s of that marker. */
  ghost predicate CutBehindLongS(chunks: seq<string>) {
    exists i: nat :: i <= |chunks| && CutsBehindLongS(Concat(chunks[..i]), Concat(chunks[i..]))
  }

  /** A harmful cut stays harmful in a longer text. */
  lemma {:induction false} CutStays(t: string, c: string, d: string)
    requires CutsBehindLongS(t, c)
    ensures CutsBehindLongS(t, c + d)
  {
    hide MarkerStart, EndsInLongS;
    FoundMarkerStays(t + c, d);
    assert (t + c) + d == t + (c + d);
  }

  lemma {:induction false} CutOfInitStays(chunks: seq<string>, i: nat)
    requires i < |chunks|
    requires var init := chunks[..|chunks| - 1]; CutsBehindLongS(Concat(init[..i]), Concat(init[i..]))
    ensures CutsBehindLongS(Concat(chunks[..i]), Concat(chunks[i..]))
  {
    hide CutsBehindLongS, Concat;
    var init, last := chunks[..|chunks| - 1], chunks[|chunks| - 1];
    assert init[..i] == chunks[..i] && chunks[i..] == init[i..] + [last];
    ConcatSnoc(init[i..], last);
    CutStays(Concat(init[..i]), Concat(init[i..]), last);
  }

  /** Without the last chunk there is no harmful cut either, and the last one is none. */
  lemma {:induction false} CutsOfInit(chunks: seq<string>)
    requires chunks != [] && !CutBehindLongS(chunks)
    ensures var init, last := chunks[..|chunks| - 1], chunks[|chunks| - 1];
            !CutBehindLongS(init) && !CutsBehindLongS(Concat(init), last) && Concat(chunks) == Concat(init) + last
  {
    hide CutsBehindLongS, Concat;
    var n := |chunks| - 1;
    var init, last := chunks[..n], chunks[n];
    assert chunks == init + [last] && chunks[n..] == [last];
    ConcatSnoc(init, last);
    ConcatOne(last);
    if i: nat :| i <= n && CutsBehindLongS(Concat(init[..i]), Concat(init[i..])) {
      CutOfInitStays(chunks, i);
    }
  }

  lemma ConcatOne(a: string)
    ensures Concat([a]) == a
  {
    assert [a][1..] == [];
    assert a + "" == a;
  }

  /** Without a harmful cut the guard is where the text alone puts it. */
  lemma {:induction false} FeedAllReleases(chunks: seq<string>)
    requires !CutBehindLongS(chunks)
    ensures FeedAll(FRESH, chunks) == (StateAfter(Concat(chunks)), Released(Concat(chunks)))
    decreases |chunks|
  {
    hide MarkerStart, HoldStart, Feed, StateAfter, Released, CutsBehindLongS, CutBehindLongS;
    if chunks == [] {
      FreshIsAfterNothing("");
    } else {
      var init, last := chunks[..|chunks| - 1], chunks[|chunks| - 1];
      assert chunks == init + [last];
      CutsOfInit(chunks);
      FeedAllReleases(init);
      FeedAllSnoc(FRESH, init, last);
      FeedExtends(Concat(init), last);
    }
  }

  lemma FreshIsAfterNothing(t: string)
    requires |t| == 0
    ensures StateAfter(t) == FRESH && Released(t) == ""
  {
    hide MarkerAt, MayGrow;
  }

  lemma SplitAt(t: string, i: nat)
    requires i <= |t|
    ensures t[..i] + t[i..] == t && "" + t == t && t + "" == t
  {
  }

  /** Finishing after the text `t` releases what was withheld. */
  lemma FinishReleases(t: string)
    ensures Released(t) + Finish(StateAfter(t)).1 == StripToolMarkup(t)
    ensures StateAfter(t).captured == t[|StripToolMarkup(t)|..]
  {
    hide MarkerAt, MayGrow, MarkerStart, HoldStart;
    SplitAt(t, HoldStart(t));
    SplitAt(t[..MarkerStart(t)], 0);
  }

  // ----- What one cut of a text does -----

  /** What completes an unfinished marker is not stripped with the next one. */
  lemma {:induction false} CompletionStays(q: State, rest: string, m: nat)
    requires Live(q) && q != Start && Run(true, q, rest) == Accept
    requires m <= |rest| && (m < |rest| ==> rest[m] == '<')
    ensures Run(true, q, rest[..m]) == Accept
    decreases m
  {
    var q1 := Step(true, q, rest[0]);
    if !Live(q1) {
      RunAbsorbs(true, q1, rest[1..]);
      RunAbsorbs(true, q1, rest[..m][1..]);
    } else {
      assert rest[..m][1..] == rest[1..][..m - 1];
      CompletionStays(q1, rest[1..], m - 1);
    }
  }

  /** An unfinished marker at the end of `t`, once completed, is a marker even after the rest is stripped. */
  lemma {:induction false} CompletedIsMarkup(t: string, rest: string, more: string)
    requires MarkerStart(t) == |t| && MarkerStart(t + rest) < |t|
    ensures ContainsToolMarkup(t + StripToolMarkup(rest) + more)
  {
    hide MarkerAt, MarkerStart, LastOpening;
    var k := MarkerStart(t + rest);
    var s := t[k..];
    MarkerAtOpenEnd(t, rest);
    assert (t + rest)[k..] == s + rest;
    AutomatonIsMarker(s + rest);
    RunConcat(true, Start, s, rest);
    var q := Run(true, Start, s);
    if q == Start {
      StartIsNeverAgain(s);
    }
    var m := MarkerStart(rest);
    if m < |rest| {
      MarkerOpens(rest[m..]);
    }
    CompletionStays(q, rest, m);
    var out := rest[..m];
    RunConcat(true, Start, s, out);
    AutomatonIsMarker(s + out);
    MarkerStays(s + out, more);
    assert (t + out + more)[k..] == s + out + more;
  }

  lemma {:induction false} StartIsNeverAgain(s: string)
    requires s != ""
    ensures Run(true, Start, s) != Start
  {
    var q := Step(true, Start, s[0]);
    if q == Dead {
      RunAbsorbs(true, Dead, s[1..]);
    } else {
      OpenedOnwards(q, s[1..]);
    }
  }

  lemma {:induction false} OpenedOnwards(q: State, s: string)
    requires q != Start
    ensures Run(true, q, s) != Start
    decreases |s|
  {
    if s != "" {
      OpenedOnwards(Step(true, q, s[0]), s[1..]);
    }
  }

  /** Stripping removes something exactly when there is markup, and leaves none. */
  lemma {:induction false} StripLeavesNoMarkup(t: string)
    ensures !ContainsToolMarkup(StripToolMarkup(t))
    ensures ContainsToolMarkup(t) <==> StripToolMarkup(t) != t
    ensures StripToolMarkup(StripToolMarkup(t)) == StripToolMarkup(t)
  {
    hide MarkerAt, MarkerStart;
    var m := MarkerStart(t);
    var p := t[..m];
    var k := MarkerStart(p);
    if k < |p| {
      assert t[k..] == p[k..] + t[m..];
      MarkerStays(p[k..], t[m..]);
    }
  }

  lemma {:induction false} ConcatSplit(a: seq<string>, b: seq<string>)
    ensures Concat(a + b) == Concat(a) + Concat(b)
  {
    if a == [] {
      assert a + b == b;
    } else {
      assert (a + b)[1..] == a[1..] + b;
      ConcatSplit(a[1..], b);
    }
  }

  lemma {:induction false} FeedAllSplit(g: GuardState, a: seq<string>, b: seq<string>)
    ensures var (g1, out) := FeedAll(g, a);
            FeedAll(g, a + b) == (FeedAll(g1, b).0, out + FeedAll(g1, b).1)
    decreases |a|
  {
    hide Feed;
    if a == [] {
      assert a + b == b;
      assert "" + FeedAll(g, b).1 == FeedAll(g, b).1;
    } else {
      assert (a + b)[1..] == a[1..] + b;
      var (g1, out) := Feed(g, a[0]);
      FeedAllSplit(g1, a[1..], b);
      var (g2, rest) := FeedAll(g1, a[1..]);
      assert out + (rest + FeedAll(g2, b).1) == (out + rest) + FeedAll(g2, b).1;
    }
  }

  /** Fields that a new guard can reach. */
  predicate Plain(g: GuardState) {
    (g.capturing ==> g.pending == "") && (!g.capturing ==> g.captured == "")
  }

  /** A guard's text: what is out, then what is captured, then what is withheld. */
  function Text(out: string, g: GuardState): string {
    out + g.captured + g.pending
  }

  lemma PiecesJoin(out: string, a: string, b: string, k: nat)
    requires k <= |a + b|
    ensures (out + (a + b)[..k]) + ("" + (a + b)[k..]) + "" == (out + "" + a) + b
    ensures (out + (a + b)[..k]) + "" + (a + b)[k..] == (out + "" + a) + b
    ensures (out + "") + (a + b) + "" == (out + a + "") + b
  {
  }

  /** Every character fed is released, captured or withheld. */
  lemma FeedKeepsText(out: string, g: GuardState, chunk: string)
    requires Plain(g)
    ensures var (g1, more) := Feed(g, chunk);
            Plain(g1) && Text(out + more, g1) == Text(out, g) + chunk
  {
    hide MarkerStart, HoldStart;
    if g.capturing {
      PiecesJoin(out, g.captured, chunk, 0);
    } else {
      var text := g.pending + chunk;
      PiecesJoin(out, g.pending, chunk, if MarkerStart(text) < |text| then MarkerStart(text) else HoldStart(text));
    }
  }

  /** Released, captured and withheld text together are the text, in this order. */
  lemma {:induction false} NothingLost(chunks: seq<string>)
    ensures var (g, out) := FeedAll(FRESH, chunks);
            Plain(g) && Text(out, g) == Concat(chunks)
    ensures Emitted(chunks) + Captured(chunks) == Concat(chunks)
    decreases |chunks|
  {
    hide Feed, Text;
    if chunks == [] {
      NoText();
    } else {
      var init, last := chunks[..|chunks| - 1], chunks[|chunks| - 1];
      assert chunks == init + [last];
      NothingLost(init);
      FeedAllSnoc(FRESH, init, last);
      ConcatSnoc(init, last);
      var (g, out) := FeedAll(FRESH, init);
      FeedKeepsText(out, g, last);
    }
    var (g, out) := FeedAll(FRESH, chunks);
    FinishKeepsText(out, g);
  }

  lemma NoText()
    ensures Text("", FRESH) == ""
  {
  }

  lemma FinishKeepsText(out: string, g: GuardState)
    requires Plain(g)
    ensures (out + Finish(g).1) + g.captured == Text(out, g)
  {
  }

  lemma {:induction false} EmittedAfter(first: seq<string>, rest: seq<string>, t: string)
    requires FeedAll(FRESH, first) == (FRESH, t)
    ensures FeedAll(FRESH, first + rest).1 == t + FeedAll(FRESH, rest).1
    ensures Emitted(first + rest) == t + Emitted(rest)
  {
    hide FeedAll, Finish;
    FeedAllSplit(FRESH, first, rest);
    var (g, out) := FeedAll(FRESH, rest);
    assert t + (out + Finish(g).1) == (t + out) + Finish(g).1;
  }

  /** After a harmful cut the guard has let all of the text through, and starts anew on the rest. */
  lemma {:induction false} CutReleases(chunks: seq<string>, i: nat)
    requires i <= |chunks| && CutsBehindLongS(Concat(chunks[..i]), Concat(chunks[i..]))
    ensures i > 0
    ensures var t, rest := Concat(chunks[..i]), chunks[i..];
            MarkerStart(t) == |t| && MarkerStart(t + Concat(rest)) < |t| && Concat(chunks) == t + Concat(rest) &&
            FeedAll(FRESH, chunks).1 == t + FeedAll(FRESH, rest).1 && Emitted(chunks) == t + Emitted(rest)
  {
    hide MarkerStart, EndsInLongS, FeedAll, Emitted, Released, StateAfter, CutBehindLongS, Concat;
    var first, rest := chunks[..i], chunks[i..];
    assert chunks == first + rest;
    ConcatSplit(first, rest);
    EndIsReleased(Concat(first));
    assert i == 0 ==> first == [];
    ConcatNone();
    NoHarmfulCutBefore(first);
    FeedAllReleases(first);
    EmittedAfter(first, rest, Concat(first));
  }

  lemma ConcatNone()
    ensures Concat([]) == ""
  {
  }

  lemma {:induction false} EndIsReleased(t: string)
    requires EndsInLongS(t)
    ensures t != "" && MarkerStart(t) == |t| && Released(t) == t && StateAfter(t) == FRESH
  {
    hide MarkerAt, MayGrow, MarkerStart, HoldStart, LastOpening;
    OpenEnd(t);
    assert t[..|t|] == t && t[|t|..] == "";
  }

  lemma {:induction false} NoHarmfulCutBefore(chunks: seq<string>)
    requires MarkerStart(Concat(chunks)) == |Concat(chunks)|
    ensures !CutBehindLongS(chunks)
  {
    hide MarkerStart, EndsInLongS;
    forall i: nat | i <= |chunks|
      ensures !CutsBehindLongS(Concat(chunks[..i]), Concat(chunks[i..]))
    {
      assert chunks == chunks[..i] + chunks[i..];
      ConcatSplit(chunks[..i], chunks[i..]);
    }
  }

  /** However a text is cut, nothing before its first marker is lost. */
  lemma {:induction false} EmitsAtLeastStripped(chunks: seq<string>)
    ensures StripToolMarkup(Concat(chunks)) <= Emitted(chunks)
    decreases |chunks|
  {
    hide MarkerStart, FeedAll, Finish, CutsBehindLongS, Released, StateAfter;
    if CutBehindLongS(chunks) {
      var i: nat :| i <= |chunks| && CutsBehindLongS(Concat(chunks[..i]), Concat(chunks[i..]));
      CutReleases(chunks, i);
    } else {
      FeedAllReleases(chunks);
      FinishReleases(Concat(chunks));
    }
  }

  /** One round, cut in any way: it emits a prefix of the text that holds at least the stripped text and captures the
      rest. It emits more, and lets markup through, exactly if a cut falls behind a long s in the first marker. */
  lemma {:induction false} RoundIsExact(chunks: seq<string>)
    ensures Emitted(chunks) + Captured(chunks) == Concat(chunks)
    ensures StripToolMarkup(Concat(chunks)) <= Emitted(chunks)
    ensures Emitted(chunks) == StripToolMarkup(Concat(chunks)) <==> !CutBehindLongS(chunks)
    ensures ContainsToolMarkup(Emitted(chunks)) <==> CutBehindLongS(chunks)
  {
    hide MarkerStart, FeedAll, Finish, CutsBehindLongS, Released, StateAfter, ContainsToolMarkup, Captured;
    NothingLost(chunks);
    EmitsAtLeastStripped(chunks);
    if CutBehindLongS(chunks) {
      var i: nat :| i <= |chunks| && CutsBehindLongS(Concat(chunks[..i]), Concat(chunks[i..]));
      CutReleases(chunks, i);
      var t, rest := Concat(chunks[..i]), chunks[i..];
      EmitsAtLeastStripped(rest);
      var stripped := StripToolMarkup(Concat(rest));
      CompletedIsMarkup(t, Concat(rest), Emitted(rest)[|stripped|..]);
      assert Emitted(chunks) == t + stripped + Emitted(rest)[|stripped|..];
      StripLeavesNoMarkup(Concat(chunks));
    } else {
      FeedAllReleases(chunks);
      FinishReleases(Concat(chunks));
      StripLeavesNoMarkup(Concat(chunks));
    }
  }

  // ----- Every cut of a text -----

  /** Where the two automata part: after a `d`, on a long s. */
  lemma {:induction false} PartingPoint(q: State, s: string) returns (j: nat)
    requires Run(true, q, s) == Accept && Run(false, q, s) != Accept
    ensures j < |s| && s[j] == LONG_S && Run(true, q, s[..j]) == Run(false, q, s[..j]) == D
    decreases |s|
  {
    if q == D && s[0] == LONG_S {
      j := 0;
    } else {
      var k := PartingPoint(Step(true, q, s[0]), s[1..]);
      j := k + 1;
      assert s[..j][1..] == s[1..][..k];
    }
  }

  /** A prefix that ends inside the first marker holds no marker and has the same last `<`. */
  lemma {:induction false} CutInsideMarker(t: string, n: nat)
    requires MarkerStart(t) < n <= |t|
    requires Live(Run(true, Start, t[MarkerStart(t)..n]))
    ensures MarkerStart(t[..n]) == n && LastOpening(t[..n]) == MarkerStart(t)
  {
    hide MarkerAt, MarkerStart, LastOpening, Run;
    var m, p := MarkerStart(t), t[..n];
    var s := p[m..];
    assert s == t[m..n] && t == p + t[n..];
    if MarkerStart(p) < n {
      FoundMarkerStays(p, t[n..]);
      AutomatonIsMarker(s);
    }
    MarkerOpens(t[m..]);
    OnlyOpening(s);
    assert p[m] == t[m..][0];
    forall j | m < j < n
      ensures p[j] != '<'
    {
      assert p[j] == s[j - m];
    }
    LastOpeningIs(p, m);
  }

  lemma {:induction false} OnlyOpening(s: string)
    requires s != "" && Live(Run(true, Start, s))
    ensures forall j :: 0 < j < |s| ==> s[j] != '<'
  {
    var q := Step(true, Start, s[0]);
    if q == Dead {
      RunAbsorbs(true, Dead, s[1..]);
    }
    LiveHasOneOpening(true, q, s[1..]);
    forall j | 0 < j < |s|
      ensures s[j] != '<'
    {
      assert s[j] == s[1..][j - 1];
    }
  }

  /** A cut behind a long s inside the first marker is behind the s of that marker. */
  lemma {:induction false} CutBehindIsLongS(t: string, c: string)
    requires CutsBehindLongS(t, c)
    ensures FirstMarkerHasLongS(t + c)
  {
    hide MarkerAt, MayGrow, MarkerStart, LastOpening, SpelledWithLongS, Run, Step;
    MarkerAtOpenEnd(t, c);
    var s := t[LastOpening(t)..];
    assert (t + c)[LastOpening(t)..] == s + c;
    OpenEnd(t);
    AutomatonIsMarker(s);
    AutomatonIsPartial(s);
    AsciiRunFollows(Start, s);
    RunConcat(false, Start, s, c);
    RunAbsorbs(false, Dead, c);
    PlainMarkerRun(s + c);
  }

  /** A harmful cut needs a long s in the first marker. */
  lemma {:induction false} CutMeansLongS(chunks: seq<string>)
    requires CutBehindLongS(chunks)
    ensures FirstMarkerHasLongS(Concat(chunks))
  {
    hide CutsBehindLongS, FirstMarkerHasLongS, Concat;
    var i: nat :| i <= |chunks| && CutsBehindLongS(Concat(chunks[..i]), Concat(chunks[i..]));
    assert chunks == chunks[..i] + chunks[i..];
    ConcatSplit(chunks[..i], chunks[i..]);
    CutBehindIsLongS(Concat(chunks[..i]), Concat(chunks[i..]));
  }

  /** A long s in the first marker can be cut off from what follows it. */
  lemma {:induction false} LongSCut(t: string) returns (chunks: seq<string>)
    requires FirstMarkerHasLongS(t)
    ensures Concat(chunks) == t && CutBehindLongS(chunks)
  {
    hide MarkerAt, MayGrow, MarkerStart, LastOpening, SpelledWithLongS;
    var m := MarkerStart(t);
    AutomatonIsMarker(t[m..]);
    PlainMarkerRun(t[m..]);
    var j := PartingPoint(Start, t[m..]);
    var n := m + j + 1;
    var s := t[m..n];
    assert s == t[m..][..j] + [LONG_S];
    RunConcat(true, Start, t[m..][..j], [LONG_S]);
    RunConcat(false, Start, t[m..][..j], [LONG_S]);
    RunOne(true, D, LONG_S);
    RunOne(false, D, LONG_S);
    CutInsideMarker(t, n);
    var p, rest := t[..n], t[n..];
    AutomatonIsMarker(s);
    AutomatonIsPartial(s);
    assert p[m..] == s && p + rest == t;
    OpenEnd(p);
    chunks := [p, rest];
    ConcatOne(p);
    ConcatOne(rest);
    ConcatSplit([p], [rest]);
    assert chunks == [p] + [rest] && chunks[..1] == [p] && chunks[1..] == [rest];
    assert CutsBehindLongS(Concat(chunks[..1]), Concat(chunks[1..]));
  }

  /** A long s in the first marker lets that marker through for some cut of the text. */
  lemma {:induction false} LongSLeaks(t: string) returns (chunks: seq<string>)
    requires FirstMarkerHasLongS(t)
    ensures Concat(chunks) == t && ContainsToolMarkup(Emitted(chunks))
  {
    hide FirstMarkerHasLongS, CutBehindLongS, ContainsToolMarkup, Emitted, Concat;
    chunks := LongSCut(t);
    RoundIsExact(chunks);
  }

  /** A round whose first marker, if any, has no long s emits the stripped text and captures the rest. */
  lemma {:induction false} PlainTextIsStripped(chunks: seq<string>)
    requires !FirstMarkerHasLongS(Concat(chunks))
    ensures Emitted(chunks) == StripToolMarkup(Concat(chunks))
    ensures Captured(chunks) == Concat(chunks)[|StripToolMarkup(Concat(chunks))|..]
  {
    hide FirstMarkerHasLongS, CutBehindLongS, Emitted, Captured, StripToolMarkup;
    RoundIsExact(chunks);
    if CutBehindLongS(chunks) {
      CutMeansLongS(chunks);
    }
  }

  /** Every cut of `t` streams to the stripped text, and no cut lets markup through,
      exactly when no long s spells the first marker. */
  lemma {:induction false} EveryCutIsStripped(t: string)
    ensures (forall chunks :: Concat(chunks) == t ==> Emitted(chunks) == StripToolMarkup(t))
            <==> !FirstMarkerHasLongS(t)
    ensures (forall chunks :: Concat(chunks) == t ==> !ContainsToolMarkup(Emitted(chunks)))
            <==> !FirstMarkerHasLongS(t)
  {
    hide MarkerStart, FirstMarkerHasLongS, Emitted, Concat, StripToolMarkup, ContainsToolMarkup, CutBehindLongS;
    StripLeavesNoMarkup(t);
    if FirstMarkerHasLongS(t) {
      var chunks := LongSLeaks(t);
    } else {
      forall chunks | Concat(chunks) == t
        ensures Emitted(chunks) == StripToolMarkup(t)
      {
        PlainTextIsStripped(chunks);
      }
    }
  }

  // ----- What is withheld is exactly what a marker could still claim -----

  /** Every live state can still be completed to a marker. */
  function Completion(q: State): string
    requires Live(q)
  {
    match q
    case Start => "<|dsml"
    case Opened => "|dsml"
    case Slashed => "|dsml"
    case Bars => "dsml"
    case Gap => "dsml"
    case D => "sml"
    case DS => "ml"
    case DSM => "l"
    case T => "ool"
    case TO => "ol"
    case TOO => "l"
  }

  lemma {:induction false} CompletionAccepted(longS: bool, q: State)
    requires Live(q)
    ensures Run(longS, q, Completion(q)) == Accept
  {
    RunOne(longS, DSM, 'l');
    RunOne(longS, TOO, 'l');
    RunCons(longS, DS, 'm', "l");
    RunCons(longS, D, 's', "ml");
    RunCons(longS, Gap, 'd', "sml");
    RunCons(longS, Bars, 'd', "sml");
    RunCons(longS, Opened, '|', "dsml");
    RunCons(longS, Slashed, '|', "dsml");
    RunCons(longS, Start, '<', "|dsml");
    RunCons(longS, TO, 'o', "l");
    RunCons(longS, T, 'o', "ol");
  }

  lemma RunOne(longS: bool, q: State, c: char)
    ensures Run(longS, q, [c]) == Step(longS, q, c)
  {
    assert [c][1..] == "";
  }

  lemma RunCons(longS: bool, q: State, c: char, s: string)
    ensures Run(longS, q, [c] + s) == Run(longS, Step(longS, q, c), s)
  {
    assert ([c] + s)[1..] == s;
  }

  /** A text cut before an opening in its open end can still have its first marker there. */
  lemma {:induction false} OpenEndCompletes(t: string, h: nat)
    requires MarkerStart(t) == |t| && h < |t| && t[h] == '<' && Live(Run(true, Start, t[h..]))
    ensures exists c :: MarkerStart(t + c) == h
  {
    hide MarkerAt, MarkerStart, Completion;
    var s := t[h..];
    var q := Run(true, Start, s);
    CompletionAccepted(true, q);
    var c := Completion(q);
    RunConcat(true, Start, s, c);
    AutomatonIsMarker(s + c);
    assert (t + c)[h..] == s + c;
    var k := MarkerStart(t + c);
    if k < h {
      assert (t + c)[k..] == t[k..] + c;
      assert t[k..][h - k] == t[h];
      MarkerNeedsLastOpening(t[k..], c, h - k);
    }
  }

  /** The withheld suffix can grow into a marker. */
  lemma {:induction false} HeldCanBecomeMarker(t: string)
    requires MarkerStart(t) == |t| && HoldStart(t) < |t|
    ensures exists c :: MarkerStart(t + c) == HoldStart(t)
  {
    hide MarkerAt, MayGrow, MarkerStart, LastOpening;
    var s := t[HoldStart(t)..];
    AutomatonIsPartial(s);
    AsciiRunFollows(Start, s);
    OpenEndCompletes(t, HoldStart(t));
  }

  /** How much of the text no later chunk can turn out to have leaked. */
  function SafeLength(t: string): (n: nat)
    ensures n <= |t|
  {
    if MarkerStart(t) < |t| then MarkerStart(t)
    else if MayGrow(WithPlainS(t[LastOpening(t)..])) then LastOpening(t)
    else |t|
  }

  /** A prefix survives every continuation exactly up to the safe length. */
  lemma {:induction false} SafeLengthIsExact(t: string, k: nat)
    requires k <= |t|
    ensures (forall c :: t[..k] <= StripToolMarkup(t + c)) <==> k <= SafeLength(t)
  {
    hide MarkerAt, MayGrow, MarkerStart, LastOpening;
    var n := SafeLength(t);
    if k <= n {
      forall c
        ensures t[..k] <= StripToolMarkup(t + c)
      {
        if MarkerStart(t) < |t| {
          FoundMarkerStays(t, c);
        } else if MarkerStart(t + c) < |t| {
          MarkerAtOpenEnd(t, c);
          OpenEnd(t);
        }
        assert (t + c)[..MarkerStart(t + c)][..k] == t[..k];
      }
    } else {
      if MarkerStart(t) < |t| {
        assert MarkerStart(t + "") == n by {
          FoundMarkerStays(t, "");
        }
        assert |StripToolMarkup(t + "")| < k;
      } else {
        OpenEnd(t);
        OpenEndCompletes(t, n);
        var c :| MarkerStart(t + c) == n;
        assert |StripToolMarkup(t + c)| < k;
      }
    }
  }

  /** After any chunks the guard has let through exactly the longest prefix that is safe from every continuation,
      if and only if no cut fell behind a long s of the first marker and the text does not end in such a long s. */
  lemma {:induction false} EmitsLongestSafePrefix(chunks: seq<string>)
    ensures var t := Concat(chunks);
            FeedAll(FRESH, chunks).1 == t[..SafeLength(t)] <==> !CutBehindLongS(chunks) && !EndsInLongS(t)
  {
    hide MarkerStart, FeedAll, CutsBehindLongS, Released, StateAfter, SafeLength, EndsInLongS, Emitted;
    var t := Concat(chunks);
    if CutBehindLongS(chunks) {
      var i: nat :| i <= |chunks| && CutsBehindLongS(Concat(chunks[..i]), Concat(chunks[i..]));
      CutReleases(chunks, i);
      SafeUpToMarker(t);
    } else {
      FeedAllReleases(chunks);
      ReleasedOrSafe(t);
    }
  }

  lemma SafeUpToMarker(t: string)
    requires MarkerStart(t) < |t|
    ensures SafeLength(t) == MarkerStart(t)
  {
    hide MarkerStart;
  }

  /** Without a harmful cut, the text is released up to the safe length, or wholly if it ends in a long s. */
  lemma {:induction false} ReleasedOrSafe(t: string)
    ensures Released(t) == t[..SafeLength(t)] <==> !EndsInLongS(t)
    ensures EndsInLongS(t) ==> Released(t) == t && SafeLength(t) < |t|
  {
    hide MarkerAt, MayGrow, MarkerStart, LastOpening, HoldStart;
    if MarkerStart(t) == |t| {
      OpenEnd(t);
      SplitAt(t, |t|);
    }
  }

  /** Every cut of `t` lets exactly its longest safe prefix through, if and only if no long s spells its first marker
      or an unfinished marker at its end. */
  lemma {:induction false} EveryCutEmitsSafePrefix(t: string)
    ensures (forall chunks :: Concat(chunks) == t ==> FeedAll(FRESH, chunks).1 == t[..SafeLength(t)])
            <==> !EndsInLongS(t) && !FirstMarkerHasLongS(t)
  {
    hide FeedAll, SafeLength, EndsInLongS, FirstMarkerHasLongS, CutBehindLongS, Concat;
    forall chunks | Concat(chunks) == t
      ensures FeedAll(FRESH, chunks).1 == t[..SafeLength(t)] <==> !CutBehindLongS(chunks) && !EndsInLongS(t)
    {
      EmitsLongestSafePrefix(chunks);
    }
    forall chunks | Concat(chunks) == t && CutBehindLongS(chunks)
      ensures FirstMarkerHasLongS(t)
    {
      CutMeansLongS(chunks);
    }
    ConcatOne(t);
    if FirstMarkerHasLongS(t) {
      var chunks := LongSCut(t);
    }
  }

  /** The guard lets `<|d` and a long s through, although `ml` makes a marker of them; when `ml` comes, the whole
      marker is out. */
  lemma {:induction false} LongSReleased()
    ensures var t := "<|d" + [LONG_S];
            FeedAll(FRESH, [t]).1 == t && StripToolMarkup(t + "ml") == "" && Emitted([t, "ml"]) == t + "ml"
  {
    hide MarkerAt, MayGrow, MarkerStart, LastOpening, HoldStart, FeedAll, Run, EndsInLongS, Emitted;
    var t := "<|d" + [LONG_S];
    LastOpeningIs(t, 0);
    assert t[0..] == t && (t + "ml")[0..] == t + "ml";
    LongSRun(true);
    LongSRun(false);
    CompletionAccepted(true, DS);
    RunConcat(true, Start, t, "ml");
    AutomatonIsMarker(t);
    AutomatonIsMarker(t + "ml");
    AutomatonIsPartial(t);
    NoMarkerWithout(t);
    if MarkerAt("ml") {
      MarkerOpens("ml");
    }
    NoMarkerWithout("ml");
    UnheldLongS(t);
    ReleasedInTwo(t, "ml");
  }

  lemma LongSRun(longS: bool)
    ensures Run(longS, Start, "<|d" + [LONG_S]) == if longS then DS else Dead
  {
    hide Run;
    var s := [LONG_S];
    RunCons(longS, Start, '<', "|d" + s);
    RunCons(longS, Opened, '|', "d" + s);
    RunCons(longS, Bars, 'd', s);
    RunOne(longS, D, LONG_S);
    assert "<|d" + s == "<" + ("|d" + s) && "|d" + s == "|" + ("d" + s);
  }

  /** No marker without an opening, and none at the only one means none at all. */
  lemma {:induction false} NoMarkerWithout(t: string)
    requires !MarkerAt(t) && forall i :: 0 < i < |t| ==> t[i] != '<'
    ensures MarkerStart(t) == |t|
  {
    hide MarkerAt;
    var m := MarkerStart(t);
    assert t[0..] == t;
    if 0 < m < |t| {
      MarkerOpens(t[m..]);
    }
  }

  lemma UnheldLongS(t: string)
    requires MarkerStart(t) == |t| > 0 && LastOpening(t) == 0
    requires Live(Run(true, Start, t)) && !MayGrow(t)
    ensures EndsInLongS(t)
  {
    hide MarkerAt, MayGrow, MarkerStart, LastOpening, Run;
    assert t[0..] == t;
    OpenEnd(t);
  }

  /** A chunk that ends in a long s is let through whole, and so is what completes the marker. */
  lemma ReleasedInTwo(t: string, c: string)
    requires CutsBehindLongS(t, c) && MarkerStart(c) == |c|
    ensures FeedAll(FRESH, [t]).1 == t && Emitted([t, c]) == t + c
  {
    hide MarkerStart, EndsInLongS, FeedAll, Emitted, Released, StateAfter, HoldStart;
    ConcatOne(t);
    ConcatOne(c);
    assert [t, c][..1] == [t] && [t, c][1..] == [c];
    CutReleases([t, c], 1);
    NoHarmfulCutBefore([t]);
    FeedAllReleases([t]);
    ReleasedOrSafe(t);
    EmitsAtLeastStripped([c]);
    NothingLost([c]);
    assert c[..|c|] == c;
    assert StripToolMarkup(c) == c;
  }

  // ----- The guard object -----

  /** Passes streamed text through and swallows everything from the first marker on. */
  class DsmlStreamGuard {
    var pending: string
    var captured: seq<string>
    var capturing: bool

    constructor ()
      ensures View() == FRESH
    {
      pending, captured, capturing := "", [], false;
    }

    /** The pieces of `captured` joined, with the two other fields. */
    ghost function View(): GuardState
      reads this
    {
      GuardState(pending, Concat(captured), capturing)
    }

    method FeedChunk(chunk: string) returns (out: string)
      modifies this
      ensures (View(), out) == Feed(old(View()), chunk)
    {
      hide MarkerAt, MayGrow, MarkerStart, HoldStart;
      if capturing {
        ConcatSnoc(captured, chunk);
        captured := captured + [chunk];
        return "";
      }
      var text := pending + chunk;
      pending := "";
      var m := MarkerStart(text);
      if m < |text| {
        capturing := true;
        ConcatSnoc(captured, text[m..]);
        captured := captured + [text[m..]];
        return text[..m];
      }
      var h := HoldStart(text);
      if h < |text| {
        pending := text[h..];
        return text[..h];
      }
      assert text[h..] == "" && text[..h] == text;
      return text;
    }

    method FinishStream() returns (out: string)
      modifies this
      ensures (View(), out) == Finish(old(View()))
    {
      var held := pending;
      pending := "";
      out := if capturing then "" else held;
    }
  }

  /** One streamed round: a new guard, every non-empty delta, then `finish`. */
  method StreamRound(deltas: seq<string>) returns (text: string, captured: string)
    ensures text + captured == Concat(deltas) && StripToolMarkup(Concat(deltas)) <= text
    ensures text != StripToolMarkup(Concat(deltas)) <==> ContainsToolMarkup(text)
    ensures ContainsToolMarkup(text) ==> FirstMarkerHasLongS(Concat(deltas))
  {
    hide MarkerAt, MayGrow, MarkerStart, HoldStart, Feed, FirstMarkerHasLongS, CutBehindLongS, StripToolMarkup,
      ContainsToolMarkup;
    var guard := new DsmlStreamGuard();
    text := "";
    ghost var fed: seq<string> := [];
    for i := 0 to |deltas|
      invariant FeedAll(FRESH, fed) == (guard.View(), text)
      invariant Concat(fed) == Concat(deltas[..i])
    {
      assert deltas[..i + 1] == deltas[..i] + [deltas[i]];
      ConcatSnoc(deltas[..i], deltas[i]);
      if deltas[i] != "" {
        var safe := guard.FeedChunk(deltas[i]);
        FeedAllSnoc(FRESH, fed, deltas[i]);
        ConcatSnoc(fed, deltas[i]);
        fed := fed + [deltas[i]];
        text := text + safe;
      }
    }
    assert deltas[..|deltas|] == deltas;
    captured := Concat(guard.captured);
    var tail := guard.FinishStream();
    text := text + tail;
    RoundIsExact(fed);
    if CutBehindLongS(fed) {
      CutMeansLongS(fed);
    }
  }

  lemma {:induction false} FeedAllSnoc(g: GuardState, chunks: seq<string>, last: string)
    ensures var (g1, out) := FeedAll(g, chunks);
            FeedAll(g, chunks + [last]) == (Feed(g1, last).0, out + Feed(g1, last).1)
    decreases |chunks|
  {
    hide Feed;
    if chunks == [] {
      assert chunks + [last] == [last] && [last][1..] == [];
      var (g1, out) := Feed(g, last);
      assert FeedAll(g1, []) == (g1, "");
      assert out + "" == out && "" + out == out;
    } else {
      assert (chunks + [last])[1..] == chunks[1..] + [last];
      var (g1, out) := Feed(g, chunks[0]);
      FeedAllSnoc(g1, chunks[1..], last);
      var (g2, rest) := FeedAll(g1, chunks[1..]);
      assert out + (rest + Feed(g2, last).1) == (out + rest) + Feed(g2, last).1;
    }
  }
}
