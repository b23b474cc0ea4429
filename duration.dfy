/**
 * The `print_dur` text the printer reports ("  1d  0h 54m") and how the
 * exporter reads it: the anchored pattern
 *   ^\s*((\d+)d)?\s*((\d+)h)?\s*((\d+)m)?\s*((\d+)s)?\s*$
 * matched with `re.match`, and the sum of the four captured numbers
 * weighted by seconds per day, hour, minute and second.
 *
 * The pattern is modelled twice: as a grammar (Render, which spells every
 * string the pattern accepts) and as a scanner (Scan, which plays the part
 * of `re.match`). Scan is sound (its ensures) and complete (ScanComplete).
 */
module Duration {
  import opened Wrappers

  /** Python's `\s` in a str pattern: the characters for which str.isspace() holds. */
  predicate IsSpace(c: char) {
    c == ' ' || ('\t' <= c <= '\r') || ('\U{1C}' <= c <= '\U{1F}') || c == '\U{85}' || c == '\U{A0}'
    || c == '\U{1680}' || ('\U{2000}' <= c <= '\U{200A}') || c == '\U{2028}' || c == '\U{2029}'
    || c == '\U{202F}' || c == '\U{205F}' || c == '\U{3000}'
  }

  /** `\d`, restricted to the ASCII digits. */
  predicate IsDigit(c: char) { '0' <= c <= '9' }

  predicate AllSpace(s: string) { forall i :: 0 <= i < |s| ==> IsSpace(s[i]) }

  predicate AllDigits(s: string) { forall i :: 0 <= i < |s| ==> IsDigit(s[i]) }

  /** The unit letters, in the only order the pattern accepts them. */
  const Units: string := "dhms"

  /**
   * A successful match: the leading whitespace, and for each unit its digit
   * group (groups 2, 4, 6 and 8 of the pattern, None when the segment was
   * omitted) and the whitespace after it.
   */
  datatype DurationMatch = DurationMatch(lead: string, groups: seq<Option<string>>, gaps: seq<string>)

  predicate GroupsOk(groups: seq<Option<string>>) {
    forall k :: 0 <= k < |groups| && groups[k].Some? ==> groups[k].value != [] && AllDigits(groups[k].value)
  }

  predicate GapsOk(gaps: seq<string>) {
    forall k :: 0 <= k < |gaps| ==> AllSpace(gaps[k])
  }

  predicate WellFormed(m: DurationMatch) {
    |m.groups| == |Units| && |m.gaps| == |Units| && AllSpace(m.lead) && GroupsOk(m.groups) && GapsOk(m.gaps)
  }

  // ---------------------------------------------------------------------------
  // The grammar: the strings the pattern accepts

  /** `((\d+)u)?` spelled out: nothing, or the digits followed by the unit letter. */
  function Piece(group: Option<string>, unit: char): string {
    match group
    case None => []
    case Some(ds) => ds + [unit]
  }

  function RenderFrom(units: string, groups: seq<Option<string>>, gaps: seq<string>): string
    requires |groups| == |units| && |gaps| == |units|
  {
    if units == [] then []
    else Piece(groups[0], units[0]) + gaps[0] + RenderFrom(units[1..], groups[1..], gaps[1..])
  }

  /** The text a match was read from. */
  function Render(m: DurationMatch): string
    requires |m.groups| == |Units| && |m.gaps| == |Units|
  {
    m.lead + RenderFrom(Units, m.groups, m.gaps)
  }

  // ---------------------------------------------------------------------------
  // The scanner: `re.match` for this one pattern

  /** `\s*`, greedy: the longest whitespace prefix and what follows it. */
  function SplitSpace(s: string): (p: (string, string))
    ensures p.0 + p.1 == s && AllSpace(p.0)
    ensures p.1 == [] || !IsSpace(p.1[0])
  {
    if s != [] && IsSpace(s[0]) then
      var q := SplitSpace(s[1..]);
      ConsSplit(s, q.0, q.1);
      SpaceCons(s[0], q.0);
      ([s[0]] + q.0, q.1)
    else ([], s)
  }

  /** `\d+`, greedy: the longest digit prefix and what follows it. */
  function SplitDigits(s: string): (p: (string, string))
    ensures p.0 + p.1 == s && AllDigits(p.0)
    ensures p.1 == [] || !IsDigit(p.1[0])
  {
    if s != [] && IsDigit(s[0]) then
      var q := SplitDigits(s[1..]);
      ConsSplit(s, q.0, q.1);
      DigitsCons(s[0], q.0);
      ([s[0]] + q.0, q.1)
    else ([], s)
  }

  lemma ConsSplit(s: string, x: string, y: string)
    requires s != [] && x + y == s[1..]
    ensures [s[0]] + x + y == s
  {
    assert [s[0]] + x + y == [s[0]] + (x + y);
  }

  lemma SpaceCons(c: char, w: string)
    requires IsSpace(c) && AllSpace(w)
    ensures AllSpace([c] + w)
  {
    forall k | 0 <= k < |w| + 1
      ensures ([c] + w)[k] == if k == 0 then c else w[k - 1]
    {
    }
  }

  lemma DigitsCons(c: char, ds: string)
    requires IsDigit(c) && AllDigits(ds)
    ensures AllDigits([c] + ds)
  {
    forall k | 0 <= k < |ds| + 1
      ensures ([c] + ds)[k] == if k == 0 then c else ds[k - 1]
    {
    }
  }

  /** `((\d+)u)?`: the digit group when digits followed by the unit letter come next, else nothing consumed. */
  function Segment(s: string, unit: char): (p: (Option<string>, string))
    ensures p.0.None? ==> p.1 == s
    ensures p.0.Some? ==> p.0.value != [] && AllDigits(p.0.value)
    ensures Piece(p.0, unit) + p.1 == s
  {
    var (ds, rest) := SplitDigits(s);
    if ds != [] && rest != [] && rest[0] == unit then
      assert ds + [unit] + rest[1..] == ds + rest;
      (Some(ds), rest[1..])
    else (None, s)
  }

  /** The segments for `units`, each followed by `\s*`, then the end of the text (`$`). */
  function ScanFrom(units: string, s: string): (r: Option<(seq<Option<string>>, seq<string>)>)
    ensures r.Some? ==> |r.value.0| == |units| && |r.value.1| == |units|
    ensures r.Some? ==> GroupsOk(r.value.0) && GapsOk(r.value.1)
    ensures r.Some? ==> RenderFrom(units, r.value.0, r.value.1) == s
  {
    if units == [] then
      if s == [] then Some(([], [])) else None
    else
      var segment := Segment(s, units[0]);
      var space := SplitSpace(segment.1);
      var tail := ScanFrom(units[1..], space.1);
      if tail.None? then None
      else
        var groups := [segment.0] + tail.value.0;
        var gaps := [space.0] + tail.value.1;
        SegmentThenSpace(s, units[0]);
        RenderCons(units, segment.0, space.0, tail.value.0, tail.value.1);
        GroupsCons(segment.0, tail.value.0);
        GapsCons(space.0, tail.value.1);
        Some((groups, gaps))
  }

  /** A segment, then the whitespace after it, then the rest: together the text they were read from. */
  lemma SegmentThenSpace(s: string, unit: char)
    ensures var segment := Segment(s, unit);
            var space := SplitSpace(segment.1);
            Piece(segment.0, unit) + space.0 + space.1 == s
  {
    var segment := Segment(s, unit);
    var space := SplitSpace(segment.1);
    Associate(Piece(segment.0, unit), space.0, space.1);
  }

  lemma Associate(a: string, b: string, c: string)
    ensures a + b + c == a + (b + c)
  {
  }

  lemma RenderCons(units: string, group: Option<string>, gap: string, groups: seq<Option<string>>, gaps: seq<string>)
    requires units != [] && |groups| == |units| - 1 && |gaps| == |units| - 1
    ensures RenderFrom(units, [group] + groups, [gap] + gaps)
            == Piece(group, units[0]) + gap + RenderFrom(units[1..], groups, gaps)
  {
    assert ([group] + groups)[1..] == groups && ([gap] + gaps)[1..] == gaps;
  }

  lemma GroupsCons(group: Option<string>, groups: seq<Option<string>>)
    requires group.Some? ==> group.value != [] && AllDigits(group.value)
    requires GroupsOk(groups)
    ensures GroupsOk([group] + groups)
  {
    forall k | 0 <= k < |groups| + 1
      ensures ([group] + groups)[k] == if k == 0 then group else groups[k - 1]
    {
    }
  }

  lemma GapsCons(gap: string, gaps: seq<string>)
    requires AllSpace(gap) && GapsOk(gaps)
    ensures GapsOk([gap] + gaps)
  {
    forall k | 0 <= k < |gaps| + 1
      ensures ([gap] + gaps)[k] == if k == 0 then gap else gaps[k - 1]
    {
    }
  }

  /** `re.match(pattern, s)`: the match, or None when the text does not fit the pattern. */
  function Scan(s: string): (r: Option<DurationMatch>)
    ensures r.Some? ==> WellFormed(r.value) && Render(r.value) == s
  {
    var (lead, rest) := SplitSpace(s);
    match ScanFrom(Units, rest)
    case None => None
    case Some((groups, gaps)) => Some(DurationMatch(lead, groups, gaps))
  }

  // ---------------------------------------------------------------------------
  // Completeness: every string of the grammar is matched, with its own groups

  /** Units the scanner can tell apart: no digit, no whitespace, no letter twice. */
  predicate DistinctUnits(units: string) {
    (forall i :: 0 <= i < |units| ==> !IsDigit(units[i]) && !IsSpace(units[i]))
    && (forall i, j :: 0 <= i < j < |units| ==> units[i] != units[j])
  }

  lemma {:induction false} SpaceAbsorbed(w: string, x: string)
    requires AllSpace(w)
    ensures SplitSpace(w + x).1 == SplitSpace(x).1
  {
    if w != [] {
      assert IsSpace(w[0]) && AllSpace(w[1..]);
      assert (w + x)[0] == w[0] && (w + x)[1..] == w[1..] + x;
      SpaceAbsorbed(w[1..], x);
    } else {
      assert w + x == x;
    }
  }

  lemma {:induction false} DigitsThenUnit(ds: string, unit: char, rest: string)
    requires AllDigits(ds) && !IsDigit(unit)
    ensures SplitDigits(ds + [unit] + rest) == (ds, [unit] + rest)
  {
    if ds != [] {
      assert IsDigit(ds[0]) && AllDigits(ds[1..]);
      assert (ds + [unit] + rest)[0] == ds[0] && (ds + [unit] + rest)[1..] == ds[1..] + [unit] + rest;
      DigitsThenUnit(ds[1..], unit, rest);
      assert [ds[0]] + ds[1..] == ds;
    } else {
      assert ds + [unit] + rest == [unit] + rest;
    }
  }

  /**
   * After whitespace, a count and its unit letter: the scanner looking for
   * `unit` captures the count when the letter is `unit`, and nothing otherwise.
   */
  lemma CountAhead(w: string, ds: string, u: char, tail: string, unit: char)
    requires AllSpace(w) && ds != [] && AllDigits(ds) && !IsDigit(u)
    ensures var segment := Segment(SplitSpace(w + (ds + [u] + tail)).1, unit);
            segment.0 == (if u == unit then Some(ds) else None)
            && (u == unit ==> segment.1 == tail)
  {
    var x := ds + [u] + tail;
    SpaceAbsorbed(w, x);
    assert x[0] == ds[0] && IsDigit(ds[0]);
    assert SplitSpace(x) == ([], x);
    DigitsThenUnit(ds, u, tail);
  }

  /** After any whitespace, text of the later units never starts with a segment for `unit`. */
  lemma {:induction false} SegmentSkipped(units: string, groups: seq<Option<string>>, gaps: seq<string>,
                                          w: string, unit: char)
    requires |groups| == |units| && |gaps| == |units|
    requires GroupsOk(groups) && GapsOk(gaps) && AllSpace(w)
    requires !IsDigit(unit) && forall i :: 0 <= i < |units| ==> !IsDigit(units[i]) && units[i] != unit
    ensures Segment(SplitSpace(w + RenderFrom(units, groups, gaps)).1, unit).0.None?
  {
    var text := RenderFrom(units, groups, gaps);
    if units == [] {
      SpaceAbsorbed(w, []);
      assert w + text == w + [];
    } else {
      var rest := RenderFrom(units[1..], groups[1..], gaps[1..]);
      match groups[0]
      case Some(ds) =>
        assert w + text == w + (ds + [units[0]] + (gaps[0] + rest));
        CountAhead(w, ds, units[0], gaps[0] + rest, unit);
      case None =>
        assert w + text == (w + gaps[0]) + rest;
        assert AllSpace(w + gaps[0]) by {
          assert forall i :: 0 <= i < |gaps[0]| ==> (w + gaps[0])[|w| + i] == gaps[0][i];
        }
        SegmentSkipped(units[1..], groups[1..], gaps[1..], w + gaps[0], unit);
    }
  }

  /** One step of the scanner: the first unit's segment and gap, then the rest. */
  lemma ScanFromStep(units: string, s: string)
    requires units != []
    ensures var tail := ScanFrom(units[1..], SplitSpace(Segment(s, units[0]).1).1);
            ScanFrom(units, s).Some? == tail.Some?
            && (tail.Some? ==> ScanFrom(units, s).value.0 == [Segment(s, units[0]).0] + tail.value.0)
  {
  }

  /** The whitespace the scanner has consumed once the first unit is dealt with. */
  function SpaceAfterFirst(groups: seq<Option<string>>, gaps: seq<string>, w: string): string
    requires |groups| > 0 && |gaps| > 0
  {
    if groups[0].Some? then gaps[0] else w + gaps[0]
  }

  /** Scanning the first unit of a spelled text captures its group and leaves the later units' text. */
  lemma FirstUnitStep(units: string, groups: seq<Option<string>>, gaps: seq<string>, w: string)
    requires |units| > 0 && |groups| == |units| && |gaps| == |units|
    requires GroupsOk(groups) && GapsOk(gaps) && AllSpace(w)
    requires !IsDigit(units[0]) && forall i :: 1 <= i < |units| ==> !IsDigit(units[i]) && units[i] != units[0]
    ensures var s := SplitSpace(w + RenderFrom(units, groups, gaps)).1;
            var rest := RenderFrom(units[1..], groups[1..], gaps[1..]);
            var w' := SpaceAfterFirst(groups, gaps, w);
            AllSpace(w')
            && Segment(s, units[0]).0 == groups[0]
            && SplitSpace(Segment(s, units[0]).1).1 == SplitSpace(w' + rest).1
  {
    var unit := units[0];
    var rest := RenderFrom(units[1..], groups[1..], gaps[1..]);
    var text := RenderFrom(units, groups, gaps);
    assert text == Piece(groups[0], unit) + gaps[0] + rest;
    assert AllSpace(gaps[0]);
    if groups[0].Some? {
      var ds := groups[0].value;
      assert w + text == w + (ds + [unit] + (gaps[0] + rest));
      CountAhead(w, ds, unit, gaps[0] + rest, unit);
    } else {
      var w' := w + gaps[0];
      assert w + text == w' + rest;
      assert AllSpace(w') by {
        assert forall i :: 0 <= i < |gaps[0]| ==> w'[|w| + i] == gaps[0][i];
      }
      assert GroupsOk(groups[1..]) && GapsOk(gaps[1..]);
      SegmentSkipped(units[1..], groups[1..], gaps[1..], w', unit);
      var s := SplitSpace(w' + rest).1;
      assert SplitSpace(s) == ([], s);
    }
  }

  lemma {:induction false} ScanFromComplete(units: string, groups: seq<Option<string>>, gaps: seq<string>, w: string)
    requires |groups| == |units| && |gaps| == |units|
    requires GroupsOk(groups) && GapsOk(gaps) && AllSpace(w) && DistinctUnits(units)
    ensures var r := ScanFrom(units, SplitSpace(w + RenderFrom(units, groups, gaps)).1);
            r.Some? && r.value.0 == groups
  {
    if units == [] {
      SpaceAbsorbed(w, []);
      assert w + RenderFrom(units, groups, gaps) == w + [];
    } else {
      var s := SplitSpace(w + RenderFrom(units, groups, gaps)).1;
      ScanFromStep(units, s);
      DistinctTail(units);
      FirstUnitStep(units, groups, gaps, w);
      OkTails(groups, gaps);
      ScanFromComplete(units[1..], groups[1..], gaps[1..], SpaceAfterFirst(groups, gaps, w));
      assert groups == [groups[0]] + groups[1..];
    }
  }

  lemma DistinctTail(units: string)
    requires units != [] && DistinctUnits(units)
    ensures DistinctUnits(units[1..])
    ensures !IsDigit(units[0]) && forall i :: 1 <= i < |units| ==> !IsDigit(units[i]) && units[i] != units[0]
  {
    assert forall i :: 0 <= i < |units| - 1 ==> units[1..][i] == units[i + 1];
  }

  lemma OkTails(groups: seq<Option<string>>, gaps: seq<string>)
    requires groups != [] && gaps != [] && GroupsOk(groups) && GapsOk(gaps)
    ensures GroupsOk(groups[1..]) && GapsOk(gaps[1..])
  {
    assert forall k :: 0 <= k < |groups| - 1 ==> groups[1..][k] == groups[k + 1];
    assert forall k :: 0 <= k < |gaps| - 1 ==> gaps[1..][k] == gaps[k + 1];
  }

  lemma UnitsDistinct()
    ensures DistinctUnits(Units)
  {
  }

  /** Every string the grammar spells is matched, and the match captures exactly its groups. */
  lemma ScanComplete(m: DurationMatch)
    requires WellFormed(m)
    ensures Scan(Render(m)).Some? && Scan(Render(m)).value.groups == m.groups
  {
    UnitsDistinct();
    var text := RenderFrom(Units, m.groups, m.gaps);
    assert Render(m) == m.lead + text;
    ScanFromComplete(Units, m.groups, m.gaps, m.lead);
  }

  // ---------------------------------------------------------------------------
  // Numbers: `int(digits)` and its inverse

  function DigitValue(c: char): nat
    requires IsDigit(c)
  {
    c as int - '0' as int
  }

  function DigitChar(d: nat): (c: char)
    requires d < 10
    ensures IsDigit(c) && DigitValue(c) == d
  {
    ('0' as int + d) as char
  }

  /** `int(ds)` for a run of ASCII digits. */
  function DecimalValue(ds: string): (n: nat)
    requires AllDigits(ds)
    ensures n == 0 <==> forall i :: 0 <= i < |ds| ==> ds[i] == '0'
  {
    if ds == [] then 0 else DecimalValue(ds[..|ds| - 1]) * 10 + DigitValue(ds[|ds| - 1])
  }

  /** The shortest decimal spelling of n, as the printer writes its counts. */
  function DecimalText(n: nat): (ds: string)
    ensures ds != [] && AllDigits(ds)
  {
    if n < 10 then [DigitChar(n)] else DecimalText(n / 10) + [DigitChar(n % 10)]
  }

  lemma {:induction false} DecimalRoundTrip(n: nat)
    ensures DecimalValue(DecimalText(n)) == n
  {
    if n >= 10 {
      var ds := DecimalText(n);
      assert ds[..|ds| - 1] == DecimalText(n / 10);
      DecimalRoundTrip(n / 10);
    }
  }

  // ---------------------------------------------------------------------------
  // Seconds

  /** `int(group or 0)`: an omitted segment counts as zero. */
  function GroupValue(group: Option<string>): nat
    requires group.Some? ==> AllDigits(group.value)
  {
    match group
    case None => 0
    case Some(ds) => DecimalValue(ds)
  }

  /** Line 84: days, hours, minutes and seconds, each weighted by its seconds per unit. */
  function Seconds(m: DurationMatch): (total: nat)
    requires WellFormed(m)
    ensures var days, hours, minutes, seconds :=
              GroupValue(m.groups[0]), GroupValue(m.groups[1]), GroupValue(m.groups[2]), GroupValue(m.groups[3]);
            (total == 0 <==> days == 0 && hours == 0 && minutes == 0 && seconds == 0)
            && total >= 86400 * days && total >= 3600 * hours && total >= 60 * minutes && total >= seconds
  {
    var days, hours, minutes, seconds :=
      GroupValue(m.groups[0]), GroupValue(m.groups[1]), GroupValue(m.groups[2]), GroupValue(m.groups[3]);
    86400 * days + 3600 * hours + 60 * minutes + seconds
  }

  /** Lines 83-84 for a non-empty string: the total seconds, or None when `re.match` finds no match. */
  function ParseDuration(s: string): (r: Option<nat>)
    ensures r.Some? <==> Scan(s).Some?
  {
    match Scan(s)
    case None => None
    case Some(m) => Some(Seconds(m))
  }

  /** Any spelling the pattern accepts parses to the seconds of its own groups. */
  lemma ParseRendered(m: DurationMatch)
    requires WellFormed(m)
    ensures ParseDuration(Render(m)) == Some(Seconds(m))
  {
    ScanComplete(m);
    SameGroupsSameSeconds(Scan(Render(m)).value, m);
  }

  lemma SameGroupsSameSeconds(a: DurationMatch, b: DurationMatch)
    requires WellFormed(a) && WellFormed(b) && a.groups == b.groups
    ensures Seconds(a) == Seconds(b)
  {
  }

  function OptionalText(n: Option<nat>): (g: Option<string>)
    ensures g.Some? ==> g.value != [] && AllDigits(g.value)
  {
    match n
    case None => None
    case Some(k) => Some(DecimalText(k))
  }

  function OrZero(n: Option<nat>): nat {
    match n
    case None => 0
    case Some(k) => k
  }

  lemma CountRoundTrip(n: Option<nat>)
    ensures GroupValue(OptionalText(n)) == OrZero(n)
  {
    if n.Some? { DecimalRoundTrip(n.value); }
  }

  /**
   * A duration written the way the printer writes it: optional day, hour,
   * minute and second counts in that order, with any whitespace around them.
   */
  function Spell(lead: string, counts: seq<Option<nat>>, gaps: seq<string>): (m: DurationMatch)
    requires |counts| == |Units| && |gaps| == |Units| && AllSpace(lead) && GapsOk(gaps)
    ensures WellFormed(m)
  {
    DurationMatch(lead, [OptionalText(counts[0]), OptionalText(counts[1]),
                         OptionalText(counts[2]), OptionalText(counts[3])], gaps)
  }

  /** Days×86400 + hours×3600 + minutes×60 + seconds, an omitted count being 0. */
  function Total(counts: seq<Option<nat>>): nat
    requires |counts| == |Units|
  {
    OrZero(counts[0]) * 86400 + OrZero(counts[1]) * 3600 + OrZero(counts[2]) * 60 + OrZero(counts[3])
  }

  /** Parsing a spelled duration gives the total of its counts. */
  lemma ParseSpelled(lead: string, counts: seq<Option<nat>>, gaps: seq<string>)
    requires |counts| == |Units| && |gaps| == |Units| && AllSpace(lead) && GapsOk(gaps)
    ensures ParseDuration(Render(Spell(lead, counts, gaps))) == Some(Total(counts))
  {
    ParseRendered(Spell(lead, counts, gaps));
    SpelledSeconds(lead, counts, gaps);
  }

  lemma SpelledSeconds(lead: string, counts: seq<Option<nat>>, gaps: seq<string>)
    requires |counts| == |Units| && |gaps| == |Units| && AllSpace(lead) && GapsOk(gaps)
    ensures Seconds(Spell(lead, counts, gaps)) == Total(counts)
  {
    var m := Spell(lead, counts, gaps);
    CountRoundTrip(counts[0]);
    CountRoundTrip(counts[1]);
    CountRoundTrip(counts[2]);
    CountRoundTrip(counts[3]);
  }

  /** The last two units of the grammar written out: m and s, each followed by its gap. */
  lemma RenderLastTwo(g: seq<Option<string>>, w: seq<string>)
    requires |g| == |Units| && |w| == |Units|
    ensures RenderFrom(Units[2..], g[2..], w[2..]) == Piece(g[2], 'm') + w[2] + Piece(g[3], 's') + w[3]
  {
    assert Units[2..] == "ms" && Units[3..] == "s";
    var r3 := RenderFrom("s", g[3..], w[3..]);
    assert g[3..][0] == g[3] && w[3..][0] == w[3] && g[3..][1..] == g[4..] && w[3..][1..] == w[4..];
    assert RenderFrom("", g[4..], w[4..]) == [];
    assert "s"[0] == 's' && "s"[1..] == "";
    assert r3 == Piece(g[3], 's') + w[3] + [];
    assert Piece(g[3], 's') + w[3] + [] == Piece(g[3], 's') + w[3];
    assert g[2..][0] == g[2] && w[2..][0] == w[2] && g[2..][1..] == g[3..] && w[2..][1..] == w[3..];
    assert RenderFrom("ms", g[2..], w[2..]) == Piece(g[2], 'm') + w[2] + r3;
  }

  /** The grammar with its four units written out: d, h, m and s, each followed by its gap. */
  lemma RenderUnrolled(m: DurationMatch)
    requires |m.groups| == |Units| && |m.gaps| == |Units|
    ensures Render(m) == m.lead + Piece(m.groups[0], 'd') + m.gaps[0] + Piece(m.groups[1], 'h') + m.gaps[1]
                        + Piece(m.groups[2], 'm') + m.gaps[2] + Piece(m.groups[3], 's') + m.gaps[3]
  {
    var g, w := m.groups, m.gaps;
    var a, b, c, d := Piece(g[0], 'd'), Piece(g[1], 'h'), Piece(g[2], 'm'), Piece(g[3], 's');
    RenderLastTwo(g, w);
    var r2 := RenderFrom(Units[2..], g[2..], w[2..]);
    assert Units[1..] == "hms" && Units[1..][1..] == Units[2..];
    var r1 := RenderFrom("hms", g[1..], w[1..]);
    assert g[1..][0] == g[1] && w[1..][0] == w[1] && g[1..][1..] == g[2..] && w[1..][1..] == w[2..];
    assert r1 == b + w[1] + r2;
    assert RenderFrom(Units, g, w) == a + w[0] + r1;
    // Re-associate the nested concatenation into one left-to-right chain.
    Associate(m.lead, a, w[0]);
    Associate(m.lead, a + w[0], r1);
    var p0 := m.lead + a + w[0];
    Associate(p0, b, w[1]);
    Associate(p0, b + w[1], r2);
    var p1 := p0 + b + w[1];
    Associate(p1, c, w[2]);
    Associate(p1, c + w[2], d);
    Associate(p1, c + w[2] + d, w[3]);
  }

  /** The match of the sample telemetry's `print_dur`: one day, zero hours and 54 minutes. */
  function SampleMatch(): DurationMatch {
    DurationMatch("  ", [Some("1"), Some("0"), Some("54"), None], ["  ", " ", "", ""])
  }

  lemma SampleMatchWellFormed(m: DurationMatch)
    requires m == SampleMatch()
    ensures WellFormed(m)
  {
  }

  lemma SampleMatchText(m: DurationMatch)
    requires m == SampleMatch()
    ensures |m.groups| == |Units| && |m.gaps| == |Units| && Render(m) == "  1d  0h 54m"
  {
    RenderUnrolled(m);
    SamplePieces(m);
    SampleConcat();
  }

  lemma SamplePieces(m: DurationMatch)
    requires m == SampleMatch()
    ensures |m.groups| == |Units| && |m.gaps| == |Units|
    ensures m.lead == "  " && m.gaps == ["  ", " ", "", ""]
    ensures Piece(m.groups[0], 'd') == "1d" && Piece(m.groups[1], 'h') == "0h"
    ensures Piece(m.groups[2], 'm') == "54m" && Piece(m.groups[3], 's') == ""
  {
  }

  lemma SampleConcat()
    ensures "  " + "1d" + "  " + "0h" + " " + "54m" + "" + "" + "" == "  1d  0h 54m"
  {
  }

  lemma SampleMatchSeconds(m: DurationMatch)
    requires m == SampleMatch()
    ensures WellFormed(m) && Seconds(m) == 89640
  {
    SampleMatchWellFormed(m);
    assert "54"[..1] == "5" && "5"[..0] == "";
    assert GroupValue(m.groups[0]) == 1 && GroupValue(m.groups[1]) == 0;
    assert GroupValue(m.groups[2]) == 54 && GroupValue(m.groups[3]) == 0;
    assert Seconds(m) == 1 * (24 * 60 * 60) + 0 * (60 * 60) + 54 * 60 + 0;
  }

  /** The sample telemetry's elapsed time, "  1d  0h 54m", is 89640 seconds. */
  lemma ExampleDayAndMinutes()
    ensures ParseDuration("  1d  0h 54m") == Some(89640)
  {
    var m := SampleMatch();
    SampleMatchWellFormed(m);
    SampleMatchText(m);
    SampleMatchSeconds(m);
    ParseRendered(m);
  }

  /** "2h 30s": two hours and thirty seconds, the day and minute segments omitted. */
  function HoursMatch(): DurationMatch {
    DurationMatch("", [None, Some("2"), None, Some("30")], ["", " ", "", ""])
  }

  lemma HoursMatchText(m: DurationMatch)
    requires m == HoursMatch()
    ensures |m.groups| == |Units| && |m.gaps| == |Units| && Render(m) == "2h 30s"
  {
    RenderUnrolled(m);
    HoursPieces(m);
    HoursConcat();
  }

  lemma HoursPieces(m: DurationMatch)
    requires m == HoursMatch()
    ensures |m.groups| == |Units| && |m.gaps| == |Units|
    ensures m.lead == "" && m.gaps == ["", " ", "", ""]
    ensures Piece(m.groups[0], 'd') == "" && Piece(m.groups[1], 'h') == "2h"
    ensures Piece(m.groups[2], 'm') == "" && Piece(m.groups[3], 's') == "30s"
  {
  }

  lemma HoursConcat()
    ensures "" + "" + "" + "2h" + " " + "" + "" + "30s" + "" == "2h 30s"
  {
  }

  lemma HoursMatchSeconds(m: DurationMatch)
    requires m == HoursMatch()
    ensures WellFormed(m) && Seconds(m) == 7230
  {
    assert "30"[..1] == "3" && "3"[..0] == "";
    assert GroupValue(m.groups[1]) == 2 && GroupValue(m.groups[3]) == 30;
  }

  /** Hours and seconds with the minutes omitted: "2h 30s" is 7230 seconds. */
  lemma ExampleHoursAndSeconds()
    ensures ParseDuration("2h 30s") == Some(7230)
  {
    var m := HoursMatch();
    HoursMatchText(m);
    HoursMatchSeconds(m);
    ParseRendered(m);
  }

  /**
   * A count not directly followed by a unit letter is never consumed: no
   * segment starts there and `\s*` skips nothing before a digit.
   */
  lemma {:induction false} DetachedCount(units: string, s: string)
    requires SplitDigits(s).0 != []
    requires SplitDigits(s).1 == [] || forall i :: 0 <= i < |units| ==> SplitDigits(s).1[0] != units[i]
    ensures ScanFrom(units, s).None?
  {
    if units != [] {
      assert Segment(s, units[0]).1 == s;
      assert s[0] == SplitDigits(s).0[0];
      assert SplitSpace(s) == ([], s);
      DetachedCount(units[1..], s);
    }
  }

  /** A space between a number and its unit does not match. */
  lemma ExampleSpaceBeforeUnit()
    ensures ParseDuration("1 d") == None
  {
    assert SplitSpace("1 d") == ([], "1 d");
    assert " d"[0] == ' ' && !IsDigit(' ');
    assert SplitDigits(" d") == ([], " d");
    assert "1 d"[0] == '1' && "1 d"[1..] == " d";
    assert SplitDigits("1 d").0 != [] && SplitDigits("1 d").1 == " d";
    DetachedCount(Units, "1 d");
  }
}
