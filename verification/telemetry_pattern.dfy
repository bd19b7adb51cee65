/** The telemetry regular expression of SerialReader._parse_data, searched with re.search:

      Pitch:\s*([-\d\.]+)\s*\|\s*Roll:\s*([-\d\.]+)(?:\s*\|\s*Heading:\s*([-\d\.]+))?

    IsMatch states which spans the pattern can match at a start position (the language
    of the regex); MatchAt is the greedy matcher and Search the leftmost scan. Because
    neither the number class nor the literals overlap with whitespace or `|`, every
    boundary except the end of the roll token and the optional heading group is forced,
    and the lemmas show MatchAt picks the match Python's backtracking picks. */
module TelemetryPattern {
  import opened Wrappers
  import opened FloatLiteral

  const PitchLabel: string := "Pitch:"
  const RollLabel: string := "Roll:"
  const HeadingLabel: string := "Heading:"
  const Separator: string := "|"

  /** Python's `\s` on str patterns: the characters for which str.isspace() holds. */
  predicate IsSpace(c: char) {
    || c == ' '
    || '\t' <= c <= '\r'
    || '\U{1C}' <= c <= '\U{1F}'
    || c == '\U{85}' || c == '\U{A0}' || c == '\U{1680}'
    || '\U{2000}' <= c <= '\U{200A}'
    || c == '\U{2028}' || c == '\U{2029}' || c == '\U{202F}' || c == '\U{205F}' || c == '\U{3000}'
  }

  datatype CharClass = Whitespace | NumberChar

  predicate InClass(cls: CharClass, c: char) {
    match cls
    case Whitespace => IsSpace(c)
    case NumberChar => IsNumChar(c)
  }

  /** s[a..b] lies inside s and consists of characters of the class. */
  predicate AllIn(s: string, a: nat, b: nat, cls: CharClass) {
    a <= b <= |s| && forall k :: a <= k < b ==> InClass(cls, s[k])
  }

  predicate HasAt(s: string, i: nat, lit: string) {
    i + |lit| <= |s| && s[i..i + |lit|] == lit
  }

  /** End of the longest run of class characters starting at i: what a greedy `*` reaches. */
  function RunEnd(s: string, i: nat, cls: CharClass): (j: nat)
    requires i <= |s|
    ensures AllIn(s, i, j, cls)
    ensures j == |s| || !InClass(cls, s[j])
    decreases |s| - i
  {
    if i < |s| && InClass(cls, s[i]) then RunEnd(s, i + 1, cls) else i
  }

  /** Any run of class characters from i ends no later than RunEnd, and one that stops
      at a character outside the class ends exactly there. */
  lemma RunEndMaximal(s: string, i: nat, j: nat, cls: CharClass)
    requires i <= |s|
    requires AllIn(s, i, j, cls)
    ensures j <= RunEnd(s, i, cls)
    ensures j == |s| || !InClass(cls, s[j]) ==> RunEnd(s, i, cls) == j
  {
  }

  /** Boundaries of the optional `\s*\|\s*Heading:\s*([-\d\.]+)` group. */
  datatype HeadingSpan = HeadingSpan(bar: nat, key: nat, start: nat, end: nat)

  /** Boundaries of one match: pitch token [pitchStart, pitchEnd), the `|`, the `Roll:`
      label, roll token [rollStart, rollEnd) and the optional heading group. */
  datatype Span = Span(pitchStart: nat, pitchEnd: nat, bar: nat, rollLabel: nat,
                       rollStart: nat, rollEnd: nat, heading: Option<HeadingSpan>)

  ghost predicate HeadingMatch(s: string, from: nat, h: HeadingSpan) {
    && AllIn(s, from, h.bar, Whitespace)
    && HasAt(s, h.bar, Separator)
    && AllIn(s, h.bar + 1, h.key, Whitespace)
    && HasAt(s, h.key, HeadingLabel)
    && AllIn(s, h.key + |HeadingLabel|, h.start, Whitespace)
    && h.start < h.end
    && AllIn(s, h.start, h.end, NumberChar)
  }

  /** The pattern matches s from position i with the boundaries of m. */
  ghost predicate IsMatch(s: string, i: nat, m: Span) {
    && HasAt(s, i, PitchLabel)
    && AllIn(s, i + |PitchLabel|, m.pitchStart, Whitespace)
    && m.pitchStart < m.pitchEnd
    && AllIn(s, m.pitchStart, m.pitchEnd, NumberChar)
    && AllIn(s, m.pitchEnd, m.bar, Whitespace)
    && HasAt(s, m.bar, Separator)
    && AllIn(s, m.bar + 1, m.rollLabel, Whitespace)
    && HasAt(s, m.rollLabel, RollLabel)
    && AllIn(s, m.rollLabel + |RollLabel|, m.rollStart, Whitespace)
    && m.rollStart < m.rollEnd
    && AllIn(s, m.rollStart, m.rollEnd, NumberChar)
    && (m.heading.Some? ==> HeadingMatch(s, m.rollEnd, m.heading.value))
  }

  /** The order in which the regex engine tries the choices the pattern leaves open at a
      fixed start: the longest roll token first, then the optional group before skipping
      it, then the longest heading token. `Outranks(a, b)` holds when a is tried no later
      than b; the forced boundaries agree. */
  ghost predicate Outranks(a: Span, b: Span) {
    && a.pitchStart == b.pitchStart && a.pitchEnd == b.pitchEnd && a.bar == b.bar
    && a.rollLabel == b.rollLabel && a.rollStart == b.rollStart
    && (|| b.rollEnd < a.rollEnd
        || (b.rollEnd == a.rollEnd && HeadingOutranks(a.heading, b.heading)))
  }

  ghost predicate HeadingOutranks(a: Option<HeadingSpan>, b: Option<HeadingSpan>) {
    || b.None?
    || (&& a.Some? && a.value.bar == b.value.bar && a.value.key == b.value.key
        && a.value.start == b.value.start && b.value.end <= a.value.end)
  }

  /** The match re.match would return at position i. */
  ghost predicate Best(s: string, i: nat, m: Span) {
    IsMatch(s, i, m) && forall m' :: IsMatch(s, i, m') ==> Outranks(m, m')
  }

  /** re.match fails at every position of s before n. */
  predicate NoMatchBefore(s: string, n: nat) {
    n <= |s| && forall j: nat :: j < n ==> MatchAt(s, j).None?
  }

  /** The match re.search returns: the best match at the leftmost position that has one. */
  ghost predicate Found(s: string, i: nat, m: Span) {
    Best(s, i, m) && forall j: nat, m' :: j < i ==> !IsMatch(s, j, m')
  }

  /** Greedy matching of the optional heading group from position `from`. */
  function HeadingAt(s: string, from: nat): (r: Option<HeadingSpan>)
    requires from <= |s|
    ensures r.Some? ==> HeadingMatch(s, from, r.value)
  {
    var bar := RunEnd(s, from, Whitespace);
    if !HasAt(s, bar, Separator) then None else
    var key := RunEnd(s, bar + 1, Whitespace);
    if !HasAt(s, key, HeadingLabel) then None else
    var start := RunEnd(s, key + |HeadingLabel|, Whitespace);
    var end := RunEnd(s, start, NumberChar);
    if end == start then None else Some(HeadingSpan(bar, key, start, end))
  }

  /** Greedy matching of the whole pattern at position i. */
  function MatchAt(s: string, i: nat): (r: Option<Span>)
    requires i <= |s|
    ensures r.Some? ==> IsMatch(s, i, r.value)
  {
    if !HasAt(s, i, PitchLabel) then None else
    var pitchStart := RunEnd(s, i + |PitchLabel|, Whitespace);
    var pitchEnd := RunEnd(s, pitchStart, NumberChar);
    if pitchEnd == pitchStart then None else
    var bar := RunEnd(s, pitchEnd, Whitespace);
    if !HasAt(s, bar, Separator) then None else
    var rollLabel := RunEnd(s, bar + 1, Whitespace);
    if !HasAt(s, rollLabel, RollLabel) then None else
    var rollStart := RunEnd(s, rollLabel + |RollLabel|, Whitespace);
    var rollEnd := RunEnd(s, rollStart, NumberChar);
    if rollEnd == rollStart then None else
    Some(Span(pitchStart, pitchEnd, bar, rollLabel, rollStart, rollEnd, HeadingAt(s, rollEnd)))
  }

  lemma LiteralStartsOutsideClasses(s: string, i: nat, lit: string)
    requires HasAt(s, i, lit)
    requires |lit| > 0 && !IsSpace(lit[0]) && !IsNumChar(lit[0])
    ensures i < |s| && !IsSpace(s[i]) && !IsNumChar(s[i])
  {
    assert s[i] == s[i..i + |lit|][0];
  }

  /** Every heading group that can match from `from` is the greedy one or a shorter-token
      variant of it. */
  lemma HeadingAtBest(s: string, from: nat, h: HeadingSpan)
    requires from <= |s|
    requires HeadingMatch(s, from, h)
    ensures HeadingOutranks(HeadingAt(s, from), Some(h))
  {
    LiteralStartsOutsideClasses(s, h.bar, Separator);
    RunEndMaximal(s, from, h.bar, Whitespace);
    LiteralStartsOutsideClasses(s, h.key, HeadingLabel);
    RunEndMaximal(s, h.bar + 1, h.key, Whitespace);
    RunEndMaximal(s, h.key + |HeadingLabel|, h.start, Whitespace);
    RunEndMaximal(s, h.start, h.end, NumberChar);
  }

  /** The boundaries before the roll token are forced: they are where the greedy runs end. */
  lemma ForcedPitch(s: string, i: nat, m: Span)
    requires IsMatch(s, i, m)
    ensures m.pitchStart == RunEnd(s, i + |PitchLabel|, Whitespace)
    ensures m.pitchEnd == RunEnd(s, m.pitchStart, NumberChar)
    ensures m.bar == RunEnd(s, m.pitchEnd, Whitespace)
  {
    RunEndMaximal(s, i + |PitchLabel|, m.pitchStart, Whitespace);
    LiteralStartsOutsideClasses(s, m.bar, Separator);
    if m.pitchEnd < m.bar {
      assert IsSpace(s[m.pitchEnd]);
    }
    RunEndMaximal(s, m.pitchStart, m.pitchEnd, NumberChar);
    RunEndMaximal(s, m.pitchEnd, m.bar, Whitespace);
  }

  lemma ForcedRoll(s: string, i: nat, m: Span)
    requires IsMatch(s, i, m)
    ensures m.rollLabel == RunEnd(s, m.bar + 1, Whitespace)
    ensures m.rollStart == RunEnd(s, m.rollLabel + |RollLabel|, Whitespace)
    ensures m.rollEnd <= RunEnd(s, m.rollStart, NumberChar)
  {
    LiteralStartsOutsideClasses(s, m.rollLabel, RollLabel);
    RunEndMaximal(s, m.bar + 1, m.rollLabel, Whitespace);
    RunEndMaximal(s, m.rollLabel + |RollLabel|, m.rollStart, Whitespace);
    RunEndMaximal(s, m.rollStart, m.rollEnd, NumberChar);
  }

  /** MatchAt, run by run: where each greedy run stops determines the span. */
  lemma MatchAtRuns(s: string, i: nat, pitchStart: nat, pitchEnd: nat, bar: nat,
                    rollLabel: nat, rollStart: nat, rollEnd: nat)
    requires i <= |s| && HasAt(s, i, PitchLabel)
    requires RunEnd(s, i + |PitchLabel|, Whitespace) == pitchStart
    requires RunEnd(s, pitchStart, NumberChar) == pitchEnd && pitchEnd != pitchStart
    requires RunEnd(s, pitchEnd, Whitespace) == bar && HasAt(s, bar, Separator)
    requires RunEnd(s, bar + 1, Whitespace) == rollLabel && HasAt(s, rollLabel, RollLabel)
    requires RunEnd(s, rollLabel + |RollLabel|, Whitespace) == rollStart
    requires RunEnd(s, rollStart, NumberChar) == rollEnd && rollEnd != rollStart
    ensures MatchAt(s, i) == Some(Span(pitchStart, pitchEnd, bar, rollLabel, rollStart, rollEnd, HeadingAt(s, rollEnd)))
  {
    var r := MatchAt(s, i);
    assert r.Some?;
    assert r.value.pitchStart == pitchStart;
    assert r.value.pitchEnd == pitchEnd;
    assert r.value.bar == bar;
    assert r.value.rollLabel == rollLabel;
    assert r.value.rollStart == rollStart;
    assert r.value.rollEnd == rollEnd;
  }

  /** Where a match at i exists, the greedy matcher agrees with it up to the roll token,
      which it takes at its longest. */
  lemma MatchAtAgrees(s: string, i: nat, m: Span)
    requires IsMatch(s, i, m)
    ensures var rollEnd := RunEnd(s, m.rollStart, NumberChar);
            && m.rollEnd <= rollEnd
            && MatchAt(s, i) == Some(Span(m.pitchStart, m.pitchEnd, m.bar, m.rollLabel, m.rollStart,
                                          rollEnd, HeadingAt(s, rollEnd)))
  {
    ForcedPitch(s, i, m);
    ForcedRoll(s, i, m);
    var rollEnd := RunEnd(s, m.rollStart, NumberChar);
    MatchAtRuns(s, i, m.pitchStart, m.pitchEnd, m.bar, m.rollLabel, m.rollStart, rollEnd);
  }

  /** Every match at i is outranked by the greedy one, so MatchAt finds a match exactly
      when the pattern can match at i, and the one it finds is Python's. */
  lemma MatchAtBest(s: string, i: nat, m: Span)
    requires IsMatch(s, i, m)
    ensures MatchAt(s, i).Some?
    ensures Outranks(MatchAt(s, i).value, m)
  {
    MatchAtAgrees(s, i, m);
    var rollEnd := RunEnd(s, m.rollStart, NumberChar);
    if m.rollEnd == rollEnd && m.heading.Some? {
      HeadingAtBest(s, rollEnd, m.heading.value);
    }
  }

  /** Two matches that outrank each other are the same match. */
  lemma OutranksAntisymmetric(a: Span, b: Span)
    requires Outranks(a, b) && Outranks(b, a)
    ensures a == b
  {
  }

  /** re.search: the first position from `from` on at which the greedy matcher succeeds. */
  function Search(s: string, from: nat): (r: Option<(nat, Span)>)
    requires from <= |s|
    ensures r.Some? ==> from <= r.value.0 <= |s| && MatchAt(s, r.value.0) == Some(r.value.1)
    ensures forall j :: from <= j <= |s| && (r.None? || j < r.value.0) ==> MatchAt(s, j).None?
    decreases |s| - from
  {
    match MatchAt(s, from)
    case Some(m) => Some((from, m))
    case None => if from == |s| then None else Search(s, from + 1)
  }

  /** Search returns exactly re.search's match, and fails exactly when the pattern
      matches nowhere in s. */
  lemma SearchIsLeftmostBest(s: string)
    ensures Search(s, 0).Some? ==> Found(s, Search(s, 0).value.0, Search(s, 0).value.1)
    ensures Search(s, 0).None? <==> forall j: nat, m :: !IsMatch(s, j, m)
  {
    var r := Search(s, 0);
    forall j: nat, m | IsMatch(s, j, m) && (r.None? || j < r.value.0)
      ensures false
    {
      MatchAtBest(s, j, m);
    }
    if r.Some? {
      var (i, m) := r.value;
      forall m' | IsMatch(s, i, m')
        ensures Outranks(m, m')
      {
        MatchAtBest(s, i, m');
      }
    }
  }

  /** At most one match is re.search's. */
  lemma FoundUnique(s: string, i: nat, m: Span, i': nat, m': Span)
    requires Found(s, i, m) && Found(s, i', m')
    ensures i == i' && m == m'
  {
    if i < i' {
      assert false;
    } else if i' < i {
      assert false;
    } else {
      OutranksAntisymmetric(m, m');
    }
  }
}
