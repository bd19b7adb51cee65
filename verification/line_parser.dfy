/** SerialReader._parse_data: one telemetry line to an optional (pitch, roll, heading)
    sample. The first match of the telemetry pattern is converted token by token with
    float(); a token float() rejects drops the whole line, and a line without the
    optional heading group gets heading 0.0. */
module LineParser {
  import opened Wrappers
  import opened FloatLiteral
  import opened TelemetryPattern

  /** One orientation reading, in degrees. */
  datatype Sample = Sample(pitch: real, roll: real, heading: real)

  /** The value App starts from before any reading arrives. */
  const ZeroSample := Sample(0.0, 0.0, 0.0)

  /** The text of a capture group of the number class. */
  function Token(s: string, a: nat, b: nat): (t: string)
    requires AllIn(s, a, b, NumberChar)
    ensures |t| == b - a
    ensures AllNumChars(t)
  {
    assert forall k :: 0 <= k < b - a ==> s[a..b][k] == s[a + k];
    s[a..b]
  }

  /** float() of the capture groups of a match; None when any of them raises ValueError. */
  function Convert(line: string, i: nat, m: Span): Option<Sample>
    requires IsMatch(line, i, m)
  {
    var pitch := ParseFloat(Token(line, m.pitchStart, m.pitchEnd));
    var roll := ParseFloat(Token(line, m.rollStart, m.rollEnd));
    var heading :=
      if m.heading.None? then Some(0.0)
      else ParseFloat(Token(line, m.heading.value.start, m.heading.value.end));
    if pitch.Some? && roll.Some? && heading.Some? then
      Some(Sample(pitch.value, roll.value, heading.value))
    else
      None
  }

  /** _parse_data: the sample handed to the data callback, or None when nothing is handed on. */
  function Parse(line: string): Option<Sample> {
    match Search(line, 0)
    case None => None
    case Some((i, m)) => Convert(line, i, m)
  }

  /** line[a..b] is the text of the well-formed decimal d. */
  ghost predicate Denotes(line: string, a: nat, b: nat, d: Decimal) {
    a <= b <= |line| && WellFormed(d) && line[a..b] == Format(d)
  }

  ghost predicate IsLiteralAt(line: string, a: nat, b: nat) {
    a <= b <= |line| && IsFloatLiteral(line[a..b])
  }

  /** Every captured token of m is accepted by float(). */
  ghost predicate TokensAreLiterals(line: string, m: Span) {
    && IsLiteralAt(line, m.pitchStart, m.pitchEnd)
    && IsLiteralAt(line, m.rollStart, m.rollEnd)
    && (m.heading.Some? ==> IsLiteralAt(line, m.heading.value.start, m.heading.value.end))
  }

  function HeadingOrZero(h: Option<Decimal>): real
    requires h.Some? ==> WellFormed(h.value)
  {
    match h
    case None => 0.0
    case Some(d) => Value(d)
  }

  /** Parse converts exactly re.search's match. */
  lemma ParseConvertsFound(line: string, i: nat, m: Span)
    requires Found(line, i, m)
    ensures Parse(line) == Convert(line, i, m)
  {
    SearchIsLeftmostBest(line);
    var (i', m') := Search(line, 0).value;
    FoundUnique(line, i, m, i', m');
  }

  /** When re.search's match has literal tokens, the sample holds their exact values,
      and heading 0.0 when the heading group did not match. */
  lemma ParseFoundSample(line: string, i: nat, m: Span, p: Decimal, r: Decimal, h: Option<Decimal>)
    requires Found(line, i, m)
    requires Denotes(line, m.pitchStart, m.pitchEnd, p)
    requires Denotes(line, m.rollStart, m.rollEnd, r)
    requires h.Some? <==> m.heading.Some?
    requires h.Some? ==> Denotes(line, m.heading.value.start, m.heading.value.end, h.value)
    ensures Parse(line) == Some(Sample(Value(p), Value(r), HeadingOrZero(h)))
  {
    ParseConvertsFound(line, i, m);
    ParseFloatFormat(p);
    ParseFloatFormat(r);
    if h.Some? {
      ParseFloatFormat(h.value);
    }
  }

  lemma ParseSomeFromFound(line: string)
    requires Parse(line).Some?
    ensures Search(line, 0).Some?
    ensures Found(line, Search(line, 0).value.0, Search(line, 0).value.1)
    ensures TokensAreLiterals(line, Search(line, 0).value.1)
  {
    SearchIsLeftmostBest(line);
    var (i, m) := Search(line, 0).value;
    ParseFloatIff(Token(line, m.pitchStart, m.pitchEnd));
    ParseFloatIff(Token(line, m.rollStart, m.rollEnd));
    if m.heading.Some? {
      ParseFloatIff(Token(line, m.heading.value.start, m.heading.value.end));
    }
  }

  lemma FoundLiteralsParse(line: string, i: nat, m: Span)
    requires Found(line, i, m) && TokensAreLiterals(line, m)
    ensures Parse(line).Some?
  {
    ParseConvertsFound(line, i, m);
    ParseFloatIff(Token(line, m.pitchStart, m.pitchEnd));
    ParseFloatIff(Token(line, m.rollStart, m.rollEnd));
    if m.heading.Some? {
      ParseFloatIff(Token(line, m.heading.value.start, m.heading.value.end));
    }
  }

  /** A line yields a sample exactly when re.search finds a match whose tokens float()
      all accepts; a single rejected token drops the whole line. */
  lemma ParseSomeIff(line: string)
    ensures Parse(line).Some? <==> exists i: nat, m :: Found(line, i, m) && TokensAreLiterals(line, m)
  {
    if Parse(line).Some? {
      ParseSomeFromFound(line);
    }
    forall i: nat, m | Found(line, i, m) && TokensAreLiterals(line, m)
      ensures Parse(line).Some?
    {
      FoundLiteralsParse(line, i, m);
    }
  }

  /** A line on which the pattern matches nowhere yields nothing. */
  lemma ParseNoMatch(line: string)
    requires forall j: nat, m :: !IsMatch(line, j, m)
    ensures Parse(line) == None
  {
    SearchIsLeftmostBest(line);
  }

  /** The line format the firmware prints, with or without the heading field. */
  function Render(p: Decimal, r: Decimal, h: Option<Decimal>): string {
    "Pitch: " + Format(p) + " | Roll: " + Format(r) + HeadingText(h)
  }

  function HeadingText(h: Option<Decimal>): string {
    match h
    case None => ""
    case Some(d) => " | Heading: " + Format(d)
  }

  /** If the text from a starts with x + y, then x sits at a and y follows it. */
  lemma DropPrefix(s: string, a: nat, x: string, y: string)
    requires a <= |s| && s[a..] == x + y
    ensures a + |x| <= |s|
    ensures s[a..a + |x|] == x
    ensures s[a + |x|..] == y
  {
    assert s[a..a + |x|] == s[a..][..|x|];
    assert s[a + |x|..] == s[a..][|x|..];
  }

  lemma LiteralAt(s: string, a: nat, lit: string, rest: string)
    requires a <= |s| && s[a..] == lit + rest
    ensures HasAt(s, a, lit)
    ensures forall k :: 0 <= k < |lit| ==> s[a + k] == lit[k]
    ensures s[a + |lit|..] == rest
  {
    DropPrefix(s, a, lit, rest);
    forall k | 0 <= k < |lit|
      ensures s[a + k] == lit[k]
    {
      assert s[a + k] == s[a..a + |lit|][k];
    }
  }

  /** A literal token at a followed by a non-number character is exactly what
      `[-\d\.]+` takes from a. */
  lemma TokenAt(s: string, a: nat, d: Decimal, rest: string)
    requires WellFormed(d)
    requires a <= |s| && s[a..] == Format(d) + rest
    requires rest == [] || !IsNumChar(rest[0])
    ensures Denotes(s, a, a + |Format(d)|, d)
    ensures IsNumChar(s[a]) && !IsSpace(s[a])
    ensures RunEnd(s, a, NumberChar) == a + |Format(d)|
    ensures s[a + |Format(d)|..] == rest
  {
    var F := Format(d);
    DropPrefix(s, a, F, rest);
    FormatIsNumChars(d);
    forall k | a <= k < a + |F|
      ensures InClass(NumberChar, s[k])
    {
      assert s[k] == s[a..a + |F|][k - a];
    }
    if rest != [] {
      assert s[a + |F|] == s[a + |F|..][0];
    }
    RunEndMaximal(s, a, a + |F|, NumberChar);
  }

  /** Any piece of a literal found at a is found at the matching offset. */
  lemma LiteralPart(s: string, a: nat, lit: string, i: nat, j: nat)
    requires HasAt(s, a, lit) && i <= j <= |lit|
    ensures HasAt(s, a + i, lit[i..j])
  {
    forall k | 0 <= k < j - i
      ensures s[a + i..a + j][k] == lit[i..j][k]
    {
      assert s[a + i + k] == s[a..a + |lit|][i + k];
    }
  }

  /** A single blank at a, followed by a non-blank, is exactly what `\s*` skips from a. */
  lemma OneSpace(s: string, a: nat)
    requires a + 1 < |s| && s[a] == ' ' && !IsSpace(s[a + 1])
    ensures RunEnd(s, a, Whitespace) == a + 1
  {
    RunEndMaximal(s, a, a + 1, Whitespace);
  }

  /** The matcher's steps over "Pitch: " at n. */
  lemma PitchHead(s: string, n: nat, rest: string)
    requires n <= |s| && s[n..] == "Pitch: " + rest
    requires rest != [] && !IsSpace(rest[0])
    ensures HasAt(s, n, PitchLabel)
    ensures RunEnd(s, n + |PitchLabel|, Whitespace) == n + 7
    ensures s[n + 7..] == rest
  {
    LiteralAt(s, n, "Pitch: ", rest);
    LiteralPart(s, n, "Pitch: ", 0, 6);
    assert "Pitch: "[0..6] == PitchLabel;
    assert s[n + 7] == rest[0];
    OneSpace(s, n + 6);
  }

  /** The matcher's steps over " | Roll: " at a. */
  lemma RollSeparator(s: string, a: nat, rest: string)
    requires a <= |s| && s[a..] == " | Roll: " + rest
    requires rest != [] && !IsSpace(rest[0])
    ensures RunEnd(s, a, Whitespace) == a + 1
    ensures HasAt(s, a + 1, Separator)
    ensures RunEnd(s, a + 2, Whitespace) == a + 3
    ensures HasAt(s, a + 3, RollLabel)
    ensures RunEnd(s, a + 3 + |RollLabel|, Whitespace) == a + 9
    ensures s[a + 9..] == rest
  {
    LiteralAt(s, a, " | Roll: ", rest);
    LiteralPart(s, a, " | Roll: ", 1, 2);
    assert " | Roll: "[1..2] == Separator;
    LiteralPart(s, a, " | Roll: ", 3, 8);
    assert " | Roll: "[3..8] == RollLabel;
    assert s[a + 9] == rest[0];
    OneSpace(s, a);
    OneSpace(s, a + 2);
    OneSpace(s, a + 8);
  }

  /** The matcher's steps over " | Heading: " at a. */
  lemma HeadingSeparator(s: string, a: nat, rest: string)
    requires a <= |s| && s[a..] == " | Heading: " + rest
    requires rest != [] && !IsSpace(rest[0])
    ensures RunEnd(s, a, Whitespace) == a + 1
    ensures HasAt(s, a + 1, Separator)
    ensures RunEnd(s, a + 2, Whitespace) == a + 3
    ensures HasAt(s, a + 3, HeadingLabel)
    ensures RunEnd(s, a + 3 + |HeadingLabel|, Whitespace) == a + 12
    ensures s[a + 12..] == rest
  {
    LiteralAt(s, a, " | Heading: ", rest);
    LiteralPart(s, a, " | Heading: ", 1, 2);
    assert " | Heading: "[1..2] == Separator;
    LiteralPart(s, a, " | Heading: ", 3, 11);
    assert " | Heading: "[3..11] == HeadingLabel;
    assert s[a + 12] == rest[0];
    OneSpace(s, a);
    OneSpace(s, a + 2);
    OneSpace(s, a + 11);
  }

  lemma FormatStartsToken(d: Decimal, rest: string)
    requires WellFormed(d)
    ensures Format(d) + rest != [] && IsNumChar((Format(d) + rest)[0])
    ensures !IsSpace((Format(d) + rest)[0])
  {
    FormatIsNumChars(d);
    assert (Format(d) + rest)[0] == Format(d)[0];
  }

  /** Without a `|` after the roll token the optional heading group is skipped. */
  lemma NoHeadingGroup(s: string, re: nat, post: string)
    requires post == [] || !IsNumChar(post[0])
    requires forall k :: 0 <= k < |post| ==> post[k] != '|'
    requires re <= |s| && s[re..] == post
    ensures re == |s| || !IsNumChar(s[re])
    ensures HeadingAt(s, re) == None
  {
    var bar := RunEnd(s, re, Whitespace);
    if bar < |s| {
      assert s[bar] == s[re..][bar - re] == post[bar - re];
    }
    if re < |s| {
      assert s[re] == s[re..][0] == post[0];
    }
  }

  /** A printed heading field lays out the greedy runs of the heading group. */
  lemma PrintedHeadingGroup(s: string, re: nat, d: Decimal, post: string)
    requires WellFormed(d)
    requires post == [] || !IsNumChar(post[0])
    requires re <= |s| && s[re..] == " | Heading: " + (Format(d) + post)
    ensures HeadingSteps(s, re, re + 12 + |Format(d)|)
    ensures Denotes(s, re + 12, re + 12 + |Format(d)|, d)
  {
    FormatStartsToken(d, post);
    HeadingSeparator(s, re, Format(d) + post);
    TokenAt(s, re + 12, d, post);
  }


  /** The greedy runs over "Pitch: <token> | Roll: <token>" at n, with the pitch token
      ending at pe and the roll token ending at re. */
  ghost predicate Steps(s: string, n: nat, pe: nat, re: nat) {
    && n <= |s| && HasAt(s, n, PitchLabel)
    && RunEnd(s, n + |PitchLabel|, Whitespace) == n + 7
    && RunEnd(s, n + 7, NumberChar) == pe && pe != n + 7
    && RunEnd(s, pe, Whitespace) == pe + 1 && HasAt(s, pe + 1, Separator)
    && RunEnd(s, pe + 2, Whitespace) == pe + 3 && HasAt(s, pe + 3, RollLabel)
    && RunEnd(s, pe + 3 + |RollLabel|, Whitespace) == pe + 9
    && RunEnd(s, pe + 9, NumberChar) == re && re != pe + 9
  }
  /** The greedy runs of a heading group that starts at re and whose number ends at he. */
  ghost predicate HeadingSteps(s: string, re: nat, he: nat) {
    && re <= |s|
    && RunEnd(s, re, Whitespace) == re + 1 && HasAt(s, re + 1, Separator)
    && RunEnd(s, re + 2, Whitespace) == re + 3 && HasAt(s, re + 3, HeadingLabel)
    && RunEnd(s, re + 3 + |HeadingLabel|, Whitespace) == re + 12
    && RunEnd(s, re + 12, NumberChar) == he && he != re + 12
  }

  /** MatchAt, step by step: where each greedy run stops determines the span. */
  lemma MatchAtSteps(s: string, n: nat, pe: nat, re: nat)
    requires Steps(s, n, pe, re)
    ensures MatchAt(s, n) == Some(Span(n + 7, pe, pe + 1, pe + 3, pe + 9, re, HeadingAt(s, re)))
  {
    var ps, bar, rl, rs := n + 7, pe + 1, pe + 3, pe + 9;
    assert bar + 1 == pe + 2 && rl + |RollLabel| == pe + 3 + |RollLabel|;
    MatchAtRuns(s, n, ps, pe, bar, rl, rs, re);
  }

  /** Regroupings of concatenations that the layout lemmas need, stated once. */
  lemma Reassociate<T>(x: seq<T>, a: seq<T>, b: seq<T>, c: seq<T>, d: seq<T>, e: seq<T>, y: seq<T>)
    ensures x + ((((a + b) + c) + d) + e) + y == x + (a + (b + (c + (d + (e + y)))))
    ensures (a + b) + y == a + (b + y)
  {
  }

  /** Where the fields of a rendered line sit. */
  lemma RenderLayout(pre: string, p: Decimal, r: Decimal, h: Option<Decimal>, post: string)
    ensures |pre| <= |pre + Render(p, r, h) + post|
    ensures (pre + Render(p, r, h) + post)[|pre|..]
            == "Pitch: " + (Format(p) + (" | Roll: " + (Format(r) + (HeadingText(h) + post))))
    ensures forall j :: 0 <= j < |pre| ==> (pre + Render(p, r, h) + post)[j] == pre[j]
  {
    var t := "Pitch: " + (Format(p) + (" | Roll: " + (Format(r) + (HeadingText(h) + post))));
    Reassociate(pre, "Pitch: ", Format(p), " | Roll: ", Format(r), HeadingText(h), post);
    DropPrefix(pre + Render(p, r, h) + post, 0, pre, t);
  }

  /** The matcher's steps from "Pitch:" at n up to the roll token; pe is where the
      pitch token ends. */
  lemma PitchPart(s: string, n: nat, p: Decimal, rest: string, pe: nat)
    requires WellFormed(p) && pe == n + 7 + |Format(p)|
    requires rest != [] && !IsSpace(rest[0])
    requires n <= |s| && s[n..] == "Pitch: " + (Format(p) + (" | Roll: " + rest))
    ensures HasAt(s, n, PitchLabel)
    ensures RunEnd(s, n + |PitchLabel|, Whitespace) == n + 7
    ensures RunEnd(s, n + 7, NumberChar) == pe
    ensures RunEnd(s, pe, Whitespace) == pe + 1
    ensures HasAt(s, pe + 1, Separator)
    ensures RunEnd(s, pe + 2, Whitespace) == pe + 3
    ensures HasAt(s, pe + 3, RollLabel)
    ensures RunEnd(s, pe + 3 + |RollLabel|, Whitespace) == pe + 9
    ensures s[pe + 9..] == rest
    ensures Denotes(s, n + 7, pe, p)
  {
    FormatStartsToken(p, " | Roll: " + rest);
    PitchHead(s, n, Format(p) + (" | Roll: " + rest));
    TokenAt(s, n + 7, p, " | Roll: " + rest);
    RollSeparator(s, pe, rest);
  }

  /** The matcher's steps over a roll token with no heading field after it. */
  lemma RollWithoutHeading(s: string, a: nat, r: Decimal, post: string, re: nat)
    requires WellFormed(r) && re == a + |Format(r)|
    requires post == [] || !IsNumChar(post[0])
    requires forall k :: 0 <= k < |post| ==> post[k] != '|'
    requires a <= |s| && s[a..] == Format(r) + post
    ensures RunEnd(s, a, NumberChar) == re
    ensures Denotes(s, a, re, r)
    ensures HeadingAt(s, re) == None
  {
    TokenAt(s, a, r, post);
    NoHeadingGroup(s, re, post);
  }

  /** The matcher's steps over a roll token followed by a heading field. */
  lemma RollWithHeading(s: string, a: nat, r: Decimal, d: Decimal, post: string, re: nat)
    requires WellFormed(r) && re == a + |Format(r)|
    requires a <= |s| && s[a..] == Format(r) + (" | Heading: " + (Format(d) + post))
    ensures RunEnd(s, a, NumberChar) == re
    ensures Denotes(s, a, re, r)
    ensures s[re..] == " | Heading: " + (Format(d) + post)
  {
    var rest := " | Heading: " + (Format(d) + post);
    assert rest[0] == ' ';
    TokenAt(s, a, r, rest);
  }

  /** The greedy matcher finds a printed line without heading at n. */
  lemma LayoutWithoutHeading(s: string, n: nat, p: Decimal, r: Decimal, post: string, pe: nat, re: nat)
    requires WellFormed(p) && WellFormed(r)
    requires pe == n + 7 + |Format(p)| && re == pe + 9 + |Format(r)|
    requires post == [] || !IsNumChar(post[0])
    requires forall k :: 0 <= k < |post| ==> post[k] != '|'
    requires n <= |s| && s[n..] == "Pitch: " + (Format(p) + (" | Roll: " + (Format(r) + post)))
    ensures MatchAt(s, n) == Some(Span(n + 7, pe, pe + 1, pe + 3, pe + 9, re, None))
    ensures Denotes(s, n + 7, pe, p) && Denotes(s, pe + 9, re, r)
  {
    FormatStartsToken(r, post);
    PitchPart(s, n, p, Format(r) + post, pe);
    RollWithoutHeading(s, pe + 9, r, post, re);
    MatchAtSteps(s, n, pe, re);
  }

  /** Where the greedy runs stop on a printed line with heading d at n. */
  lemma LayoutWithHeading(s: string, n: nat, p: Decimal, r: Decimal, d: Decimal, post: string, pe: nat, re: nat)
    requires WellFormed(p) && WellFormed(r) && WellFormed(d)
    requires pe == n + 7 + |Format(p)| && re == pe + 9 + |Format(r)|
    requires post == [] || !IsNumChar(post[0])
    requires n <= |s|
    requires s[n..] == "Pitch: " + (Format(p) + (" | Roll: " + (Format(r) + (" | Heading: " + (Format(d) + post)))))
    ensures Steps(s, n, pe, re)
    ensures Denotes(s, n + 7, pe, p) && Denotes(s, pe + 9, re, r)
    ensures s[re..] == " | Heading: " + (Format(d) + post)
  {
    FormatStartsToken(r, " | Heading: " + (Format(d) + post));
    PitchPart(s, n, p, Format(r) + (" | Heading: " + (Format(d) + post)), pe);
    RollWithHeading(s, pe + 9, r, d, post, re);
  }

  /** The values behind the greedy runs of a line with a heading field. */
  lemma ParseStepsWithHeading(s: string, n: nat, pe: nat, re: nat, he: nat, p: Decimal, r: Decimal, d: Decimal)
    requires Steps(s, n, pe, re) && HeadingSteps(s, re, he) && NoMatchBefore(s, n)
    requires Denotes(s, n + 7, pe, p) && Denotes(s, pe + 9, re, r)
    requires Denotes(s, re + 12, he, d)
    ensures Parse(s) == Some(Sample(Value(p), Value(r), Value(d)))
  {
    HeadingStepsFound(s, n, pe, re, he);
    FoundWithHeading(s, n, pe, re, he, p, r, d);
  }

  /** The greedy runs of a line with a heading field, at the first match, make re.search's match. */
  lemma HeadingStepsFound(s: string, n: nat, pe: nat, re: nat, he: nat)
    requires Steps(s, n, pe, re) && HeadingSteps(s, re, he) && NoMatchBefore(s, n)
    ensures Found(s, n, Span(n + 7, pe, pe + 1, pe + 3, pe + 9, re, Some(HeadingSpan(re + 1, re + 3, re + 12, he))))
  {
    assert HeadingAt(s, re) == Some(HeadingSpan(re + 1, re + 3, re + 12, he));
    MatchAtSteps(s, n, pe, re);
    FirstMatchFound(s, n, Span(n + 7, pe, pe + 1, pe + 3, pe + 9, re, Some(HeadingSpan(re + 1, re + 3, re + 12, he))));
  }

  /** The values behind the greedy runs of a line whose heading field starts at re. */
  lemma ParseStepsThroughHeading(s: string, n: nat, pe: nat, re: nat, p: Decimal, r: Decimal, d: Decimal, post: string)
    requires WellFormed(d) && (post == [] || !IsNumChar(post[0]))
    requires Steps(s, n, pe, re) && NoMatchBefore(s, n)
    requires Denotes(s, n + 7, pe, p) && Denotes(s, pe + 9, re, r)
    requires re <= |s| && s[re..] == " | Heading: " + (Format(d) + post)
    ensures Parse(s) == Some(Sample(Value(p), Value(r), Value(d)))
  {
    var he := re + 12 + |Format(d)|;
    PrintedHeadingGroup(s, re, d, post);
    ParseStepsWithHeading(s, n, pe, re, he, p, r, d);
  }

  /** A match at n with no match before it is re.search's match. */
  lemma FirstMatchFound(s: string, n: nat, m: Span)
    requires n <= |s| && MatchAt(s, n) == Some(m)
    requires NoMatchBefore(s, n)
    ensures Found(s, n, m)
  {
    forall m' | IsMatch(s, n, m')
      ensures Outranks(m, m')
    {
      MatchAtBest(s, n, m');
    }
    forall j: nat, m' | j < n
      ensures !IsMatch(s, j, m')
    {
      if IsMatch(s, j, m') {
        MatchAtBest(s, j, m');
      }
    }
  }

  /** Where no "P" occurs before n, no match starts before n. */
  lemma NoLabelNoMatchBefore(s: string, n: nat)
    requires n <= |s| && forall j :: 0 <= j < n ==> s[j] != 'P'
    ensures NoMatchBefore(s, n)
  {
    forall j: nat | j < n
      ensures MatchAt(s, j) == None
    {
      if j + 6 <= |s| {
        assert s[j..j + 6][0] == s[j];
      }
    }
  }

  /** A printed line without heading at n, with no match before it, reads back as its values. */
  lemma ParsePrintedWithoutHeading(s: string, n: nat, p: Decimal, r: Decimal, post: string)
    requires WellFormed(p) && WellFormed(r)
    requires post == [] || !IsNumChar(post[0])
    requires forall k :: 0 <= k < |post| ==> post[k] != '|'
    requires n <= |s| && s[n..] == "Pitch: " + (Format(p) + (" | Roll: " + (Format(r) + post)))
    requires NoMatchBefore(s, n)
    ensures Parse(s) == Some(Sample(Value(p), Value(r), 0.0))
  {
    var pe := n + 7 + |Format(p)|;
    var re := pe + 9 + |Format(r)|;
    LayoutWithoutHeading(s, n, p, r, post, pe, re);
    ParseFirstMatch(s, n, MatchAt(s, n).value, p, r, None);
  }

  /** The values behind the first match of s, at n. */
  lemma ParseFirstMatch(s: string, n: nat, m: Span, p: Decimal, r: Decimal, h: Option<Decimal>)
    requires n <= |s| && NoMatchBefore(s, n)
    requires MatchAt(s, n) == Some(m)
    requires Denotes(s, m.pitchStart, m.pitchEnd, p)
    requires Denotes(s, m.rollStart, m.rollEnd, r)
    requires h.Some? <==> m.heading.Some?
    requires h.Some? ==> Denotes(s, m.heading.value.start, m.heading.value.end, h.value)
    ensures Parse(s) == Some(Sample(Value(p), Value(r), HeadingOrZero(h)))
  {
    FirstMatchFound(s, n, m);
    ParseFoundSample(s, n, m, p, r, h);
  }

  lemma FoundWithHeading(s: string, n: nat, pe: nat, re: nat, he: nat, p: Decimal, r: Decimal, d: Decimal)
    requires Found(s, n, Span(n + 7, pe, pe + 1, pe + 3, pe + 9, re, Some(HeadingSpan(re + 1, re + 3, re + 12, he))))
    requires Denotes(s, n + 7, pe, p) && Denotes(s, pe + 9, re, r)
    requires Denotes(s, re + 12, he, d)
    ensures Parse(s) == Some(Sample(Value(p), Value(r), Value(d)))
  {
    var m := Span(n + 7, pe, pe + 1, pe + 3, pe + 9, re, Some(HeadingSpan(re + 1, re + 3, re + 12, he)));
    ParseFoundSample(s, n, m, p, r, Some(d));
  }

  /** A printed line with heading d at n, with no match before it, reads back as its values. */
  lemma ParsePrintedWithHeading(s: string, n: nat, p: Decimal, r: Decimal, d: Decimal, post: string)
    requires WellFormed(p) && WellFormed(r) && WellFormed(d)
    requires post == [] || !IsNumChar(post[0])
    requires n <= |s|
    requires s[n..] == "Pitch: " + (Format(p) + (" | Roll: " + (Format(r) + (" | Heading: " + (Format(d) + post)))))
    requires NoMatchBefore(s, n)
    ensures Parse(s) == Some(Sample(Value(p), Value(r), Value(d)))
  {
    var pe := n + 7 + |Format(p)|;
    var re := pe + 9 + |Format(r)|;
    LayoutWithHeading(s, n, p, r, d, post, pe, re);
    ParseStepsThroughHeading(s, n, pe, re, p, r, d, post);
  }

  /** A printed line at n, with no match before it, reads back as its values. */
  lemma ParsePrinted(s: string, n: nat, p: Decimal, r: Decimal, h: Option<Decimal>, post: string)
    requires WellFormed(p) && WellFormed(r) && (h.Some? ==> WellFormed(h.value))
    requires post == [] || !IsNumChar(post[0])
    requires h.None? ==> forall k :: 0 <= k < |post| ==> post[k] != '|'
    requires n <= |s| && s[n..] == "Pitch: " + (Format(p) + (" | Roll: " + (Format(r) + (HeadingText(h) + post))))
    requires NoMatchBefore(s, n)
    ensures Parse(s) == Some(Sample(Value(p), Value(r), HeadingOrZero(h)))
  {
    var tail := HeadingText(h) + post;
    match h {
      case None =>
        assert tail == post;
        ParsePrintedWithoutHeading(s, n, p, r, post);
      case Some(d) =>
        assert tail == " | Heading: " + (Format(d) + post);
        ParsePrintedWithHeading(s, n, p, r, d, post);
    }
  }

  /** The firmware's line format reads back as the printed values: text before it in
      which no match starts, and a tail such as " deg | Dir: NORTE", are ignored. */
  lemma RenderRoundTrip(pre: string, p: Decimal, r: Decimal, h: Option<Decimal>, post: string)
    requires WellFormed(p) && WellFormed(r) && (h.Some? ==> WellFormed(h.value))
    requires NoMatchBefore(pre + Render(p, r, h) + post, |pre|)
    requires post == [] || !IsNumChar(post[0])
    requires h.None? ==> forall k :: 0 <= k < |post| ==> post[k] != '|'
    ensures Parse(pre + Render(p, r, h) + post) == Some(Sample(Value(p), Value(r), HeadingOrZero(h)))
  {
    RenderLayout(pre, p, r, h, post);
    ParsePrinted(pre + Render(p, r, h) + post, |pre|, p, r, h, post);
  }

  /** In particular, a printed line after text without a "P" reads back as its values. */
  lemma RenderAfterPlainText(pre: string, p: Decimal, r: Decimal, h: Option<Decimal>, post: string)
    requires WellFormed(p) && WellFormed(r) && (h.Some? ==> WellFormed(h.value))
    requires forall k :: 0 <= k < |pre| ==> pre[k] != 'P'
    requires post == [] || !IsNumChar(post[0])
    requires h.None? ==> forall k :: 0 <= k < |post| ==> post[k] != '|'
    ensures Parse(pre + Render(p, r, h) + post) == Some(Sample(Value(p), Value(r), HeadingOrZero(h)))
  {
    var s := pre + Render(p, r, h) + post;
    RenderLayout(pre, p, r, h, post);
    NoLabelNoMatchBefore(s, |pre|);
    RenderRoundTrip(pre, p, r, h, post);
  }

  /** One token that float() rejects drops the whole line, whatever the others hold. */
  lemma RejectedTokenDropsLine(line: string, i: nat, m: Span)
    requires Found(line, i, m) && !TokensAreLiterals(line, m)
    ensures Parse(line) == None
  {
    ParseConvertsFound(line, i, m);
    ParseFloatIff(Token(line, m.pitchStart, m.pitchEnd));
    ParseFloatIff(Token(line, m.rollStart, m.rollEnd));
    if m.heading.Some? {
      ParseFloatIff(Token(line, m.heading.value.start, m.heading.value.end));
    }
  }

  /** The documented line, piece by piece. The spelling is checked here, apart from
      Parse, because literal strings and Parse's definition in one proof context make
      the solver's search blow up. */
  lemma SpellDocumented(line: string, p: Decimal, r: Decimal, h: Decimal)
    requires line == "Pitch: 12.34" + " | Roll: -56.78" + " | Heading: 123.45" + " deg | Dir: NORTE"
    requires Format(p) == "12.34" && Format(r) == "-56.78" && Format(h) == "123.45"
    ensures line == "" + Render(p, r, Some(h)) + " deg | Dir: NORTE"
  {
    assert "Pitch: " + Format(p) == "Pitch: 12.34";
    assert " | Roll: " + Format(r) == " | Roll: -56.78";
    assert HeadingText(Some(h)) == " | Heading: 123.45";
    Reassociate([], [], [], [], "Pitch: ", Format(p), " | Roll: " + Format(r));
    assert "Pitch: " + Format(p) + " | Roll: " + Format(r) == "Pitch: " + Format(p) + (" | Roll: " + Format(r));
  }

  /** The line format documented beside _parse_data reads as (12.34, -56.78, 123.45);
      the trailing " deg | Dir: NORTE" is ignored. */
  lemma DocumentedLine(line: string)
    requires line == "Pitch: 12.34" + " | Roll: -56.78" + " | Heading: 123.45" + " deg | Dir: NORTE"
    ensures Parse(line) == Some(Sample(12.34, -56.78, 123.45))
  {
    var p, r, h := Decimal(false, "12", true, "34"), Decimal(true, "56", true, "78"), Decimal(false, "123", true, "45");
    ExamplePitch();
    ExampleRoll();
    ExampleHeading();
    DocumentedLineReads(line, p, r, h);
  }

  /** The documented line read back through the decimals it prints. The decimals are
      taken as parameters so that the proof about Parse never sees the digit strings
      that compute their values. */
  lemma DocumentedLineReads(line: string, p: Decimal, r: Decimal, h: Decimal)
    requires line == "Pitch: 12.34" + " | Roll: -56.78" + " | Heading: 123.45" + " deg | Dir: NORTE"
    requires WellFormed(p) && Format(p) == "12.34" && Value(p) == 12.34
    requires WellFormed(r) && Format(r) == "-56.78" && Value(r) == -56.78
    requires WellFormed(h) && Format(h) == "123.45" && Value(h) == 123.45
    ensures Parse(line) == Some(Sample(12.34, -56.78, 123.45))
  {
    SpellDocumented(line, p, r, h);
    RenderRoundTrip("", p, r, Some(h), " deg | Dir: NORTE");
  }

  /** The spelling of the line without heading, checked apart from Parse for the same
      reason as SpellDocumented. */
  lemma SpellNoHeading(line: string, x: string, y: string)
    requires line == "Pitch: 1.0 | Roll: 2.0"
    requires x == "1.0" && y == "2.0"
    ensures line == "" + ("Pitch: " + x + " | Roll: " + y + "") + ""
  {
  }

  /** Without a heading field the heading is 0.0. */
  lemma NoHeadingLine(line: string)
    requires line == "Pitch: 1.0 | Roll: 2.0"
    ensures Parse(line) == Some(Sample(1.0, 2.0, 0.0))
  {
    var p, r := Decimal(false, "1", true, "0"), Decimal(false, "2", true, "0");
    assert Format(p) == "1.0" && Format(r) == "2.0";
    assert Value(p) == 1.0 by { assert DigitsValue("1") == 1; assert DigitsValue("0") == 0; }
    assert Value(r) == 2.0 by { assert DigitsValue("2") == 2; assert DigitsValue("0") == 0; }
    SpellNoHeading(line, Format(p), Format(r));
    RenderRoundTrip("", p, r, None, "");
  }

  /** Text before the line may itself hold a "P", as long as no match starts in it. */
  lemma StrayLabelPrefix(line: string)
    requires line == "P Pitch: 1.0 | Roll: 2.0"
    ensures Parse(line) == Some(Sample(1.0, 2.0, 0.0))
  {
    var p, r := Decimal(false, "1", true, "0"), Decimal(false, "2", true, "0");
    assert Format(p) == "1.0" && Format(r) == "2.0";
    assert Value(p) == 1.0 by { assert DigitsValue("1") == 1; assert DigitsValue("0") == 0; }
    assert Value(r) == 2.0 by { assert DigitsValue("2") == 2; assert DigitsValue("0") == 0; }
    SpellStrayPrefix(line, Format(p), Format(r));
    StrayPrefixNoMatch(line);
    RenderRoundTrip("P ", p, r, None, "");
  }

  /** The spelling of the line with a stray "P " before it, checked apart from Parse
      for the same reason as SpellDocumented. */
  lemma SpellStrayPrefix(line: string, x: string, y: string)
    requires line == "P Pitch: 1.0 | Roll: 2.0"
    requires x == "1.0" && y == "2.0"
    ensures line == "P " + ("Pitch: " + x + " | Roll: " + y + "") + ""
  {
  }

  /** In "P Pitch: ...", re.match fails at the stray "P" and at the blank after it. */
  lemma StrayPrefixNoMatch(line: string)
    requires line == "P Pitch: 1.0 | Roll: 2.0"
    ensures NoMatchBefore(line, 2)
  {
    forall j: nat | j < 2
      ensures MatchAt(line, j).None?
    {
      assert line[j..j + 6][1 - j] == line[1] == ' ';
      assert !HasAt(line, j, PitchLabel);
    }
  }

  /** Where the greedy matcher fails, no match exists. */
  lemma NoMatchWhere(s: string, j: nat, m: Span)
    requires j <= |s| && MatchAt(s, j) == None
    ensures !IsMatch(s, j, m)
  {
    if IsMatch(s, j, m) {
      MatchAtBest(s, j, m);
    }
  }

  /** A line without a "P" holds no "Pitch:" and yields nothing. */
  lemma NoLabelNoSample(line: string)
    requires forall k :: 0 <= k < |line| ==> line[k] != 'P'
    ensures Parse(line) == None
  {
    forall j: nat, m | true
      ensures !IsMatch(line, j, m)
    {
      if j + 6 <= |line| {
        assert line[j..j + 6][0] == line[j];
      }
    }
    ParseNoMatch(line);
  }

  /** "garbage line" yields nothing. */
  lemma GarbageLine()
    ensures Parse("garbage line") == None
  {
    NoLabelNoSample("garbage line");
  }

  /** When no number character follows "Pitch:" and its blanks, nothing matches there. */
  lemma NoPitchToken(s: string, i: nat)
    requires i <= |s| && HasAt(s, i, PitchLabel)
    requires var ps := RunEnd(s, i + |PitchLabel|, Whitespace); ps == |s| || !IsNumChar(s[ps])
    ensures MatchAt(s, i) == None
  {
  }

  /** A line whose only "P" starts "Pitch: " followed by a character that can start
      neither a blank run nor a number yields nothing. */
  lemma NoPitchTokenNoSample(s: string, rest: string)
    requires s == "Pitch: " + rest
    requires rest != [] && !IsSpace(rest[0]) && !IsNumChar(rest[0])
    requires forall k :: 0 <= k < |rest| ==> rest[k] != 'P'
    ensures Parse(s) == None
  {
    PitchHead(s, 0, rest);
    assert s[7] == rest[0];
    NoPitchToken(s, 0);
    forall j: nat, m | true
      ensures !IsMatch(s, j, m)
    {
      if j == 0 {
        NoMatchWhere(s, 0, m);
      } else if j + 6 <= |s| {
        assert s[j..j + 6][0] == s[j];
        if j < 7 {
          assert s[j] == "Pitch: "[j];
        } else {
          assert s[j] == rest[j - 7];
        }
      }
    }
    ParseNoMatch(s);
  }

  /** "abc" is outside [-\d.], so "Pitch: abc | Roll: 2.0" yields nothing. */
  lemma NonNumericPitch(s: string)
    requires s == "Pitch: abc | Roll: 2.0"
    ensures Parse(s) == None
  {
    var rest := "abc | Roll: 2.0";
    assert s == "Pitch: " + rest;
    NoPitchTokenNoSample(s, rest);
  }
}
