/** SerialReader: the flags start() and stop() set, and the read loop that turns the
    lines arriving on the port into samples for the data callback. Opening the port and
    reading from it are not performed here: what the port does is an input. */
module SerialLink {
  import opened Wrappers
  import opened TelemetryPattern
  import opened LineParser

  /** The reader's state: the port it was made for, the running flag, and whether it
      holds an open connection (serial_conn is set and open). */
  datatype Reader = Reader(port: string, running: bool, open: bool)

  /** A fresh SerialReader: not running, no connection. */
  function NewReader(port: string): Reader {
    Reader(port, false, false)
  }

  /** What serial.Serial(...) did when start() asked it to open the port. */
  datatype OpenOutcome = Opened | OpenFailed(reason: string)

  /** start()'s (success, error_msg) pair together with the reader it leaves behind. */
  datatype StartResult = StartResult(reader: Reader, success: bool, error: Option<string>)

  /** start(): the running flag is raised before the port is tried, and stays raised when
      opening fails. */
  function Start(r: Reader, outcome: OpenOutcome): (res: StartResult)
    ensures res.reader.port == r.port && res.reader.running
    ensures res.success <==> outcome.Opened?
    ensures res.success <==> res.error.None?
    ensures res.success ==> res.reader.open
    ensures !res.success ==> res.reader.open == r.open && res.error == Some(outcome.reason)
  {
    match outcome
    case Opened => StartResult(Reader(r.port, true, true), true, None)
    case OpenFailed(reason) => StartResult(Reader(r.port, true, r.open), false, Some(reason))
  }

  /** stop(): lower the running flag and close the connection if there is one. */
  function Stop(r: Reader): (s: Reader)
    ensures s.port == r.port && !s.running && !s.open
  {
    Reader(r.port, false, false)
  }

  /** Stopping a stopped reader changes nothing. */
  lemma StopIdempotent(r: Reader)
    ensures Stop(Stop(r)) == Stop(r)
  {
  }

  /** A reader that was started and then stopped holds no open port, whether or not the
      port opened, and a fresh reader that failed to open never held one. */
  lemma StartThenStop(port: string, outcome: OpenOutcome)
    ensures var started := Start(NewReader(port), outcome).reader;
            && (outcome.OpenFailed? ==> !started.open && started.running)
            && Stop(started) == NewReader(port)
  {
  }

  /** Every character of s from i up to j is whitespace in the sense of str.isspace(). */
  predicate BlankBetween(s: string, i: nat, j: nat)
    requires i <= j <= |s|
  {
    forall k :: i <= k < j ==> IsSpace(s[k])
  }

  /** Where the text starts once the whitespace from i on is skipped. */
  function SkipSpace(s: string, i: nat): (j: nat)
    requires i <= |s|
    ensures i <= j <= |s| && BlankBetween(s, i, j)
    ensures j < |s| ==> !IsSpace(s[j])
    decreases |s| - i
  {
    if i < |s| && IsSpace(s[i]) then SkipSpace(s, i + 1) else i
  }

  /** Where the text ends once the whitespace before j, down to lo, is dropped. */
  function SkipSpaceBack(s: string, lo: nat, j: nat): (i: nat)
    requires lo <= j <= |s|
    ensures lo <= i <= j && BlankBetween(s, i, j)
    ensures lo < i ==> !IsSpace(s[i - 1])
    decreases j
  {
    if lo < j && IsSpace(s[j - 1]) then SkipSpaceBack(s, lo, j - 1) else j
  }

  /** str.strip() without arguments: remove leading and trailing whitespace. */
  function Strip(s: string): string {
    var a := SkipSpace(s, 0);
    s[a..SkipSpaceBack(s, a, |s|)]
  }

  /** Strip cuts out of s the slice that is left once the whitespace on both sides is
      removed: what goes is whitespace, and what stays neither starts nor ends with it. */
  lemma StripSlice(s: string)
    ensures exists a, b ::
              && 0 <= a <= b <= |s| && Strip(s) == s[a..b]
              && BlankBetween(s, 0, a) && BlankBetween(s, b, |s|)
    ensures Strip(s) != [] ==> !IsSpace(Strip(s)[0]) && !IsSpace(Strip(s)[|Strip(s)| - 1])
  {
    var a := SkipSpace(s, 0);
    var b := SkipSpaceBack(s, a, |s|);
    assert Strip(s) == s[a..b];
    if a < b {
      assert Strip(s)[0] == s[a];
      assert Strip(s)[|Strip(s)| - 1] == s[b - 1];
    }
  }

  /** A line is skipped exactly when it is whitespace only. */
  lemma StripEmptyIff(s: string)
    ensures Strip(s) == [] <==> BlankBetween(s, 0, |s|)
  {
    var a := SkipSpace(s, 0);
    var b := SkipSpaceBack(s, a, |s|);
    if a < |s| {
      assert a < b;
      assert |Strip(s)| == b - a;
    }
  }

  /** Stripping twice strips nothing more. */
  lemma StripIdempotent(s: string)
    ensures Strip(Strip(s)) == Strip(s)
  {
    var t := Strip(s);
    StripSlice(s);
    var a := SkipSpace(t, 0);
    if t != [] {
      assert a == 0;
      assert SkipSpaceBack(t, 0, |t|) == |t|;
    }
  }

  /** The `if line:` guard of the read loop only skips what the parser would reject
      anyway: an empty line carries no sample. */
  lemma EmptyLineHasNoSample()
    ensures Parse("") == None
  {
    NoLabelNoSample("");
  }

  /** What readline() and decode() produced on one turn of the read loop. */
  datatype ReadEvent =
    | Received(text: string)  // a decoded line, possibly empty after a timeout
    | ReadFailed              // readline() or the UTF-8 decode raised
    | Stopped                 // stop() was called from the interface thread

  /** The line parser the loop hands lines to; the reader uses LineParser.Parse. */
  type Parser = string -> Option<Sample>

  /** The sample a received line hands to the callback, if any. */
  function LineSample(text: string, parse: Parser): Option<Sample> {
    var line := Strip(text);
    if line == [] then None else parse(line)
  }

  /** What one received line contributes to the callback: its sample, or nothing. */
  function Emitted(text: string, parse: Parser): seq<Sample> {
    match LineSample(text, parse)
    case Some(sample) => [sample]
    case None => []
  }

  /** The samples the callback receives while the loop runs over events, in order:
      one per received line that parses, up to the first failure or stop. */
  function Deliveries(events: seq<ReadEvent>, parse: Parser): seq<Sample> {
    if events == [] then []
    else match events[0]
      case Received(text) =>
        Emitted(text, parse) + Deliveries(events[1..], parse)
      case ReadFailed => []
      case Stopped => []
  }

  /** How many events the loop reads: up to and including the first one that is not a
      received line. */
  function Consumed(events: seq<ReadEvent>): (n: nat)
    ensures n <= |events|
  {
    if events == [] then 0
    else if events[0].Received? then 1 + Consumed(events[1..])
    else 1
  }

  /** A read failure or a stop ends delivery for good: lines that arrive afterwards are
      lost, since the loop breaks instead of retrying. */
  lemma {:induction false} ExitEndsDelivery(before: seq<ReadEvent>, exit: ReadEvent, after: seq<ReadEvent>, parse: Parser)
    requires forall k :: 0 <= k < |before| ==> before[k].Received?
    requires !exit.Received?
    ensures Deliveries(before + [exit] + after, parse) == Deliveries(before, parse)
    ensures Consumed(before + [exit] + after) == |before| + 1
  {
    if before == [] {
      assert (before + [exit] + after)[0] == exit;
    } else {
      assert (before + [exit] + after)[1..] == before[1..] + [exit] + after;
      ExitEndsDelivery(before[1..], exit, after, parse);
    }
  }

  /** The body of the read loop for one received line: strip it and, when something is
      left, parse it; a sample found goes to the callback. */
  method HandleLine(text: string, parse: Parser) returns (emitted: seq<Sample>)
    ensures emitted == Emitted(text, parse)
    ensures |emitted| <= 1
  {
    emitted := [];
    var line := Strip(text);
    if line != [] {
      var sample := parse(line);
      if sample.Some? {
        emitted := [sample.value];
      }
    }
  }

  /** What the read loop knows after consuming events[..consumed]: every event so far was
      a received line, and what it delivered is the start of Deliveries(events). */
  ghost predicate LoopState(events: seq<ReadEvent>, parse: Parser, consumed: nat, delivered: seq<Sample>) {
    && consumed <= |events|
    && (forall k :: 0 <= k < consumed ==> events[k].Received?)
    && Deliveries(events, parse) == delivered + Deliveries(events[consumed..], parse)
    && Consumed(events) == consumed + Consumed(events[consumed..])
  }

  /** A received line moves the loop one event on. */
  lemma LoopStep(events: seq<ReadEvent>, parse: Parser, c: nat, delivered: seq<Sample>)
    requires LoopState(events, parse, c, delivered) && c < |events| && events[c].Received?
    ensures LoopState(events, parse, c + 1, delivered + Emitted(events[c].text, parse))
  {
    assert events[c..][1..] == events[c + 1..];
  }

  /** A failure or a stop ends the loop with everything delivered. */
  lemma LoopExit(events: seq<ReadEvent>, parse: Parser, c: nat, delivered: seq<Sample>)
    requires LoopState(events, parse, c, delivered) && c < |events| && !events[c].Received?
    ensures Deliveries(events, parse) == delivered && Consumed(events) == c + 1
  {
  }

  /** Running out of events ends the loop with everything delivered. */
  lemma LoopEnd(events: seq<ReadEvent>, parse: Parser, delivered: seq<Sample>)
    requires LoopState(events, parse, |events|, delivered)
    ensures Deliveries(events, parse) == delivered && Consumed(events) == |events|
  {
    assert events[|events|..] == [];
  }

  /** The loop of _read_loop once the reader runs with an open port: read, strip, and
      hand every non-empty line to the parser, whose samples go to the callback, until a
      read fails, stop() is called, or the script ends. */
  method ReadLines(events: seq<ReadEvent>, parse: Parser)
    returns (delivered: seq<Sample>, consumed: nat, stopped: bool)
    ensures delivered == Deliveries(events, parse) && consumed == Consumed(events)
    ensures stopped <==> 0 < consumed && events[consumed - 1].Stopped?
  {
    delivered, consumed := [], 0;
    while consumed < |events|
      invariant LoopState(events, parse, consumed, delivered)
    {
      var event := events[consumed];
      if !event.Received? {
        LoopExit(events, parse, consumed, delivered);
        return delivered, consumed + 1, event.Stopped?;
      }
      var emitted := HandleLine(event.text, parse);
      LoopStep(events, parse, consumed, delivered);
      delivered := delivered + emitted;
      consumed := consumed + 1;
    }
    LoopEnd(events, parse, delivered);
    stopped := false;
    if 0 < consumed {
      assert events[consumed - 1].Received?;
    }
  }

  /** _read_loop: nothing is read unless the reader is running with an open port; each
      line goes through _parse_data. A read failure breaks the loop, leaving the flags as
      they were; a stop lowers them. */
  method ReadLoop(r: Reader, events: seq<ReadEvent>)
    returns (delivered: seq<Sample>, consumed: nat, after: Reader)
    ensures !(r.running && r.open) ==> delivered == [] && consumed == 0 && after == r
    ensures r.running && r.open ==> delivered == Deliveries(events, Parse) && consumed == Consumed(events)
    ensures after == (if 0 < consumed && events[consumed - 1].Stopped? then Stop(r) else r)
  {
    if !(r.running && r.open) {
      return [], 0, r;
    }
    var stopped;
    delivered, consumed, stopped := ReadLines(events, Parse);
    after := if stopped then Stop(r) else r;
  }
}
