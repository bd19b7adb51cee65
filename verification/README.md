# Barco-Monitor telemetry core in Dafny

Barco-Monitor is a desktop monitor for an Arduino with an MPU6050 and a compass. It reads
lines such as `Pitch: 12.34 | Roll: -56.78 | Heading: 123.45 deg | Dir: NORTE` from a
serial port and draws a small 3D boat tilted by pitch and roll, next to a compass needle
that points at the heading. Everything it does lives in `main.py`. This project models
the logic of that file:

- `SerialReader._parse_data`, which finds the telemetry pattern in a line and converts
  its tokens with `float()`;
- the flags of `SerialReader.start`/`stop`, and the read loop that strips each line and
  hands it to the parser;
- `App._toggle_connection`, the connect/disconnect state machine behind the button;
- `App._on_new_data`, which overwrites the current reading;
- `App._update_ui_loop`, which draws when connected: it rotates the boat's vertex table
  (`_rotate_vertices`), cuts it into one polygon per face, and colours the needle.

Modules follow the program's structure:

| module | file | models |
|---|---|---|
| `Wrappers` | wrappers.dfy | `Option` |
| `FloatLiteral` | float_literal.dfy | Python `float()` on tokens over `[-\d.]`, with exact decimal values |
| `TelemetryPattern` | telemetry_pattern.dfy | The regex, given three ways. `IsMatch` is the set of spans it can match. `MatchAt` is the greedy matcher. `Search` is the leftmost scan of `re.search`. |
| `LineParser` | line_parser.dfy | `_parse_data` |
| `SerialLink` | serial_link.dfy | `SerialReader`: `start`, `stop`, `str.strip`, `_read_loop` |
| `Mesh` | mesh.dfy | the vertex and face tables, the Rx/Ry rotation, polygon assembly |
| `Compass` | compass.dfy | the needle colour rule and where the polar axes draw a heading |
| `Monitor` | monitor.dfy | `App`: the toggle, the data callback and the redraw tick |

Some inputs to the program are not modelled as computations; the model takes them as
parameters instead:

- **Opening the port.** What `serial.Serial(...)` did is an `OpenOutcome`: `Opened`, or
  `OpenFailed(reason)`.
- **What the port delivers.** `_read_loop` runs over a script of `ReadEvent`s:
  - a decoded line;
  - a read or decode failure;
  - `stop()` being called.
- **`np.cos`/`np.sin` of an angle in degrees.** The tick receives a function
  `trig: real -> Angle`. The rotation lemmas assume only `cos² + sin² = 1`.

Some behaviour of `main.py` is worth knowing before reading the model. All of it follows
from the code:

- **Undecodable line.** A line that is not valid UTF-8 raises inside the `try` of
  `_read_loop` (main.py:47-53), and the `except` ends the loop with `break`. The line is
  not just dropped; see `ReadFailed` and `SerialLink.ExitEndsDelivery`.
- **No failed connection state.** A read error only breaks the loop. `is_connected`
  stays `True`, the button still reads "Desconectar", and nothing is reported to the user.
- **Failed open.** `start()` raises `running` before it tries the port, so a failed open
  leaves `running == True` (see `SerialLink.Start`).
- **Needle colour.** The comment at main.py:326 says the needle is green for north. The
  test at main.py:328 compares the raw heading, without reducing it to [0, 360). A
  heading of -90 is therefore drawn pointing west yet coloured green, and so is every
  negative heading and every heading of 360 or more (see `Compass.WestDrawnGreen` and
  `Compass.OutOfRangeIsGreen`).

## Model

| member | source | states |
|---|---|---|
| FloatLiteral.FormatIsNumChars | main.py:61 | The text of a well-formed decimal is non-empty and lies inside the `[-\d\.]` class, so the pattern can capture it. |
| FloatLiteral.ParseFloat | main.py:64-68 | `float()` on a captured token: the token's sign, digits and point if they form a decimal literal, and a ValueError otherwise. Its contract is given by `ParseFloatFormat`, `ParseFloatOnlyLiterals` and `ParseFloatIff`. |
| FloatLiteral.SplitFormat | main.py:64-68 | Reading back the text of a well-formed decimal gives the same sign, whole digits, point and fraction. |
| FloatLiteral.ParseFloatFormat | main.py:64-68 | `float()` accepts the text of every well-formed decimal and returns exactly its value. |
| FloatLiteral.ParseFloatOnlyLiterals | main.py:64-68 | Whatever `float()` accepts over `[-\d.]` is the text of a well-formed decimal, and the value returned is that decimal's. |
| FloatLiteral.ParseFloatIff | main.py:63-73 | `float()` succeeds on a captured token if and only if the token is a decimal literal. |
| FloatLiteral.RejectedTokens | main.py:63-73 | `"1.2.3"`, `"-"`, `"--1"`, `"."` and `""` are in the class but raise ValueError. |
| FloatLiteral.PartialLiterals | main.py:64-65 | `"1."` reads as 1.0 and `"-.5"` as -0.5, as Python accepts them. |
| FloatLiteral.TrailingPoint | main.py:64-65 | `"1."`, a literal ending in its point, reads as 1.0. |
| FloatLiteral.NoWholePart | main.py:64-65 | `"-.5"`, a signed literal with no digit before its point, reads as -0.5. |
| FloatLiteral.ExamplePitch | main.py:56 | The documented pitch token `12.34` is the literal with value 12.34. |
| FloatLiteral.ExampleRoll | main.py:56 | The documented roll token `-56.78` is the literal with value -56.78. |
| FloatLiteral.ExampleHeading | main.py:56 | The documented heading token `123.45` is the literal with value 123.45. |
| TelemetryPattern.RunEnd | main.py:61 | A greedy `\s*` or `[-\d\.]+` run covers only class characters and stops at the end or at a character outside the class. |
| TelemetryPattern.RunEndMaximal | main.py:61 | No run of class characters from a position is longer than the greedy run, and one that stops at a non-class character is exactly it. |
| TelemetryPattern.HeadingAt | main.py:61 | What the greedy matcher takes for the optional heading group is a match of that group. |
| TelemetryPattern.HeadingAtBest | main.py:61 | Every way the heading group can match is outranked by the greedy one: the same boundaries with a token no longer. |
| TelemetryPattern.MatchAt | main.py:61 | Whatever the greedy matcher returns at a position is a match of the whole pattern there. |
| TelemetryPattern.ForcedPitch | main.py:61 | In any match, the pitch token and the `\|` sit exactly where the greedy runs put them. |
| TelemetryPattern.ForcedRoll | main.py:61 | In any match, the `Roll:` label and the roll token's start are forced, and the roll token is no longer than the greedy run. |
| TelemetryPattern.MatchAtRuns | main.py:61 | When each greedy run ends where the pattern needs it, the greedy matcher returns the span those runs determine. |
| TelemetryPattern.MatchAtAgrees | main.py:61 | Wherever some match exists, the greedy matcher succeeds with the same forced boundaries and the longest roll token. |
| TelemetryPattern.MatchAtBest | main.py:61 | Wherever the pattern can match, the greedy matcher succeeds, and its match outranks every other match there: it is the one Python's backtracking returns. |
| TelemetryPattern.OutranksAntisymmetric | main.py:61 | Two matches that each outrank the other are the same match. |
| TelemetryPattern.Search | main.py:61 | The scan returns the first position from its start at which the greedy matcher succeeds, and no earlier position succeeds. |
| TelemetryPattern.SearchIsLeftmostBest | main.py:61 | For ASCII digits, `re.search` is modelled exactly: the scan returns the best match at the leftmost matching position, and fails if and only if the pattern matches nowhere. |
| TelemetryPattern.FoundUnique | main.py:61 | `re.search` has at most one result for a line. |
| LineParser.Parse | main.py:55-73 | `_parse_data`: the sample converted from the match `re.search` finds, or nothing when there is none. Its contract is given by `ParseConvertsFound`, `ParseSomeIff`, `ParseFoundSample` and `RenderRoundTrip`. |
| LineParser.Convert | main.py:63-73 | Converts the three captured tokens with `float()`, uses 0.0 for a missing heading, and drops the sample when any conversion fails. Its contract is given by `ParseFoundSample`, `ParseSomeFromFound` and `RejectedTokenDropsLine`. |
| LineParser.ParseConvertsFound | main.py:61-68 | The parser converts exactly the match `re.search` returns. |
| LineParser.ParseFoundSample | main.py:61-71 | When the match's tokens are literals, the callback gets their exact values. The heading is 0.0 when the heading group did not match. |
| LineParser.ParseSomeFromFound | main.py:61-73 | A sample implies that the search found a match and that every captured token is a literal. |
| LineParser.FoundLiteralsParse | main.py:61-73 | A found match whose tokens are all literals always yields a sample. |
| LineParser.ParseSomeIff | main.py:61-73 | A line yields a sample if and only if `re.search` finds a match whose captured tokens `float()` all accepts. |
| LineParser.ParseNoMatch | main.py:61-62 | A line on which the pattern matches nowhere yields no sample. |
| LineParser.RejectedTokenDropsLine | main.py:63-73 | A single captured token that `float()` rejects drops the whole line, whatever the other tokens hold. |
| LineParser.RenderRoundTrip | main.py:55-71 | The firmware's line format, with or without the heading field, reads back as the printed values. Three conditions apply. No match of the pattern may start inside the text `pre` before the line. The tail `post` after the line may not start with a number character, which the greedy token would swallow. Without a heading field, `post` may hold no `\|`, which could start a heading group. A tail such as ` deg \| Dir: NORTE` is ignored. |
| LineParser.NoLabelNoMatchBefore | main.py:61 | Where no `P` occurs before a position, no match of the pattern starts before it. |
| LineParser.RenderAfterPlainText | main.py:55-71 | In particular, a printed line after text holding no `P` reads back as its values. |
| LineParser.DocumentedLine | main.py:56 | The documented example line parses to (12.34, -56.78, 123.45). |
| LineParser.NoHeadingLine | main.py:66-68 | `"Pitch: 1.0 \| Roll: 2.0"` parses to (1.0, 2.0) with heading exactly 0.0. |
| LineParser.StrayPrefixNoMatch | main.py:61 | In `"P Pitch: 1.0 \| Roll: 2.0"` no match starts at the stray `P` or at the blank after it. |
| LineParser.StrayLabelPrefix | main.py:61-71 | `"P Pitch: 1.0 \| Roll: 2.0"` parses to (1.0, 2.0, 0.0): `re.search` skips a prefix holding a `P` in which no match starts. |
| LineParser.NoLabelNoSample | main.py:61-62 | A line without a `P` cannot contain `Pitch:`, so it yields no sample. |
| LineParser.GarbageLine | main.py:61-62 | `"garbage line"` yields no sample. |
| LineParser.NoPitchToken | main.py:61 | Wherever `Pitch:` and its blanks are followed by the end of the line or by a character outside `[-\d\.]`, the greedy matcher fails at that position, because `[-\d\.]+` needs one character. |
| LineParser.NoPitchTokenNoSample | main.py:61-62 | A line that is exactly `Pitch: ` followed by a text holding no `P` whose first character starts neither a blank run nor a number yields no sample. |
| LineParser.NonNumericPitch | main.py:61-62 | `"Pitch: abc \| Roll: 2.0"` yields no sample. |
| SerialLink.NewReader | main.py:19-26 | `SerialReader(port)` keeps the port, is not running and holds no connection. Its contract is given by `StartThenStop`, which shows that stopping any started reader returns it to this state, and by `Start`, which builds on it. |
| SerialLink.Start | main.py:28-38 | `start()` always raises `running` and keeps the port. It succeeds if and only if the port opened, and its error message is present if and only if it failed. A failed start carries the reason and opens nothing. |
| SerialLink.Stop | main.py:40-43 | `stop()` lowers `running` and leaves no connection open. |
| SerialLink.StopIdempotent | main.py:40-43 | Calling `stop()` again changes nothing. |
| SerialLink.StartThenStop | main.py:28-43 | A reader that failed to open holds no port yet keeps running, and stopping any started reader returns it to a fresh reader's state. |
| SerialLink.Strip | main.py:48 | `str.strip()` on a decoded line. Its contract is given by `StripSlice`, `StripEmptyIff` and `StripIdempotent`. |
| SerialLink.StripSlice | main.py:48 | `strip()` returns a slice of the line with only whitespace cut at both ends, and the result neither starts nor ends with whitespace. |
| SerialLink.StripEmptyIff | main.py:48-49 | A stripped line is empty, and so skipped, if and only if the line is all whitespace. |
| SerialLink.StripIdempotent | main.py:48 | Stripping twice strips nothing more. |
| SerialLink.EmptyLineHasNoSample | main.py:49-50 | The `if line:` guard skips only what the parser would reject anyway. |
| SerialLink.ExitEndsDelivery | main.py:51-53 | After a read failure or a stop, later lines are never delivered, and the loop reads nothing past that event. |
| SerialLink.LineSample | main.py:48-50 | The sample one received line gives: its parse after stripping, and nothing for an empty line. Its contract is given by `HandleLine` and `EmptyLineHasNoSample`. |
| SerialLink.Deliveries | main.py:45-53 | The samples the loop hands the callback for a script of events, up to the first failure or stop. Its contract is given by `ReadLines` and `ExitEndsDelivery`. |
| SerialLink.HandleLine | main.py:48-50 | One received line hands the callback at most one sample: its parse after stripping, and nothing for an empty line. |
| SerialLink.ReadLines | main.py:45-53 | The loop delivers the samples of the parsed lines in order, up to the first failure or stop. It reports how many events it consumed and whether it was stopped. |
| SerialLink.ReadLoop | main.py:45-53 | Nothing is read unless the reader is running with an open port. Otherwise the parser's samples are delivered as `ReadLines` states. Only a stop lowers the flags; a failure leaves them unchanged. |
| Mesh.Rotation | main.py:266-288 | The combined rotation `R = Ry·Rx` written out entry by entry. Its contract is given by `RotationIsProduct`, `RotationUndone`, `RotationKeepsLength` and `LevelIsIdentity`. |
| Mesh.RotateAll | main.py:290-292 | `np.dot(vertices, R.T)` returns as many rows as the vertex table has; `RotateAllPointwise` states that each row is its vertex rotated. |
| Mesh.RotationIsProduct | main.py:273-288 | The written-out R is the product Ry·Rx that `np.dot(Ry, Rx)` computes. |
| Mesh.RotateAllPointwise | main.py:290-292 | `np.dot(vertices, R.T)` rotates each vertex in place: no row is reordered, dropped or duplicated. |
| Mesh.RollMatrix | main.py:273-278 | Rx, the rotation about X by the roll angle. Its contract is given by `RollUndone` and `RollKeepsLength`, and by `RotationIsProduct`, which places it in R. |
| Mesh.PitchMatrix | main.py:280-285 | Ry, the rotation about Y by the pitch angle. Its contract is given by `PitchUndone` and `PitchKeepsLength`, and by `RotationIsProduct`, which places it in R. |
| Mesh.RollUndone | main.py:273-278 | For a true angle, Rx is undone by its transpose. |
| Mesh.PitchUndone | main.py:280-285 | For a true angle, Ry is undone by its transpose. |
| Mesh.RotationUndone | main.py:273-292 | For true angles, the transposes of Ry and Rx bring every rotated vertex back. |
| Mesh.RollKeepsLength | main.py:273-278 | For a true angle, Rx keeps every vector's length. |
| Mesh.PitchKeepsLength | main.py:280-285 | For a true angle, Ry keeps every vector's length. |
| Mesh.RotationKeepsLength | main.py:273-292 | For true angles, R keeps every vertex's distance from the origin. |
| Mesh.LevelIsIdentity | main.py:270-288 | With pitch and roll both zero, the rotation is the identity. |
| Mesh.RotateAllIdentity | main.py:290-292 | Rotating by the identity leaves the vertex table unchanged. |
| Mesh.TablesConsistent | main.py:95-124 | The boat has 10 vertices and 9 faces. Every face index is in range, and no face repeats a vertex. Every face has 3 to 5 corners, and every vertex is used. |
| Mesh.Polygons | main.py:310 | There is one polygon per face, with as many corners as the face has indices. |
| Mesh.PolygonCorner | main.py:310 | Corner k of polygon i is the vertex that face i names at position k. |
| Mesh.PolygonsOfRotated | main.py:303-310 | Cutting the rotated table into faces gives the faces of the unrotated boat with each corner rotated. |
| Compass.Wrap | main.py:221-222 | Reduces an angle into [0, 360) by whole turns. The cited lines set the drawing convention it relies on: the polar axes run clockwise with north at zero, so a heading and its reduction are drawn in the same direction. |
| Compass.ArrowColor | main.py:326-329 | The needle colour test on the raw heading. Its contract is given by `GreenIffNorthSector`, `SectorEdges` and `OutOfRangeIsGreen`. |
| Compass.GreenIffNorthSector | main.py:326-329 | For a heading in [0, 360), the needle is green if and only if the heading lies in the 45° sector centred on north. The sector includes its western edge and excludes its eastern edge. |
| Compass.SectorEdges | main.py:327-329 | 337.5 is green, while 22.5 and 180 are red; 337.5 and 22.5 sit at offsets 0 and 45 into the sector. |
| Compass.OutOfRangeIsGreen | main.py:327-329 | Every heading below 0 or at or above 360 is green. |
| Compass.WestDrawnGreen | main.py:324-333 | A heading of -90 is drawn pointing west (292.5° into the sector) yet coloured green. |
| Monitor.PortChoices | main.py:231-233 | The port menu is never empty. It lists the devices when there are any, and the placeholder otherwise. |
| Monitor.InitialCoherent | main.py:82-124 | The App starts disconnected with a zero reading and the "Conectar" controls, and every face of its tables can be drawn. |
| Monitor.Toggle | main.py:239-259 | A click connects if and only if it was disconnected, a real port was chosen and the open succeeded. It alerts, with the port and the reason, if and only if that open failed. While disconnected, the placeholder port does nothing; while connected, a click disconnects whatever the menu shows. A connect attempt stores the reader that `start()` left for the selected port, and disconnecting stops the reader. The reading, the last frame and the boat's tables are kept, and the controls keep matching the connection. |
| Monitor.NoPortsNoConnection | main.py:231-243 | While disconnected, with no port present, clicking changes nothing and raises no alert. |
| Monitor.ConnectionAlert | main.py:253 | The error box for a failed open, titled "Error de Conexión" and naming the port and the details. Its contract is given by `Toggle`, which raises it if and only if an open fails, and by `FailedOpenStaysDisconnected`. |
| Monitor.ConnectThenDisconnect | main.py:239-259 | Connecting and then disconnecting restores the controls and keeps the reading, and leaves the reader stopped with its port closed. |
| Monitor.FailedOpenStaysDisconnected | main.py:245-253 | A failed open leaves the App disconnected with unchanged controls and a reader still flagged running but holding no port, and shows the connection alert. |
| Monitor.OnNewData | main.py:261-264 | Each sample overwrites all three readings, and nothing else changes. |
| Monitor.DeliverAll | main.py:261-264 | The callback applied to each delivered sample in turn. Its contract is given by `LastSampleWins`. |
| Monitor.LastSampleWins | main.py:261-264 | After any sequence of deliveries the reading is the last sample, or the old reading when there was none, and nothing else changes. |
| Monitor.AfterReading | main.py:45-71 | After the read loop has delivered the samples of a script, the reading is the last sample delivered, or the old reading when none was. The App stays coherent. |
| Monitor.Orientation | main.py:270-271 | The rotation for a sample, built from its pitch and roll (the heading plays no part). Its contract is given by `Tick`, which draws the current reading with it, and by `LevelBoatAsTabled` and `DrawnBoatIsRigid`. |
| Monitor.Draw | main.py:303-333 | A frame shows the sample and holds one polygon per face, of the face's size. Each corner is the rotated vertex the face names. The needle points at the heading with the colour rule's colour. |
| Monitor.Tick | main.py:294-340 | A disconnected tick changes nothing. A connected tick draws the current reading with its own rotation. No tick changes the connection, the reader, the reading, the controls or the tables. |
| Monitor.TickKeepsCoherent | main.py:294-340 | Ticks keep the App coherent and never change the reading or the connection. |
| Monitor.BoatFrame | main.py:303-329 | With the boat's tables, a connected tick draws 9 polygons of 3 to 5 corners each, with the needle coloured for the current heading. |
| Monitor.LevelBoatAsTabled | main.py:303-310 | A level boat is drawn exactly as the tables give it. |
| Monitor.DrawnBoatIsRigid | main.py:266-310 | For true angles, every drawn corner keeps its distance from the origin and rotates back onto the vertex the table names. |

## Left out

- Serial I/O, port enumeration and UTF-8 decoding (`serial.Serial`, `readline`, `decode`, `list_ports`). These are foreign library calls; their results are the inputs `OpenOutcome`, `ReadEvent` and the device list.
- Threading and the 50 ms `after` rescheduling. The reader thread and the UI loop are modelled as sequential steps, so the unsynchronised three-field update across threads is not modelled.
- `_refresh_ports`, the colour-chooser dialogs (`_choose_face_color`, `_choose_edge_color`), widget and matplotlib configuration, the polar-axis setup apart from the direction convention `Compass.Wrap` relies on, and `build.py`. These are UI plumbing and packaging with no logic to verify.
- The `.1f` text of the three labels, the `print` calls, the window title and the face and edge colours. These are presentation only.
- `np.radians`, `np.cos` and `np.sin`, which are numeric library calls. The tick takes the cosine and sine as the input `trig`.
- FloatLiteral.Value: gives the exact decimal value, without the rounding to the nearest IEEE double that `float()` performs.
- FloatLiteral.IsDigit: `\d` and `float()` accept every Unicode decimal digit; the model accepts ASCII `0`-`9` only.
- Mesh.RotationKeepsLength: holds for exact reals with `cos² + sin² = 1`. NumPy's floating-point results keep lengths only up to rounding, which is not modelled.
- Mesh.RotationUndone: holds for exact reals with `cos² + sin² = 1`. In NumPy's float64 arithmetic the transposes bring a vertex back only up to rounding, which is not modelled.
- Mesh.RollUndone: the same exact-real gap as Mesh.RotationKeepsLength, for one matrix.
- Mesh.PitchUndone: the same exact-real gap as Mesh.RotationKeepsLength, for one matrix.
- Mesh.RollKeepsLength: the same exact-real gap as Mesh.RotationKeepsLength, for one matrix.
- Mesh.PitchKeepsLength: the same exact-real gap as Mesh.RotationKeepsLength, for one matrix.
- Monitor.DrawnBoatIsRigid: holds for exact reals with `cos² + sin² = 1`. The drawn float64 corners keep their lengths and rotate back only up to rounding, which is not modelled.
- Monitor.Tick: the frame records what is drawn (readout, polygons, needle). It does not clear and redraw the axes or call `canvas.draw`.
