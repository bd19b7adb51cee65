/** App: the connect/disconnect button, the data callback, and the periodic redraw of
    the boat and the compass. Widgets are reduced to the state they show; the serial
    port, the clock and the trigonometry are inputs. */
module Monitor {
  import opened Wrappers
  import opened LineParser
  import opened Mesh
  import opened Compass
  import opened SerialLink

  /** The single menu entry offered when no serial port is present. */
  const NoPortsPlaceholder := "No ports found"

  /** _get_serial_ports: the device names of the ports present, or the placeholder. */
  function PortChoices(devices: seq<string>): (choices: seq<string>)
    ensures choices != []
    ensures devices != [] ==> choices == devices
    ensures devices == [] ==> choices == [NoPortsPlaceholder]
  {
    if devices == [] then [NoPortsPlaceholder] else devices
  }

  /** What the connect button and the port menu show. */
  datatype Controls = Controls(buttonText: string, buttonColor: string, portMenuEnabled: bool)

  /** Disconnected: the button offers to connect and a port can be chosen. */
  const ConnectControls := Controls("Conectar", "green", true)

  /** Connected: the button offers to disconnect and the port menu is locked. */
  const DisconnectControls := Controls("Desconectar", "red", false)

  /** The error box shown when a port cannot be opened. */
  datatype Alert = Alert(title: string, message: string)

  function ConnectionAlert(port: string, details: string): Alert {
    Alert("Error de Conexión", "No se pudo conectar al puerto " + port + ".\n\nDetalles: " + details)
  }

  /** One redraw: the three readouts, the boat's polygons and the compass needle. */
  datatype Frame = Frame(readout: Sample, polygons: seq<seq<Vec3>>, arrowHeading: real, arrowColor: Color)

  /** The App's state: is_connected, serial_reader, the current pitch/roll/heading, the
      controls, the last frame drawn, and the boat's vertex and face tables. */
  datatype App = App(
    connected: bool,
    reader: Option<Reader>,
    current: Sample,
    controls: Controls,
    frame: Option<Frame>,
    vertices: seq<Vec3>,
    faces: seq<seq<nat>>)

  /** The App as __init__ leaves it. */
  const Initial := App(false, None, ZeroSample, ConnectControls, None, Vertices, Faces)

  /** The controls match the connection, a connected App holds a running reader with an
      open port, and a disconnected App holds no open port. */
  ghost predicate Coherent(app: App) {
    && app.controls == (if app.connected then DisconnectControls else ConnectControls)
    && (app.connected ==> app.reader.Some? && app.reader.value.running && app.reader.value.open)
    && (!app.connected && app.reader.Some? ==> !app.reader.value.open)
  }

  /** __init__ starts disconnected, at zero, with tables every face of which can be drawn. */
  lemma InitialCoherent()
    ensures Coherent(Initial) && !Initial.connected && Initial.current == ZeroSample
    ensures IndexesInto(Initial.faces, |Initial.vertices|)
  {
    TablesConsistent();
  }

  /** The App after a click, and the alert raised by it, if any. */
  datatype Click = Click(app: App, alert: Option<Alert>)

  /** _toggle_connection, given the port selected in the menu and what opening it does. */
  function Toggle(app: App, selected: string, outcome: OpenOutcome): (r: Click)
    ensures r.app.connected <==> !app.connected && selected != NoPortsPlaceholder && outcome.Opened?
    ensures r.alert.Some? <==> !app.connected && selected != NoPortsPlaceholder && outcome.OpenFailed?
    ensures r.alert.Some? ==> r.alert.value == ConnectionAlert(selected, outcome.reason)
    ensures r.app.current == app.current && r.app.frame == app.frame
    ensures r.app.vertices == app.vertices && r.app.faces == app.faces
    ensures !app.connected && selected != NoPortsPlaceholder ==>
              r.app.reader == Some(Start(NewReader(selected), outcome).reader)
    ensures !app.connected && selected == NoPortsPlaceholder ==> r == Click(app, None)
    ensures app.connected ==> r.app.reader == (if app.reader.Some? then Some(Stop(app.reader.value)) else None)
    ensures Coherent(app) ==> Coherent(r.app)
  {
    if !app.connected then
      if selected == NoPortsPlaceholder then
        Click(app, None)
      else
        var started := Start(NewReader(selected), outcome);
        if started.success then
          Click(app.(connected := true, reader := Some(started.reader), controls := DisconnectControls), None)
        else
          Click(app.(reader := Some(started.reader)), Some(ConnectionAlert(selected, outcome.reason)))
    else
      var stopped := if app.reader.Some? then Some(Stop(app.reader.value)) else None;
      Click(app.(connected := false, reader := stopped, controls := ConnectControls), None)
  }

  /** While disconnected with no port present, the menu offers only the placeholder and
      clicking does nothing at all. */
  lemma NoPortsNoConnection(app: App, outcome: OpenOutcome)
    requires !app.connected
    ensures var selected := PortChoices([])[0];
            Toggle(app, selected, outcome) == Click(app, None)
  {
  }

  /** Connecting and then disconnecting brings the controls back, keeps the readings, and
      leaves the port closed and the reader stopped. */
  lemma ConnectThenDisconnect(app: App, port: string, next: string, outcome: OpenOutcome)
    requires Coherent(app) && !app.connected && port != NoPortsPlaceholder
    ensures var once := Toggle(app, port, Opened);
            var twice := Toggle(once.app, next, outcome);
            && once.app.connected && once.alert == None
            && !twice.app.connected && twice.alert == None
            && twice.app.controls == app.controls
            && twice.app.current == app.current
            && twice.app.reader == Some(NewReader(port))
  {
  }

  /** A failed open leaves the App disconnected with its controls as they were, and no
      port held open. */
  lemma FailedOpenStaysDisconnected(app: App, port: string, reason: string)
    requires Coherent(app) && !app.connected && port != NoPortsPlaceholder
    ensures var r := Toggle(app, port, OpenFailed(reason));
            && !r.app.connected && r.app.controls == app.controls
            && r.app.reader.Some? && !r.app.reader.value.open && r.app.reader.value.running
            && r.alert == Some(ConnectionAlert(port, reason))
  {
  }

  /** _on_new_data: the callback the reader calls with every parsed sample. */
  function OnNewData(app: App, sample: Sample): (r: App)
    ensures r.current == sample
    ensures r.(current := app.current) == app
  {
    app.(current := sample)
  }

  /** The callback called once per sample, in order. */
  function DeliverAll(app: App, samples: seq<Sample>): App
    decreases |samples|
  {
    if samples == [] then app else DeliverAll(OnNewData(app, samples[0]), samples[1..])
  }

  /** The last sample delivered wins, and nothing but the readings changes. */
  lemma {:induction false} LastSampleWins(app: App, samples: seq<Sample>)
    ensures DeliverAll(app, samples).current == (if samples == [] then app.current else samples[|samples| - 1])
    ensures DeliverAll(app, samples).(current := app.current) == app
    decreases |samples|
  {
    if samples != [] {
      LastSampleWins(OnNewData(app, samples[0]), samples[1..]);
      if |samples| > 1 {
        assert samples[1..][|samples| - 2] == samples[|samples| - 1];
      }
    }
  }

  /** The readings after the read loop has run over a script of events: the last line
      that parsed, or the readings from before when none did. */
  lemma AfterReading(app: App, events: seq<ReadEvent>)
    ensures var delivered := Deliveries(events, Parse);
            && DeliverAll(app, delivered).current ==
                 (if delivered == [] then app.current else delivered[|delivered| - 1])
            && (Coherent(app) ==> Coherent(DeliverAll(app, delivered)))
  {
    LastSampleWins(app, Deliveries(events, Parse));
  }

  /** _rotate_vertices' matrix for a sample: pitch about Y after roll about X. trig gives
      the cosine and sine of an angle in degrees. */
  function Orientation(s: Sample, trig: real -> Angle): Mat3 {
    Rotation(trig(s.pitch), trig(s.roll))
  }

  /** The boat and the needle drawn for a sample: every face of the tables becomes a
      polygon whose corners are the vertices it names, rotated. */
  function Draw(s: Sample, rotation: Mat3, vertices: seq<Vec3>, faces: seq<seq<nat>>): (f: Frame)
    requires IndexesInto(faces, |vertices|)
    ensures f.readout == s
    ensures |f.polygons| == |faces|
    ensures forall i :: 0 <= i < |faces| ==> |f.polygons[i]| == |faces[i]|
    ensures forall i, k :: 0 <= i < |faces| && 0 <= k < |faces[i]| ==>
              f.polygons[i][k] == Apply(rotation, vertices[faces[i][k]])
    ensures f.arrowHeading == s.heading && f.arrowColor == ArrowColor(s.heading)
  {
    var rotated := RotateAll(vertices, rotation);
    RotateAllPointwise(vertices, rotation);
    Frame(s, Polygons(rotated, faces), s.heading, ArrowColor(s.heading))
  }

  /** _update_ui_loop, one tick: a disconnected App draws nothing; a connected one draws
      the current sample. The tables are the App's own, so every face index is a vertex. */
  function Tick(app: App, trig: real -> Angle): (r: App)
    requires IndexesInto(app.faces, |app.vertices|)
    ensures !app.connected ==> r == app
    ensures app.connected ==> r.frame == Some(Draw(app.current, Orientation(app.current, trig), app.vertices, app.faces))
    ensures && r.connected == app.connected && r.reader == app.reader && r.current == app.current
            && r.controls == app.controls && r.vertices == app.vertices && r.faces == app.faces
  {
    if app.connected then app.(frame := Some(Draw(app.current, Orientation(app.current, trig), app.vertices, app.faces))) else app
  }

  /** Ticks keep the App coherent and never change the readings or the connection. */
  lemma TickKeepsCoherent(app: App, trig: real -> Angle)
    requires Coherent(app) && IndexesInto(app.faces, |app.vertices|)
    ensures Coherent(Tick(app, trig))
    ensures Tick(app, trig).current == app.current && Tick(app, trig).connected == app.connected
  {
  }

  /** With the boat's own tables a connected tick draws nine polygons of three to five
      corners, and the needle for the current heading. */
  lemma BoatFrame(app: App, trig: real -> Angle)
    requires app.connected && app.vertices == Vertices && app.faces == Faces
    ensures IndexesInto(app.faces, |app.vertices|)
    ensures var f := Tick(app, trig).frame.value;
            && |f.polygons| == 9
            && (forall i :: 0 <= i < 9 ==> 3 <= |f.polygons[i]| <= 5)
            && f.arrowColor == ArrowColor(app.current.heading)
  {
    TablesConsistent();
  }

  /** A level boat is drawn as the tables give it. */
  lemma LevelBoatAsTabled(s: Sample, trig: real -> Angle, vertices: seq<Vec3>, faces: seq<seq<nat>>)
    requires IndexesInto(faces, |vertices|)
    requires trig(s.pitch) == Level && trig(s.roll) == Level
    ensures Draw(s, Orientation(s, trig), vertices, faces).polygons == Polygons(vertices, faces)
  {
    LevelIsIdentity();
    RotateAllIdentity(vertices);
  }

  /** For true angles the drawn boat is a rigid copy of the tabled one: every corner
      keeps its distance from the origin and rotates back onto the tabled vertex. */
  lemma DrawnBoatIsRigid(s: Sample, trig: real -> Angle, vertices: seq<Vec3>, faces: seq<seq<nat>>, i: nat, k: nat)
    requires IndexesInto(faces, |vertices|)
    requires OnUnitCircle(trig(s.pitch)) && OnUnitCircle(trig(s.roll))
    requires i < |faces| && k < |faces[i]|
    ensures var pitch, roll := trig(s.pitch), trig(s.roll);
            var corner := Draw(s, Orientation(s, trig), vertices, faces).polygons[i][k];
            var tabled := vertices[faces[i][k]];
            && Norm2(corner) == Norm2(tabled)
            && Apply(Transpose(RollMatrix(roll)), Apply(Transpose(PitchMatrix(pitch)), corner)) == tabled
  {
    var tabled := vertices[faces[i][k]];
    RotationKeepsLength(trig(s.pitch), trig(s.roll), tabled);
    RotationUndone(trig(s.pitch), trig(s.roll), tabled);
  }
}
