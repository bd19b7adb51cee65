/** The compass needle of _update_ui_loop: green when the heading points north,
    red otherwise. */
module Compass {

  datatype Color = Green | Red

  /** The needle colour for a heading in degrees: north is the half-open sector from
      337.5 up to 22.5 degrees. The heading is compared as it arrives, with no reduction
      to [0, 360). */
  function ArrowColor(heading: real): Color {
    if heading >= 337.5 || heading < 22.5 then Green else Red
  }

  /** d is a whole number of turns. */
  predicate WholeTurns(d: real) {
    (d / 360.0).Floor as real == d / 360.0
  }

  /** a reduced to [0, 360): where the polar axes draw a direction of a degrees. */
  function Wrap(a: real): (w: real)
    ensures 0.0 <= w < 360.0
    ensures WholeTurns(a - w)
  {
    var k := (a / 360.0).Floor;
    a - 360.0 * k as real
  }

  /** How far a heading lies clockwise past the western edge of the north sector. */
  function SectorOffset(heading: real): (o: real)
    ensures 0.0 <= o < 360.0
  {
    Wrap(heading + 22.5)
  }

  lemma WrapInRange(a: real)
    requires 0.0 <= a < 360.0
    ensures Wrap(a) == a
  {
    assert (a / 360.0).Floor == 0;
  }

  lemma WrapOnce(a: real)
    requires 360.0 <= a < 720.0
    ensures Wrap(a) == a - 360.0
  {
    assert (a / 360.0).Floor == 1;
  }

  /** For a heading in [0, 360) the needle is green exactly when the heading lies in the
      45 degree sector centred on north, its western edge included and its eastern edge
      excluded. */
  lemma GreenIffNorthSector(heading: real)
    requires 0.0 <= heading < 360.0
    ensures ArrowColor(heading) == Green <==> SectorOffset(heading) < 45.0
  {
    var a := heading + 22.5;
    if a < 360.0 {
      WrapInRange(a);
    } else {
      WrapOnce(a);
    }
  }

  /** The sector is half open: 337.5 is north, 22.5 is not; south is red. */
  lemma SectorEdges()
    ensures ArrowColor(337.5) == Green && ArrowColor(22.5) == Red && ArrowColor(180.0) == Red
    ensures SectorOffset(337.5) == 0.0 && SectorOffset(22.5) == 45.0
  {
    WrapOnce(360.0);
    WrapInRange(45.0);
  }

  /** Headings outside [0, 360) are all green, wherever they would be drawn: -90 is drawn
      pointing west yet coloured as north. */
  lemma OutOfRangeIsGreen(heading: real)
    requires heading < 0.0 || heading >= 360.0
    ensures ArrowColor(heading) == Green
  {
  }

  lemma WestDrawnGreen()
    ensures ArrowColor(-90.0) == Green
    ensures SectorOffset(-90.0) == 292.5
  {
    WrapInRange(292.5);
    assert Wrap(-67.5) == Wrap(292.5) by {
      assert (-67.5 / 360.0).Floor == -1;
      assert (292.5 / 360.0).Floor == 0;
    }
  }
}
