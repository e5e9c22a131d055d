/** A model of the freehand painting canvas of the egui showcase: a list of
    polylines captured from pointer drags, sealed when the drag ends, and
    turned into one polyline draw command per line of two or more points.
    Coordinates are integers, so the translation between absolute and
    canvas-local positions is exact. */
module PaintingModel {

  datatype Option<T> = None | Some(value: T)

  /** An absolute screen position (egui's Pos2). */
  datatype Pos2 = Pos2(x: int, y: int)

  /** A canvas-local offset (egui's Vec2): a position minus the canvas origin. */
  datatype Vec2 = Vec2(x: int, y: int)

  /** `pos - origin`: the canvas-local offset of an absolute position. */
  function Sub(pos: Pos2, origin: Pos2): (v: Vec2)
    ensures Add(origin, v) == pos
  {
    Vec2(pos.x - origin.x, pos.y - origin.y)
  }

  /** `origin + v`: the absolute position of a canvas-local offset, the
      inverse of `Sub`. */
  function Add(origin: Pos2, v: Vec2): (p: Pos2)
  {
    Pos2(origin.x + v.x, origin.y + v.y)
  }

  newtype Byte = b: int | 0 <= b < 256

  /** An RGBA colour, one byte per channel (egui's Color32). */
  datatype Color32 = Color32(r: Byte, g: Byte, b: Byte, a: Byte)

  /** egui's `Color32::LIGHT_BLUE`, an opaque colour. */
  const LightBlue: Color32 := Color32(140, 160, 255, 255)

  /** Line width and colour shared by every drawn line (egui's Stroke). */
  datatype Stroke = Stroke(width: real, color: Color32)

  /** The stroke a new painting starts with. */
  const DefaultStroke: Stroke := Stroke(1.0, LightBlue)

  /** One polyline draw command handed to the painter, in absolute coordinates. */
  datatype PaintCmd = Line(points: seq<Pos2>, stroke: Stroke)

  /** The inputs of one frame of the canvas: the top-left corner of the
      allocated rectangle, whether the drag gesture is active, and the pointer
      position if the pointer is known. */
  datatype Frame = Frame(rectMin: Pos2, active: bool, mousePos: Option<Pos2>)

  type Polyline = seq<Vec2>

  // ---------------------------------------------------------------------------
  // Invariants of the drawing

  /** No two consecutive points of a line are equal. */
  ghost predicate NoRepeats(line: Polyline)
  {
    forall j :: 0 < j < |line| ==> line[j - 1] != line[j]
  }

  /** Every line is free of consecutive repeats, and every line except the
      last, the open one, has been sealed with at least one point. */
  ghost predicate WellFormed(lines: seq<Polyline>)
  {
    && (forall i :: 0 <= i < |lines| ==> NoRepeats(lines[i]))
    && (forall i :: 0 <= i < |lines| - 1 ==> lines[i] != [])
  }

  // ---------------------------------------------------------------------------
  // The per-frame state transition, as a function of the old lines

  /** The drawing with an open line guaranteed: an empty drawing gets one
      empty line. */
  function Seeded(lines: seq<Polyline>): (r: seq<Polyline>)
    ensures |r| > 0
  {
    if lines == [] then [[]] else lines
  }

  /** The open line after receiving canvas-local point `p`: it grows by `p`
      unless `p` is already its last point. */
  function Extend(line: Polyline, p: Vec2): (r: Polyline)
    ensures |r| > 0 && r[|r| - 1] == p
    ensures r == line || r == line + [p]
    ensures r == line <==> (line != [] && line[|line| - 1] == p)
  {
    if line != [] && line[|line| - 1] == p then line else line + [p]
  }

  /** The lines after one frame of the canvas. */
  function Step(lines: seq<Polyline>, f: Frame): (r: seq<Polyline>)
    ensures |r| > 0
    ensures |lines| <= |r|
    ensures forall i :: 0 <= i < |lines| - 1 ==> r[i] == lines[i]
  {
    var s := Seeded(lines);
    var current := s[|s| - 1];
    if f.active then
      match f.mousePos
      case Some(m) => s[..|s| - 1] + [Extend(current, Sub(m, f.rectMin))]
      case None => s
    else if current != [] then s + [[]]
    else s
  }

  /** With the drag active and the pointer known, only the open line changes:
      it receives the canvas-local pointer position, unless that position is
      already its last point. */
  lemma StepActive(lines: seq<Polyline>, rectMin: Pos2, m: Pos2)
    ensures var s := Seeded(lines);
            var r := Step(lines, Frame(rectMin, true, Some(m)));
            var current := s[|s| - 1];
            var p := Sub(m, rectMin);
            && |r| == |s|
            && r[..|r| - 1] == s[..|s| - 1]
            && (r[|r| - 1] == current + [p] || r[|r| - 1] == current)
            && (r[|r| - 1] == current <==> current != [] && current[|current| - 1] == p)
  {
  }

  /** With the drag inactive, a fresh empty line is pushed exactly when the
      open line holds points; otherwise the (seeded) drawing is unchanged. */
  lemma StepInactive(lines: seq<Polyline>, f: Frame)
    requires !f.active
    ensures var s := Seeded(lines);
            && (Step(lines, f) == s + [[]] <==> s[|s| - 1] != [])
            && (Step(lines, f) == s <==> s[|s| - 1] == [])
  {
  }

  /** With the drag active but no pointer position, nothing but the seeding
      happens. */
  lemma StepNoPointer(lines: seq<Polyline>, rectMin: Pos2)
    ensures Step(lines, Frame(rectMin, true, None)) == Seeded(lines)
  {
  }

  /** The first drag sample on an empty drawing starts a line holding only
      that sample. */
  lemma StepFromEmpty(o: Pos2, m: Pos2)
    ensures Step([], Frame(o, true, Some(m))) == [[Sub(m, o)]]
  {
    var s := Seeded([]);
    assert s[..|s| - 1] == [];
    assert Extend(s[|s| - 1], Sub(m, o)) == [Sub(m, o)];
  }

  /** After an active frame with a known pointer, the last point of the open
      line, drawn back in absolute coordinates, is the pointer position. */
  lemma StepTracksPointer(lines: seq<Polyline>, rectMin: Pos2, m: Pos2)
    ensures var r := Step(lines, Frame(rectMin, true, Some(m)));
            var current := r[|r| - 1];
            current != [] && Add(rectMin, current[|current| - 1]) == m
  {
  }

  /** One frame keeps the drawing well formed. */
  lemma StepPreservesWellFormed(lines: seq<Polyline>, f: Frame)
    requires WellFormed(lines)
    ensures WellFormed(Step(lines, f))
  {
  }

  /** Running the same frame twice gives the same drawing as running it once:
      a stationary pointer adds no point, and a second idle frame pushes no
      second empty line. */
  lemma StepIdempotent(lines: seq<Polyline>, f: Frame)
    ensures Step(Step(lines, f), f) == Step(lines, f)
  {
  }

  // ---------------------------------------------------------------------------
  // Several frames in a row

  /** The lines after the given frames, first to last. */
  function Run(lines: seq<Polyline>, frames: seq<Frame>): (r: seq<Polyline>)
    ensures frames != [] ==> r != []
    decreases |frames|
  {
    if frames == [] then lines else Run(Step(lines, frames[0]), frames[1..])
  }

  /** A sealed line (any line but the last) is never changed again by later
      frames, and the drawing never shrinks. */
  lemma {:induction false} RunKeepsSealedLines(lines: seq<Polyline>, frames: seq<Frame>)
    ensures |lines| <= |Run(lines, frames)|
    ensures forall i :: 0 <= i < |lines| - 1 ==> Run(lines, frames)[i] == lines[i]
    decreases |frames|
  {
    if frames != [] {
      var next := Step(lines, frames[0]);
      RunKeepsSealedLines(next, frames[1..]);
    }
  }

  /** Any number of frames keeps the drawing well formed. */
  lemma {:induction false} RunPreservesWellFormed(lines: seq<Polyline>, frames: seq<Frame>)
    requires WellFormed(lines)
    ensures WellFormed(Run(lines, frames))
    decreases |frames|
  {
    if frames != [] {
      StepPreservesWellFormed(lines, frames[0]);
      RunPreservesWellFormed(Step(lines, frames[0]), frames[1..]);
    }
  }

  // ---------------------------------------------------------------------------
  // Draw commands

  /** Absolute positions back in canvas-local coordinates. */
  function ToCanvas(points: seq<Pos2>, origin: Pos2): (r: Polyline)
  {
    seq(|points|, i requires 0 <= i < |points| => Sub(points[i], origin))
  }

  /** A line's points in absolute coordinates: as many points as the line,
      which translate back to the line itself. */
  function ToScreen(line: Polyline, origin: Pos2): (r: seq<Pos2>)
    ensures |r| == |line|
    ensures ToCanvas(r, origin) == line
  {
    seq(|line|, i requires 0 <= i < |line| => Add(origin, line[i]))
  }

  /** The commands emitted for the given lines, in list order: at most one
      per line, each of at least two points and drawn with the given stroke. */
  function Emit(lines: seq<Polyline>, origin: Pos2, stroke: Stroke): (r: seq<PaintCmd>)
    ensures |r| <= |lines|
    ensures forall k :: 0 <= k < |r| ==> |r[k].points| >= 2 && r[k].stroke == stroke
  {
    if lines == [] then []
    else
      var n := |lines| - 1;
      Emit(lines[..n], origin, stroke)
        + (if |lines[n]| >= 2 then [Line(ToScreen(lines[n], origin), stroke)] else [])
  }

  /** The indices of the lines that are drawn: exactly those with at least two
      points, in increasing order. */
  function Drawn(lines: seq<Polyline>): (r: seq<nat>)
    ensures forall k :: 0 <= k < |r| ==> r[k] < |lines|
    ensures forall k, l :: 0 <= k < l < |r| ==> r[k] < r[l]
    ensures forall i :: 0 <= i < |lines| ==> (i in r <==> |lines[i]| >= 2)
  {
    if lines == [] then []
    else
      var n := |lines| - 1;
      Drawn(lines[..n]) + (if |lines[n]| >= 2 then [n] else [])
  }

  /** The emitted commands correspond one to one, in order, to the lines with
      at least two points; each carries that line translated to absolute
      coordinates and the current stroke. */
  lemma {:induction false} EmitMatchesDrawn(lines: seq<Polyline>, origin: Pos2, stroke: Stroke)
    ensures |Emit(lines, origin, stroke)| == |Drawn(lines)|
    ensures forall k :: 0 <= k < |Drawn(lines)| ==>
              Emit(lines, origin, stroke)[k] == Line(ToScreen(lines[Drawn(lines)[k]], origin), stroke)
  {
    if lines != [] {
      var n := |lines| - 1;
      var front := lines[..n];
      EmitMatchesDrawn(front, origin, stroke);
      var cmds, idx := Emit(lines, origin, stroke), Drawn(lines);
      var tailCmds := if |lines[n]| >= 2 then [Line(ToScreen(lines[n], origin), stroke)] else [];
      var tailIdx: seq<nat> := if |lines[n]| >= 2 then [n] else [];
      assert cmds == Emit(front, origin, stroke) + tailCmds;
      assert idx == Drawn(front) + tailIdx;
      forall k | 0 <= k < |idx|
        ensures cmds[k] == Line(ToScreen(lines[idx[k]], origin), stroke)
      {
        if k < |Drawn(front)| {
          assert idx[k] == Drawn(front)[k] && cmds[k] == Emit(front, origin, stroke)[k];
          assert lines[idx[k]] == front[idx[k]];
        }
      }
    }
  }

  /** A line with fewer than two points never yields a command. */
  lemma {:induction false} ShortLinesNotDrawn(lines: seq<Polyline>, origin: Pos2, stroke: Stroke)
    requires forall i :: 0 <= i < |lines| ==> |lines[i]| < 2
    ensures Emit(lines, origin, stroke) == []
  {
    if lines != [] {
      ShortLinesNotDrawn(lines[..|lines| - 1], origin, stroke);
    }
  }

  // ---------------------------------------------------------------------------
  // The component

  /** The painting widget: its lines in canvas-local coordinates and the
      stroke they are drawn with. */
  class Painting {
    var lines: seq<Polyline>
    var stroke: Stroke

    ghost predicate Valid()
      reads this
    {
      WellFormed(lines)
    }

    /** A new painting has no lines and a 1-wide light blue stroke. */
    constructor ()
      ensures lines == [] && stroke == Stroke(1.0, LightBlue)
      ensures Valid()
    {
      lines := [];
      stroke := DefaultStroke;
    }

    /** The controls row; clicking "Clear Painting" discards every line. */
    method UiControl(clearClicked: bool)
      modifies this
      ensures lines == if clearClicked then [] else old(lines)
      ensures stroke == old(stroke)
      ensures old(Valid()) ==> Valid()
    {
      if clearClicked {
        lines := [];
      }
    }

    /** The draw commands for the current lines, in list order. */
    method DrawCommands(rectMin: Pos2) returns (cmds: seq<PaintCmd>)
      ensures cmds == Emit(lines, rectMin, stroke)
    {
      cmds := [];
      var i := 0;
      while i < |lines|
        invariant 0 <= i <= |lines|
        invariant cmds == Emit(lines[..i], rectMin, stroke)
      {
        var line := lines[i];
        assert lines[..i + 1][..i] == lines[..i];
        if |line| >= 2 {
          cmds := cmds + [Line(ToScreen(line, rectMin), stroke)];
        }
        i := i + 1;
      }
      assert lines[..i] == lines;
    }

    /** One frame of the canvas: seed an open line, append the pointer
        position while dragging (skipping a repeat), seal the open line when
        the drag is over, and return the draw commands. */
    method UiContent(rectMin: Pos2, active: bool, mousePos: Option<Pos2>) returns (cmds: seq<PaintCmd>)
      modifies this
      ensures lines == Step(old(lines), Frame(rectMin, active, mousePos))
      ensures stroke == old(stroke)
      ensures |lines| > 0
      ensures old(Valid()) ==> Valid()
      ensures cmds == Emit(lines, rectMin, stroke)
    {
      ghost var before := lines;
      ghost var frame := Frame(rectMin, active, mousePos);
      if lines == [] {
        lines := lines + [[]];
      }
      assert lines == Seeded(before);
      var last := |lines| - 1;
      var currentLine := lines[last];
      if active {
        match mousePos {
          case Some(m) =>
            var canvasPos := Sub(m, rectMin);
            if currentLine == [] || currentLine[|currentLine| - 1] != canvasPos {
              lines := lines[last := currentLine + [canvasPos]];
            }
            assert lines == Seeded(before)[..last] + [Extend(currentLine, canvasPos)];
          case None =>
        }
      } else if currentLine != [] {
        lines := lines + [[]];
      }
      assert lines == Step(before, frame);
      if WellFormed(before) {
        StepPreservesWellFormed(before, frame);
      }
      cmds := DrawCommands(rectMin);
    }
  }

  // ---------------------------------------------------------------------------
  // Worked scenarios

  /** The frames are run one after the other. */
  lemma RunCons(lines: seq<Polyline>, f: Frame, rest: seq<Frame>)
    ensures Run(lines, [f] + rest) == Run(Step(lines, f), rest)
  {
  }

  /** Three samples of one drag, each differing from the one before, then the
      release: one sealed line holding the three canvas-local points,
      followed by a fresh empty line. */
  lemma ScenarioDragThenRelease(o: Pos2, m1: Pos2, m2: Pos2, m3: Pos2)
    requires m1 != m2 && m2 != m3
    ensures Run([], [Frame(o, true, Some(m1)), Frame(o, true, Some(m2)),
                     Frame(o, true, Some(m3)), Frame(o, false, None)])
              == [[Sub(m1, o), Sub(m2, o), Sub(m3, o)], []]
  {
    var a, b, c := Sub(m1, o), Sub(m2, o), Sub(m3, o);
    assert a != b && b != c;
    var f1, f2, f3, f4 := Frame(o, true, Some(m1)), Frame(o, true, Some(m2)),
                          Frame(o, true, Some(m3)), Frame(o, false, None);
    StepFromEmpty(o, m1);
    var l1 := Step([], f1);
    assert l1 == [[a]];
    var l2 := Step(l1, f2);
    assert Extend([a], b) == [a, b];
    assert l2 == [[a, b]] by { assert l1[..0] == []; }
    var l3 := Step(l2, f3);
    assert Extend([a, b], c) == [a, b, c];
    assert l3 == [[a, b, c]] by { assert l2[..0] == []; }
    var l4 := Step(l3, f4);
    assert l4 == [[a, b, c], []];
    RunCons([], f1, [f2, f3, f4]);
    RunCons(l1, f2, [f3, f4]);
    RunCons(l2, f3, [f4]);
    RunCons(l3, f4, []);
    assert [f1] + [f2, f3, f4] == [f1, f2, f3, f4];
    assert [f2] + [f3, f4] == [f2, f3, f4];
    assert [f3] + [f4] == [f3, f4];
    assert [f4] + [] == [f4];
  }

  /** The drawing left by that drag yields one command, whose points are the
      absolute pointer positions of the drag. */
  lemma ScenarioDragDrawn(o: Pos2, m1: Pos2, m2: Pos2, m3: Pos2, stroke: Stroke)
    ensures Emit([[Sub(m1, o), Sub(m2, o), Sub(m3, o)], []], o, stroke) == [Line([m1, m2, m3], stroke)]
  {
    var l: seq<Polyline> := [[Sub(m1, o), Sub(m2, o), Sub(m3, o)], []];
    assert l[..1] == [l[0]] && l[..1][..0] == [];
    assert ToScreen(l[0], o) == [m1, m2, m3];
    assert Emit(l[..1], o, stroke) == [Line([m1, m2, m3], stroke)];
    assert Emit(l, o, stroke) == Emit(l[..1], o, stroke);
  }

  /** A pointer held still for three active frames leaves one point, which
      draws nothing. */
  lemma ScenarioStationaryPointer(o: Pos2, m: Pos2)
    ensures var f := Frame(o, true, Some(m));
            var r := Run([], [f, f, f]);
            r == [[Sub(m, o)]] && Emit(r, o, DefaultStroke) == []
  {
    var f := Frame(o, true, Some(m));
    var l1 := Step([], f);
    StepFromEmpty(o, m);
    StepIdempotent([], f);
    StepIdempotent(l1, f);
    assert Run([], [f, f, f]) == Run(l1, [f, f]);
    assert Run(l1, [f, f]) == Run(l1, [f]);
    assert Run(l1, [f]) == Run(l1, []);
    ShortLinesNotDrawn(l1, o, DefaultStroke);
  }

  /** Clearing mid-drag: two drag frames, a click on "Clear Painting", then
      one more drag frame. The drawing holds only the sample taken after the
      clear, and the stroke is still the default one. */
  method ScenarioClearMidDrag(o: Pos2, m1: Pos2, m2: Pos2, m3: Pos2)
    returns (lines: seq<Polyline>, stroke: Stroke)
    ensures lines == [[Sub(m3, o)]]
    ensures stroke == DefaultStroke
  {
    var painting := new Painting();
    var _ := painting.UiContent(o, true, Some(m1));
    var _ := painting.UiContent(o, true, Some(m2));
    painting.UiControl(true);
    var _ := painting.UiContent(o, true, Some(m3));
    StepFromEmpty(o, m3);
    lines, stroke := painting.lines, painting.stroke;
  }
}
