# Painting canvas of the egui web showcase

This project models the freehand painting widget of the showcase application
(`struct Painting` in `src/lib.rs`). It keeps a drawing as a list of
polylines in canvas-local coordinates, plus one shared stroke (width and
colour). Once per frame the canvas:

1. seeds an open line if the drawing is empty;
2. while a drag is active and the pointer position is known, appends the
   pointer position minus the canvas origin to the last line, unless that
   point is already the line's last point;
3. when the drag is not active and the last line holds points, seals it by
   pushing a fresh empty line;
4. emits one polyline draw command per line of at least two points, in list
   order, translated back to absolute coordinates and drawn with the current
   stroke.

The "Clear Painting" button empties the drawing.

All of it is in `painting.dfy`, module `PaintingModel`:

- `PaintingModel.Painting` is a class with the two fields the source mutates in
  place, `lines: seq<seq<Vec2>>` and `stroke`.
- Its methods `UiControl` and `UiContent` change `lines` in place, step by
  step, as the Rust methods do. The stroke is never changed (see Left out).
- `UiContent` is proved against the pure transition function `Step`.
  `UiControl`'s contract states the new lines directly. The emission loop,
  `DrawCommands`, is proved against the function `Emit`.
- The lemmas state what the component promises about `Step`, `Emit` and `Run`.
  `Run` is a sequence of frames with no clear in between.

Points are integer pairs. `Pos2` is an absolute position and `Vec2` is a
canvas-local offset. Because the coordinates are integers, the subtract and
then add of the canvas origin is exact.

After a drag ends, the code pushes the fresh empty line in the same
inactive frame that sees the drag has ended (`src/lib.rs:181-182`). It does
not wait for the next frame. `ScenarioDragThenRelease` states that behaviour.

## Model

| member | source | states |
|---|---|---|
| `PaintingModel.Painting.constructor` | src/lib.rs:142-148 | a new painting has no lines; its stroke is width 1.0 in LIGHT_BLUE; the drawing is well formed |
| `PaintingModel.Painting.UiControl` | src/lib.rs:152-161 | clicking "Clear Painting" leaves `lines` empty whatever it held; otherwise `lines` is unchanged; the stroke is never changed; well-formedness is kept |
| `PaintingModel.Painting.UiContent` | src/lib.rs:163-193 | the new lines are `Step` of the old lines and this frame's inputs; afterwards `lines` is non-empty; the stroke is unchanged; a well-formed drawing stays well formed; the returned commands are `Emit` of the new lines with the current stroke |
| `PaintingModel.Painting.DrawCommands` | src/lib.rs:185-190 | the loop over the lines returns exactly `Emit(lines, rectMin, stroke)` |
| `PaintingModel.Sub` | src/lib.rs:176 | the canvas-local point of a pointer position, added back to the canvas origin with `Add` (`rect.min + p`, `src/lib.rs:187`), gives that position again; `Add` is its inverse |
| `PaintingModel.Seeded` | src/lib.rs:168-170 | after seeding, the drawing has at least one line, the open one |
| `PaintingModel.Extend` | src/lib.rs:177-179 | the open line ends with the new point afterwards; it either stays the same or grows by exactly that point; it stays the same iff the point equals its current last point |
| `PaintingModel.Step` | src/lib.rs:168-183 | after a frame the drawing is non-empty and has not shrunk; every line before the last is left unchanged |
| `PaintingModel.StepActive` | src/lib.rs:172-180 | with the drag active and a pointer position, the number of lines and all earlier lines are unchanged; the open line grows by exactly `mouse_pos - rect.min`, or stays the same, and it stays the same iff that point equals its last point |
| `PaintingModel.StepInactive` | src/lib.rs:174-183 | with the drag inactive, an empty line is pushed iff the open line is non-empty; otherwise the seeded drawing is unchanged |
| `PaintingModel.StepNoPointer` | src/lib.rs:174-175 | with the drag active but no pointer position, only the seeding happens |
| `PaintingModel.StepTracksPointer` | src/lib.rs:174-178 | after an active frame with a pointer position, the open line's last point plus the canvas origin is that pointer position |
| `PaintingModel.StepPreservesWellFormed` | src/lib.rs:168-183 | one frame keeps the invariant: no line has two equal consecutive points, and every line but the last is non-empty |
| `PaintingModel.StepIdempotent` | src/lib.rs:168-183 | running the same frame inputs twice gives the same drawing as running them once |
| `PaintingModel.RunKeepsSealedLines` | src/lib.rs:172-183 | over any number of frames the drawing never shrinks; a sealed line (any line but the last) is never changed again |
| `PaintingModel.RunPreservesWellFormed` | src/lib.rs:168-183 | any number of frames keeps the drawing well formed |
| `PaintingModel.Run` | src/lib.rs:163-183 | repeated frames, one `ui_content` call each; after at least one frame the drawing is non-empty |
| `PaintingModel.ToScreen` | src/lib.rs:187 | a line's points in absolute coordinates, each point being `origin + p`: as many as the line has, and translating them back with `Sub` gives the line |
| `PaintingModel.Emit` | src/lib.rs:185-190 | the commands for a drawing: at most one per line, each with at least two points and the current stroke |
| `PaintingModel.Drawn` | src/lib.rs:185-186 | the indices of the drawn lines increase strictly and are in range; an index is among them iff its line has at least two points |
| `PaintingModel.EmitMatchesDrawn` | src/lib.rs:185-190 | commands correspond one to one and in order to the lines with at least two points; each holds its line's points translated to absolute coordinates, with the current stroke |
| `PaintingModel.ShortLinesNotDrawn` | src/lib.rs:186 | when no line has two points, no command is emitted |
| `PaintingModel.ScenarioDragThenRelease` | src/lib.rs:168-183 | three drag samples, each differing from the one before, and then a release leave one sealed line holding their three canvas-local points, followed by an empty open line |
| `PaintingModel.ScenarioDragDrawn` | src/lib.rs:185-190 | that drawing emits one command, whose points are the three absolute pointer positions, with the current stroke |
| `PaintingModel.ScenarioStationaryPointer` | src/lib.rs:172-179 | a pointer held still for three active frames leaves a single point; nothing is drawn |
| `PaintingModel.StepFromEmpty` | src/lib.rs:168-178 | on an empty drawing, the first drag sample starts a line holding only that sample |
| `PaintingModel.ScenarioClearMidDrag` | src/lib.rs:108-110 | a new painting, two drag frames, a click on "Clear Painting" and one more drag frame leave a single line holding only the last sample; the stroke is still the default |

## Left out

- The stroke editor (`self.stroke.ui`, `src/lib.rs:154`) is a call into egui. `UiControl` therefore models only the clear button, and the stroke changes nowhere in the model.
- The painter allocation, input query and command sink (`src/lib.rs:164-165, 175, 188`) are calls into egui. They become parameters of `UiContent`: the rectangle's top-left corner, the drag flag and the optional pointer position. The returned command sequence replaces the sink. The rectangle's size and the `egui::Response` returned by `ui_content` and by `ui_control` (`src/lib.rs:160, 192`) are not modelled; the caller at `src/lib.rs:108` drops the latter.
- Coordinates and the stroke width are `f32` in the source. The model uses integers for coordinates, so translation is exact, and a `real` for the width.
- `LightBlue` is egui's `Color32::LIGHT_BLUE`, taken as the opaque RGB colour (140, 160, 255). egui's colour table is not part of this model.
- Application start-up, plugin registration and the wasm entry point (`src/lib.rs:8-20`) are engine bootstrap.
- Asset loading and the texture load, invert and remove handling (`src/lib.rs:30-33, 121-134`) are asset-server and texture I/O.
- The UI scale-factor update (`src/lib.rs:35-39`) is a floating-point division of a value read from the host window.
- The panel, slider, text-edit, hyperlink and window widget tree (`src/lib.rs:52-119`) is declarative UI wiring, including the `value += 1.0` float increment.
- The Quit menu entry's process exit (`src/lib.rs:85-87`) is process termination.
