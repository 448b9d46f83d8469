/** The position-adjustment script: its own copies of the layer geometry, the
    drag clamp and the drag update, with the values it works through. Each copy
    is defined here independently and proved to agree with the composer. */
module PositionScript {

  import Composer
  import opened Wrappers

  /** A layer rectangle as the script reports it. */
  datatype Box = Box(x: real, y: real, width: real, height: real)

  /** Both layer rectangles. */
  datatype Layout = Layout(avatar: Box, outfit: Box)

  /** The script's position and size records. */
  datatype Point = Point(x: real, y: real)
  datatype Extent = Extent(width: real, height: real)

  /** The script's canvas edge. */
  const ScriptCanvas: real := 1024.0

  /** The script's starting values. */
  const StartAvatarPosition: Point := Point(0.5, 0.06)
  const StartOutfitPosition: Point := Point(0.5, 0.4)
  const StartAvatarSize: Extent := Extent(0.28, 0.28)
  const StartOutfitSize: Extent := Extent(0.72, 0.72)

  /** `calculatePositions`: both layer rectangles for the given positions and
      sizes on the script's canvas. */
  function CalculatePositions(avatarPosition: Point, outfitPosition: Point,
                              avatarSize: Extent, outfitSize: Extent): Layout
  {
    var headW := ScriptCanvas * avatarSize.width;
    var headH := ScriptCanvas * avatarSize.height;
    var outfitW := ScriptCanvas * outfitSize.width;
    var outfitH := ScriptCanvas * outfitSize.height;
    Layout(
      Box(ScriptCanvas * avatarPosition.x - headW / 2.0, ScriptCanvas * avatarPosition.y, headW, headH),
      Box(ScriptCanvas * outfitPosition.x - outfitW / 2.0, ScriptCanvas * outfitPosition.y, outfitW, outfitH))
  }

  /** The composer's position state for the script's values. */
  function AsState(avatarPosition: Point, outfitPosition: Point,
                   avatarSize: Extent, outfitSize: Extent): Composer.PositionState
  {
    Composer.PositionState(
      Composer.Position(avatarPosition.x, avatarPosition.y),
      Composer.Position(outfitPosition.x, outfitPosition.y),
      Composer.Size(avatarSize.width, avatarSize.height),
      Composer.Size(outfitSize.width, outfitSize.height))
  }

  /** The script's rectangles are exactly those the composer draws. */
  lemma CalculatePositionsMatchesComposer(avatarPosition: Point, outfitPosition: Point,
                                          avatarSize: Extent, outfitSize: Extent)
    ensures var layout := CalculatePositions(avatarPosition, outfitPosition, avatarSize, outfitSize);
            var st := AsState(avatarPosition, outfitPosition, avatarSize, outfitSize);
            var a := Composer.RectOf(st, Composer.Avatar);
            var o := Composer.RectOf(st, Composer.Outfit);
            && layout.avatar == Box(a.x, a.y, a.w, a.h)
            && layout.outfit == Box(o.x, o.y, o.w, o.h)
  {
  }

  /** The default layout on the 1024 canvas. */
  lemma DefaultLayout()
    ensures CalculatePositions(StartAvatarPosition, StartOutfitPosition, StartAvatarSize, StartOutfitSize)
         == Layout(Box(368.64, 61.44, 286.72, 286.72), Box(143.36, 409.6, 737.28, 737.28))
  {
  }

  /** Moving only the positions shifts each rectangle by the canvas edge times
      the move and keeps every width and height. */
  lemma MoveShiftsRectangles(a1: Point, o1: Point, a2: Point, o2: Point, avatarSize: Extent, outfitSize: Extent)
    ensures var before := CalculatePositions(a1, o1, avatarSize, outfitSize);
            var after := CalculatePositions(a2, o2, avatarSize, outfitSize);
            && after.avatar.x - before.avatar.x == ScriptCanvas * (a2.x - a1.x)
            && after.avatar.y - before.avatar.y == ScriptCanvas * (a2.y - a1.y)
            && after.outfit.x - before.outfit.x == ScriptCanvas * (o2.x - o1.x)
            && after.outfit.y - before.outfit.y == ScriptCanvas * (o2.y - o1.y)
            && after.avatar.width == before.avatar.width && after.avatar.height == before.avatar.height
            && after.outfit.width == before.outfit.width && after.outfit.height == before.outfit.height
  {
  }

  /** The script's worked move: avatar to (0.3, 0.2), outfit to (0.7, 0.6). */
  lemma WorkedMove()
    ensures var before := CalculatePositions(StartAvatarPosition, StartOutfitPosition, StartAvatarSize, StartOutfitSize);
            var after := CalculatePositions(Point(0.3, 0.2), Point(0.7, 0.6), StartAvatarSize, StartOutfitSize);
            && after.avatar.x - before.avatar.x == -204.8 && after.avatar.y - before.avatar.y == 143.36
            && after.outfit.x - before.outfit.x == 204.8 && after.outfit.y - before.outfit.y == 204.8
  {
  }

  /** `clampPosition`. */
  function ClampPosition(x: real, y: real): Point {
    var cx := if 0.9 <= x then 0.9 else x;
    var cy := if 0.9 <= y then 0.9 else y;
    Point(if 0.1 >= cx then 0.1 else cx, if 0.05 >= cy then 0.05 else cy)
  }

  /** The script's clamp is the composer's clamp. */
  lemma ClampMatchesComposer(x: real, y: real)
    ensures ClampPosition(x, y).x == Composer.ClampPosition(x, y).x
    ensures ClampPosition(x, y).y == Composer.ClampPosition(x, y).y
  {
  }

  /** The script's clamp cases. */
  lemma ClampVectors()
    ensures ClampPosition(0.0, 0.0) == Point(0.1, 0.05)
    ensures ClampPosition(1.0, 1.0) == Point(0.9, 0.9)
    ensures ClampPosition(0.5, 0.5) == Point(0.5, 0.5)
    ensures ClampPosition(0.05, 0.02) == Point(0.1, 0.05)
  {
  }

  /** `updatePosition`: the pointer as fractions of the canvas, clamped; the
      current position takes no part. */
  function UpdatePosition(current: Point, mouseX: real, mouseY: real, canvasWidth: real, canvasHeight: real): (p: Point)
    requires canvasWidth > 0.0 && canvasHeight > 0.0
    ensures 0.1 <= p.x <= 0.9 && 0.05 <= p.y <= 0.9
    ensures 0.1 * canvasWidth <= mouseX <= 0.9 * canvasWidth ==> p.x * canvasWidth == mouseX
    ensures 0.05 * canvasHeight <= mouseY <= 0.9 * canvasHeight ==> p.y * canvasHeight == mouseY
  {
    ClampPosition(mouseX / canvasWidth, mouseY / canvasHeight)
  }

  /** The result does not depend on the current position. */
  lemma UpdateIgnoresCurrent(c1: Point, c2: Point, mouseX: real, mouseY: real, canvasWidth: real, canvasHeight: real)
    requires canvasWidth > 0.0 && canvasHeight > 0.0
    ensures UpdatePosition(c1, mouseX, mouseY, canvasWidth, canvasHeight)
         == UpdatePosition(c2, mouseX, mouseY, canvasWidth, canvasHeight)
  {
  }

  /** The script's drag update is the composer's: a pointer move over a
      preview at the origin puts the dragged layer where the script puts it. */
  lemma UpdateMatchesComposer(st: Composer.PositionState, layer: Composer.Layer, current: Point,
                              mouseX: real, mouseY: real, canvasWidth: real, canvasHeight: real)
    requires canvasWidth > 0.0 && canvasHeight > 0.0
    ensures var moved := Composer.HandleMouseMove(st, Some(layer), Some(Composer.Rect(0.0, 0.0, canvasWidth, canvasHeight)),
                                                  mouseX, mouseY);
            var p := UpdatePosition(current, mouseX, mouseY, canvasWidth, canvasHeight);
            Composer.PositionOf(moved, layer) == Composer.Position(p.x, p.y)
  {
    var x := mouseX / canvasWidth;
    var y := mouseY / canvasHeight;
    assert (mouseX - 0.0) / canvasWidth == x && (mouseY - 0.0) / canvasHeight == y;
    ClampMatchesComposer(x, y);
  }

  /** The script's drag cases on an 800 x 600 canvas. */
  lemma DragVectors()
    ensures UpdatePosition(StartAvatarPosition, 400.0, 300.0, 800.0, 600.0) == Point(0.5, 0.5)
    ensures UpdatePosition(StartAvatarPosition, 100.0, 100.0, 800.0, 600.0) == Point(0.125, 1.0 / 6.0)
    ensures UpdatePosition(StartAvatarPosition, 700.0, 500.0, 800.0, 600.0) == Point(0.875, 5.0 / 6.0)
  {
  }
}
