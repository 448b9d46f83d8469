/** The compositing geometry of the avatar-and-outfit composer: where each layer
    lands on the square canvas, how the outfit is fitted into its box, how the
    avatar is cropped to a square and clipped to a circle, and how dragging a
    handle moves exactly one layer. Pixels are not modelled, only the
    rectangles and the circle handed to the canvas. */
module Composer {

  import opened Wrappers
  import Text

  /** A position as fractions of the canvas width and height. */
  datatype Position = Position(x: real, y: real)

  /** A size as fractions of the canvas edge. */
  datatype Size = Size(width: real, height: real)

  /** The two layers: the avatar (drawn on top, clipped to a circle) and the
      outfit (drawn first, fitted into its box). */
  datatype Layer = Avatar | Outfit

  /** The position state the composer keeps across recompositions. */
  datatype PositionState = PositionState(
    avatarPosition: Position,
    outfitPosition: Position,
    avatarSize: Size,
    outfitSize: Size)

  /** An axis-aligned rectangle in canvas pixels: top-left corner and extent. */
  datatype Rect = Rect(x: real, y: real, w: real, h: real)

  /** A circle in canvas pixels. */
  datatype Circle = Circle(cx: real, cy: real, r: real)

  /** A square region of a source image: top-left corner and edge. */
  datatype Crop = Crop(sx: real, sy: real, s: real)

  /** A decoded image; only its pixel dimensions matter to the geometry. */
  datatype Image = Image(width: nat, height: nat)

  /** One drawing call issued by a composition, in the order issued. */
  datatype DrawOp =
    | FillBackground(color: string, area: Rect)
    | DrawContained(layer: Layer, box: Rect, drawn: Rect)
    | DrawClipped(layer: Layer, crop: Crop, clip: Circle, dest: Rect)

  /** Why a composition produced no preview. */
  datatype ComposeError =
    | MissingImages   // an image URL is not selected; the user is alerted
    | ImageLoadError  // an image failed to decode; no preview is produced

  /** The edge of the square composite canvas, in pixels. */
  const CanvasSize: real := 1024.0

  const DefaultAvatarPosition: Position := Position(0.5, 0.06)
  const DefaultOutfitPosition: Position := Position(0.5, 0.4)
  const DefaultAvatarSize: Size := Size(0.28, 0.28)
  const DefaultOutfitSize: Size := Size(0.72, 0.72)

  /** The state a fresh composer starts from and the reset restores. */
  const DefaultState: PositionState :=
    PositionState(DefaultAvatarPosition, DefaultOutfitPosition, DefaultAvatarSize, DefaultOutfitSize)

  /** Drag handles stay within these fractions of the preview. */
  const MinX: real := 0.1
  const MaxX: real := 0.9
  const MinY: real := 0.05
  const MaxY: real := 0.9

  function Min(a: real, b: real): real {
    if a <= b then a else b
  }

  function Max(a: real, b: real): real {
    if a >= b then a else b
  }

  function PositionOf(st: PositionState, layer: Layer): Position {
    match layer
    case Avatar => st.avatarPosition
    case Outfit => st.outfitPosition
  }

  function SizeOf(st: PositionState, layer: Layer): Size {
    match layer
    case Avatar => st.avatarSize
    case Outfit => st.outfitSize
  }

  /** The pixel rectangle of a layer on a canvas of edge `canvas`: the
      position's x marks the horizontal CENTRE of the rectangle, its y the TOP
      edge, and the size scales with the canvas. */
  function LayerRect(canvas: real, pos: Position, size: Size): (r: Rect)
    ensures r.x + r.w / 2.0 == canvas * pos.x
    ensures r.y == canvas * pos.y
    ensures r.w == canvas * size.width && r.h == canvas * size.height
  {
    var w := canvas * size.width;
    var h := canvas * size.height;
    Rect(canvas * pos.x - w / 2.0, canvas * pos.y, w, h)
  }

  /** The rectangle of one layer of a position state on the composite canvas. */
  function RectOf(st: PositionState, layer: Layer): Rect {
    LayerRect(CanvasSize, PositionOf(st, layer), SizeOf(st, layer))
  }

  /** Moving a layer's position by (dx, dy) moves its rectangle by
      (canvas * dx, canvas * dy) and leaves its extent unchanged. */
  lemma LayerRectShift(canvas: real, p: Position, q: Position, size: Size)
    ensures LayerRect(canvas, q, size).x - LayerRect(canvas, p, size).x == canvas * (q.x - p.x)
    ensures LayerRect(canvas, q, size).y - LayerRect(canvas, p, size).y == canvas * (q.y - p.y)
    ensures LayerRect(canvas, q, size).w == LayerRect(canvas, p, size).w
    ensures LayerRect(canvas, q, size).h == LayerRect(canvas, p, size).h
  {
  }

  /** `r` lies inside the box of extent (boxW, boxH) whose corner is (dx, dy). */
  predicate InsideBox(r: Rect, boxW: real, boxH: real, dx: real, dy: real) {
    dx <= r.x && r.x + r.w <= dx + boxW && dy <= r.y && r.y + r.h <= dy + boxH
  }

  /** The "contain" fit of an image into a box: the image is scaled uniformly
      by the larger factor that still fits both axes and is centred in the box.
      A zero-sized image has no scale; the composer never guards against it. */
  function DrawContain(img: Image, boxW: real, boxH: real, dx: real, dy: real): (r: Rect)
    requires img.width > 0 && img.height > 0
    ensures r.w * (img.height as real) == r.h * (img.width as real)
    ensures r.x - dx == (dx + boxW) - (r.x + r.w)
    ensures r.y - dy == (dy + boxH) - (r.y + r.h)
    ensures boxW >= 0.0 && boxH >= 0.0 ==> InsideBox(r, boxW, boxH, dx, dy)
    ensures r.w == boxW || r.h == boxH
  {
    var iw := img.width as real;
    var ih := img.height as real;
    var scale := Min(boxW / iw, boxH / ih);
    ContainScaleFits(iw, ih, boxW, boxH);
    var w := iw * scale;
    var h := ih * scale;
    Rect(dx + (boxW - w) / 2.0, dy + (boxH - h) / 2.0, w, h)
  }

  /** The contain scale makes one axis fill its box and keeps the other within
      its box. */
  lemma ContainScaleFits(iw: real, ih: real, boxW: real, boxH: real)
    requires iw > 0.0 && ih > 0.0
    ensures iw * Min(boxW / iw, boxH / ih) <= boxW
    ensures ih * Min(boxW / iw, boxH / ih) <= boxH
    ensures iw * Min(boxW / iw, boxH / ih) == boxW || ih * Min(boxW / iw, boxH / ih) == boxH
  {
    var a := boxW / iw;
    var b := boxH / ih;
    assert iw * a == boxW;
    assert ih * b == boxH;
    if a <= b {
      assert ih * a <= ih * b;
    } else {
      assert iw * b <= iw * a;
    }
  }

  /** No uniform scaling of the image that fits the box draws it larger than
      the contain fit does. */
  lemma ContainIsLargest(img: Image, boxW: real, boxH: real, dx: real, dy: real, t: real)
    requires img.width > 0 && img.height > 0
    requires (img.width as real) * t <= boxW && (img.height as real) * t <= boxH
    ensures (img.width as real) * t <= DrawContain(img, boxW, boxH, dx, dy).w
    ensures (img.height as real) * t <= DrawContain(img, boxW, boxH, dx, dy).h
  {
    var iw := img.width as real;
    var ih := img.height as real;
    var a := boxW / iw;
    var b := boxH / ih;
    var r := DrawContain(img, boxW, boxH, dx, dy);
    assert r.w == iw * Min(a, b) && r.h == ih * Min(a, b);
    assert iw * a == boxW && ih * b == boxH;
    ScaleOrder(iw, t, a);
    ScaleOrder(ih, t, b);
    ScaleOrder(iw, t, Min(a, b));
    ScaleOrder(ih, t, Min(a, b));
  }

  /** Scaling by a positive factor keeps order, both ways. */
  lemma ScaleOrder(k: real, x: real, y: real)
    requires k > 0.0
    ensures x <= y <==> k * x <= k * y
  {
    if x <= y {
      assert k * y - k * x == k * (y - x);
    } else {
      assert k * x - k * y == k * (x - y);
    }
  }

  /** The largest centred square of the avatar image: the crop the avatar is
      drawn from so that it is not distorted. */
  function SquareCrop(img: Image): (c: Crop)
    ensures c.s == img.width as real || c.s == img.height as real
    ensures c.sx >= 0.0 && c.sy >= 0.0
    ensures c.sx + c.s <= img.width as real && c.sy + c.s <= img.height as real
    ensures c.sx == 0.0 || c.sy == 0.0
    ensures c.sx == (img.width as real) - (c.sx + c.s)
    ensures c.sy == (img.height as real) - (c.sy + c.s)
  {
    var s := Min(img.width as real, img.height as real);
    Crop((img.width as real - s) / 2.0, (img.height as real - s) / 2.0, s)
  }

  /** The clip path of the avatar: a circle centred on the head rectangle whose
      radius is half the rectangle's WIDTH. */
  function ClipCircle(head: Rect): (c: Circle)
    ensures c.cx - c.r == head.x && c.cx + c.r == head.x + head.w
    ensures c.cy == head.y + head.h / 2.0
  {
    Circle(head.x + head.w / 2.0, head.y + head.h / 2.0, head.w / 2.0)
  }

  /** The point (px, py) lies in the closed disc `c`. */
  predicate InDisc(c: Circle, px: real, py: real) {
    (px - c.cx) * (px - c.cx) + (py - c.cy) * (py - c.cy) <= c.r * c.r
  }

  /** For a square head rectangle the clip circle is inscribed: it touches all
      four sides and every point it admits lies in the rectangle. */
  lemma ClipCircleInscribed(head: Rect, px: real, py: real)
    requires head.w == head.h && head.w >= 0.0
    ensures ClipCircle(head).cy - ClipCircle(head).r == head.y
    ensures ClipCircle(head).cy + ClipCircle(head).r == head.y + head.h
    ensures InDisc(ClipCircle(head), px, py) ==>
              head.x <= px <= head.x + head.w && head.y <= py <= head.y + head.h
  {
    var c := ClipCircle(head);
    if InDisc(c, px, py) {
      var u := px - c.cx;
      var v := py - c.cy;
      assert u * u <= c.r * c.r;
      assert v * v <= c.r * c.r;
      SquareBound(u, c.r);
      SquareBound(v, c.r);
    }
  }

  /** u^2 <= r^2 with r >= 0 bounds u to [-r, r]. */
  lemma SquareBound(u: real, r: real)
    requires r >= 0.0 && u * u <= r * r
    ensures -r <= u <= r
  {
    SquareGrows(u, r);
    SquareGrows(-u, r);
  }

  /** Beyond a non-negative bound, the square exceeds the bound's square. */
  lemma SquareGrows(u: real, r: real)
    ensures 0.0 <= r < u ==> r * r < u * u
  {
    var d := u - r;
    assert u * u == r * r + d * (u + r);
    assert 0.0 <= r < u ==> d * (u + r) > 0.0;
  }

  /** The avatar's clip circle is centred horizontally on the avatar position. */
  lemma AvatarCircleOnPosition(st: PositionState)
    ensures ClipCircle(RectOf(st, Avatar)).cx == CanvasSize * st.avatarPosition.x
  {
  }

  /** The default avatar size is square, so by default the avatar circle is
      inscribed in its rectangle: 286.72 pixels across on the 1024 canvas. */
  lemma DefaultAvatarIsSquare()
    ensures RectOf(DefaultState, Avatar).w == RectOf(DefaultState, Avatar).h == 286.72
    ensures ClipCircle(RectOf(DefaultState, Avatar)).r == 143.36
  {
  }

  /** The composition of the preview on the 1024-pixel canvas: white
      background, then the outfit fitted into its box, then the avatar cropped
      to a square and clipped to its circle on top. Nothing is drawn unless both
      URLs are selected and both images decode. */
  function Compose(avatarUrl: Option<string>, outfitUrl: Option<string>,
                   avatarImg: Option<Image>, outfitImg: Option<Image>,
                   st: PositionState): (r: Result<seq<DrawOp>, ComposeError>)
    requires outfitImg.Some? ==> outfitImg.value.width > 0 && outfitImg.value.height > 0
    ensures r == Failure(MissingImages) <==> !Text.Present(avatarUrl) || !Text.Present(outfitUrl)
    ensures r == Failure(ImageLoadError) <==>
              Text.Present(avatarUrl) && Text.Present(outfitUrl) && (avatarImg.None? || outfitImg.None?)
    ensures r.Success? ==> |r.value| == 3
    ensures r.Success? ==> r.value[0] == FillBackground("#ffffff", Rect(0.0, 0.0, CanvasSize, CanvasSize))
    ensures r.Success? ==> r.value[1].DrawContained? && r.value[1].layer == Outfit
                           && r.value[1].box == RectOf(st, Outfit)
                           && r.value[1].drawn == DrawContain(outfitImg.value, RectOf(st, Outfit).w, RectOf(st, Outfit).h,
                                                              RectOf(st, Outfit).x, RectOf(st, Outfit).y)
    ensures r.Success? ==> r.value[2].DrawClipped? && r.value[2].layer == Avatar
                           && r.value[2].dest == RectOf(st, Avatar)
                           && r.value[2].crop == SquareCrop(avatarImg.value)
                           && r.value[2].clip == ClipCircle(RectOf(st, Avatar))
                           && r.value[2].clip.cx == CanvasSize * st.avatarPosition.x
  {
    if !Text.Present(avatarUrl) || !Text.Present(outfitUrl) then
      Failure(MissingImages)
    else if avatarImg.None? || outfitImg.None? then
      Failure(ImageLoadError)
    else
      var head := RectOf(st, Avatar);
      var body := RectOf(st, Outfit);
      Success([
        FillBackground("#ffffff", Rect(0.0, 0.0, CanvasSize, CanvasSize)),
        DrawContained(Outfit, body, DrawContain(outfitImg.value, body.w, body.h, body.x, body.y)),
        DrawClipped(Avatar, SquareCrop(avatarImg.value), ClipCircle(head), head)
      ])
  }

  /** With non-negative sizes, the outfit is drawn inside its layer box and the
      avatar is drawn from inside its source image. */
  lemma ComposeStaysInside(avatarUrl: Option<string>, outfitUrl: Option<string>,
                           avatarImg: Option<Image>, outfitImg: Option<Image>, st: PositionState)
    requires outfitImg.Some? ==> outfitImg.value.width > 0 && outfitImg.value.height > 0
    requires st.outfitSize.width >= 0.0 && st.outfitSize.height >= 0.0
    ensures var r := Compose(avatarUrl, outfitUrl, avatarImg, outfitImg, st);
            r.Success? ==>
              && InsideBox(r.value[1].drawn, r.value[1].box.w, r.value[1].box.h, r.value[1].box.x, r.value[1].box.y)
              && r.value[2].crop.sx + r.value[2].crop.s <= avatarImg.value.width as real
              && r.value[2].crop.sy + r.value[2].crop.s <= avatarImg.value.height as real
  {
  }

  /** Restricting a dragged coordinate to the canvas (`Math.max(lo, Math.min(hi, v))`). */
  function Clamp(v: real, lo: real, hi: real): (r: real)
    requires lo <= hi
    ensures lo <= r <= hi
    ensures lo <= v <= hi ==> r == v
    ensures v < lo ==> r == lo
    ensures v > hi ==> r == hi
  {
    Max(lo, Min(hi, v))
  }

  /** The position a drag handle is moved to for the fractional pointer
      coordinates (x, y). */
  function ClampPosition(x: real, y: real): (p: Position)
    ensures MinX <= p.x <= MaxX && MinY <= p.y <= MaxY
    ensures MinX <= x <= MaxX ==> p.x == x
    ensures MinY <= y <= MaxY ==> p.y == y
  {
    Position(Clamp(x, MinX, MaxX), Clamp(y, MinY, MaxY))
  }

  /** Clamping twice is clamping once. */
  lemma ClampIdempotent(x: real, y: real)
    ensures ClampPosition(ClampPosition(x, y).x, ClampPosition(x, y).y) == ClampPosition(x, y)
  {
  }

  /** Clamping never reverses the order of two pointer coordinates. */
  lemma ClampMonotone(x1: real, y1: real, x2: real, y2: real)
    requires x1 <= x2 && y1 <= y2
    ensures ClampPosition(x1, y1).x <= ClampPosition(x2, y2).x
    ensures ClampPosition(x1, y1).y <= ClampPosition(x2, y2).y
  {
  }

  /** Replaces the position of one layer. */
  function UpdatePositionState(st: PositionState, layer: Layer, p: Position): (r: PositionState)
    ensures PositionOf(r, layer) == p
    ensures forall other: Layer :: other != layer ==> PositionOf(r, other) == PositionOf(st, other)
    ensures forall l: Layer :: SizeOf(r, l) == SizeOf(st, l)
  {
    match layer
    case Avatar => st.(avatarPosition := p)
    case Outfit => st.(outfitPosition := p)
  }

  /** Updating a layer to the position it already has changes nothing, and a
      second update of the same layer overrides the first. */
  lemma UpdatePositionStateLaws(st: PositionState, layer: Layer, p: Position, q: Position)
    ensures UpdatePositionState(st, layer, PositionOf(st, layer)) == st
    ensures UpdatePositionState(UpdatePositionState(st, layer, p), layer, q) == UpdatePositionState(st, layer, q)
  {
  }

  /** A pointer move: while a layer is being dragged over a rendered preview,
      the pointer's offset inside the preview, as fractions of its extent and
      clamped, becomes that layer's position; otherwise nothing happens. */
  function HandleMouseMove(st: PositionState, dragging: Option<Layer>, preview: Option<Rect>,
                           clientX: real, clientY: real): (r: PositionState)
    requires dragging.Some? && preview.Some? ==> preview.value.w > 0.0 && preview.value.h > 0.0
    ensures dragging.None? || preview.None? ==> r == st
    ensures dragging.Some? && preview.Some? ==>
              && PositionOf(r, dragging.value) ==
                   ClampPosition((clientX - preview.value.x) / preview.value.w,
                                 (clientY - preview.value.y) / preview.value.h)
              && (forall other: Layer :: other != dragging.value ==> PositionOf(r, other) == PositionOf(st, other))
              && (forall l: Layer :: SizeOf(r, l) == SizeOf(st, l))
  {
    if dragging.None? || preview.None? then st
    else
      var rect := preview.value;
      var x := (clientX - rect.x) / rect.w;
      var y := (clientY - rect.y) / rect.h;
      UpdatePositionState(st, dragging.value, ClampPosition(x, y))
  }

  /** Every position reached by dragging is inside the handle range. */
  lemma DraggedPositionInRange(st: PositionState, layer: Layer, preview: Rect, clientX: real, clientY: real)
    requires preview.w > 0.0 && preview.h > 0.0
    ensures var p := PositionOf(HandleMouseMove(st, Some(layer), Some(preview), clientX, clientY), layer);
            MinX <= p.x <= MaxX && MinY <= p.y <= MaxY
  {
  }
}
