/**
 * Pointer tracking: the `pointerPrototype` record, the down/move/up updates
 * the mouse and touch handlers call, and the aspect-ratio corrections of
 * deltas and of the splat radius.
 */
module Pointers {
  import opened Grid
  import opened Colors

  /** The canvas size in pixels, read by every correction. */
  datatype Canvas = Canvas(width: nat, height: nat) {
    predicate Valid() {
      width > 0 && height > 0
    }

    function Aspect(): (a: real)
      requires Valid()
      ensures a > 0.0
    {
      width as real / height as real
    }
  }

  /** Scaling by a factor in (0, 1] never increases a magnitude and keeps the sign. */
  lemma ShrinkFactor(delta: real, a: real)
    requires 0.0 < a <= 1.0
    ensures Abs(delta * a) <= Abs(delta)
    ensures delta * a == 0.0 <==> delta == 0.0
    ensures delta * a > 0.0 <==> delta > 0.0
  {
    var m := Abs(delta);
    assert 0.0 <= m * a <= m * 1.0;
    assert delta * a == if delta >= 0.0 then m * a else -(m * a);
  }

  /**
   * `correctDeltaX`: on a portrait canvas a horizontal delta is scaled by the
   * aspect ratio; otherwise it is left alone.
   */
  function CorrectDeltaX(delta: real, canvas: Canvas): (r: real)
    requires canvas.Valid()
    ensures Abs(r) <= Abs(delta)
    ensures r == 0.0 <==> delta == 0.0
    ensures r > 0.0 <==> delta > 0.0
    ensures canvas.Aspect() >= 1.0 ==> r == delta
  {
    var aspect := canvas.Aspect();
    if aspect < 1.0 then
      ShrinkFactor(delta, aspect);
      delta * aspect
    else
      delta
  }

  /**
   * `correctDeltaY`: on a landscape canvas a vertical delta is divided by the
   * aspect ratio; otherwise it is left alone.
   */
  function CorrectDeltaY(delta: real, canvas: Canvas): (r: real)
    requires canvas.Valid()
    ensures Abs(r) <= Abs(delta)
    ensures r == 0.0 <==> delta == 0.0
    ensures r > 0.0 <==> delta > 0.0
    ensures canvas.Aspect() <= 1.0 ==> r == delta
  {
    var aspect := canvas.Aspect();
    if aspect > 1.0 then
      assert delta / aspect == delta * (1.0 / aspect);
      ShrinkFactor(delta, 1.0 / aspect);
      delta / aspect
    else
      delta
  }

  /**
   * `correctRadius`: on a landscape canvas the radius grows by the aspect
   * ratio, so a splat stays round; it never shrinks a non-negative radius.
   */
  function CorrectRadius(radius: real, canvas: Canvas): (r: real)
    requires canvas.Valid()
    ensures canvas.Aspect() > 1.0 ==> r == radius * canvas.Aspect()
    ensures canvas.Aspect() <= 1.0 ==> r == radius
    ensures radius >= 0.0 ==> r >= radius
    ensures radius > 0.0 ==> r > 0.0
  {
    var aspect := canvas.Aspect();
    if aspect > 1.0 then
      assert radius >= 0.0 ==> radius * aspect >= radius * 1.0;
      radius * aspect
    else
      radius
  }

  /** Texture coordinates of a canvas pixel: x to the right, y flipped to point up. */
  function TexcoordX(posX: real, canvas: Canvas): (x: real)
    requires canvas.Valid()
    ensures 0.0 <= posX <= canvas.width as real ==> 0.0 <= x <= 1.0
  {
    posX / canvas.width as real
  }

  function TexcoordY(posY: real, canvas: Canvas): (y: real)
    requires canvas.Valid()
    ensures 0.0 <= posY <= canvas.height as real ==> 0.0 <= y <= 1.0
    ensures posY == 0.0 ==> y == 1.0
    ensures posY == canvas.height as real ==> y == 0.0
  {
    1.0 - posY / canvas.height as real
  }

  /** The fields of a pointer record, as a value. */
  datatype PointerView = PointerView(
    id: int,
    texcoordX: real, texcoordY: real,
    prevTexcoordX: real, prevTexcoordY: real,
    deltaX: real, deltaY: real,
    down: bool, moved: bool,
    color: Rgb)

  /** What `new pointerPrototype()` holds. */
  const Initial := PointerView(-1, 0.0, 0.0, 0.0, 0.0, 0.0, 0.0, false, false, Rgb(30.0, 0.0, 300.0))

  class Pointer {
    var id: int
    var texcoordX: real
    var texcoordY: real
    var prevTexcoordX: real
    var prevTexcoordY: real
    var deltaX: real
    var deltaY: real
    var down: bool
    var moved: bool
    var color: Rgb

    function View(): PointerView
      reads this
    {
      PointerView(id, texcoordX, texcoordY, prevTexcoordX, prevTexcoordY, deltaX, deltaY, down, moved, color)
    }

    /** `new pointerPrototype()`: not pressed, id -1, everything at zero. */
    constructor ()
      ensures View() == Initial
    {
      id := -1;
      texcoordX, texcoordY := 0.0, 0.0;
      prevTexcoordX, prevTexcoordY := 0.0, 0.0;
      deltaX, deltaY := 0.0, 0.0;
      down, moved := false, false;
      color := Rgb(30.0, 0.0, 300.0);
    }

    /**
     * `updatePointerDownData`: the pointer is pressed at (posX, posY), has not
     * moved, its previous position is its current one and it gets a new colour
     * of hue `hue` (a `Math.random()` draw).
     */
    method UpdateDown(newId: int, posX: real, posY: real, canvas: Canvas, hue: real)
      requires canvas.Valid() && hue >= 0.0
      modifies this
      ensures View() == PointerView(newId,
                TexcoordX(posX, canvas), TexcoordY(posY, canvas),
                TexcoordX(posX, canvas), TexcoordY(posY, canvas),
                0.0, 0.0, true, false, GenerateColor(hue))
    {
      id := newId;
      down := true;
      moved := false;
      texcoordX := TexcoordX(posX, canvas);
      texcoordY := TexcoordY(posY, canvas);
      prevTexcoordX := texcoordX;
      prevTexcoordY := texcoordY;
      deltaX := 0.0;
      deltaY := 0.0;
      color := GenerateColor(hue);
    }

    /**
     * `updatePointerMoveData`: the old position becomes the previous one, the
     * deltas are the corrected differences, and `moved` holds exactly when the
     * position changed. Identity, pressed state and colour stay.
     */
    method UpdateMove(posX: real, posY: real, canvas: Canvas)
      requires canvas.Valid()
      modifies this
      ensures prevTexcoordX == old(texcoordX) && prevTexcoordY == old(texcoordY)
      ensures texcoordX == TexcoordX(posX, canvas) && texcoordY == TexcoordY(posY, canvas)
      ensures deltaX == CorrectDeltaX(texcoordX - prevTexcoordX, canvas)
      ensures deltaY == CorrectDeltaY(texcoordY - prevTexcoordY, canvas)
      ensures Abs(deltaX) <= Abs(texcoordX - prevTexcoordX) && Abs(deltaY) <= Abs(texcoordY - prevTexcoordY)
      ensures moved <==> texcoordX != prevTexcoordX || texcoordY != prevTexcoordY
      ensures id == old(id) && down == old(down) && color == old(color)
    {
      prevTexcoordX := texcoordX;
      prevTexcoordY := texcoordY;
      texcoordX := TexcoordX(posX, canvas);
      texcoordY := TexcoordY(posY, canvas);
      deltaX := CorrectDeltaX(texcoordX - prevTexcoordX, canvas);
      deltaY := CorrectDeltaY(texcoordY - prevTexcoordY, canvas);
      moved := Abs(deltaX) > 0.0 || Abs(deltaY) > 0.0;
    }

    /** `updatePointerUpData`: only `down` changes. */
    method UpdateUp()
      modifies this
      ensures View() == old(View()).(down := false)
    {
      down := false;
    }
  }

  /** A press followed by a move to the same place leaves the pointer unmoved. */
  method PressThenStay(p: Pointer, newId: int, posX: real, posY: real, canvas: Canvas, hue: real)
    requires canvas.Valid() && hue >= 0.0
    modifies p
    ensures p.down && !p.moved && p.deltaX == 0.0 && p.deltaY == 0.0
  {
    p.UpdateDown(newId, posX, posY, canvas, hue);
    p.UpdateMove(posX, posY, canvas);
  }
}
