/** The player's avatar: a technician that walks along the bottom of the field. */
module Player {

  /** The movement keys currently held down. */
  datatype Keys = Keys(arrowLeft: bool, arrowRight: bool, a: bool, d: bool)
  {
    predicate Left() { arrowLeft || a }
    predicate Right() { arrowRight || d }
    /** Any movement key is held. */
    predicate Moving() { Left() || Right() }
  }

  function Max(a: real, b: real): real { if a < b then b else a }
  function Min(a: real, b: real): real { if a < b then a else b }

  /** Keep a technician of width 40 inside a canvas of the given width. */
  function Clamp(v: real, canvasWidth: real): (r: real)
    ensures 20.0 <= r
    ensures canvasWidth >= 40.0 ==> r <= canvasWidth - 20.0
    ensures 20.0 <= v <= canvasWidth - 20.0 ==> r == v
    ensures canvasWidth >= 40.0 && v < 20.0 ==> r == 20.0
    ensures canvasWidth >= 40.0 && v > canvasWidth - 20.0 ==> r == canvasWidth - 20.0
  {
    Max(20.0, Min(canvasWidth - 20.0, v))
  }

  class Technician {
    var x: real
    const y: real
    const width: real := 40.0
    const height: real := 60.0
    const speed: real := 5.0

    constructor (x0: real, y0: real)
      ensures x == x0 && y == y0
    {
      x, y := x0, y0;
    }

    /** One tick of movement: keys step by 5 (left and right together cancel),
        the mouse position is taken only when the mouse is in use and no
        movement key is held, and the result is clamped to the field. */
    method Update(keys: Keys, mouseX: real, canvasWidth: real, usingMouse: bool)
      modifies this`x
      ensures width / 2.0 <= x
      ensures canvasWidth >= width ==> x <= canvasWidth - width / 2.0
      ensures usingMouse && !keys.Moving() ==> x == Clamp(mouseX, canvasWidth)
      ensures !(usingMouse && !keys.Moving()) ==>
        x == Clamp(old(x) - (if keys.Left() then speed else 0.0)
                          + (if keys.Right() then speed else 0.0), canvasWidth)
    {
      var isKeyboardMoving := keys.Moving();
      if keys.Left() {
        x := x - speed;
      }
      if keys.Right() {
        x := x + speed;
      }
      if usingMouse && !isKeyboardMoving {
        x := mouseX;
      }
      x := Max(width / 2.0, Min(canvasWidth - width / 2.0, x));
    }
  }
}
