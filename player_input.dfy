/**
  The keyboard-to-axes rule shared by both player controllers
  (CHARACTER/Scripts/PlayerController.cs and Scripts/PlayerController.cs):
  W/S move y by +1/-1, A/D move x by -1/+1, so opposing keys cancel.

  The controllers store `new Vector2(x, y).normalized`; normalising keeps the
  sign and zero-ness of each component, so the model stores the raw axes.
 */
module PlayerInput {

  /** Which of the four movement keys are held this frame. */
  datatype KeyState = KeyState(w: bool, a: bool, s: bool, d: bool)

  /** The raw movement axes, before normalisation. */
  datatype Axes = Axes(x: int, y: int)

  const NoInput: Axes := Axes(0, 0)

  /** One axis from its positive and its negative key. */
  function Axis(positive: bool, negative: bool): (v: int)
    ensures -1 <= v <= 1
    ensures v == 0 <==> positive == negative
    ensures v == 1 <==> positive && !negative
    ensures v == -1 <==> negative && !positive
  {
    (if positive then 1 else 0) - (if negative then 1 else 0)
  }

  /** The axes the held keys ask for. */
  function KeyAxes(keys: KeyState): Axes {
    Axes(Axis(keys.d, keys.a), Axis(keys.w, keys.s))
  }

  /**
    The accumulation in `HandleInput`: start both axes at 0 and apply W, S,
    A, D in that order.
   */
  method ReadAxes(keys: KeyState) returns (m: Axes)
    ensures m == KeyAxes(keys)
    ensures -1 <= m.x <= 1 && -1 <= m.y <= 1
    ensures m.x == 0 <==> keys.a == keys.d
    ensures m.y == 0 <==> keys.w == keys.s
  {
    var x := 0;
    var y := 0;
    if keys.w { y := y + 1; }
    if keys.s { y := y - 1; }
    if keys.a { x := x - 1; }
    if keys.d { x := x + 1; }
    m := Axes(x, y);
  }
}
