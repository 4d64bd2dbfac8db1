/** A light moved directly by keyboard commands at a fixed speed. */
module MovableLights {
  import opened Geometry

  datatype MoveDirection = Upward | Downward | Forward | Backward | Leftward | Rightward

  /** The fixed movement speed of a movable light, in units per second. */
  const MOVEMENT_SPEED: real := 2.5

  /** The displacement of one command: the signed axis of the direction, scaled by the velocity. */
  function Displacement(d: MoveDirection, velocity: real): Vec3 {
    match d
    case Forward => Scale(FRONT_AXIS, velocity)
    case Backward => Neg(Scale(FRONT_AXIS, velocity))
    case Leftward => Scale(LEFT_AXIS, velocity)
    case Rightward => Neg(Scale(LEFT_AXIS, velocity))
    case Upward => Scale(UP_AXIS, velocity)
    case Downward => Neg(Scale(UP_AXIS, velocity))
  }

  /** The coordinate a direction moves along: 0 for x, 1 for y, 2 for z. */
  function AxisIndex(d: MoveDirection): nat {
    match d
    case Leftward | Rightward => 0
    case Upward | Downward => 1
    case Forward | Backward => 2
  }

  /**
   * A command changes exactly one coordinate, by the velocity in the positive direction
   * (forward, leftward, upward) or against it (backward, rightward, downward).
   */
  lemma DisplacementMovesOneAxis(p: Vec3, d: MoveDirection, velocity: real)
    ensures var q := Add(p, Displacement(d, velocity));
      forall i :: 0 <= i < 3 ==>
        Component(q, i) == Component(p, i) +
          (if i != AxisIndex(d) then 0.0
           else if d in {Forward, Leftward, Upward} then velocity
           else -velocity)
  {
  }

  /** With a zero time step nothing moves. */
  lemma ZeroTimeStepKeepsPosition(p: Vec3, d: MoveDirection)
    ensures Add(p, Displacement(d, MOVEMENT_SPEED * 0.0)) == p
  {
    var v := MOVEMENT_SPEED * 0.0;
    assert v == 0.0;
    ScaleByZero(FRONT_AXIS);
    ScaleByZero(LEFT_AXIS);
    ScaleByZero(UP_AXIS);
    match d
    case Forward => assert Displacement(Forward, v) == ZERO3;
    case Backward => assert Displacement(Backward, v) == ZERO3;
    case Leftward => assert Displacement(Leftward, v) == ZERO3;
    case Rightward => assert Displacement(Rightward, v) == ZERO3;
    case Upward => assert Displacement(Upward, v) == ZERO3;
    case Downward => assert Displacement(Downward, v) == ZERO3;
  }

  /** Scaling by zero gives the zero vector, and so does negating it. */
  lemma ScaleByZero(a: Vec3)
    ensures Scale(a, 0.0) == ZERO3 && Neg(Scale(a, 0.0)) == ZERO3
  {
    assert a.x * 0.0 == 0.0 && a.y * 0.0 == 0.0 && a.z * 0.0 == 0.0;
  }

  class MovableLight {
    var position: Vec3
    var color: Vec3

    constructor (position: Vec3, color: Vec3)
      ensures this.position == position && this.color == color
    {
      this.position := position;
      this.color := color;
    }

    /** Moves the light by MOVEMENT_SPEED * deltaTime along the command's axis. */
    method ProcessKeyboard(direction: MoveDirection, deltaTime: real)
      modifies this
      ensures position == Add(old(position), Displacement(direction, MOVEMENT_SPEED * deltaTime))
      ensures color == old(color)
    {
      var velocity := MOVEMENT_SPEED * deltaTime;
      if direction == Forward {
        position := Add(position, Scale(FRONT_AXIS, velocity));
      }
      if direction == Backward {
        position := Add(position, Neg(Scale(FRONT_AXIS, velocity)));
      }
      if direction == Leftward {
        position := Add(position, Scale(LEFT_AXIS, velocity));
      }
      if direction == Rightward {
        position := Add(position, Neg(Scale(LEFT_AXIS, velocity)));
      }
      if direction == Upward {
        position := Add(position, Scale(UP_AXIS, velocity));
      }
      if direction == Downward {
        position := Add(position, Neg(Scale(UP_AXIS, velocity)));
      }
    }
  }
}
