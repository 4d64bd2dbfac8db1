/**
 * Keyboard control of the scene's lights: which kind of light is selected, which light of that
 * kind, how fast it moves, and moving it.
 */
module LightManagement {
  import W = Wrappers
  import opened Geometry
  import opened Lights

  datatype ActiveLightType = None | Point | Spot

  datatype Direction = Up | Down | Front | Back | Left | Right

  /** The unit step for a direction: the three axes and their negations. */
  function Axis(dir: Direction): Vec3 {
    match dir
    case Up => UP_AXIS
    case Down => Vec3(0.0, -1.0, 0.0)
    case Front => FRONT_AXIS
    case Back => Vec3(0.0, 0.0, -1.0)
    case Left => LEFT_AXIS
    case Right => Vec3(-1.0, 0.0, 0.0)
  }

  /** The direction whose key undoes a step in `dir`. */
  function Opposite(dir: Direction): Direction {
    match dir
    case Up => Down
    case Down => Up
    case Front => Back
    case Back => Front
    case Left => Right
    case Right => Left
  }

  /** One step of length `k`: the displacement along the direction's axis. */
  lemma StepAlongAxis(dir: Direction, k: real)
    ensures dir == Up ==> Scale(Axis(dir), k) == Vec3(0.0, k, 0.0)
    ensures dir == Down ==> Scale(Axis(dir), k) == Vec3(0.0, -k, 0.0)
    ensures dir == Front ==> Scale(Axis(dir), k) == Vec3(0.0, 0.0, k)
    ensures dir == Back ==> Scale(Axis(dir), k) == Vec3(0.0, 0.0, -k)
    ensures dir == Left ==> Scale(Axis(dir), k) == Vec3(k, 0.0, 0.0)
    ensures dir == Right ==> Scale(Axis(dir), k) == Vec3(-k, 0.0, 0.0)
  {
  }

  /** Adding a vector and then its negation changes nothing. */
  lemma AddNegCancels(p: Vec3, d: Vec3)
    ensures Add(Add(p, d), Neg(d)) == p
  {
  }

  /** Down, back and right are the negated up, front and left axes. */
  lemma NegatedAxes()
    ensures Axis(Down) == Neg(UP_AXIS) && Axis(Back) == Neg(FRONT_AXIS) && Axis(Right) == Neg(LEFT_AXIS)
  {
  }

  /** The opposite direction's axis is the negated axis. */
  lemma OppositeAxisIsNegated(dir: Direction)
    ensures Axis(Opposite(dir)) == Neg(Axis(dir))
  {
    match dir
    case Up => assert Neg(Axis(Up)) == Vec3(-0.0, -1.0, -0.0);
    case Down => assert Neg(Axis(Down)) == Vec3(-0.0, 1.0, -0.0);
    case Front => assert Neg(Axis(Front)) == Vec3(-0.0, -0.0, -1.0);
    case Back => assert Neg(Axis(Back)) == Vec3(-0.0, -0.0, 1.0);
    case Left => assert Neg(Axis(Left)) == Vec3(-1.0, -0.0, -0.0);
    case Right => assert Neg(Axis(Right)) == Vec3(1.0, -0.0, -0.0);
  }

  /** Scaling a negated vector is negating the scaled vector. */
  lemma ScaleNeg(a: Vec3, k: real)
    ensures Scale(Neg(a), k) == Neg(Scale(a, k))
  {
    assert (-a.x) * k == -(a.x * k) && (-a.y) * k == -(a.y * k) && (-a.z) * k == -(a.z * k);
  }

  /** A step in the opposite direction with the same length brings the light back. */
  lemma OppositeStepsCancel(p: Vec3, dir: Direction, k: real)
    ensures Add(Add(p, Scale(Axis(dir), k)), Scale(Axis(Opposite(dir)), k)) == p
  {
    OppositeAxisIsNegated(dir);
    ScaleNeg(Axis(dir), k);
    AddNegCancels(p, Scale(Axis(dir), k));
  }

  // ---------------------------------------------------------------------------------------------
  // Selection

  /** The selection part of the manager's state. */
  datatype Selection = Selection(activeType: ActiveLightType, curPointLight: int, curSpotLight: int)

  /** A cursor names an element of its list; over an empty list it stays at 0. */
  predicate CursorInRange(cur: int, n: nat) {
    if n == 0 then cur == 0 else 0 <= cur < n
  }

  predicate InRange(s: Selection, nPoint: nat, nSpot: nat) {
    CursorInRange(s.curPointLight, nPoint) && CursorInRange(s.curSpotLight, nSpot)
  }

  const INITIAL_SELECTION := Selection(None, 0, 0)

  /** The cursor one step forward, wrapping from the last element to the first. */
  function NextIndex(cur: int, n: nat): (r: int)
    requires n > 0 && 0 <= cur < n
    ensures 0 <= r < n
    ensures cur < n - 1 ==> r == cur + 1
    ensures cur == n - 1 ==> r == 0
  {
    (cur + 1) % n
  }

  /** The cursor one step back, wrapping from the first element to the last. */
  function PreviousIndex(cur: int, n: nat): (r: int)
    requires n > 0 && 0 <= cur < n
    ensures 0 <= r < n
    ensures cur > 0 ==> r == cur - 1
    ensures cur == 0 ==> r == n - 1
  {
    if cur == 0 then n - 1 else (cur - 1) % n
  }

  /** Stepping back undoes stepping forward and the other way round. */
  lemma IndexStepsInverse(cur: int, n: nat)
    requires n > 0 && 0 <= cur < n
    ensures PreviousIndex(NextIndex(cur, n), n) == cur
    ensures NextIndex(PreviousIndex(cur, n), n) == cur
  {
  }

  /** Next light of the active kind; nothing happens with no active kind or an empty list. */
  function SwitchedToNext(s: Selection, nPoint: nat, nSpot: nat): (r: Selection)
    requires InRange(s, nPoint, nSpot)
    ensures InRange(r, nPoint, nSpot) && r.activeType == s.activeType
    ensures s.activeType != Spot ==> r.curSpotLight == s.curSpotLight
    ensures s.activeType != Point ==> r.curPointLight == s.curPointLight
  {
    match s.activeType
    case None => s
    case Point => if nPoint > 0 then s.(curPointLight := NextIndex(s.curPointLight, nPoint)) else s
    case Spot => if nSpot > 0 then s.(curSpotLight := NextIndex(s.curSpotLight, nSpot)) else s
  }

  /** Previous light of the active kind, each kind guarded by its own list. */
  function SwitchedToPrevious(s: Selection, nPoint: nat, nSpot: nat): (r: Selection)
    requires InRange(s, nPoint, nSpot)
    ensures InRange(r, nPoint, nSpot) && r.activeType == s.activeType
    ensures s.activeType != Spot ==> r.curSpotLight == s.curSpotLight
    ensures s.activeType != Point ==> r.curPointLight == s.curPointLight
  {
    match s.activeType
    case None => s
    case Point => if nPoint > 0 then s.(curPointLight := PreviousIndex(s.curPointLight, nPoint)) else s
    case Spot => if nSpot > 0 then s.(curSpotLight := PreviousIndex(s.curSpotLight, nSpot)) else s
  }

  /** Previous and next are inverse to each other on every in-range selection. */
  lemma SwitchesInverse(s: Selection, nPoint: nat, nSpot: nat)
    requires InRange(s, nPoint, nSpot)
    ensures SwitchedToNext(SwitchedToPrevious(s, nPoint, nSpot), nPoint, nSpot) == s
    ensures SwitchedToPrevious(SwitchedToNext(s, nPoint, nSpot), nPoint, nSpot) == s
  {
    match s.activeType
    case None =>
    case Point =>
      if nPoint > 0 {
        IndexStepsInverse(s.curPointLight, nPoint);
      }
    case Spot =>
      if nSpot > 0 {
        IndexStepsInverse(s.curSpotLight, nSpot);
      }
  }

  /** Choosing the active kind again deselects it; choosing another kind selects that one. */
  function Toggled(s: Selection, t: ActiveLightType): (r: Selection)
    ensures r.curPointLight == s.curPointLight && r.curSpotLight == s.curSpotLight
    ensures s.activeType == t ==> r.activeType == None
    ensures s.activeType != t ==> r.activeType == t
  {
    if s.activeType == t then s.(activeType := None) else s.(activeType := t)
  }

  /** Choosing the same kind twice returns to where it started, from nothing or from that kind. */
  lemma ToggleTwice(s: Selection, t: ActiveLightType)
    requires t != None && (s.activeType == None || s.activeType == t)
    ensures Toggled(Toggled(s, t), t) == s
  {
  }

  // ---------------------------------------------------------------------------------------------
  // switchToPrevious as written

  const SIZE_T_MODULUS: int := 0x1_0000_0000_0000_0000
  const INT32_MODULUS: int := 0x1_0000_0000

  /** An integer converted to a 64-bit unsigned size. */
  function ToSizeT(x: int): (r: nat)
    ensures r < SIZE_T_MODULUS
    ensures 0 <= x < SIZE_T_MODULUS ==> r == x
  {
    x % SIZE_T_MODULUS
  }

  /** An unsigned value stored into a 32-bit signed int, keeping the low 32 bits. */
  function ToInt32(x: nat): (r: int)
    ensures -0x8000_0000 <= r < 0x8000_0000
    ensures x < 0x8000_0000 ==> r == x
  {
    var low := x % INT32_MODULUS;
    if low >= 0x8000_0000 then low - INT32_MODULUS else low
  }

  /**
   * The cursor step back computed with the program's unsigned size arithmetic; None when it
   * divides by zero.
   */
  function PreviousIndexAsWritten(cur: int, n: nat): W.Option<int> {
    if cur == 0 then W.Some(ToInt32(ToSizeT(n - 1)))
    else if n == 0 then W.None
    else W.Some(ToInt32(ToSizeT(cur - 1) % n))
  }

  /**
   * Previous light as the program has it: the point branch is guarded by the size of the spot
   * list. None when the step divides by zero.
   */
  function SwitchedToPreviousAsWritten(s: Selection, nPoint: nat, nSpot: nat): W.Option<Selection> {
    match s.activeType
    case None => W.Some(s)
    case Point =>
      if nSpot > 0 then
        match PreviousIndexAsWritten(s.curPointLight, nPoint)
        case None => W.None
        case Some(c) => W.Some(s.(curPointLight := c))
      else W.Some(s)
    case Spot =>
      if nSpot > 0 then
        match PreviousIndexAsWritten(s.curSpotLight, nSpot)
        case None => W.None
        case Some(c) => W.Some(s.(curSpotLight := c))
      else W.Some(s)
  }

  /** With both lists non-empty (and sizes an int can hold) the program's step is the intended one. */
  lemma AsWrittenAgreesWhenBothListsNonEmpty(s: Selection, nPoint: nat, nSpot: nat)
    requires InRange(s, nPoint, nSpot)
    requires 0 < nPoint < 0x8000_0000 && 0 < nSpot < 0x8000_0000
    ensures SwitchedToPreviousAsWritten(s, nPoint, nSpot) == W.Some(SwitchedToPrevious(s, nPoint, nSpot))
  {
  }

  /**
   * Point mode with no spot lights: the program ignores the key although there is a previous
   * point light to go to.
   */
  lemma AsWrittenIgnoresPointListWithoutSpots()
    ensures SwitchedToPreviousAsWritten(Selection(Point, 0, 0), 2, 0) == W.Some(Selection(Point, 0, 0))
    ensures SwitchedToPrevious(Selection(Point, 0, 0), 2, 0) == Selection(Point, 1, 0)
  {
  }

  /**
   * Point mode with no point lights but one spot light: the first press moves the point cursor
   * to -1, out of range, and the second divides by zero.
   */
  lemma AsWrittenLeavesRangeThenDividesByZero()
    ensures var first := SwitchedToPreviousAsWritten(Selection(Point, 0, 0), 0, 1);
      && first == W.Some(Selection(Point, -1, 0))
      && !InRange(first.value, 0, 1)
      && SwitchedToPreviousAsWritten(first.value, 0, 1).None?
    ensures SwitchedToPrevious(Selection(Point, 0, 0), 0, 1) == Selection(Point, 0, 0)
  {
    assert ToSizeT(0 - 1) == SIZE_T_MODULUS - 1;
    assert (SIZE_T_MODULUS - 1) % INT32_MODULUS == INT32_MODULUS - 1;
  }

  // ---------------------------------------------------------------------------------------------
  // Keys

  datatype Key = Key1 | Key2 | KeyLeft | KeyRight | KeyU | KeyO | KeyI | KeyK | KeyJ | KeyL
               | KeyEqual | KeyMinus | OtherKey(code: int)

  datatype KeyAction = Press | Release | Repeat

  datatype Command = SwitchType(t: ActiveLightType) | ToPrevious | ToNext | Translate(dir: Direction)
                   | SpeedUp | SlowDown

  /** What a key event asks for: selection and speed keys act on a press, movement keys on a repeat. */
  function CommandOf(key: Key, action: KeyAction): W.Option<Command> {
    match key
    case Key1 => if action == Press then W.Some(SwitchType(Point)) else W.None
    case Key2 => if action == Press then W.Some(SwitchType(Spot)) else W.None
    case KeyLeft => if action == Press then W.Some(ToPrevious) else W.None
    case KeyRight => if action == Press then W.Some(ToNext) else W.None
    case KeyU => if action == Repeat then W.Some(Translate(Up)) else W.None
    case KeyO => if action == Repeat then W.Some(Translate(Down)) else W.None
    case KeyI => if action == Repeat then W.Some(Translate(Front)) else W.None
    case KeyK => if action == Repeat then W.Some(Translate(Back)) else W.None
    case KeyJ => if action == Repeat then W.Some(Translate(Left)) else W.None
    case KeyL => if action == Repeat then W.Some(Translate(Right)) else W.None
    case KeyEqual => if action == Press then W.Some(SpeedUp) else W.None
    case KeyMinus => if action == Press then W.Some(SlowDown) else W.None
    case OtherKey(_) => W.None
  }

  /**
   * A release never does anything, unknown keys never do anything, movement happens only on a
   * repeat and everything else only on a press.
   */
  lemma CommandDispatch(key: Key, action: KeyAction)
    ensures action == Release ==> CommandOf(key, action).None?
    ensures key.OtherKey? ==> CommandOf(key, action).None?
    ensures CommandOf(key, action).Some? && CommandOf(key, action).value.Translate? ==> action == Repeat
    ensures CommandOf(key, action).Some? && !CommandOf(key, action).value.Translate? ==> action == Press
    ensures action == Repeat && key in {KeyU, KeyO, KeyI, KeyK, KeyJ, KeyL} ==> CommandOf(key, action).Some?
    ensures action == Press && key in {Key1, Key2, KeyLeft, KeyRight, KeyEqual, KeyMinus} ==> CommandOf(key, action).Some?
  {
  }

  const MAX_SPEED: int := 10
  const MIN_SPEED: int := 0
  const INITIAL_SPEED: int := 5

  /** One unit faster, but never past the maximum. */
  function Faster(speed: int): (r: int)
    ensures r <= MAX_SPEED
    ensures speed < MAX_SPEED ==> r == speed + 1
    ensures speed >= MAX_SPEED ==> r == MAX_SPEED
  {
    if speed >= MAX_SPEED then MAX_SPEED else speed + 1
  }

  /** One unit slower, but never below the minimum. */
  function Slower(speed: int): (r: int)
    ensures r >= MIN_SPEED
    ensures speed > MIN_SPEED ==> r == speed - 1
    ensures speed <= MIN_SPEED ==> r == MIN_SPEED
  {
    if speed <= MIN_SPEED then MIN_SPEED else speed - 1
  }

  /** Any sequence of speed keys keeps the speed within its bounds. */
  lemma {:induction false} SpeedStaysInBounds(speed: int, keys: seq<bool>)
    requires MIN_SPEED <= speed <= MAX_SPEED
    ensures MIN_SPEED <= SpeedAfter(speed, keys) <= MAX_SPEED
    decreases |keys|
  {
    if keys != [] {
      SpeedStaysInBounds(if keys[0] then Faster(speed) else Slower(speed), keys[1..]);
    }
  }

  /** The speed after a sequence of presses, true for faster and false for slower. */
  function SpeedAfter(speed: int, keys: seq<bool>): int
    decreases |keys|
  {
    if keys == [] then speed
    else SpeedAfter(if keys[0] then Faster(speed) else Slower(speed), keys[1..])
  }

  // ---------------------------------------------------------------------------------------------
  // The manager

  /** The movement speed, one value shared by every manager. */
  class SpeedSetting {
    var value: int

    ghost predicate Valid()
      reads this
    {
      MIN_SPEED <= value <= MAX_SPEED
    }

    constructor ()
      ensures Valid() && value == INITIAL_SPEED
    {
      value := INITIAL_SPEED;
    }
  }

  class LightManager {
    /** The caller's lights; the manager moves them but never adds or removes any. */
    const pointLights: seq<PointLight>
    const spotLights: seq<SpotLight>
    const speed: SpeedSetting
    var curPointLight: int
    var curSpotLight: int
    var activeType: ActiveLightType
    var deltaTime: real

    function Selected(): Selection
      reads this
    {
      Selection(activeType, curPointLight, curSpotLight)
    }

    ghost predicate Valid()
      reads this, speed
    {
      && InRange(Selected(), |pointLights|, |spotLights|)
      && deltaTime >= 0.0
      && speed.Valid()
      && (forall i, j :: 0 <= i < j < |pointLights| ==> pointLights[i] != pointLights[j])
      && (forall i, j :: 0 <= i < j < |spotLights| ==> spotLights[i] != spotLights[j])
    }

    /** Nothing selected, both cursors at the first light, no time elapsed. */
    constructor (pointLights: seq<PointLight>, spotLights: seq<SpotLight>, speed: SpeedSetting)
      requires speed.Valid()
      requires forall i, j :: 0 <= i < j < |pointLights| ==> pointLights[i] != pointLights[j]
      requires forall i, j :: 0 <= i < j < |spotLights| ==> spotLights[i] != spotLights[j]
      ensures Valid()
      ensures this.pointLights == pointLights && this.spotLights == spotLights && this.speed == speed
      ensures Selected() == INITIAL_SELECTION && deltaTime == 0.0
    {
      this.pointLights := pointLights;
      this.spotLights := spotLights;
      this.speed := speed;
      curPointLight := 0;
      curSpotLight := 0;
      activeType := None;
      deltaTime := 0.0;
    }

    method SwitchToNext()
      requires Valid()
      modifies this
      ensures Valid() && deltaTime == old(deltaTime)
      ensures Selected() == SwitchedToNext(old(Selected()), |pointLights|, |spotLights|)
    {
      match activeType {
        case None =>
          return;
        case Point =>
          if |pointLights| > 0 {
            curPointLight := (curPointLight + 1) % |pointLights|;
          }
        case Spot =>
          if |spotLights| > 0 {
            curSpotLight := (curSpotLight + 1) % |spotLights|;
          }
      }
    }

    /** Previous light of the active kind, with the point branch guarded by the point list. */
    method SwitchToPrevious()
      requires Valid()
      modifies this
      ensures Valid() && deltaTime == old(deltaTime)
      ensures Selected() == SwitchedToPrevious(old(Selected()), |pointLights|, |spotLights|)
    {
      match activeType {
        case None =>
          return;
        case Point =>
          if |pointLights| > 0 {
            curPointLight := if curPointLight == 0 then |pointLights| - 1 else (curPointLight - 1) % |pointLights|;
          }
        case Spot =>
          if |spotLights| > 0 {
            curSpotLight := if curSpotLight == 0 then |spotLights| - 1 else (curSpotLight - 1) % |spotLights|;
          }
      }
    }

    /**
     * Previous light as the program has it, with its unsigned size arithmetic. `defined` is
     * false where the program divides by zero; the state is then left as it was.
     */
    method SwitchToPreviousAsWritten() returns (defined: bool)
      modifies this
      ensures deltaTime == old(deltaTime)
      ensures var r := SwitchedToPreviousAsWritten(old(Selected()), |pointLights|, |spotLights|);
        && (defined <==> r.Some?)
        && (defined ==> Selected() == r.value)
        && (!defined ==> Selected() == old(Selected()))
    ensures old(Valid()) ==> defined
    ensures old(Valid()) ==> (Valid() <==> InRange(Selected(), |pointLights|, |spotLights|))
    ensures old(Valid()) && 0 < |pointLights| < 0x8000_0000 && 0 < |spotLights| < 0x8000_0000 ==> Valid()
    {
      if Valid() && 0 < |pointLights| < 0x8000_0000 && 0 < |spotLights| < 0x8000_0000 {
        AsWrittenAgreesWhenBothListsNonEmpty(Selected(), |pointLights|, |spotLights|);
      }
      defined := true;
      match activeType {
        case None =>
          return;
        case Point =>
          if |spotLights| > 0 {
            if curPointLight == 0 {
              curPointLight := ToInt32(ToSizeT(|pointLights| - 1));
            } else if |pointLights| == 0 {
              defined := false;
            } else {
              curPointLight := ToInt32(ToSizeT(curPointLight - 1) % |pointLights|);
            }
          }
        case Spot =>
          if |spotLights| > 0 {
            if curSpotLight == 0 {
              curSpotLight := ToInt32(ToSizeT(|spotLights| - 1));
            } else {
              curSpotLight := ToInt32(ToSizeT(curSpotLight - 1) % |spotLights|);
            }
          }
      }
    }

    method SwitchLightType(t: ActiveLightType)
      requires Valid()
      modifies this
      ensures Valid() && deltaTime == old(deltaTime)
      ensures Selected() == Toggled(old(Selected()), t)
    {
      if activeType == t {
        activeType := None;
      } else {
        activeType := t;
      }
    }

    /** Selects a kind outright, without toggling. */
    method SetActiveLightType(t: ActiveLightType)
      requires Valid()
      modifies this
      ensures Valid() && deltaTime == old(deltaTime)
      ensures Selected() == old(Selected()).(activeType := t)
    {
      activeType := t;
    }

    /** A negative time step is stored as zero. */
    method UpdateDeltaTime(d: real)
      requires Valid()
      modifies this
      ensures Valid() && Selected() == old(Selected())
      ensures d >= 0.0 ==> deltaTime == d
      ensures d < 0.0 ==> deltaTime == 0.0
    {
      deltaTime := if d >= 0.0 then d else 0.0;
    }

    /** The displacement of one translation step: the axis scaled by speed times elapsed time. */
    function StepDelta(dir: Direction): Vec3
      reads this, speed
    {
      Scale(Axis(dir), speed.value as real * deltaTime)
    }

    /** Every field of a point light except its position is as it was. */
    twostate predicate PointUnchangedButPosition(l: PointLight)
      reads l
    {
      && l.color == old(l.color)
      && l.constant == old(l.constant) && l.linear == old(l.linear) && l.quadratic == old(l.quadratic)
    }

    /** Every field of a spot light except its position is as it was. */
    twostate predicate SpotUnchangedButPosition(l: SpotLight)
      reads l
    {
      && l.color == old(l.color) && l.direction == old(l.direction)
      && l.constant == old(l.constant) && l.linear == old(l.linear) && l.quadratic == old(l.quadratic)
      && l.cutOff == old(l.cutOff) && l.outerCutOff == old(l.outerCutOff)
    }

    /**
     * The selected light of the active kind moved by one step in `dir` and kept its other fields;
     * every other light is untouched.
     */
    twostate predicate MovedSelectedLight(dir: Direction)
      reads this, speed, pointLights, spotLights
    {
      && (forall i :: 0 <= i < |pointLights| ==>
            if activeType == Point && i == curPointLight then
              pointLights[i].position == Add(old(pointLights[i].position), StepDelta(dir))
              && PointUnchangedButPosition(pointLights[i])
            else unchanged(pointLights[i]))
      && (forall i :: 0 <= i < |spotLights| ==>
            if activeType == Spot && i == curSpotLight then
              spotLights[i].position == Add(old(spotLights[i].position), StepDelta(dir))
              && SpotUnchangedButPosition(spotLights[i])
            else unchanged(spotLights[i]))
    }

    /** No light changed at all. */
    twostate predicate LightsUnchanged()
      reads pointLights, spotLights
    {
      && (forall i :: 0 <= i < |pointLights| ==> unchanged(pointLights[i]))
      && (forall i :: 0 <= i < |spotLights| ==> unchanged(spotLights[i]))
    }

    /**
     * Moves the selected light of the active kind by one step; with nothing selected or an empty
     * list nothing moves.
     */
    method TranslateCurrentLight(dir: Direction)
      requires Valid()
      modifies pointLights, spotLights
      ensures Valid()
      ensures MovedSelectedLight(dir)
    {
      if activeType == None || (activeType == Point && |pointLights| == 0) || (activeType == Spot && |spotLights| == 0) {
        return;
      }
      var delta := Axis(dir);
      delta := Scale(delta, speed.value as real * deltaTime);
      if activeType == Point {
        var light := pointLights[curPointLight];
        light.SetPosition(Add(light.position, delta));
      } else if activeType == Spot {
        var light := spotLights[curSpotLight];
        light.SetPosition(Add(light.position, delta));
      }
    }

    /** Handles one key event: at most one of the operations above, or a speed change. */
    method KeyCallback(key: Key, action: KeyAction)
      requires Valid()
      modifies this, speed, pointLights, spotLights
      ensures Valid()
      ensures var c := CommandOf(key, action);
        && Selected() == SelectionAfter(old(Selected()), c, |pointLights|, |spotLights|)
        && speed.value == SpeedAfterCommand(old(speed.value), c)
        && deltaTime == old(deltaTime)
        && (c.Some? && c.value.Translate? ==> MovedSelectedLight(c.value.dir))
        && (c.None? || !c.value.Translate? ==> LightsUnchanged())
    {
      match key {
        case Key1 => if action == Press { SwitchLightType(Point); }
        case Key2 => if action == Press { SwitchLightType(Spot); }
        case KeyLeft => if action == Press { SwitchToPrevious(); }
        case KeyRight => if action == Press { SwitchToNext(); }
        case KeyU => if action == Repeat { TranslateCurrentLight(Up); }
        case KeyO => if action == Repeat { TranslateCurrentLight(Down); }
        case KeyI => if action == Repeat { TranslateCurrentLight(Front); }
        case KeyK => if action == Repeat { TranslateCurrentLight(Back); }
        case KeyJ => if action == Repeat { TranslateCurrentLight(Left); }
        case KeyL => if action == Repeat { TranslateCurrentLight(Right); }
        case KeyEqual => if action == Press { speed.value := if speed.value >= MAX_SPEED then MAX_SPEED else speed.value + 1; }
        case KeyMinus => if action == Press { speed.value := if speed.value <= MIN_SPEED then MIN_SPEED else speed.value - 1; }
        case OtherKey(_) =>
      }
    }
  }

  /** The selection after a command. */
  function SelectionAfter(s: Selection, c: W.Option<Command>, nPoint: nat, nSpot: nat): Selection
    requires InRange(s, nPoint, nSpot)
  {
    match c
    case None => s
    case Some(SwitchType(t)) => Toggled(s, t)
    case Some(ToPrevious) => SwitchedToPrevious(s, nPoint, nSpot)
    case Some(ToNext) => SwitchedToNext(s, nPoint, nSpot)
    case Some(_) => s
  }

  /** The speed after a command. */
  function SpeedAfterCommand(speed: int, c: W.Option<Command>): int {
    match c
    case Some(SpeedUp) => Faster(speed)
    case Some(SlowDown) => Slower(speed)
    case _ => speed
  }
}
