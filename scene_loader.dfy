/**
 * Scene ingestion: a lights file made of typed blocks and an objects file made of fixed-layout
 * records, both validated; any failure ends the whole load with an error.
 */
module SceneLoading {
  import opened Wrappers
  import opened Geometry
  import opened Lights
  import opened Models
  import opened Objects

  const MIN_ALLOWED_POSITION: real := -1000.0
  const MAX_ALLOWED_POSITION: real := 1000.0
  const MIN_ALLOWED_COLOR: real := 0.0
  const MAX_ALLOWED_COLOR: real := 1000.0
  const MIN_ALLOWED_DEGREES_ANGLE: real := 0.0
  const MAX_ALLOWED_DEGREES_ANGLE: real := 90.0

  // ---------------------------------------------------------------------------------------------
  // Validators

  /** Every component lies in [left, right], both ends included. */
  function CheckRangeVec3(v: Vec3, left: real, right: real): (ok: bool)
    ensures ok <==> forall i :: 0 <= i < 3 ==> left <= Component(v, i) <= right
  {
    assert Component(v, 0) == v.x && Component(v, 1) == v.y && Component(v, 2) == v.z;
    left <= v.x && v.x <= right && left <= v.y && v.y <= right && left <= v.z && v.z <= right
  }

  /** No coefficient is negative and at least one is positive. */
  function CheckAttenuation(constant: real, linear: real, quadratic: real): (ok: bool)
    ensures ok <==> constant >= 0.0 && linear >= 0.0 && quadratic >= 0.0
                    && (constant > 0.0 || linear > 0.0 || quadratic > 0.0)
  {
    SquaresPositive(constant, linear, quadratic);
    constant >= 0.0 && linear >= 0.0 && quadratic >= 0.0
    && constant * constant + linear * linear + quadratic * quadratic > 0.0
  }

  lemma SquaresPositive(a: real, b: real, c: real)
    ensures a * a + b * b + c * c > 0.0 <==> a != 0.0 || b != 0.0 || c != 0.0
  {
    if a != 0.0 { assert a * a > 0.0; }
    if b != 0.0 { assert b * b > 0.0; }
    if c != 0.0 { assert c * c > 0.0; }
  }

  /** Both angles strictly inside (0, 90) and the outer one strictly wider. */
  function CheckAngles(cutOff: real, outerCutOff: real): (ok: bool)
    ensures ok <==> MIN_ALLOWED_DEGREES_ANGLE < cutOff < outerCutOff < MAX_ALLOWED_DEGREES_ANGLE
  {
    cutOff > MIN_ALLOWED_DEGREES_ANGLE && cutOff < MAX_ALLOWED_DEGREES_ANGLE
    && outerCutOff > MIN_ALLOWED_DEGREES_ANGLE && outerCutOff < MAX_ALLOWED_DEGREES_ANGLE
    && outerCutOff > cutOff
  }

  /** Every component is strictly positive. */
  function CheckScale(scale: Vec3): (ok: bool)
    ensures ok <==> forall i :: 0 <= i < 3 ==> Component(scale, i) > 0.0
  {
    assert Component(scale, 0) == scale.x && Component(scale, 1) == scale.y && Component(scale, 2) == scale.z;
    scale.x > 0.0 && scale.y > 0.0 && scale.z > 0.0
  }

  /** The boundary cases of the validators. */
  lemma ValidatorExamples()
    ensures !CheckAngles(45.0, 45.0) && !CheckAngles(0.0, 60.0) && CheckAngles(30.0, 60.0)
    ensures !CheckAttenuation(0.0, 0.0, 0.0) && CheckAttenuation(0.0, 0.0, 1.0)
    ensures CheckRangeVec3(Vec3(-1000.0, 0.0, 1000.0), MIN_ALLOWED_POSITION, MAX_ALLOWED_POSITION)
    ensures !CheckRangeVec3(Vec3(0.0, -0.5, 0.0), MIN_ALLOWED_COLOR, MAX_ALLOWED_COLOR)
    ensures !CheckScale(Vec3(1.0, 0.0, 1.0))
  {
    assert Component(Vec3(0.0, -0.5, 0.0), 1) == -0.5;
    assert Component(Vec3(1.0, 0.0, 1.0), 1) == 0.0;
  }

  // ---------------------------------------------------------------------------------------------
  // Input lines

  /**
   * One line of an input file: a word (a light type or a model path) or a list of numbers.
   * A numeric read takes the leading numbers of a line and drops the rest of it.
   */
  datatype Line = Word(text: string) | Numbers(values: seq<real>)

  /** The first k numbers of a line, or None when the line has fewer or is not numeric. */
  function NumbersOf(line: Line, k: nat): (r: Option<seq<real>>)
    ensures r.Some? <==> line.Numbers? && |line.values| >= k
    ensures r.Some? ==> |r.value| == k && r.value <= line.values
  {
    if line.Numbers? && |line.values| >= k then Some(line.values[..k]) else None
  }

  function Vec3Of(line: Line): Option<Vec3> {
    match NumbersOf(line, 3)
    case Some(n) => Some(Vec3(n[0], n[1], n[2]))
    case None => None
  }

  function RenderVec3(v: Vec3): Line {
    Numbers([v.x, v.y, v.z])
  }

  lemma Vec3RoundTrip(v: Vec3)
    ensures Vec3Of(RenderVec3(v)) == Some(v)
  {
    assert [v.x, v.y, v.z][..3] == [v.x, v.y, v.z];
  }

  /** A cursor over the lines of a file, as the string stream the loader consumes. */
  class LineStream {
    const lines: seq<Line>
    var pos: nat

    ghost predicate Valid()
      reads this
    {
      pos <= |lines|
    }

    constructor (lines: seq<Line>)
      ensures Valid() && this.lines == lines && pos == 0
    {
      this.lines := lines;
      pos := 0;
    }

    /** The next whole line, or None at the end. */
    method GetLine() returns (line: Option<Line>)
      requires Valid()
      modifies this
      ensures Valid()
      ensures old(pos) < |lines| ==> line == Some(lines[old(pos)]) && pos == old(pos) + 1
      ensures old(pos) == |lines| ==> line.None? && pos == old(pos)
    {
      if pos < |lines| {
        line := Some(lines[pos]);
        pos := pos + 1;
      } else {
        line := None;
      }
    }

    /** The first k numbers of the next line, which is consumed whole. */
    method GetNumbers(k: nat) returns (r: Option<seq<real>>)
      requires Valid()
      modifies this
      ensures Valid()
      ensures old(pos) < |lines| ==> r == NumbersOf(lines[old(pos)], k) && pos == old(pos) + 1
      ensures old(pos) == |lines| ==> r.None? && pos == old(pos)
    {
      var line := GetLine();
      r := if line.Some? then NumbersOf(line.value, k) else None;
    }

    /** The next line read as a vector. */
    method GetVec3() returns (r: Option<Vec3>)
      requires Valid()
      modifies this
      ensures Valid()
      ensures old(pos) < |lines| ==> r == Vec3Of(lines[old(pos)]) && pos == old(pos) + 1
      ensures old(pos) == |lines| ==> r.None? && pos == old(pos)
    {
      var n := GetNumbers(3);
      r := if n.Some? then Some(Vec3(n.value[0], n.value[1], n.value[2])) else None;
    }
  }

  // ---------------------------------------------------------------------------------------------
  // Light blocks

  datatype LightKind = Directional | Point | Spot

  datatype PointRecord = PointRecord(position: Vec3, color: Vec3, constant: real, linear: real, quadratic: real)

  datatype SpotRecord = SpotRecord(position: Vec3, color: Vec3, direction: Vec3,
                                   constant: real, linear: real, quadratic: real,
                                   cutOff: real, outerCutOff: real)

  /** The values one block of the lights file carries. */
  datatype LightBlock = DirectionalBlock(d: DirectionalLight) | PointBlock(p: PointRecord) | SpotBlock(s: SpotRecord)

  /** Why a load stops; `number` counts light blocks or object records from 1. */
  datatype LoadError =
    | UnknownType(line: Line)
    | FailedToLoadLight(kind: LightKind, number: nat)
    | WrongModelPosition(number: nat)
    | WrongScale
    | MalformedObject(number: nat)
    | FailedToLoadModel(path: string)

  function KindName(kind: LightKind): string {
    match kind
    case Directional => "directional"
    case Point => "point"
    case Spot => "spot"
  }

  /** The block type a line announces, if any. */
  function KindOf(line: Line): (r: Option<LightKind>)
    ensures r.Some? <==> exists k :: line == Word(KindName(k))
    ensures r.Some? ==> line == Word(KindName(r.value))
  {
    if line == Word(KindName(Point)) then Some(Point)
    else if line == Word(KindName(Spot)) then Some(Spot)
    else if line == Word(KindName(Directional)) then Some(Directional)
    else None
  }

  function BlockKind(b: LightBlock): LightKind {
    match b
    case DirectionalBlock(_) => Directional
    case PointBlock(_) => Point
    case SpotBlock(_) => Spot
  }

  /** Lines after the type line: colour and direction; position, colour and attenuation; or position, colour, direction, attenuation and angles. */
  function BlockLength(kind: LightKind): nat {
    match kind
    case Directional => 2
    case Point => 3
    case Spot => 5
  }

  /** The block read from the lines after its type line, or None when one of them is malformed. */
  function DecodeBlock(kind: LightKind, body: seq<Line>): Option<LightBlock>
    requires |body| == BlockLength(kind)
  {
    match kind
    case Directional =>
      if Vec3Of(body[0]).None? || Vec3Of(body[1]).None? then None
      else Some(DirectionalBlock(DirectionalLight(Vec3Of(body[0]).value, Vec3Of(body[1]).value)))
    case Point =>
      if Vec3Of(body[0]).None? || Vec3Of(body[1]).None? || NumbersOf(body[2], 3).None? then None
      else
        var a := NumbersOf(body[2], 3).value;
        Some(PointBlock(PointRecord(Vec3Of(body[0]).value, Vec3Of(body[1]).value, a[0], a[1], a[2])))
    case Spot =>
      if Vec3Of(body[0]).None? || Vec3Of(body[1]).None? || Vec3Of(body[2]).None?
         || NumbersOf(body[3], 3).None? || NumbersOf(body[4], 2).None? then None
      else
        var a := NumbersOf(body[3], 3).value;
        var g := NumbersOf(body[4], 2).value;
        Some(SpotBlock(SpotRecord(Vec3Of(body[0]).value, Vec3Of(body[1]).value, Vec3Of(body[2]).value,
                                  a[0], a[1], a[2], g[0], g[1])))
  }

  /** The block of the given kind starting at line p, if the lines are there and well formed. */
  function DecodeAt(kind: LightKind, lines: seq<Line>, p: nat): Option<LightBlock> {
    if p + BlockLength(kind) <= |lines| then DecodeBlock(kind, lines[p..p + BlockLength(kind)]) else None
  }

  /**
   * The checks each light type passes: a directional light's colour only, a point light's
   * position, colour and attenuation, and a spot light's angles as well.
   */
  predicate BlockValid(b: LightBlock) {
    match b
    case DirectionalBlock(d) =>
      CheckRangeVec3(d.color, MIN_ALLOWED_COLOR, MAX_ALLOWED_COLOR)
    case PointBlock(p) =>
      && CheckRangeVec3(p.position, MIN_ALLOWED_POSITION, MAX_ALLOWED_POSITION)
      && CheckRangeVec3(p.color, MIN_ALLOWED_COLOR, MAX_ALLOWED_COLOR)
      && CheckAttenuation(p.constant, p.linear, p.quadratic)
    case SpotBlock(s) =>
      && CheckRangeVec3(s.position, MIN_ALLOWED_POSITION, MAX_ALLOWED_POSITION)
      && CheckRangeVec3(s.color, MIN_ALLOWED_COLOR, MAX_ALLOWED_COLOR)
      && CheckAttenuation(s.constant, s.linear, s.quadratic)
      && CheckAngles(s.cutOff, s.outerCutOff)
  }

  /**
   * The loader accepts a zero constant coefficient as long as another one is positive (a point
   * light with attenuation 0, 0, 1 passes), and the light then built carries 1.0 in its place.
   */
  lemma AcceptedZeroConstantIsReplaced(r: PointRecord)
    requires BlockValid(PointBlock(r)) && r.constant == 0.0
    ensures r.linear + r.quadratic > 0.0
    ensures DefaultConstant(r.constant) == 1.0
    ensures BlockValid(PointBlock(PointRecord(ZERO3, ZERO3, 0.0, 0.0, 1.0)))
  {
    assert CheckRangeVec3(ZERO3, MIN_ALLOWED_POSITION, MAX_ALLOWED_POSITION);
    assert CheckRangeVec3(ZERO3, MIN_ALLOWED_COLOR, MAX_ALLOWED_COLOR);
  }

  function PrependAll<T>(xs: seq<T>, r: Result<seq<T>, LoadError>): Result<seq<T>, LoadError> {
    match r
    case Ok(ys) => Ok(xs + ys)
    case Err(e) => Err(e)
  }

  /**
   * The block that starts at the first line, read and checked. A line that names no light type,
   * or a block that is malformed or fails its checks, is an error naming that block.
   */
  function ReadBlock(lines: seq<Line>, number: nat): (r: Result<LightBlock, LoadError>)
    requires lines != []
    ensures r.Ok? ==> 1 + BlockLength(BlockKind(r.value)) <= |lines|
  {
    match KindOf(lines[0])
    case None => Err(UnknownType(lines[0]))
    case Some(kind) =>
      match DecodeAt(kind, lines, 1)
      case None => Err(FailedToLoadLight(kind, number))
      case Some(b) =>
        if !BlockValid(b) then Err(FailedToLoadLight(kind, number))
        else (DecodedKind(kind, lines, 1); Ok(b))
  }

  lemma DecodedKind(kind: LightKind, lines: seq<Line>, p: nat)
    requires DecodeAt(kind, lines, p).Some?
    ensures BlockKind(DecodeAt(kind, lines, p).value) == kind
    ensures p + BlockLength(kind) <= |lines|
  {
  }

  /** The blocks of a lights file, in file order; `number` is the ordinal of the first block. */
  function ReadLights(lines: seq<Line>, number: nat): Result<seq<LightBlock>, LoadError>
    decreases |lines|
  {
    if lines == [] then Ok([])
    else match ReadBlock(lines, number)
      case Err(e) => Err(e)
      case Ok(b) => PrependAll([b], ReadLights(lines[1 + BlockLength(BlockKind(b))..], number + 1))
  }

  /** A block written back as lines: its type line, then its values. */
  function RenderBlock(b: LightBlock): seq<Line> {
    match b
    case DirectionalBlock(d) => [Word("directional"), RenderVec3(d.color), RenderVec3(d.direction)]
    case PointBlock(p) =>
      [Word("point"), RenderVec3(p.position), RenderVec3(p.color), Numbers([p.constant, p.linear, p.quadratic])]
    case SpotBlock(s) =>
      [Word("spot"), RenderVec3(s.position), RenderVec3(s.color), RenderVec3(s.direction),
       Numbers([s.constant, s.linear, s.quadratic]), Numbers([s.cutOff, s.outerCutOff])]
  }

  function RenderLights(bs: seq<LightBlock>): seq<Line> {
    if bs == [] then [] else RenderBlock(bs[0]) + RenderLights(bs[1..])
  }

  lemma DecodeRenderedBlock(b: LightBlock, rest: seq<Line>)
    ensures |RenderBlock(b)| == 1 + BlockLength(BlockKind(b))
    ensures KindOf((RenderBlock(b) + rest)[0]) == Some(BlockKind(b))
    ensures DecodeAt(BlockKind(b), RenderBlock(b) + rest, 1) == Some(b)
  {
    var ls := RenderBlock(b) + rest;
    var body := ls[1..1 + BlockLength(BlockKind(b))];
    match b
    case DirectionalBlock(d) =>
      Vec3RoundTrip(d.color); Vec3RoundTrip(d.direction);
      assert body == [RenderVec3(d.color), RenderVec3(d.direction)];
    case PointBlock(p) =>
      Vec3RoundTrip(p.position); Vec3RoundTrip(p.color);
      assert [p.constant, p.linear, p.quadratic][..3] == [p.constant, p.linear, p.quadratic];
      assert body == [RenderVec3(p.position), RenderVec3(p.color), Numbers([p.constant, p.linear, p.quadratic])];
    case SpotBlock(s) =>
      Vec3RoundTrip(s.position); Vec3RoundTrip(s.color); Vec3RoundTrip(s.direction);
      assert [s.constant, s.linear, s.quadratic][..3] == [s.constant, s.linear, s.quadratic];
      assert [s.cutOff, s.outerCutOff][..2] == [s.cutOff, s.outerCutOff];
      assert body == [RenderVec3(s.position), RenderVec3(s.color), RenderVec3(s.direction),
                      Numbers([s.constant, s.linear, s.quadratic]), Numbers([s.cutOff, s.outerCutOff])];
  }

  /**
   * Reading well-formed valid blocks yields them in order, and whatever follows is read with
   * the ordinal advanced by their count.
   */
  lemma {:induction false} ReadRenderedLights(good: seq<LightBlock>, rest: seq<Line>, number: nat, next: nat)
    requires forall i :: 0 <= i < |good| ==> BlockValid(good[i])
    requires next == number + |good|
    ensures ReadLights(RenderLights(good) + rest, number) == PrependAll(good, ReadLights(rest, next))
    decreases |good|
  {
    if good == [] {
      assert RenderLights(good) + rest == rest;
      PrependNothing(ReadLights(rest, number));
    } else {
      assert BlockValid(good[0]);
      ReadRenderedLights(good[1..], rest, number + 1, next);
      ReadRenderedCons(good, rest, number, next);
    }
  }

  lemma ReadRenderedCons(good: seq<LightBlock>, rest: seq<Line>, number: nat, next: nat)
    requires good != [] && BlockValid(good[0])
    requires ReadLights(RenderLights(good[1..]) + rest, number + 1) == PrependAll(good[1..], ReadLights(rest, next))
    ensures ReadLights(RenderLights(good) + rest, number) == PrependAll(good, ReadLights(rest, next))
  {
    var tail := RenderLights(good[1..]) + rest;
    RenderLightsCons(good, rest);
    ReadOneBlock(good[0], tail, number);
    PrependAllCons(good, ReadLights(rest, next));
  }

  lemma RenderLightsCons(good: seq<LightBlock>, rest: seq<Line>)
    requires good != []
    ensures RenderLights(good) + rest == RenderBlock(good[0]) + (RenderLights(good[1..]) + rest)
  {
  }

  lemma PrependAllCons<T>(xs: seq<T>, r: Result<seq<T>, LoadError>)
    requires xs != []
    ensures PrependAll(xs, r) == PrependAll([xs[0]], PrependAll(xs[1..], r))
  {
    PrependAllTwice([xs[0]], xs[1..], r);
    assert [xs[0]] + xs[1..] == xs;
  }

  lemma PrependNothing<T>(r: Result<seq<T>, LoadError>)
    ensures PrependAll([], r) == r
  {
    if r.Ok? {
      assert [] + r.value == r.value;
    }
  }

  lemma ReadOneBlock(b: LightBlock, tail: seq<Line>, number: nat)
    requires BlockValid(b)
    ensures ReadLights(RenderBlock(b) + tail, number) == PrependAll([b], ReadLights(tail, number + 1))
  {
    DecodeRenderedBlock(b, tail);
    var lines := RenderBlock(b) + tail;
    assert ReadBlock(lines, number) == Ok(b);
    assert lines[1 + BlockLength(BlockKind(b))..] == tail;
  }

  lemma PrependAllTwice<T>(xs: seq<T>, ys: seq<T>, r: Result<seq<T>, LoadError>)
    ensures PrependAll(xs, PrependAll(ys, r)) == PrependAll(xs + ys, r)
  {
    if r.Ok? {
      assert xs + (ys + r.value) == (xs + ys) + r.value;
    }
  }

  /** Valid blocks survive a write and a read unchanged. */
  lemma LightsRoundTrip(good: seq<LightBlock>)
    requires forall i :: 0 <= i < |good| ==> BlockValid(good[i])
    ensures ReadLights(RenderLights(good), 1) == Ok(good)
  {
    ReadRenderedLights(good, [], 1, 1 + |good|);
    assert RenderLights(good) + [] == RenderLights(good);
    assert good + [] == good;
  }

  /** A block that fails its checks is reported with its type and its ordinal among all blocks. */
  lemma FailingBlockReported(good: seq<LightBlock>, bad: LightBlock, rest: seq<Line>)
    requires forall i :: 0 <= i < |good| ==> BlockValid(good[i])
    requires !BlockValid(bad)
    ensures ReadLights(RenderLights(good) + RenderBlock(bad) + rest, 1)
         == Err(FailedToLoadLight(BlockKind(bad), |good| + 1))
  {
    ReadRenderedLights(good, RenderBlock(bad) + rest, 1, |good| + 1);
    assert RenderLights(good) + RenderBlock(bad) + rest == RenderLights(good) + (RenderBlock(bad) + rest);
    DecodeRenderedBlock(bad, rest);
  }

  // ---------------------------------------------------------------------------------------------
  // Light loaders

  /** The point light a record yields once its attenuation has been defaulted. */
  ghost predicate PointBuiltFrom(light: PointLight, r: PointRecord)
    reads light
  {
    && light.position == r.position && light.color == r.color
    && light.constant == DefaultConstant(r.constant)
    && light.linear == DefaultNonNegative(r.linear)
    && light.quadratic == DefaultNonNegative(r.quadratic)
  }

  ghost predicate SpotBuiltFrom(light: SpotLight, r: SpotRecord)
    reads light
  {
    && light.position == r.position && light.color == r.color && light.direction == r.direction
    && light.constant == DefaultConstant(r.constant)
    && light.linear == DefaultNonNegative(r.linear)
    && light.quadratic == DefaultNonNegative(r.quadratic)
    && light.cutOff == r.cutOff && light.outerCutOff == r.outerCutOff
  }

  /** Reads colour then direction; only the colour is checked. */
  method LoadDirectionalLight(data: LineStream) returns (light: Option<DirectionalLight>, good: bool)
    requires data.Valid()
    modifies data
    ensures data.Valid()
    ensures var d := DecodeAt(Directional, data.lines, old(data.pos));
      && (light.Some? <==> d.Some?)
      && (d.Some? ==> data.pos == old(data.pos) + 2 && light.value == d.value.d && (good <==> BlockValid(d.value)))
      && (d.None? ==> !good)
  {
    ghost var p := data.pos;
    var color := data.GetVec3();
    var direction := data.GetVec3();
    if color.None? || direction.None? {
      return None, false;
    }
    assert data.lines[p..p + 2] == [data.lines[p], data.lines[p + 1]];
    good := CheckRangeVec3(color.value, MIN_ALLOWED_COLOR, MAX_ALLOWED_COLOR);
    light := Some(DirectionalLight(color.value, direction.value));
  }

  /** Reads position, colour and the attenuation line; the light is built even when a check fails. */
  method LoadPointLight(data: LineStream) returns (light: PointLight?, good: bool)
    requires data.Valid()
    modifies data
    ensures data.Valid()
    ensures var d := DecodeAt(Point, data.lines, old(data.pos));
      && (light != null <==> d.Some?)
      && (d.Some? ==> data.pos == old(data.pos) + 3 && fresh(light) && light.Valid()
                      && PointBuiltFrom(light, d.value.p) && (good <==> BlockValid(d.value)))
      && (d.None? ==> !good)
  {
    ghost var p := data.pos;
    var position := data.GetVec3();
    var color := data.GetVec3();
    var attenuation := data.GetNumbers(3);
    if position.None? || color.None? || attenuation.None? {
      return null, false;
    }
    assert data.lines[p..p + 3] == [data.lines[p], data.lines[p + 1], data.lines[p + 2]];
    var a := attenuation.value;
    good := CheckRangeVec3(position.value, MIN_ALLOWED_POSITION, MAX_ALLOWED_POSITION)
            && CheckRangeVec3(color.value, MIN_ALLOWED_COLOR, MAX_ALLOWED_COLOR)
            && CheckAttenuation(a[0], a[1], a[2]);
    light := new PointLight(position.value, color.value, a[0], a[1], a[2]);
  }

  /** Reads position, colour, direction, the attenuation line and the angle line. */
  method LoadSpotLight(data: LineStream) returns (light: SpotLight?, good: bool)
    requires data.Valid()
    modifies data
    ensures data.Valid()
    ensures var d := DecodeAt(Spot, data.lines, old(data.pos));
      && (light != null <==> d.Some?)
      && (d.Some? ==> data.pos == old(data.pos) + 5 && fresh(light) && light.Valid()
                      && SpotBuiltFrom(light, d.value.s) && (good <==> BlockValid(d.value)))
      && (d.None? ==> !good)
  {
    ghost var p := data.pos;
    var position := data.GetVec3();
    var color := data.GetVec3();
    var direction := data.GetVec3();
    var attenuation := data.GetNumbers(3);
    var angles := data.GetNumbers(2);
    if position.None? || color.None? || direction.None? || attenuation.None? || angles.None? {
      return null, false;
    }
    assert data.lines[p..p + 5] == [data.lines[p], data.lines[p + 1], data.lines[p + 2], data.lines[p + 3], data.lines[p + 4]];
    var a := attenuation.value;
    var g := angles.value;
    good := CheckRangeVec3(position.value, MIN_ALLOWED_POSITION, MAX_ALLOWED_POSITION)
            && CheckRangeVec3(color.value, MIN_ALLOWED_COLOR, MAX_ALLOWED_COLOR)
            && CheckAttenuation(a[0], a[1], a[2])
            && CheckAngles(g[0], g[1]);
    light := new SpotLight(position.value, color.value, direction.value, a[0], a[1], a[2], g[0], g[1]);
  }

  // ---------------------------------------------------------------------------------------------
  // The lights file

  function DirectionalsOf(bs: seq<LightBlock>): seq<DirectionalLight> {
    if bs == [] then []
    else DirectionalsOf(bs[..|bs| - 1]) + (if bs[|bs| - 1].DirectionalBlock? then [bs[|bs| - 1].d] else [])
  }

  function PointsOf(bs: seq<LightBlock>): seq<PointRecord> {
    if bs == [] then []
    else PointsOf(bs[..|bs| - 1]) + (if bs[|bs| - 1].PointBlock? then [bs[|bs| - 1].p] else [])
  }

  function SpotsOf(bs: seq<LightBlock>): seq<SpotRecord> {
    if bs == [] then []
    else SpotsOf(bs[..|bs| - 1]) + (if bs[|bs| - 1].SpotBlock? then [bs[|bs| - 1].s] else [])
  }

  lemma ProjectionsAppend(bs: seq<LightBlock>, b: LightBlock)
    ensures DirectionalsOf(bs + [b]) == DirectionalsOf(bs) + (if b.DirectionalBlock? then [b.d] else [])
    ensures PointsOf(bs + [b]) == PointsOf(bs) + (if b.PointBlock? then [b.p] else [])
    ensures SpotsOf(bs + [b]) == SpotsOf(bs) + (if b.SpotBlock? then [b.s] else [])
  {
    assert (bs + [b])[..|bs|] == bs;
  }

  /** One step of the reader at line p, with the block's lines located in the whole file. */
  lemma ReadLightsFrom(lines: seq<Line>, p: nat, counter: nat)
    requires p < |lines|
    ensures KindOf(lines[p]).None? ==> ReadLights(lines[p..], counter) == Err(UnknownType(lines[p]))
    ensures KindOf(lines[p]).Some? ==>
      var kind := KindOf(lines[p]).value;
      var d := DecodeAt(kind, lines, p + 1);
      && ((d.None? || !BlockValid(d.value)) ==> ReadLights(lines[p..], counter) == Err(FailedToLoadLight(kind, counter)))
      && ((d.Some? && BlockValid(d.value)) ==>
            && p + 1 + BlockLength(kind) <= |lines|
            && BlockKind(d.value) == kind
            && ReadLights(lines[p..], counter)
               == PrependAll([d.value], ReadLights(lines[p + 1 + BlockLength(kind)..], counter + 1)))
  {
    var ls := lines[p..];
    if KindOf(lines[p]).Some? {
      var kind := KindOf(lines[p]).value;
      var n := BlockLength(kind);
      if p + 1 + n <= |lines| {
        assert ls[1..1 + n] == lines[p + 1..p + 1 + n];
        assert ls[1 + n..] == lines[p + 1 + n..];
        if DecodeAt(kind, lines, p + 1).Some? {
          DecodedKind(kind, lines, p + 1);
        }
      }
    }
  }

  /** ReadLightsFrom, seen from the whole file with the blocks already read in front. */
  lemma ReadLightsStep(lines: seq<Line>, p: nat, counter: nat, done: seq<LightBlock>)
    requires p < |lines|
    ensures KindOf(lines[p]).None? ==>
      PrependAll(done, ReadLights(lines[p..], counter)) == Err(UnknownType(lines[p]))
    ensures KindOf(lines[p]).Some? ==>
      var kind := KindOf(lines[p]).value;
      var d := DecodeAt(kind, lines, p + 1);
      && ((d.None? || !BlockValid(d.value)) ==>
            PrependAll(done, ReadLights(lines[p..], counter)) == Err(FailedToLoadLight(kind, counter)))
      && ((d.Some? && BlockValid(d.value)) ==>
            && p + 1 + BlockLength(kind) <= |lines|
            && PrependAll(done, ReadLights(lines[p..], counter))
               == PrependAll(done + [d.value], ReadLights(lines[p + 1 + BlockLength(kind)..], counter + 1)))
  {
    ReadLightsFrom(lines, p, counter);
    if KindOf(lines[p]).Some? {
      var kind := KindOf(lines[p]).value;
      var d := DecodeAt(kind, lines, p + 1);
      if d.Some? && BlockValid(d.value) {
        PrependAllTwice(done, [d.value], ReadLights(lines[p + 1 + BlockLength(kind)..], counter + 1));
      }
    }
  }

  /**
   * Reads one block of the given kind and, when it passes its checks, appends its light to the
   * list of that kind.
   */
  method LoadBlock(data: LineStream, kind: LightKind, ghost done: seq<LightBlock>,
                   dirLights: seq<DirectionalLight>, pointLights: seq<PointLight>, spotLights: seq<SpotLight>)
    returns (dirs: seq<DirectionalLight>, points: seq<PointLight>, spots: seq<SpotLight>, good: bool)
    requires data.Valid()
    requires LightsBuiltFrom(dirLights, pointLights, spotLights, done)
    modifies data
    ensures data.Valid()
    ensures var d := DecodeAt(kind, data.lines, old(data.pos));
      && (good <==> d.Some? && BlockValid(d.value))
      && (good ==> data.pos == old(data.pos) + BlockLength(kind)
                   && LightsBuiltFrom(dirs, points, spots, done + [d.value]))
    ensures forall l :: l in points ==> l in pointLights || fresh(l)
    ensures forall l :: l in spots ==> l in spotLights || fresh(l)
    ensures LightsDistinct(pointLights, spotLights) ==> LightsDistinct(points, spots)
  {
    dirs, points, spots := dirLights, pointLights, spotLights;
    ghost var d := DecodeAt(kind, data.lines, data.pos);
    match kind {
      case Directional =>
        var light;
        light, good := LoadDirectionalLight(data);
        if good {
          dirs := dirs + [light.value];
          ProjectionsAppend(done, d.value);
        }
      case Point =>
        var light;
        light, good := LoadPointLight(data);
        if good {
          points := points + [light];
          ProjectionsAppend(done, d.value);
        }
      case Spot =>
        var light;
        light, good := LoadSpotLight(data);
        if good {
          spots := spots + [light];
          ProjectionsAppend(done, d.value);
        }
    }
    if good {
      DecodedKind(kind, data.lines, old(data.pos));
    }
  }

  /** No light object appears twice in either list. */
  ghost predicate LightsDistinct(pointLights: seq<PointLight>, spotLights: seq<SpotLight>) {
    && (forall i, j :: 0 <= i < j < |pointLights| ==> pointLights[i] != pointLights[j])
    && (forall i, j :: 0 <= i < j < |spotLights| ==> spotLights[i] != spotLights[j])
  }

  /**
   * Reads the type line at the stream's position and the block it announces. On success the
   * block is appended to the blocks read so far and what remains of the reader's result is the
   * reading of the rest of the file; on failure the reader's result is that error.
   */
  method LoadNextBlock(data: LineStream, counter: nat, ghost done: seq<LightBlock>,
                       dirLights: seq<DirectionalLight>, pointLights: seq<PointLight>, spotLights: seq<SpotLight>)
    returns (dirs: seq<DirectionalLight>, points: seq<PointLight>, spots: seq<SpotLight>,
             ghost done': seq<LightBlock>, error: Option<LoadError>)
    requires data.Valid() && data.pos < |data.lines| && counter == |done| + 1
    requires ReadLights(data.lines, 1) == PrependAll(done, ReadLights(data.lines[data.pos..], counter))
    requires LightsBuiltFrom(dirLights, pointLights, spotLights, done)
    requires LightsDistinct(pointLights, spotLights)
    modifies data
    ensures data.Valid()
    ensures error.Some? ==> ReadLights(data.lines, 1) == Err(error.value)
    ensures error.None? ==>
      && old(data.pos) < data.pos
      && |done'| == |done| + 1
      && ReadLights(data.lines, 1) == PrependAll(done', ReadLights(data.lines[data.pos..], |done'| + 1))
      && LightsBuiltFrom(dirs, points, spots, done')
    ensures LightsDistinct(points, spots)
    ensures forall l :: l in points ==> l in pointLights || fresh(l)
    ensures forall l :: l in spots ==> l in spotLights || fresh(l)
  {
    ghost var p := data.pos;
    dirs, points, spots, done' := dirLights, pointLights, spotLights, done;
    var typeLine := data.GetLine();
    var line := typeLine.value;
    ReadLightsStep(data.lines, p, counter, done);
    var kind := KindOf(line);
    if kind.None? {
      return dirs, points, spots, done', Some(UnknownType(line));
    }
    ghost var d := DecodeAt(kind.value, data.lines, p + 1);
    var good;
    dirs, points, spots, good := LoadBlock(data, kind.value, done, dirLights, pointLights, spotLights);
    if !good {
      return dirs, points, spots, done', Some(FailedToLoadLight(kind.value, counter));
    }
    done' := done + [d.value];
    error := None;
  }

  /**
   * Reads every block of a lights file, in order, into three lists. The load stops at the first
   * line naming no light type or the first block that is malformed or fails its checks, and
   * reports it; otherwise each list holds its lights in file order.
   */
  method LoadLights(lines: seq<Line>)
    returns (dirLights: seq<DirectionalLight>, pointLights: seq<PointLight>, spotLights: seq<SpotLight>,
             error: Option<LoadError>)
    ensures error.Some? <==> ReadLights(lines, 1).Err?
    ensures error.Some? ==> error.value == ReadLights(lines, 1).error
    ensures error.None? ==> LightsBuiltFrom(dirLights, pointLights, spotLights, ReadLights(lines, 1).value)
    ensures forall l :: l in pointLights ==> fresh(l)
    ensures forall l :: l in spotLights ==> fresh(l)
    ensures LightsDistinct(pointLights, spotLights)
  {
    var data := new LineStream(lines);
    dirLights, pointLights, spotLights, error := [], [], [], None;
    var counter := 1;
    ghost var done: seq<LightBlock> := [];
    assert lines[0..] == lines;
    PrependNothing(ReadLights(lines, 1));
    while data.pos < |data.lines|
      invariant data.Valid() && data.lines == lines
      invariant counter == |done| + 1
      invariant ReadLights(lines, 1) == PrependAll(done, ReadLights(lines[data.pos..], counter))
      invariant LightsBuiltFrom(dirLights, pointLights, spotLights, done)
      invariant LightsDistinct(pointLights, spotLights)
      invariant forall l :: l in pointLights ==> fresh(l)
      invariant forall l :: l in spotLights ==> fresh(l)
      decreases |lines| - data.pos
    {
      var blockError;
      dirLights, pointLights, spotLights, done, blockError := LoadNextBlock(data, counter, done, dirLights, pointLights, spotLights);
      if blockError.Some? {
        error := blockError;
        return;
      }
      counter := counter + 1;
    }
    assert lines[data.pos..] == [];
    assert done + [] == done;
  }

  /** The three lists are the directional, point and spot blocks of bs, in order, built as lights. */
  ghost predicate LightsBuiltFrom(dirLights: seq<DirectionalLight>, pointLights: seq<PointLight>,
                                  spotLights: seq<SpotLight>, bs: seq<LightBlock>)
    reads set l | l in pointLights
    reads set l | l in spotLights
  {
    && dirLights == DirectionalsOf(bs)
    && |pointLights| == |PointsOf(bs)|
    && (forall i :: 0 <= i < |pointLights| ==> pointLights[i].Valid() && PointBuiltFrom(pointLights[i], PointsOf(bs)[i]))
    && |spotLights| == |SpotsOf(bs)|
    && (forall i :: 0 <= i < |spotLights| ==> spotLights[i].Valid() && SpotBuiltFrom(spotLights[i], SpotsOf(bs)[i]))
  }

  // ---------------------------------------------------------------------------------------------
  // The objects file

  /** One object record: position, rotation and scale lines, then the model path line. */
  datatype ObjectRecord = ObjectRecord(position: Vec3, rotation: Vec3, scale: Vec3, path: string)

  /** A record's lines count. */
  const OBJECT_LINES: nat := 4

  /** The directory list with d appended unless it is already there. */
  function AddDirectory(known: seq<string>, d: string): (r: seq<string>)
    ensures d in r && known <= r
    ensures d in known ==> r == known
    ensures d !in known ==> r == known + [d]
  {
    if d in known then known else known + [d]
  }

  /**
   * The record at the first line, checked as the loader does it: the three vectors are read,
   * position and scale are checked, then the path is read and, when its directory has no model
   * yet, the model is imported. Rotation is never checked.
   */
  function ReadObject(lines: seq<Line>, number: nat, known: seq<string>, importer: Importer)
    : (r: Result<ObjectRecord, LoadError>)
    ensures r.Ok? ==>
      && OBJECT_LINES <= |lines| && lines[3] == Word(r.value.path)
      && Vec3Of(lines[0]) == Some(r.value.position)
      && Vec3Of(lines[1]) == Some(r.value.rotation)
      && Vec3Of(lines[2]) == Some(r.value.scale)
      && CheckRangeVec3(r.value.position, MIN_ALLOWED_POSITION, MAX_ALLOWED_POSITION)
      && CheckScale(r.value.scale)
      && (DirOf(r.value.path) in known || !ImportFailed(importer(r.value.path)))
  {
    if |lines| < 3 || Vec3Of(lines[0]).None? || Vec3Of(lines[1]).None? || Vec3Of(lines[2]).None? then
      Err(MalformedObject(number))
    else
      var position := Vec3Of(lines[0]).value;
      var rotation := Vec3Of(lines[1]).value;
      var scale := Vec3Of(lines[2]).value;
      if !CheckRangeVec3(position, MIN_ALLOWED_POSITION, MAX_ALLOWED_POSITION) then Err(WrongModelPosition(number))
      else if !CheckScale(scale) then Err(WrongScale)
      else if |lines| < OBJECT_LINES || !lines[3].Word? then Err(MalformedObject(number))
      else if DirOf(lines[3].text) !in known && ImportFailed(importer(lines[3].text)) then
        Err(FailedToLoadModel(lines[3].text))
      else Ok(ObjectRecord(position, rotation, scale, lines[3].text))
  }

  /**
   * The records of an objects file, in order; `known` holds the directories whose model is
   * already loaded, so a model is imported only for the first path in each directory.
   */
  function ReadObjects(lines: seq<Line>, number: nat, known: seq<string>, importer: Importer)
    : Result<seq<ObjectRecord>, LoadError>
    decreases |lines|
  {
    if lines == [] then Ok([])
    else match ReadObject(lines, number, known, importer)
      case Err(e) => Err(e)
      case Ok(r) =>
        PrependAll([r], ReadObjects(lines[OBJECT_LINES..], number + 1, AddDirectory(known, DirOf(r.path)), importer))
  }

  /**
   * A record whose position is out of range or whose scale is not positive is rejected with
   * that error before its path is looked at, so the importer's answer makes no difference.
   */
  lemma ObjectChecksPrecedeImport(lines: seq<Line>, number: nat, known: seq<string>,
                                  importer: Importer, other: Importer)
    requires |lines| >= 3 && Vec3Of(lines[0]).Some? && Vec3Of(lines[1]).Some? && Vec3Of(lines[2]).Some?
    ensures !CheckRangeVec3(Vec3Of(lines[0]).value, MIN_ALLOWED_POSITION, MAX_ALLOWED_POSITION) ==>
      ReadObject(lines, number, known, importer) == Err(WrongModelPosition(number))
    ensures CheckRangeVec3(Vec3Of(lines[0]).value, MIN_ALLOWED_POSITION, MAX_ALLOWED_POSITION)
            && !CheckScale(Vec3Of(lines[2]).value) ==>
      ReadObject(lines, number, known, importer) == Err(WrongScale)
    ensures !CheckRangeVec3(Vec3Of(lines[0]).value, MIN_ALLOWED_POSITION, MAX_ALLOWED_POSITION)
            || !CheckScale(Vec3Of(lines[2]).value) ==>
      ReadObject(lines, number, known, importer) == ReadObject(lines, number, known, other)
  {
  }

  /** Every record of a successfully read objects file has an in-range position and a positive scale. */
  lemma {:induction false} ReadObjectsValidated(lines: seq<Line>, number: nat, known: seq<string>, importer: Importer)
    ensures ReadObjects(lines, number, known, importer).Ok? ==>
      forall i :: 0 <= i < |ReadObjects(lines, number, known, importer).value| ==>
        && CheckRangeVec3(ReadObjects(lines, number, known, importer).value[i].position,
                          MIN_ALLOWED_POSITION, MAX_ALLOWED_POSITION)
        && CheckScale(ReadObjects(lines, number, known, importer).value[i].scale)
    decreases |lines|
  {
    if lines != [] {
      var r := ReadObject(lines, number, known, importer);
      if r.Ok? {
        var next := AddDirectory(known, DirOf(r.value.path));
        ReadObjectsValidated(lines[OBJECT_LINES..], number + 1, next, importer);
      }
    }
  }

  /** The four lines of a record as the objects file lays them out. */
  function RenderObject(r: ObjectRecord): seq<Line> {
    [RenderVec3(r.position), RenderVec3(r.rotation), RenderVec3(r.scale), Word(r.path)]
  }

  function RenderObjects(rs: seq<ObjectRecord>): seq<Line> {
    if rs == [] then [] else RenderObject(rs[0]) + RenderObjects(rs[1..])
  }

  /**
   * A rendered record with an in-range position and a positive scale reads back as itself,
   * whatever its rotation, when its model is already loaded or imports.
   */
  lemma ObjectRoundTrip(r: ObjectRecord, rest: seq<Line>, number: nat, known: seq<string>, importer: Importer)
    requires CheckRangeVec3(r.position, MIN_ALLOWED_POSITION, MAX_ALLOWED_POSITION) && CheckScale(r.scale)
    requires DirOf(r.path) in known || !ImportFailed(importer(r.path))
    ensures ReadObject(RenderObject(r) + rest, number, known, importer) == Ok(r)
    ensures (RenderObject(r) + rest)[OBJECT_LINES..] == rest
  {
    Vec3RoundTrip(r.position);
    Vec3RoundTrip(r.rotation);
    Vec3RoundTrip(r.scale);
  }

  /** Valid records whose models all import are read back from their rendering in order. */
  lemma {:induction false} ObjectsRoundTrip(rs: seq<ObjectRecord>, number: nat, known: seq<string>, importer: Importer)
    requires forall i :: 0 <= i < |rs| ==>
      && CheckRangeVec3(rs[i].position, MIN_ALLOWED_POSITION, MAX_ALLOWED_POSITION)
      && CheckScale(rs[i].scale)
      && !ImportFailed(importer(rs[i].path))
    ensures ReadObjects(RenderObjects(rs), number, known, importer) == Ok(rs)
  {
    if rs != [] {
      ObjectRoundTrip(rs[0], RenderObjects(rs[1..]), number, known, importer);
      ObjectsRoundTrip(rs[1..], number + 1, AddDirectory(known, DirOf(rs[0].path)), importer);
      assert [rs[0]] + rs[1..] == rs;
    }
  }

  /** The model directories in load order: each record's directory, the first time it appears. */
  function Registry(recs: seq<ObjectRecord>): seq<string> {
    if recs == [] then []
    else AddDirectory(Registry(recs[..|recs| - 1]), DirOf(recs[|recs| - 1].path))
  }

  predicate Distinct<T(==)>(s: seq<T>) {
    forall i, j :: 0 <= i < j < |s| ==> s[i] != s[j]
  }

  /** The registry has no repeated directory and holds the directory of every record. */
  lemma {:induction false} RegistryDistinct(recs: seq<ObjectRecord>)
    ensures Distinct(Registry(recs))
    ensures forall i :: 0 <= i < |recs| ==> DirOf(recs[i].path) in Registry(recs)
  {
    if recs != [] {
      var init := recs[..|recs| - 1];
      RegistryDistinct(init);
      forall i | 0 <= i < |recs|
        ensures DirOf(recs[i].path) in Registry(recs)
      {
        if i < |init| {
          assert recs[i] == init[i];
        }
      }
    }
  }

  function RegistryAppend(recs: seq<ObjectRecord>, r: ObjectRecord): (reg: seq<string>)
    ensures reg == Registry(recs + [r])
  {
    assert (recs + [r])[..|recs|] == recs;
    AddDirectory(Registry(recs), DirOf(r.path))
  }

  /** The index of the first x in s, or -1 when there is none. */
  function FirstIndex<T(==)>(s: seq<T>, x: T): (r: int)
    ensures -1 <= r < |s|
    ensures r == -1 <==> x !in s
    ensures r >= 0 ==> s[r] == x && forall k :: 0 <= k < r ==> s[k] != x
  {
    if s == [] then -1
    else if s[0] == x then 0
    else
      var r := FirstIndex(s[1..], x);
      if r < 0 then -1 else r + 1
  }

  function Directories(models: seq<Model>): seq<string> {
    seq(|models|, i requires 0 <= i < |models| => models[i].directory)
  }

  /** The first loaded model whose directory is the path's directory, or -1 when none is. */
  method GetModelIndex(path: string, models: seq<Model>) returns (index: int)
    ensures index == FirstIndex(Directories(models), DirOf(path))
  {
    var i := 0;
    var modelExists := false;
    while !modelExists && i < |models|
      invariant 0 <= i <= |models|
      invariant modelExists ==> 0 < i && models[i - 1].directory == DirOf(path)
      invariant forall k :: 0 <= k < (if modelExists then i - 1 else i) ==> models[k].directory != DirOf(path)
    {
      modelExists := DirOf(path) == models[i].directory;
      i := i + 1;
    }
    ghost var dirs := Directories(models);
    if modelExists {
      index := i - 1;
      assert dirs[index] == DirOf(path);
    } else {
      index := -1;
      assert forall k :: 0 <= k < |dirs| ==> dirs[k] != DirOf(path);
    }
  }

  lemma DirectoriesAppend(models: seq<Model>, m: Model)
    ensures Directories(models + [m]) == Directories(models) + [m.directory]
  {
  }

  /** One step of the record reader at line p, with the blocks already read in front. */
  lemma ReadObjectsStep(lines: seq<Line>, p: nat, number: nat, known: seq<string>, importer: Importer,
                        done: seq<ObjectRecord>)
    requires p < |lines|
    ensures var r := ReadObject(lines[p..], number, known, importer);
      && (r.Err? ==> PrependAll(done, ReadObjects(lines[p..], number, known, importer)) == Err(r.error))
      && (r.Ok? ==>
            && p + OBJECT_LINES <= |lines|
            && PrependAll(done, ReadObjects(lines[p..], number, known, importer))
               == PrependAll(done + [r.value],
                             ReadObjects(lines[p + OBJECT_LINES..], number + 1, AddDirectory(known, DirOf(r.value.path)), importer)))
  {
    var r := ReadObject(lines[p..], number, known, importer);
    if r.Ok? {
      assert lines[p..][OBJECT_LINES..] == lines[p + OBJECT_LINES..];
      var next := AddDirectory(known, DirOf(r.value.path));
      PrependAllTwice(done, [r.value], ReadObjects(lines[p + OBJECT_LINES..], number + 1, next, importer));
    }
  }

  /**
   * Reads one object record and finds its model: the first loaded model with the path's
   * directory, or a newly imported one appended to the list.
   */
  method LoadObjectRecord(data: LineStream, number: nat, models: seq<Model>, importer: Importer,
                          textureFromFile: TextureLoader)
    returns (record: ObjectRecord, newModels: seq<Model>, index: nat, error: Option<LoadError>)
    requires data.Valid() && data.pos < |data.lines|
    modifies data
    ensures data.Valid()
    ensures var r := ReadObject(data.lines[old(data.pos)..], number, Directories(models), importer);
      && (error.Some? <==> r.Err?)
      && (error.Some? ==> error.value == r.error)
      && (error.None? ==>
            && record == r.value
            && data.pos == old(data.pos) + OBJECT_LINES
            && Directories(newModels) == AddDirectory(Directories(models), DirOf(record.path))
            && index < |newModels| && newModels[index].directory == DirOf(record.path))
    ensures |models| <= |newModels| && newModels[..|models|] == models
    ensures forall i :: |models| <= i < |newModels| ==> fresh(newModels[i]) && newModels[i].Valid()
  {
    ghost var lines := data.lines[data.pos..];
    newModels, index := models, 0;
    record := ObjectRecord(ZERO3, ZERO3, ZERO3, []);
    var position := data.GetVec3();
    var rotation := data.GetVec3();
    var scale := data.GetVec3();
    if position.None? || rotation.None? || scale.None? {
      return record, newModels, index, Some(MalformedObject(number));
    }
    if !CheckRangeVec3(position.value, MIN_ALLOWED_POSITION, MAX_ALLOWED_POSITION) {
      return record, newModels, index, Some(WrongModelPosition(number));
    }
    if !CheckScale(scale.value) {
      return record, newModels, index, Some(WrongScale);
    }
    var pathLine := data.GetLine();
    if pathLine.None? || !pathLine.value.Word? {
      return record, newModels, index, Some(MalformedObject(number));
    }
    var path := pathLine.value.text;
    record := ObjectRecord(position.value, rotation.value, scale.value, path);
    var found := GetModelIndex(path, models);
    if found < 0 {
      var model := Model.Load(path, importer, textureFromFile);
      if model.None? {
        return record, newModels, index, Some(FailedToLoadModel(path));
      }
      newModels := models + [model.value];
      DirectoriesAppend(models, model.value);
      index := |newModels| - 1;
    } else {
      index := found;
    }
    error := None;
  }

  /** An object carries its record's position, rotation and scale. */
  ghost predicate ObjectBuiltFrom(obj: Object, r: ObjectRecord)
    reads obj
  {
    obj.position == r.position && obj.rotation == r.rotation && obj.scale == r.scale
  }

  /** Record i's directory is entry modelIndexes[i] of the directory list. */
  ghost predicate IndexesInto(known: seq<string>, records: seq<ObjectRecord>, modelIndexes: seq<nat>) {
    && |modelIndexes| == |records|
    && forall i :: 0 <= i < |records| ==>
         modelIndexes[i] < |known| && known[modelIndexes[i]] == DirOf(records[i].path)
  }

  lemma IndexesIntoStep(known: seq<string>, records: seq<ObjectRecord>, modelIndexes: seq<nat>,
                        record: ObjectRecord, index: nat)
    requires IndexesInto(known, records, modelIndexes)
    requires var next := AddDirectory(known, DirOf(record.path));
      index < |next| && next[index] == DirOf(record.path)
    ensures IndexesInto(AddDirectory(known, DirOf(record.path)), records + [record], modelIndexes + [index])
  {
    var next := AddDirectory(known, DirOf(record.path));
    forall i | 0 <= i < |records| + 1
      ensures (modelIndexes + [index])[i] < |next|
              && next[(modelIndexes + [index])[i]] == DirOf((records + [record])[i].path)
    {
      if i < |records| {
        assert next[modelIndexes[i]] == known[modelIndexes[i]];
      }
    }
  }

  /**
   * The records before line pos have been read: their models are loaded, one per directory,
   * and what remains of the reader's result is the reading of the rest of the file.
   */
  ghost predicate RecordsRead(lines: seq<Line>, importer: Importer, pos: nat,
                              models: seq<Model>, records: seq<ObjectRecord>, modelIndexes: seq<nat>) {
    && pos <= |lines|
    && Directories(models) == Registry(records)
    && IndexesInto(Directories(models), records, modelIndexes)
    && ReadObjects(lines, 1, [], importer)
       == PrependAll(records, ReadObjects(lines[pos..], |records| + 1, Registry(records), importer))
  }

  /** Reads the record at the stream's position and records its model. */
  method LoadNextRecord(data: LineStream, importer: Importer, textureFromFile: TextureLoader,
                        models: seq<Model>, records: seq<ObjectRecord>, modelIndexes: seq<nat>)
    returns (models': seq<Model>, records': seq<ObjectRecord>, modelIndexes': seq<nat>, error: Option<LoadError>)
    requires data.Valid() && data.pos < |data.lines|
    requires RecordsRead(data.lines, importer, data.pos, models, records, modelIndexes)
    modifies data
    ensures data.Valid()
    ensures error.Some? ==> ReadObjects(data.lines, 1, [], importer) == Err(error.value)
    ensures error.None? ==>
      old(data.pos) < data.pos && RecordsRead(data.lines, importer, data.pos, models', records', modelIndexes')
    ensures forall m :: m in models' ==> m in models || (fresh(m) && m.Valid())
  {
    ghost var p := data.pos;
    ghost var known := Registry(records);
    ReadObjectsStep(data.lines, p, |records| + 1, known, importer, records);
    var record, index;
    records', modelIndexes' := records, modelIndexes;
    record, models', index, error := LoadObjectRecord(data, |records| + 1, models, importer, textureFromFile);
    if error.Some? {
      return;
    }
    ghost var next := RegistryAppend(records, record);
    IndexesIntoStep(known, records, modelIndexes, record, index);
    records' := records + [record];
    modelIndexes' := modelIndexes + [index];
    assert |records'| + 1 == |records| + 1 + 1;
  }

  /**
   * Reads every object record of an objects file, loading each model directory once. The load
   * stops at the first malformed record, bad position, bad scale or failed import, and reports it.
   */
  method LoadRecords(lines: seq<Line>, importer: Importer, textureFromFile: TextureLoader)
    returns (models: seq<Model>, records: seq<ObjectRecord>, modelIndexes: seq<nat>, error: Option<LoadError>)
    ensures error.Some? <==> ReadObjects(lines, 1, [], importer).Err?
    ensures error.Some? ==> error.value == ReadObjects(lines, 1, [], importer).error
    ensures error.None? ==> records == ReadObjects(lines, 1, [], importer).value
    ensures Directories(models) == Registry(records)
    ensures IndexesInto(Directories(models), records, modelIndexes)
    ensures forall m :: m in models ==> fresh(m) && m.Valid()
  {
    var data := new LineStream(lines);
    models, records, modelIndexes, error := [], [], [], None;
    assert lines[0..] == lines;
    PrependNothing(ReadObjects(lines, 1, [], importer));
    while data.pos < |data.lines|
      invariant data.Valid() && data.lines == lines
      invariant RecordsRead(lines, importer, data.pos, models, records, modelIndexes)
      invariant forall m :: m in models ==> fresh(m) && m.Valid()
      decreases |lines| - data.pos
    {
      var nextModels, nextRecords, nextIndexes, recordError := LoadNextRecord(data, importer, textureFromFile, models, records, modelIndexes);
      if recordError.Some? {
        error := recordError;
        return;
      }
      models, records, modelIndexes := nextModels, nextRecords, nextIndexes;
    }
    assert lines[data.pos..] == [];
    assert records + [] == records;
  }

  /** Builds one object per record, in record order, each sharing the model its index names. */
  method BuildObjects(records: seq<ObjectRecord>, models: seq<Model>, modelIndexes: seq<nat>)
    returns (objects: seq<Object>)
    requires |modelIndexes| == |records|
    requires forall i :: 0 <= i < |records| ==> modelIndexes[i] < |models|
    ensures |objects| == |records|
    ensures forall i :: 0 <= i < |objects| ==>
      ObjectBuiltFrom(objects[i], records[i]) && objects[i].model == models[modelIndexes[i]]
    ensures forall o :: o in objects ==> fresh(o)
  {
    objects := [];
    for i := 0 to |records|
      invariant |objects| == i
      invariant forall k :: 0 <= k < i ==> ObjectBuiltFrom(objects[k], records[k]) && objects[k].model == models[modelIndexes[k]]
      invariant forall o :: o in objects ==> fresh(o)
    {
      var obj := new Object(records[i].position, records[i].rotation, records[i].scale, models[modelIndexes[i]]);
      objects := objects + [obj];
    }
  }

  /**
   * Objects whose models were picked by directory from a list without repeated directories
   * share a model exactly when their records' directories agree.
   */
  lemma SharedModelsFollowDirectories(records: seq<ObjectRecord>, models: seq<Model>, modelIndexes: seq<nat>,
                                      objects: seq<Object>)
    requires Distinct(Directories(models))
    requires IndexesInto(Directories(models), records, modelIndexes)
    requires |objects| == |records|
    requires forall i :: 0 <= i < |objects| ==> objects[i].model == models[modelIndexes[i]]
    ensures forall i :: 0 <= i < |objects| ==>
      objects[i].model in models && objects[i].model.directory == DirOf(records[i].path)
    ensures forall i, j :: 0 <= i < |objects| && 0 <= j < |objects| ==>
      (objects[i].model == objects[j].model <==> DirOf(records[i].path) == DirOf(records[j].path))
  {
    var dirs := Directories(models);
    forall i | 0 <= i < |objects|
      ensures objects[i].model in models && objects[i].model.directory == DirOf(records[i].path)
    {
      assert dirs[modelIndexes[i]] == models[modelIndexes[i]].directory;
    }
    forall i, j | 0 <= i < |objects| && 0 <= j < |objects| && DirOf(records[i].path) == DirOf(records[j].path)
      ensures objects[i].model == objects[j].model
    {
      assert dirs[modelIndexes[i]] == dirs[modelIndexes[j]];
    }
  }

  /**
   * Loads the objects file: its records and models, then its objects in record order. Two
   * objects share one model exactly when their paths have the same directory.
   */
  method LoadObjects(lines: seq<Line>, importer: Importer, textureFromFile: TextureLoader)
    returns (models: seq<Model>, objects: seq<Object>, error: Option<LoadError>)
    ensures error.Some? <==> ReadObjects(lines, 1, [], importer).Err?
    ensures error.Some? ==> error.value == ReadObjects(lines, 1, [], importer).error
    ensures error.None? ==>
      var recs := ReadObjects(lines, 1, [], importer).value;
      && Directories(models) == Registry(recs)
      && Distinct(Directories(models))
      && |objects| == |recs|
      && (forall i :: 0 <= i < |objects| ==>
            && ObjectBuiltFrom(objects[i], recs[i])
            && objects[i].model in models
            && objects[i].model.directory == DirOf(recs[i].path))
      && (forall i, j :: 0 <= i < |objects| && 0 <= j < |objects| ==>
            (objects[i].model == objects[j].model <==> DirOf(recs[i].path) == DirOf(recs[j].path)))
    ensures forall m :: m in models ==> fresh(m) && m.Valid()
    ensures forall o :: o in objects ==> fresh(o)
  {
    var records, modelIndexes;
    models, records, modelIndexes, error := LoadRecords(lines, importer, textureFromFile);
    if error.Some? {
      objects := [];
      return;
    }
    assert forall i :: 0 <= i < |records| ==> modelIndexes[i] < |models|;
    objects := BuildObjects(records, models, modelIndexes);
    RegistryDistinct(records);
    SharedModelsFollowDirectories(records, models, modelIndexes, objects);
  }

  /** Everything a scene load produces. */
  datatype Scene = Scene(dirLights: seq<DirectionalLight>, pointLights: seq<PointLight>, spotLights: seq<SpotLight>,
                         models: seq<Model>, objects: seq<Object>)

  /**
   * Loads the lights file, then the objects file; the first error in that order ends the load
   * and nothing is returned.
   */
  method LoadScene(lightLines: seq<Line>, objectLines: seq<Line>, importer: Importer, textureFromFile: TextureLoader)
    returns (r: Result<Scene, LoadError>)
    ensures ReadLights(lightLines, 1).Err? ==> r == Err(ReadLights(lightLines, 1).error)
    ensures ReadLights(lightLines, 1).Ok? && ReadObjects(objectLines, 1, [], importer).Err? ==>
      r == Err(ReadObjects(objectLines, 1, [], importer).error)
    ensures r.Ok? <==> ReadLights(lightLines, 1).Ok? && ReadObjects(objectLines, 1, [], importer).Ok?
    ensures r.Ok? ==>
      && LightsBuiltFrom(r.value.dirLights, r.value.pointLights, r.value.spotLights, ReadLights(lightLines, 1).value)
      && var recs := ReadObjects(objectLines, 1, [], importer).value;
      && var models := r.value.models;
      && var objects := r.value.objects;
      && Directories(models) == Registry(recs)
      && Distinct(Directories(models))
      && |objects| == |recs|
      && (forall i :: 0 <= i < |objects| ==>
            && ObjectBuiltFrom(objects[i], recs[i])
            && objects[i].model in models
            && objects[i].model.directory == DirOf(recs[i].path))
      && (forall i, j :: 0 <= i < |objects| && 0 <= j < |objects| ==>
            (objects[i].model == objects[j].model <==> DirOf(recs[i].path) == DirOf(recs[j].path)))
  {
    var dirLights, pointLights, spotLights, lightError := LoadLights(lightLines);
    if lightError.Some? {
      return Err(lightError.value);
    }
    var models, objects, objectError := LoadObjects(objectLines, importer, textureFromFile);
    if objectError.Some? {
      return Err(objectError.value);
    }
    return Ok(Scene(dirLights, pointLights, spotLights, models, objects));
  }
}
