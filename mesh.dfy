/**
 * A drawable mesh and the texture-binding part of drawing it. The GPU is represented by the
 * part of its state the draw touches: texture units, the shader's uniforms and the draw calls.
 */
module Meshes {
  import opened Geometry

  datatype TextureType = Albedo | Normal | Metallic | Roughness

  datatype Texture = Texture(id: nat, textureType: TextureType, path: string)

  datatype Vertex = Vertex(position: Vec3, normal: Vec3, texCoords: Vec2)

  datatype Mesh = Mesh(vertices: seq<Vertex>, indices: seq<nat>, textures: seq<Texture>,
                       opacityRatio: real, refractionRatio: real)

  /** The sampler-name prefix of each texture type. */
  function TypeName(t: TextureType): (s: string)
    ensures |s| > 8 && s[..8] == "texture_"
  {
    match t
    case Albedo => "texture_albedo"
    case Normal => "texture_normal"
    case Metallic => "texture_metallic"
    case Roughness => "texture_roughness"
  }

  /** Different types have different prefixes: they already differ right after "texture_". */
  lemma TypeNamesDiffer(t: TextureType, u: TextureType)
    requires t != u
    ensures TypeName(t)[8] != TypeName(u)[8]
  {
  }

  function Digit(d: nat): (c: char)
    requires d < 10
    ensures '0' <= c <= '9'
  {
    ('0' as int + d) as char
  }

  /** The decimal notation of n, as std::to_string writes an unsigned number. */
  function DecimalString(n: nat): (s: string)
    ensures |s| >= 1
    ensures n >= 10 ==> |s| >= 2
    ensures forall i :: 0 <= i < |s| ==> '0' <= s[i] <= '9'
  {
    if n < 10 then [Digit(n)] else DecimalString(n / 10) + [Digit(n % 10)]
  }

  /** Different numbers have different decimal notations. */
  lemma {:induction false} DecimalStringInjective(a: nat, b: nat)
    requires DecimalString(a) == DecimalString(b)
    ensures a == b
  {
    if a < 10 || b < 10 {
      assert a < 10 && b < 10;
      assert DecimalString(a)[0] == Digit(a);
      assert DecimalString(b)[0] == Digit(b);
    } else {
      var sa, sb := DecimalString(a / 10), DecimalString(b / 10);
      assert DecimalString(a) == sa + [Digit(a % 10)];
      assert DecimalString(b) == sb + [Digit(b % 10)];
      assert |sa| == |sb|;
      assert Digit(a % 10) == DecimalString(a)[|sa|] == DecimalString(b)[|sb|] == Digit(b % 10);
      assert sa == DecimalString(a)[..|sa|] == DecimalString(b)[..|sb|] == sb;
      DecimalStringInjective(a / 10, b / 10);
    }
  }

  /** The number of textures of type t in ts. */
  function CountType(ts: seq<Texture>, t: TextureType): (n: nat)
    ensures n <= |ts|
  {
    if ts == [] then 0
    else CountType(ts[..|ts| - 1], t) + (if ts[|ts| - 1].textureType == t then 1 else 0)
  }

  /** Counting one texture more adds one for its own type and nothing for the others. */
  lemma CountTypeStep(ts: seq<Texture>, i: nat)
    requires i < |ts|
    ensures forall t :: CountType(ts[..i + 1], t) == CountType(ts[..i], t) + (if ts[i].textureType == t then 1 else 0)
  {
    assert ts[..i + 1][..i] == ts[..i];
  }

  /** Texture i is the SamplerNumber(ts, i)-th texture of its type in the list, counting from 1. */
  function SamplerNumber(ts: seq<Texture>, i: nat): nat
    requires i < |ts|
  {
    CountType(ts[..i], ts[i].textureType) + 1
  }

  /** The shader variable texture i is bound through: its type's prefix and its number. */
  function SamplerName(ts: seq<Texture>, i: nat): string
    requires i < |ts|
  {
    TypeName(ts[i].textureType) + DecimalString(SamplerNumber(ts, i))
  }

  /** A later texture of the same type has a strictly greater count before it. */
  lemma {:induction false} CountTypeGrows(ts: seq<Texture>, i: nat, j: nat)
    requires i < j <= |ts|
    ensures CountType(ts[..j], ts[i].textureType) >= CountType(ts[..i], ts[i].textureType) + 1
  {
    var t := ts[i].textureType;
    assert ts[..j][..j - 1] == ts[..j - 1];
    if j == i + 1 {
      assert ts[..j][j - 1] == ts[i];
    } else {
      CountTypeGrows(ts, i, j - 1);
    }
  }

  /** No two textures of one mesh share a sampler name. */
  lemma SamplerNamesDistinct(ts: seq<Texture>, i: nat, j: nat)
    requires i < |ts| && j < |ts| && i != j
    ensures SamplerName(ts, i) != SamplerName(ts, j)
  {
    if j < i {
      SamplerNamesDistinct(ts, j, i);
    } else {
      var ti, tj := ts[i].textureType, ts[j].textureType;
      if ti != tj {
        TypeNamesDiffer(ti, tj);
        assert SamplerName(ts, i)[8] == TypeName(ti)[8];
        assert SamplerName(ts, j)[8] == TypeName(tj)[8];
      } else {
        CountTypeGrows(ts, i, j);
        if SamplerName(ts, i) == SamplerName(ts, j) {
          var p := TypeName(ti);
          assert SamplerName(ts, i)[|p|..] == DecimalString(SamplerNumber(ts, i));
          assert SamplerName(ts, j)[|p|..] == DecimalString(SamplerNumber(ts, j));
          DecimalStringInjective(SamplerNumber(ts, i), SamplerNumber(ts, j));
          assert false;
        }
      }
    }
  }

  const OPACITY_UNIFORM := "opacityRatio"
  const REFRACTION_UNIFORM := "refractionRatio"

  /** The state the GPU is in when glDrawElements is issued. */
  datatype DrawCall = DrawCall(boundTextures: map<nat, nat>, intUniforms: map<string, int>,
                               floatUniforms: map<string, real>, elementCount: nat)

  /**
   * Texture unit i holds boundTextures[i] (0 is "no texture"); the shader's uniforms by name;
   * the draw calls issued so far.
   */
  datatype GlState = GlState(activeUnit: nat, boundTextures: map<nat, nat>,
                             intUniforms: map<string, int>, floatUniforms: map<string, real>,
                             draws: seq<DrawCall>)

  /** The samplers of textures 0 .. n-1 are set to their own index. */
  ghost predicate SamplersSet(ts: seq<Texture>, n: nat, uniforms: map<string, int>)
    requires n <= |ts|
  {
    forall j :: 0 <= j < n ==> SamplerName(ts, j) in uniforms && uniforms[SamplerName(ts, j)] == j
  }

  /** Units 0 .. n-1 hold textures 0 .. n-1; units from `from` on are as in `gl`. */
  ghost predicate UnitsBound(ts: seq<Texture>, n: nat, from: nat, bound: map<nat, nat>, gl: map<nat, nat>)
    requires n <= |ts|
  {
    && (forall j :: 0 <= j < n ==> j in bound && bound[j] == ts[j].id)
    && (forall u :: u >= from ==> (u in bound <==> u in gl) && (u in gl ==> bound[u] == gl[u]))
  }

  /** Setting texture i's sampler keeps the samplers already set, since their names differ. */
  lemma SamplerStep(ts: seq<Texture>, i: nat, uniforms: map<string, int>)
    requires i < |ts| && SamplersSet(ts, i, uniforms)
    ensures SamplersSet(ts, i + 1, uniforms[SamplerName(ts, i) := i])
  {
    var after := uniforms[SamplerName(ts, i) := i];
    forall j | 0 <= j < i + 1
      ensures SamplerName(ts, j) in after && after[SamplerName(ts, j)] == j
    {
      if j < i {
        SamplerNamesDistinct(ts, j, i);
      }
    }
  }

  /** The sampler names of textures 0 .. n-1. */
  ghost function SamplerNameSet(ts: seq<Texture>, n: nat): set<string>
    requires n <= |ts|
  {
    set j | 0 <= j < n :: SamplerName(ts, j)
  }

  lemma SamplerNameSetStep(ts: seq<Texture>, i: nat)
    requires i < |ts|
    ensures SamplerNameSet(ts, i + 1) == SamplerNameSet(ts, i) + {SamplerName(ts, i)}
  {
  }

  /**
   * Apart from the samplers of ts, the uniforms are those of gl: the names are gl's plus the
   * sampler names, and every other name keeps its value.
   */
  ghost predicate OtherUniformsKept(ts: seq<Texture>, n: nat, uniforms: map<string, int>, gl: map<string, int>)
    requires n <= |ts|
  {
    && uniforms.Keys == gl.Keys + SamplerNameSet(ts, n)
    && forall name :: name in gl && name !in SamplerNameSet(ts, |ts|) ==> uniforms[name] == gl[name]
  }

  /** Setting one key of the sampler names keeps every other name's value and adds the key. */
  lemma SetKeyKeepsOthers(uniforms: map<string, int>, gl: map<string, int>, set_: set<string>,
                          all: set<string>, key: string, v: int)
    requires uniforms.Keys == gl.Keys + set_ && key in all
    requires forall name :: name in gl && name !in all ==> uniforms[name] == gl[name]
    ensures uniforms[key := v].Keys == gl.Keys + (set_ + {key})
    ensures forall name :: name in gl && name !in all ==> uniforms[key := v][name] == gl[name]
  {
  }

  /** Setting texture i's sampler adds its name and touches no name outside the samplers. */
  lemma UniformStep(ts: seq<Texture>, i: nat, uniforms: map<string, int>, gl: map<string, int>)
    requires i < |ts| && OtherUniformsKept(ts, i, uniforms, gl)
    ensures OtherUniformsKept(ts, i + 1, uniforms[SamplerName(ts, i) := i], gl)
  {
    var all := SamplerNameSet(ts, |ts|);
    assert SamplerName(ts, i) in all;
    SamplerNameSetStep(ts, i);
    SetKeyKeepsOthers(uniforms, gl, SamplerNameSet(ts, i), all, SamplerName(ts, i), i);
  }

  /** Binding texture i to unit i extends the bound prefix by one. */
  lemma UnitStep(ts: seq<Texture>, i: nat, bound: map<nat, nat>, gl: map<nat, nat>)
    requires i < |ts| && UnitsBound(ts, i, i, bound, gl)
    ensures UnitsBound(ts, i + 1, i + 1, bound[i := ts[i].id], gl)
  {
  }

  /** Textures 0 .. i-1 are bound and named, and nothing else of gl has changed. */
  ghost predicate BoundUpTo(ts: seq<Texture>, i: nat, state: GlState, gl: GlState)
    requires i <= |ts|
  {
    && UnitsBound(ts, i, i, state.boundTextures, gl.boundTextures)
    && SamplersSet(ts, i, state.intUniforms)
    && OtherUniformsKept(ts, i, state.intUniforms, gl.intUniforms)
    && state.floatUniforms == gl.floatUniforms && state.draws == gl.draws
  }

  /** One step of the binding loop: unit i gets texture i and texture i's sampler is set to i. */
  lemma BindStep(ts: seq<Texture>, i: nat, state: GlState, gl: GlState)
    requires i < |ts| && BoundUpTo(ts, i, state, gl)
    ensures BoundUpTo(ts, i + 1, state.(activeUnit := i,
                                       intUniforms := state.intUniforms[SamplerName(ts, i) := i],
                                       boundTextures := state.boundTextures[i := ts[i].id]), gl)
  {
    SamplerStep(ts, i, state.intUniforms);
    UnitStep(ts, i, state.boundTextures, gl.boundTextures);
    UniformStep(ts, i, state.intUniforms, gl.intUniforms);
  }

  /** One step of the per-type counters of Draw: texture i's own counter goes up and names it. */
  method NextSamplerNumber(ts: seq<Texture>, i: nat, diffuseNr: nat, normalNr: nat, metallicNr: nat, roughnessNr: nat)
    returns (diffuseNr': nat, normalNr': nat, metallicNr': nat, roughnessNr': nat, number: nat)
    requires i < |ts|
    requires diffuseNr == CountType(ts[..i], Albedo) && normalNr == CountType(ts[..i], Normal)
    requires metallicNr == CountType(ts[..i], Metallic) && roughnessNr == CountType(ts[..i], Roughness)
    ensures diffuseNr' == CountType(ts[..i + 1], Albedo) && normalNr' == CountType(ts[..i + 1], Normal)
    ensures metallicNr' == CountType(ts[..i + 1], Metallic) && roughnessNr' == CountType(ts[..i + 1], Roughness)
    ensures number == SamplerNumber(ts, i)
  {
    CountTypeStep(ts, i);
    diffuseNr', normalNr', metallicNr', roughnessNr' := diffuseNr, normalNr, metallicNr, roughnessNr;
    match ts[i].textureType {
      case Albedo =>
        diffuseNr' := diffuseNr + 1;
        number := diffuseNr';
      case Normal =>
        normalNr' := normalNr + 1;
        number := normalNr';
      case Metallic =>
        metallicNr' := metallicNr + 1;
        number := metallicNr';
      case Roughness =>
        roughnessNr' := roughnessNr + 1;
        number := roughnessNr';
    }
  }

  /** The first loop of Draw: unit i gets texture i, and texture i's sampler is set to i. */
  method BindTextures(ts: seq<Texture>, gl: GlState) returns (state: GlState)
    ensures UnitsBound(ts, |ts|, |ts|, state.boundTextures, gl.boundTextures)
    ensures SamplersSet(ts, |ts|, state.intUniforms)
    ensures OtherUniformsKept(ts, |ts|, state.intUniforms, gl.intUniforms)
    ensures state.floatUniforms == gl.floatUniforms && state.draws == gl.draws
  {
    state := gl;
    var diffuseNr, normalNr, metallicNr, roughnessNr := 0, 0, 0, 0;
    var i := 0;
    while i < |ts|
      invariant 0 <= i <= |ts|
      invariant diffuseNr == CountType(ts[..i], Albedo) && normalNr == CountType(ts[..i], Normal)
      invariant metallicNr == CountType(ts[..i], Metallic) && roughnessNr == CountType(ts[..i], Roughness)
      invariant BoundUpTo(ts, i, state, gl)
    {
      state := state.(activeUnit := i);
      var number;
      diffuseNr, normalNr, metallicNr, roughnessNr, number :=
        NextSamplerNumber(ts, i, diffuseNr, normalNr, metallicNr, roughnessNr);
      var name := TypeName(ts[i].textureType) + DecimalString(number);
      assert name == SamplerName(ts, i);
      BindStep(ts, i, state, gl);
      state := state.(intUniforms := state.intUniforms[name := i]);
      state := state.(boundTextures := state.boundTextures[state.activeUnit := ts[i].id]);
      i := i + 1;
    }
  }

  /** The reset loop of Draw: units 0 .. count-1 get texture 0; nothing else but the active unit changes. */
  method UnbindTextures(count: nat, gl: GlState) returns (state: GlState)
    ensures forall j :: 0 <= j < count ==> j in state.boundTextures && state.boundTextures[j] == 0
    ensures forall u :: u >= count ==>
      (u in state.boundTextures <==> u in gl.boundTextures)
      && (u in gl.boundTextures ==> state.boundTextures[u] == gl.boundTextures[u])
    ensures state.intUniforms == gl.intUniforms && state.floatUniforms == gl.floatUniforms
    ensures state.draws == gl.draws
  {
    state := gl;
    var i := 0;
    while i < count
      invariant 0 <= i <= count
      invariant forall j :: 0 <= j < i ==> j in state.boundTextures && state.boundTextures[j] == 0
      invariant forall u :: u >= i ==>
        (u in state.boundTextures <==> u in gl.boundTextures)
        && (u in gl.boundTextures ==> state.boundTextures[u] == gl.boundTextures[u])
      invariant state.intUniforms == gl.intUniforms && state.floatUniforms == gl.floatUniforms
      invariant state.draws == gl.draws
    {
      state := state.(activeUnit := i);
      state := state.(boundTextures := state.boundTextures[state.activeUnit := 0]);
      i := i + 1;
    }
  }

  /**
   * Binds texture i to unit i and names it through its sampler, draws with the mesh's
   * opacity and refraction, then resets every unit it used, both ratios and the active unit.
   */
  method Draw(mesh: Mesh, gl: GlState) returns (out: GlState)
    ensures |out.draws| == |gl.draws| + 1 && out.draws[..|gl.draws|] == gl.draws
    ensures var d := out.draws[|gl.draws|];
      && d.elementCount == |mesh.indices|
      && (forall i :: 0 <= i < |mesh.textures| ==>
            i in d.boundTextures && d.boundTextures[i] == mesh.textures[i].id)
      && (forall i :: 0 <= i < |mesh.textures| ==>
            SamplerName(mesh.textures, i) in d.intUniforms
            && d.intUniforms[SamplerName(mesh.textures, i)] == i)
      && OPACITY_UNIFORM in d.floatUniforms && d.floatUniforms[OPACITY_UNIFORM] == mesh.opacityRatio
      && REFRACTION_UNIFORM in d.floatUniforms
      && d.floatUniforms[REFRACTION_UNIFORM] == mesh.refractionRatio
      && OtherUniformsKept(mesh.textures, |mesh.textures|, d.intUniforms, gl.intUniforms)
      && d.floatUniforms == gl.floatUniforms[OPACITY_UNIFORM := mesh.opacityRatio][REFRACTION_UNIFORM := mesh.refractionRatio]
      && (forall u :: u >= |mesh.textures| ==>
            (u in d.boundTextures <==> u in gl.boundTextures)
            && (u in gl.boundTextures ==> d.boundTextures[u] == gl.boundTextures[u]))
      && out.intUniforms == d.intUniforms
    ensures forall i :: 0 <= i < |mesh.textures| ==> i in out.boundTextures && out.boundTextures[i] == 0
    ensures forall u :: u >= |mesh.textures| ==>
      (u in out.boundTextures <==> u in gl.boundTextures)
      && (u in gl.boundTextures ==> out.boundTextures[u] == gl.boundTextures[u])
    ensures out.floatUniforms == gl.floatUniforms[OPACITY_UNIFORM := 0.0][REFRACTION_UNIFORM := 0.0]
    ensures out.activeUnit == 0
  {
    var state := BindTextures(mesh.textures, gl);
    state := state.(floatUniforms := state.floatUniforms[OPACITY_UNIFORM := mesh.opacityRatio]);
    state := state.(floatUniforms := state.floatUniforms[REFRACTION_UNIFORM := mesh.refractionRatio]);
    var drawn := DrawCall(state.boundTextures, state.intUniforms, state.floatUniforms, |mesh.indices|);
    state := state.(draws := state.draws + [drawn]);
    state := UnbindTextures(|mesh.textures|, state);
    state := state.(floatUniforms := state.floatUniforms[OPACITY_UNIFORM := 0.0]);
    state := state.(floatUniforms := state.floatUniforms[REFRACTION_UNIFORM := 0.0]);
    state := state.(activeUnit := 0);
    out := state;
  }
}
