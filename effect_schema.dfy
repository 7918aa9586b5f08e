/**
 * The options an `Effect` is constructed from: shader sources, the three
 * independent schema lists (value uniforms, textures, samplers) and the macro
 * switches. Compilation and pipeline creation are not modelled; an effect is
 * its options.
 */
module EffectSchema {
  import opened Wrappers

  datatype UniformType = Mat4x4 | Vec4 | Vec3 | Vec2 | Number

  /** Number of floats one element of the type occupies. */
  function Width(t: UniformType): (w: nat)
    ensures 1 <= w <= 16
  {
    match t
    case Mat4x4 => 16
    case Vec4 => 4
    case Vec3 => 3
    case Vec2 => 2
    case Number => 1
  }

  /** A value uniform; `size` is the array length, absent for a single element. */
  datatype Uniform = Uniform(name: string, utype: UniformType, size: Option<nat>, defaultValue: seq<real>)

  /** The built-in default textures a slot may fall back to. */
  datatype BuiltinTexture = White | CubeWhite

  datatype TextureSlot = TextureSlot(name: string, defaultValue: BuiltinTexture, asOutput: Option<bool>)

  datatype Filter = Linear | Nearest

  datatype SamplerDesc = SamplerDesc(magFilter: Filter, minFilter: Filter, mipmapFilter: Option<Filter>)

  datatype SamplerSlot = SamplerSlot(name: string, defaultValue: SamplerDesc)

  datatype UniformDesc = UniformDesc(uniforms: seq<Uniform>, textures: seq<TextureSlot>, samplers: seq<SamplerSlot>)

  /** A shader given by the file it is loaded from, or by its (already specialised) text. */
  datatype Source = ShaderFile(path: string) | ShaderText(code: string)

  datatype Program = Raster(vs: Source, fs: Source) | Compute(cs: Source)

  datatype EffectOptions = EffectOptions(program: Program, uniformDesc: UniformDesc, marcos: Option<map<string, bool>>)

  function UniformNames(d: UniformDesc): (names: seq<string>)
    ensures |names| == |d.uniforms|
    ensures forall i :: 0 <= i < |d.uniforms| ==> names[i] == d.uniforms[i].name
  {
    seq(|d.uniforms|, i requires 0 <= i < |d.uniforms| => d.uniforms[i].name)
  }

  function TextureNames(d: UniformDesc): (names: seq<string>)
    ensures |names| == |d.textures|
    ensures forall i :: 0 <= i < |d.textures| ==> names[i] == d.textures[i].name
  {
    seq(|d.textures|, i requires 0 <= i < |d.textures| => d.textures[i].name)
  }

  function SamplerNames(d: UniformDesc): (names: seq<string>)
    ensures |names| == |d.samplers|
    ensures forall i :: 0 <= i < |d.samplers| ==> names[i] == d.samplers[i].name
  {
    seq(|d.samplers|, i requires 0 <= i < |d.samplers| => d.samplers[i].name)
  }

  predicate Distinct(names: seq<string>) {
    forall i, j :: 0 <= i < j < |names| ==> names[i] != names[j]
  }

  /** Number of floats the uniform's default must hold: element width times array size. */
  function ExpectedLength(u: Uniform): nat {
    Width(u.utype) * (if u.size.Some? then u.size.value else 1)
  }

  /**
   * A schema is well formed when names are unique within each of the three
   * lists (the lists are separate name spaces) and every value uniform's
   * default holds exactly as many floats as its type and size call for.
   */
  predicate WellFormed(d: UniformDesc) {
    && Distinct(UniformNames(d))
    && Distinct(TextureNames(d))
    && Distinct(SamplerNames(d))
    && forall i :: 0 <= i < |d.uniforms| ==> |d.uniforms[i].defaultValue| == ExpectedLength(d.uniforms[i])
  }

  /** Names of the texture slots a compute effect writes to, in declaration order. */
  function OutputTextures(ts: seq<TextureSlot>): (names: seq<string>)
    ensures forall n :: n in names <==> exists i :: 0 <= i < |ts| && ts[i].asOutput == Some(true) && ts[i].name == n
    ensures |names| <= |ts|
  {
    if ts == [] then []
    else
      var rest := OutputTextures(ts[1..]);
      assert forall i :: 1 <= i < |ts| ==> ts[i] == ts[1..][i - 1];
      if ts[0].asOutput == Some(true) then [ts[0].name] + rest else rest
  }
}
