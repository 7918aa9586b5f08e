/**
 * The built-in effects: six fixed schemas, the macro switches most of them
 * share, the parametric blur factory, and the registry that `init()` fills.
 */
module Effects {
  import opened Wrappers
  import opened EffectSchema
  import opened Strings

  /** The five vertex-attribute switches, all off. */
  const CommonMarcos: map<string, bool> := map[
    "USE_TEXCOORD_0" := false,
    "USE_NORMAL" := false,
    "USE_TANGENT" := false,
    "USE_COLOR_0" := false,
    "USE_TEXCOORD_1" := false
  ]

  /**
   * `mat4.identity` applied to a fresh `Float32Array(n)`: it writes the sixteen
   * entries of the column-major identity, and writes past the end of a typed
   * array are dropped, so only the first `n` of them are kept.
   */
  function Identity(n: nat): (m: seq<real>)
    ensures |m| == n
  {
    seq(n, i => if i < 16 && i % 5 == 0 then 1.0 else 0.0)
  }

  /** A fresh `Float32Array(n)`. */
  function Zeros(n: nat): (m: seq<real>)
    ensures |m| == n
  {
    seq(n, i => 0.0)
  }

  const MipmappedLinear := SamplerDesc(Linear, Linear, Some(Nearest))
  const PlainLinear := SamplerDesc(Linear, Linear, None)

  function Mat4(name: string): Uniform {
    Uniform(name, Mat4x4, None, Identity(16))
  }

  function RGreen(): EffectOptions {
    EffectOptions(
      Raster(ShaderFile("./shaders/basic/model.vert.wgsl"), ShaderFile("./shaders/basic/green.frag.wgsl")),
      UniformDesc([Mat4("u_world"), Mat4("u_vp")], [], []),
      Some(CommonMarcos))
  }

  function RUnlit(): EffectOptions {
    EffectOptions(
      Raster(ShaderFile("./shaders/basic/model.vert.wgsl"), ShaderFile("./shaders/basic/unlit.frag.wgsl")),
      UniformDesc(
        [Mat4("u_world"), Mat4("u_vp")],
        [TextureSlot("u_baseColorTexture", White, None)],
        [SamplerSlot("u_sampler", MipmappedLinear)]),
      Some(CommonMarcos))
  }

  function RSkybox(): EffectOptions {
    EffectOptions(
      Raster(ShaderFile("./shaders/basic/skybox.vert.wgsl"), ShaderFile("./shaders/basic/skybox.frag.wgsl")),
      UniformDesc(
        [
          Mat4("u_skyVP"),
          Uniform("u_color", Vec4, None, Identity(4)),
          Uniform("u_factor", Number, None, Zeros(1)),
          Uniform("u_rotation", Number, None, Zeros(1)),
          Uniform("u_exposure", Number, None, Zeros(1))
        ],
        [TextureSlot("u_cubeTexture", CubeWhite, None)],
        [SamplerSlot("u_sampler", MipmappedLinear)]),
      None)
  }

  function RRTGBuffer(): EffectOptions {
    EffectOptions(
      Raster(ShaderFile("./shaders/basic/model.vert.wgsl"), ShaderFile("./shaders/ray-tracing/gbuffer.frag.wgsl")),
      UniformDesc(
        [Mat4("u_world"), Mat4("u_view"), Mat4("u_vp")],
        [TextureSlot("u_baseColorTexture", White, None)],
        [SamplerSlot("u_sampler", MipmappedLinear)]),
      Some(CommonMarcos))
  }

  /** The screen size default is read from the device at `init()` time, so it is a parameter here. */
  function RRTSS(screenWidth: real, screenHeight: real): EffectOptions {
    EffectOptions(
      Raster(ShaderFile("./shaders/image/image.vert.wgsl"), ShaderFile("./shaders/ray-tracing/rtss.frag.wgsl")),
      UniformDesc(
        [
          Uniform("u_screenSize", Vec2, None, [screenWidth, screenHeight]),
          Uniform("u_randomSeed", Vec2, None, [0.0, 0.0]),
          Mat4("u_view"),
          Mat4("u_proj"),
          Mat4("u_vp"),
          Uniform("u_lightPos", Vec3, None, [0.0, 0.0, 0.0]),
          Uniform("u_lightDir", Vec3, None, [0.0, 0.0, 0.0]),
          Uniform("u_lightColor", Vec3, None, [0.0, 0.0, 0.0])
        ],
        [TextureSlot("u_baseColorTexture", White, None)],
        [SamplerSlot("u_sampler", MipmappedLinear)]),
      Some(CommonMarcos))
  }

  function IBlit(): EffectOptions {
    EffectOptions(
      Raster(ShaderFile("./shaders/image/image.vert.wgsl"), ShaderFile("./shaders/image/blit.frag.wgsl")),
      UniformDesc([], [TextureSlot("u_texture", White, None)], [SamplerSlot("u_sampler", PlainLinear)]),
      None)
  }

  // ---------------------------------------------------------------------------
  // The blur factory

  const RadiusMacro := "${MARCO_RADIUS}"
  const WindowSizeMacro := "${MARCO_WINDOW_SIZE}"
  const TileSizeMacro := "${TILE_SIZE}"

  function WindowSize(radius: nat): nat {
    radius * 2 + 1
  }

  function TileSize(radius: nat): nat {
    radius * 4 + 1
  }

  /** Number of taps in the square window of the given radius. */
  function RealKernelSize(radius: nat): nat {
    WindowSize(radius) * WindowSize(radius)
  }

  /** The tap count bumped by `4 - mod`, for an array of `vec4`s. */
  function KernelSize(radius: nat): nat {
    var realKernelSize := RealKernelSize(radius);
    var mod := realKernelSize % 4;
    realKernelSize + (4 - mod)
  }

  /** The compute shader text: the three macro placeholders replaced, one after another. */
  function BlurSource(template: string, radius: nat): string {
    var withRadius := ReplaceAll(template, RadiusMacro, NatToString(radius));
    var withWindow := ReplaceAll(withRadius, WindowSizeMacro, NatToString(WindowSize(radius)));
    ReplaceAll(withWindow, TileSizeMacro, NatToString(TileSize(radius)))
  }

  /** `effects.cCreateSimpleBlur(radius)`, with the text of `blur.comp.wgsl` as `template`. */
  function CreateSimpleBlur(radius: nat, template: string): EffectOptions {
    var kernelSize := KernelSize(radius);
    EffectOptions(
      Compute(ShaderText(BlurSource(template, radius))),
      UniformDesc(
        [Uniform("u_kernel", Vec4, Some(kernelSize / 4), seq(kernelSize, i => 1.0))],
        [TextureSlot("u_input", White, None), TextureSlot("u_output", White, Some(true))],
        [SamplerSlot("u_sampler", PlainLinear)]),
      None)
  }

  /**
   * An odd square leaves remainder 1 modulo 4, so the kernel size is the tap
   * count plus 3: a multiple of 4, strictly above the tap count, and no
   * multiple of 4 above the tap count is smaller.
   */
  lemma KernelSizeIsPaddedTapCount(radius: nat)
    ensures RealKernelSize(radius) % 4 == 1
    ensures KernelSize(radius) == RealKernelSize(radius) + 3
    ensures KernelSize(radius) % 4 == 0
    ensures KernelSize(radius) > RealKernelSize(radius)
    ensures forall m: nat :: m % 4 == 0 && m > RealKernelSize(radius) ==> m >= KernelSize(radius)
  {
    var w := WindowSize(radius);
    assert w * w == 4 * (radius * radius + radius) + 1;
  }

  lemma KernelSizeOfRadiusTwo()
    ensures RealKernelSize(2) == 25 && KernelSize(2) == 28
  {
  }

  /**
   * The single `u_kernel` uniform is an array of `vec4`s whose declared size
   * times 4 is the length of its default, every entry of which is 1.
   */
  lemma BlurKernelUniform(radius: nat, template: string)
    ensures var us := CreateSimpleBlur(radius, template).uniformDesc.uniforms;
      && |us| == 1 && us[0].name == "u_kernel" && us[0].utype == Vec4
      && us[0].size.Some?
      && us[0].size.value * 4 == |us[0].defaultValue| == KernelSize(radius)
      && forall i :: 0 <= i < |us[0].defaultValue| ==> us[0].defaultValue[i] == 1.0
  {
    KernelSizeIsPaddedTapCount(radius);
  }

  /**
   * The macro texts denote the radius, the window size `2r+1` and the tile
   * size `4r+1`, and the tile is one less than twice the window.
   */
  lemma BlurMacroValues(radius: nat)
    ensures DecimalValue(NatToString(radius)) == radius
    ensures DecimalValue(NatToString(WindowSize(radius))) == 2 * radius + 1
    ensures DecimalValue(NatToString(TileSize(radius))) == 4 * radius + 1
    ensures TileSize(radius) == 2 * WindowSize(radius) - 1
  {
    DecimalRoundTrip(radius);
    DecimalRoundTrip(WindowSize(radius));
    DecimalRoundTrip(TileSize(radius));
  }

  /** No placeholder survives the substitution, whatever the template holds. */
  lemma BlurSourceHasNoPlaceholders(template: string, radius: nat)
    ensures !Occurs(BlurSource(template, radius), RadiusMacro)
    ensures !Occurs(BlurSource(template, radius), WindowSizeMacro)
    ensures !Occurs(BlurSource(template, radius), TileSizeMacro)
  {
    var r, w, t := NatToString(radius), NatToString(WindowSize(radius)), NatToString(TileSize(radius));
    var s1 := ReplaceAll(template, RadiusMacro, r);
    var s2 := ReplaceAll(s1, WindowSizeMacro, w);
    assert NoDigits(RadiusMacro) && NoDigits(WindowSizeMacro) && NoDigits(TileSizeMacro);
    ReplaceLeavesNoOccurrence(template, RadiusMacro, r, RadiusMacro);
    ReplaceLeavesNoOccurrence(s1, WindowSizeMacro, w, WindowSizeMacro);
    ReplaceLeavesNoOccurrence(s1, WindowSizeMacro, w, RadiusMacro);
    ReplaceLeavesNoOccurrence(s2, TileSizeMacro, t, TileSizeMacro);
    ReplaceLeavesNoOccurrence(s2, TileSizeMacro, t, WindowSizeMacro);
    ReplaceLeavesNoOccurrence(s2, TileSizeMacro, t, RadiusMacro);
  }

  /** A template without placeholders is used as it is. */
  lemma BlurSourceWithoutPlaceholders(template: string, radius: nat)
    requires !Occurs(template, RadiusMacro)
    requires !Occurs(template, WindowSizeMacro)
    requires !Occurs(template, TileSizeMacro)
    ensures BlurSource(template, radius) == template
  {
    ReplaceWithoutOccurrence(template, RadiusMacro, NatToString(radius));
    ReplaceWithoutOccurrence(template, WindowSizeMacro, NatToString(WindowSize(radius)));
    ReplaceWithoutOccurrence(template, TileSizeMacro, NatToString(TileSize(radius)));
  }

  /**
   * Every blur effect has a well-formed schema with exactly one
   * output-capable texture, `u_output`; `u_input` is read only.
   */
  lemma BlurSchema(radius: nat, template: string)
    ensures var e := CreateSimpleBlur(radius, template);
      && WellFormed(e.uniformDesc)
      && OutputTextures(e.uniformDesc.textures) == ["u_output"]
      && TextureNames(e.uniformDesc) == ["u_input", "u_output"]
      && e.uniformDesc.textures[0].asOutput != Some(true)
      && e.program.Compute? && e.marcos == None
  {
    KernelSizeIsPaddedTapCount(radius);
    var e := CreateSimpleBlur(radius, template);
    assert TextureNames(e.uniformDesc) == ["u_input", "u_output"];
  }

  lemma RGreenWellFormed()
    ensures WellFormed(RGreen().uniformDesc)
  {
    assert UniformNames(RGreen().uniformDesc) == ["u_world", "u_vp"];
  }

  lemma RUnlitWellFormed()
    ensures WellFormed(RUnlit().uniformDesc)
  {
    assert UniformNames(RUnlit().uniformDesc) == ["u_world", "u_vp"];
  }

  lemma RSkyboxWellFormed()
    ensures WellFormed(RSkybox().uniformDesc)
  {
    assert UniformNames(RSkybox().uniformDesc) == ["u_skyVP", "u_color", "u_factor", "u_rotation", "u_exposure"];
  }

  lemma RRTGBufferWellFormed()
    ensures WellFormed(RRTGBuffer().uniformDesc)
  {
    assert UniformNames(RRTGBuffer().uniformDesc) == ["u_world", "u_view", "u_vp"];
  }

  lemma RRTSSWellFormed(screenWidth: real, screenHeight: real)
    ensures WellFormed(RRTSS(screenWidth, screenHeight).uniformDesc)
  {
    assert UniformNames(RRTSS(screenWidth, screenHeight).uniformDesc)
        == ["u_screenSize", "u_randomSeed", "u_view", "u_proj", "u_vp", "u_lightPos", "u_lightDir", "u_lightColor"];
  }

  lemma IBlitWellFormed()
    ensures WellFormed(IBlit().uniformDesc)
  {
  }

  /**
   * Uniqueness is per effect, not global: the same names recur across
   * effects (`u_world` in three, `u_sampler` in every sampler list).
   */
  lemma NamesRecurAcrossEffects(screenWidth: real, screenHeight: real)
    ensures "u_world" in UniformNames(RGreen().uniformDesc)
    ensures "u_world" in UniformNames(RUnlit().uniformDesc)
    ensures "u_world" in UniformNames(RRTGBuffer().uniformDesc)
    ensures SamplerNames(RUnlit().uniformDesc) == SamplerNames(RSkybox().uniformDesc)
        == SamplerNames(RRTGBuffer().uniformDesc) == SamplerNames(RRTSS(screenWidth, screenHeight).uniformDesc)
        == SamplerNames(IBlit().uniformDesc) == ["u_sampler"]
  {
    assert UniformNames(RGreen().uniformDesc)[0] == "u_world";
    assert UniformNames(RUnlit().uniformDesc)[0] == "u_world";
    assert UniformNames(RRTGBuffer().uniformDesc)[0] == "u_world";
  }

  /**
   * The shared switch map turns all five switches off; it is the macro map of
   * rGreen, rUnlit, rRTGBuffer and rRTSS, while rSkybox and iBlit declare none.
   */
  lemma MacroSwitches(screenWidth: real, screenHeight: real)
    ensures CommonMarcos.Keys == {"USE_TEXCOORD_0", "USE_NORMAL", "USE_TANGENT", "USE_COLOR_0", "USE_TEXCOORD_1"}
    ensures forall k :: k in CommonMarcos ==> !CommonMarcos[k]
    ensures RGreen().marcos == RUnlit().marcos == RRTGBuffer().marcos
        == RRTSS(screenWidth, screenHeight).marcos == Some(CommonMarcos)
    ensures RSkybox().marcos == None && IBlit().marcos == None
  {
  }

  // ---------------------------------------------------------------------------
  // The registry

  /** The module-level `effects` object: empty until `init()` fills it. */
  class BuiltinEffects {
    var rGreen: Option<EffectOptions>
    var rUnlit: Option<EffectOptions>
    var rSkybox: Option<EffectOptions>
    var iBlit: Option<EffectOptions>
    var rRTGBuffer: Option<EffectOptions>
    var rRTSS: Option<EffectOptions>
    var cCreateSimpleBlur: Option<nat -> EffectOptions>

    /** Every effect present, and every effect the factory can build, has a well-formed schema. */
    ghost predicate Valid()
      reads this
    {
      && (rGreen.Some? ==> WellFormed(rGreen.value.uniformDesc))
      && (rUnlit.Some? ==> WellFormed(rUnlit.value.uniformDesc))
      && (rSkybox.Some? ==> WellFormed(rSkybox.value.uniformDesc))
      && (iBlit.Some? ==> WellFormed(iBlit.value.uniformDesc))
      && (rRTGBuffer.Some? ==> WellFormed(rRTGBuffer.value.uniformDesc))
      && (rRTSS.Some? ==> WellFormed(rRTSS.value.uniformDesc))
      && (cCreateSimpleBlur.Some? ==> forall r: nat :: WellFormed(cCreateSimpleBlur.value(r).uniformDesc))
    }

    constructor ()
      ensures Valid()
      ensures rGreen == rUnlit == rSkybox == iBlit == rRTGBuffer == rRTSS == None
      ensures cCreateSimpleBlur == None
    {
      rGreen, rUnlit, rSkybox, iBlit, rRTGBuffer, rRTSS := None, None, None, None, None, None;
      cCreateSimpleBlur := None;
    }

    /**
     * `init()`: assigns the seven entries one after another. The screen size
     * and the text of the blur shader are what the source reads from the
     * device and from the shader file.
     */
    method Init(screenWidth: real, screenHeight: real, blurTemplate: string)
      modifies this
      ensures Valid()
      ensures rGreen == Some(RGreen()) && rUnlit == Some(RUnlit()) && rSkybox == Some(RSkybox())
      ensures rRTGBuffer == Some(RRTGBuffer()) && rRTSS == Some(RRTSS(screenWidth, screenHeight))
      ensures iBlit == Some(IBlit())
      ensures cCreateSimpleBlur.Some?
      ensures forall r: nat :: cCreateSimpleBlur.value(r) == CreateSimpleBlur(r, blurTemplate)
    {
      rGreen := Some(RGreen());
      rUnlit := Some(RUnlit());
      rSkybox := Some(RSkybox());
      rRTGBuffer := Some(RRTGBuffer());
      rRTSS := Some(RRTSS(screenWidth, screenHeight));
      iBlit := Some(IBlit());
      cCreateSimpleBlur := Some((r: nat) => CreateSimpleBlur(r, blurTemplate));
      RGreenWellFormed();
      RUnlitWellFormed();
      RSkyboxWellFormed();
      RRTGBufferWellFormed();
      RRTSSWellFormed(screenWidth, screenHeight);
      IBlitWellFormed();
      forall r: nat ensures WellFormed(CreateSimpleBlur(r, blurTemplate).uniformDesc) {
        BlurSchema(r, blurTemplate);
      }
    }
  }
}
