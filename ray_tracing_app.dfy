/**
 * The ray-tracing demo application. Every call it makes on the scene, on the
 * ray-tracing manager and on materials or compute units is recorded as an
 * event in the app's trace; a frame is the sequence of events `_frame()`
 * issues. A protocol monitor states the ordering rules the frame must obey,
 * and the lemmas show that every trace the app can produce satisfies them.
 */
module RayTracingApp {
  import opened Wrappers
  import EffectSchema
  import Effects

  // ---------------------------------------------------------------------------
  // Render targets

  datatype Format = Rgba16Float | Rgba8Unorm

  datatype ColorDesc = ColorDesc(name: string, format: Format)

  datatype DepthStencil = DepthStencil(needStencil: bool)

  /** The options of a `RenderTexture`; width and height are device state and are not modelled. */
  datatype RenderTextureDesc = RenderTextureDesc(colors: seq<ColorDesc>, depthStencil: Option<DepthStencil>, forCompute: bool)

  function ChannelNames(d: RenderTextureDesc): (names: seq<string>)
    ensures |names| == |d.colors|
    ensures forall i :: 0 <= i < |d.colors| ==> names[i] == d.colors[i].name
  {
    seq(|d.colors|, i requires 0 <= i < |d.colors| => d.colors[i].name)
  }

  /** The two render targets the app creates. */
  datatype Target = GBufferRT | RTOutput

  function Describe(t: Target): RenderTextureDesc {
    match t
    case GBufferRT =>
      RenderTextureDesc(
        [
          ColorDesc("positionMetal", Rgba16Float),
          ColorDesc("diffuseRough", Rgba16Float),
          ColorDesc("normalMeshIndex", Rgba16Float),
          ColorDesc("faceNormalMatIndex", Rgba16Float)
        ],
        Some(DepthStencil(false)),
        false)
    case RTOutput =>
      RenderTextureDesc([ColorDesc("color", Rgba8Unorm)], None, true)
  }

  const GBufferChannels: set<string> := {"positionMetal", "diffuseRough", "normalMeshIndex", "faceNormalMatIndex"}

  /**
   * The G-buffer target has four distinct `rgba16float` channels and a depth
   * buffer without stencil; the ray-tracing output has the single storage
   * channel `color` in `rgba8unorm`.
   */
  lemma TargetLayouts()
    ensures var g := Describe(GBufferRT);
      && EffectSchema.Distinct(ChannelNames(g)) && |g.colors| == 4
      && (set i | 0 <= i < |g.colors| :: g.colors[i].name) == GBufferChannels
      && (forall i :: 0 <= i < |g.colors| ==> g.colors[i].format == Rgba16Float)
      && g.depthStencil == Some(DepthStencil(false)) && !g.forCompute
    ensures var o := Describe(RTOutput);
      && ChannelNames(o) == ["color"] && o.colors[0].format == Rgba8Unorm
      && o.depthStencil == None && o.forCompute
  {
    var g := Describe(GBufferRT);
    assert ChannelNames(g) == ["positionMetal", "diffuseRough", "normalMeshIndex", "faceNormalMatIndex"];
    var names := set i | 0 <= i < |g.colors| :: g.colors[i].name;
    assert g.colors[0].name in names && g.colors[1].name in names;
    assert g.colors[2].name in names && g.colors[3].name in names;
  }

  // ---------------------------------------------------------------------------
  // Collaborators, reduced to what the trace mentions

  datatype Camera = Camera(clearColor: seq<real>, near: real, far: real, pos: seq<real>)

  /** The camera `init` builds before the model is loaded. */
  function DefaultCamera(): Camera {
    Camera([0.0, 1.0, 0.0, 1.0], 0.01, 100.0, [0.0, 0.0, 6.0])
  }

  datatype Light = Light(name: string)

  /** The loaded glTF resource, as far as the app reads it. */
  datatype GltfResource = GltfResource(cameras: seq<Camera>, lights: seq<Light>)

  /** The four random numbers drawn for `u_randomSeed` each frame. */
  datatype Seed = Seed(x: real, y: real, z: real, w: real)

  function SeedValues(s: Seed): (v: seq<real>)
    ensures |v| == 4
  {
    [s.x, s.y, s.z, s.w]
  }

  /** Drawables handed to the scene: the manager's G-buffer mesh and the blit quad. */
  datatype Drawable = GBufferMesh | RTBlit

  /** Resource sets the app binds to: the G-buffer debug material and the manager's compute unit. */
  datatype Bindable = GBufferDebugMaterial | RTUnit

  /** The blit material's initial bindings: `u_texture` is the ray-tracing output. */
  const RTBlitBindings: map<string, Target> := map["u_texture" := RTOutput]

  /** Every key of the blit material's bindings is a texture slot declared by iBlit. */
  lemma RTBlitBindingsDeclared()
    ensures forall k :: k in RTBlitBindings ==> k in EffectSchema.TextureNames(Effects.IBlit().uniformDesc)
  {
    assert EffectSchema.TextureNames(Effects.IBlit().uniformDesc) == ["u_texture"];
  }

  datatype Event =
    | StartFrame
    | EndFrame
    | CullCamera(camera: Camera)
    | SetRenderTarget(target: Option<Target>)
    | RenderCamera(camera: Camera, items: seq<Drawable>)
    | ComputeUnits(units: seq<Bindable>, camera: Camera, lights: seq<Light>)
    | RenderImages(images: seq<Drawable>)
    | NewRTManager
      /** `process` on the items culled for `culledFor`, writing into `output`. */
    | Process(culledFor: Camera, output: Target)
    | SetChannel(unit: Bindable, slot: string, source: Target, channel: string)
    | SetUniform(unit: Bindable, slot: string, value: seq<real>)

  // ---------------------------------------------------------------------------
  // What each step of the app issues

  /** Slot and channel of each G-buffer binding, in the order they are made. */
  const GBufferBindings: seq<(string, string)> := [
    ("u_gbPositionMetal", "positionMetal"),
    ("u_gbDiffuseRough", "diffuseRough"),
    ("u_gbNormalMeshIndex", "normalMeshIndex"),
    ("u_gbFaceNormalMatIndex", "faceNormalMatIndex")
  ]

  function ConnectEvents(unit: Bindable): seq<Event> {
    seq(|GBufferBindings|, i requires 0 <= i < |GBufferBindings| =>
      SetChannel(unit, GBufferBindings[i].0, GBufferRT, GBufferBindings[i].1))
  }

  /**
   * Connecting the G-buffer makes exactly four channel bindings, each to a
   * channel the G-buffer target declares, and together they cover all four.
   */
  lemma ConnectBindsEveryChannel(unit: Bindable)
    ensures |ConnectEvents(unit)| == 4
    ensures forall i :: 0 <= i < 4 ==>
      var e := ConnectEvents(unit)[i];
      e.SetChannel? && e.unit == unit && e.source == GBufferRT && e.channel in ChannelNames(Describe(GBufferRT))
    ensures (set i | 0 <= i < 4 :: ConnectEvents(unit)[i].channel) == GBufferChannels
  {
    assert ChannelNames(Describe(GBufferRT)) == ["positionMetal", "diffuseRough", "normalMeshIndex", "faceNormalMatIndex"];
    var c := ConnectEvents(unit);
    var bound := set i | 0 <= i < 4 :: c[i].channel;
    assert c[0].channel in bound && c[1].channel in bound && c[2].channel in bound && c[3].channel in bound;
  }

  /** What `init` issues before its first frame. */
  function InitEvents(): seq<Event> {
    ConnectEvents(GBufferDebugMaterial)
  }

  function LazyInitEvents(camera: Camera): seq<Event> {
    [NewRTManager, CullCamera(camera), Process(camera, RTOutput)] + ConnectEvents(RTUnit)
  }

  function RenderGBufferEvents(camera: Camera): seq<Event> {
    [SetRenderTarget(Some(GBufferRT)), RenderCamera(camera, [GBufferMesh])]
  }

  function ComputeRTSSEvents(camera: Camera, lights: seq<Light>): seq<Event> {
    [SetRenderTarget(None), ComputeUnits([RTUnit], camera, lights), RenderImages([RTBlit])]
  }

  /** The events of one `_frame()`; `first` is whether no manager existed yet. */
  function FrameEvents(first: bool, camera: Camera, lights: seq<Light>, seed: Seed): seq<Event> {
    [StartFrame]
    + (if first then LazyInitEvents(camera) else [])
    + [SetUniform(RTUnit, "u_randomSeed", SeedValues(seed))]
    + RenderGBufferEvents(camera)
    + ComputeRTSSEvents(camera, lights)
    + [EndFrame]
  }

  /** The events of consecutive frames, one per seed. */
  function Frames(first: bool, camera: Camera, lights: seq<Light>, seeds: seq<Seed>): seq<Event>
    decreases |seeds|
  {
    if seeds == [] then []
    else FrameEvents(first, camera, lights, seeds[0]) + Frames(false, camera, lights, seeds[1..])
  }

  lemma {:induction false} FramesSnoc(first: bool, camera: Camera, lights: seq<Light>, seeds: seq<Seed>, seed: Seed)
    ensures Frames(first, camera, lights, seeds + [seed])
         == Frames(first, camera, lights, seeds) + FrameEvents(first && seeds == [], camera, lights, seed)
    decreases |seeds|
  {
    if seeds == [] {
      assert Frames(false, camera, lights, []) == [];
      assert ([] + [seed])[1..] == [];
    } else {
      assert (seeds + [seed])[1..] == seeds[1..] + [seed];
      FramesSnoc(false, camera, lights, seeds[1..], seed);
    }
  }

  /**
   * Every frame opens with `startFrame`, closes with `endFrame`, and issues
   * neither anywhere in between.
   */
  lemma FrameBracketed(first: bool, camera: Camera, lights: seq<Light>, seed: Seed)
    ensures var f := FrameEvents(first, camera, lights, seed);
      && |f| >= 2 && f[0] == StartFrame && f[|f| - 1] == EndFrame
      && forall i :: 0 < i < |f| - 1 ==> f[i] != StartFrame && f[i] != EndFrame
  {
    var f := FrameEvents(first, camera, lights, seed);
    var body := (if first then LazyInitEvents(camera) else [])
      + [SetUniform(RTUnit, "u_randomSeed", SeedValues(seed))]
      + RenderGBufferEvents(camera) + ComputeRTSSEvents(camera, lights);
    assert f == [StartFrame] + body + [EndFrame];
    assert forall i :: 0 <= i < |body| ==> body[i] != StartFrame && body[i] != EndFrame;
    assert forall i :: 0 < i < |f| - 1 ==> f[i] == body[i - 1];
  }

  // ---------------------------------------------------------------------------
  // Counting

  function CountIf(trace: seq<Event>, p: Event -> bool): nat
    decreases |trace|
  {
    if trace == [] then 0 else (if p(trace[0]) then 1 else 0) + CountIf(trace[1..], p)
  }

  lemma {:induction false} CountIfAppend(a: seq<Event>, b: seq<Event>, p: Event -> bool)
    ensures CountIf(a + b, p) == CountIf(a, p) + CountIf(b, p)
    decreases |a|
  {
    if a == [] {
      assert a + b == b;
    } else {
      assert (a + b)[1..] == a[1..] + b;
      CountIfAppend(a[1..], b, p);
    }
  }

  predicate IsNewManager(e: Event) { e.NewRTManager? }

  predicate IsProcess(e: Event) { e.Process? }

  lemma CountIfCons(e: Event, rest: seq<Event>, p: Event -> bool)
    ensures CountIf([e] + rest, p) == (if p(e) then 1 else 0) + CountIf(rest, p)
  {
    assert ([e] + rest)[1..] == rest;
  }

  lemma {:induction false} CountIfNone(trace: seq<Event>, p: Event -> bool)
    requires forall i :: 0 <= i < |trace| ==> !p(trace[i])
    ensures CountIf(trace, p) == 0
    decreases |trace|
  {
    if trace != [] {
      CountIfNone(trace[1..], p);
    }
  }

  lemma FrameManagerCalls(first: bool, camera: Camera, lights: seq<Light>, seed: Seed)
    ensures CountIf(FrameEvents(first, camera, lights, seed), IsNewManager) == (if first then 1 else 0)
    ensures CountIf(FrameEvents(first, camera, lights, seed), IsProcess) == (if first then 1 else 0)
  {
    var tail := [SetUniform(RTUnit, "u_randomSeed", SeedValues(seed))]
      + RenderGBufferEvents(camera) + ComputeRTSSEvents(camera, lights) + [EndFrame];
    CountIfNone(tail, IsNewManager);
    CountIfNone(tail, IsProcess);
    var connectAndTail := ConnectEvents(RTUnit) + tail;
    CountIfNone(connectAndTail, IsNewManager);
    CountIfNone(connectAndTail, IsProcess);
    var lazy := if first then LazyInitEvents(camera) else [];
    assert FrameEvents(first, camera, lights, seed) == [StartFrame] + (lazy + tail);
    CountIfCons(StartFrame, lazy + tail, IsNewManager);
    CountIfCons(StartFrame, lazy + tail, IsProcess);
    if first {
      assert lazy + tail == [NewRTManager] + ([CullCamera(camera)] + ([Process(camera, RTOutput)] + connectAndTail));
      CountIfCons(NewRTManager, [CullCamera(camera)] + ([Process(camera, RTOutput)] + connectAndTail), IsNewManager);
      CountIfCons(NewRTManager, [CullCamera(camera)] + ([Process(camera, RTOutput)] + connectAndTail), IsProcess);
      CountIfCons(CullCamera(camera), [Process(camera, RTOutput)] + connectAndTail, IsNewManager);
      CountIfCons(CullCamera(camera), [Process(camera, RTOutput)] + connectAndTail, IsProcess);
      CountIfCons(Process(camera, RTOutput), connectAndTail, IsNewManager);
      CountIfCons(Process(camera, RTOutput), connectAndTail, IsProcess);
    } else {
      assert lazy + tail == tail;
    }
  }

  /** Frames after the first never construct a manager nor call `process`. */
  lemma {:induction false} LaterFramesMakeNoManagerCalls(camera: Camera, lights: seq<Light>, seeds: seq<Seed>)
    ensures CountIf(Frames(false, camera, lights, seeds), IsNewManager) == 0
    ensures CountIf(Frames(false, camera, lights, seeds), IsProcess) == 0
    decreases |seeds|
  {
    if seeds != [] {
      var rest := Frames(false, camera, lights, seeds[1..]);
      LaterFramesMakeNoManagerCalls(camera, lights, seeds[1..]);
      FrameManagerCalls(false, camera, lights, seeds[0]);
      CountIfAppend(FrameEvents(false, camera, lights, seeds[0]), rest, IsNewManager);
      CountIfAppend(FrameEvents(false, camera, lights, seeds[0]), rest, IsProcess);
    }
  }

  /**
   * Over `init` and any number of frames the manager is constructed, and
   * `process` called, exactly once, in the first frame.
   */
  lemma ManagerCreatedOnce(camera: Camera, lights: seq<Light>, seeds: seq<Seed>)
    requires |seeds| >= 1
    ensures var t := InitEvents() + Frames(true, camera, lights, seeds);
      && CountIf(t, IsNewManager) == 1 && CountIf(t, IsProcess) == 1
    ensures CountIf(FrameEvents(true, camera, lights, seeds[0]), IsNewManager) == 1
    ensures CountIf(FrameEvents(true, camera, lights, seeds[0]), IsProcess) == 1
  {
    var first := FrameEvents(true, camera, lights, seeds[0]);
    var rest := Frames(false, camera, lights, seeds[1..]);
    FrameManagerCalls(true, camera, lights, seeds[0]);
    LaterFramesMakeNoManagerCalls(camera, lights, seeds[1..]);
    assert InitEvents() + Frames(true, camera, lights, seeds) == InitEvents() + (first + rest);
    CountIfAppend(InitEvents(), first + rest, IsNewManager);
    CountIfAppend(InitEvents(), first + rest, IsProcess);
    CountIfAppend(first, rest, IsNewManager);
    CountIfAppend(first, rest, IsProcess);
  }

  // ---------------------------------------------------------------------------
  // The frame protocol

  /**
   * What the protocol remembers: whether a frame is open, the current render
   * target, whether the manager exists and has processed the scene, which
   * G-buffer channels are bound on its compute unit, and, for the current
   * frame, whether the seed was refreshed, the G-buffer drawn, and the
   * ray-tracing output computed.
   */
  datatype Monitor = Monitor(
    active: bool,
    target: Option<Target>,
    managerReady: bool,
    processed: bool,
    bound: set<string>,
    seeded: bool,
    gBufferDrawn: bool,
    computed: bool)

  const Idle := Monitor(false, None, false, false, {}, false, false, false)

  /** The state between two frames once the manager is set up. */
  const Steady := Monitor(false, None, true, true, GBufferChannels, true, true, true)

  function Guard(ok: bool, m: Monitor): Option<Monitor> {
    if ok then Some(m) else None
  }

  /**
   * One call, or `None` when the call breaks the protocol:
   * frames strictly alternate with the idle state, and scene calls and uses of
   * the manager happen inside a frame; the manager is constructed once and
   * `process`es once, into a compute-capable target; a channel binding names a
   * channel its target declares; the G-buffer pass draws into the G-buffer
   * after the seed is refreshed; the ray-tracing dispatch runs on the output
   * target with every G-buffer channel bound, after this frame's G-buffer pass and
   * refreshed seed; the blit quad is drawn only after this frame's dispatch.
   */
  function Step(m: Monitor, e: Event): Option<Monitor> {
    match e
    case StartFrame =>
      Guard(!m.active, m.(active := true, seeded := false, gBufferDrawn := false, computed := false))
    case EndFrame =>
      Guard(m.active, m.(active := false))
    case CullCamera(_) =>
      Guard(m.active, m)
    case SetRenderTarget(t) =>
      Guard(m.active, m.(target := t))
    case RenderCamera(_, items) =>
      if GBufferMesh in items then
        Guard(m.active && m.managerReady && m.seeded && m.target == Some(GBufferRT), m.(gBufferDrawn := true))
      else Guard(m.active, m)
    case ComputeUnits(units, _, _) =>
      if RTUnit in units then
        Guard(m.active && m.processed && m.seeded && m.gBufferDrawn && m.bound == GBufferChannels && m.target == None,
              m.(computed := true))
      else Guard(m.active, m)
    case RenderImages(images) =>
      Guard(m.active && (RTBlit in images ==> m.computed), m)
    case NewRTManager =>
      Guard(m.active && !m.managerReady, m.(managerReady := true))
    case Process(_, output) =>
      Guard(m.active && m.managerReady && !m.processed && Describe(output).forCompute, m.(processed := true))
    case SetChannel(unit, _, source, channel) =>
      if channel !in ChannelNames(Describe(source)) then None
      else if unit == RTUnit then Guard(m.active && m.managerReady, m.(bound := m.bound + {channel}))
      else Some(m)
    case SetUniform(unit, slot, value) =>
      if unit != RTUnit then Some(m)
      else if slot == "u_randomSeed" then Guard(m.active && m.managerReady && |value| == 4, m.(seeded := true))
      else Guard(m.active && m.managerReady, m)
  }

  /** The protocol run over a trace: the final state, or `None` at the first violation. */
  function Run(m: Monitor, trace: seq<Event>): Option<Monitor>
    decreases |trace|
  {
    if trace == [] then Some(m)
    else
      match Step(m, trace[0])
      case None => None
      case Some(m') => Run(m', trace[1..])
  }

  lemma {:induction false} RunAppend(m: Monitor, a: seq<Event>, b: seq<Event>)
    ensures Run(m, a + b) == (match Run(m, a) case None => None case Some(m') => Run(m', b))
    decreases |a|
  {
    if a == [] {
      assert a + b == b;
    } else {
      assert (a + b)[1..] == a[1..] + b;
      match Step(m, a[0])
      case None =>
      case Some(m') => RunAppend(m', a[1..], b);
    }
  }

  lemma RunCons(m: Monitor, e: Event, rest: seq<Event>)
    ensures Run(m, [e] + rest) == (match Step(m, e) case None => None case Some(m') => Run(m', rest))
  {
    assert ([e] + rest)[1..] == rest;
  }

  lemma RunConnect(m: Monitor, unit: Bindable, rest: seq<Event>)
    requires unit == RTUnit ==> m.active && m.managerReady
    ensures Run(m, ConnectEvents(unit) + rest) == Run(if unit == RTUnit then m.(bound := m.bound + GBufferChannels) else m, rest)
  {
    var c := ConnectEvents(unit);
    assert ChannelNames(Describe(GBufferRT)) == ["positionMetal", "diffuseRough", "normalMeshIndex", "faceNormalMatIndex"];
    assert c + rest == [c[0]] + ([c[1]] + ([c[2]] + ([c[3]] + rest)));
    RunCons(m, c[0], [c[1]] + ([c[2]] + ([c[3]] + rest)));
    var m1 := Step(m, c[0]).value;
    RunCons(m1, c[1], [c[2]] + ([c[3]] + rest));
    var m2 := Step(m1, c[1]).value;
    RunCons(m2, c[2], [c[3]] + rest);
    var m3 := Step(m2, c[2]).value;
    RunCons(m3, c[3], rest);
    if unit == RTUnit {
      assert Step(m3, c[3]).value == m.(bound := m.bound + GBufferChannels);
    }
  }

  /** The part of a frame after the lazy set-up, from an open frame with the manager in place. */
  lemma RunFrameBody(m: Monitor, camera: Camera, lights: seq<Light>, seed: Seed)
    requires m.active && m.managerReady && m.processed && m.bound == GBufferChannels
    ensures Run(m, [SetUniform(RTUnit, "u_randomSeed", SeedValues(seed))]
                   + RenderGBufferEvents(camera) + ComputeRTSSEvents(camera, lights) + [EndFrame])
         == Some(m.(active := false, target := None, seeded := true, gBufferDrawn := true, computed := true))
  {
    var e0 := SetUniform(RTUnit, "u_randomSeed", SeedValues(seed));
    var e1 := SetRenderTarget(Some(GBufferRT));
    var e2 := RenderCamera(camera, [GBufferMesh]);
    var e3 := SetRenderTarget(None);
    var e4 := ComputeUnits([RTUnit], camera, lights);
    var e5 := RenderImages([RTBlit]);
    assert [e0] + RenderGBufferEvents(camera) + ComputeRTSSEvents(camera, lights) + [EndFrame]
        == [e0] + ([e1] + ([e2] + ([e3] + ([e4] + ([e5] + [EndFrame])))));
    var m1 := m.(seeded := true);
    var m2 := m1.(target := Some(GBufferRT));
    var m3 := m2.(gBufferDrawn := true);
    var m4 := m3.(target := None);
    var m5 := m4.(computed := true);
    assert Step(m, e0) == Some(m1);
    assert Step(m1, e1) == Some(m2);
    assert Step(m2, e2) == Some(m3);
    assert Step(m3, e3) == Some(m4);
    assert Step(m4, e4) == Some(m5);
    assert Step(m5, e5) == Some(m5);
    assert Step(m5, EndFrame) == Some(m5.(active := false));
    RunCons(m, e0, [e1] + ([e2] + ([e3] + ([e4] + ([e5] + [EndFrame])))));
    RunCons(m1, e1, [e2] + ([e3] + ([e4] + ([e5] + [EndFrame]))));
    RunCons(m2, e2, [e3] + ([e4] + ([e5] + [EndFrame])));
    RunCons(m3, e3, [e4] + ([e5] + [EndFrame]));
    RunCons(m4, e4, [e5] + [EndFrame]);
    RunCons(m5, e5, [EndFrame]);
    RunCons(m5, EndFrame, []);
  }

  lemma RunFrame(m: Monitor, first: bool, camera: Camera, lights: seq<Light>, seed: Seed)
    requires !m.active && m.target == None
    requires first ==> !m.managerReady && !m.processed && m.bound == {}
    requires !first ==> m.managerReady && m.processed && m.bound == GBufferChannels
    ensures Run(m, FrameEvents(first, camera, lights, seed)) == Some(Steady)
  {
    var m0 := m.(active := true, seeded := false, gBufferDrawn := false, computed := false);
    var lazy := if first then LazyInitEvents(camera) else [];
    var body := [SetUniform(RTUnit, "u_randomSeed", SeedValues(seed))]
      + RenderGBufferEvents(camera) + ComputeRTSSEvents(camera, lights) + [EndFrame];
    assert FrameEvents(first, camera, lights, seed) == [StartFrame] + (lazy + body);
    RunCons(m, StartFrame, lazy + body);
    var m1 := m0.(managerReady := true, processed := true, bound := GBufferChannels);
    if first {
      var p := Process(camera, RTOutput);
      assert lazy + body == [NewRTManager] + ([CullCamera(camera)] + ([p] + (ConnectEvents(RTUnit) + body)));
      var ma := m0.(managerReady := true);
      var mb := ma.(processed := true);
      RunCons(m0, NewRTManager, [CullCamera(camera)] + ([p] + (ConnectEvents(RTUnit) + body)));
      RunCons(ma, CullCamera(camera), [p] + (ConnectEvents(RTUnit) + body));
      RunCons(ma, p, ConnectEvents(RTUnit) + body);
      RunConnect(mb, RTUnit, body);
      assert mb.(bound := mb.bound + GBufferChannels) == m1;
    } else {
      assert m0 == m1;
      assert lazy + body == body;
    }
    assert Run(m0, lazy + body) == Run(m1, body);
    RunFrameBody(m1, camera, lights, seed);
  }

  lemma {:induction false} RunLaterFrames(camera: Camera, lights: seq<Light>, seeds: seq<Seed>)
    ensures Run(Steady, Frames(false, camera, lights, seeds)) == Some(Steady)
    decreases |seeds|
  {
    if seeds != [] {
      RunAppend(Steady, FrameEvents(false, camera, lights, seeds[0]), Frames(false, camera, lights, seeds[1..]));
      RunFrame(Steady, false, camera, lights, seeds[0]);
      RunLaterFrames(camera, lights, seeds[1..]);
    }
  }

  /**
   * Every trace the app can produce, `init` followed by any number of
   * updates, obeys the frame protocol and ends between frames.
   */
  lemma AppTraceAccepted(camera: Camera, lights: seq<Light>, seeds: seq<Seed>)
    requires |seeds| >= 1
    ensures Run(Idle, InitEvents() + Frames(true, camera, lights, seeds)) == Some(Steady)
  {
    RunConnect(Idle, GBufferDebugMaterial, Frames(true, camera, lights, seeds));
    RunAppend(Idle, FrameEvents(true, camera, lights, seeds[0]), Frames(false, camera, lights, seeds[1..]));
    RunFrame(Idle, true, camera, lights, seeds[0]);
    RunLaterFrames(camera, lights, seeds[1..]);
  }

  /**
   * What acceptance means at each call: the protocol state just before the
   * G-buffer draw, the ray-tracing dispatch and the blit.
   */
  lemma AcceptedTraceOrdering(m: Monitor, trace: seq<Event>, i: nat)
    requires Run(m, trace).Some?
    requires i < |trace|
    ensures Run(m, trace[..i]).Some?
    ensures var before := Run(m, trace[..i]).value;
      && (trace[i].RenderCamera? && GBufferMesh in trace[i].items ==>
            before.active && before.seeded && before.target == Some(GBufferRT))
      && (trace[i].ComputeUnits? && RTUnit in trace[i].units ==>
            before.active && before.seeded && before.gBufferDrawn && before.processed
            && before.bound == GBufferChannels && before.target == None)
      && (trace[i].RenderImages? && RTBlit in trace[i].images ==> before.active && before.computed)
      && (trace[i] == NewRTManager ==> before.active && !before.managerReady)
  {
    assert trace == trace[..i] + trace[i..];
    RunAppend(m, trace[..i], trace[i..]);
    var before := Run(m, trace[..i]).value;
    assert trace[i..] == [trace[i]] + trace[i + 1..];
    RunAppend(before, [trace[i]], trace[i + 1..]);
  }

  // ---------------------------------------------------------------------------
  // The application

  /** The ray-tracing manager; its internals are outside this model. */
  class RayTracingManager {
    constructor () {}
  }

  class App {
    var camera: Camera
    var lights: seq<Light>
    var rtManager: Option<RayTracingManager>
    /** Every call the app has issued, in order. */
    var trace: seq<Event>
    /** The seeds of the frames run so far. */
    ghost var seeds: seq<Seed>

    /** After `init`: the manager exists and the trace is `init`'s bindings followed by one frame per seed. */
    ghost predicate Valid()
      reads this
    {
      && |seeds| >= 1
      && rtManager.Some?
      && trace == InitEvents() + Frames(true, camera, lights, seeds)
    }

    /**
     * `init`, with the loaded model as a parameter: chooses the model's first
     * camera when it has one, takes its lights, and runs the first frame.
     */
    constructor Init(model: GltfResource, seed: Seed)
      ensures Valid()
      ensures camera == (if |model.cameras| > 0 then model.cameras[0] else DefaultCamera())
      ensures lights == model.lights
      ensures seeds == [seed]
      ensures trace == InitEvents() + FrameEvents(true, camera, lights, seed)
      ensures fresh(rtManager.value)
    {
      camera := DefaultCamera();
      lights := [];
      rtManager := None;
      trace := [];
      seeds := [seed];
      new;
      ConnectGBufferRenderTexture(GBufferDebugMaterial);
      if |model.cameras| > 0 {
        camera := model.cameras[0];
      }
      lights := model.lights;
      Frame(seed);
      assert Frames(true, camera, lights, [seed]) == FrameEvents(true, camera, lights, seed) + [];
    }

    /** `update(dt)`: one frame; `dt` is not used. */
    method Update(dt: real, seed: Seed)
      requires Valid()
      modifies this
      ensures Valid()
      ensures rtManager == old(rtManager) && camera == old(camera) && lights == old(lights)
      ensures seeds == old(seeds) + [seed]
      ensures trace == old(trace) + FrameEvents(false, camera, lights, seed)
    {
      Frame(seed);
      FramesSnoc(true, camera, lights, seeds, seed);
      seeds := seeds + [seed];
    }

    /** `_frame()`: the manager is built, fed and connected only when it does not exist yet. */
    method Frame(seed: Seed)
      modifies this
      ensures camera == old(camera) && lights == old(lights) && seeds == old(seeds)
      ensures rtManager.Some?
      ensures old(rtManager).Some? ==> rtManager == old(rtManager)
      ensures old(rtManager).None? ==> fresh(rtManager.value)
      ensures trace == old(trace) + FrameEvents(old(rtManager).None?, camera, lights, seed)
    {
      trace := trace + [StartFrame];
      if rtManager.None? {
        var manager := new RayTracingManager();
        rtManager := Some(manager);
        trace := trace + [NewRTManager, CullCamera(camera), Process(camera, RTOutput)];
        ConnectGBufferRenderTexture(RTUnit);
      }
      trace := trace + [SetUniform(RTUnit, "u_randomSeed", SeedValues(seed))];
      RenderGBuffer();
      ComputeRTSS();
      trace := trace + [EndFrame];
    }

    method RenderGBuffer()
      modifies this`trace
      ensures trace == old(trace) + RenderGBufferEvents(camera)
    {
      trace := trace + [SetRenderTarget(Some(GBufferRT))];
      trace := trace + [RenderCamera(camera, [GBufferMesh])];
    }

    method ComputeRTSS()
      modifies this`trace
      ensures trace == old(trace) + ComputeRTSSEvents(camera, lights)
    {
      trace := trace + [SetRenderTarget(None)];
      trace := trace + [ComputeUnits([RTUnit], camera, lights)];
      trace := trace + [RenderImages([RTBlit])];
    }

    method ConnectGBufferRenderTexture(unit: Bindable)
      modifies this`trace
      ensures trace == old(trace) + ConnectEvents(unit)
    {
      trace := trace + [SetChannel(unit, "u_gbPositionMetal", GBufferRT, "positionMetal")];
      trace := trace + [SetChannel(unit, "u_gbDiffuseRough", GBufferRT, "diffuseRough")];
      trace := trace + [SetChannel(unit, "u_gbNormalMeshIndex", GBufferRT, "normalMeshIndex")];
      trace := trace + [SetChannel(unit, "u_gbFaceNormalMatIndex", GBufferRT, "faceNormalMatIndex")];
    }
  }
}
