# Built-in effects and the ray-tracing frame loop, modelled in Dafny

This project models two parts of a WebGPU renderer.

- **The built-in effect table** (`src/buildin/effects.ts`). `init()` fills the module-level `effects` registry with six effects: `rGreen`, `rUnlit`, `rSkybox`, `rRTGBuffer`, `rRTSS` and `iBlit`. It also installs the `cCreateSimpleBlur(radius)` factory. Each effect's schema has three independent lists:
  - value uniforms (name, type, optional array `size`, default floats);
  - textures (name, default texture, optional `asOutput`);
  - samplers (name, filter settings).

  The blur factory does three things:
  - it pads the window's tap count `(2r+1)^2` into an array of `vec4`s;
  - it fills in three macro placeholders of the compute shader text;
  - it declares one output-capable texture.
- **The ray-tracing demo** (`demo/RayTracingApp.ts`). `init` builds two render targets: a four-channel G-buffer target and a compute-writable output. It then picks a camera and runs a first frame, and each `update` runs one more frame. A frame is a fixed sequence of calls:
  1. start the frame;
  2. create the ray-tracing manager, lazily, once;
  3. refresh the random seed;
  4. draw the G-buffer;
  5. dispatch the compute pass with the render target unset;
  6. blit the result;
  7. end the frame.

Modules:

- `Wrappers` (`wrappers.dfy`): `Option`.
- `Strings` (`strings.dfy`): the global replace of a literal pattern. It scans left to right, matches do not overlap, and inserted text is never rescanned. The module also renders a non-negative integer as decimal text. JavaScript does the same for an integer below 1e21 passed as the replacement; from 1e21 on it uses exponent notation.
- `EffectSchema` (`effect_schema.dfy`): the options an `Effect` is built from, as datatypes. `WellFormed` holds when names are unique in each list and every default has width(type) × size floats.
- `Effects` (`effects.dfy`): the six schemas, `commonMarcos`, the blur factory, and the registry as a class whose `Init` assigns its fields.
- `RayTracingApp` (`ray_tracing_app.dfy`): the app as a class. It has an optional manager field and a trace, and every call it issues is appended to the trace as an event. `Step`/`Run` describe the frame protocol: frames alternate with an idle state, the manager is created once, channels are bound before they are read, and the scene is processed once, in the first frame. Within each frame, the dispatch reads G-buffer channels and a seed written earlier in that frame, and the blit reads an output the dispatch wrote earlier in that frame. The lemmas show that every trace the app can produce follows this protocol.

## Model

| member | source | states |
|---|---|---|
| `Strings.NatToString` | src/buildin/effects.ts:259-261 | The text given for a numeric replacement is a non-empty run of decimal digits with no leading zero |
| `Strings.DecimalRoundTrip` | src/buildin/effects.ts:259-261 | Reading the decimal text of `n` back gives `n` |
| `Strings.ReplaceLeavesNoOccurrence` | src/buildin/effects.ts:258-261 | After a global replace by digits, the pattern does not occur; nor does any digit-free text that did not occur before |
| `Strings.ReplaceWithoutOccurrence` | src/buildin/effects.ts:258-261 | A text without the pattern comes back unchanged |
| `EffectSchema.OutputTextures` | src/buildin/effects.ts:276-280 | A name is listed exactly when some texture slot under that name has `asOutput` set |
| `Effects.Identity` | src/buildin/effects.ts:100 | `mat4.identity` on a `Float32Array(n)` yields `n` floats (4 for `u_color`, 16 for the matrices) |
| `Effects.KernelSizeIsPaddedTapCount` | src/buildin/effects.ts:253-255 | `(2r+1)^2 % 4` is always 1, so the kernel size is `(2r+1)^2 + 3`, a multiple of 4, strictly above the tap count, and the least multiple of 4 above it |
| `Effects.KernelSizeOfRadiusTwo` | src/buildin/effects.ts:253-255 | For radius 2 the tap count is 25 and the kernel size is 28 |
| `Effects.BlurKernelUniform` | src/buildin/effects.ts:264-268 | `u_kernel` is a `vec4` array whose size times 4 equals its default's length, which is the kernel size; every entry is 1 |
| `Effects.BlurMacroValues` | src/buildin/effects.ts:259-261 | The substituted texts denote `r`, `2r+1` and `4r+1`; the tile size equals twice the window size minus 1 |
| `Effects.BlurSourceHasNoPlaceholders` | src/buildin/effects.ts:258-261 | Whatever the template, no `${MARCO_RADIUS}`, `${MARCO_WINDOW_SIZE}` or `${TILE_SIZE}` remains after substitution |
| `Effects.BlurSourceWithoutPlaceholders` | src/buildin/effects.ts:258-261 | A template with no placeholders is used unchanged |
| `Effects.BlurSchema` | src/buildin/effects.ts:257-289 | Every blur schema is well formed and is a compute effect without macros; its textures are `u_input` and `u_output`, and only `u_output` can be written |
| `Effects.RGreenWellFormed` | src/buildin/effects.ts:33-53 | Names are unique per list; each default's length matches type × size |
| `Effects.RUnlitWellFormed` | src/buildin/effects.ts:55-85 | Names are unique per list; each default's length matches type × size |
| `Effects.RSkyboxWellFormed` | src/buildin/effects.ts:87-131 | Names are unique per list; the `vec4`, `number` and `mat4x4` defaults have lengths 4, 1 and 16 |
| `Effects.RRTGBufferWellFormed` | src/buildin/effects.ts:133-168 | Names are unique per list; each default's length matches type × size |
| `Effects.RRTSSWellFormed` | src/buildin/effects.ts:170-230 | The eight uniform names are distinct; the `vec2`, `vec3` and `mat4x4` defaults have lengths 2, 3 and 16, whatever the screen size |
| `Effects.IBlitWellFormed` | src/buildin/effects.ts:232-250 | Names are unique per list (no value uniforms) |
| `Effects.NamesRecurAcrossEffects` | src/buildin/effects.ts:32-250 | Uniqueness holds per effect only: `u_world` appears in three effects, and `u_sampler` is the sampler list of five |
| `Effects.MacroSwitches` | src/buildin/effects.ts:24-30 | `commonMarcos` has exactly the five switches, all false; rGreen, rUnlit, rRTGBuffer and rRTSS use it, while rSkybox and iBlit declare no macros |
| `Effects.BuiltinEffects.constructor` | src/buildin/effects.ts:12-20 | Before `init()` the registry holds nothing |
| `Effects.BuiltinEffects.Init` | src/buildin/effects.ts:32-291 | Each entry is set to its schema and the factory to `cCreateSimpleBlur`; every registered and every buildable schema is well formed |
| `RayTracingApp.SeedValues` | demo/RayTracingApp.ts:86 | The seed uniform is set with four floats |
| `RayTracingApp.TargetLayouts` | demo/RayTracingApp.ts:36-56 | The G-buffer target has four distinct channel names, all `rgba16float`, and depth without stencil, and it is not a compute target. The output has the one channel `color` in `rgba8unorm` and is a compute target |
| `RayTracingApp.RTBlitBindingsDeclared` | demo/RayTracingApp.ts:57 | The blit material's initial binding `u_texture` is a texture slot of iBlit |
| `RayTracingApp.ConnectBindsEveryChannel` | demo/RayTracingApp.ts:118-123 | Exactly four bindings, on the given unit. Each binds a channel that the G-buffer target declares, and together they cover all four |
| `RayTracingApp.FramesSnoc` | demo/RayTracingApp.ts:71-73 | One more update appends exactly one later frame to the trace |
| `RayTracingApp.FrameBracketed` | demo/RayTracingApp.ts:75-92 | A frame's events begin with `startFrame` and end with `endFrame`, with neither in between |
| `RayTracingApp.FrameManagerCalls` | demo/RayTracingApp.ts:80-84 | A frame constructs the manager and calls `process` once if no manager existed, and otherwise never |
| `RayTracingApp.LaterFramesMakeNoManagerCalls` | demo/RayTracingApp.ts:80-84 | Any number of later frames construct no manager and call no `process` |
| `RayTracingApp.ManagerCreatedOnce` | demo/RayTracingApp.ts:80-84 | Over `init` and any number of updates, the manager is constructed exactly once and `process` is called exactly once, both in the first frame |
| `RayTracingApp.RunFrame` | demo/RayTracingApp.ts:75-103 | A frame run from the idle state (first frame, or a later one with the manager in place) follows the protocol and ends in the steady state |
| `RayTracingApp.AppTraceAccepted` | demo/RayTracingApp.ts:23-103 | Every trace of `init` followed by any number of updates follows the frame protocol and ends between frames |
| `RayTracingApp.AcceptedTraceOrdering` | demo/RayTracingApp.ts:86-103 | In an accepted trace, before the G-buffer draw the target is `_gBufferRT` and the seed is fresh. Before the dispatch the target is null, the G-buffer has been drawn, all four channels are bound and the scene is processed. The blit comes after the dispatch, and a manager is constructed only when none exists |
| `RayTracingApp.App.Init` | demo/RayTracingApp.ts:23-69 | The camera is the model's first camera if it has one, else the built camera at `[0,0,6]`; the lights are the model's. The trace is the debug bindings plus exactly one first frame, and the new manager is fresh |
| `RayTracingApp.App.Update` | demo/RayTracingApp.ts:71-73 | Runs exactly one later frame; `dt` plays no part; the manager, camera and lights are unchanged; the invariant is kept |
| `RayTracingApp.App.Frame` | demo/RayTracingApp.ts:75-92 | Appends one frame. A manager is created (fresh) only when there was none; an existing one is kept |
| `RayTracingApp.App.RenderGBuffer` | demo/RayTracingApp.ts:94-97 | Sets the G-buffer target, then renders the G-buffer mesh with the app camera |
| `RayTracingApp.App.ComputeRTSS` | demo/RayTracingApp.ts:99-103 | Unsets the target, dispatches the ray-tracing unit with the camera and lights, then blits |
| `RayTracingApp.App.ConnectGBufferRenderTexture` | demo/RayTracingApp.ts:118-123 | Appends the four G-buffer channel bindings on the given material or unit |

## Left out

- Shader file contents: raster shaders are referenced by path only. The text of `blur.comp.wgsl` is a parameter of the blur factory, because its content is not part of this model.
- The `Effect` constructor (compilation, pipeline creation, pipelines per macro combination): `../core/Effect` is not part of this model, so an effect is represented by its construction options.
- `textures.white` and `textures.cubeWhite` are the names `White` and `CubeWhite`: the textures module is not part of this model.
- Float32 precision: defaults are `real`s. `mat4.identity(new Float32Array(n))` keeps the first `n` of the sixteen identity entries, since typed-array writes past the end are dropped.
- `renderEnv.width`/`height`: a parameter of `Init` for the `u_screenSize` default. Render-target sizes are not modelled.
- The model treats radii and kernel sizes as exact integers. It leaves out the `RangeError` that `new Float32Array(kernelSize)` throws once the kernel is too large to allocate. It also leaves out the larger radii where JavaScript numbers are inexact: there `Math.pow` rounds the tap count, so the computed kernel size can differ, and `String(radius)` uses exponent notation from 1e21 on.
- `Math.pow` on floats: the radius is a `nat`; non-integer and negative radii are not modelled. `kernelSize / 4` is float division in the source; integer division is the same value here because the kernel size is a multiple of 4 (`KernelSizeIsPaddedTapCount`).
- The kernel-size rounding follows the code, which always adds `4 - mod`, not "round up to a multiple of 4": an already-aligned tap count would get 4 more. The two agree because the tap count is always 1 modulo 4.
- Asynchronous glTF loading is modelled as a `GltfResource` parameter of `Init`.
- `RayTracingApp.App.Update` assumes updates start only after `init` has resolved. The case where `update` runs while `init` awaits the load is not modelled. In that case the first frame would create the manager, and `process` the cull of the default camera, with `_lights` still undefined.
- Three other calls are not modelled: `NodeControl` camera control, the scene-graph `addChild` calls and `Scene`'s own state.
- `Math.random` is modelled as a four-value `Seed` parameter per frame.
- The camera's `fov` (`Math.PI / 3`, a float) is not modelled. Clear color, near, far and the position set in `init` are.
- `Camera` is a value that stands for the camera object. `NodeControl` moves that object between frames, and its position after `init` is not tracked. So the position carried by later frames' events is the one from `init`, not the object's current one.
- `cullCamera` results and the ray-tracing manager's internals (culling, BVH build, rendering, dispatch) appear only as events. The event `Process(camera, output)` records that the culled items came from that camera.
- `_showBVH` and `_showGBufferResult` are commented out at their call sites and never run, so they are not modelled.
- The G-buffer debug material's effect (`iRTGShow`) is not defined in the built-in effects file, and the compute unit's effect is internal to the manager. So the slot names used in channel bindings are not checked against a schema. Only the channel names are checked against the target.
- Whether `rtUnit`'s effect declares `u_randomSeed` with four floats is not asserted; the protocol only requires that the app sets four.
- The frame protocol (`Step`) is a reference definition of the ordering rules. The scene does not enforce it in the model; the lemmas show that the app never breaks it.
- GPU synchronization between passes and asynchronous submission are represented only by the order of events.
