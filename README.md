# Auto-linear tone map and light-tracing engine lifecycle

This project models two parts of the renderer.

**The auto-linear tone map** (`AutoLinearToneMap`) is an image-pipeline plugin. On the host it:
- computes the mean luminance `Y` of the tone-mapped RGB channel over the masked pixels, counting only finite, positive luminances but dividing by every pixel;
- derives the factor `1.25 / Y * (118/255)^gamma`, where gamma comes from the pipeline's gamma-correction plugin (default 2.2);
- multiplies every masked pixel by that factor in place.

On the device it allocates an accumulation buffer once, compiles the three kernels once, and binds their arguments. On every call it enqueues the reduce, accumulate and apply kernels with their global and local sizes.

**The light-tracing CPU engine** (`LightCPURenderEngine`):
- refuses a stereo camera when it is constructed;
- on start, checks the sampler, reads its settings from the configuration (maximum depth, Russian-roulette depth and cap, and the clamping value, with its legacy fallback and floor at 0), and resumes from a previous render state. Resuming means checking the state's tag, continuing with the previous seed plus 1, keeping the film and consuming the state. Start also creates a new sample splatter;
- on stop, releases the splatter;
- hands out a render state that carries its seed;
- serialises its settings with `ToProperties`.

Modules:
- `Wrappers`: `Option`, `Result` and `Outcome`.
- `UInt32`: `u_int` arithmetic with its wrap-around modulo 2^32, and `RoundUp`.
- `AutoLinear`: the tone map as functions on pixel sequences, and the lemmas about them.
- `AutoLinearPlugin`: the plugin, the film and the device as classes.
  - `Apply` works in place on the film's pixel array.
  - `ApplyOCL` records allocations, compiled programs and kernel launches on a `Device` object.
- `LightCpu`: configuration properties, settings resolution, seeds and render states, and the engine class.

Luminance (`Spectrum::Y`) and `powf` are parameters of the model, and reals stand for floats. The tone-map lemmas that relate the mean before and after scaling assume a luminance that is homogeneous: scaling a colour by `s > 0` scales its luminance by `s`.

## Model

| member | source | states |
|---|---|---|
| UInt32.Mul | src/slg/film/imagepipeline/plugins/tonemaps/autolinear.cpp:85 | `width * height` in `u_int`: never above the exact product, and equal to it when that fits in 32 bits |
| UInt32.Add | src/slg/engines/lightcpu/lightcpu.cpp:86 | `a + b` in `u_int`: the exact sum when it fits in 32 bits, otherwise the sum less 2^32 |
| UInt32.RoundUp | src/slg/film/imagepipeline/plugins/tonemaps/autolinear.cpp:125 | `RoundUp(a, b)` in `u_int`: without wrap-around, a multiple of `b` in `[a, a + b)`, i.e. the least multiple of `b` that is at least `a` |
| UInt32.RoundUpWrapsNearLimit | src/slg/film/imagepipeline/plugins/tonemaps/autolinear.cpp:184 | at 2^32 - 1, rounding up to 256 wraps to 0 in `u_int` |
| AutoLinear.FirstGammaCorrection | src/slg/film/imagepipeline/plugins/tonemaps/autolinear.cpp:62 | the lookup by type finds nothing iff the pipeline has no gamma-correction plugin, and otherwise finds the first one |
| AutoLinear.GammaCorrectionValue | src/slg/film/imagepipeline/plugins/tonemaps/autolinear.cpp:58-68 | gamma is 2.2 without a pipeline or without a gamma-correction plugin, and otherwise that of the first such plugin |
| AutoLinear.LinearToneMapScale | src/slg/film/imagepipeline/plugins/tonemaps/autolinear.cpp:70-77 | the factor is positive and brings the mean `Y` exactly to `1.25 * (118/255)^gamma` |
| AutoLinear.LuminanceSumZeroIffNoneCounted | src/slg/film/imagepipeline/plugins/tonemaps/autolinear.cpp:87-96 | the contract of `LuminanceSum`, the sum of lines 87-96: it sums masked, finite, positive luminances, is never negative, and is 0 iff no pixel qualifies |
| AutoLinear.LuminanceSumAtPixel | src/slg/film/imagepipeline/plugins/tonemaps/autolinear.cpp:88-95 | each pixel adds its luminance exactly when it is masked, finite and positive, independently of the others |
| AutoLinear.LuminanceSumPrefix | src/slg/film/imagepipeline/plugins/tonemaps/autolinear.cpp:88-95 | the sum over the first `n` pixels depends only on the first `n` mask entries |
| AutoLinear.CountedPixelsBound | src/slg/film/imagepipeline/plugins/tonemaps/autolinear.cpp:88-96 | at most `n` pixels are counted |
| AutoLinear.MeanLuminance | src/slg/film/imagepipeline/plugins/tonemaps/autolinear.cpp:97 | the mean `Y` over all pixels is never negative |
| AutoLinear.MeanDividesByAllPixels | src/slg/film/imagepipeline/plugins/tonemaps/autolinear.cpp:97 | `Y` is the sum divided by all pixels, so it falls strictly below the mean of the counted pixels whenever one is skipped |
| AutoLinear.DarkImageUnchanged | src/slg/film/imagepipeline/plugins/tonemaps/autolinear.cpp:97-100 | with no counted pixel, `Y <= 0` and the pixels are left unchanged |
| AutoLinear.ToneMapped | src/slg/film/imagepipeline/plugins/tonemaps/autolinear.cpp:83-116 | what the host path leaves behind: same length, and every pixel that is unmasked or beyond the pixel count is untouched |
| AutoLinear.ToneMappedScalesMaskedPixels | src/slg/film/imagepipeline/plugins/tonemaps/autolinear.cpp:99-115 | unmasked pixels and those beyond the pixel count are unchanged, and all masked pixels are scaled by one common positive factor |
| AutoLinear.LuminanceSumScales | src/slg/film/imagepipeline/plugins/tonemaps/autolinear.cpp:88-96 | with a homogeneous luminance, scaling the masked pixels by `s > 0` scales the luminance sum by `s` |
| AutoLinear.MeanScales | src/slg/film/imagepipeline/plugins/tonemaps/autolinear.cpp:87-97 | with a homogeneous luminance, scaling the masked pixels by `s > 0` scales `Y` by `s` |
| AutoLinear.ToneMapReachesTarget | src/slg/film/imagepipeline/plugins/tonemaps/autolinear.cpp:83-116 | after the host path, the mean luminance is exactly `1.25 * (118/255)^gamma` |
| AutoLinear.ToneMapIdempotent | src/slg/film/imagepipeline/plugins/tonemaps/autolinear.cpp:83-116 | in exact arithmetic, a second application changes nothing |
| AutoLinear.WorkSize | src/slg/film/imagepipeline/plugins/tonemaps/autolinear.cpp:125 | without wrap-around, the reduce range covers every pixel at two per work-item and is a multiple of 32 |
| AutoLinear.AccumSlots | src/slg/film/imagepipeline/plugins/tonemaps/autolinear.cpp:131 | the accumulation buffer holds one RGB triple per whole reduce work-group: `workSize / 64`, rounded down |
| AutoLinear.ApplyRange | src/slg/film/imagepipeline/plugins/tonemaps/autolinear.cpp:183-184 | without wrap-around, the apply range is a multiple of 256 and covers every pixel with fewer than 256 extra work-items |
| AutoLinear.AccumBufferShortOfGroups | src/slg/film/imagepipeline/plugins/tonemaps/autolinear.cpp:125-131 | when `RoundUp(n, 64) / 64` is odd, the reduce range ends in half a work-group that has no slot in the accumulation buffer |
| AutoLinear.SmallImageHasNoAccumSlot | src/slg/film/imagepipeline/plugins/tonemaps/autolinear.cpp:125-131 | for 64 pixels, `workSize` is 32 and the accumulation buffer is empty |
| AutoLinearPlugin.Film.PixelCount | src/slg/film/imagepipeline/plugins/tonemaps/autolinear.cpp:85 | the `u_int` pixel count never exceeds the channel length, and equals `width * height` without overflow |
| AutoLinearPlugin.AutoLinearToneMap.constructor | src/slg/film/imagepipeline/plugins/tonemaps/autolinear.cpp:37-46 | no device, no buffer, no kernels |
| AutoLinearPlugin.AutoLinearToneMap.Apply | src/slg/film/imagepipeline/plugins/tonemaps/autolinear.cpp:83-116 | the channel afterwards is `ToneMapped` of its old contents: sum, divide, early return on `Y <= 0`, scale the masked pixels |
| AutoLinearPlugin.AutoLinearToneMap.ApplyOCL | src/slg/film/imagepipeline/plugins/tonemaps/autolinear.cpp:123-185 | on the first call it allocates one buffer, compiles one program and builds the three kernels with their argument lists, and later calls add nothing; every call enqueues reduce, accumulate and apply with their sizes, in that order |
| AutoLinearPlugin.ApplyOCLTwice | src/slg/film/imagepipeline/plugins/tonemaps/autolinear.cpp:127-176 | two calls allocate and compile once and enqueue six launches |
| LightCpu.CheckCamera | src/slg/engines/lightcpu/lightcpu.cpp:31-32 | the engine refuses a camera exactly when it is stereo |
| LightCpu.LightCpuEngine.New | src/slg/engines/lightcpu/lightcpu.cpp:29-33 | construction fails iff the camera is stereo; otherwise the engine has no splatter and no state to resume |
| LightCpu.GetInt | src/slg/engines/lightcpu/lightcpu.cpp:64-65 | an integer property reads as its value, and anything else is a type error naming the property |
| LightCpu.GetFloat | src/slg/engines/lightcpu/lightcpu.cpp:66-72 | a numeric property reads as a real, and a string is a type error naming the property |
| LightCpu.ResolveSettings | src/slg/engines/lightcpu/lightcpu.cpp:64-73 | reading the settings fails only with a type error on one of the five setting keys, and a resolved clamp is never negative |
| LightCpu.DefaultProps | src/slg/engines/lightcpu/lightcpu.cpp:129-139 | the engine's own defaults define the engine type, the two depths, the cap and the variance clamp |
| LightCpu.ResolvedSettings | src/slg/engines/lightcpu/lightcpu.cpp:64-73 | start fails exactly on a mistyped setting; otherwise each setting is the configured value or its default, and the clamp is the variance value, else the legacy value, else 0, floored at 0 |
| LightCpu.DefaultSettings | src/slg/engines/lightcpu/lightcpu.cpp:129-139 | without overrides: depth 5, roulette depth 3, cap 0.5, clamp 0 |
| LightCpu.VarianceClampPrecedence | src/slg/engines/lightcpu/lightcpu.cpp:70-73 | the variance clamp wins over the legacy one, and the clamp is never negative |
| LightCpu.ToProperties | src/slg/engines/lightcpu/lightcpu.cpp:116-123 | the engine's own keys are the type and the three light-path settings, each configured or defaulted; neither clamp key is among them |
| LightCpu.ToPropertiesRoundTrip | src/slg/engines/lightcpu/lightcpu.cpp:116-123 | starting from the engine's own serialised keys gives the same depths and cap, but the clamp falls back to 0 |
| LightCpu.NextSeed | src/slg/engines/lightcpu/lightcpu.cpp:86 | the resumed seed differs from the old one and is the old one plus 1 modulo 2^32 |
| LightCpu.NextSeedIsFresh | src/slg/engines/lightcpu/lightcpu.cpp:86 | the resumed seed is the old one plus 1 in `u_int`: always different from it, injective, wrapping to 0 at the top |
| LightCpu.CastReadsWrongField | src/slg/engines/lightcpu/lightcpu.cpp:83-86 | reading the seed through the engine-class cast takes a word other than the render state's seed |
| LightCpu.LightCpuEngine.GetRenderState | src/slg/engines/lightcpu/lightcpu.cpp:47-49 | the render state carries the engine's tag and its current seed |
| LightCpu.LightCpuEngine.SetRenderState | src/slg/engines/lightcpu/lightcpu.cpp:79-81 | the state handed to the engine is the pending one that the next start checks and consumes |
| LightCpu.LightCpuEngine.StartLockLess | src/slg/engines/lightcpu/lightcpu.cpp:51-103 | it succeeds iff the sampler is accepted, the settings resolve and any render state has the right tag. On failure, the seed, the pending render state, `hasStartFilm` and the splatter are unchanged; once the settings resolve they are the resolved ones, even when the tag check then fails. On success, with a state, the seed is its seed plus 1, the film is kept and the state is consumed; without one, the seed stays and the film is not kept; and there is a new splatter on the engine's pixel filter |
| LightCpu.LightCpuEngine.StopLockLess | src/slg/engines/lightcpu/lightcpu.cpp:105-110 | the splatter is released |
| LightCpu.Resume | src/slg/engines/lightcpu/lightcpu.cpp:79-93 | a new engine started from another engine's render state continues with that engine's seed plus 1 and keeps the film |

## Left out

- Floating point: reals stand for `float`. There is no rounding, NaN or overflow to infinity, so `ToneMapIdempotent` holds exactly here but only approximately in `float`. An infinite luminance is a separate value that the sum skips, as `isinf` does.
- AutoLinearPlugin.AutoLinearToneMap.Apply: with a pixel count of 0 the source divides 0 by 0 and then scales nothing. The model returns before the division, so the pixels are unchanged either way.
- The OpenMP parallel loop is modelled as a sequential loop. Each iteration touches its own pixel, so the result is the same.
- The kernel bodies (the device-side sum and scale) are not visible and are not modelled. `ApplyOCL` models only buffers, programs, arguments and launch sizes.
- `RoundUp` and `ImagePipeline::GetPlugin` are not part of this model. `RoundUp` is taken as the next multiple, wrapped to `u_int`. `GetPlugin` is taken as the first plugin of the requested type.
- The verbose switch on the OpenCL context, wall-clock timing and logging are left out. They do not affect state.
- AutoLinearPlugin.AutoLinearToneMap.ApplyOCL: gamma is bound to the apply kernel on the first call only, as in the source. No invalidation on a pipeline change is modelled, because the code has none.
- Property values are integers, reals or strings:
  - `Get<int>` accepts only integers;
  - `Get<float>` accepts integers and reals;
  - every other conversion, such as parsing a number from a string, is a type error.
- `CheckSamplersForNoTile` is a boolean parameter of `StartLockLess`, because the sampler registry is not part of this model.
- The base engine classes are not part of this model:
  - their `StartLockLess`/`StopLockLess`, which start and stop the render threads;
  - `InitFilm`;
  - `SetRenderState`, given as a plain setter;
  - the base constructor's seed, given as a parameter.
- LightCpu.ToProperties: only the engine's own keys are modelled. The keys added by the base engine's and the sampler's `ToProperties` are left out.
- LightCpu.LightCpuEngine.StartLockLess: when a later setting is mistyped, the source has already assigned the earlier settings before it throws. The model throws before assigning any setting, and says nothing about the settings after that kind of failure.
- LightCpu.DefaultProps: the table the source builds also merges the base engine's defaults (`CPUNoTileRenderEngine::GetDefaultProps`), which are not part of this model; only the engine's own five keys are modelled.
- LightCpu.ToPropertiesRoundTrip: it covers the engine's own keys only. Whether the base engine's or the sampler's `ToProperties` carry a clamp key is not part of this model, so the model does not show whether a full round trip loses the clamp.
- AutoLinearPlugin.AutoLinearToneMap.ApplyOCL: device allocation and program compilation never fail here. In the source either can throw; a compile failure leaves the device and the buffer set but no kernels, and the next call runs the whole first-call setup again. That half-initialised state and the error it reports are not modelled.
- The destructors are left out. Dafny's memory is garbage-collected.

The `workSize` lemmas (`AccumBufferShortOfGroups`, `SmallImageHasNoAccumSlot`) record a sizing fact: `RoundUp(n, 64) / 2` is a multiple of 32, not of 64, so the reduce range can end in half a work-group without an accumulation slot. Whether that loses partial sums depends on the kernel sources, which are not part of this model. So it is stated as a property, not as a finding.

## Findings

| source | as written | input that shows it | evidently intended | confidence | as-written member | corrected member |
|---|---|---|---|---|---|---|
| src/slg/engines/lightcpu/lightcpu.cpp:83-86 | the render state is cast to `LightCPURenderEngine *`, and the new seed is read from that class's `bootStrapSeed` field | any render state whose seed lies at a different offset from the engine's `bootStrapSeed` field (an unrelated class layout) | read `bootStrapSeed` from the `LightCPURenderState` and continue with that seed plus 1 | high, not executed | LightCpu.NewSeedAsWritten | LightCpu.NextSeed |
