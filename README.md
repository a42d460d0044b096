# Tone mapping with eye adaptation: a verified model of the core

This project models the two pieces of sequential logic in a Direct3D 11 HDR renderer.

**RenderWindow** measures the scene's average brightness, adapts to it over time and tone-maps the frame.

- `CalculateMinPower2` chooses a luminance texture of `2^L x 2^L` with `L + 1` mips. Here `L = ceil(log2 m) - 1` and `m` is the shorter screen side.
- `Init` creates a staging texture, the mip texture and a rasterizer and a sampler state. It then creates one shader resource view and one render target view per mip, in halving loops, followed by three shader programs.
- `CalculateAverageBrightness` runs in three steps:
  - a seed pass writes the scene's log-luminance into mip 0;
  - `L` downsample passes each write mip `k + 1` from mip `k`;
  - the 1x1 mip is copied to the staging texture, read back and decoded as `exp(v) - 1`.
- `EyeAdaptation` and `Update` move the adapted brightness toward the measurement by the fraction `1 - exp(-time / speed)`. They then upload the exposure `key(adapted) / average`.
- `ToneMap` chains the measurement and the update, then issues the tone-map draw.

**Renderer** holds the camera, light and timing state:

- the mouse and keyboard handlers, with their latitude and distance clamps;
- the frame-time bookkeeping at the start of `Update`, on a wrapping 64-bit microsecond clock;
- the size gate of `Resize`.

How the model represents the environment:

- **Device creation.** Each device creation call is answered by a `Device` value. It says which calls succeed: one answer per mip for the view calls, one per program for the shaders. This makes every error path of `Init` expressible. One answer is not left to the device: Direct3D 11 refuses a texture whose width or height is 0 (`E_INVALIDARG`), so on a shorter screen side of 1 the `0 x 0` mip texture of RenderWindow.cpp:87-89 is never created (`TextureCreated`).
- **Context calls.** Every call on the device context is appended to an `issued` command list.
- **Maths library.** `exp`, `log` and the key curve are left abstract, as fields of `Libm`. The facts the proofs need about `exp` are preconditions (`ExpBounded`, `ExpAdditive`, `ExpInvertsLog`).
- **Numbers.** Floats are reals. `size_t` is a 64-bit unsigned integer whose subtraction wraps.

Modules:

- `PowersOfTwo`: powers of two, `ceil(log2 m)` and the mip sides.
- `Direct3D`: the device answers, the commands and the abstract maths functions.
- `Reduction`: specifies the commands the reduction issues. It also has a small interpreter of those commands for a scene of uniform luminance.
- `Adaptation`: the adaptation filter.
- `ToneMapping`: the `RenderWindow` class.
- `Camera`: the `Renderer` class.

Two facts about the code that a reader might expect otherwise:

- **Chain size.** The code computes `ceil(log2 min) - 1` (RenderWindow.cpp:413), not `floor(log2 min) - 1`. The two differ whenever `min` is not a power of two: for 1080 the code gives 10 and base 1024, where `floor` would give 9. The model uses the code's formula.
- **Init failures are not fatal.** `Init` returns false only when the staging texture or the mip texture fails (RenderWindow.cpp:69-73, 98-102), and `return true` otherwise (RenderWindow.cpp:232). The mip texture fails on every device when the shorter side is 1, because its side `2^L` is then 0. The model states this in `Init`'s contract; see also "## Findings".

## Model

| member | source | states |
|---|---|---|
| PowersOfTwo.CeilLog2 | RenderWindow.cpp:413 | `ceil(log2 m)` is the least `c` with `m <= 2^c`: `m <= 2^c`, and `2^(c-1) < m` when `c > 0` |
| PowersOfTwo.CeilLog2Unique | RenderWindow.cpp:413 | no other exponent meets those two bounds, so `ceil(log2 m)` is determined by them |
| PowersOfTwo.MinPower2Bracket | RenderWindow.cpp:410-415 | for `m >= 2`, `L = ceil(log2 m) - 1` if and only if `2^L < m <= 2^(L+1)` (both directions) |
| PowersOfTwo.MinPower2Examples | RenderWindow.cpp:410-415 | a shorter side of 1080 gives `L = 10` and base 1024; 512 gives `L = 8` and base 256 |
| PowersOfTwo.LevelSizeHalves | RenderWindow.cpp:151 | the `textureSize >>= 1` step takes the side of mip `k` to the side of mip `k + 1`, and past the last mip to 0 |
| PowersOfTwo.LevelSizePositive | RenderWindow.cpp:151 | a halved side is nonzero exactly while the mip exists (`0 <= k <= L`), so the halving loops make `L + 1` trips |
| PowersOfTwo.LevelSizeIsQuotient | RenderWindow.cpp:325-331 | the side of mip `k` is the base shifted right `k` times, `2^L / 2^k` |
| Direct3D.CreatedCount | RenderWindow.cpp:151-164 | a loop that stops at the first failed creation keeps a prefix: every mip below the count was created, and the mip at the count failed unless all `n` were |
| Reduction.PassAt | RenderWindow.cpp:324-341 | downsample pass `k` binds render target view `k + 1`, has a viewport and scissor of side `2^L / 2^(k+1) >= 1`, and reads shader resource view `k` |
| Reduction.PassesOnCompleteChain | RenderWindow.cpp:324-343 | on the chain `Init` builds, there are exactly `L` passes. Pass `k` writes mip `k + 1` from mip `k`, and each pass reads the mip the previous one wrote. Every mip index lies in `[0, L]`, and the last pass writes the 1x1 mip `L` that is then copied |
| Reduction.PassesDrawOnce | RenderWindow.cpp:340 | each downsample pass issues exactly one draw |
| Reduction.AverageBrightnessDraws | RenderWindow.cpp:319-340 | one measurement draws `L + 1` quads: the seed pass plus one per downsample pass |
| Reduction.RunSeedTarget | RenderWindow.cpp:288-307 | the seed pass's first four commands reset all bindings and target the first mip view, and leave the mips unchanged |
| Reduction.RunSeedSources | RenderWindow.cpp:308-317 | its next four bind the average-brightness shaders and the scene as source, and change nothing else |
| Reduction.RunSeed | RenderWindow.cpp:288-322 | the seed commands leave the scene's encoding in mip 0 and the downsample shaders bound |
| Reduction.RunPass | RenderWindow.cpp:327-340 | a downsample pass carries a uniform mip `k`'s value into mip `k + 1` |
| Reduction.RunPasses | RenderWindow.cpp:324-341 | after the first `k` passes, mip `k` holds the seed value |
| Reduction.UniformSceneReachesStaging | RenderWindow.cpp:284-343 | for a uniform scene, from any earlier pipeline state and for every base `2^L`, the staging texel is exactly the seed encoding |
| Reduction.UniformLuminanceRoundTrip | RenderWindow.cpp:284-352 | for a uniform luminance `lum >= 0`, decoding the staging texel gives back `lum`: `exp(log(lum + 1)) - 1 = lum`, whatever the number of passes |
| Adaptation.FactorInUnitInterval | RenderWindow.cpp:419 | for `time >= 0` and `speed > 0` the blend factor `1 - exp(-time/speed)` lies in `[0, 1)`, and is 0 when `time = 0` |
| Adaptation.AdaptedUnchanged | RenderWindow.cpp:419 | a frame of no time, or a measurement equal to the adapted value, leaves the adapted value unchanged |
| Adaptation.AdaptedBetween | RenderWindow.cpp:419 | with a factor in `[0, 1]` the new value lies between the old value and the target, and the remaining gap is the old gap times `1 - factor` |
| Adaptation.AdaptationStepBetween | RenderWindow.cpp:417-420 | for `time >= 0` and `speed > 0` one adaptation step lands between the old adapted value and the measurement |
| Adaptation.AdaptationComposes | RenderWindow.cpp:417-420 | toward a fixed measurement, frames of `t1` and `t2` seconds reach the same value as one frame of `t1 + t2`, so the filter does not depend on the frame rate |
| ToneMapping.RenderWindow.constructor | RenderWindow.cpp:16-38 | adapted brightness starts at 1, `L` and the base at 0, with no resources and no views |
| ToneMapping.RenderWindow.CalculateMinPower2 | RenderWindow.cpp:410-415 | `L = ceil(log2 min(a, b)) - 1`. The base is `2^L`, and `2^L < m <= 2 * base` when `m >= 2`. A shorter side of 1 gives `L = -1` and base 0 |
| ToneMapping.RenderWindow.CreateShaderResourceViews | RenderWindow.cpp:143-165 | appends views for mips `0, 1, ...` up to the first failure, so view `k` addresses mip `k`. It reports success exactly when all `L + 1` were created |
| ToneMapping.RenderWindow.CreateRenderTargetViews | RenderWindow.cpp:167-188 | the same for the render target views |
| ToneMapping.RenderWindow.CreateProgram | RenderWindow.cpp:194-204 | the vertex shader exists exactly when its creation succeeds. The pixel shader is attempted only after a vertex shader, and otherwise keeps its old value. No other program changes |
| ToneMapping.RenderWindow.CreateStatesAndViews | RenderWindow.cpp:110-188 | the sampler is tried only after the rasterizer succeeds. The views are tried only after both succeed. The render target loop runs only after a complete shader resource loop. `succeeded` reports whether every one of these calls succeeded |
| ToneMapping.RenderWindow.CreatePrograms | RenderWindow.cpp:190-230 | all three programs are attempted whatever became of the others. The result says whether all three pairs exist |
| ToneMapping.RenderWindow.Init | RenderWindow.cpp:40-233 | returns false if and only if the staging texture or the mip texture fails, and the mip texture fails whenever the shorter side is 1 (its side would be 0). The mip texture is `2^L x 2^L` with `L + 1` levels. The contract also gives the exact view prefixes, states and shaders after each failure; the adapted brightness, the exposure and the command list are untouched |
| ToneMapping.RenderWindow.InitChecked | RenderWindow.cpp:40-233 | `Init` returning its collected `result`. Success holds if and only if every creation call succeeded, except the exposure buffer, whose `hr` the source never checks. A shorter side of 1 is a failure, as the mip texture cannot be created. Success implies `L >= 0` and the complete chain (`L + 1` views each, view `k` on mip `k`), so the reduction may run. The final shader sets follow the device's shader answers, so a refused shader is reported. After a failure the contract gives the same textures, states, view prefixes and shader sets as `Init`'s. A device that grants everything gives success exactly when the shorter side is at least 2 |
| ToneMapping.RenderWindow.CalculateAverageBrightness | RenderWindow.cpp:284-353 | issues exactly the seed pass, the `L` downsample passes of `Reduction.Passes` and the copy of subresource `L`. It returns 0 when `Map` fails and otherwise `exp(v) - 1` of the texel read |
| ToneMapping.RenderWindow.EyeAdaptation | RenderWindow.cpp:417-420 | the new adapted brightness is `old + (measured - old) * (1 - exp(-time/speed))` |
| ToneMapping.RenderWindow.Update | RenderWindow.cpp:400-408 | adapts first, then uploads the exposure `(key(adapted') / avg, 0, 0, 0)`, computed from the new adapted value |
| ToneMapping.RenderWindow.ToneMap | RenderWindow.cpp:355-398 | measures, then feeds the measurement into `Update`, then issues the tone-map pass into the display target at the given size. The command list is exactly those three in that order |
| ToneMapping.OpenWindow | Renderer.cpp:192-193 | a fresh window set up at any screen size through `InitChecked`. A device that grants everything gives success exactly when the shorter side is at least 2. Success leaves `L >= 0` and the complete chain (view `k` on mip `k`), with no commands issued yet |
| ToneMapping.FirstMeasurement | Renderer.cpp:192-193 | a fresh window is initialised at any screen size and measures once. When `InitChecked` succeeds, the commands are the reduction over the complete chain (`L >= 0`) and the result is the decoded readback; otherwise nothing is issued. A device that grants everything succeeds exactly when the shorter side is at least 2 |
| ToneMapping.InitIgnoresSamplerFailure | RenderWindow.cpp:128-232 | a device that refuses only the sampler state: `Init` still returns true, yet no render target view exists, so the reduction's first view index would be out of range |
| ToneMapping.InitCheckedReportsShaderFailure | RenderWindow.cpp:194-204 | a device that refuses only the average-brightness vertex shader makes `InitChecked` report failure, as `result = E_FAIL` at line 203 intends |
| Camera.ElapsedSeconds | Renderer.cpp:256 | `(now - prev) / 10^6` on `size_t`: the plain difference on a forward clock, the difference plus `2^64` when the clock wrapped, never negative |
| Camera.ElapsedAddsUp | Renderer.cpp:256 | on a clock that never runs backwards, consecutive frame times add up to the total elapsed time |
| Camera.Renderer.constructor | Renderer.cpp:52-87 | distance 10, light power 1, and zero size, clock, angles and position |
| Camera.Renderer.MouseMove | Renderer.cpp:300-313 | adds `dx / width * 5` to the longitude and `dy / height * 5` to the latitude. The latitude is then clamped to `[-pi/2, pi/2]`, with `pi/2` as a float holds it |
| Camera.Renderer.MouseWheel | Renderer.cpp:315-322 | adds `dz / 100` to the distance, and a result below 1 becomes exactly 0; afterwards the distance is 0 or at least 1 |
| Camera.Renderer.KeyArrowPress | Renderer.cpp:324-328 | adds `deltaX` to the sideways position and subtracts `deltaY` from the distance, with no clamp. Nothing else changes |
| Camera.Renderer.SwitchLightMode | Renderer.cpp:330-333 | sets the light power to the argument and changes nothing else |
| Camera.Renderer.Update | Renderer.cpp:247-257 | the first call (clock still 0) starts the clock, so its frame lasts 0 seconds. Every call measures from the previous reading and records the new one |
| Camera.Renderer.Resize | Renderer.cpp:227-245 | an unchanged size changes nothing. A new size drops the back buffer and takes the new size only if `ResizeBuffers` succeeds. The back buffer is ready again only if `SetupBackBuffer` also succeeds |

## Left out

- Direct3D device and context calls are not executed. Creation outcomes are the `Device` answers, and context calls are recorded as `Command` values. Resource handles, descriptors other than the mip texture's size, and reference counts are not modelled. The `Map`/`Unmap` readback is a parameter (`readback`, `None` when `Map` fails).
- The per-pixel HLSL arithmetic (`ABShader.hlsl`, `DSShader.hlsl`, `U2Shader.hlsl`) is not part of this model. Mip contents are modelled only for a scene of uniform luminance, where a downsample keeps the value.
- `exp`, `log`, `log10` and the key curve `1.03 - 2 / (2 + log10(10 a + 1))` are abstract functions. Float rounding, NaN and infinity are not modelled; floats are reals.
- The limit of the adapted brightness as time grows is not stated. `AdaptedBetween` gives the geometric shrinking of the gap, and `AdaptationComposes` gives independence from the frame rate.
- CalculateMinPower2: requires both sides to be at least 1, because `log2(0)` is minus infinity and its cast to `int` is undefined.
- CalculateAverageBrightness: requires `L >= 0` and enough views (`ReductionReady`). Otherwise the source indexes an empty or short vector.
- EyeAdaptation: requires a nonzero speed (the source divides by it).
- Update: requires a nonzero speed and a nonzero average brightness. The source divides by both; with floats it would produce infinity or NaN.
- ToneMap: requires the same, including that the decoded readback is nonzero. A failed `Map` returns 0, and dividing by it gives a float infinity that this model does not represent.
- MouseMove: requires a nonzero window size. With a zero size the float division gives infinity or NaN.
- ElapsedSeconds: divides exactly; the rounding of the `size_t` difference to `float` is not modelled.
- `RenderWindow::Term`, `SetRenderTarget`, `ClearRenderTarget` and `GetShaderResourceView` only release or bind handles, so they are not modelled. `m_renderTargetView` is never created, and `m_screenWidth`/`m_screenHeight` are never written.
- Two details of Init are not modelled. The exposure buffer's `HRESULT` (`hr`) is never checked; the model records only whether the buffer exists. The debug-build `assert`s on the shaders are left out; release behaviour is modelled.
- The rest of `Renderer::Update` (Renderer.cpp:259-295) is not modelled: it builds DirectXMath matrices and light records and uploads them. Only the timing lines are modelled, with the clock reading as a parameter.
- The other parts of `Renderer` are D3D device plumbing and are not modelled: `Init` (apart from its use of `RenderWindow::Init` in `OpenWindow`, through the corrected `InitChecked`), `SetupBackBuffer`, `CreateScene`, `DestroyScene`, `Render`, `RenderScene`, `RenderToTexture`, `RenderToBackBuffer` and `Term`. The outcomes of `ResizeBuffers` and `SetupBackBuffer` are parameters of `Resize`.
- `ShaderCompiler.cpp` and `main.cpp` are not part of this model. They hold file I/O, `D3DCompile`, and the Win32 window and message loop.
- Concurrency is not modelled: the source runs on one rendering thread.

## Findings

| source | as written | input that shows it | evidently intended | confidence | as-written member | corrected member |
|---|---|---|---|---|---|---|
| RenderWindow.cpp:201-232 | `Init` collects failures of the rasterizer, sampler, views and shaders in `result`, and even sets `result = E_FAIL` for a missing shader. It then returns `true` regardless. Renderer.cpp:193 also discards the return value. `CalculateAverageBrightness` then indexes `m_downSamplingRTVs[0]` of an empty vector | a screen of at least 2x2 and a device on which only `CreateSamplerState` fails: `Init` returns true with no views created | `Init` returns `SUCCEEDED(result)`, so success guarantees the complete view chain and all three programs | medium, not executed | ToneMapping.InitIgnoresSamplerFailure | ToneMapping.RenderWindow.InitChecked |
