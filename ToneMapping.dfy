/** RenderWindow: the luminance mip chain, the reduction that measures the
    scene's average brightness, the eye-adaptation state and the tone-map
    pass. Device creation calls are answered by a `Device`; the calls issued
    on the device context are appended to `issued`. */
module ToneMapping {
  import opened PowersOfTwo
  import opened Direct3D
  import opened Reduction
  import opened Adaptation

  class RenderWindow {
    /** L: the luminance texture is 2^L x 2^L with L + 1 mips. */
    var minPower2: int
    /** 2^L, the side of mip 0. */
    var minPower2Value: int
    /** The 1x1 CPU-readable staging texture exists. */
    var stagingTexture: bool
    /** The exposure constant buffer exists. */
    var exposureBuffer: bool
    /** The luminance mip texture, if created. */
    var mipTexture: Option<TextureDesc>
    var rasterizerState: bool
    var samplerState: bool
    /** The mip each shader resource view of the chain addresses, in creation order. */
    var downSamplingSRVs: seq<nat>
    /** The mip each render target view of the chain addresses, in creation order. */
    var downSamplingRTVs: seq<nat>
    /** The programs whose vertex shader, and whose pixel shader, exist. */
    var vertexShaders: set<Program>
    var pixelShaders: set<Program>
    /** The adapted brightness, carried from frame to frame. */
    var adpBrightness: real
    /** The exposure record last uploaded (a static buffer in the source). */
    var exposure: Float4
    /** Every call issued on the device context, in order. */
    var issued: seq<Command>

    constructor ()
      ensures minPower2 == 0 && minPower2Value == 0
      ensures !stagingTexture && !exposureBuffer && mipTexture == None
      ensures !rasterizerState && !samplerState
      ensures downSamplingSRVs == [] && downSamplingRTVs == []
      ensures vertexShaders == {} && pixelShaders == {}
      ensures adpBrightness == 1.0 && exposure == Float4(0.0, 0.0, 0.0, 0.0) && issued == []
    {
      minPower2, minPower2Value := 0, 0;
      stagingTexture, exposureBuffer, mipTexture := false, false, None;
      rasterizerState, samplerState := false, false;
      downSamplingSRVs, downSamplingRTVs := [], [];
      vertexShaders, pixelShaders := {}, {};
      adpBrightness := 1.0;
      exposure := Float4(0.0, 0.0, 0.0, 0.0);
      issued := [];
    }

    /** The chain's size fields agree: L >= 0 with a 2^L base, or L = -1 with
        a 0 base (a shorter screen side of 1). */
    ghost predicate Sized()
      reads this
    {
      minPower2 >= -1 && minPower2Value == MinPower2Value(minPower2)
    }

    /** The number of mips, L + 1. */
    function Levels(): nat
      reads this
      requires Sized()
    {
      minPower2 + 1
    }

    /** The reduction can index every view it uses: L >= 0 with a 2^L base,
        render target views 0 .. L and shader resource views 0 .. L - 1. */
    ghost predicate ReductionReady()
      reads this
    {
      && minPower2 >= 0 && minPower2Value == Pow2(minPower2)
      && |downSamplingRTVs| > minPower2 && |downSamplingSRVs| >= minPower2
    }

    /** Sizes the chain from the shorter screen side m: L = ceil(log2 m) - 1,
        so 2^L < m <= 2^(L+1) when m >= 2. */
    method CalculateMinPower2(a: int, b: int)
      requires a >= 1 && b >= 1
      modifies this`minPower2, this`minPower2Value
      ensures var m := if a < b then a else b;
        && minPower2 == MinPower2(m) && minPower2Value == MinPower2Value(minPower2)
        && (m >= 2 ==> 0 <= minPower2 && Pow2(minPower2) < m <= 2 * minPower2Value)
        && (m == 1 ==> minPower2 == -1 && minPower2Value == 0)
      ensures Sized()
    {
      var m := if a < b then a else b;
      minPower2 := CeilLog2(m) - 1;
      minPower2Value := if minPower2 >= 0 then Pow2(minPower2) else 0;
    }

    /** The shader resource view loop: one view per mip, for mips 0, 1, ...
        while the halved side stays positive, stopping at the first failure. */
    method CreateShaderResourceViews(device: Device) returns (ok: bool)
      requires Sized()
      modifies this`downSamplingSRVs
      ensures var n := CreatedCount(device.shaderResourceView, Levels());
        downSamplingSRVs == old(downSamplingSRVs) + MipRange(n) && (ok <==> n == Levels())
    {
      var i: nat := 0;
      var textureSize: nat := minPower2Value;
      ok := true;
      while textureSize > 0
        invariant i <= Levels()
        invariant textureSize == LevelSize(minPower2, i)
        invariant forall j :: 0 <= j < i ==> device.shaderResourceView(j)
        invariant downSamplingSRVs == old(downSamplingSRVs) + MipRange(i)
        decreases textureSize
      {
        if !device.shaderResourceView(i) {
          ok := false;
          break;
        }
        downSamplingSRVs := downSamplingSRVs + [i];
        LevelSizeHalves(minPower2, i);
        textureSize := textureSize / 2;
        i := i + 1;
      }
      LevelSizePositive(minPower2, i);
      CreatedCountUnique(device.shaderResourceView, Levels(), i);
    }

    /** The render target view loop, the same walk for the views the passes
        draw into. */
    method CreateRenderTargetViews(device: Device) returns (ok: bool)
      requires Sized()
      modifies this`downSamplingRTVs
      ensures var n := CreatedCount(device.renderTargetView, Levels());
        downSamplingRTVs == old(downSamplingRTVs) + MipRange(n) && (ok <==> n == Levels())
    {
      var i: nat := 0;
      var textureSize: nat := minPower2Value;
      ok := true;
      while textureSize > 0
        invariant i <= Levels()
        invariant textureSize == LevelSize(minPower2, i)
        invariant forall j :: 0 <= j < i ==> device.renderTargetView(j)
        invariant downSamplingRTVs == old(downSamplingRTVs) + MipRange(i)
        decreases textureSize
      {
        if !device.renderTargetView(i) {
          ok := false;
          break;
        }
        downSamplingRTVs := downSamplingRTVs + [i];
        LevelSizeHalves(minPower2, i);
        textureSize := textureSize / 2;
        i := i + 1;
      }
      LevelSizePositive(minPower2, i);
      CreatedCountUnique(device.renderTargetView, Levels(), i);
    }

    /** Compiles one program: its vertex shader, then its pixel shader only
        if the vertex shader was created. */
    method CreateProgram(device: Device, p: Program)
      modifies this`vertexShaders, this`pixelShaders
      ensures (p in vertexShaders) == device.vertexShader(p)
      ensures device.vertexShader(p) ==> (p in pixelShaders) == device.pixelShader(p)
      ensures !device.vertexShader(p) ==> pixelShaders == old(pixelShaders)
      ensures forall q :: q != p ==> (q in vertexShaders) == (q in old(vertexShaders))
      ensures forall q :: q != p ==> (q in pixelShaders) == (q in old(pixelShaders))
    {
      vertexShaders := if device.vertexShader(p) then vertexShaders + {p} else vertexShaders - {p};
      if device.vertexShader(p) {
        pixelShaders := if device.pixelShader(p) then pixelShaders + {p} else pixelShaders - {p};
      }
    }

    /** The rasterizer state, then the sampler if that succeeded, then the
        shader resource views if both did, then the render target views if
        the shader resource view loop ended without a failure. */
    method CreateStatesAndViews(device: Device) returns (succeeded: bool)
      requires Sized()
      modifies this`rasterizerState, this`samplerState, this`downSamplingSRVs, this`downSamplingRTVs
      ensures rasterizerState == device.rasterizerState
      ensures samplerState == (if device.rasterizerState then device.samplerState else old(samplerState))
      ensures var srvs := CreatedCount(device.shaderResourceView, Levels());
        var rtvs := CreatedCount(device.renderTargetView, Levels());
        var viewsTried := device.rasterizerState && device.samplerState;
        && downSamplingSRVs == old(downSamplingSRVs) + (if viewsTried then MipRange(srvs) else [])
        && downSamplingRTVs == old(downSamplingRTVs)
             + (if viewsTried && srvs == Levels() then MipRange(rtvs) else [])
      ensures succeeded <==> && device.rasterizerState && device.samplerState
                             && CreatedCount(device.shaderResourceView, Levels()) == Levels()
                             && CreatedCount(device.renderTargetView, Levels()) == Levels()
    {
      rasterizerState := device.rasterizerState;
      succeeded := device.rasterizerState;
      if succeeded {
        samplerState := device.samplerState;
        succeeded := device.samplerState;
      }
      if succeeded {
        succeeded := CreateShaderResourceViews(device);
      }
      if succeeded {
        succeeded := CreateRenderTargetViews(device);
      }
    }

    /** The three shader programs, each attempted whatever became of the
        others. */
    method CreatePrograms(device: Device) returns (compiled: bool)
      modifies this`vertexShaders, this`pixelShaders
      ensures forall p :: (p in vertexShaders) == device.vertexShader(p)
      ensures forall p :: device.vertexShader(p) ==> ((p in pixelShaders) == device.pixelShader(p))
      ensures forall p :: !device.vertexShader(p) ==> ((p in pixelShaders) == (p in old(pixelShaders)))
      ensures compiled <==> forall p :: p in vertexShaders && p in pixelShaders
    {
      CreateProgram(device, ABShader);
      CreateProgram(device, DSShader);
      CreateProgram(device, U2Shader);
      compiled := && ABShader in vertexShaders && ABShader in pixelShaders
                  && DSShader in vertexShaders && DSShader in pixelShaders
                  && U2Shader in vertexShaders && U2Shader in pixelShaders;
    }

    /** Builds everything the reduction and the tone map use. Only a failure
        to create the staging texture or the mip texture makes it return
        false; a failed rasterizer, sampler, view or shader is not reported.
        A shorter side of 1 gives a 0 x 0 mip texture, which Direct3D refuses. */
    method Init(device: Device, width: int, height: int) returns (ok: bool)
      requires width >= 1 && height >= 1
      modifies this
      ensures var m := if width < height then width else height;
        && minPower2 == MinPower2(m) && minPower2Value == MinPower2Value(minPower2)
        && (ok <==> device.stagingTexture && device.mipTexture && m >= 2)
      ensures Sized()
      ensures stagingTexture == device.stagingTexture
      ensures exposureBuffer == (if device.stagingTexture then device.exposureBuffer else old(exposureBuffer))
      ensures mipTexture == (if !device.stagingTexture then old(mipTexture)
                             else if device.mipTexture && minPower2 >= 0
                             then Some(TextureDesc(minPower2Value, minPower2Value, Levels()))
                             else None)
      // the views: a prefix of the chain per loop, the second loop only after a complete first
      ensures var srvs := CreatedCount(device.shaderResourceView, Levels());
        var rtvs := CreatedCount(device.renderTargetView, Levels());
        var viewsTried := ok && device.rasterizerState && device.samplerState;
        && downSamplingSRVs == old(downSamplingSRVs) + (if viewsTried then MipRange(srvs) else [])
        && downSamplingRTVs == old(downSamplingRTVs)
             + (if viewsTried && srvs == Levels() then MipRange(rtvs) else [])
      ensures ok ==>
        && rasterizerState == device.rasterizerState
        && samplerState == (if device.rasterizerState then device.samplerState else old(samplerState))
        && (forall p :: (p in vertexShaders) == device.vertexShader(p))
        && (forall p :: device.vertexShader(p) ==> ((p in pixelShaders) == device.pixelShader(p)))
        && (forall p :: !device.vertexShader(p) ==> ((p in pixelShaders) == (p in old(pixelShaders))))
      ensures !ok ==>
        && rasterizerState == old(rasterizerState) && samplerState == old(samplerState)
        && vertexShaders == old(vertexShaders) && pixelShaders == old(pixelShaders)
      ensures adpBrightness == old(adpBrightness) && exposure == old(exposure) && issued == old(issued)
    {
      CalculateMinPower2(width, height);

      stagingTexture := device.stagingTexture;
      if !device.stagingTexture {
        return false;
      }

      exposureBuffer := device.exposureBuffer;

      var desc := TextureDesc(minPower2Value, minPower2Value, minPower2 + 1);
      var created := TextureCreated(device.mipTexture, desc);
      mipTexture := if created then Some(desc) else None;
      if !created {
        return false;
      }

      var succeeded := CreateStatesAndViews(device);
      var compiled := CreatePrograms(device);
      return true;
    }

    /** Init as its failure handling evidently intends: it returns the
        collected `result`, so it reports a failure of every creation call
        except the exposure buffer's, whose `hr` the source never examines. A
        window whose Init succeeded always has the complete chain the
        reduction indexes, and all three programs. */
    method InitChecked(device: Device, width: int, height: int) returns (ok: bool)
      requires width >= 1 && height >= 1
      modifies this
      ensures var m := if width < height then width else height;
        && minPower2 == MinPower2(m) && minPower2Value == MinPower2Value(minPower2)
        && (GrantsEverything(device) ==> (ok <==> m >= 2))
      ensures Sized()
      ensures ok <==> && device.stagingTexture && device.mipTexture && minPower2 >= 0
                      && device.rasterizerState && device.samplerState
                      && CreatedCount(device.shaderResourceView, Levels()) == Levels()
                      && CreatedCount(device.renderTargetView, Levels()) == Levels()
                      && (forall p :: device.vertexShader(p) && device.pixelShader(p))
      ensures ok ==>
        && downSamplingSRVs == old(downSamplingSRVs) + MipRange(Levels())
        && downSamplingRTVs == old(downSamplingRTVs) + MipRange(Levels())
        && ReductionReady()
      // the state after a reported failure, as for Init
      ensures stagingTexture == device.stagingTexture
      ensures exposureBuffer == (if device.stagingTexture then device.exposureBuffer else old(exposureBuffer))
      ensures mipTexture == (if !device.stagingTexture then old(mipTexture)
                             else if device.mipTexture && minPower2 >= 0
                             then Some(TextureDesc(minPower2Value, minPower2Value, Levels()))
                             else None)
      ensures var built := device.stagingTexture && device.mipTexture && minPower2 >= 0;
        var srvs := CreatedCount(device.shaderResourceView, Levels());
        var rtvs := CreatedCount(device.renderTargetView, Levels());
        var viewsTried := built && device.rasterizerState && device.samplerState;
        && downSamplingSRVs == old(downSamplingSRVs) + (if viewsTried then MipRange(srvs) else [])
        && downSamplingRTVs == old(downSamplingRTVs)
             + (if viewsTried && srvs == Levels() then MipRange(rtvs) else [])
      ensures device.stagingTexture && device.mipTexture && minPower2 >= 0 ==>
        && rasterizerState == device.rasterizerState
        && samplerState == (if device.rasterizerState then device.samplerState else old(samplerState))
        && (forall p :: (p in vertexShaders) == device.vertexShader(p))
        && (forall p :: device.vertexShader(p) ==> ((p in pixelShaders) == device.pixelShader(p)))
        && (forall p :: !device.vertexShader(p) ==> ((p in pixelShaders) == (p in old(pixelShaders))))
      ensures !(device.stagingTexture && device.mipTexture && minPower2 >= 0) ==>
        && rasterizerState == old(rasterizerState) && samplerState == old(samplerState)
        && vertexShaders == old(vertexShaders) && pixelShaders == old(pixelShaders)
      ensures adpBrightness == old(adpBrightness) && exposure == old(exposure) && issued == old(issued)
    {
      CalculateMinPower2(width, height);

      stagingTexture := device.stagingTexture;
      if !device.stagingTexture {
        return false;
      }

      exposureBuffer := device.exposureBuffer;

      var desc := TextureDesc(minPower2Value, minPower2Value, minPower2 + 1);
      var created := TextureCreated(device.mipTexture, desc);
      mipTexture := if created then Some(desc) else None;
      if !created {
        return false;
      }

      var succeeded := CreateStatesAndViews(device);
      var compiled := CreatePrograms(device);
      return succeeded && compiled;
    }

    /** The reduction: the seed pass into mip view 0, then one pass per mip
        down to the 1x1 mip, then the copy of that mip into the staging
        texture, whose texel `readback` is what Map gave (None when it failed). */
    method CalculateAverageBrightness(libm: Libm, readback: Option<real>) returns (brightness: real)
      requires ReductionReady()
      modifies this`issued
      ensures issued == old(issued)
        + AverageBrightnessCommands(minPower2, downSamplingRTVs, downSamplingSRVs)
      ensures readback == None ==> brightness == 0.0
      ensures readback.Some? ==> brightness == libm.exp(readback.value) - 1.0
    {
      var L: nat := minPower2;
      var textureSize: nat := minPower2Value;
      var seedPass := SeedCommands(downSamplingRTVs[0], textureSize);

      // the downsample passes; the whole reduction is appended to `issued` at the end
      ghost var ps := Passes(L, downSamplingRTVs, downSamplingSRVs);
      var passes: seq<Command> := [];
      var i: nat := 0;
      var n: nat := textureSize / 2;
      LevelSizeHalves(L, 0);
      while n > 0
        invariant i <= L
        invariant n == LevelSize(L, i + 1)
        invariant passes == PassesCommands(ps[..i])
        invariant issued == old(issued)
        decreases n
      {
        LevelSizePositive(L, i + 1);
        PassesCommandsStep(L, downSamplingRTVs, downSamplingSRVs, i);
        passes := passes + [BindTarget(MipTarget(downSamplingRTVs[i + 1])), SetViewport(n, n),
                            SetScissor(n, n), BindSource(MipSource(downSamplingSRVs[i])), Draw];
        LevelSizeHalves(L, i + 1);
        n := n / 2;
        i := i + 1;
      }
      LevelSizePositive(L, i + 1);
      assert i == L && ps[..i] == ps;
      var reduction := seedPass + passes + [CopyToStaging(i)];
      assert reduction == AverageBrightnessCommands(L, downSamplingRTVs, downSamplingSRVs);
      issued := issued + reduction;

      brightness := Decode(libm.exp, readback);
    }

    /** One adaptation step toward this frame's average brightness. */
    method EyeAdaptation(libm: Libm, avgBrightness: real, time: real, speed: real)
      requires speed != 0.0
      modifies this`adpBrightness
      ensures adpBrightness == Adapted(old(adpBrightness), avgBrightness, Factor(libm.exp, time, speed))
    {
      adpBrightness := adpBrightness + (avgBrightness - adpBrightness) * (1.0 - libm.exp(-time / speed));
    }

    /** Adapts first, then uploads the exposure key(adapted) / avgBrightness. */
    method Update(libm: Libm, avgBrightness: real, deltaTime: real, speed: real)
      requires speed != 0.0 && avgBrightness != 0.0
      modifies this`adpBrightness, this`exposure, this`issued
      ensures adpBrightness == Adapted(old(adpBrightness), avgBrightness, Factor(libm.exp, deltaTime, speed))
      ensures exposure == Float4(libm.key(adpBrightness) / avgBrightness, 0.0, 0.0, 0.0)
      ensures issued == old(issued) + [UploadExposure(exposure)]
    {
      EyeAdaptation(libm, avgBrightness, deltaTime, speed);
      exposure := Float4(libm.key(adpBrightness) / avgBrightness, 0.0, 0.0, 0.0);
      issued := issued + [UploadExposure(exposure)];
    }

    /** One frame: measure, adapt and upload the exposure, then draw the
        scene through the tone-map shaders into the display target. */
    method ToneMap(libm: Libm, readback: Option<real>, width: nat, height: nat,
                   deltaTime: real, eyeAdaptationSpeed: real)
      requires ReductionReady()
      requires eyeAdaptationSpeed != 0.0 && Decode(libm.exp, readback) != 0.0
      modifies this`adpBrightness, this`exposure, this`issued
      ensures var avg := Decode(libm.exp, readback);
        && adpBrightness == Adapted(old(adpBrightness), avg, Factor(libm.exp, deltaTime, eyeAdaptationSpeed))
        && exposure == Float4(libm.key(adpBrightness) / avg, 0.0, 0.0, 0.0)
        && issued == old(issued)
             + AverageBrightnessCommands(minPower2, downSamplingRTVs, downSamplingSRVs)
             + [UploadExposure(exposure)]
             + ToneMapCommands(width, height)
    {
      var avg := CalculateAverageBrightness(libm, readback);
      Update(libm, avg, deltaTime, eyeAdaptationSpeed);
      issued := issued + ToneMapCommands(width, height);
    }
  }

  /** The tone-map pass: the scene, through the tone-map shaders and the
      exposure buffer, into the display target at its full size. */
  function ToneMapCommands(width: nat, height: nat): (cs: seq<Command>)
  {
    [ClearState, BindTarget(DisplayTarget), SetViewport(width, height),
     SetScissor(width, height), BindFixedState, BindProgram(U2Shader),
     BindSampler, BindSource(SceneSource), BindExposure, Draw]
  }

  /** What Renderer::Init does with the core, with the failure report of
      InitChecked: a fresh window set up at the screen size which, when it
      reports success, holds the complete chain (view k addresses mip k). */
  method OpenWindow(device: Device, width: int, height: int) returns (window: RenderWindow, ok: bool)
    requires width >= 1 && height >= 1
    ensures fresh(window)
    ensures var m := if width < height then width else height;
      && window.minPower2 == MinPower2(m)
      && (GrantsEverything(device) ==> (ok <==> m >= 2))
    ensures ok ==> && window.ReductionReady() && window.issued == []
                   && window.downSamplingRTVs == MipRange(window.minPower2 + 1)
                   && window.downSamplingSRVs == MipRange(window.minPower2 + 1)
  {
    window := new RenderWindow();
    ok := window.InitChecked(device, width, height);
  }

  /** Opens a window and, when that succeeds, measures once: the reduction
      walks the complete chain. */
  method FirstMeasurement(device: Device, width: int, height: int, libm: Libm, readback: Option<real>)
    returns (ok: bool, commands: seq<Command>, brightness: real)
    requires width >= 1 && height >= 1
    ensures var m := if width < height then width else height;
      GrantsEverything(device) ==> (ok <==> m >= 2)
    ensures ok ==> var L := MinPower2(if width < height then width else height);
      && L >= 0
      && commands == AverageBrightnessCommands(L, MipRange(L + 1), MipRange(L + 1))
      && brightness == Decode(libm.exp, readback)
    ensures !ok ==> commands == [] && brightness == 0.0
  {
    var window;
    window, ok := OpenWindow(device, width, height);
    if ok {
      brightness := window.CalculateAverageBrightness(libm, readback);
      commands := window.issued;
    } else {
      commands, brightness := [], 0.0;
    }
  }

  /** Init as written: on a device that refuses only the sampler state it
      still reports success, yet no view is created, so the reduction's
      first OMSetRenderTargets would index an empty view list. */
  method InitIgnoresSamplerFailure(width: int, height: int) returns (ok: bool, views: nat, ready: bool)
    requires width >= 2 && height >= 2
    ensures ok && views == 0 && !ready
  {
    var device := Device(true, true, true, true, false, _ => true, _ => true, _ => true, _ => true);
    var window := new RenderWindow();
    ok := window.Init(device, width, height);
    views := |window.downSamplingRTVs|;
    ready := |window.downSamplingRTVs| > window.minPower2 >= 0;
  }

  /** InitChecked reports a refused shader: a device that refuses only the
      average-brightness vertex shader makes it return false. */
  method InitCheckedReportsShaderFailure(width: int, height: int) returns (ok: bool)
    requires width >= 1 && height >= 1
    ensures !ok
  {
    var device := Device(true, true, true, true, true, _ => true, _ => true, p => p != ABShader, _ => true);
    var window := new RenderWindow();
    ok := window.InitChecked(device, width, height);
    assert !device.vertexShader(ABShader);
  }
}
