/** Direct3D 11 and the C maths library as the tone-mapping core sees them:
    the outcome of every creation call, the commands issued on the immediate
    context, and the transcendental functions, which are left abstract. */
module Direct3D {

  datatype Option<+T> = None | Some(value: T)

  /** The three vertex/pixel shader pairs, compiled from ABShader.hlsl (the
      log-luminance seed pass), DSShader.hlsl (the downsample pass) and
      U2Shader.hlsl (the tone-map pass). */
  datatype Program = ABShader | DSShader | U2Shader

  /** Whether each creation call that RenderWindow::Init makes succeeds. A
      view call is asked once per mip level, so its outcome is given per mip;
      a shader is given per program. */
  datatype Device = Device(
    stagingTexture: bool,
    exposureBuffer: bool,
    mipTexture: bool,
    rasterizerState: bool,
    samplerState: bool,
    shaderResourceView: nat -> bool,
    renderTargetView: nat -> bool,
    vertexShader: Program -> bool,
    pixelShader: Program -> bool)

  /** Every creation call succeeds. */
  ghost predicate GrantsEverything(device: Device)
  {
    && device.stagingTexture && device.exposureBuffer && device.mipTexture
    && device.rasterizerState && device.samplerState
    && (forall j :: device.shaderResourceView(j) && device.renderTargetView(j))
    && (forall p :: device.vertexShader(p) && device.pixelShader(p))
  }

  /** The parts of D3D11_TEXTURE2D_DESC that the core chooses. */
  datatype TextureDesc = TextureDesc(width: nat, height: nat, mipLevels: nat)

  /** CreateTexture2D: the device's answer, except that Direct3D 11 refuses a
      texture with a zero width or height (E_INVALIDARG) whatever the device. */
  predicate TextureCreated(granted: bool, desc: TextureDesc)
  {
    granted && desc.width >= 1 && desc.height >= 1
  }

  /** A render target: a view of one mip of the luminance texture, or the
      caller's display target. */
  datatype Target = MipTarget(mip: nat) | DisplayTarget

  /** A shader input: the caller's HDR scene texture, or a view of one mip. */
  datatype Source = SceneSource | MipSource(mip: nat)

  /** An XMFLOAT4. */
  datatype Float4 = Float4(x: real, y: real, z: real, w: real)

  /** The calls the core issues on the device context, in the order issued. */
  datatype Command =
    | ClearState
    | BindTarget(target: Target)                  // OMSetRenderTargets
    | SetViewport(width: nat, height: nat)        // RSSetViewports, origin 0, depth 0..1
    | SetScissor(right: nat, bottom: nat)         // RSSetScissorRects, origin 0
    | BindFixedState                              // rasterizer, triangle strip, no input layout
    | BindProgram(program: Program)               // VSSetShader and PSSetShader
    | BindSampler                                 // PSSetSamplers
    | BindSource(source: Source)                  // PSSetShaderResources
    | BindExposure                                // PSSetConstantBuffers
    | Draw                                        // Draw(4, 0): one full-screen quad
    | CopyToStaging(subresource: nat)             // CopySubresourceRegion into the 1x1 staging texture
    | UploadExposure(exposure: Float4)            // UpdateSubresource of the exposure buffer

  /** expf, logf, and the key curve 1.03 - 2 / (2 + log10f(10 a + 1)),
      which the model does not evaluate. */
  datatype Libm = Libm(exp: real -> real, log: real -> real, key: real -> real)

  /** What the eye-adaptation facts need of exp: exp(0) = 1, and exp maps
      the non-positive reals into (0, 1]. */
  ghost predicate ExpBounded(exp: real -> real)
  {
    exp(0.0) == 1.0 && forall x: real :: x <= 0.0 ==> 0.0 < exp(x) <= 1.0
  }

  /** exp(x + y) = exp(x) exp(y). */
  ghost predicate ExpAdditive(exp: real -> real)
  {
    forall x: real, y: real :: exp(x + y) == exp(x) * exp(y)
  }

  /** exp undoes log on the positive reals. */
  ghost predicate ExpInvertsLog(libm: Libm)
  {
    forall x: real :: x > 0.0 ==> libm.exp(libm.log(x)) == x
  }

  /** The number of creation calls, asked for mips 0, 1, ..., n - 1 in turn
      and stopping at the first failure, that succeed. */
  function CreatedCount(created: nat -> bool, n: nat): (k: nat)
    ensures k <= n
    ensures forall j :: 0 <= j < k ==> created(j)
    ensures k < n ==> !created(k)
  {
    if n == 0 then 0
    else
      var k := CreatedCount(created, n - 1);
      if k == n - 1 && created(n - 1) then n else k
  }

  /** The bounds CreatedCount promises single out its result. */
  lemma CreatedCountUnique(created: nat -> bool, n: nat, k: nat)
    requires k <= n
    requires forall j :: 0 <= j < k ==> created(j)
    requires k < n ==> !created(k)
    ensures k == CreatedCount(created, n)
  {
  }

  /** The mip levels 0, 1, ..., n - 1 in order. */
  function MipRange(n: nat): (r: seq<nat>)
    ensures |r| == n && forall k :: 0 <= k < n ==> r[k] == k
  {
    seq(n, k requires 0 <= k < n => k)
  }
}
