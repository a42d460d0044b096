/** The luminance reduction of RenderWindow::CalculateAverageBrightness as a
    specification: the commands it issues on the device context, and what
    those commands leave in the staging texture when the scene is uniform. */
module Reduction {
  import opened PowersOfTwo
  import opened Direct3D

  /** One downsample pass: the mip its render target view writes, the side of
      its square viewport and scissor rectangle, and the mip its shader
      resource view reads. */
  datatype Pass = Pass(target: nat, side: nat, source: nat)

  /** For a 2^L base, pass k (k = 0 .. L - 1) draws through render target view
      k + 1 into a (2^L / 2^(k+1))-square, reading through shader resource
      view k. `rtvs` and `srvs` give the mip that each view addresses. */
  function Passes(L: nat, rtvs: seq<nat>, srvs: seq<nat>): (ps: seq<Pass>)
    requires |rtvs| > L && |srvs| >= L
  {
    seq(L, k requires 0 <= k < L => Pass(rtvs[k + 1], Pow2(L) / Pow2(k + 1), srvs[k]))
  }

  function PassCommands(p: Pass): seq<Command>
  {
    [BindTarget(MipTarget(p.target)), SetViewport(p.side, p.side), SetScissor(p.side, p.side),
     BindSource(MipSource(p.source)), Draw]
  }

  function PassesCommands(ps: seq<Pass>): seq<Command>
  {
    if ps == [] then [] else PassesCommands(ps[..|ps| - 1]) + PassCommands(ps[|ps| - 1])
  }

  /** The seed pass: the average-brightness shaders read the scene into the
      first mip view at full size; then the downsample shaders are bound for
      the passes that follow. */
  function SeedCommands(rtv0: nat, side: nat): seq<Command>
  {
    [ClearState, BindTarget(MipTarget(rtv0)), SetViewport(side, side), SetScissor(side, side),
     BindFixedState, BindProgram(ABShader), BindSampler, BindSource(SceneSource), Draw,
     BindProgram(DSShader)]
  }

  /** Everything CalculateAverageBrightness issues: the seed pass, the L
      downsample passes, and the copy of subresource L into the staging texture. */
  function AverageBrightnessCommands(L: nat, rtvs: seq<nat>, srvs: seq<nat>): seq<Command>
    requires |rtvs| > L && |srvs| >= L
  {
    SeedCommands(rtvs[0], Pow2(L)) + PassesCommands(Passes(L, rtvs, srvs)) + [CopyToStaging(L)]
  }

  /** The value CalculateAverageBrightness returns for what Map gave it: 0
      when Map failed, otherwise exp(v) - 1 of the texel v read. */
  function Decode(exp: real -> real, readback: Option<real>): real
  {
    match readback
    case None => 0.0
    case Some(v) => exp(v) - 1.0
  }

  /** Pass k of any chain, with its side as the k + 1 times halved base. */
  lemma PassAt(L: nat, rtvs: seq<nat>, srvs: seq<nat>, k: nat)
    requires |rtvs| > L && |srvs| >= L && k < L
    ensures Passes(L, rtvs, srvs)[k] == Pass(rtvs[k + 1], LevelSize(L, k + 1), srvs[k])
    ensures LevelSize(L, k + 1) == Pow2(L - (k + 1)) >= 1
  {
    LevelSizeIsQuotient(L, k + 1);
  }

  /** The first k + 1 passes issue the commands of the first k, then those
      of pass k; this is one trip of the reduction loop. */
  lemma PassesCommandsStep(L: nat, rtvs: seq<nat>, srvs: seq<nat>, k: nat)
    requires |rtvs| > L && |srvs| >= L && k < L
    ensures PassesCommands(Passes(L, rtvs, srvs)[..k + 1])
         == PassesCommands(Passes(L, rtvs, srvs)[..k])
          + PassCommands(Pass(rtvs[k + 1], LevelSize(L, k + 1), srvs[k]))
  {
    var ps := Passes(L, rtvs, srvs);
    PassAt(L, rtvs, srvs, k);
    assert ps[..k + 1][..k] == ps[..k];
  }

  /** On the chain a complete Init builds (view k addresses mip k), pass k
      writes mip k + 1 from mip k, each pass reads the mip written just
      before it, every mip named lies in [0, L], the sides halve down to 1,
      and the subresource copied last, L, is the 1x1 mip the last pass wrote. */
  lemma PassesOnCompleteChain(L: nat)
    ensures var ps := Passes(L, MipRange(L + 1), MipRange(L + 1));
      && |ps| == L
      && (forall k :: 0 <= k < L ==>
            ps[k].target == k + 1 <= L && ps[k].source == k && ps[k].side == Pow2(L - (k + 1)))
      && (forall k :: 0 < k < L ==> ps[k].source == ps[k - 1].target)
      && (L > 0 ==> ps[0].source == 0 && ps[L - 1].target == L && ps[L - 1].side == 1)
      && LevelSize(L, L) == 1
  {
    var rs := MipRange(L + 1);
    var ps := Passes(L, rs, rs);
    forall k | 0 <= k < L
      ensures ps[k].target == k + 1 && ps[k].source == k && ps[k].side == Pow2(L - (k + 1))
    {
      PassAt(L, rs, rs, k);
    }
  }

  /** Every downsample pass draws once. */
  lemma {:induction false} PassesDrawOnce(ps: seq<Pass>)
    ensures multiset(PassesCommands(ps))[Draw] == |ps|
  {
    if ps != [] {
      PassesDrawOnce(ps[..|ps| - 1]);
    }
  }

  /** A reduction over a 2^L base draws L + 1 quads: the seed pass and one
      per downsample pass. */
  lemma AverageBrightnessDraws(L: nat, rtvs: seq<nat>, srvs: seq<nat>)
    requires |rtvs| > L && |srvs| >= L
    ensures multiset(AverageBrightnessCommands(L, rtvs, srvs))[Draw] == L + 1
  {
    PassesDrawOnce(Passes(L, rtvs, srvs));
  }

  // What the commands compute, for a scene of uniform luminance. The shaders'
  // per-pixel arithmetic is not modelled: a mip is either known to hold one
  // value on every texel, or unknown (absent from `mips`).

  /** The pipeline state the reduction's commands change. */
  datatype Gpu = Gpu(
    target: Option<Target>,
    source: Option<Source>,
    program: Option<Program>,
    mips: map<nat, real>,
    staging: Option<real>)

  /** The mips after one draw. The seed shaders write `seed`, the encoding
      log(luminance + 1) of the uniform scene, on every texel; the downsample
      shaders average a uniform mip into the next one, which keeps its value;
      any other draw into a mip leaves it unknown. */
  function Drawn(g: Gpu, seed: real): map<nat, real>
  {
    match g.target
    case Some(MipTarget(m)) =>
      if g.program == Some(ABShader) && g.source == Some(SceneSource) then g.mips[m := seed]
      else if g.program == Some(DSShader) && g.source.Some? && g.source.value.MipSource?
              && g.source.value.mip in g.mips then g.mips[m := g.mips[g.source.value.mip]]
      else g.mips - {m}
    case _ => g.mips
  }

  function Step(g: Gpu, c: Command, seed: real): Gpu
  {
    match c
    case ClearState => g.(target := None, source := None, program := None)
    case BindTarget(t) => g.(target := Some(t))
    case BindSource(s) => g.(source := Some(s))
    case BindProgram(p) => g.(program := Some(p))
    case Draw => g.(mips := Drawn(g, seed))
    case CopyToStaging(m) => g.(staging := if m in g.mips then Some(g.mips[m]) else None)
    case _ => g
  }

  function Run(cs: seq<Command>, g: Gpu, seed: real): Gpu
  {
    if cs == [] then g else Run(cs[1..], Step(g, cs[0], seed), seed)
  }

  lemma {:induction false} RunAppend(a: seq<Command>, b: seq<Command>, g: Gpu, seed: real)
    ensures Run(a + b, g, seed) == Run(b, Run(a, g, seed), seed)
  {
    if a != [] {
      assert (a + b)[1..] == a[1..] + b;
      RunAppend(a[1..], b, Step(g, a[0], seed), seed);
    } else {
      assert a + b == b;
    }
  }

  lemma RunFirst(cs: seq<Command>, g: Gpu, seed: real)
    requires cs != []
    ensures Run(cs, g, seed) == Run(cs[1..], Step(g, cs[0], seed), seed)
  {
  }

  /** Running `c` and then `cs` is running `[c] + cs`. */
  lemma RunCons(c: Command, cs: seq<Command>, g: Gpu, seed: real)
    ensures Run([c] + cs, g, seed) == Run(cs, Step(g, c, seed), seed)
  {
    assert ([c] + cs)[1..] == cs;
  }

  /** The seed pass's first four commands reset the bindings and target the
      first mip view. */
  lemma RunSeedTarget(g: Gpu, seed: real, side: nat)
    ensures Run([ClearState, BindTarget(MipTarget(0)), SetViewport(side, side), SetScissor(side, side)], g, seed)
         == g.(target := Some(MipTarget(0)), source := None, program := None)
  {
    var t3 := [SetScissor(side, side)];
    var t2 := [SetViewport(side, side)] + t3;
    var t1 := [BindTarget(MipTarget(0))] + t2;
    assert [ClearState, BindTarget(MipTarget(0)), SetViewport(side, side), SetScissor(side, side)]
        == [ClearState] + t1;
    var g1 := g.(target := None, source := None, program := None);
    var g2 := g1.(target := Some(MipTarget(0)));
    RunCons(ClearState, t1, g, seed);
    RunCons(BindTarget(MipTarget(0)), t2, g1, seed);
    RunCons(SetViewport(side, side), t3, g2, seed);
    RunCons(SetScissor(side, side), [], g2, seed);
  }

  /** Its next four bind the average-brightness shaders and the scene. */
  lemma RunSeedSources(g: Gpu, seed: real)
    ensures Run([BindFixedState, BindProgram(ABShader), BindSampler, BindSource(SceneSource)], g, seed)
         == g.(program := Some(ABShader), source := Some(SceneSource))
  {
    var t3 := [BindSource(SceneSource)];
    var t2 := [BindSampler] + t3;
    var t1 := [BindProgram(ABShader)] + t2;
    assert [BindFixedState, BindProgram(ABShader), BindSampler, BindSource(SceneSource)]
        == [BindFixedState] + t1;
    var g2 := g.(program := Some(ABShader));
    RunCons(BindFixedState, t1, g, seed);
    RunCons(BindProgram(ABShader), t2, g, seed);
    RunCons(BindSampler, t3, g2, seed);
    RunCons(BindSource(SceneSource), [], g2, seed);
  }

  /** After the seed pass, mip 0 holds the scene's encoding and the
      downsample shaders are bound. */
  lemma RunSeed(g: Gpu, seed: real, side: nat)
    ensures var h := Run(SeedCommands(0, side), g, seed);
      h.program == Some(DSShader) && 0 in h.mips && h.mips[0] == seed
  {
    var target := [ClearState, BindTarget(MipTarget(0)), SetViewport(side, side), SetScissor(side, side)];
    var sources := [BindFixedState, BindProgram(ABShader), BindSampler, BindSource(SceneSource)];
    var last := [BindProgram(DSShader)];
    assert SeedCommands(0, side) == target + (sources + ([Draw] + last));
    RunSeedTarget(g, seed, side);
    var g4 := Run(target, g, seed);
    RunSeedSources(g4, seed);
    var g8 := Run(sources, g4, seed);
    RunAppend(target, sources + ([Draw] + last), g, seed);
    RunAppend(sources, [Draw] + last, g4, seed);
    RunCons(Draw, last, g8, seed);
    RunCons(BindProgram(DSShader), [], Step(g8, Draw, seed), seed);
  }

  /** A downsample pass from mip k into mip k + 1 carries mip k's value over. */
  lemma RunPass(g: Gpu, seed: real, k: nat, side: nat)
    requires g.program == Some(DSShader) && k in g.mips && g.mips[k] == seed
    ensures var h := Run(PassCommands(Pass(k + 1, side, k)), g, seed);
      h.program == Some(DSShader) && k + 1 in h.mips && h.mips[k + 1] == seed
  {
    var cs := PassCommands(Pass(k + 1, side, k));
    var h := g;
    var i := 0;
    while i < |cs|
      invariant 0 <= i <= |cs|
      invariant Run(cs, g, seed) == Run(cs[i..], h, seed)
      invariant h.program == Some(DSShader) && k in h.mips && h.mips[k] == seed
      invariant i >= 1 ==> h.target == Some(MipTarget(k + 1))
      invariant i >= 4 ==> h.source == Some(MipSource(k))
      invariant i >= 5 ==> k + 1 in h.mips && h.mips[k + 1] == seed
    {
      RunFirst(cs[i..], h, seed);
      assert cs[i..][1..] == cs[i + 1..];
      h := Step(h, cs[i], seed);
      i := i + 1;
    }
  }

  lemma {:induction false} RunPasses(L: nat, k: nat, g: Gpu, seed: real)
    requires k <= L
    requires g.program == Some(DSShader) && 0 in g.mips && g.mips[0] == seed
    ensures var h := Run(PassesCommands(Passes(L, MipRange(L + 1), MipRange(L + 1))[..k]), g, seed);
      h.program == Some(DSShader) && k in h.mips && h.mips[k] == seed
  {
    var ps := Passes(L, MipRange(L + 1), MipRange(L + 1));
    if k == 0 {
      assert ps[..0] == [];
    } else {
      RunPasses(L, k - 1, g, seed);
      assert ps[..k][..k - 1] == ps[..k - 1];
      RunAppend(PassesCommands(ps[..k - 1]), PassCommands(ps[k - 1]), g, seed);
      RunPass(Run(PassesCommands(ps[..k - 1]), g, seed), seed, k - 1, ps[k - 1].side);
    }
  }

  /** Whatever state a previous frame left behind, the reduction of a scene
      whose seed encoding is `seed` leaves exactly `seed` in the staging
      texture, for every base 2^L: the downsampling neither drifts nor
      depends on the number of passes. */
  lemma UniformSceneReachesStaging(L: nat, g: Gpu, seed: real)
    ensures Run(AverageBrightnessCommands(L, MipRange(L + 1), MipRange(L + 1)), g, seed).staging == Some(seed)
  {
    var ps := Passes(L, MipRange(L + 1), MipRange(L + 1));
    var seedCs := SeedCommands(0, Pow2(L));
    RunSeed(g, seed, Pow2(L));
    var g1 := Run(seedCs, g, seed);
    RunPasses(L, L, g1, seed);
    assert ps[..L] == ps;
    var g2 := Run(PassesCommands(ps), g1, seed);
    RunAppend(seedCs, PassesCommands(ps), g, seed);
    RunAppend(seedCs + PassesCommands(ps), [CopyToStaging(L)], g, seed);
    assert [CopyToStaging(L)][1..] == [];
  }

  /** The log encoding round-trips: for a scene of uniform luminance lum >= 0,
      decoding the staging texel the reduction leaves gives back lum, on any
      base and from any earlier state, so two calls on an unchanged scene
      return the same value. */
  lemma UniformLuminanceRoundTrip(libm: Libm, lum: real, L: nat, g: Gpu)
    requires ExpInvertsLog(libm) && lum >= 0.0
    ensures Decode(libm.exp,
      Run(AverageBrightnessCommands(L, MipRange(L + 1), MipRange(L + 1)), g, libm.log(lum + 1.0)).staging) == lum
  {
    UniformSceneReachesStaging(L, g, libm.log(lum + 1.0));
  }
}
