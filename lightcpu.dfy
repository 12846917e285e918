/**
 * The lifecycle of the light-tracing CPU render engine: construction (which
 * refuses a stereo camera), starting (rendering settings from the
 * configuration, resuming from a previous render state, a fresh sample
 * splatter), stopping, and the render state it hands out.
 */
module LightCpu {
  import opened Wrappers
  import opened UInt32

  //----------------------------------------------------------------------------
  // Properties
  //----------------------------------------------------------------------------

  /** The value of one property. */
  datatype Value = IntValue(i: int) | FloatValue(f: real) | StringValue(s: string)

  /** A set of properties, by name. */
  type Properties = map<string, Value>

  datatype Property = Property(name: string, value: Value)

  /** Why an engine operation throws. */
  datatype Error =
    | StereoCameraUnsupported
    | SamplerNotSupported
    | WrongRenderStateTag(expected: string, found: string)
    | PropertyTypeMismatch(name: string)

  const EngineTag := "LIGHTCPU"
  const EngineTypeKey := "renderengine.type"
  const MaxDepthKey := "light.maxdepth"
  const RrDepthKey := "light.russianroulette.depth"
  const RrCapKey := "light.russianroulette.cap"
  const VarianceClampKey := "path.clamping.variance.maxvalue"
  /** The old name of the clamping setting, read as a fallback. */
  const LegacyClampKey := "path.clamping.radiance.maxvalue"

  /** `cfg.Get(defaultProp)`: the configured property of that name, or the default one. */
  function Get(cfg: Properties, default: Property): Property {
    if default.name in cfg then Property(default.name, cfg[default.name]) else default
  }

  /** `Property::Get<int>()`. */
  function GetInt(p: Property): (r: Result<int, Error>)
    ensures r.Success? <==> p.value.IntValue?
    ensures r.Success? ==> r.value == p.value.i
    ensures r.Failure? ==> r.error == PropertyTypeMismatch(p.name)
  {
    match p.value
    case IntValue(i) => Success(i)
    case _ => Failure(PropertyTypeMismatch(p.name))
  }

  /** `Property::Get<float>()`: an integer value widens to a real. */
  function GetFloat(p: Property): (r: Result<real, Error>)
    ensures r.Success? <==> !p.value.StringValue?
    ensures r.Success? ==> r.value == NumberOf(p.value)
    ensures r.Failure? ==> r.error == PropertyTypeMismatch(p.name)
  {
    match p.value
    case IntValue(i) => Success(i as real)
    case FloatValue(f) => Success(f)
    case StringValue(_) => Failure(PropertyTypeMismatch(p.name))
  }

  /** A numeric value as a real. */
  function NumberOf(v: Value): real
    requires !v.StringValue?
  {
    if v.IntValue? then v.i as real else v.f
  }

  /** `GetDefaultProps`: the engine's own defaults. */
  function DefaultProps(): (props: Properties)
    ensures props.Keys == {EngineTypeKey, MaxDepthKey, RrDepthKey, RrCapKey, VarianceClampKey}
  {
    map[EngineTypeKey := StringValue(EngineTag),
        MaxDepthKey := IntValue(5),
        RrDepthKey := IntValue(3),
        RrCapKey := FloatValue(0.5),
        VarianceClampKey := FloatValue(0.0)]
  }

  /** `GetDefaultProps().Get(name)`. */
  function DefaultProp(name: string): Property
    requires name in DefaultProps()
  {
    Property(name, DefaultProps()[name])
  }

  function Max(a: real, b: real): real {
    if a < b then b else a
  }

  //----------------------------------------------------------------------------
  // Rendering settings
  //----------------------------------------------------------------------------

  datatype Settings = Settings(maxPathDepth: int, rrDepth: int, rrImportanceCap: real, sqrtVarianceClampMaxValue: real)

  /**
   * The settings `StartLockLess` resolves from the configuration, in its order:
   * the three light-path settings, the legacy clamp value (default 0), replaced
   * by the variance clamp value when that is configured, then floored at 0.
   */
  function ResolveSettings(cfg: Properties): (r: Result<Settings, Error>)
    ensures r.Failure? ==> r.error.PropertyTypeMismatch? &&
                           r.error.name in {MaxDepthKey, RrDepthKey, RrCapKey, LegacyClampKey, VarianceClampKey}
    ensures r.Success? ==> r.value.sqrtVarianceClampMaxValue >= 0.0
  {
    var maxPathDepth :- GetInt(Get(cfg, DefaultProp(MaxDepthKey)));
    var rrDepth :- GetInt(Get(cfg, DefaultProp(RrDepthKey)));
    var rrImportanceCap :- GetFloat(Get(cfg, DefaultProp(RrCapKey)));
    var legacyClamp :- GetFloat(Get(cfg, Property(LegacyClampKey, FloatValue(0.0))));
    var clamp :- if VarianceClampKey in cfg then GetFloat(Get(cfg, DefaultProp(VarianceClampKey))) else Success(legacyClamp);
    Success(Settings(maxPathDepth, rrDepth, rrImportanceCap, Max(0.0, clamp)))
  }

  /** A configured value of the wrong kind for the setting it names. */
  predicate Mistyped(cfg: Properties) {
    (MaxDepthKey in cfg && !cfg[MaxDepthKey].IntValue?) ||
    (RrDepthKey in cfg && !cfg[RrDepthKey].IntValue?) ||
    (RrCapKey in cfg && cfg[RrCapKey].StringValue?) ||
    (LegacyClampKey in cfg && cfg[LegacyClampKey].StringValue?) ||
    (VarianceClampKey in cfg && cfg[VarianceClampKey].StringValue?)
  }

  /** The configured value of a numeric setting, or its default. */
  function IntOr(cfg: Properties, key: string, default: int): int
    requires key in cfg ==> cfg[key].IntValue?
  {
    if key in cfg then cfg[key].i else default
  }

  function NumberOr(cfg: Properties, key: string, default: real): real
    requires key in cfg ==> !cfg[key].StringValue?
  {
    if key in cfg then NumberOf(cfg[key]) else default
  }

  /**
   * Resolution fails exactly when a setting is configured with a value of the
   * wrong kind; otherwise each setting is the configured value or the default,
   * and the clamp is the variance value if configured, else the legacy value
   * (default 0), floored at 0.
   */
  lemma ResolvedSettings(cfg: Properties)
    ensures ResolveSettings(cfg).Failure? <==> Mistyped(cfg)
    ensures !Mistyped(cfg) ==> ResolveSettings(cfg) == Success(Settings(
      IntOr(cfg, MaxDepthKey, 5),
      IntOr(cfg, RrDepthKey, 3),
      NumberOr(cfg, RrCapKey, 0.5),
      Max(0.0, if VarianceClampKey in cfg then NumberOf(cfg[VarianceClampKey]) else NumberOr(cfg, LegacyClampKey, 0.0))))
  {
  }

  /** Without overrides, Start yields depth 5, roulette depth 3, cap 0.5 and no clamping. */
  lemma DefaultSettings(cfg: Properties)
    requires MaxDepthKey !in cfg && RrDepthKey !in cfg && RrCapKey !in cfg
    requires VarianceClampKey !in cfg && LegacyClampKey !in cfg
    ensures ResolveSettings(cfg) == Success(Settings(5, 3, 0.5, 0.0))
  {
  }

  /** The variance clamp value wins over the legacy one, and the result is never negative. */
  lemma VarianceClampPrecedence(cfg: Properties)
    requires ResolveSettings(cfg).Success?
    ensures ResolveSettings(cfg).value.sqrtVarianceClampMaxValue >= 0.0
    ensures VarianceClampKey in cfg ==>
              ResolveSettings(cfg).value.sqrtVarianceClampMaxValue == Max(0.0, NumberOf(cfg[VarianceClampKey]))
    ensures VarianceClampKey !in cfg && LegacyClampKey in cfg ==>
              ResolveSettings(cfg).value.sqrtVarianceClampMaxValue == Max(0.0, NumberOf(cfg[LegacyClampKey]))
  {
    ResolvedSettings(cfg);
  }

  /**
   * `ToProperties`: the engine type and the three light-path settings, each
   * the configured value or the default; the clamping setting is not among them.
   */
  function ToProperties(cfg: Properties): (props: Properties)
    ensures props.Keys == {EngineTypeKey, MaxDepthKey, RrDepthKey, RrCapKey}
    ensures forall k :: k in props ==> props[k] == if k in cfg then cfg[k] else DefaultProps()[k]
    ensures VarianceClampKey !in props && LegacyClampKey !in props
  {
    map[EngineTypeKey := Get(cfg, DefaultProp(EngineTypeKey)).value,
        MaxDepthKey := Get(cfg, DefaultProp(MaxDepthKey)).value,
        RrDepthKey := Get(cfg, DefaultProp(RrDepthKey)).value,
        RrCapKey := Get(cfg, DefaultProp(RrCapKey)).value]
  }

  /**
   * Starting from `ToProperties(cfg)` gives the same light-path settings as
   * starting from `cfg`, but the clamp falls back to 0: it is not carried over.
   */
  lemma ToPropertiesRoundTrip(cfg: Properties)
    requires ResolveSettings(cfg).Success?
    ensures ResolveSettings(ToProperties(cfg)) == Success(ResolveSettings(cfg).value.(sqrtVarianceClampMaxValue := 0.0))
  {
    ResolvedSettings(cfg);
    ResolvedSettings(ToProperties(cfg));
  }

  //----------------------------------------------------------------------------
  // Seeds and render states
  //----------------------------------------------------------------------------

  /** What a render state carries: the tag of the engine that made it and its seed. */
  datatype RenderState = RenderState(engineTag: string, bootStrapSeed: u32)

  /** The seed a resumed rendering continues with: the old one plus 1 in `u_int`. */
  function NextSeed(seed: u32): (next: u32)
    ensures next != seed
    ensures (next - seed) % Modulus == 1
  {
    Add(seed, 1)
  }

  /** A resumed rendering never reuses the seed it resumes from, and distinct seeds stay distinct. */
  lemma NextSeedIsFresh(a: u32, b: u32)
    ensures NextSeed(a) != a
    ensures NextSeed(a) == NextSeed(b) ==> a == b
    ensures a < Modulus - 1 ==> NextSeed(a) == a + 1
    ensures a == Modulus - 1 ==> NextSeed(a) == 0
  {
  }

  /** The words of an object, by offset from its address. */
  type ObjectWords = map<nat, u32>

  /** The words of a render state that matter here: its seed at its own field offset. */
  function RenderStateWords(state: RenderState, stateSeedOffset: nat): ObjectWords {
    map[stateSeedOffset := state.bootStrapSeed]
  }

  /**
   * The new seed as the code is written: the render state is cast to the engine
   * class, so the read takes the word at the engine's `bootStrapSeed` offset;
   * `None` when that offset lies outside what the render state holds.
   */
  function NewSeedAsWritten(stateWords: ObjectWords, engineSeedOffset: nat): Option<u32> {
    if engineSeedOffset in stateWords then Some(NextSeed(stateWords[engineSeedOffset])) else None
  }

  /** Since the two classes keep the seed at different offsets, the cast does not read the state's seed. */
  lemma CastReadsWrongField(state: RenderState, stateSeedOffset: nat, engineSeedOffset: nat)
    requires stateSeedOffset != engineSeedOffset
    ensures NewSeedAsWritten(RenderStateWords(state, stateSeedOffset), engineSeedOffset) != Some(NextSeed(state.bootStrapSeed))
    ensures NewSeedAsWritten(RenderStateWords(state, stateSeedOffset), stateSeedOffset) == Some(NextSeed(state.bootStrapSeed))
  {
  }

  //----------------------------------------------------------------------------
  // The engine
  //----------------------------------------------------------------------------

  datatype CameraType = Perspective | Orthographic | Stereo | Environment

  /** What the engine reads of its render configuration. */
  datatype RenderConfig = RenderConfig(cfg: Properties, cameraType: CameraType)

  /** The pixel filter of the engine's film, by identity. */
  type PixelFilter = nat

  /** The helper that splats light-path samples onto the film through the pixel filter. */
  class FilmSampleSplatter {
    const filter: PixelFilter

    constructor (filter: PixelFilter)
      ensures this.filter == filter
    {
      this.filter := filter;
    }
  }

  /** The constructor's camera check: the light engine refuses exactly the stereo camera. */
  function CheckCamera(cameraType: CameraType): (r: Outcome<Error>)
    ensures r.Fail? <==> cameraType == Stereo
    ensures r.Fail? ==> r.error == StereoCameraUnsupported
  {
    if cameraType == Stereo then Fail(StereoCameraUnsupported) else Pass
  }

  class LightCpuEngine {
    const renderConfig: RenderConfig
    const pixelFilter: PixelFilter

    var maxPathDepth: int
    var rrDepth: int
    var rrImportanceCap: real
    var sqrtVarianceClampMaxValue: real

    var bootStrapSeed: u32
    /** The render state to resume from, consumed by the next start. */
    var startRenderState: Option<RenderState>
    /** Whether the film's previous content is kept rather than cleared. */
    var hasStartFilm: bool
    var sampleSplatter: FilmSampleSplatter?

    /** The engine as built once its camera is accepted; the seed comes from the base engine. */
    constructor (rcfg: RenderConfig, seed: u32, filter: PixelFilter)
      requires CheckCamera(rcfg.cameraType).Pass?
      ensures renderConfig == rcfg && pixelFilter == filter && bootStrapSeed == seed
      ensures startRenderState.None? && !hasStartFilm && sampleSplatter == null
    {
      renderConfig, pixelFilter := rcfg, filter;
      bootStrapSeed := seed;
      startRenderState, hasStartFilm, sampleSplatter := None, false, null;
    }

    /** Construction: throws for a stereo camera, otherwise an engine with no splatter yet. */
    static method New(rcfg: RenderConfig, seed: u32, filter: PixelFilter) returns (r: Result<LightCpuEngine, Error>)
      ensures r.Failure? <==> rcfg.cameraType == Stereo
      ensures r.Failure? ==> r.error == StereoCameraUnsupported
      ensures r.Success? ==> fresh(r.value) && r.value.renderConfig == rcfg && r.value.pixelFilter == filter &&
                             r.value.bootStrapSeed == seed && r.value.startRenderState.None? &&
                             r.value.sampleSplatter == null
    {
      var check := CheckCamera(rcfg.cameraType);
      if check.Fail? {
        return Failure(check.error);
      }
      var engine := new LightCpuEngine(rcfg, seed, filter);
      return Success(engine);
    }

    /** The settings currently held by the engine. */
    function CurrentSettings(): Settings
      reads this
    {
      Settings(maxPathDepth, rrDepth, rrImportanceCap, sqrtVarianceClampMaxValue)
    }

    /** `GetRenderState`: a render state tagged with this engine's type and holding its current seed. */
    method GetRenderState() returns (state: RenderState)
      ensures state.engineTag == EngineTag && state.bootStrapSeed == bootStrapSeed
    {
      state := RenderState(EngineTag, bootStrapSeed);
    }

    /** Hand the engine a render state to resume from at its next start. */
    method SetRenderState(state: RenderState)
      modifies this`startRenderState
      ensures startRenderState == Some(state)
    {
      startRenderState := Some(state);
    }

    /**
     * `StartLockLess`: check the sampler, resolve the settings, consume the
     * render state to resume from (after checking its tag), and create a new
     * sample splatter. `samplersOk` is the outcome of the sampler check.
     */
    method StartLockLess(samplersOk: bool) returns (outcome: Outcome<Error>)
      modifies this
      ensures outcome.Pass? <==>
        samplersOk && ResolveSettings(renderConfig.cfg).Success? &&
        (old(startRenderState).Some? ==> old(startRenderState).value.engineTag == EngineTag)
      ensures !samplersOk ==> outcome == Fail(SamplerNotSupported) && CurrentSettings() == old(CurrentSettings())
      ensures samplersOk && ResolveSettings(renderConfig.cfg).Failure? ==>
        outcome == Fail(ResolveSettings(renderConfig.cfg).error)
      ensures samplersOk && ResolveSettings(renderConfig.cfg).Success? ==>
        CurrentSettings() == ResolveSettings(renderConfig.cfg).value
      ensures samplersOk && ResolveSettings(renderConfig.cfg).Success? && old(startRenderState).Some? &&
              old(startRenderState).value.engineTag != EngineTag ==>
        outcome == Fail(WrongRenderStateTag(EngineTag, old(startRenderState).value.engineTag))
      // A failed start consumes nothing.
      ensures outcome.Fail? ==>
        bootStrapSeed == old(bootStrapSeed) && startRenderState == old(startRenderState) &&
        hasStartFilm == old(hasStartFilm) && sampleSplatter == old(sampleSplatter)
      ensures outcome.Pass? && old(startRenderState).Some? ==>
        bootStrapSeed == NextSeed(old(startRenderState).value.bootStrapSeed) && hasStartFilm
      ensures outcome.Pass? && old(startRenderState).None? ==>
        bootStrapSeed == old(bootStrapSeed) && !hasStartFilm
      ensures outcome.Pass? ==>
        startRenderState.None? && sampleSplatter != null && fresh(sampleSplatter) && sampleSplatter.filter == pixelFilter
    {
      if !samplersOk {
        return Fail(SamplerNotSupported);
      }
      // Depths, roulette cap and clamp, all from the configuration
      var settings := ResolveSettings(renderConfig.cfg);
      if settings.Failure? {
        return Fail(settings.error);
      }
      maxPathDepth := settings.value.maxPathDepth;
      rrDepth := settings.value.rrDepth;
      rrImportanceCap := settings.value.rrImportanceCap;
      sqrtVarianceClampMaxValue := settings.value.sqrtVarianceClampMaxValue;

      // Resume from the pending render state, if any
      if startRenderState.Some? {
        var state := startRenderState.value;
        if state.engineTag != EngineTag {
          return Fail(WrongRenderStateTag(EngineTag, state.engineTag));
        }
        bootStrapSeed := NextSeed(state.bootStrapSeed);
        startRenderState := None;
        hasStartFilm := true;
      } else {
        hasStartFilm := false;
      }

      sampleSplatter := new FilmSampleSplatter(pixelFilter);
      return Pass;
    }

    /** `StopLockLess`: the sample splatter is released and does not outlive the stop. */
    method StopLockLess()
      modifies this`sampleSplatter
      ensures sampleSplatter == null
    {
      sampleSplatter := null;
    }
  }

  /**
   * Resuming a rendering: a new engine started from the render state of a
   * previous one continues with the previous seed plus 1 and keeps the film.
   */
  method Resume(previous: LightCpuEngine, rcfg: RenderConfig, seed: u32, filter: PixelFilter, samplersOk: bool)
    returns (r: Result<LightCpuEngine, Error>)
    ensures r.Success? ==> fresh(r.value)
    ensures r.Success? <==>
      rcfg.cameraType != Stereo && samplersOk && ResolveSettings(rcfg.cfg).Success?
    ensures r.Success? ==>
      r.value.bootStrapSeed == NextSeed(previous.bootStrapSeed) && r.value.hasStartFilm &&
      r.value.startRenderState.None? && r.value.sampleSplatter != null
  {
    var state := previous.GetRenderState();
    var created := LightCpuEngine.New(rcfg, seed, filter);
    if created.Failure? {
      return Failure(created.error);
    }
    var engine := created.value;
    engine.SetRenderState(state);
    var outcome := engine.StartLockLess(samplersOk);
    if outcome.Fail? {
      return Failure(outcome.error);
    }
    return Success(engine);
  }
}
