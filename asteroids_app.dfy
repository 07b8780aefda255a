/** The asteroids application: its configuration, the per-frame execute
    sets, the asteroids array and its saved state, and the side effects of
    reconfiguring and rendering, recorded in an event trace. */
module App {
  import opened Profiles
  import opened CommandLists
  import opened Events
  import opened Outcomes

  /** `frame_buffers_count` of the render context settings. */
  const FRAME_BUFFERS_COUNT: nat := 3

  /** The asteroids array settings; the camera, the scene scale and the
      texture dimensions are left out. Float fields are exact reals. */
  datatype ArraySettings = ArraySettings(
    instanceCount: nat,
    uniqueMeshCount: nat,
    subdivisionsCount: nat,
    texturesCount: nat,
    randomSeed: nat,
    orbitRadiusRatio: real,
    discRadiusRatio: real,
    meshLodMinScreenSize: real,
    minAsteroidScaleRatio: real,
    maxAsteroidScaleRatio: real,
    texturesArrayEnabled: bool,
    depthReversed: bool)

  /** The settings the application starts with, for a profile row. */
  function InitialArraySettings(p: MutableParameters): ArraySettings {
    ArraySettings(p.instancesCount, p.uniqueMeshCount, 4, p.texturesCount, 1123,
                  13.0, 4.0, 0.06, p.scaleRatio / 10.0, p.scaleRatio, true, true)
  }

  /** The fields of the settings that a profile row decides agree with it. */
  ghost predicate ProfileApplied(s: ArraySettings, p: MutableParameters) {
    && s.instanceCount == p.instancesCount
    && s.uniqueMeshCount == p.uniqueMeshCount
    && s.texturesCount == p.texturesCount
    && s.minAsteroidScaleRatio == p.scaleRatio / 10.0
    && s.maxAsteroidScaleRatio == p.scaleRatio
  }

  /** Two settings agree on every field a profile row does not decide. */
  ghost predicate SameFixedSettings(a: ArraySettings, b: ArraySettings) {
    && a.subdivisionsCount == b.subdivisionsCount
    && a.randomSeed == b.randomSeed
    && a.orbitRadiusRatio == b.orbitRadiusRatio
    && a.discRadiusRatio == b.discRadiusRatio
    && a.meshLodMinScreenSize == b.meshLodMinScreenSize
    && a.texturesArrayEnabled == b.texturesArrayEnabled
    && a.depthReversed == b.depthReversed
  }

  /** Copy a profile row into the settings. */
  function ApplyProfile(s: ArraySettings, p: MutableParameters): (r: ArraySettings)
    ensures ProfileApplied(r, p)
    ensures SameFixedSettings(r, s)
  {
    s.(instanceCount := p.instancesCount,
       uniqueMeshCount := p.uniqueMeshCount,
       texturesCount := p.texturesCount,
       minAsteroidScaleRatio := p.scaleRatio / 10.0,
       maxAsteroidScaleRatio := p.scaleRatio)
  }

  /** Applying a row the settings already carry changes nothing, and the
      settings are determined by their fixed fields and the row. */
  lemma ApplyProfileDetermined(s: ArraySettings, t: ArraySettings, p: MutableParameters)
    ensures ProfileApplied(s, p) ==> ApplyProfile(s, p) == s
    ensures ProfileApplied(s, p) && ProfileApplied(t, p) && SameFixedSettings(s, t) ==> s == t
  {
  }

  /** The generated population of a field (instances, meshes, textures):
      deterministic in the settings it was generated from. */
  datatype FieldState = FieldState(generatedFrom: ArraySettings)

  /** The asteroids array. Its LOD colouring flag and its LOD screen-size
      threshold are the two properties the controller reads and sets. */
  datatype AsteroidsArray = AsteroidsArray(
    settings: ArraySettings,
    state: FieldState,
    restored: bool,
    meshLodColoringEnabled: bool,
    minMeshLodScreenSize: real)

  /** The array built from the settings, reusing a saved state if one is
      given and generating a fresh one otherwise. */
  function CreateAsteroidsArray(settings: ArraySettings, savedState: Option<FieldState>): AsteroidsArray {
    match savedState
    case Some(state) => AsteroidsArray(settings, state, true, false, settings.meshLodMinScreenSize)
    case None => AsteroidsArray(settings, FieldState(settings), false, false, settings.meshLodMinScreenSize)
  }

  /** The outcome of `Render`: false from the base class, true, or a failed
      run-time check. */
  datatype RenderResult = Skipped | Rendered | Failed(error: Error)

  class AsteroidsApp {
    var complexity: uint32
    var settings: ArraySettings
    var parallelRenderingEnabled: bool
    var frames: array<AsteroidsFrame>
    var asteroidsArray: Option<AsteroidsArray>
    var savedState: Option<FieldState>
    var contextInitialized: bool
    /** The GPU and display side effects so far. */
    var trace: seq<Event>

    /** The level is in the table, the settings carry its row, no array and
        no saved state is stale, and every frame executes the set of the
        current mode. */
    ghost predicate Valid()
      reads this, frames
    {
      && complexity <= MAX_COMPLEXITY
      && ProfileApplied(settings, GetMutableParameters(complexity))
      && (asteroidsArray.Some? ==>
            asteroidsArray.value.settings == settings && asteroidsArray.value.state.generatedFrom == settings)
      && (savedState.Some? ==> savedState.value.generatedFrom == settings)
      && FramesReady(frames[..], parallelRenderingEnabled)
    }

    /** The application before its context exists. The parallel rendering
        default is a parameter. */
    constructor (debugBuild: bool, hardwareConcurrency: uint32, parallelRenderingEnabled: bool)
      ensures Valid()
      ensures complexity == DefaultComplexity(debugBuild, hardwareConcurrency)
      ensures settings == InitialArraySettings(GetMutableParameters(complexity))
      ensures this.parallelRenderingEnabled == parallelRenderingEnabled
      ensures fresh(frames) && frames.Length == 0 && asteroidsArray.None? && savedState.None?
      ensures !contextInitialized && trace == []
    {
      complexity := DefaultComplexity(debugBuild, hardwareConcurrency);
      settings := InitialArraySettings(GetMutableParameters(DefaultComplexityAsWritten(debugBuild, hardwareConcurrency)));
      this.parallelRenderingEnabled := parallelRenderingEnabled;
      frames := new AsteroidsFrame[0](BlankFrame);
      asteroidsArray := None;
      savedState := None;
      contextInitialized := false;
      trace := [];
    }

    /** The orchestration part of `Init`: the base application creates the
        frames; the array is built from the saved state if there is one;
        every frame gets its three lists and its execute set. */
    method Init()
      requires Valid()
      modifies this
      ensures Valid()
      ensures fresh(frames) && frames.Length == FRAME_BUFFERS_COUNT
      ensures asteroidsArray == Some(CreateAsteroidsArray(settings, savedState))
      ensures contextInitialized
      ensures complexity == old(complexity) && settings == old(settings)
      ensures parallelRenderingEnabled == old(parallelRenderingEnabled) && savedState == old(savedState)
      ensures trace == old(trace) + (if old(asteroidsArray).Some? then [AsteroidsArrayReleased] else [])
    {
      var newFrames := new AsteroidsFrame[FRAME_BUFFERS_COUNT](BlankFrame);
      if asteroidsArray.Some? {
        trace := trace + [AsteroidsArrayReleased];
      }
      asteroidsArray := Some(CreateAsteroidsArray(settings, savedState));
      for i := 0 to newFrames.Length
        modifies newFrames
        invariant forall k :: 0 <= k < i ==>
          newFrames[k].index == k && ListsCreated(newFrames[k]) && ExecuteSetMatches(newFrames[k], parallelRenderingEnabled)
        invariant forall k :: i <= k < newFrames.Length ==> newFrames[k] == BlankFrame(k)
      {
        var frame := newFrames[i];
        frame := frame.(parallelCmdList := CommandList(ParallelRendering, frame.index),
                        serialCmdList := CommandList(SerialRendering, frame.index),
                        finalCmdList := CommandList(FinalRendering, frame.index));
        newFrames[i] := frame.(executeCmdListSet := CreateExecuteCommandListSet(frame, parallelRenderingEnabled));
      }
      frames := newFrames;
      contextInitialized := true;
    }

    /** Save the array's state if there is an array, then release the array
        and, in the base application, the frames. */
    method OnContextReleased()
      requires Valid()
      modifies this
      ensures Valid()
      ensures savedState == if old(asteroidsArray).Some? then Some(old(asteroidsArray).value.state) else old(savedState)
      ensures asteroidsArray.None? && frames.Length == 0 && !contextInitialized
      ensures complexity == old(complexity) && settings == old(settings)
      ensures parallelRenderingEnabled == old(parallelRenderingEnabled)
      ensures trace == old(trace) + (if old(asteroidsArray).Some? then [AsteroidsArrayReleased] else [])
    {
      if asteroidsArray.Some? {
        savedState := Some(asteroidsArray.value.state);
        trace := trace + [AsteroidsArrayReleased];
      }
      asteroidsArray := None;
      frames := new AsteroidsFrame[0](BlankFrame);
      contextInitialized := false;
    }

    /** Change the complexity level. The level is clamped to the table; an
        unchanged level does nothing. Otherwise the GPU is drained when the
        context is up, the profile row is copied into the settings, the
        array and the saved state are discarded, and the context is reset
        when it is up. */
    method SetAsteroidsComplexity(requested: uint32)
      requires Valid()
      modifies this
      ensures Valid()
      ensures complexity == ClampComplexity(requested)
      ensures ClampComplexity(requested) == old(complexity) ==>
        && settings == old(settings) && asteroidsArray == old(asteroidsArray)
        && savedState == old(savedState) && trace == old(trace)
      ensures ClampComplexity(requested) != old(complexity) ==>
        && settings == ApplyProfile(old(settings), GetMutableParameters(complexity))
        && asteroidsArray.None? && savedState.None?
        && trace == old(trace) + ComplexityChangeEvents(old(contextInitialized), old(asteroidsArray).Some?)
      ensures frames == old(frames) && parallelRenderingEnabled == old(parallelRenderingEnabled)
      ensures contextInitialized == old(contextInitialized)
    {
      var level := ClampComplexity(requested);
      if complexity == level {
        return;
      }
      var before := trace;
      if contextInitialized {
        trace := trace + [RenderCompleteWaited];
      }
      complexity := level;
      settings := ApplyProfile(settings, GetMutableParameters(complexity));
      if asteroidsArray.Some? {
        trace := trace + [AsteroidsArrayReleased];
      }
      asteroidsArray := None;
      savedState := None;
      if contextInitialized {
        trace := trace + [ContextReset];
      }
      trace := trace + [ParametersTextUpdated];
      assert trace == before + ComplexityChangeEvents(contextInitialized, old(asteroidsArray).Some?);
    }

    /** Switch between parallel and serial recording of the asteroids. An
        unchanged flag does nothing; otherwise every frame's execute set is
        rebuilt for the new mode. */
    method SetParallelRenderingEnabled(enabled: bool)
      requires Valid()
      modifies this, frames
      ensures Valid()
      ensures parallelRenderingEnabled == enabled && frames == old(frames)
      ensures enabled == old(parallelRenderingEnabled) ==> frames[..] == old(frames[..]) && trace == old(trace)
      ensures enabled != old(parallelRenderingEnabled) ==>
        frames[..] == RebuildExecuteSets(old(frames[..]), enabled) && trace == old(trace) + [ParametersTextUpdated]
      ensures complexity == old(complexity) && settings == old(settings)
      ensures asteroidsArray == old(asteroidsArray) && savedState == old(savedState)
      ensures contextInitialized == old(contextInitialized)
    {
      if parallelRenderingEnabled == enabled {
        return;
      }
      ghost var before := frames[..];
      RebuildMakesFramesReady(before, parallelRenderingEnabled, enabled);
      parallelRenderingEnabled := enabled;
      var i := 0;
      while i < frames.Length
        modifies frames
        invariant 0 <= i <= frames.Length
        invariant forall k :: 0 <= k < i ==> frames[k] == RebuildExecuteSets(before, enabled)[k]
        invariant forall k :: i <= k < frames.Length ==> frames[k] == before[k]
      {
        frames[i] := frames[i].(executeCmdListSet := CreateExecuteCommandListSet(frames[i], enabled));
        i := i + 1;
      }
      assert frames[..] == RebuildExecuteSets(before, enabled);
      trace := trace + [ParametersTextUpdated];
    }

    /** The array, or the failed check when there is none. */
    method GetAsteroidsArray() returns (r: Result<AsteroidsArray>)
      ensures asteroidsArray.Some? ==> r == Success(asteroidsArray.value)
      ensures asteroidsArray.None? ==> r == Failure(AsteroidsArrayMissing)
    {
      if asteroidsArray.None? {
        return Failure(AsteroidsArrayMissing);
      }
      return Success(asteroidsArray.value);
    }

    /** Render one frame. `baseRendered` is what the base application's
        `Render` returned and `currentFrame` the index of its current frame. */
    method Render(baseRendered: bool, currentFrame: nat) returns (r: RenderResult)
      requires Valid()
      requires baseRendered ==> currentFrame < frames.Length
      modifies this`trace
      ensures !baseRendered ==> r == Skipped && trace == old(trace)
      ensures baseRendered && asteroidsArray.None? ==>
        r == Failed(AsteroidsArrayMissing) && trace == old(trace) + [SceneUniformsUploaded(currentFrame)]
      ensures baseRendered && asteroidsArray.Some? ==>
        && r == Rendered
        && trace == old(trace) + RenderEvents(frames[currentFrame], parallelRenderingEnabled)
    {
      if !baseRendered {
        return Skipped;
      }
      var frame := frames[currentFrame];
      var before := trace;
      trace := trace + [SceneUniformsUploaded(frame.index)];
      var asteroids := GetAsteroidsArray();
      if asteroids.Failure? {
        return Failed(asteroids.error);
      }
      if parallelRenderingEnabled {
        trace := trace + [Drawn(AsteroidsParallel, frame.parallelCmdList), Committed(frame.parallelCmdList)];
      } else {
        trace := trace + [Drawn(AsteroidsSerial, frame.serialCmdList), Committed(frame.serialCmdList)];
      }
      trace := trace + [Drawn(Planet, frame.finalCmdList), Drawn(SkyBox, frame.finalCmdList)];
      trace := trace + [Drawn(Overlay, frame.finalCmdList)];
      trace := trace + [Committed(frame.finalCmdList)];
      trace := trace + [Executed(frame.executeCmdListSet), Presented];
      assert trace == before + RenderEvents(frame, parallelRenderingEnabled);
      return Rendered;
    }
  }

  /** A change of level is followed by the context reset, which releases
      and initialises the context again: the array is then built fresh, from
      settings that carry the new level's row. */
  method ChangeComplexityAndReset(app: AsteroidsApp, requested: uint32)
    requires app.Valid() && app.contextInitialized && ClampComplexity(requested) != app.complexity
    modifies app
    ensures app.Valid() && app.contextInitialized
    ensures app.complexity == ClampComplexity(requested)
    ensures ProfileApplied(app.settings, GetMutableParameters(requested))
    ensures app.asteroidsArray == Some(CreateAsteroidsArray(app.settings, None))
    ensures !app.asteroidsArray.value.restored && app.asteroidsArray.value.state == FieldState(app.settings)
  {
    app.SetAsteroidsComplexity(requested);
    app.OnContextReleased();
    app.Init();
  }

  /** Releasing and initialising the context with no change of level keeps
      the field: the new array reuses the state of the old one. */
  method ReleaseAndReinit(app: AsteroidsApp)
    requires app.Valid() && app.asteroidsArray.Some?
    modifies app
    ensures app.Valid() && app.contextInitialized
    ensures app.complexity == old(app.complexity) && app.settings == old(app.settings)
    ensures app.asteroidsArray.Some? && app.asteroidsArray.value.restored
    ensures app.asteroidsArray.value.state == old(app.asteroidsArray).value.state
  {
    app.OnContextReleased();
    app.Init();
  }
}
