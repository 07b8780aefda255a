/** The side effects of the application on the GPU and the display, as
    entries of an event trace, and the orderings those traces keep. */
module Events {
  import opened CommandLists

  /** What is recorded into a command list. */
  datatype Pass = AsteroidsParallel | AsteroidsSerial | Planet | SkyBox | Overlay

  datatype Event =
    | RenderCompleteWaited              // WaitForRenderComplete()
    | ContextReset                      // GetRenderContext().Reset()
    | ParametersTextUpdated             // UpdateParametersText()
    | AsteroidsArrayReleased            // the asteroids array and its GPU resources are destroyed
    | SceneUniformsUploaded(frameIndex: nat)
    | Drawn(pass: Pass, list: CommandList)
    | Committed(list: CommandList)
    | Executed(listSet: CommandListSet)     // render_cmd_queue.Execute(...)
    | Presented                         // GetRenderContext().Present()

  /** How many times `e` occurs in `trace`. */
  function Count(trace: seq<Event>, e: Event): nat {
    if trace == [] then 0 else (if trace[0] == e then 1 else 0) + Count(trace[1..], e)
  }

  lemma {:induction false} CountAppend(a: seq<Event>, b: seq<Event>, e: Event)
    ensures Count(a + b, e) == Count(a, e) + Count(b, e)
  {
    if a == [] {
      assert a + b == b;
    } else {
      assert (a + b)[1..] == a[1..] + b;
      CountAppend(a[1..], b, e);
    }
  }

  /** `a` occurs somewhere before `b`. */
  ghost predicate Precedes(trace: seq<Event>, a: Event, b: Event) {
    exists i, j :: 0 <= i < j < |trace| && trace[i] == a && trace[j] == b
  }

  /** Every list of an executed set was committed earlier in the trace. */
  ghost predicate CommittedBeforeExecuted(trace: seq<Event>) {
    forall i, k :: 0 <= i < |trace| && trace[i].Executed? && 0 <= k < |trace[i].listSet.lists| ==>
      Committed(trace[i].listSet.lists[k]) in trace[..i]
  }

  /** Nothing is drawn into a list once it has been committed. */
  ghost predicate NoDrawAfterCommit(trace: seq<Event>) {
    forall i, j :: 0 <= i < j < |trace| && trace[i].Committed? && trace[j].Drawn? ==>
      trace[j].list != trace[i].list
  }

  // ---------------------------------------------------------------------
  // One rendered frame

  /** The events of one rendered frame, in order: upload the scene uniforms
      and record and commit the asteroids list of the current mode; record
      the planet, the sky-box and the overlay into the final list; commit
      the final list, execute the frame's set and present. */
  function RenderEvents(frame: AsteroidsFrame, parallelRenderingEnabled: bool): seq<Event> {
    var asteroids := AsteroidsCmdList(frame, parallelRenderingEnabled);
    [ SceneUniformsUploaded(frame.index),
      Drawn(if parallelRenderingEnabled then AsteroidsParallel else AsteroidsSerial, asteroids),
      Committed(asteroids) ]
    + [ Drawn(Planet, frame.finalCmdList),
        Drawn(SkyBox, frame.finalCmdList),
        Drawn(Overlay, frame.finalCmdList) ]
    + [ Committed(frame.finalCmdList),
        Executed(frame.executeCmdListSet),
        Presented ]
  }

  function Occurs(x: Event, e: Event): nat { if x == e then 1 else 0 }

  lemma CountTriple(a: Event, b: Event, c: Event, e: Event)
    ensures Count([a, b, c], e) == Occurs(a, e) + Occurs(b, e) + Occurs(c, e)
  {
    assert [a, b, c][1..] == [b, c];
    assert [b, c][1..] == [c];
    assert [c][1..] == [];
    assert Count([c], e) == Occurs(c, e) + Count([], e);
    assert Count([b, c], e) == Occurs(b, e) + Count([c], e);
    assert Count([a, b, c], e) == Occurs(a, e) + Count([b, c], e);
  }

  /** The count of an event in a rendered frame, one term per step. */
  lemma CountRenderEvents(frame: AsteroidsFrame, parallelRenderingEnabled: bool, e: Event)
    ensures var asteroids := AsteroidsCmdList(frame, parallelRenderingEnabled);
      Count(RenderEvents(frame, parallelRenderingEnabled), e)
      == Occurs(SceneUniformsUploaded(frame.index), e)
       + Occurs(Drawn(if parallelRenderingEnabled then AsteroidsParallel else AsteroidsSerial, asteroids), e)
       + Occurs(Committed(asteroids), e)
       + Occurs(Drawn(Planet, frame.finalCmdList), e)
       + Occurs(Drawn(SkyBox, frame.finalCmdList), e)
       + Occurs(Drawn(Overlay, frame.finalCmdList), e)
       + Occurs(Committed(frame.finalCmdList), e)
       + Occurs(Executed(frame.executeCmdListSet), e)
       + Occurs(Presented, e)
  {
    var asteroids := AsteroidsCmdList(frame, parallelRenderingEnabled);
    var a := [ SceneUniformsUploaded(frame.index),
               Drawn(if parallelRenderingEnabled then AsteroidsParallel else AsteroidsSerial, asteroids),
               Committed(asteroids) ];
    var b := [ Drawn(Planet, frame.finalCmdList), Drawn(SkyBox, frame.finalCmdList), Drawn(Overlay, frame.finalCmdList) ];
    var c := [ Committed(frame.finalCmdList), Executed(frame.executeCmdListSet), Presented ];
    assert RenderEvents(frame, parallelRenderingEnabled) == a + b + c;
    CountAppend(a + b, c, e);
    CountAppend(a, b, e);
    CountTriple(a[0], a[1], a[2], e);
    CountTriple(b[0], b[1], b[2], e);
    CountTriple(c[0], c[1], c[2], e);
  }

  /** A frame commits exactly the asteroids list of its mode and never the
      other; it commits the final list once, executes once and presents
      once. */
  lemma RenderCommitsOneAsteroidsList(frame: AsteroidsFrame, parallelRenderingEnabled: bool)
    requires ListsCreated(frame)
    ensures var trace := RenderEvents(frame, parallelRenderingEnabled);
      && Count(trace, Committed(frame.parallelCmdList)) == (if parallelRenderingEnabled then 1 else 0)
      && Count(trace, Committed(frame.serialCmdList)) == (if parallelRenderingEnabled then 0 else 1)
      && Count(trace, Committed(frame.finalCmdList)) == 1
      && Count(trace, Executed(frame.executeCmdListSet)) == 1
      && Count(trace, Presented) == 1
  {
    CountRenderEvents(frame, parallelRenderingEnabled, Committed(frame.parallelCmdList));
    CountRenderEvents(frame, parallelRenderingEnabled, Committed(frame.serialCmdList));
    CountRenderEvents(frame, parallelRenderingEnabled, Committed(frame.finalCmdList));
    CountRenderEvents(frame, parallelRenderingEnabled, Executed(frame.executeCmdListSet));
    CountRenderEvents(frame, parallelRenderingEnabled, Presented);
  }

  /** The asteroids pass is recorded before the planet, the planet before
      the sky-box and the sky-box before the overlay; the final list is
      committed before the set is executed, and presenting comes after
      executing. */
  lemma RenderOrdering(frame: AsteroidsFrame, parallelRenderingEnabled: bool)
    ensures var trace := RenderEvents(frame, parallelRenderingEnabled);
      var asteroids := AsteroidsCmdList(frame, parallelRenderingEnabled);
      && Precedes(trace, Committed(asteroids), Drawn(Planet, frame.finalCmdList))
      && Precedes(trace, Drawn(Planet, frame.finalCmdList), Drawn(SkyBox, frame.finalCmdList))
      && Precedes(trace, Drawn(SkyBox, frame.finalCmdList), Drawn(Overlay, frame.finalCmdList))
      && Precedes(trace, Committed(frame.finalCmdList), Executed(frame.executeCmdListSet))
      && Precedes(trace, Executed(frame.executeCmdListSet), Presented)
  {
    var trace := RenderEvents(frame, parallelRenderingEnabled);
    assert trace[2] == Committed(AsteroidsCmdList(frame, parallelRenderingEnabled)) && trace[3] == Drawn(Planet, frame.finalCmdList);
    assert trace[4] == Drawn(SkyBox, frame.finalCmdList) && trace[5] == Drawn(Overlay, frame.finalCmdList);
    assert trace[6] == Committed(frame.finalCmdList) && trace[7] == Executed(frame.executeCmdListSet) && trace[8] == Presented;
  }

  /** In a frame whose execute set matches its mode, every list of the
      executed set was committed before the set is executed. */
  lemma RenderCommitsBeforeExecuting(frame: AsteroidsFrame, parallelRenderingEnabled: bool)
    requires ExecuteSetMatches(frame, parallelRenderingEnabled)
    ensures CommittedBeforeExecuted(RenderEvents(frame, parallelRenderingEnabled))
  {
    var trace := RenderEvents(frame, parallelRenderingEnabled);
    assert trace[2] == Committed(AsteroidsCmdList(frame, parallelRenderingEnabled));
    assert trace[6] == Committed(frame.finalCmdList) && trace[7] == Executed(frame.executeCmdListSet);
    forall i, k | 0 <= i < |trace| && trace[i].Executed? && 0 <= k < |trace[i].listSet.lists|
      ensures Committed(trace[i].listSet.lists[k]) in trace[..i]
    {
      assert i == 7;
      assert trace[..7][2] == trace[2] && trace[..7][6] == trace[6];
    }
  }

  /** In a frame whose lists have been created, nothing is drawn into a
      list after it is committed. */
  lemma RenderNoDrawAfterCommit(frame: AsteroidsFrame, parallelRenderingEnabled: bool)
    requires ListsCreated(frame)
    ensures NoDrawAfterCommit(RenderEvents(frame, parallelRenderingEnabled))
  {
    var trace := RenderEvents(frame, parallelRenderingEnabled);
    assert trace[0].SceneUniformsUploaded? && trace[1].Drawn? && trace[2] == Committed(AsteroidsCmdList(frame, parallelRenderingEnabled));
    assert trace[3].list == frame.finalCmdList && trace[4].list == frame.finalCmdList && trace[5].list == frame.finalCmdList;
    assert trace[6] == Committed(frame.finalCmdList) && trace[7].Executed? && trace[8].Presented?;
  }

  // ---------------------------------------------------------------------
  // A change of complexity

  /** The events of a change of complexity level: drain the GPU if the
      context is up, release the array if there is one, reset the context
      if it is up, and refresh the parameters text. */
  function ComplexityChangeEvents(contextInitialized: bool, arrayPresent: bool): seq<Event> {
    (if contextInitialized then [RenderCompleteWaited] else [])
    + (if arrayPresent then [AsteroidsArrayReleased] else [])
    + (if contextInitialized then [ContextReset] else [])
    + [ParametersTextUpdated]
  }

  /** The GPU is drained and the context reset exactly when the context is
      initialised; the array is released exactly when it existed; a drain
      comes before the release, and the release before the reset. */
  lemma DrainBeforeRelease(contextInitialized: bool, arrayPresent: bool)
    ensures var trace := ComplexityChangeEvents(contextInitialized, arrayPresent);
      && (RenderCompleteWaited in trace <==> contextInitialized)
      && (ContextReset in trace <==> contextInitialized)
      && (AsteroidsArrayReleased in trace <==> arrayPresent)
      && (contextInitialized && arrayPresent ==>
            Precedes(trace, RenderCompleteWaited, AsteroidsArrayReleased)
            && Precedes(trace, AsteroidsArrayReleased, ContextReset))
      && (contextInitialized ==> Precedes(trace, RenderCompleteWaited, ContextReset))
      && trace[|trace| - 1] == ParametersTextUpdated
  {
    var trace := ComplexityChangeEvents(contextInitialized, arrayPresent);
    if contextInitialized && arrayPresent {
      assert trace[0] == RenderCompleteWaited && trace[1] == AsteroidsArrayReleased && trace[2] == ContextReset;
    } else if contextInitialized {
      assert trace[0] == RenderCompleteWaited && trace[1] == ContextReset;
    }
  }
}
