/** Per-frame command lists and the set of lists each frame submits. GPU
    command lists are modelled as tokens naming their role and their frame. */
module CommandLists {

  /** The three lists a frame owns, named after their debug names. */
  datatype ListKind = ParallelRendering | SerialRendering | FinalRendering

  /** A command list handle; `Unset` is a default-constructed handle that no
      list has been created for yet. */
  datatype CommandList = Unset | CommandList(kind: ListKind, frameIndex: nat)

  /** An ordered set of command lists executed together, tagged with the
      index of the frame it belongs to. */
  datatype CommandListSet = CommandListSet(lists: seq<CommandList>, frameIndex: nat)

  /** The part of a frame's resources that orchestration touches. */
  datatype AsteroidsFrame = AsteroidsFrame(
    index: nat,
    parallelCmdList: CommandList,
    serialCmdList: CommandList,
    finalCmdList: CommandList,
    executeCmdListSet: CommandListSet)

  /** The list that holds the asteroids pass in one mode or the other. */
  function AsteroidsCmdList(frame: AsteroidsFrame, parallelRenderingEnabled: bool): CommandList {
    if parallelRenderingEnabled then frame.parallelCmdList else frame.serialCmdList
  }

  /** The two-element set a frame executes: the asteroids list of the current
      mode, then the final list. */
  function CreateExecuteCommandListSet(frame: AsteroidsFrame, parallelRenderingEnabled: bool): (s: CommandListSet)
    ensures |s.lists| == 2
    ensures s.lists[0] == AsteroidsCmdList(frame, parallelRenderingEnabled)
    ensures s.lists[1] == frame.finalCmdList
    ensures s.frameIndex == frame.index
  {
    CommandListSet([AsteroidsCmdList(frame, parallelRenderingEnabled), frame.finalCmdList], frame.index)
  }

  /** A frame as the base application creates it: an index, no lists. */
  function BlankFrame(index: nat): AsteroidsFrame {
    AsteroidsFrame(index, Unset, Unset, Unset, CommandListSet([], index))
  }

  /** The three lists of a frame have been created, one of each kind, all
      belonging to that frame. */
  ghost predicate ListsCreated(frame: AsteroidsFrame) {
    && frame.parallelCmdList == CommandList(ParallelRendering, frame.index)
    && frame.serialCmdList == CommandList(SerialRendering, frame.index)
    && frame.finalCmdList == CommandList(FinalRendering, frame.index)
  }

  /** The frame's execute set is the one its mode calls for. */
  ghost predicate ExecuteSetMatches(frame: AsteroidsFrame, parallelRenderingEnabled: bool) {
    frame.executeCmdListSet == CreateExecuteCommandListSet(frame, parallelRenderingEnabled)
  }

  /** Every frame sits at its own index, has its lists and executes the set
      of the given mode. */
  ghost predicate FramesReady(frames: seq<AsteroidsFrame>, parallelRenderingEnabled: bool) {
    forall i :: 0 <= i < |frames| ==>
      frames[i].index == i && ListsCreated(frames[i]) && ExecuteSetMatches(frames[i], parallelRenderingEnabled)
  }

  /** Exactly one of the two asteroids lists is submitted, the one of the
      current mode, and the final list always is; it comes second. */
  lemma ExecuteSetSelectsOneAsteroidsList(frame: AsteroidsFrame, parallelRenderingEnabled: bool)
    requires ListsCreated(frame)
    ensures var s := CreateExecuteCommandListSet(frame, parallelRenderingEnabled);
      && (frame.parallelCmdList in s.lists <==> parallelRenderingEnabled)
      && (frame.serialCmdList in s.lists <==> !parallelRenderingEnabled)
      && frame.finalCmdList in s.lists
      && s.lists[0] != s.lists[1]
  {
  }

  /** The execute set of a frame determines the mode it was built for. */
  lemma ExecuteSetDeterminesMode(frame: AsteroidsFrame, a: bool, b: bool)
    requires ListsCreated(frame)
    ensures CreateExecuteCommandListSet(frame, a) == CreateExecuteCommandListSet(frame, b) <==> a == b
  {
    if CreateExecuteCommandListSet(frame, a) == CreateExecuteCommandListSet(frame, b) {
      assert CreateExecuteCommandListSet(frame, a).lists[0] == CreateExecuteCommandListSet(frame, b).lists[0];
    }
  }

  /** Every frame of `frames` with its execute set rebuilt for a mode; the
      loop of `SetParallelRenderingEnabled` computes this. */
  function RebuildExecuteSets(frames: seq<AsteroidsFrame>, parallelRenderingEnabled: bool): (r: seq<AsteroidsFrame>)
    ensures |r| == |frames|
  {
    seq(|frames|, i requires 0 <= i < |frames| =>
      frames[i].(executeCmdListSet := CreateExecuteCommandListSet(frames[i], parallelRenderingEnabled)))
  }

  /** Rebuilding keeps every frame's index and lists and makes the frames
      ready for the new mode. */
  lemma RebuildMakesFramesReady(frames: seq<AsteroidsFrame>, from: bool, to: bool)
    requires FramesReady(frames, from)
    ensures FramesReady(RebuildExecuteSets(frames, to), to)
    ensures forall i :: 0 <= i < |frames| ==>
      var f := RebuildExecuteSets(frames, to)[i];
      f.index == frames[i].index && f.parallelCmdList == frames[i].parallelCmdList
      && f.serialCmdList == frames[i].serialCmdList && f.finalCmdList == frames[i].finalCmdList
  {
  }

  /** Rebuilding frames for the mode they are already ready for changes
      nothing. */
  lemma RebuildForSameModeIsIdentity(frames: seq<AsteroidsFrame>, mode: bool)
    requires FramesReady(frames, mode)
    ensures RebuildExecuteSets(frames, mode) == frames
  {
    var r := RebuildExecuteSets(frames, mode);
    forall i | 0 <= i < |frames| ensures r[i] == frames[i] {
    }
  }

  /** Switching the mode away and back restores every frame's execute set. */
  lemma ToggleTwiceRestoresFrames(frames: seq<AsteroidsFrame>, mode: bool)
    requires FramesReady(frames, mode)
    ensures RebuildExecuteSets(RebuildExecuteSets(frames, !mode), mode) == frames
  {
    RebuildMakesFramesReady(frames, mode, !mode);
    var once := RebuildExecuteSets(frames, !mode);
    var twice := RebuildExecuteSets(once, mode);
    forall i | 0 <= i < |frames| ensures twice[i] == frames[i] {
    }
  }
}
