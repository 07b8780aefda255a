/** The keyboard controller of the asteroids application: it turns a key
    binding's action into a call on the application or on its asteroids
    array. */
module Controller {
  import opened Profiles
  import opened CommandLists
  import opened Events
  import opened Outcomes
  import opened Actions
  import opened App

  /** The three actions that act on the asteroids array rather than on the
      application. */
  predicate IsArrayAction(a: AppAction) {
    a == SwitchMeshLodsColoring || a == IncreaseMeshLodComplexity || a == DecreaseMeshLodComplexity
  }

  /** The array after an array action: the LOD colouring flag flips, or the
      minimum LOD screen size is halved (more detail) or doubled (less). */
  function ArrayAfter(a: AppAction, arr: AsteroidsArray): (r: AsteroidsArray)
    ensures r.settings == arr.settings && r.state == arr.state && r.restored == arr.restored
  {
    match a
    case SwitchMeshLodsColoring => arr.(meshLodColoringEnabled := !arr.meshLodColoringEnabled)
    case IncreaseMeshLodComplexity => arr.(minMeshLodScreenSize := arr.minMeshLodScreenSize / 2.0)
    case DecreaseMeshLodComplexity => arr.(minMeshLodScreenSize := arr.minMeshLodScreenSize * 2.0)
    case _ => arr
  }

  /** Switching the colouring twice restores it; raising the LOD detail and
      then lowering it, in either order, restores the threshold; raising
      the detail lowers a positive threshold, lowering it raises one; the
      other actions leave the array alone. */
  lemma ArrayActionsInvert(arr: AsteroidsArray, a: AppAction)
    ensures ArrayAfter(SwitchMeshLodsColoring, ArrayAfter(SwitchMeshLodsColoring, arr)) == arr
    ensures ArrayAfter(DecreaseMeshLodComplexity, ArrayAfter(IncreaseMeshLodComplexity, arr)) == arr
    ensures ArrayAfter(IncreaseMeshLodComplexity, ArrayAfter(DecreaseMeshLodComplexity, arr)) == arr
    ensures arr.minMeshLodScreenSize > 0.0 ==>
      && ArrayAfter(IncreaseMeshLodComplexity, arr).minMeshLodScreenSize < arr.minMeshLodScreenSize
      && ArrayAfter(DecreaseMeshLodComplexity, arr).minMeshLodScreenSize > arr.minMeshLodScreenSize
    ensures !IsArrayAction(a) ==> ArrayAfter(a, arr) == arr
  {
  }

  class AsteroidsAppController {
    const app: AsteroidsApp

    constructor (app: AsteroidsApp)
      ensures this.app == app
    {
      this.app := app;
    }

    /** Carry out the action with enumerator value `code`. The level is read
        before the action. An unknown value is an unexpected-value failure
        that changes nothing; an array action with no array is the failed
        not-null check, also changing nothing. */
    method OnKeyboardStateAction(code: uint32) returns (r: Outcome)
      requires app.Valid()
      modifies app, app.frames
      ensures app.Valid() && app.frames == old(app.frames)
      ensures ActionOf(code).None? ==>
        r == Fail(UnexpectedAction(code as int)) && unchanged(app) && app.frames[..] == old(app.frames[..])
      ensures ActionOf(code).Some? ==>
        var a := ActionOf(code).value;
        && app.complexity == ComplexityAfter(a, old(app.complexity))
        && app.parallelRenderingEnabled == ParallelRenderingAfter(a, old(app.parallelRenderingEnabled))
        && app.contextInitialized == old(app.contextInitialized)
        && (a == SwitchParallelRendering ==>
              && r == Pass
              && app.frames[..] == RebuildExecuteSets(old(app.frames[..]), app.parallelRenderingEnabled)
              && app.trace == old(app.trace) + [ParametersTextUpdated]
              && app.settings == old(app.settings) && app.asteroidsArray == old(app.asteroidsArray)
              && app.savedState == old(app.savedState))
        && (IsArrayAction(a) ==>
              && app.frames[..] == old(app.frames[..])
              && app.trace == old(app.trace) && app.settings == old(app.settings)
              && app.savedState == old(app.savedState)
              && (old(app.asteroidsArray).None? ==> r == Fail(AsteroidsArrayMissing) && app.asteroidsArray.None?)
              && (old(app.asteroidsArray).Some? ==>
                    r == Pass && app.asteroidsArray == Some(ArrayAfter(a, old(app.asteroidsArray).value))))
        && (RequestedComplexity(a, old(app.complexity)).Some? ==>
              && r == Pass
              && app.frames[..] == old(app.frames[..])
              && (app.complexity == old(app.complexity) ==>
                    && app.settings == old(app.settings) && app.asteroidsArray == old(app.asteroidsArray)
                    && app.savedState == old(app.savedState) && app.trace == old(app.trace))
              && (app.complexity != old(app.complexity) ==>
                    && app.settings == ApplyProfile(old(app.settings), GetMutableParameters(app.complexity))
                    && app.asteroidsArray.None? && app.savedState.None?
                    && app.trace == old(app.trace)
                         + ComplexityChangeEvents(old(app.contextInitialized), old(app.asteroidsArray).Some?)))
    {
      var decoded := ActionOf(code);
      if decoded.None? {
        return Fail(UnexpectedAction(code as int));
      }
      var action := decoded.value;
      var complexity := app.complexity;
      if action == SwitchParallelRendering {
        app.SetParallelRenderingEnabled(!app.parallelRenderingEnabled);
        r := Pass;
      } else if IsArrayAction(action) {
        r := ApplyArrayAction(action);
      } else {
        ApplyLevelAction(action, complexity);
        r := Pass;
      }
    }

    /** The three array actions, each through the array's not-null check. */
    method ApplyArrayAction(action: AppAction) returns (r: Outcome)
      requires app.Valid() && IsArrayAction(action)
      modifies app
      ensures app.Valid()
      ensures app.complexity == old(app.complexity) && app.parallelRenderingEnabled == old(app.parallelRenderingEnabled)
      ensures app.frames == old(app.frames) && app.contextInitialized == old(app.contextInitialized)
      ensures app.trace == old(app.trace) && app.settings == old(app.settings) && app.savedState == old(app.savedState)
      ensures old(app.asteroidsArray).None? ==> r == Fail(AsteroidsArrayMissing) && app.asteroidsArray.None?
      ensures old(app.asteroidsArray).Some? ==>
        r == Pass && app.asteroidsArray == Some(ArrayAfter(action, old(app.asteroidsArray).value))
    {
      var arr := app.GetAsteroidsArray();
      if arr.Failure? {
        return Fail(arr.error);
      }
      match action {
        case SwitchMeshLodsColoring =>
          app.asteroidsArray := Some(arr.value.(meshLodColoringEnabled := !arr.value.meshLodColoringEnabled));
        case IncreaseMeshLodComplexity =>
          app.asteroidsArray := Some(arr.value.(minMeshLodScreenSize := arr.value.minMeshLodScreenSize / 2.0));
        case DecreaseMeshLodComplexity =>
          app.asteroidsArray := Some(arr.value.(minMeshLodScreenSize := arr.value.minMeshLodScreenSize * 2.0));
      }
      return Pass;
    }

    /** The actions that ask the application for a level, computed from the
        level read before the action. */
    method ApplyLevelAction(action: AppAction, complexity: uint32)
      requires app.Valid() && complexity == app.complexity && RequestedComplexity(action, complexity).Some?
      modifies app
      ensures app.Valid()
      ensures app.complexity == ComplexityAfter(action, complexity)
      ensures app.parallelRenderingEnabled == old(app.parallelRenderingEnabled)
      ensures app.frames == old(app.frames) && app.contextInitialized == old(app.contextInitialized)
      ensures app.complexity == old(app.complexity) ==>
        && app.settings == old(app.settings) && app.asteroidsArray == old(app.asteroidsArray)
        && app.savedState == old(app.savedState) && app.trace == old(app.trace)
      ensures app.complexity != old(app.complexity) ==>
        && app.settings == ApplyProfile(old(app.settings), GetMutableParameters(app.complexity))
        && app.asteroidsArray.None? && app.savedState.None?
        && app.trace == old(app.trace) + ComplexityChangeEvents(old(app.contextInitialized), old(app.asteroidsArray).Some?)
    {
      match action {
        case IncreaseComplexity =>
          app.SetAsteroidsComplexity(AddU32(complexity, 1));
        case DecreaseComplexity =>
          app.SetAsteroidsComplexity(if complexity > 1 then complexity - 1 else 0);
        case SetComplexity0 | SetComplexity1 | SetComplexity2 | SetComplexity3 | SetComplexity4
           | SetComplexity5 | SetComplexity6 | SetComplexity7 | SetComplexity8 | SetComplexity9 =>
          app.SetAsteroidsComplexity(SubU32(Ordinal(action), Ordinal(SetComplexity0)));
      }
    }

    /** A key press in the single-key state bound in the key table: the
        action of that key is carried out. A digit key selects its level. */
    method OnKeyPressed(key: Key) returns (r: Outcome)
      requires app.Valid()
      modifies app, app.frames
      ensures app.Valid()
      ensures key in ACTION_BY_KEYBOARD_STATE
      ensures ACTION_BY_KEYBOARD_STATE[key] == SwitchParallelRendering ==>
        app.parallelRenderingEnabled == !old(app.parallelRenderingEnabled)
      ensures forall k :: 0 <= k <= MAX_COMPLEXITY && key == NumKey(k) ==> app.complexity == k && r == Pass
    {
      TableInvertsKeyOf(key);
      var action := ACTION_BY_KEYBOARD_STATE[key];
      OrdinalRoundTrip(action, Ordinal(action));
      r := OnKeyboardStateAction(Ordinal(action));
      forall k | 0 <= k <= MAX_COMPLEXITY && key == NumKey(k) ensures app.complexity == k {
        NumKeySelectsLevel(k, old(app.complexity));
      }
    }
  }
}
