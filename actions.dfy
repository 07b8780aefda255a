/** The application's keyboard actions: their enumerator values, their
    names, the keys bound to them, and what each does to the application's
    complexity level and rendering mode. */
module Actions {
  import opened Profiles
  import opened Outcomes

  datatype AppAction =
    | SwitchParallelRendering
    | SwitchMeshLodsColoring
    | IncreaseMeshLodComplexity
    | DecreaseMeshLodComplexity
    | IncreaseComplexity
    | DecreaseComplexity
    | SetComplexity0 | SetComplexity1 | SetComplexity2 | SetComplexity3 | SetComplexity4
    | SetComplexity5 | SetComplexity6 | SetComplexity7 | SetComplexity8 | SetComplexity9

  /** The enumerator values, in declaration order. */
  function Ordinal(a: AppAction): uint32 {
    match a
    case SwitchParallelRendering => 0
    case SwitchMeshLodsColoring => 1
    case IncreaseMeshLodComplexity => 2
    case DecreaseMeshLodComplexity => 3
    case IncreaseComplexity => 4
    case DecreaseComplexity => 5
    case SetComplexity0 => 6
    case SetComplexity1 => 7
    case SetComplexity2 => 8
    case SetComplexity3 => 9
    case SetComplexity4 => 10
    case SetComplexity5 => 11
    case SetComplexity6 => 12
    case SetComplexity7 => 13
    case SetComplexity8 => 14
    case SetComplexity9 => 15
  }

  /** The enumerator a raw action value stands for, if any. */
  function ActionOf(code: uint32): Option<AppAction> {
    if code == 0 then Some(SwitchParallelRendering)
    else if code == 1 then Some(SwitchMeshLodsColoring)
    else if code == 2 then Some(IncreaseMeshLodComplexity)
    else if code == 3 then Some(DecreaseMeshLodComplexity)
    else if code == 4 then Some(IncreaseComplexity)
    else if code == 5 then Some(DecreaseComplexity)
    else if code == 6 then Some(SetComplexity0)
    else if code == 7 then Some(SetComplexity1)
    else if code == 8 then Some(SetComplexity2)
    else if code == 9 then Some(SetComplexity3)
    else if code == 10 then Some(SetComplexity4)
    else if code == 11 then Some(SetComplexity5)
    else if code == 12 then Some(SetComplexity6)
    else if code == 13 then Some(SetComplexity7)
    else if code == 14 then Some(SetComplexity8)
    else if code == 15 then Some(SetComplexity9)
    else None
  }

  /** Decoding and enumerator values are inverse, and exactly the values
      0..15 are enumerators. */
  lemma OrdinalRoundTrip(a: AppAction, code: uint32)
    ensures ActionOf(Ordinal(a)) == Some(a)
    ensures ActionOf(code).Some? ==> Ordinal(ActionOf(code).value) == code
    ensures ActionOf(code).None? <==> code >= 16
  {
  }

  // ---------------------------------------------------------------------
  // Names

  /** The help text of each action. */
  function ActionName(a: AppAction): string {
    match a
    case SwitchParallelRendering => "switch parallel rendering"
    case SwitchMeshLodsColoring => "switch mesh LOD coloring"
    case IncreaseMeshLodComplexity => "increase mesh LOD complexity"
    case DecreaseMeshLodComplexity => "decrease mesh LOD complexity"
    case IncreaseComplexity => "increase scene complexity"
    case DecreaseComplexity => "decrease scene complexity"
    case SetComplexity0 => "set 0 scene complexity"
    case SetComplexity1 => "set 1 scene complexity"
    case SetComplexity2 => "set 2 scene complexity"
    case SetComplexity3 => "set 3 scene complexity"
    case SetComplexity4 => "set 4 scene complexity"
    case SetComplexity5 => "set 5 scene complexity"
    case SetComplexity6 => "set 6 scene complexity"
    case SetComplexity7 => "set 7 scene complexity"
    case SetComplexity8 => "set 8 scene complexity"
    case SetComplexity9 => "set 9 scene complexity"
  }

  /** `GetKeyboardActionName`: the name of an enumerator, a failed check for
      any other value. */
  function GetKeyboardActionName(code: uint32): (r: Result<string>)
    ensures ActionOf(code).Some? ==> r == Success(ActionName(ActionOf(code).value))
    ensures ActionOf(code).None? ==> r == Failure(UnexpectedAction(code as int))
  {
    match ActionOf(code)
    case Some(a) => Success(ActionName(a))
    case None => Failure(UnexpectedAction(code as int))
  }

  /** No two actions share a name. */
  lemma ActionNamesDistinct(a: AppAction, b: AppAction)
    ensures a != b ==> ActionName(a) != ActionName(b)
  {
  }

  // ---------------------------------------------------------------------
  // Effect on the complexity level and the rendering mode

  /** uint32 arithmetic, wrapping modulo 2^32. */
  function AddU32(a: uint32, b: uint32): uint32 { ((a as int + b as int) % 0x1_0000_0000) as uint32 }
  function SubU32(a: uint32, b: uint32): uint32 { ((a as int - b as int) % 0x1_0000_0000) as uint32 }

  /** The level `OnKeyboardStateAction` asks `SetAsteroidsComplexity` for,
      given the current level; none for the actions that do not set it. */
  function RequestedComplexity(a: AppAction, current: uint32): Option<uint32> {
    match a
    case IncreaseComplexity => Some(AddU32(current, 1))
    case DecreaseComplexity => Some(if current > 1 then current - 1 else 0)
    case SetComplexity0 | SetComplexity1 | SetComplexity2 | SetComplexity3 | SetComplexity4
       | SetComplexity5 | SetComplexity6 | SetComplexity7 | SetComplexity8 | SetComplexity9 =>
      Some(SubU32(Ordinal(a), Ordinal(SetComplexity0)))
    case _ => None
  }

  /** The level after an action: the clamped request, or the current level. */
  function ComplexityAfter(a: AppAction, current: uint32): uint32 {
    match RequestedComplexity(a, current)
    case Some(level) => ClampComplexity(level)
    case None => current
  }

  /** The rendering mode after an action: only the switch flips it. */
  function ParallelRenderingAfter(a: AppAction, enabled: bool): bool {
    if a == SwitchParallelRendering then !enabled else enabled
  }

  /** Increasing goes one level up and saturates at the top: at 9 it changes
      nothing. */
  lemma IncreaseComplexitySaturates(current: uint32)
    requires current <= MAX_COMPLEXITY
    ensures ComplexityAfter(IncreaseComplexity, current) == if current < MAX_COMPLEXITY then current + 1 else current
  {
  }

  /** Decreasing never asks for a level above the current one nor wraps
      below zero; from a level in the table it goes one level down, and at
      0 it changes nothing. */
  lemma DecreaseComplexityStopsAtZero(current: uint32)
    ensures RequestedComplexity(DecreaseComplexity, current).value <= current
    ensures current > 0 ==> RequestedComplexity(DecreaseComplexity, current).value == current - 1
    ensures current <= MAX_COMPLEXITY ==>
      ComplexityAfter(DecreaseComplexity, current) == if current > 0 then current - 1 else 0
  {
  }

  /** Below the top, decreasing undoes increasing; above the bottom,
      increasing undoes decreasing. */
  lemma IncreaseDecreaseInverse(current: uint32)
    requires current <= MAX_COMPLEXITY
    ensures current < MAX_COMPLEXITY ==>
      ComplexityAfter(DecreaseComplexity, ComplexityAfter(IncreaseComplexity, current)) == current
    ensures current > 0 ==>
      ComplexityAfter(IncreaseComplexity, ComplexityAfter(DecreaseComplexity, current)) == current
  {
    IncreaseComplexitySaturates(current);
    DecreaseComplexityStopsAtZero(current);
    if current < MAX_COMPLEXITY {
      DecreaseComplexityStopsAtZero(current + 1);
    }
    if current > 0 {
      IncreaseComplexitySaturates(current - 1);
    }
  }

  /** The action that selects level `k`. */
  function SetComplexityAction(k: uint32): AppAction
    requires k <= MAX_COMPLEXITY
  {
    match k
    case 0 => SetComplexity0
    case 1 => SetComplexity1
    case 2 => SetComplexity2
    case 3 => SetComplexity3
    case 4 => SetComplexity4
    case 5 => SetComplexity5
    case 6 => SetComplexity6
    case 7 => SetComplexity7
    case 8 => SetComplexity8
    case _ => SetComplexity9
  }

  /** `SetComplexityK` ends at level `k` whatever the current level. */
  lemma SetComplexitySelectsLevel(k: uint32, current: uint32)
    requires k <= MAX_COMPLEXITY
    ensures RequestedComplexity(SetComplexityAction(k), current) == Some(k)
    ensures ComplexityAfter(SetComplexityAction(k), current) == k
  {
  }

  /** The four actions that neither set the level nor switch the mode leave
      both alone; the mode switch leaves the level alone and, done twice,
      restores the mode. */
  lemma OtherActionsKeepLevel(a: AppAction, current: uint32, enabled: bool)
    ensures RequestedComplexity(a, current).None? ==> ComplexityAfter(a, current) == current
    ensures RequestedComplexity(a, current).None? <==>
      a in {SwitchParallelRendering, SwitchMeshLodsColoring, IncreaseMeshLodComplexity, DecreaseMeshLodComplexity}
    ensures a != SwitchParallelRendering ==> ParallelRenderingAfter(a, enabled) == enabled
    ensures ParallelRenderingAfter(a, ParallelRenderingAfter(a, enabled)) == enabled
  {
  }

  // ---------------------------------------------------------------------
  // Keys

  datatype Key =
    | P | L | Apostrophe | Semicolon | RightBracket | LeftBracket
    | Num0 | Num1 | Num2 | Num3 | Num4 | Num5 | Num6 | Num7 | Num8 | Num9

  /** The key bound to each action; every binding is a single key. */
  const ACTION_BY_KEYBOARD_STATE: map<Key, AppAction> := map[
    P := SwitchParallelRendering,
    L := SwitchMeshLodsColoring,
    Apostrophe := IncreaseMeshLodComplexity,
    Semicolon := DecreaseMeshLodComplexity,
    RightBracket := IncreaseComplexity,
    LeftBracket := DecreaseComplexity,
    Num0 := SetComplexity0,
    Num1 := SetComplexity1,
    Num2 := SetComplexity2,
    Num3 := SetComplexity3,
    Num4 := SetComplexity4,
    Num5 := SetComplexity5,
    Num6 := SetComplexity6,
    Num7 := SetComplexity7,
    Num8 := SetComplexity8,
    Num9 := SetComplexity9
  ]

  /** The digit key for `k`. */
  function NumKey(k: uint32): Key
    requires k <= MAX_COMPLEXITY
  {
    match k
    case 0 => Num0
    case 1 => Num1
    case 2 => Num2
    case 3 => Num3
    case 4 => Num4
    case 5 => Num5
    case 6 => Num6
    case 7 => Num7
    case 8 => Num8
    case _ => Num9
  }

  /** Pressing the digit key `k` ends at level `k`. */
  lemma NumKeySelectsLevel(k: uint32, current: uint32)
    requires k <= MAX_COMPLEXITY
    ensures NumKey(k) in ACTION_BY_KEYBOARD_STATE
    ensures ACTION_BY_KEYBOARD_STATE[NumKey(k)] == SetComplexityAction(k)
    ensures ComplexityAfter(ACTION_BY_KEYBOARD_STATE[NumKey(k)], current) == k
  {
    SetComplexitySelectsLevel(k, current);
  }

  /** The key each action is bound to. */
  function KeyOf(a: AppAction): Key {
    match a
    case SwitchParallelRendering => P
    case SwitchMeshLodsColoring => L
    case IncreaseMeshLodComplexity => Apostrophe
    case DecreaseMeshLodComplexity => Semicolon
    case IncreaseComplexity => RightBracket
    case DecreaseComplexity => LeftBracket
    case SetComplexity0 => Num0
    case SetComplexity1 => Num1
    case SetComplexity2 => Num2
    case SetComplexity3 => Num3
    case SetComplexity4 => Num4
    case SetComplexity5 => Num5
    case SetComplexity6 => Num6
    case SetComplexity7 => Num7
    case SetComplexity8 => Num8
    case SetComplexity9 => Num9
  }

  /** Every key is in the table, bound to the action whose key it is. */
  lemma {:induction false} TableInvertsKeyOf(k: Key)
    ensures k in ACTION_BY_KEYBOARD_STATE && KeyOf(ACTION_BY_KEYBOARD_STATE[k]) == k
  {
    match k
    case P =>
    case L =>
    case Apostrophe =>
    case Semicolon =>
    case RightBracket =>
    case LeftBracket =>
    case Num0 =>
    case Num1 =>
    case Num2 =>
    case Num3 =>
    case Num4 =>
    case Num5 =>
    case Num6 =>
    case Num7 =>
    case Num8 =>
    case Num9 =>
  }

  /** Every action's key is bound to that action. */
  lemma KeyOfIsBound(a: AppAction)
    ensures KeyOf(a) in ACTION_BY_KEYBOARD_STATE && ACTION_BY_KEYBOARD_STATE[KeyOf(a)] == a
  {
    match a
    case SwitchParallelRendering =>
    case SwitchMeshLodsColoring =>
    case IncreaseMeshLodComplexity =>
    case DecreaseMeshLodComplexity =>
    case IncreaseComplexity =>
    case DecreaseComplexity =>
    case SetComplexity0 =>
    case SetComplexity1 =>
    case SetComplexity2 =>
    case SetComplexity3 =>
    case SetComplexity4 =>
    case SetComplexity5 =>
    case SetComplexity6 =>
    case SetComplexity7 =>
    case SetComplexity8 =>
    case SetComplexity9 =>
  }

  /** Every action is bound to exactly one key. */
  lemma KeyBindingsOneToOne(a: AppAction, k1: Key, k2: Key)
    ensures exists k :: k in ACTION_BY_KEYBOARD_STATE && ACTION_BY_KEYBOARD_STATE[k] == a
    ensures k1 != k2 ==> ACTION_BY_KEYBOARD_STATE[k1] != ACTION_BY_KEYBOARD_STATE[k2]
  {
    KeyOfIsBound(a);
    TableInvertsKeyOf(k1);
    TableInvertsKeyOf(k2);
  }
}
