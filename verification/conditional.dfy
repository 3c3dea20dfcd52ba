/** The code tables of the `Conditional` interface: the conditional's
    tri-state, the antecedent operators with their legacy codes, the action
    kinds with their codes and item types, the per-family action lists, and
    the trigger-option and item-type constants. */
module Conditional {
  import opened Wrappers
  import Search

  // ---------------------------------------------------------------- State

  /** `NamedBean.UNKNOWN`, the code `State.UNKNOWN` reuses. */
  const NAMED_BEAN_UNKNOWN: int := 0x01
  const FALSE: int := 0x02
  const TRUE: int := 0x04

  /** `Conditional.State`. */
  datatype State = Unknown | False | True

  /** `State.values()`. */
  function StateValues(): seq<State> { [Unknown, False, True] }

  /** `State.getIntValue()`: the three states carry the three distinct codes. */
  function StateIntValue(s: State): (r: int)
    ensures r in {NAMED_BEAN_UNKNOWN, FALSE, TRUE}
  {
    match s
    case Unknown => NAMED_BEAN_UNKNOWN
    case False => FALSE
    case True => TRUE
  }

  /** `State.getOperatorFromIntValue(n)`: the first state in `values()` whose
      code is `n`; `None` stands for the `IllegalArgumentException`. */
  function StateFromIntValue(n: int): (r: Option<State>)
    ensures r.Some? ==> StateIntValue(r.value) == n
    ensures r.None? ==> forall s: State :: StateIntValue(s) != n
  {
    assert StateValues()[0] == Unknown && StateValues()[1] == False && StateValues()[2] == True;
    Search.FindFirst(StateValues(), StateIntValue, n)
  }

  /** No two states share a code. */
  lemma StateCodesInjective(s: State, t: State)
    requires StateIntValue(s) == StateIntValue(t)
    ensures s == t
  {
  }

  /** Every state survives the trip through its code. */
  lemma StateRoundTrip(s: State)
    ensures StateFromIntValue(StateIntValue(s)) == Some(s)
  {
    forall t | t in StateValues() && StateIntValue(t) == StateIntValue(s) ensures t == s {
      StateCodesInjective(s, t);
    }
    Search.FindFirstUnique(StateValues(), StateIntValue, s);
  }

  /** Exactly the three state codes decode; every other `int` throws. */
  lemma StateFromIntValueDefined(n: int)
    ensures StateFromIntValue(n).Some? <==> n in {NAMED_BEAN_UNKNOWN, FALSE, TRUE}
  {
    if n == NAMED_BEAN_UNKNOWN { StateRoundTrip(Unknown); }
    else if n == FALSE { StateRoundTrip(False); }
    else if n == TRUE { StateRoundTrip(True); }
  }

  // ------------------------------------------------------------- Operator

  /** Logic types of the antecedent. */
  const ALL_AND: int := 0x01
  const ALL_OR: int := 0x02
  const MIXED: int := 0x03

  const OPERATOR_AND: int := 1
  const OPERATOR_NONE: int := 4
  const OPERATOR_OR: int := 5
  /** Deprecated codes, still accepted when reading old files. */
  const OPERATOR_NOT: int := 2
  const OPERATOR_AND_NOT: int := 3
  const OPERATOR_OR_NOT: int := 6

  /** `Conditional.Operator`. */
  datatype Operator = NoOperator | And | Or

  /** `Operator.getIntValue()`: only the three current codes are written, never
      a deprecated one, and each decodes back to its operator. */
  function OperatorIntValue(op: Operator): (r: int)
    ensures r in {OPERATOR_AND, OPERATOR_NONE, OPERATOR_OR}
    ensures r !in {OPERATOR_NOT, OPERATOR_AND_NOT, OPERATOR_OR_NOT}
    ensures OperatorFromIntValue(r) == Some(op)
  {
    match op
    case NoOperator => OPERATOR_NONE
    case And => OPERATOR_AND
    case Or => OPERATOR_OR
  }

  /** `Operator.getOperatorFromIntValue(n)`: the six codes 1..6 decode, the
      deprecated NOT, AND-NOT and OR-NOT collapsing to NONE, AND and OR;
      any other code throws (`None`). */
  function OperatorFromIntValue(n: int): (r: Option<Operator>)
    ensures r.Some? <==> 1 <= n <= 6
  {
    if n == OPERATOR_AND then Some(And)
    else if n == OPERATOR_NOT then Some(NoOperator)
    else if n == OPERATOR_AND_NOT then Some(And)
    else if n == OPERATOR_NONE then Some(NoOperator)
    else if n == OPERATOR_OR then Some(Or)
    else if n == OPERATOR_OR_NOT then Some(Or)
    else None
  }

  /** Reading a code and writing it back normalises it: the legacy codes are
      replaced by the current code of the operator they stand for, and reading
      the normalised code gives the same operator again. */
  lemma OperatorNormalisation(n: int)
    requires 1 <= n <= 6
    ensures OperatorIntValue(OperatorFromIntValue(n).value) ==
      (if n == OPERATOR_NOT then OPERATOR_NONE
       else if n == OPERATOR_AND_NOT then OPERATOR_AND
       else if n == OPERATOR_OR_NOT then OPERATOR_OR
       else n)
    ensures OperatorFromIntValue(OperatorIntValue(OperatorFromIntValue(n).value)) == OperatorFromIntValue(n)
  {
  }

  // --------------------------------------------------------------- Action

  /** The item types (entity families) the actions are grouped by. */
  datatype ItemType =
    | NoItem | Sensor | Turnout | Light | SignalHead | SignalMast | Memory
    | Logix | Warrant | Clock | OBlock | EntryExit | Audio | Script | Other

  /** `Conditional.Action`: the 53 action kinds, in declaration order. */
  datatype Action =
    NoAction
    | SetTurnout
    | SetSignalAppearance
    | SetSignalHeld
    | ClearSignalHeld
    | SetSignalDark
    | SetSignalLit
    | TriggerRoute
    | SetSensor
    | DelayedSensor
    | SetLight
    | SetMemory
    | EnableLogix
    | DisableLogix
    | PlaySound
    | RunScript
    | DelayedTurnout
    | LockTurnout
    | ResetDelayedSensor
    | CancelSensorTimers
    | ResetDelayedTurnout
    | CancelTurnoutTimers
    | SetFastClockTime
    | StartFastClock
    | StopFastClock
    | CopyMemory
    | SetLightIntensity
    | SetLightTransitionTime
    | ControlAudio
    | JythonCommand
    | AllocateWarrantRoute
    | DeallocateWarrantRoute
    | SetRouteTurnouts
    | AutoRunWarrant
    | ManualRunWarrant
    | ControlTrain
    | SetTrainId
    | SetTrainName
    | SetSignalMastAspect
    | ThrottleFactor
    | SetSignalMastHeld
    | ClearSignalMastHeld
    | SetSignalMastDark
    | SetSignalMastLit
    | SetBlockValue
    | SetBlockError
    | ClearBlockError
    | DeallocateBlock
    | SetBlockOutOfService
    | SetBlockInService
    | SetNxPairEnabled
    | SetNxPairDisabled
    | SetNxPairSegment

  /** The `ACTION_*` codes. */
  const ACTION_NONE: int := 1
  const ACTION_SET_TURNOUT: int := 2
  const ACTION_SET_SIGNAL_APPEARANCE: int := 3
  const ACTION_SET_SIGNAL_HELD: int := 4
  const ACTION_CLEAR_SIGNAL_HELD: int := 5
  const ACTION_SET_SIGNAL_DARK: int := 6
  const ACTION_SET_SIGNAL_LIT: int := 7
  const ACTION_TRIGGER_ROUTE: int := 8
  const ACTION_SET_SENSOR: int := 9
  const ACTION_DELAYED_SENSOR: int := 10
  const ACTION_SET_LIGHT: int := 11
  const ACTION_SET_MEMORY: int := 12
  const ACTION_ENABLE_LOGIX: int := 13
  const ACTION_DISABLE_LOGIX: int := 14
  const ACTION_PLAY_SOUND: int := 15
  const ACTION_RUN_SCRIPT: int := 16
  const ACTION_DELAYED_TURNOUT: int := 17
  const ACTION_LOCK_TURNOUT: int := 18
  const ACTION_RESET_DELAYED_SENSOR: int := 19
  const ACTION_CANCEL_SENSOR_TIMERS: int := 20
  const ACTION_RESET_DELAYED_TURNOUT: int := 21
  const ACTION_CANCEL_TURNOUT_TIMERS: int := 22
  const ACTION_SET_FAST_CLOCK_TIME: int := 23
  const ACTION_START_FAST_CLOCK: int := 24
  const ACTION_STOP_FAST_CLOCK: int := 25
  const ACTION_COPY_MEMORY: int := 26
  const ACTION_SET_LIGHT_INTENSITY: int := 27
  const ACTION_SET_LIGHT_TRANSITION_TIME: int := 28
  const ACTION_CONTROL_AUDIO: int := 29
  const ACTION_JYTHON_COMMAND: int := 30
  const ACTION_ALLOCATE_WARRANT_ROUTE: int := 31
  const ACTION_DEALLOCATE_WARRANT_ROUTE: int := 32
  const ACTION_SET_ROUTE_TURNOUTS: int := 33
  const ACTION_AUTO_RUN_WARRANT: int := 34
  const ACTION_CONTROL_TRAIN: int := 35
  const ACTION_SET_TRAIN_ID: int := 36
  const ACTION_SET_SIGNALMAST_ASPECT: int := 37
  const ACTION_THROTTLE_FACTOR: int := 38
  const ACTION_SET_SIGNALMAST_HELD: int := 39
  const ACTION_CLEAR_SIGNALMAST_HELD: int := 40
  const ACTION_SET_SIGNALMAST_DARK: int := 41
  const ACTION_SET_SIGNALMAST_LIT: int := 42
  const ACTION_SET_BLOCK_ERROR: int := 43
  const ACTION_CLEAR_BLOCK_ERROR: int := 44
  const ACTION_DEALLOCATE_BLOCK: int := 45
  const ACTION_SET_BLOCK_OUT_OF_SERVICE: int := 46
  const ACTION_SET_BLOCK_IN_SERVICE: int := 47
  const ACTION_MANUAL_RUN_WARRANT: int := 48
  const ACTION_SET_TRAIN_NAME: int := 49
  const ACTION_SET_BLOCK_VALUE: int := 50
  const ACTION_SET_NXPAIR_ENABLED: int := 51
  const ACTION_SET_NXPAIR_DISABLED: int := 52
  const ACTION_SET_NXPAIR_SEGMENT: int := 53

  /** `Action.values()`: every action in declaration order (written as a
      concatenation of short runs, which the verifier indexes more easily). */
  function ActionValues(): seq<Action> {
    [NoAction, SetTurnout, SetSignalAppearance, SetSignalHeld, ClearSignalHeld, SetSignalDark]
    + [SetSignalLit, TriggerRoute, SetSensor, DelayedSensor, SetLight, SetMemory]
    + [EnableLogix, DisableLogix, PlaySound, RunScript, DelayedTurnout, LockTurnout]
    + [ResetDelayedSensor, CancelSensorTimers, ResetDelayedTurnout, CancelTurnoutTimers, SetFastClockTime, StartFastClock]
    + [StopFastClock, CopyMemory, SetLightIntensity, SetLightTransitionTime, ControlAudio, JythonCommand]
    + [AllocateWarrantRoute, DeallocateWarrantRoute, SetRouteTurnouts, AutoRunWarrant, ManualRunWarrant, ControlTrain]
    + [SetTrainId, SetTrainName, SetSignalMastAspect, ThrottleFactor, SetSignalMastHeld, ClearSignalMastHeld]
    + [SetSignalMastDark, SetSignalMastLit, SetBlockValue, SetBlockError, ClearBlockError, DeallocateBlock]
    + [SetBlockOutOfService, SetBlockInService, SetNxPairEnabled, SetNxPairDisabled, SetNxPairSegment]
  }

  /** `Action.getIntValue()`: the action's `ACTION_*` code, one of 1..53. */
  function ActionIntValue(a: Action): (r: int)
    ensures 1 <= r <= 53
  {
    match a
    case NoAction => ACTION_NONE
    case SetTurnout => ACTION_SET_TURNOUT
    case SetSignalAppearance => ACTION_SET_SIGNAL_APPEARANCE
    case SetSignalHeld => ACTION_SET_SIGNAL_HELD
    case ClearSignalHeld => ACTION_CLEAR_SIGNAL_HELD
    case SetSignalDark => ACTION_SET_SIGNAL_DARK
    case SetSignalLit => ACTION_SET_SIGNAL_LIT
    case TriggerRoute => ACTION_TRIGGER_ROUTE
    case SetSensor => ACTION_SET_SENSOR
    case DelayedSensor => ACTION_DELAYED_SENSOR
    case SetLight => ACTION_SET_LIGHT
    case SetMemory => ACTION_SET_MEMORY
    case EnableLogix => ACTION_ENABLE_LOGIX
    case DisableLogix => ACTION_DISABLE_LOGIX
    case PlaySound => ACTION_PLAY_SOUND
    case RunScript => ACTION_RUN_SCRIPT
    case DelayedTurnout => ACTION_DELAYED_TURNOUT
    case LockTurnout => ACTION_LOCK_TURNOUT
    case ResetDelayedSensor => ACTION_RESET_DELAYED_SENSOR
    case CancelSensorTimers => ACTION_CANCEL_SENSOR_TIMERS
    case ResetDelayedTurnout => ACTION_RESET_DELAYED_TURNOUT
    case CancelTurnoutTimers => ACTION_CANCEL_TURNOUT_TIMERS
    case SetFastClockTime => ACTION_SET_FAST_CLOCK_TIME
    case StartFastClock => ACTION_START_FAST_CLOCK
    case StopFastClock => ACTION_STOP_FAST_CLOCK
    case CopyMemory => ACTION_COPY_MEMORY
    case SetLightIntensity => ACTION_SET_LIGHT_INTENSITY
    case SetLightTransitionTime => ACTION_SET_LIGHT_TRANSITION_TIME
    case ControlAudio => ACTION_CONTROL_AUDIO
    case JythonCommand => ACTION_JYTHON_COMMAND
    case AllocateWarrantRoute => ACTION_ALLOCATE_WARRANT_ROUTE
    case DeallocateWarrantRoute => ACTION_DEALLOCATE_WARRANT_ROUTE
    case SetRouteTurnouts => ACTION_SET_ROUTE_TURNOUTS
    case AutoRunWarrant => ACTION_AUTO_RUN_WARRANT
    case ManualRunWarrant => ACTION_MANUAL_RUN_WARRANT
    case ControlTrain => ACTION_CONTROL_TRAIN
    case SetTrainId => ACTION_SET_TRAIN_ID
    case SetTrainName => ACTION_SET_TRAIN_NAME
    case SetSignalMastAspect => ACTION_SET_SIGNALMAST_ASPECT
    case ThrottleFactor => ACTION_THROTTLE_FACTOR
    case SetSignalMastHeld => ACTION_SET_SIGNALMAST_HELD
    case ClearSignalMastHeld => ACTION_CLEAR_SIGNALMAST_HELD
    case SetSignalMastDark => ACTION_SET_SIGNALMAST_DARK
    case SetSignalMastLit => ACTION_SET_SIGNALMAST_LIT
    case SetBlockValue => ACTION_SET_BLOCK_VALUE
    case SetBlockError => ACTION_SET_BLOCK_ERROR
    case ClearBlockError => ACTION_CLEAR_BLOCK_ERROR
    case DeallocateBlock => ACTION_DEALLOCATE_BLOCK
    case SetBlockOutOfService => ACTION_SET_BLOCK_OUT_OF_SERVICE
    case SetBlockInService => ACTION_SET_BLOCK_IN_SERVICE
    case SetNxPairEnabled => ACTION_SET_NXPAIR_ENABLED
    case SetNxPairDisabled => ACTION_SET_NXPAIR_DISABLED
    case SetNxPairSegment => ACTION_SET_NXPAIR_SEGMENT
  }

  /** `Action.getItemType()`: only `NONE` belongs to no family. */
  function ActionItemType(a: Action): (r: ItemType)
    ensures r == NoItem <==> a == NoAction
  {
    match a
    case NoAction => NoItem
    case SetTurnout => Turnout
    case SetSignalAppearance => SignalHead
    case SetSignalHeld => SignalHead
    case ClearSignalHeld => SignalHead
    case SetSignalDark => SignalHead
    case SetSignalLit => SignalHead
    case TriggerRoute => Other
    case SetSensor => Sensor
    case DelayedSensor => Sensor
    case SetLight => Light
    case SetMemory => Memory
    case EnableLogix => Logix
    case DisableLogix => Logix
    case PlaySound => Audio
    case RunScript => Script
    case DelayedTurnout => Turnout
    case LockTurnout => Turnout
    case ResetDelayedSensor => Sensor
    case CancelSensorTimers => Sensor
    case ResetDelayedTurnout => Turnout
    case CancelTurnoutTimers => Turnout
    case SetFastClockTime => Clock
    case StartFastClock => Clock
    case StopFastClock => Clock
    case CopyMemory => Memory
    case SetLightIntensity => Light
    case SetLightTransitionTime => Light
    case ControlAudio => Audio
    case JythonCommand => Script
    case AllocateWarrantRoute => Warrant
    case DeallocateWarrantRoute => Warrant
    case SetRouteTurnouts => Warrant
    case AutoRunWarrant => Warrant
    case ManualRunWarrant => Warrant
    case ControlTrain => Warrant
    case SetTrainId => Warrant
    case SetTrainName => Warrant
    case SetSignalMastAspect => SignalMast
    case ThrottleFactor => Warrant
    case SetSignalMastHeld => SignalMast
    case ClearSignalMastHeld => SignalMast
    case SetSignalMastDark => SignalMast
    case SetSignalMastLit => SignalMast
    case SetBlockValue => OBlock
    case SetBlockError => OBlock
    case ClearBlockError => OBlock
    case DeallocateBlock => OBlock
    case SetBlockOutOfService => OBlock
    case SetBlockInService => OBlock
    case SetNxPairEnabled => EntryExit
    case SetNxPairDisabled => EntryExit
    case SetNxPairSegment => EntryExit
  }

  /** Reference table: the actions listed by ascending `ACTION_*` code,
      independently of the enum's declaration order (which differs from code
      order from `MANUAL_RUN_WARRANT` on). */
  function ActionsByCode(): seq<Action> {
    [NoAction, SetTurnout, SetSignalAppearance, SetSignalHeld, ClearSignalHeld, SetSignalDark]
    + [SetSignalLit, TriggerRoute, SetSensor, DelayedSensor, SetLight, SetMemory]
    + [EnableLogix, DisableLogix, PlaySound, RunScript, DelayedTurnout, LockTurnout]
    + [ResetDelayedSensor, CancelSensorTimers, ResetDelayedTurnout, CancelTurnoutTimers, SetFastClockTime, StartFastClock]
    + [StopFastClock, CopyMemory, SetLightIntensity, SetLightTransitionTime, ControlAudio, JythonCommand]
    + [AllocateWarrantRoute, DeallocateWarrantRoute, SetRouteTurnouts, AutoRunWarrant, ControlTrain, SetTrainId]
    + [SetSignalMastAspect, ThrottleFactor, SetSignalMastHeld, ClearSignalMastHeld, SetSignalMastDark, SetSignalMastLit]
    + [SetBlockError, ClearBlockError, DeallocateBlock, SetBlockOutOfService, SetBlockInService, ManualRunWarrant]
    + [SetTrainName, SetBlockValue, SetNxPairEnabled, SetNxPairDisabled, SetNxPairSegment]
  }

  /** The reference table read as a decoder: code `n` names the `n`-th entry. */
  function ActionOfCode(n: int): Option<Action> {
    if 1 <= n <= |ActionsByCode()| then Some(ActionsByCode()[n - 1]) else None
  }


  /** `Action.getOperatorFromIntValue(n)`: the first action in `values()`
      whose code is `n`; `None` stands for the `IllegalArgumentException`. */
  function ActionFromIntValue(n: int): (r: Option<Action>)
    ensures r.Some? ==> r.value in ActionValues() && ActionIntValue(r.value) == n
  {
    Search.FindFirst(ActionValues(), ActionIntValue, n)
  }

  /** The reference table maps every action's code back to that action. */
  lemma ActionOfCodeComplete(a: Action)
    ensures ActionOfCode(ActionIntValue(a)) == Some(a)
  {
    match a
    case NoAction | SetTurnout | SetSignalAppearance | SetSignalHeld | ClearSignalHeld |
      SetSignalDark =>
      ActionOfCodeCompletePart1(a);
    case SetSignalLit | TriggerRoute | SetSensor | DelayedSensor | SetLight | SetMemory =>
      ActionOfCodeCompletePart2(a);
    case EnableLogix | DisableLogix | PlaySound | RunScript | DelayedTurnout | LockTurnout =>
      ActionOfCodeCompletePart3(a);
    case ResetDelayedSensor | CancelSensorTimers | ResetDelayedTurnout | CancelTurnoutTimers |
      SetFastClockTime | StartFastClock =>
      ActionOfCodeCompletePart4(a);
    case StopFastClock | CopyMemory | SetLightIntensity | SetLightTransitionTime |
      ControlAudio | JythonCommand =>
      ActionOfCodeCompletePart5(a);
    case AllocateWarrantRoute | DeallocateWarrantRoute | SetRouteTurnouts | AutoRunWarrant |
      ManualRunWarrant | ControlTrain =>
      ActionOfCodeCompletePart6(a);
    case SetTrainId | SetTrainName | SetSignalMastAspect | ThrottleFactor | SetSignalMastHeld |
      ClearSignalMastHeld =>
      ActionOfCodeCompletePart7(a);
    case SetSignalMastDark | SetSignalMastLit | SetBlockValue | SetBlockError |
      ClearBlockError | DeallocateBlock =>
      ActionOfCodeCompletePart8(a);
    case SetBlockOutOfService | SetBlockInService | SetNxPairEnabled | SetNxPairDisabled |
      SetNxPairSegment =>
      ActionOfCodeCompletePart9(a);
  }

  // One run of `ActionOfCodeComplete`, split off to keep each proof small.
  lemma ActionOfCodeCompletePart1(a: Action)
    requires a == NoAction || a == SetTurnout || a == SetSignalAppearance ||
      a == SetSignalHeld || a == ClearSignalHeld || a == SetSignalDark
    ensures ActionOfCode(ActionIntValue(a)) == Some(a)
  {
    if a == NoAction {
      assert ActionsByCode()[0] == NoAction;
    } else if a == SetTurnout {
      assert ActionsByCode()[1] == SetTurnout;
    } else if a == SetSignalAppearance {
      assert ActionsByCode()[2] == SetSignalAppearance;
    } else if a == SetSignalHeld {
      assert ActionsByCode()[3] == SetSignalHeld;
    } else if a == ClearSignalHeld {
      assert ActionsByCode()[4] == ClearSignalHeld;
    } else {
      assert ActionsByCode()[5] == SetSignalDark;
    }
  }

  // One run of `ActionOfCodeComplete`, split off to keep each proof small.
  lemma ActionOfCodeCompletePart2(a: Action)
    requires a == SetSignalLit || a == TriggerRoute || a == SetSensor || a == DelayedSensor ||
      a == SetLight || a == SetMemory
    ensures ActionOfCode(ActionIntValue(a)) == Some(a)
  {
    if a == SetSignalLit {
      assert ActionsByCode()[6] == SetSignalLit;
    } else if a == TriggerRoute {
      assert ActionsByCode()[7] == TriggerRoute;
    } else if a == SetSensor {
      assert ActionsByCode()[8] == SetSensor;
    } else if a == DelayedSensor {
      assert ActionsByCode()[9] == DelayedSensor;
    } else if a == SetLight {
      assert ActionsByCode()[10] == SetLight;
    } else {
      assert ActionsByCode()[11] == SetMemory;
    }
  }

  // One run of `ActionOfCodeComplete`, split off to keep each proof small.
  lemma ActionOfCodeCompletePart3(a: Action)
    requires a == EnableLogix || a == DisableLogix || a == PlaySound || a == RunScript ||
      a == DelayedTurnout || a == LockTurnout
    ensures ActionOfCode(ActionIntValue(a)) == Some(a)
  {
    if a == EnableLogix {
      assert ActionsByCode()[12] == EnableLogix;
    } else if a == DisableLogix {
      assert ActionsByCode()[13] == DisableLogix;
    } else if a == PlaySound {
      assert ActionsByCode()[14] == PlaySound;
    } else if a == RunScript {
      assert ActionsByCode()[15] == RunScript;
    } else if a == DelayedTurnout {
      assert ActionsByCode()[16] == DelayedTurnout;
    } else {
      assert ActionsByCode()[17] == LockTurnout;
    }
  }

  // One run of `ActionOfCodeComplete`, split off to keep each proof small.
  lemma ActionOfCodeCompletePart4(a: Action)
    requires a == ResetDelayedSensor || a == CancelSensorTimers || a == ResetDelayedTurnout ||
      a == CancelTurnoutTimers || a == SetFastClockTime || a == StartFastClock
    ensures ActionOfCode(ActionIntValue(a)) == Some(a)
  {
    if a == ResetDelayedSensor {
      assert ActionsByCode()[18] == ResetDelayedSensor;
    } else if a == CancelSensorTimers {
      assert ActionsByCode()[19] == CancelSensorTimers;
    } else if a == ResetDelayedTurnout {
      assert ActionsByCode()[20] == ResetDelayedTurnout;
    } else if a == CancelTurnoutTimers {
      assert ActionsByCode()[21] == CancelTurnoutTimers;
    } else if a == SetFastClockTime {
      assert ActionsByCode()[22] == SetFastClockTime;
    } else {
      assert ActionsByCode()[23] == StartFastClock;
    }
  }

  // One run of `ActionOfCodeComplete`, split off to keep each proof small.
  lemma ActionOfCodeCompletePart5(a: Action)
    requires a == StopFastClock || a == CopyMemory || a == SetLightIntensity ||
      a == SetLightTransitionTime || a == ControlAudio || a == JythonCommand
    ensures ActionOfCode(ActionIntValue(a)) == Some(a)
  {
    if a == StopFastClock {
      assert ActionsByCode()[24] == StopFastClock;
    } else if a == CopyMemory {
      assert ActionsByCode()[25] == CopyMemory;
    } else if a == SetLightIntensity {
      assert ActionsByCode()[26] == SetLightIntensity;
    } else if a == SetLightTransitionTime {
      assert ActionsByCode()[27] == SetLightTransitionTime;
    } else if a == ControlAudio {
      assert ActionsByCode()[28] == ControlAudio;
    } else {
      assert ActionsByCode()[29] == JythonCommand;
    }
  }

  // One run of `ActionOfCodeComplete`, split off to keep each proof small.
  lemma ActionOfCodeCompletePart6(a: Action)
    requires a == AllocateWarrantRoute || a == DeallocateWarrantRoute ||
      a == SetRouteTurnouts || a == AutoRunWarrant || a == ManualRunWarrant || a == ControlTrain
    ensures ActionOfCode(ActionIntValue(a)) == Some(a)
  {
    if a == AllocateWarrantRoute {
      assert ActionsByCode()[30] == AllocateWarrantRoute;
    } else if a == DeallocateWarrantRoute {
      assert ActionsByCode()[31] == DeallocateWarrantRoute;
    } else if a == SetRouteTurnouts {
      assert ActionsByCode()[32] == SetRouteTurnouts;
    } else if a == AutoRunWarrant {
      assert ActionsByCode()[33] == AutoRunWarrant;
    } else if a == ManualRunWarrant {
      assert ActionsByCode()[47] == ManualRunWarrant;
    } else {
      assert ActionsByCode()[34] == ControlTrain;
    }
  }

  // One run of `ActionOfCodeComplete`, split off to keep each proof small.
  lemma ActionOfCodeCompletePart7(a: Action)
    requires a == SetTrainId || a == SetTrainName || a == SetSignalMastAspect ||
      a == ThrottleFactor || a == SetSignalMastHeld || a == ClearSignalMastHeld
    ensures ActionOfCode(ActionIntValue(a)) == Some(a)
  {
    if a == SetTrainId {
      assert ActionsByCode()[35] == SetTrainId;
    } else if a == SetTrainName {
      assert ActionsByCode()[48] == SetTrainName;
    } else if a == SetSignalMastAspect {
      assert ActionsByCode()[36] == SetSignalMastAspect;
    } else if a == ThrottleFactor {
      assert ActionsByCode()[37] == ThrottleFactor;
    } else if a == SetSignalMastHeld {
      assert ActionsByCode()[38] == SetSignalMastHeld;
    } else {
      assert ActionsByCode()[39] == ClearSignalMastHeld;
    }
  }

  // One run of `ActionOfCodeComplete`, split off to keep each proof small.
  lemma ActionOfCodeCompletePart8(a: Action)
    requires a == SetSignalMastDark || a == SetSignalMastLit || a == SetBlockValue ||
      a == SetBlockError || a == ClearBlockError || a == DeallocateBlock
    ensures ActionOfCode(ActionIntValue(a)) == Some(a)
  {
    if a == SetSignalMastDark {
      assert ActionsByCode()[40] == SetSignalMastDark;
    } else if a == SetSignalMastLit {
      assert ActionsByCode()[41] == SetSignalMastLit;
    } else if a == SetBlockValue {
      assert ActionsByCode()[49] == SetBlockValue;
    } else if a == SetBlockError {
      assert ActionsByCode()[42] == SetBlockError;
    } else if a == ClearBlockError {
      assert ActionsByCode()[43] == ClearBlockError;
    } else {
      assert ActionsByCode()[44] == DeallocateBlock;
    }
  }

  // One run of `ActionOfCodeComplete`, split off to keep each proof small.
  lemma ActionOfCodeCompletePart9(a: Action)
    requires a == SetBlockOutOfService || a == SetBlockInService || a == SetNxPairEnabled ||
      a == SetNxPairDisabled || a == SetNxPairSegment
    ensures ActionOfCode(ActionIntValue(a)) == Some(a)
  {
    if a == SetBlockOutOfService {
      assert ActionsByCode()[45] == SetBlockOutOfService;
    } else if a == SetBlockInService {
      assert ActionsByCode()[46] == SetBlockInService;
    } else if a == SetNxPairEnabled {
      assert ActionsByCode()[50] == SetNxPairEnabled;
    } else if a == SetNxPairDisabled {
      assert ActionsByCode()[51] == SetNxPairDisabled;
    } else {
      assert ActionsByCode()[52] == SetNxPairSegment;
    }
  }

  /** No two actions share a code. */
  lemma ActionCodesInjective(a: Action, b: Action)
    requires ActionIntValue(a) == ActionIntValue(b)
    ensures a == b
  {
    ActionOfCodeComplete(a);
    ActionOfCodeComplete(b);
  }

  /** The reference table decodes exactly the codes 1..53. */
  lemma ActionOfCodeDomain(n: int)
    ensures ActionOfCode(n).Some? <==> 1 <= n <= 53
  {
  }

  /** Whatever the reference table decodes a code to carries that code. */
  lemma ActionOfCodeSound(n: int)
    ensures ActionOfCode(n).Some? ==> ActionIntValue(ActionOfCode(n).value) == n
  {
    if 1 <= n <= 3 {
      ActionOfCodeSoundPart1(n);
    } else if 4 <= n <= 6 {
      ActionOfCodeSoundPart2(n);
    } else if 7 <= n <= 9 {
      ActionOfCodeSoundPart3(n);
    } else if 10 <= n <= 12 {
      ActionOfCodeSoundPart4(n);
    } else if 13 <= n <= 15 {
      ActionOfCodeSoundPart5(n);
    } else if 16 <= n <= 18 {
      ActionOfCodeSoundPart6(n);
    } else if 19 <= n <= 21 {
      ActionOfCodeSoundPart7(n);
    } else if 22 <= n <= 24 {
      ActionOfCodeSoundPart8(n);
    } else if 25 <= n <= 27 {
      ActionOfCodeSoundPart9(n);
    } else if 28 <= n <= 30 {
      ActionOfCodeSoundPart10(n);
    } else if 31 <= n <= 33 {
      ActionOfCodeSoundPart11(n);
    } else if 34 <= n <= 36 {
      ActionOfCodeSoundPart12(n);
    } else if 37 <= n <= 39 {
      ActionOfCodeSoundPart13(n);
    } else if 40 <= n <= 42 {
      ActionOfCodeSoundPart14(n);
    } else if 43 <= n <= 45 {
      ActionOfCodeSoundPart15(n);
    } else if 46 <= n <= 48 {
      ActionOfCodeSoundPart16(n);
    } else if 49 <= n <= 51 {
      ActionOfCodeSoundPart17(n);
    } else if 52 <= n <= 53 {
      ActionOfCodeSoundPart18(n);
    }
  }

  // One run of `ActionOfCodeSound`, split off to keep each proof small.
  lemma ActionOfCodeSoundPart1(n: int)
    requires 1 <= n <= 3
    ensures ActionIntValue(ActionOfCode(n).value) == n
  {
    if n == 1 {
      assert ActionsByCode()[0] == NoAction;
    } else if n == 2 {
      assert ActionsByCode()[1] == SetTurnout;
    } else {
      assert ActionsByCode()[2] == SetSignalAppearance;
    }
  }

  // One run of `ActionOfCodeSound`, split off to keep each proof small.
  lemma ActionOfCodeSoundPart2(n: int)
    requires 4 <= n <= 6
    ensures ActionIntValue(ActionOfCode(n).value) == n
  {
    if n == 4 {
      assert ActionsByCode()[3] == SetSignalHeld;
    } else if n == 5 {
      assert ActionsByCode()[4] == ClearSignalHeld;
    } else {
      assert ActionsByCode()[5] == SetSignalDark;
    }
  }

  // One run of `ActionOfCodeSound`, split off to keep each proof small.
  lemma ActionOfCodeSoundPart3(n: int)
    requires 7 <= n <= 9
    ensures ActionIntValue(ActionOfCode(n).value) == n
  {
    if n == 7 {
      assert ActionsByCode()[6] == SetSignalLit;
    } else if n == 8 {
      assert ActionsByCode()[7] == TriggerRoute;
    } else {
      assert ActionsByCode()[8] == SetSensor;
    }
  }

  // One run of `ActionOfCodeSound`, split off to keep each proof small.
  lemma ActionOfCodeSoundPart4(n: int)
    requires 10 <= n <= 12
    ensures ActionIntValue(ActionOfCode(n).value) == n
  {
    if n == 10 {
      assert ActionsByCode()[9] == DelayedSensor;
    } else if n == 11 {
      assert ActionsByCode()[10] == SetLight;
    } else {
      assert ActionsByCode()[11] == SetMemory;
    }
  }

  // One run of `ActionOfCodeSound`, split off to keep each proof small.
  lemma ActionOfCodeSoundPart5(n: int)
    requires 13 <= n <= 15
    ensures ActionIntValue(ActionOfCode(n).value) == n
  {
    if n == 13 {
      assert ActionsByCode()[12] == EnableLogix;
    } else if n == 14 {
      assert ActionsByCode()[13] == DisableLogix;
    } else {
      assert ActionsByCode()[14] == PlaySound;
    }
  }

  // One run of `ActionOfCodeSound`, split off to keep each proof small.
  lemma ActionOfCodeSoundPart6(n: int)
    requires 16 <= n <= 18
    ensures ActionIntValue(ActionOfCode(n).value) == n
  {
    if n == 16 {
      assert ActionsByCode()[15] == RunScript;
    } else if n == 17 {
      assert ActionsByCode()[16] == DelayedTurnout;
    } else {
      assert ActionsByCode()[17] == LockTurnout;
    }
  }

  // One run of `ActionOfCodeSound`, split off to keep each proof small.
  lemma ActionOfCodeSoundPart7(n: int)
    requires 19 <= n <= 21
    ensures ActionIntValue(ActionOfCode(n).value) == n
  {
    if n == 19 {
      assert ActionsByCode()[18] == ResetDelayedSensor;
    } else if n == 20 {
      assert ActionsByCode()[19] == CancelSensorTimers;
    } else {
      assert ActionsByCode()[20] == ResetDelayedTurnout;
    }
  }

  // One run of `ActionOfCodeSound`, split off to keep each proof small.
  lemma ActionOfCodeSoundPart8(n: int)
    requires 22 <= n <= 24
    ensures ActionIntValue(ActionOfCode(n).value) == n
  {
    if n == 22 {
      assert ActionsByCode()[21] == CancelTurnoutTimers;
    } else if n == 23 {
      assert ActionsByCode()[22] == SetFastClockTime;
    } else {
      assert ActionsByCode()[23] == StartFastClock;
    }
  }

  // One run of `ActionOfCodeSound`, split off to keep each proof small.
  lemma ActionOfCodeSoundPart9(n: int)
    requires 25 <= n <= 27
    ensures ActionIntValue(ActionOfCode(n).value) == n
  {
    if n == 25 {
      assert ActionsByCode()[24] == StopFastClock;
    } else if n == 26 {
      assert ActionsByCode()[25] == CopyMemory;
    } else {
      assert ActionsByCode()[26] == SetLightIntensity;
    }
  }

  // One run of `ActionOfCodeSound`, split off to keep each proof small.
  lemma ActionOfCodeSoundPart10(n: int)
    requires 28 <= n <= 30
    ensures ActionIntValue(ActionOfCode(n).value) == n
  {
    if n == 28 {
      assert ActionsByCode()[27] == SetLightTransitionTime;
    } else if n == 29 {
      assert ActionsByCode()[28] == ControlAudio;
    } else {
      assert ActionsByCode()[29] == JythonCommand;
    }
  }

  // One run of `ActionOfCodeSound`, split off to keep each proof small.
  lemma ActionOfCodeSoundPart11(n: int)
    requires 31 <= n <= 33
    ensures ActionIntValue(ActionOfCode(n).value) == n
  {
    if n == 31 {
      assert ActionsByCode()[30] == AllocateWarrantRoute;
    } else if n == 32 {
      assert ActionsByCode()[31] == DeallocateWarrantRoute;
    } else {
      assert ActionsByCode()[32] == SetRouteTurnouts;
    }
  }

  // One run of `ActionOfCodeSound`, split off to keep each proof small.
  lemma ActionOfCodeSoundPart12(n: int)
    requires 34 <= n <= 36
    ensures ActionIntValue(ActionOfCode(n).value) == n
  {
    if n == 34 {
      assert ActionsByCode()[33] == AutoRunWarrant;
    } else if n == 35 {
      assert ActionsByCode()[34] == ControlTrain;
    } else {
      assert ActionsByCode()[35] == SetTrainId;
    }
  }

  // One run of `ActionOfCodeSound`, split off to keep each proof small.
  lemma ActionOfCodeSoundPart13(n: int)
    requires 37 <= n <= 39
    ensures ActionIntValue(ActionOfCode(n).value) == n
  {
    if n == 37 {
      assert ActionsByCode()[36] == SetSignalMastAspect;
    } else if n == 38 {
      assert ActionsByCode()[37] == ThrottleFactor;
    } else {
      assert ActionsByCode()[38] == SetSignalMastHeld;
    }
  }

  // One run of `ActionOfCodeSound`, split off to keep each proof small.
  lemma ActionOfCodeSoundPart14(n: int)
    requires 40 <= n <= 42
    ensures ActionIntValue(ActionOfCode(n).value) == n
  {
    if n == 40 {
      assert ActionsByCode()[39] == ClearSignalMastHeld;
    } else if n == 41 {
      assert ActionsByCode()[40] == SetSignalMastDark;
    } else {
      assert ActionsByCode()[41] == SetSignalMastLit;
    }
  }

  // One run of `ActionOfCodeSound`, split off to keep each proof small.
  lemma ActionOfCodeSoundPart15(n: int)
    requires 43 <= n <= 45
    ensures ActionIntValue(ActionOfCode(n).value) == n
  {
    if n == 43 {
      assert ActionsByCode()[42] == SetBlockError;
    } else if n == 44 {
      assert ActionsByCode()[43] == ClearBlockError;
    } else {
      assert ActionsByCode()[44] == DeallocateBlock;
    }
  }

  // One run of `ActionOfCodeSound`, split off to keep each proof small.
  lemma ActionOfCodeSoundPart16(n: int)
    requires 46 <= n <= 48
    ensures ActionIntValue(ActionOfCode(n).value) == n
  {
    if n == 46 {
      assert ActionsByCode()[45] == SetBlockOutOfService;
    } else if n == 47 {
      assert ActionsByCode()[46] == SetBlockInService;
    } else {
      assert ActionsByCode()[47] == ManualRunWarrant;
    }
  }

  // One run of `ActionOfCodeSound`, split off to keep each proof small.
  lemma ActionOfCodeSoundPart17(n: int)
    requires 49 <= n <= 51
    ensures ActionIntValue(ActionOfCode(n).value) == n
  {
    if n == 49 {
      assert ActionsByCode()[48] == SetTrainName;
    } else if n == 50 {
      assert ActionsByCode()[49] == SetBlockValue;
    } else {
      assert ActionsByCode()[50] == SetNxPairEnabled;
    }
  }

  // One run of `ActionOfCodeSound`, split off to keep each proof small.
  lemma ActionOfCodeSoundPart18(n: int)
    requires 52 <= n <= 53
    ensures ActionIntValue(ActionOfCode(n).value) == n
  {
    if n == 52 {
      assert ActionsByCode()[51] == SetNxPairDisabled;
    } else {
      assert ActionsByCode()[52] == SetNxPairSegment;
    }
  }

  /** The action codes are exactly 1..53. */
  lemma ActionCodesExactly(n: int)
    ensures (exists a :: ActionIntValue(a) == n) <==> 1 <= n <= 53
  {
    if 1 <= n <= 53 {
      ActionOfCodeDomain(n);
      ActionOfCodeSound(n);
      assert ActionIntValue(ActionOfCode(n).value) == n;
    }
  }

  /** `values()` lists every action. */
  lemma ActionInValues(a: Action)
    ensures a in ActionValues()
  {
    match a
    case NoAction | SetTurnout | SetSignalAppearance | SetSignalHeld | ClearSignalHeld |
      SetSignalDark =>
      ActionInValuesPart1(a);
    case SetSignalLit | TriggerRoute | SetSensor | DelayedSensor | SetLight | SetMemory =>
      ActionInValuesPart2(a);
    case EnableLogix | DisableLogix | PlaySound | RunScript | DelayedTurnout | LockTurnout =>
      ActionInValuesPart3(a);
    case ResetDelayedSensor | CancelSensorTimers | ResetDelayedTurnout | CancelTurnoutTimers |
      SetFastClockTime | StartFastClock =>
      ActionInValuesPart4(a);
    case StopFastClock | CopyMemory | SetLightIntensity | SetLightTransitionTime |
      ControlAudio | JythonCommand =>
      ActionInValuesPart5(a);
    case AllocateWarrantRoute | DeallocateWarrantRoute | SetRouteTurnouts | AutoRunWarrant |
      ManualRunWarrant | ControlTrain =>
      ActionInValuesPart6(a);
    case SetTrainId | SetTrainName | SetSignalMastAspect | ThrottleFactor | SetSignalMastHeld |
      ClearSignalMastHeld =>
      ActionInValuesPart7(a);
    case SetSignalMastDark | SetSignalMastLit | SetBlockValue | SetBlockError |
      ClearBlockError | DeallocateBlock =>
      ActionInValuesPart8(a);
    case SetBlockOutOfService | SetBlockInService | SetNxPairEnabled | SetNxPairDisabled |
      SetNxPairSegment =>
      ActionInValuesPart9(a);
  }

  // One run of `ActionInValues`, split off to keep each proof small.
  lemma ActionInValuesPart1(a: Action)
    requires a == NoAction || a == SetTurnout || a == SetSignalAppearance ||
      a == SetSignalHeld || a == ClearSignalHeld || a == SetSignalDark
    ensures a in ActionValues()
  {
    if a == NoAction {
      assert ActionValues()[0] == NoAction;
    } else if a == SetTurnout {
      assert ActionValues()[1] == SetTurnout;
    } else if a == SetSignalAppearance {
      assert ActionValues()[2] == SetSignalAppearance;
    } else if a == SetSignalHeld {
      assert ActionValues()[3] == SetSignalHeld;
    } else if a == ClearSignalHeld {
      assert ActionValues()[4] == ClearSignalHeld;
    } else {
      assert ActionValues()[5] == SetSignalDark;
    }
  }

  // One run of `ActionInValues`, split off to keep each proof small.
  lemma ActionInValuesPart2(a: Action)
    requires a == SetSignalLit || a == TriggerRoute || a == SetSensor || a == DelayedSensor ||
      a == SetLight || a == SetMemory
    ensures a in ActionValues()
  {
    if a == SetSignalLit {
      assert ActionValues()[6] == SetSignalLit;
    } else if a == TriggerRoute {
      assert ActionValues()[7] == TriggerRoute;
    } else if a == SetSensor {
      assert ActionValues()[8] == SetSensor;
    } else if a == DelayedSensor {
      assert ActionValues()[9] == DelayedSensor;
    } else if a == SetLight {
      assert ActionValues()[10] == SetLight;
    } else {
      assert ActionValues()[11] == SetMemory;
    }
  }

  // One run of `ActionInValues`, split off to keep each proof small.
  lemma ActionInValuesPart3(a: Action)
    requires a == EnableLogix || a == DisableLogix || a == PlaySound || a == RunScript ||
      a == DelayedTurnout || a == LockTurnout
    ensures a in ActionValues()
  {
    if a == EnableLogix {
      assert ActionValues()[12] == EnableLogix;
    } else if a == DisableLogix {
      assert ActionValues()[13] == DisableLogix;
    } else if a == PlaySound {
      assert ActionValues()[14] == PlaySound;
    } else if a == RunScript {
      assert ActionValues()[15] == RunScript;
    } else if a == DelayedTurnout {
      assert ActionValues()[16] == DelayedTurnout;
    } else {
      assert ActionValues()[17] == LockTurnout;
    }
  }

  // One run of `ActionInValues`, split off to keep each proof small.
  lemma ActionInValuesPart4(a: Action)
    requires a == ResetDelayedSensor || a == CancelSensorTimers || a == ResetDelayedTurnout ||
      a == CancelTurnoutTimers || a == SetFastClockTime || a == StartFastClock
    ensures a in ActionValues()
  {
    if a == ResetDelayedSensor {
      assert ActionValues()[18] == ResetDelayedSensor;
    } else if a == CancelSensorTimers {
      assert ActionValues()[19] == CancelSensorTimers;
    } else if a == ResetDelayedTurnout {
      assert ActionValues()[20] == ResetDelayedTurnout;
    } else if a == CancelTurnoutTimers {
      assert ActionValues()[21] == CancelTurnoutTimers;
    } else if a == SetFastClockTime {
      assert ActionValues()[22] == SetFastClockTime;
    } else {
      assert ActionValues()[23] == StartFastClock;
    }
  }

  // One run of `ActionInValues`, split off to keep each proof small.
  lemma ActionInValuesPart5(a: Action)
    requires a == StopFastClock || a == CopyMemory || a == SetLightIntensity ||
      a == SetLightTransitionTime || a == ControlAudio || a == JythonCommand
    ensures a in ActionValues()
  {
    if a == StopFastClock {
      assert ActionValues()[24] == StopFastClock;
    } else if a == CopyMemory {
      assert ActionValues()[25] == CopyMemory;
    } else if a == SetLightIntensity {
      assert ActionValues()[26] == SetLightIntensity;
    } else if a == SetLightTransitionTime {
      assert ActionValues()[27] == SetLightTransitionTime;
    } else if a == ControlAudio {
      assert ActionValues()[28] == ControlAudio;
    } else {
      assert ActionValues()[29] == JythonCommand;
    }
  }

  // One run of `ActionInValues`, split off to keep each proof small.
  lemma ActionInValuesPart6(a: Action)
    requires a == AllocateWarrantRoute || a == DeallocateWarrantRoute ||
      a == SetRouteTurnouts || a == AutoRunWarrant || a == ManualRunWarrant || a == ControlTrain
    ensures a in ActionValues()
  {
    if a == AllocateWarrantRoute {
      assert ActionValues()[30] == AllocateWarrantRoute;
    } else if a == DeallocateWarrantRoute {
      assert ActionValues()[31] == DeallocateWarrantRoute;
    } else if a == SetRouteTurnouts {
      assert ActionValues()[32] == SetRouteTurnouts;
    } else if a == AutoRunWarrant {
      assert ActionValues()[33] == AutoRunWarrant;
    } else if a == ManualRunWarrant {
      assert ActionValues()[34] == ManualRunWarrant;
    } else {
      assert ActionValues()[35] == ControlTrain;
    }
  }

  // One run of `ActionInValues`, split off to keep each proof small.
  lemma ActionInValuesPart7(a: Action)
    requires a == SetTrainId || a == SetTrainName || a == SetSignalMastAspect ||
      a == ThrottleFactor || a == SetSignalMastHeld || a == ClearSignalMastHeld
    ensures a in ActionValues()
  {
    if a == SetTrainId {
      assert ActionValues()[36] == SetTrainId;
    } else if a == SetTrainName {
      assert ActionValues()[37] == SetTrainName;
    } else if a == SetSignalMastAspect {
      assert ActionValues()[38] == SetSignalMastAspect;
    } else if a == ThrottleFactor {
      assert ActionValues()[39] == ThrottleFactor;
    } else if a == SetSignalMastHeld {
      assert ActionValues()[40] == SetSignalMastHeld;
    } else {
      assert ActionValues()[41] == ClearSignalMastHeld;
    }
  }

  // One run of `ActionInValues`, split off to keep each proof small.
  lemma ActionInValuesPart8(a: Action)
    requires a == SetSignalMastDark || a == SetSignalMastLit || a == SetBlockValue ||
      a == SetBlockError || a == ClearBlockError || a == DeallocateBlock
    ensures a in ActionValues()
  {
    if a == SetSignalMastDark {
      assert ActionValues()[42] == SetSignalMastDark;
    } else if a == SetSignalMastLit {
      assert ActionValues()[43] == SetSignalMastLit;
    } else if a == SetBlockValue {
      assert ActionValues()[44] == SetBlockValue;
    } else if a == SetBlockError {
      assert ActionValues()[45] == SetBlockError;
    } else if a == ClearBlockError {
      assert ActionValues()[46] == ClearBlockError;
    } else {
      assert ActionValues()[47] == DeallocateBlock;
    }
  }

  // One run of `ActionInValues`, split off to keep each proof small.
  lemma ActionInValuesPart9(a: Action)
    requires a == SetBlockOutOfService || a == SetBlockInService || a == SetNxPairEnabled ||
      a == SetNxPairDisabled || a == SetNxPairSegment
    ensures a in ActionValues()
  {
    if a == SetBlockOutOfService {
      assert ActionValues()[48] == SetBlockOutOfService;
    } else if a == SetBlockInService {
      assert ActionValues()[49] == SetBlockInService;
    } else if a == SetNxPairEnabled {
      assert ActionValues()[50] == SetNxPairEnabled;
    } else if a == SetNxPairDisabled {
      assert ActionValues()[51] == SetNxPairDisabled;
    } else {
      assert ActionValues()[52] == SetNxPairSegment;
    }
  }

  /** Every action survives the trip through its code. */
  lemma ActionRoundTrip(a: Action)
    ensures ActionFromIntValue(ActionIntValue(a)) == Some(a)
  {
    ActionInValues(a);
    forall b | b in ActionValues() && ActionIntValue(b) == ActionIntValue(a) ensures b == a {
      ActionCodesInjective(a, b);
    }
    Search.FindFirstUnique(ActionValues(), ActionIntValue, a);
  }

  /** The search over `values()` agrees with the reference table on every
      `int`: the codes 1..53 decode to their action, anything else throws. */
  lemma ActionFromIntValueMatchesTable(n: int)
    ensures ActionFromIntValue(n) == ActionOfCode(n)
    ensures ActionFromIntValue(n).Some? <==> 1 <= n <= 53
  {
    ActionOfCodeDomain(n);
    ActionOfCodeSound(n);
    if ActionOfCode(n).Some? {
      ActionRoundTrip(ActionOfCode(n).value);
    } else {
      forall i | 0 <= i < |ActionValues()|
        ensures ActionIntValue(ActionValues()[i]) != n
      {
      }
    }
  }

  // ----------------------------------------------------- family lists

  /** The families that have an action list, in the order the lists are built. */
  function Families(): seq<ItemType> {
    [Sensor, Turnout, Light, Warrant, Memory, EntryExit, SignalHead,
     SignalMast, Clock, Logix, OBlock, Audio, Script, Other]
  }

  /** `getSensorItems()`, `getTurnoutItems()`, ... `getOtherItems()`: the
      action list of family `t`; `NoItem` has no list, every family has a
      non-empty one. */
  function FamilyItems(t: ItemType): (r: seq<Action>)
    ensures |r| == 0 <==> t == NoItem
  {
    match t
    case NoItem => []
    case Sensor => [SetSensor, DelayedSensor, ResetDelayedSensor, CancelSensorTimers]
    case Turnout => [SetTurnout, DelayedTurnout, LockTurnout, CancelTurnoutTimers, ResetDelayedTurnout]
    case Light => [SetLight, SetLightIntensity, SetLightTransitionTime]
    case Warrant =>
      [AllocateWarrantRoute, DeallocateWarrantRoute, SetRouteTurnouts, AutoRunWarrant,
       ManualRunWarrant, ControlTrain, SetTrainId, SetTrainName, ThrottleFactor]
    case Memory => [SetMemory, CopyMemory]
    case EntryExit => [SetNxPairEnabled, SetNxPairDisabled, SetNxPairSegment]
    case SignalHead => [SetSignalAppearance, SetSignalHeld, ClearSignalHeld, SetSignalDark, SetSignalLit]
    case SignalMast =>
      [SetSignalMastAspect, SetSignalMastHeld, ClearSignalMastHeld, SetSignalMastDark, SetSignalMastLit]
    case Clock => [SetFastClockTime, StartFastClock, StopFastClock]
    case Logix => [EnableLogix, DisableLogix]
    case OBlock =>
      [DeallocateBlock, SetBlockValue, SetBlockError, ClearBlockError, SetBlockOutOfService,
       SetBlockInService]
    case Audio => [PlaySound, ControlAudio]
    case Script => [RunScript, JythonCommand]
    case Other => [TriggerRoute]
  }

  /** Every entry of a family's list has that family's item type. */
  lemma FamilyItemsHaveItemType(t: ItemType, i: int)
    requires 0 <= i < |FamilyItems(t)|
    ensures t != NoItem && ActionItemType(FamilyItems(t)[i]) == t
  {
    match t
    case NoItem | Sensor | Memory =>
      FamilyItemsHaveItemTypePart1(t, i);
    case Turnout | Logix =>
      FamilyItemsHaveItemTypePart2(t, i);
    case Light | EntryExit =>
      FamilyItemsHaveItemTypePart3(t, i);
    case SignalHead | Audio =>
      FamilyItemsHaveItemTypePart4(t, i);
    case SignalMast | Script =>
      FamilyItemsHaveItemTypePart5(t, i);
    case Warrant =>
      FamilyItemsHaveItemTypePart6(t, i);
    case Clock | Other =>
      FamilyItemsHaveItemTypePart7(t, i);
    case OBlock =>
      FamilyItemsHaveItemTypePart8(t, i);
  }

  // One run of `FamilyItemsHaveItemType`, split off to keep each proof small.
  lemma FamilyItemsHaveItemTypePart1(t: ItemType, i: int)
    requires t == NoItem || t == Sensor || t == Memory
    requires 0 <= i < |FamilyItems(t)|
    ensures t != NoItem && ActionItemType(FamilyItems(t)[i]) == t
  {
    if t == NoItem {
      assert false;
    } else if t == Sensor {
    } else {
    }
  }

  // One run of `FamilyItemsHaveItemType`, split off to keep each proof small.
  lemma FamilyItemsHaveItemTypePart2(t: ItemType, i: int)
    requires t == Turnout || t == Logix
    requires 0 <= i < |FamilyItems(t)|
    ensures t != NoItem && ActionItemType(FamilyItems(t)[i]) == t
  {
    if t == Turnout {
    } else {
    }
  }

  // One run of `FamilyItemsHaveItemType`, split off to keep each proof small.
  lemma FamilyItemsHaveItemTypePart3(t: ItemType, i: int)
    requires t == Light || t == EntryExit
    requires 0 <= i < |FamilyItems(t)|
    ensures t != NoItem && ActionItemType(FamilyItems(t)[i]) == t
  {
    if t == Light {
    } else {
    }
  }

  // One run of `FamilyItemsHaveItemType`, split off to keep each proof small.
  lemma FamilyItemsHaveItemTypePart4(t: ItemType, i: int)
    requires t == SignalHead || t == Audio
    requires 0 <= i < |FamilyItems(t)|
    ensures t != NoItem && ActionItemType(FamilyItems(t)[i]) == t
  {
    if t == SignalHead {
    } else {
    }
  }

  // One run of `FamilyItemsHaveItemType`, split off to keep each proof small.
  lemma FamilyItemsHaveItemTypePart5(t: ItemType, i: int)
    requires t == SignalMast || t == Script
    requires 0 <= i < |FamilyItems(t)|
    ensures t != NoItem && ActionItemType(FamilyItems(t)[i]) == t
  {
    if t == SignalMast {
    } else {
    }
  }

  // One run of `FamilyItemsHaveItemType`, split off to keep each proof small.
  lemma FamilyItemsHaveItemTypePart6(t: ItemType, i: int)
    requires t == Warrant
    requires 0 <= i < |FamilyItems(t)|
    ensures t != NoItem && ActionItemType(FamilyItems(t)[i]) == t
  {
  }

  // One run of `FamilyItemsHaveItemType`, split off to keep each proof small.
  lemma FamilyItemsHaveItemTypePart7(t: ItemType, i: int)
    requires t == Clock || t == Other
    requires 0 <= i < |FamilyItems(t)|
    ensures t != NoItem && ActionItemType(FamilyItems(t)[i]) == t
  {
    if t == Clock {
    } else {
    }
  }

  // One run of `FamilyItemsHaveItemType`, split off to keep each proof small.
  lemma FamilyItemsHaveItemTypePart8(t: ItemType, i: int)
    requires t == OBlock
    requires 0 <= i < |FamilyItems(t)|
    ensures t != NoItem && ActionItemType(FamilyItems(t)[i]) == t
  {
  }

  /** Every action with an item type other than `NoItem` is in that type's list. */
  lemma ItemTypeInFamilyItems(a: Action)
    requires ActionItemType(a) != NoItem
    ensures a in FamilyItems(ActionItemType(a))
  {
    match a
    case NoAction | SetTurnout | SetSignalAppearance =>
      ItemTypeInFamilyItemsPart1(a);
    case SetSignalHeld | ClearSignalHeld | SetSignalDark =>
      ItemTypeInFamilyItemsPart2(a);
    case SetSignalLit | TriggerRoute | SetSensor =>
      ItemTypeInFamilyItemsPart3(a);
    case DelayedSensor | SetLight | SetMemory =>
      ItemTypeInFamilyItemsPart4(a);
    case EnableLogix | DisableLogix | PlaySound =>
      ItemTypeInFamilyItemsPart5(a);
    case RunScript | DelayedTurnout | LockTurnout =>
      ItemTypeInFamilyItemsPart6(a);
    case ResetDelayedSensor | CancelSensorTimers | ResetDelayedTurnout =>
      ItemTypeInFamilyItemsPart7(a);
    case CancelTurnoutTimers | SetFastClockTime | StartFastClock =>
      ItemTypeInFamilyItemsPart8(a);
    case StopFastClock | CopyMemory | SetLightIntensity =>
      ItemTypeInFamilyItemsPart9(a);
    case SetLightTransitionTime | ControlAudio | JythonCommand =>
      ItemTypeInFamilyItemsPart10(a);
    case AllocateWarrantRoute | DeallocateWarrantRoute | SetRouteTurnouts =>
      ItemTypeInFamilyItemsPart11(a);
    case AutoRunWarrant | ManualRunWarrant | ControlTrain =>
      ItemTypeInFamilyItemsPart12(a);
    case SetTrainId | SetTrainName | SetSignalMastAspect =>
      ItemTypeInFamilyItemsPart13(a);
    case ThrottleFactor | SetSignalMastHeld | ClearSignalMastHeld =>
      ItemTypeInFamilyItemsPart14(a);
    case SetSignalMastDark | SetSignalMastLit | SetBlockValue =>
      ItemTypeInFamilyItemsPart15(a);
    case SetBlockError | ClearBlockError | DeallocateBlock =>
      ItemTypeInFamilyItemsPart16(a);
    case SetBlockOutOfService | SetBlockInService | SetNxPairEnabled =>
      ItemTypeInFamilyItemsPart17(a);
    case SetNxPairDisabled | SetNxPairSegment =>
      ItemTypeInFamilyItemsPart18(a);
  }

  // One run of `ItemTypeInFamilyItems`, split off to keep each proof small.
  lemma ItemTypeInFamilyItemsPart1(a: Action)
    requires a == NoAction || a == SetTurnout || a == SetSignalAppearance
    requires ActionItemType(a) != NoItem
    ensures a in FamilyItems(ActionItemType(a))
  {
    if a == SetTurnout {
      assert FamilyItems(Turnout)[0] == SetTurnout;
    } else {
      assert FamilyItems(SignalHead)[0] == SetSignalAppearance;
    }
  }

  // One run of `ItemTypeInFamilyItems`, split off to keep each proof small.
  lemma ItemTypeInFamilyItemsPart2(a: Action)
    requires a == SetSignalHeld || a == ClearSignalHeld || a == SetSignalDark
    ensures a in FamilyItems(ActionItemType(a))
  {
    if a == SetSignalHeld {
      assert FamilyItems(SignalHead)[1] == SetSignalHeld;
    } else if a == ClearSignalHeld {
      assert FamilyItems(SignalHead)[2] == ClearSignalHeld;
    } else {
      assert FamilyItems(SignalHead)[3] == SetSignalDark;
    }
  }

  // One run of `ItemTypeInFamilyItems`, split off to keep each proof small.
  lemma ItemTypeInFamilyItemsPart3(a: Action)
    requires a == SetSignalLit || a == TriggerRoute || a == SetSensor
    ensures a in FamilyItems(ActionItemType(a))
  {
    if a == SetSignalLit {
      assert FamilyItems(SignalHead)[4] == SetSignalLit;
    } else if a == TriggerRoute {
      assert FamilyItems(Other)[0] == TriggerRoute;
    } else {
      assert FamilyItems(Sensor)[0] == SetSensor;
    }
  }

  // One run of `ItemTypeInFamilyItems`, split off to keep each proof small.
  lemma ItemTypeInFamilyItemsPart4(a: Action)
    requires a == DelayedSensor || a == SetLight || a == SetMemory
    ensures a in FamilyItems(ActionItemType(a))
  {
    if a == DelayedSensor {
      assert FamilyItems(Sensor)[1] == DelayedSensor;
    } else if a == SetLight {
      assert FamilyItems(Light)[0] == SetLight;
    } else {
      assert FamilyItems(Memory)[0] == SetMemory;
    }
  }

  // One run of `ItemTypeInFamilyItems`, split off to keep each proof small.
  lemma ItemTypeInFamilyItemsPart5(a: Action)
    requires a == EnableLogix || a == DisableLogix || a == PlaySound
    ensures a in FamilyItems(ActionItemType(a))
  {
    if a == EnableLogix {
      assert FamilyItems(Logix)[0] == EnableLogix;
    } else if a == DisableLogix {
      assert FamilyItems(Logix)[1] == DisableLogix;
    } else {
      assert FamilyItems(Audio)[0] == PlaySound;
    }
  }

  // One run of `ItemTypeInFamilyItems`, split off to keep each proof small.
  lemma ItemTypeInFamilyItemsPart6(a: Action)
    requires a == RunScript || a == DelayedTurnout || a == LockTurnout
    ensures a in FamilyItems(ActionItemType(a))
  {
    if a == RunScript {
      assert FamilyItems(Script)[0] == RunScript;
    } else if a == DelayedTurnout {
      assert FamilyItems(Turnout)[1] == DelayedTurnout;
    } else {
      assert FamilyItems(Turnout)[2] == LockTurnout;
    }
  }

  // One run of `ItemTypeInFamilyItems`, split off to keep each proof small.
  lemma ItemTypeInFamilyItemsPart7(a: Action)
    requires a == ResetDelayedSensor || a == CancelSensorTimers || a == ResetDelayedTurnout
    ensures a in FamilyItems(ActionItemType(a))
  {
    if a == ResetDelayedSensor {
      assert FamilyItems(Sensor)[2] == ResetDelayedSensor;
    } else if a == CancelSensorTimers {
      assert FamilyItems(Sensor)[3] == CancelSensorTimers;
    } else {
      assert FamilyItems(Turnout)[4] == ResetDelayedTurnout;
    }
  }

  // One run of `ItemTypeInFamilyItems`, split off to keep each proof small.
  lemma ItemTypeInFamilyItemsPart8(a: Action)
    requires a == CancelTurnoutTimers || a == SetFastClockTime || a == StartFastClock
    ensures a in FamilyItems(ActionItemType(a))
  {
    if a == CancelTurnoutTimers {
      assert FamilyItems(Turnout)[3] == CancelTurnoutTimers;
    } else if a == SetFastClockTime {
      assert FamilyItems(Clock)[0] == SetFastClockTime;
    } else {
      assert FamilyItems(Clock)[1] == StartFastClock;
    }
  }

  // One run of `ItemTypeInFamilyItems`, split off to keep each proof small.
  lemma ItemTypeInFamilyItemsPart9(a: Action)
    requires a == StopFastClock || a == CopyMemory || a == SetLightIntensity
    ensures a in FamilyItems(ActionItemType(a))
  {
    if a == StopFastClock {
      assert FamilyItems(Clock)[2] == StopFastClock;
    } else if a == CopyMemory {
      assert FamilyItems(Memory)[1] == CopyMemory;
    } else {
      assert FamilyItems(Light)[1] == SetLightIntensity;
    }
  }

  // One run of `ItemTypeInFamilyItems`, split off to keep each proof small.
  lemma ItemTypeInFamilyItemsPart10(a: Action)
    requires a == SetLightTransitionTime || a == ControlAudio || a == JythonCommand
    ensures a in FamilyItems(ActionItemType(a))
  {
    if a == SetLightTransitionTime {
      assert FamilyItems(Light)[2] == SetLightTransitionTime;
    } else if a == ControlAudio {
      assert FamilyItems(Audio)[1] == ControlAudio;
    } else {
      assert FamilyItems(Script)[1] == JythonCommand;
    }
  }

  // One run of `ItemTypeInFamilyItems`, split off to keep each proof small.
  lemma ItemTypeInFamilyItemsPart11(a: Action)
    requires a == AllocateWarrantRoute || a == DeallocateWarrantRoute || a == SetRouteTurnouts
    ensures a in FamilyItems(ActionItemType(a))
  {
    if a == AllocateWarrantRoute {
      assert FamilyItems(Warrant)[0] == AllocateWarrantRoute;
    } else if a == DeallocateWarrantRoute {
      assert FamilyItems(Warrant)[1] == DeallocateWarrantRoute;
    } else {
      assert FamilyItems(Warrant)[2] == SetRouteTurnouts;
    }
  }

  // One run of `ItemTypeInFamilyItems`, split off to keep each proof small.
  lemma ItemTypeInFamilyItemsPart12(a: Action)
    requires a == AutoRunWarrant || a == ManualRunWarrant || a == ControlTrain
    ensures a in FamilyItems(ActionItemType(a))
  {
    if a == AutoRunWarrant {
      assert FamilyItems(Warrant)[3] == AutoRunWarrant;
    } else if a == ManualRunWarrant {
      assert FamilyItems(Warrant)[4] == ManualRunWarrant;
    } else {
      assert FamilyItems(Warrant)[5] == ControlTrain;
    }
  }

  // One run of `ItemTypeInFamilyItems`, split off to keep each proof small.
  lemma ItemTypeInFamilyItemsPart13(a: Action)
    requires a == SetTrainId || a == SetTrainName || a == SetSignalMastAspect
    ensures a in FamilyItems(ActionItemType(a))
  {
    if a == SetTrainId {
      assert FamilyItems(Warrant)[6] == SetTrainId;
    } else if a == SetTrainName {
      assert FamilyItems(Warrant)[7] == SetTrainName;
    } else {
      assert FamilyItems(SignalMast)[0] == SetSignalMastAspect;
    }
  }

  // One run of `ItemTypeInFamilyItems`, split off to keep each proof small.
  lemma ItemTypeInFamilyItemsPart14(a: Action)
    requires a == ThrottleFactor || a == SetSignalMastHeld || a == ClearSignalMastHeld
    ensures a in FamilyItems(ActionItemType(a))
  {
    if a == ThrottleFactor {
      assert FamilyItems(Warrant)[8] == ThrottleFactor;
    } else if a == SetSignalMastHeld {
      assert FamilyItems(SignalMast)[1] == SetSignalMastHeld;
    } else {
      assert FamilyItems(SignalMast)[2] == ClearSignalMastHeld;
    }
  }

  // One run of `ItemTypeInFamilyItems`, split off to keep each proof small.
  lemma ItemTypeInFamilyItemsPart15(a: Action)
    requires a == SetSignalMastDark || a == SetSignalMastLit || a == SetBlockValue
    ensures a in FamilyItems(ActionItemType(a))
  {
    if a == SetSignalMastDark {
      assert FamilyItems(SignalMast)[3] == SetSignalMastDark;
    } else if a == SetSignalMastLit {
      assert FamilyItems(SignalMast)[4] == SetSignalMastLit;
    } else {
      assert FamilyItems(OBlock)[1] == SetBlockValue;
    }
  }

  // One run of `ItemTypeInFamilyItems`, split off to keep each proof small.
  lemma ItemTypeInFamilyItemsPart16(a: Action)
    requires a == SetBlockError || a == ClearBlockError || a == DeallocateBlock
    ensures a in FamilyItems(ActionItemType(a))
  {
    if a == SetBlockError {
      assert FamilyItems(OBlock)[2] == SetBlockError;
    } else if a == ClearBlockError {
      assert FamilyItems(OBlock)[3] == ClearBlockError;
    } else {
      assert FamilyItems(OBlock)[0] == DeallocateBlock;
    }
  }

  // One run of `ItemTypeInFamilyItems`, split off to keep each proof small.
  lemma ItemTypeInFamilyItemsPart17(a: Action)
    requires a == SetBlockOutOfService || a == SetBlockInService || a == SetNxPairEnabled
    ensures a in FamilyItems(ActionItemType(a))
  {
    if a == SetBlockOutOfService {
      assert FamilyItems(OBlock)[4] == SetBlockOutOfService;
    } else if a == SetBlockInService {
      assert FamilyItems(OBlock)[5] == SetBlockInService;
    } else {
      assert FamilyItems(EntryExit)[0] == SetNxPairEnabled;
    }
  }

  // One run of `ItemTypeInFamilyItems`, split off to keep each proof small.
  lemma ItemTypeInFamilyItemsPart18(a: Action)
    requires a == SetNxPairDisabled || a == SetNxPairSegment
    ensures a in FamilyItems(ActionItemType(a))
  {
    if a == SetNxPairDisabled {
      assert FamilyItems(EntryExit)[1] == SetNxPairDisabled;
    } else {
      assert FamilyItems(EntryExit)[2] == SetNxPairSegment;
    }
  }

  /** A family's list holds exactly the actions of that item type. */
  lemma FamilyItemsByItemType(t: ItemType, a: Action)
    ensures a in FamilyItems(t) <==> t != NoItem && ActionItemType(a) == t
  {
    if a in FamilyItems(t) {
      var i :| 0 <= i < |FamilyItems(t)| && FamilyItems(t)[i] == a;
      FamilyItemsHaveItemType(t, i);
    } else if t != NoItem && ActionItemType(a) == t {
      ItemTypeInFamilyItems(a);
    }
  }

  /** The fourteen lists partition the actions other than `NONE`: each such
      action is in the list of its own item type and in no other; `NONE` is
      in none of them. */
  lemma FamilyListsPartition(a: Action)
    ensures a == NoAction <==> forall t :: a !in FamilyItems(t)
    ensures a != NoAction ==> ActionItemType(a) in Families() && a in FamilyItems(ActionItemType(a))
    ensures forall t :: t != ActionItemType(a) ==> a !in FamilyItems(t)
  {
    forall t ensures a in FamilyItems(t) <==> t != NoItem && ActionItemType(a) == t {
      FamilyItemsByItemType(t, a);
    }
    assert ActionItemType(a) == NoItem <==> a == NoAction;
    if a != NoAction {
      assert a in FamilyItems(ActionItemType(a));
    }
  }

  predicate NoDuplicates(s: seq<Action>) {
    forall i, j :: 0 <= i < j < |s| ==> s[i] != s[j]
  }

  /** No family list repeats an action. */
  lemma FamilyListNoDuplicates(t: ItemType)
    ensures NoDuplicates(FamilyItems(t))
  {
    match t
    case NoItem | Sensor | Memory =>
      FamilyListNoDuplicatesPart1(t);
    case Turnout | Logix =>
      FamilyListNoDuplicatesPart2(t);
    case Light | EntryExit =>
      FamilyListNoDuplicatesPart3(t);
    case SignalHead | Audio =>
      FamilyListNoDuplicatesPart4(t);
    case SignalMast | Script =>
      FamilyListNoDuplicatesPart5(t);
    case Warrant =>
      FamilyListNoDuplicatesPart6(t);
    case Clock | Other =>
      FamilyListNoDuplicatesPart7(t);
    case OBlock =>
      FamilyListNoDuplicatesPart8(t);
  }

  // One run of `FamilyListNoDuplicates`, split off to keep each proof small.
  lemma FamilyListNoDuplicatesPart1(t: ItemType)
    requires t == NoItem || t == Sensor || t == Memory
    ensures NoDuplicates(FamilyItems(t))
  {
    if t == NoItem {
    } else if t == Sensor {
    } else {
    }
  }

  // One run of `FamilyListNoDuplicates`, split off to keep each proof small.
  lemma FamilyListNoDuplicatesPart2(t: ItemType)
    requires t == Turnout || t == Logix
    ensures NoDuplicates(FamilyItems(t))
  {
    if t == Turnout {
    } else {
    }
  }

  // One run of `FamilyListNoDuplicates`, split off to keep each proof small.
  lemma FamilyListNoDuplicatesPart3(t: ItemType)
    requires t == Light || t == EntryExit
    ensures NoDuplicates(FamilyItems(t))
  {
    if t == Light {
    } else {
    }
  }

  // One run of `FamilyListNoDuplicates`, split off to keep each proof small.
  lemma FamilyListNoDuplicatesPart4(t: ItemType)
    requires t == SignalHead || t == Audio
    ensures NoDuplicates(FamilyItems(t))
  {
    if t == SignalHead {
    } else {
    }
  }

  // One run of `FamilyListNoDuplicates`, split off to keep each proof small.
  lemma FamilyListNoDuplicatesPart5(t: ItemType)
    requires t == SignalMast || t == Script
    ensures NoDuplicates(FamilyItems(t))
  {
    if t == SignalMast {
    } else {
    }
  }

  // One run of `FamilyListNoDuplicates`, split off to keep each proof small.
  lemma FamilyListNoDuplicatesPart6(t: ItemType)
    requires t == Warrant
    ensures NoDuplicates(FamilyItems(t))
  {
  }

  // One run of `FamilyListNoDuplicates`, split off to keep each proof small.
  lemma FamilyListNoDuplicatesPart7(t: ItemType)
    requires t == Clock || t == Other
    ensures NoDuplicates(FamilyItems(t))
  {
    if t == Clock {
    } else {
    }
  }

  // One run of `FamilyListNoDuplicates`, split off to keep each proof small.
  lemma FamilyListNoDuplicatesPart8(t: ItemType)
    requires t == OBlock
    ensures NoDuplicates(FamilyItems(t))
  {
  }

  /** Together the family lists hold 52 entries: one per action other than
      `NONE`. */
  lemma FamilyListsTotal()
    ensures |FamilyItems(Sensor)| + |FamilyItems(Turnout)| + |FamilyItems(Light)| +
      |FamilyItems(Warrant)| + |FamilyItems(Memory)| + |FamilyItems(EntryExit)| +
      |FamilyItems(SignalHead)| + |FamilyItems(SignalMast)| + |FamilyItems(Clock)| +
      |FamilyItems(Logix)| + |FamilyItems(OBlock)| + |FamilyItems(Audio)| +
      |FamilyItems(Script)| + |FamilyItems(Other)| == 52
  {
  }

  // ------------------------------------------------ trigger options, item types

  const ACTION_OPTION_ON_CHANGE_TO_TRUE: int := 1
  const ACTION_OPTION_ON_CHANGE_TO_FALSE: int := 2
  const ACTION_OPTION_ON_CHANGE: int := 3
  const NUM_ACTION_OPTIONS: int := 3

  /** The trigger options are numbered 1..NUM_ACTION_OPTIONS without gaps. */
  lemma TriggerOptionCodes()
    ensures
      var options := [ACTION_OPTION_ON_CHANGE_TO_TRUE, ACTION_OPTION_ON_CHANGE_TO_FALSE, ACTION_OPTION_ON_CHANGE];
      |options| == NUM_ACTION_OPTIONS &&
      forall n :: n in options <==> 1 <= n <= NUM_ACTION_OPTIONS
  {
  }

  const ITEM_TYPE_SENSOR: int := 1
  const ITEM_TYPE_TURNOUT: int := 2
  const ITEM_TYPE_LIGHT: int := 3
  const ITEM_TYPE_SIGNALHEAD: int := 4
  const ITEM_TYPE_SIGNALMAST: int := 5
  const ITEM_TYPE_MEMORY: int := 6
  /** Used only by state variables. */
  const ITEM_TYPE_CONDITIONAL: int := 7
  /** Used only by actions; deliberately the same code as ITEM_TYPE_CONDITIONAL. */
  const ITEM_TYPE_LOGIX: int := 7
  const ITEM_TYPE_WARRANT: int := 8
  const ITEM_TYPE_CLOCK: int := 9
  const ITEM_TYPE_OBLOCK: int := 10
  const ITEM_TYPE_ENTRYEXIT: int := 11
  const ITEM_TYPE_AUDIO: int := 12
  const ITEM_TYPE_SCRIPT: int := 13
  const ITEM_TYPE_OTHER: int := 14

  /** The fifteen item-type constants take the fourteen codes 1..14: the only
      shared code is the 7 of CONDITIONAL and LOGIX. */
  lemma ItemTypeCodes()
    ensures ITEM_TYPE_CONDITIONAL == ITEM_TYPE_LOGIX
    ensures
      var others := [ITEM_TYPE_SENSOR, ITEM_TYPE_TURNOUT, ITEM_TYPE_LIGHT, ITEM_TYPE_SIGNALHEAD,
        ITEM_TYPE_SIGNALMAST, ITEM_TYPE_MEMORY, ITEM_TYPE_LOGIX, ITEM_TYPE_WARRANT, ITEM_TYPE_CLOCK,
        ITEM_TYPE_OBLOCK, ITEM_TYPE_ENTRYEXIT, ITEM_TYPE_AUDIO, ITEM_TYPE_SCRIPT, ITEM_TYPE_OTHER];
      (forall i, j :: 0 <= i < j < |others| ==> others[i] != others[j]) &&
      (forall n :: n in others <==> 1 <= n <= 14)
  {
  }
}
