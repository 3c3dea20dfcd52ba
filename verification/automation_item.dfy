/** One step of an automation: the action it performs and the train, route
    location, automation and message the action may use.  The train and
    route-location getters, and the automation getter, hand back what was
    stored only while the current action enables the matching menu. */
module AutomationItem {
  import opened Wrappers
  import ActionCodes
  import Search
  import AutomationManager

  /** A train, identified by its id; the train object itself is not part of
      this model. */
  datatype Train = Train(id: string)

  /** A route location, identified by its id. */
  datatype RouteLocation = RouteLocation(id: string)

  /** `AutomationItem.NONE`. */
  const NONE: string := ""

  // ------------------------------------------------------------ menus

  /** `Action.isTrainMenuEnabled()`, read from the code's `ENABLE_TRAINS` bit. */
  predicate TrainMenuEnabled(code: bv32) {
    ActionCodes.HasFlag(code, ActionCodes.Trains)
  }

  /** `Action.isRouteMenuEnabled()`, read from the code's `ENABLE_ROUTES` bit. */
  predicate RouteMenuEnabled(code: bv32) {
    ActionCodes.HasFlag(code, ActionCodes.Routes)
  }

  /** `Action.isAutomationMenuEnabled()`, read from the code's
      `ENABLE_AUTOMATION_LIST` bit. */
  predicate AutomationMenuEnabled(code: bv32) {
    ActionCodes.HasFlag(code, ActionCodes.AutomationList)
  }

  /** The train menu is on for exactly the seven train actions. */
  lemma TrainMenuKinds(k: ActionCodes.Kind)
    ensures TrainMenuEnabled(ActionCodes.Code(k)) <==> k in TrainKinds()
  {
    ActionCodes.FlagsRecoverable(k, ActionCodes.Trains);
  }

  /** The route menu is on for exactly moving and waiting for a train. */
  lemma RouteMenuKinds(k: ActionCodes.Kind)
    ensures RouteMenuEnabled(ActionCodes.Code(k)) <==> k in RouteKinds()
  {
    ActionCodes.RouteCodes(k);
  }

  /** The automation menu is on for exactly the four automation actions. */
  lemma AutomationMenuKinds(k: ActionCodes.Kind)
    ensures AutomationMenuEnabled(ActionCodes.Code(k)) <==> k in AutomationKinds()
  {
    ActionCodes.FlagsRecoverable(k, ActionCodes.AutomationList);
  }

  // ---------------------------------------------------------- actions

  /** An automation action object: its kind fixes `getCode()`, and it
      remembers the item it belongs to. */
  class Action {
    const kind: ActionCodes.Kind
    var automationItem: AutomationItem?

    constructor(kind: ActionCodes.Kind)
      ensures this.kind == kind && automationItem == null
    {
      this.kind := kind;
      automationItem := null;
    }

    /** `getCode()`: a code from which the full code table gives this
        action's kind back. */
    function Code(): (r: bv32)
      ensures ActionCodes.KindOfCode(r) == Some(kind)
    {
      ActionCodes.KindOfCodeRoundTrip(kind);
      ActionCodes.Code(kind)
    }
  }

  /** The kinds of `getActionList()`, in order. */
  function ItemActionList(): seq<ActionCodes.Kind> {
    [ActionCodes.NoAction, ActionCodes.BuildTrain, ActionCodes.BuildTrainIfSelected,
     ActionCodes.PrintTrainManifest, ActionCodes.PrintTrainManifestIfSelected,
     ActionCodes.MoveTrain, ActionCodes.TerminateTrain, ActionCodes.WaitForTrain,
     ActionCodes.UpdateSwitchList, ActionCodes.RunAutomation, ActionCodes.ResumeAutomation,
     ActionCodes.StopAutomation, ActionCodes.HaltAction]
  }

  /** The kind `getActionByCode(code)` instantiates: the first listed kind
      whose code is `code`.  What it finds is listed, has that code, and is
      the kind the full code table gives for it. */
  function ActionKindByCode(code: bv32): (r: Option<ActionCodes.Kind>)
    ensures r.Some? ==> r.value in ItemActionList() && ActionCodes.Code(r.value) == code
    ensures r.Some? ==> ActionCodes.KindOfCode(code) == r
  {
    var r := Search.FindFirst(ItemActionList(), ActionCodes.Code, code);
    if r.Some? then
      ActionCodes.KindOfCodeRoundTrip(r.value);
      r
    else r
  }

  /** Looking up a kind's code gives that kind when it is listed and
      `null` when it is not. */
  lemma ActionKindByCodeOfKind(k: ActionCodes.Kind)
    ensures ActionKindByCode(ActionCodes.Code(k)) == if k in ItemActionList() then Some(k) else None
  {
    if k in ItemActionList() {
      forall j | j in ItemActionList() && ActionCodes.Code(j) == ActionCodes.Code(k) ensures j == k {
        ActionCodes.CodesDistinct(j, k);
      }
      Search.FindFirstUnique(ItemActionList(), ActionCodes.Code, k);
    } else {
      forall j | j in ItemActionList() ensures ActionCodes.Code(j) != ActionCodes.Code(k) {
        if ActionCodes.Code(j) == ActionCodes.Code(k) {
          ActionCodes.CodesDistinct(j, k);
        }
      }
    }
  }

  /** Exactly six kinds are missing from the list (so, by
      `ActionKindByCodeOfKind`, exactly their codes find nothing). */
  lemma UnlistedKinds(k: ActionCodes.Kind)
    ensures k !in ItemActionList() <==>
      k in {ActionCodes.PrintSwitchList, ActionCodes.StepAutomation, ActionCodes.Message,
            ActionCodes.WaitMessageOk, ActionCodes.WaitMessageYesNo, ActionCodes.IfMessageNo}
  {
    match k
    case NoAction => assert ItemActionList()[0] == k;
    case BuildTrain => assert ItemActionList()[1] == k;
    case BuildTrainIfSelected => assert ItemActionList()[2] == k;
    case PrintTrainManifest => assert ItemActionList()[3] == k;
    case PrintTrainManifestIfSelected => assert ItemActionList()[4] == k;
    case MoveTrain => assert ItemActionList()[5] == k;
    case TerminateTrain => assert ItemActionList()[6] == k;
    case WaitForTrain => assert ItemActionList()[7] == k;
    case UpdateSwitchList => assert ItemActionList()[8] == k;
    case PrintSwitchList =>
    case StepAutomation =>
    case RunAutomation => assert ItemActionList()[9] == k;
    case StopAutomation => assert ItemActionList()[11] == k;
    case ResumeAutomation => assert ItemActionList()[10] == k;
    case Message =>
    case WaitMessageOk =>
    case WaitMessageYesNo =>
    case IfMessageNo =>
    case HaltAction => assert ItemActionList()[12] == k;
  }

  // ------------------------------------------------------------- items

  class AutomationItem {
    const id: string
    var sequenceId: int
    var action: Action?
    var train: Option<Train>
    var routeLocation: Option<RouteLocation>
    var automationId: string
    /** `None` stands for a `null` message. */
    var message: Option<string>

    /** `AutomationItem(id)`: a fresh `NoAction` becomes the current action. */
    constructor(id: string)
      ensures this.id == id && sequenceId == 0
      ensures action != null && fresh(action)
      ensures action.kind == ActionCodes.NoAction && action.automationItem == this
      ensures train.None? && routeLocation.None? && automationId == NONE && message == Some(NONE)
    {
      this.id := id;
      sequenceId := 0;
      train := None;
      routeLocation := None;
      automationId := NONE;
      message := Some(NONE);
      new;
      var a := new Action(ActionCodes.NoAction);
      SetAction(a);
    }

    /** `setSequenceId(sequence)`: changes the sequence number only. */
    method SetSequenceId(sequence: int)
      modifies this
      ensures sequenceId == sequence
      ensures action == old(action) && train == old(train) && routeLocation == old(routeLocation)
      ensures automationId == old(automationId) && message == old(message)
    {
      sequenceId := sequence;
    }

    /** `setAction(action)`: the action becomes current and, unless it is
        `null`, is linked back to this item. */
    method SetAction(a: Action?)
      modifies this, a
      ensures action == a
      ensures a != null ==> a.automationItem == this
      ensures sequenceId == old(sequenceId) && train == old(train)
      ensures routeLocation == old(routeLocation)
      ensures automationId == old(automationId) && message == old(message)
    {
      action := a;
      if a != null {
        a.automationItem := this;
      }
    }

    /** `getActionCode()`: the current action's code, `NO_ACTION` without one. */
    function GetActionCode(): (r: bv32)
      reads this, action
      ensures ActionCodes.KindOfCode(r) == Some(if action == null then ActionCodes.NoAction else action.kind)
      ensures ActionCodes.HasFlag(r, ActionCodes.OkMessage)
    {
      var k := if action == null then ActionCodes.NoAction else action.kind;
      ActionCodes.KindOfCodeRoundTrip(k);
      ActionCodes.EveryCodeHasOkMessage(k);
      ActionCodes.Code(k)
    }

    /** `setTrain(train)`: stored whatever the current action. */
    method SetTrain(t: Option<Train>)
      modifies this
      ensures train == t
      ensures action == old(action) && sequenceId == old(sequenceId)
      ensures routeLocation == old(routeLocation)
      ensures automationId == old(automationId) && message == old(message)
    {
      train := t;
    }

    /** `getTrain()`: the stored train while the action enables the train
        menu, `null` otherwise; so the train is handed back exactly for the
        seven train actions. */
    function GetTrain(): (r: Option<Train>)
      reads this, action
      ensures action != null && action.kind in TrainKinds() ==> r == train
      ensures action == null || action.kind !in TrainKinds() ==> r.None?
    {
      if action == null then None
      else
        TrainMenuKinds(action.kind);
        if TrainMenuEnabled(action.Code()) then train else None
    }

    /** `setRouteLocation(rl)`: stored whatever the current action. */
    method SetRouteLocation(rl: Option<RouteLocation>)
      modifies this
      ensures routeLocation == rl
      ensures action == old(action) && sequenceId == old(sequenceId) && train == old(train)
      ensures automationId == old(automationId) && message == old(message)
    {
      routeLocation := rl;
    }

    /** `getRouteLocation()`: the stored route location while the action
        enables the route menu, `null` otherwise; so it is handed back
        exactly while the action moves or waits for a train. */
    function GetRouteLocation(): (r: Option<RouteLocation>)
      reads this, action
      ensures action != null && action.kind in RouteKinds() ==> r == routeLocation
      ensures action == null || action.kind !in RouteKinds() ==> r.None?
    {
      if action == null then None
      else
        RouteMenuKinds(action.kind);
        if RouteMenuEnabled(action.Code()) then routeLocation else None
    }

    /** `setAutomation(automation)`: remembers the automation's id, or `NONE`
        for `null`. */
    method SetAutomation(automation: Option<AutomationManager.Automation>)
      modifies this
      ensures automationId == if automation.Some? then automation.value.id else NONE
      ensures action == old(action) && sequenceId == old(sequenceId) && train == old(train)
      ensures routeLocation == old(routeLocation) && message == old(message)
    {
      if automation.Some? {
        automationId := automation.value.id;
      } else {
        automationId := NONE;
      }
    }

    /** `getAutomation()`: while the action enables the automation menu, the
        manager's entry under the remembered id; `null` otherwise; so an
        automation is handed back only for the four automation actions. */
    function GetAutomation(manager: AutomationManager.AutomationManager): (r: Option<AutomationManager.Automation>)
      reads this, action, manager
      ensures action != null && action.kind in AutomationKinds() ==>
        (r.Some? <==> automationId in manager.table) &&
        (r.Some? ==> r.value == manager.table[automationId])
      ensures action == null || action.kind !in AutomationKinds() ==> r.None?
      ensures manager.Valid() && r.Some? ==> r.value.id == automationId
    {
      if action == null then None
      else
        AutomationMenuKinds(action.kind);
        if AutomationMenuEnabled(action.Code())
        then manager.GetAutomationById(automationId)
        else None
    }

    /** `setMessage(message)`: compares the old message with the new one,
        fires a change when they differ, then stores the new one, which may
        be `null`.  Once the stored message is `null` the comparison throws
        `NullPointerException` before anything is stored; `ok` is false for
        that case, and `changed` tells whether a change was fired. */
    method SetMessage(m: Option<string>) returns (ok: bool, changed: bool)
      modifies this
      ensures ok <==> old(message).Some?
      ensures changed <==> ok && old(message) != m
      ensures message == if ok then m else old(message)
      ensures action == old(action) && sequenceId == old(sequenceId) && train == old(train)
      ensures routeLocation == old(routeLocation) && automationId == old(automationId)
    {
      if message.None? {
        return false, false;
      }
      changed := message != m;
      message := m;
      ok := true;
    }

    /** `copyItem(item)`: copies the message and nothing else, through
        `setMessage`, so it fails in the same way once this item's message
        is `null`. */
    method CopyItem(item: AutomationItem) returns (ok: bool)
      modifies this
      ensures ok <==> old(message).Some?
      ensures message == if ok then old(item.message) else old(message)
      ensures action == old(action) && sequenceId == old(sequenceId) && train == old(train)
      ensures routeLocation == old(routeLocation) && automationId == old(automationId)
    {
      var changed;
      ok, changed := SetMessage(item.message);
    }

    /** `getActionByCode(code)`: a new action of the first listed kind with
        that code, or `null`. */
    method GetActionByCode(code: bv32) returns (r: Action?)
      ensures r == null <==> ActionKindByCode(code).None?
      ensures r != null ==> fresh(r) && r.kind == ActionKindByCode(code).value && r.automationItem == null
      ensures r != null ==> r.Code() == code && r.kind in ItemActionList()
    {
      var k := ActionKindByCode(code);
      if k.None? {
        return null;
      }
      r := new Action(k.value);
    }
  }

  /** The kinds whose code enables the train menu. */
  function TrainKinds(): set<ActionCodes.Kind> {
    {ActionCodes.BuildTrain, ActionCodes.BuildTrainIfSelected, ActionCodes.PrintTrainManifest,
     ActionCodes.PrintTrainManifestIfSelected, ActionCodes.MoveTrain,
     ActionCodes.TerminateTrain, ActionCodes.WaitForTrain}
  }

  /** The kinds whose code enables the route menu. */
  function RouteKinds(): set<ActionCodes.Kind> {
    {ActionCodes.MoveTrain, ActionCodes.WaitForTrain}
  }

  /** The kinds whose code enables the automation menu. */
  function AutomationKinds(): set<ActionCodes.Kind> {
    {ActionCodes.StepAutomation, ActionCodes.RunAutomation,
     ActionCodes.StopAutomation, ActionCodes.ResumeAutomation}
  }
}
