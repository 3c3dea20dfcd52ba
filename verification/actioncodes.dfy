/** The automation action codes: each code is an upper-byte category plus
    a sum of lower-byte `ENABLE_*` flag bits that say which menus and
    messages the action uses.  Codes are Java `int`s; they are modelled by
    their 32-bit pattern. */
module ActionCodes {
  import opened Wrappers
  import Search

  // Lower-byte flags.
  const ENABLE_TRAINS: bv32 := 0x1
  const ENABLE_ROUTES: bv32 := 0x2
  const ENABLE_OK_MESSAGE: bv32 := 0x4
  const ENABLE_FAIL_MESSAGE: bv32 := 0x8
  const ENABLE_AUTOMATION_LIST: bv32 := 0x10
  const ENABLE_GOTO_LIST: bv32 := 0x20

  /** The upper byte, which holds the category. */
  const CODE_MASK: bv32 := 0xFF00

  /** Every flag bit at once. */
  const FLAG_BITS: bv32 :=
    ENABLE_TRAINS | ENABLE_ROUTES | ENABLE_OK_MESSAGE | ENABLE_FAIL_MESSAGE |
    ENABLE_AUTOMATION_LIST | ENABLE_GOTO_LIST

  const NO_ACTION: bv32 := 0x0000 + ENABLE_OK_MESSAGE

  const BUILD_TRAIN: bv32 := 0x0100 + ENABLE_TRAINS + ENABLE_OK_MESSAGE + ENABLE_FAIL_MESSAGE
  const BUILD_TRAIN_IF_SELECTED: bv32 := 0x0200 + ENABLE_TRAINS + ENABLE_OK_MESSAGE + ENABLE_FAIL_MESSAGE
  const PRINT_TRAIN_MANIFEST: bv32 := 0x0300 + ENABLE_TRAINS + ENABLE_OK_MESSAGE + ENABLE_FAIL_MESSAGE
  const PRINT_TRAIN_MANIFEST_IF_SELECTED: bv32 :=
    0x0400 + ENABLE_TRAINS + ENABLE_OK_MESSAGE + ENABLE_FAIL_MESSAGE
  const MOVE_TRAIN: bv32 :=
    0x0500 + ENABLE_TRAINS + ENABLE_ROUTES + ENABLE_OK_MESSAGE + ENABLE_FAIL_MESSAGE
  const TERMINATE_TRAIN: bv32 := 0x0600 + ENABLE_TRAINS + ENABLE_OK_MESSAGE + ENABLE_FAIL_MESSAGE
  const WAIT_FOR_TRAIN: bv32 := 0x0700 + ENABLE_TRAINS + ENABLE_ROUTES + ENABLE_OK_MESSAGE

  const UPDATE_SWITCHLIST: bv32 := 0x1000 + ENABLE_OK_MESSAGE
  const PRINT_SWITCHLIST: bv32 := 0x1100 + ENABLE_OK_MESSAGE

  const STEP_AUTOMATION: bv32 :=
    0x3000 + ENABLE_OK_MESSAGE + ENABLE_FAIL_MESSAGE + ENABLE_AUTOMATION_LIST
  const RUN_AUTOMATION: bv32 :=
    0x3100 + ENABLE_OK_MESSAGE + ENABLE_FAIL_MESSAGE + ENABLE_AUTOMATION_LIST
  const STOP_AUTOMATION: bv32 :=
    0x3200 + ENABLE_OK_MESSAGE + ENABLE_FAIL_MESSAGE + ENABLE_AUTOMATION_LIST
  const RESUME_AUTOMATION: bv32 :=
    0x3300 + ENABLE_OK_MESSAGE + ENABLE_FAIL_MESSAGE + ENABLE_AUTOMATION_LIST

  const MESSAGE: bv32 := 0x4000 + ENABLE_OK_MESSAGE
  const WAIT_MESSAGE_OK: bv32 := 0x4100 + ENABLE_OK_MESSAGE
  const WAIT_MESSAGE_YES_NO: bv32 := 0x4200 + ENABLE_OK_MESSAGE
  const IF_MESSAGE_NO: bv32 := 0x4300 + ENABLE_OK_MESSAGE + ENABLE_GOTO_LIST

  const HALT_ACTION: bv32 := 0xFF00 + ENABLE_OK_MESSAGE

  /** One kind of automation action per code constant. */
  datatype Kind =
    | NoAction
    | BuildTrain | BuildTrainIfSelected | PrintTrainManifest | PrintTrainManifestIfSelected
    | MoveTrain | TerminateTrain | WaitForTrain
    | UpdateSwitchList | PrintSwitchList
    | StepAutomation | RunAutomation | StopAutomation | ResumeAutomation
    | Message | WaitMessageOk | WaitMessageYesNo | IfMessageNo
    | HaltAction

  /** Every kind, in the order the constants are declared. */
  function Kinds(): seq<Kind> {
    [NoAction, BuildTrain, BuildTrainIfSelected, PrintTrainManifest, PrintTrainManifestIfSelected,
     MoveTrain, TerminateTrain, WaitForTrain, UpdateSwitchList, PrintSwitchList,
     StepAutomation, RunAutomation, StopAutomation, ResumeAutomation,
     Message, WaitMessageOk, WaitMessageYesNo, IfMessageNo, HaltAction]
  }

  /** The code constant of each kind: its category byte or-ed with
      `ENABLE_*` bits, the lower byte holding nothing but those bits. */
  function Code(k: Kind): (r: bv32)
    ensures r & 0xFF & !FLAG_BITS == 0
    ensures r == Category(r) | (r & FLAG_BITS)
  {
    match k
    case NoAction => NO_ACTION
    case BuildTrain => BUILD_TRAIN
    case BuildTrainIfSelected => BUILD_TRAIN_IF_SELECTED
    case PrintTrainManifest => PRINT_TRAIN_MANIFEST
    case PrintTrainManifestIfSelected => PRINT_TRAIN_MANIFEST_IF_SELECTED
    case MoveTrain => MOVE_TRAIN
    case TerminateTrain => TERMINATE_TRAIN
    case WaitForTrain => WAIT_FOR_TRAIN
    case UpdateSwitchList => UPDATE_SWITCHLIST
    case PrintSwitchList => PRINT_SWITCHLIST
    case StepAutomation => STEP_AUTOMATION
    case RunAutomation => RUN_AUTOMATION
    case StopAutomation => STOP_AUTOMATION
    case ResumeAutomation => RESUME_AUTOMATION
    case Message => MESSAGE
    case WaitMessageOk => WAIT_MESSAGE_OK
    case WaitMessageYesNo => WAIT_MESSAGE_YES_NO
    case IfMessageNo => IF_MESSAGE_NO
    case HaltAction => HALT_ACTION
  }

  // ------------------------------------------------------------ flags

  datatype Flag = Trains | Routes | OkMessage | FailMessage | AutomationList | GotoList

  function FlagBit(f: Flag): bv32 {
    match f
    case Trains => ENABLE_TRAINS
    case Routes => ENABLE_ROUTES
    case OkMessage => ENABLE_OK_MESSAGE
    case FailMessage => ENABLE_FAIL_MESSAGE
    case AutomationList => ENABLE_AUTOMATION_LIST
    case GotoList => ENABLE_GOTO_LIST
  }

  /** Whether `code` carries flag `f`. */
  predicate HasFlag(code: bv32, f: Flag) {
    code & FlagBit(f) != 0
  }

  /** `code & CODE_MASK`: the category byte of a code. */
  function Category(code: bv32): bv32 {
    code & CODE_MASK
  }

  /** Each flag is a single bit, and all of them lie inside 0x3F. */
  lemma FlagBitIsSingleBit(f: Flag)
    ensures FlagBit(f) != 0 && FlagBit(f) & (FlagBit(f) - 1) == 0
    ensures FlagBit(f) & 0x3F == FlagBit(f)
  {
  }

  /** Two flags share a bit exactly when they are the same flag. */
  lemma FlagBitsDisjoint(f: Flag, g: Flag)
    ensures FlagBit(f) & FlagBit(g) == 0 <==> f != g
  {
  }

  /** Adding bits that do not overlap is the same as or-ing them, so the
      `+` in the code constants composes category and flags bitwise. */
  lemma SumOfDisjointBits(a: bv32, b: bv32)
    requires a & b == 0
    ensures a + b == a | b
  {
  }

  // -------------------------------------------- reference decomposition

  /** The category each constant's declaration starts from. */
  function KindCategory(k: Kind): bv32 {
    match k
    case NoAction => 0x0000
    case BuildTrain => 0x0100
    case BuildTrainIfSelected => 0x0200
    case PrintTrainManifest => 0x0300
    case PrintTrainManifestIfSelected => 0x0400
    case MoveTrain => 0x0500
    case TerminateTrain => 0x0600
    case WaitForTrain => 0x0700
    case UpdateSwitchList => 0x1000
    case PrintSwitchList => 0x1100
    case StepAutomation => 0x3000
    case RunAutomation => 0x3100
    case StopAutomation => 0x3200
    case ResumeAutomation => 0x3300
    case Message => 0x4000
    case WaitMessageOk => 0x4100
    case WaitMessageYesNo => 0x4200
    case IfMessageNo => 0x4300
    case HaltAction => 0xFF00
  }

  /** The flags each constant's declaration adds. */
  function KindFlags(k: Kind): set<Flag> {
    match k
    case NoAction => {OkMessage}
    case BuildTrain => {Trains, OkMessage, FailMessage}
    case BuildTrainIfSelected => {Trains, OkMessage, FailMessage}
    case PrintTrainManifest => {Trains, OkMessage, FailMessage}
    case PrintTrainManifestIfSelected => {Trains, OkMessage, FailMessage}
    case MoveTrain => {Trains, Routes, OkMessage, FailMessage}
    case TerminateTrain => {Trains, OkMessage, FailMessage}
    case WaitForTrain => {Trains, Routes, OkMessage}
    case UpdateSwitchList => {OkMessage}
    case PrintSwitchList => {OkMessage}
    case StepAutomation => {OkMessage, FailMessage, AutomationList}
    case RunAutomation => {OkMessage, FailMessage, AutomationList}
    case StopAutomation => {OkMessage, FailMessage, AutomationList}
    case ResumeAutomation => {OkMessage, FailMessage, AutomationList}
    case Message => {OkMessage}
    case WaitMessageOk => {OkMessage}
    case WaitMessageYesNo => {OkMessage}
    case IfMessageNo => {OkMessage, GotoList}
    case HaltAction => {OkMessage}
  }

  /** The category byte of every code is the one its declaration starts
      from. */
  lemma CodeLayout(k: Kind)
    ensures Category(Code(k)) == KindCategory(k)
  {
    match k
    case NoAction =>
    case BuildTrain =>
    case BuildTrainIfSelected =>
    case PrintTrainManifest =>
    case PrintTrainManifestIfSelected =>
    case MoveTrain =>
    case TerminateTrain =>
    case WaitForTrain =>
    case UpdateSwitchList =>
    case PrintSwitchList =>
    case StepAutomation =>
    case RunAutomation =>
    case StopAutomation =>
    case ResumeAutomation =>
    case Message =>
    case WaitMessageOk =>
    case WaitMessageYesNo =>
    case IfMessageNo =>
    case HaltAction =>
  }

  /** The flags can be read back from a code: a code carries a flag exactly
      when its declaration added that flag. */
  lemma FlagsRecoverable(k: Kind, f: Flag)
    ensures HasFlag(Code(k), f) <==> f in KindFlags(k)
  {
    match k
    case NoAction =>
    case BuildTrain =>
    case BuildTrainIfSelected =>
    case PrintTrainManifest =>
    case PrintTrainManifestIfSelected =>
    case MoveTrain =>
    case TerminateTrain =>
    case WaitForTrain =>
    case UpdateSwitchList =>
    case PrintSwitchList =>
    case StepAutomation =>
    case RunAutomation =>
    case StopAutomation =>
    case ResumeAutomation =>
    case Message =>
    case WaitMessageOk =>
    case WaitMessageYesNo =>
    case IfMessageNo =>
    case HaltAction =>
  }

  // ------------------------------------------- categories are distinct

  /** Reference decoder from category byte to kind. */
  function KindOfCategory(cat: bv32): Option<Kind> {
    if cat == 0x0000 then Some(NoAction)
    else if cat == 0x0100 then Some(BuildTrain)
    else if cat == 0x0200 then Some(BuildTrainIfSelected)
    else if cat == 0x0300 then Some(PrintTrainManifest)
    else if cat == 0x0400 then Some(PrintTrainManifestIfSelected)
    else if cat == 0x0500 then Some(MoveTrain)
    else if cat == 0x0600 then Some(TerminateTrain)
    else if cat == 0x0700 then Some(WaitForTrain)
    else if cat == 0x1000 then Some(UpdateSwitchList)
    else if cat == 0x1100 then Some(PrintSwitchList)
    else if cat == 0x3000 then Some(StepAutomation)
    else if cat == 0x3100 then Some(RunAutomation)
    else if cat == 0x3200 then Some(StopAutomation)
    else if cat == 0x3300 then Some(ResumeAutomation)
    else if cat == 0x4000 then Some(Message)
    else if cat == 0x4100 then Some(WaitMessageOk)
    else if cat == 0x4200 then Some(WaitMessageYesNo)
    else if cat == 0x4300 then Some(IfMessageNo)
    else if cat == 0xFF00 then Some(HaltAction)
    else None
  }

  /** A code's category byte identifies its kind. */
  lemma CategoryIdentifiesKind(k: Kind)
    ensures KindOfCategory(Category(Code(k))) == Some(k)
  {
    CodeLayout(k);
  }

  /** No two kinds share a category, so no two codes collide. */
  lemma CategoriesDistinct(j: Kind, k: Kind)
    requires Category(Code(j)) == Category(Code(k))
    ensures j == k
  {
    CategoryIdentifiesKind(j);
    CategoryIdentifiesKind(k);
  }

  /** Distinct kinds have distinct codes. */
  lemma CodesDistinct(j: Kind, k: Kind)
    requires Code(j) == Code(k)
    ensures j == k
  {
    CategoriesDistinct(j, k);
  }

  /** The kind whose code is `code`, searched in declaration order. */
  function KindOfCode(code: bv32): Option<Kind> {
    Search.FindFirst(Kinds(), Code, code)
  }

  /** Every kind is found again from its code. */
  lemma KindOfCodeRoundTrip(k: Kind)
    ensures KindOfCode(Code(k)) == Some(k)
  {
    assert k in Kinds() by {
      match k
      case NoAction =>
      case BuildTrain =>
      case BuildTrainIfSelected =>
      case PrintTrainManifest =>
      case PrintTrainManifestIfSelected =>
      case MoveTrain =>
      case TerminateTrain =>
      case WaitForTrain =>
      case UpdateSwitchList =>
      case PrintSwitchList =>
      case StepAutomation =>
      case RunAutomation =>
      case StopAutomation =>
      case ResumeAutomation =>
      case Message =>
      case WaitMessageOk =>
      case WaitMessageYesNo =>
      case IfMessageNo =>
      case HaltAction =>
    }
    forall j | j in Kinds() && Code(j) == Code(k) ensures j == k {
      CodesDistinct(j, k);
    }
    Search.FindFirstUnique(Kinds(), Code, k);
  }

  // ---------------------------------------------- which codes carry what

  /** Every code carries `ENABLE_OK_MESSAGE`. */
  lemma EveryCodeHasOkMessage(k: Kind)
    ensures HasFlag(Code(k), OkMessage)
  {
    FlagsRecoverable(k, OkMessage);
  }

  /** The train codes are exactly the categories 0x01..0x07. */
  lemma TrainCodes(k: Kind)
    ensures HasFlag(Code(k), Trains) <==> 0x0100 <= Category(Code(k)) <= 0x0700
  {
    FlagsRecoverable(k, Trains);
    CodeLayout(k);
  }

  /** Only `MOVE_TRAIN` and `WAIT_FOR_TRAIN` carry `ENABLE_ROUTES`. */
  lemma RouteCodes(k: Kind)
    ensures HasFlag(Code(k), Routes) <==> k == MoveTrain || k == WaitForTrain
  {
    FlagsRecoverable(k, Routes);
  }

  /** Among the train codes, all but `WAIT_FOR_TRAIN` carry
      `ENABLE_FAIL_MESSAGE`. */
  lemma TrainFailMessages(k: Kind)
    requires HasFlag(Code(k), Trains)
    ensures HasFlag(Code(k), FailMessage) <==> k != WaitForTrain
  {
    FlagsRecoverable(k, Trains);
    FlagsRecoverable(k, FailMessage);
  }

  /** The automation-list codes are exactly the categories 0x30..0x33. */
  lemma AutomationListCodes(k: Kind)
    ensures HasFlag(Code(k), AutomationList) <==> 0x3000 <= Category(Code(k)) <= 0x3300
  {
    FlagsRecoverable(k, AutomationList);
    CodeLayout(k);
  }

  /** Only `IF_MESSAGE_NO` carries `ENABLE_GOTO_LIST`. */
  lemma GotoListCodes(k: Kind)
    ensures HasFlag(Code(k), GotoList) <==> k == IfMessageNo
  {
    FlagsRecoverable(k, GotoList);
  }
}
