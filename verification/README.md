# JMRI code tables, automation registry and DCC++ sensor addressing

This project models five small pieces of JMRI, the model-railroad control
suite, and proves properties about them.

- **Logix conditional code tables** (`conditional.dfy`, module `Conditional`).
  It covers the `State`, `Operator` and `Action` enums and their legacy integer
  codes, the fourteen per-family action lists, the trigger-option codes and the
  item-type codes. The lookups are first-match searches over `values()`; they
  are written with `Search.FindFirst` and checked against independent
  reference tables.
- **Operations automation action codes** (`actioncodes.dfy`, module
  `ActionCodes`). Each code is a category byte plus `ENABLE_*` flag bits. The
  constants are 32-bit bit vectors, written with `+` as they are declared.
- **The automation registry** (`automation_manager.dfy`, module
  `AutomationManager`). This is a class holding the id-keyed table and the
  id counter. It has create-or-find, register, deregister and clear, and the
  two insertion-sorted views.
- **An automation item** (`automation_item.dfy`, module `AutomationItem`).
  This is a class whose setters store references. Its train, route-location
  and automation getters hand back what was stored only when the current
  action enables that menu. It also has the code-to-action lookup over its
  fixed list.
- **DCC++ sensor addressing** (`dccpp_sensor.dfy`, module `DCCppSensor`).
  The system name is parsed into an address. The address is split into a base
  address, a nibble and a nibble bit. The reply handler sets the sensor
  ACTIVE or INACTIVE.

Shared helpers:

- `wrappers.dfy` holds `Option`.
- `search.dfy` holds the first-match search.
- `java_int.dfy` models the parts of Java's `int` the code relies on:
  - wrap-around;
  - truncating `/` and `%`;
  - `Integer.parseInt` and `Integer.toString`, with the proof that parsing
    undoes printing.

All paths below are relative to the repository root.

## Model

| member | source | states |
|---|---|---|
| Search.FindFirst | java/src/jmri/Conditional.java:68-76 | The `values()` search returns an element with the requested code, and it is the first such element. It returns `None` (the thrown exception) exactly when no element has that code. |
| Search.FindFirstUnique | java/src/jmri/Conditional.java:376-384 | When exactly one element carries a code, the search finds that element. |
| JavaInt.Wrap | java/src/jmri/jmrit/operations/automation/AutomationManager.java:102 | The wrapped value is a Java `int`, it is congruent to the exact result modulo 2^32, and it equals the exact result when that is in range. |
| JavaInt.Div | java/src/jmri/jmrix/dccpp/DCCppSensor.java:63 | Java's `/` truncates toward zero: the remainder it leaves lies in `[0, b)` for `a >= 0` and in `(-b, 0]` for `a < 0`. |
| JavaInt.Rem | java/src/jmri/jmrix/dccpp/DCCppSensor.java:64 | Java's `%` satisfies `a == b*(a/b) + a%b`. It lies in `[0, b)` for `a >= 0` and in `(-b, 0]` for `a < 0`. |
| JavaInt.ParseInt | java/src/jmri/jmrix/dccpp/DCCppSensor.java:60 | Every value `Integer.parseInt` returns is an `int`. |
| JavaInt.ToString | java/src/jmri/jmrit/operations/automation/AutomationManager.java:103 | `Integer.toString` produces only digits and `-`. |
| JavaInt.ParseToString | java/src/jmri/jmrit/operations/automation/AutomationManager.java:103 | Parsing the printed form of any `int` gives that `int` back. |
| JavaInt.ToStringInjective | java/src/jmri/jmrit/operations/automation/AutomationManager.java:102-104 | Distinct counter values print as distinct ids. |
| Conditional.StateIntValue | java/src/jmri/Conditional.java:51-66 | A state's code is one of `NamedBean.UNKNOWN`, `FALSE` and `TRUE`. |
| Conditional.StateCodesInjective | java/src/jmri/Conditional.java:51-54 | No two states share a code. |
| Conditional.StateRoundTrip | java/src/jmri/Conditional.java:68-76 | `getOperatorFromIntValue(s.getIntValue()) == s` for every state. |
| Conditional.StateFromIntValue | java/src/jmri/Conditional.java:68-76 | A state found for `n` has code `n`. When nothing is found (the `IllegalArgumentException`), no state at all has code `n`. |
| Conditional.StateFromIntValueDefined | java/src/jmri/Conditional.java:68-76 | The lookup succeeds exactly for the three state codes. Every other `int` throws. |
| Conditional.OperatorIntValue | java/src/jmri/Conditional.java:103-110 | An operator's code is one of 1, 4 and 5. It is never a deprecated code. Reading it back gives the operator again. |
| Conditional.OperatorFromIntValue | java/src/jmri/Conditional.java:113-123 | The lookup succeeds exactly for the codes 1..6. |
| Conditional.OperatorNormalisation | java/src/jmri/Conditional.java:113-146 | Reading a code and writing it back maps NOT to NONE, AND-NOT to AND and OR-NOT to OR, and keeps every other code. The normalised code reads as the same operator. |
| Conditional.ActionOfCodeComplete | java/src/jmri/Conditional.java:150-227 | The by-code reference table maps every action's code back to that action. |
| Conditional.ActionIntValue | java/src/jmri/Conditional.java:458-535 | Every action's code lies in 1..53. Its partners `ActionOfCodeComplete` and `ActionCodesInjective` tie it to the by-code table and show no two actions share a code. |
| Conditional.ActionItemType | java/src/jmri/Conditional.java:150-227 | Only `NONE` has item type `NONE`; every other action belongs to a family. |
| Conditional.ActionCodesInjective | java/src/jmri/Conditional.java:150-227 | No two actions share a code. |
| Conditional.ActionOfCodeDomain | java/src/jmri/Conditional.java:458-535 | The reference table decodes exactly the codes 1..53. |
| Conditional.ActionOfCodeSound | java/src/jmri/Conditional.java:458-535 | Whatever the reference table decodes a code to carries that code. |
| Conditional.ActionCodesExactly | java/src/jmri/Conditional.java:458-535 | The set of action codes is exactly 1..53. |
| Conditional.ActionInValues | java/src/jmri/Conditional.java:149-227 | `values()` lists every action. |
| Conditional.ActionFromIntValue | java/src/jmri/Conditional.java:376-384 | An action found for `n` is in `values()` and has code `n`. |
| Conditional.ActionRoundTrip | java/src/jmri/Conditional.java:376-384 | `getOperatorFromIntValue(a.getIntValue()) == a` for every action. |
| Conditional.ActionFromIntValueMatchesTable | java/src/jmri/Conditional.java:376-384 | The `values()` search agrees with the reference table on every `int`. It succeeds exactly for 1..53; every other `int` throws. |
| Conditional.FamilyItems | java/src/jmri/Conditional.java:250-304 | Item type `NONE` has the empty list; every family's list is non-empty. |
| Conditional.FamilyItemsHaveItemType | java/src/jmri/Conditional.java:250-304 | Every entry of a family list has that family's item type. |
| Conditional.ItemTypeInFamilyItems | java/src/jmri/Conditional.java:150-227 | Every action that has an item type appears in that family's list. |
| Conditional.FamilyItemsByItemType | java/src/jmri/Conditional.java:250-304 | An action is in family `t`'s list if and only if its item type is `t`. |
| Conditional.FamilyListsPartition | java/src/jmri/Conditional.java:250-304 | The fourteen lists are disjoint. Each action other than `NONE` is in the list of its own item type. `NONE` is in none of them. |
| Conditional.FamilyListNoDuplicates | java/src/jmri/Conditional.java:250-304 | No family list repeats an action. |
| Conditional.FamilyListsTotal | java/src/jmri/Conditional.java:250-304 | The fourteen lists hold 52 entries in all: every action except `NONE`. |
| Conditional.TriggerOptionCodes | java/src/jmri/Conditional.java:452-455 | The trigger options are exactly 1..`NUM_ACTION_OPTIONS` (3). |
| Conditional.ItemTypeCodes | java/src/jmri/Conditional.java:545-560 | `CONDITIONAL` and `LOGIX` share code 7. The other codes are distinct and, with it, fill 1..14. |
| ActionCodes.FlagBitIsSingleBit | java/src/jmri/jmrit/operations/automation/actions/ActionCodes.java:13-18 | Each `ENABLE_*` flag is a single bit inside 0x3F. |
| ActionCodes.FlagBitsDisjoint | java/src/jmri/jmrit/operations/automation/actions/ActionCodes.java:13-18 | Two flags share no bit if and only if they are different flags. |
| ActionCodes.SumOfDisjointBits | java/src/jmri/jmrit/operations/automation/actions/ActionCodes.java:23-46 | Adding values with no common bit equals or-ing them, so the `+` composition is a bitwise union. |
| ActionCodes.CodeLayout | java/src/jmri/jmrit/operations/automation/actions/ActionCodes.java:21-46 | The category `code & CODE_MASK` of every code is the byte its declaration starts from. |
| ActionCodes.Code | java/src/jmri/jmrit/operations/automation/actions/ActionCodes.java:13-46 | Every code is its category byte or-ed with `ENABLE_*` bits, and its low byte holds nothing else. |
| ActionCodes.FlagsRecoverable | java/src/jmri/jmrit/operations/automation/actions/ActionCodes.java:23-46 | A code carries a flag if and only if its declaration adds that flag. |
| ActionCodes.CategoryIdentifiesKind | java/src/jmri/jmrit/operations/automation/actions/ActionCodes.java:21-46 | The category byte alone identifies the action, by an independent category table. |
| ActionCodes.CategoriesDistinct | java/src/jmri/jmrit/operations/automation/actions/ActionCodes.java:23-46 | No two actions share a category. |
| ActionCodes.CodesDistinct | java/src/jmri/jmrit/operations/automation/actions/ActionCodes.java:23-46 | No two action codes collide. |
| ActionCodes.KindOfCodeRoundTrip | java/src/jmri/jmrit/operations/automation/actions/ActionCodes.java:23-46 | Searching the constants for a code finds the action it was built for. |
| ActionCodes.EveryCodeHasOkMessage | java/src/jmri/jmrit/operations/automation/actions/ActionCodes.java:23-46 | Every code carries `ENABLE_OK_MESSAGE`. |
| ActionCodes.TrainCodes | java/src/jmri/jmrit/operations/automation/actions/ActionCodes.java:25-31 | A code carries `ENABLE_TRAINS` exactly when its category is 0x0100..0x0700. |
| ActionCodes.RouteCodes | java/src/jmri/jmrit/operations/automation/actions/ActionCodes.java:29-31 | Only `MOVE_TRAIN` and `WAIT_FOR_TRAIN` carry `ENABLE_ROUTES`. |
| ActionCodes.TrainFailMessages | java/src/jmri/jmrit/operations/automation/actions/ActionCodes.java:25-31 | Among the train codes, all carry `ENABLE_FAIL_MESSAGE` except `WAIT_FOR_TRAIN`. |
| ActionCodes.AutomationListCodes | java/src/jmri/jmrit/operations/automation/actions/ActionCodes.java:36-39 | A code carries `ENABLE_AUTOMATION_LIST` exactly when its category is 0x3000..0x3300. |
| ActionCodes.GotoListCodes | java/src/jmri/jmrit/operations/automation/actions/ActionCodes.java:44 | Only `IF_MESSAGE_NO` carries `ENABLE_GOTO_LIST`. |
| AutomationManager.FoldString | java/src/jmri/jmrit/operations/automation/AutomationManager.java:150 | Case folding keeps the length of a name and folds each character in place. |
| AutomationManager.LexLess | java/src/jmri/jmrit/operations/automation/AutomationManager.java:150 | A proper prefix of a name compares below it. |
| AutomationManager.LexLessIrreflexive | java/src/jmri/jmrit/operations/automation/AutomationManager.java:150 | No name compares below itself. |
| AutomationManager.LexLessTotal | java/src/jmri/jmrit/operations/automation/AutomationManager.java:150 | Of two different names exactly one compares below the other. |
| AutomationManager.LexLessTransitive | java/src/jmri/jmrit/operations/automation/AutomationManager.java:150 | The name comparison is transitive. |
| AutomationManager.NameLess | java/src/jmri/jmrit/operations/automation/AutomationManager.java:150 | Names equal ignoring case never compare below each other. |
| AutomationManager.NameLessTrichotomy | java/src/jmri/jmrit/operations/automation/AutomationManager.java:148-157 | Two automations are unordered exactly when their names are equal ignoring case, so the insertion keeps them in the order it meets them. Otherwise exactly one is less. |
| AutomationManager.NameLessIsStrictOrder | java/src/jmri/jmrit/operations/automation/AutomationManager.java:150 | "Greater ignoring case" is a strict order on automations. |
| AutomationManager.IdLess | java/src/jmri/jmrit/operations/automation/AutomationManager.java:174-181 | An id that does not parse (the caught `NumberFormatException`) is neither less nor greater than any id. |
| AutomationManager.IdLessOfPrintedIds | java/src/jmri/jmrit/operations/automation/AutomationManager.java:174-181 | For ids printed from `int`s, as `newAutomation` makes them, the id order is the numeric order. |
| AutomationManager.IdLessIsStrictOrder | java/src/jmri/jmrit/operations/automation/AutomationManager.java:174-181 | "Numerically greater id" is a strict order, even when an id does not parse. |
| AutomationManager.SortedByIdAscends | java/src/jmri/jmrit/operations/automation/AutomationManager.java:168-188 | A list sorted this way whose ids all parse ascends by numeric id. |
| AutomationManager.InsertionSort | java/src/jmri/jmrit/operations/automation/AutomationManager.java:144-161 | Inserting each element before the first strictly greater one yields a permutation of the input that is sorted. |
| AutomationManager.InsertOne | java/src/jmri/jmrit/operations/automation/AutomationManager.java:148-157 | One round of the loop adds exactly the new automation to the sorted list, which stays sorted. |
| AutomationManager.InsertKeepsSorted | java/src/jmri/jmrit/operations/automation/AutomationManager.java:148-157 | Inserting before the first strictly greater element keeps a sorted list sorted. |
| AutomationManager.PermutationEnumerates | java/src/jmri/jmrit/operations/automation/AutomationManager.java:144-161 | A permutation of a list of the table's entries also lists each entry exactly once. |
| AutomationManager.MultiplicityOfRepeat | java/src/jmri/jmrit/operations/automation/AutomationManager.java:144-161 | An element that occurs twice has multiplicity at least two. |
| AutomationManager.DistinctMultiplicity | java/src/jmri/jmrit/operations/automation/AutomationManager.java:144-161 | In a list without repeats every element has multiplicity at most one. |
| AutomationManager.AutomationManager.constructor | java/src/jmri/jmrit/operations/automation/AutomationManager.java:35-42 | A new manager has an empty table and counter 0. |
| AutomationManager.AutomationManager.Dispose | java/src/jmri/jmrit/operations/automation/AutomationManager.java:58-60 | `dispose` empties the table and leaves the counter as it was. |
| AutomationManager.AutomationManager.NumEntries | java/src/jmri/jmrit/operations/automation/AutomationManager.java:68-70 | `numEntries` is the table size. |
| AutomationManager.AutomationManager.GetAutomationById | java/src/jmri/jmrit/operations/automation/AutomationManager.java:87-89 | The lookup finds the entry stored under the id, or null when there is none. In a valid table, what it finds has that id. |
| AutomationManager.AutomationManager.GetAutomationByName | java/src/jmri/jmrit/operations/automation/AutomationManager.java:75-85 | The result is a table entry with the requested name. It is null exactly when no entry has that name. |
| AutomationManager.AutomationManager.NewAutomation | java/src/jmri/jmrit/operations/automation/AutomationManager.java:99-110 | With a name already present, the existing entry is returned and nothing changes. Otherwise the counter goes up by one (with `int` wrap-around), and a new automation keyed by the printed counter is added. While the counter is below `MAX_VALUE` and bounds every numeric key, that key is fresh and the table grows by one. |
| AutomationManager.AutomationManager.Register | java/src/jmri/jmrit/operations/automation/AutomationManager.java:115-124 | The automation is stored under its id. The counter becomes the larger of itself and the parsed id. A non-numeric id throws after the store. The counter still bounds every numeric key. |
| AutomationManager.AutomationManager.Deregister | java/src/jmri/jmrit/operations/automation/AutomationManager.java:129-137 | null changes nothing. Otherwise only the automation's key is removed and every other entry stays. |
| AutomationManager.AutomationManager.GetList | java/src/jmri/jmrit/operations/automation/AutomationManager.java:190-197 | The list holds every entry of the table exactly once, in any order. |
| AutomationManager.AutomationManager.GetAutomationsByNameList | java/src/jmri/jmrit/operations/automation/AutomationManager.java:144-161 | The list is a permutation of the table's entries, sorted by name ignoring case. |
| AutomationManager.AutomationManager.GetAutomationsByIdList | java/src/jmri/jmrit/operations/automation/AutomationManager.java:168-188 | The list is a permutation of the table's entries, sorted by numeric id. When every id parses, the ids ascend. |
| AutomationManager.GetActionByCode | java/src/jmri/jmrit/operations/automation/AutomationManager.java:223-229 | An action found for a code is in the manager's list and has that code. |
| AutomationManager.GetActionByCodeBlank | java/src/jmri/jmrit/operations/automation/AutomationManager.java:203-229 | The blank entry heads the list, so its own code finds it. |
| AutomationManager.GetActionByCodeListed | java/src/jmri/jmrit/operations/automation/AutomationManager.java:203-229 | A listed action's code finds that action, unless the blank entry has the same code. |
| AutomationManager.GetActionByCodeMissing | java/src/jmri/jmrit/operations/automation/AutomationManager.java:223-229 | The lookup returns null exactly when no listed action has the code. |
| AutomationItem.TrainMenuKinds | java/src/jmri/jmrit/operations/automation/AutomationItem.java:112-117 | The train menu is on for exactly the seven train actions. |
| AutomationItem.RouteMenuKinds | java/src/jmri/jmrit/operations/automation/AutomationItem.java:127-132 | The route menu is on for exactly `MOVE_TRAIN` and `WAIT_FOR_TRAIN`. |
| AutomationItem.AutomationMenuKinds | java/src/jmri/jmrit/operations/automation/AutomationItem.java:155-160 | The automation menu is on for exactly the step, run, stop and resume automation actions. |
| AutomationItem.Action.constructor | java/src/jmri/jmrit/operations/automation/AutomationItem.java:208-214 | A new action has its kind and is not linked to any item. |
| AutomationItem.Action.Code | java/src/jmri/jmrit/operations/automation/actions/TerminateTrainAction.java:7-12 | An action's code is its kind's constant, and the full code table decodes it back to that kind. |
| AutomationItem.ActionKindByCodeOfKind | java/src/jmri/jmrit/operations/automation/AutomationItem.java:183-214 | A kind's code finds that kind when it is in the item's list, and finds nothing otherwise. |
| AutomationItem.ActionKindByCode | java/src/jmri/jmrit/operations/automation/AutomationItem.java:208-214 | A kind found for a code is in the item's action list and has that code. It is the kind the full code table gives for the code. |
| AutomationItem.UnlistedKinds | java/src/jmri/jmrit/operations/automation/AutomationItem.java:183-199 | The item's list omits exactly the print-switch-list, step-automation and four message actions. |
| AutomationItem.AutomationItem.constructor | java/src/jmri/jmrit/operations/automation/AutomationItem.java:53-57 | A new item has its id, sequence 0, empty references and messages, and a fresh no-action that links back to it. |
| AutomationItem.AutomationItem.SetSequenceId | java/src/jmri/jmrit/operations/automation/AutomationItem.java:71-74 | Only the sequence id changes. |
| AutomationItem.AutomationItem.SetAction | java/src/jmri/jmrit/operations/automation/AutomationItem.java:76-85 | The action is stored, a non-null action is linked back to the item, and no other field changes. |
| AutomationItem.AutomationItem.GetActionCode | java/src/jmri/jmrit/operations/automation/AutomationItem.java:91-96 | The code decodes to the action's kind, or to `NO_ACTION` when there is no action. It always carries `ENABLE_OK_MESSAGE`. |
| AutomationItem.AutomationItem.SetTrain | java/src/jmri/jmrit/operations/automation/AutomationItem.java:104-110 | The train is stored unconditionally, and nothing else changes. |
| AutomationItem.AutomationItem.GetTrain | java/src/jmri/jmrit/operations/automation/AutomationItem.java:112-117 | The stored train is returned exactly when the action is one of the seven train actions (build, build if selected, print manifest, print manifest if selected, move, terminate, wait). Otherwise, or without an action, the result is null. |
| AutomationItem.AutomationItem.SetRouteLocation | java/src/jmri/jmrit/operations/automation/AutomationItem.java:119-125 | The route location is stored unconditionally, and nothing else changes. |
| AutomationItem.AutomationItem.GetRouteLocation | java/src/jmri/jmrit/operations/automation/AutomationItem.java:127-132 | The stored route location is returned exactly when the action moves or waits for a train. Otherwise, or without an action, the result is null. |
| AutomationItem.AutomationItem.SetAutomation | java/src/jmri/jmrit/operations/automation/AutomationItem.java:139-148 | The automation's id is stored, or `NONE` for null, and nothing else changes. |
| AutomationItem.AutomationItem.GetAutomation | java/src/jmri/jmrit/operations/automation/AutomationItem.java:155-160 | For the four automation actions (step, run, stop, resume) the manager's entry under the stored id is returned, and it carries that id. Otherwise, or without an action, the result is null. |
| AutomationItem.AutomationItem.SetMessage | java/src/jmri/jmrit/operations/automation/AutomationItem.java:162-168 | A change is fired exactly when the new message differs from the old. The new message, possibly null, is stored. Once the stored message is null, the call fails with the `NullPointerException` and stores nothing. Nothing else changes. |
| AutomationItem.AutomationItem.CopyItem | java/src/jmri/jmrit/operations/automation/AutomationItem.java:174-176 | The other item's message is copied, and nothing else. It fails like `setMessage` once this item's message is null. |
| AutomationItem.AutomationItem.GetActionByCode | java/src/jmri/jmrit/operations/automation/AutomationItem.java:208-214 | The result is null exactly when no listed kind has the code. Otherwise it is a new, unlinked action of the first listed kind with that code. |
| DCCppSensor.LastIndexOf | java/src/jmri/jmrix/dccpp/DCCppSensor.java:60 | `lastIndexOf` gives -1 or an index holding the character, and no later index holds it. |
| DCCppSensor.ParseAddress | java/src/jmri/jmrix/dccpp/DCCppSensor.java:60 | A parsed address is an `int`. When the name has no `S`, the whole name is parsed. |
| DCCppSensor.ParseAddressOfName | java/src/jmri/jmrix/dccpp/DCCppSensor.java:60 | A name made of any prefix, an `S` and a printed `int` yields that `int` as the address. |
| DCCppSensor.Decompose | java/src/jmri/jmrix/dccpp/DCCppSensor.java:63-86 | For every `int` address the nibble is 0x00 or 0x10, and the nibble bit is 0x00 or a single bit among 0x01, 0x02, 0x04 and 0x08. |
| DCCppSensor.DecomposePositive | java/src/jmri/jmrix/dccpp/DCCppSensor.java:63-86 | For an address of at least 1, Java's `/` and `%` act like Euclidean ones. The position is the group `(address-1)/8`, the nibble for `(address-1)%8`, and the bit for its remainder modulo 4. |
| DCCppSensor.DecomposeReconstructs | java/src/jmri/jmrix/dccpp/DCCppSensor.java:63-64 | For an address of at least 1, the base address is `(address-1)/8`, and `8*base + (address-1)%8 + 1 == address`. |
| DCCppSensor.NibbleAndBit | java/src/jmri/jmrix/dccpp/DCCppSensor.java:64-86 | For an address of at least 1, the nibble is 0x00 for positions 0..3 of the group and 0x10 otherwise. The nibble bit is `1 << ((address-1)%4)`, one of 0x01, 0x02, 0x04 and 0x08. |
| DCCppSensor.NibbleBitZeroBelowOne | java/src/jmri/jmrix/dccpp/DCCppSensor.java:71-86 | The 0x00 default bit occurs only for addresses below 1. |
| DCCppSensor.NoBitNearZero | java/src/jmri/jmrix/dccpp/DCCppSensor.java:63-86 | Addresses 0, -1 and -2 all fall into the default: base 0, nibble 0x00, bit 0x00, so below 1 distinct addresses share a position. |
| DCCppSensor.PositionIdentifiesAddress | java/src/jmri/jmrix/dccpp/DCCppSensor.java:63-91 | Every address of at least 1 is recovered from its base, nibble and bit. |
| DCCppSensor.PositionsDistinct | java/src/jmri/jmrix/dccpp/DCCppSensor.java:63-86 | Two addresses of at least 1 with the same position are equal. |
| DCCppSensor.NextState | java/src/jmri/jmrix/dccpp/DCCppSensor.java:148-167 | Only a sensor reply for this address changes the state, and a known state never falls back to unknown. |
| DCCppSensor.NextStateOfOwnReply | java/src/jmri/jmrix/dccpp/DCCppSensor.java:153-164 | After a reply for this sensor the state is known and independent of the previous state. It is ACTIVE exactly when the reply carries `SENSOR_ON`. |
| DCCppSensor.NextStateIdempotent | java/src/jmri/jmrix/dccpp/DCCppSensor.java:148-167 | Handling the same reply twice is the same as handling it once. |
| DCCppSensor.Sensor.constructor | java/src/jmri/jmrix/dccpp/DCCppSensor.java:37-97 | The sensor keeps its name and the parsed address, and holds that address's base, nibble and bit. It starts with no status requested and an unknown state. |
| DCCppSensor.Sensor.Message | java/src/jmri/jmrix/dccpp/DCCppSensor.java:148-167 | The state becomes the reply's effect on the old state. `statusRequested` is kept. |
| DCCppSensor.Sensor.InitMessage | java/src/jmri/jmrix/dccpp/DCCppSensor.java:133-137 | It has the same effect on the state as `message`, and `statusRequested` is restored to its value before the call. |
| DCCppSensor.Sensor.MessageOut | java/src/jmri/jmrix/dccpp/DCCppSensor.java:170-171 | Outgoing messages change nothing. |
| DCCppSensor.Sensor.NotifyTimeout | java/src/jmri/jmrix/dccpp/DCCppSensor.java:174-178 | A timeout changes nothing. |
| DCCppSensor.NewSensor | java/src/jmri/jmrix/dccpp/DCCppSensor.java:37-60 | Construction fails exactly when the name does not parse. Otherwise the sensor has the parsed address and its position. |

The per-run helper lemmas in `conditional.dfy` (`...Part1` to `...Part18`)
each prove one run of cases of the lemma they are named after.

## Left out

- Conditional evaluation: `calculate`, `validateAntecedent`, the timer cancellation methods and `setLogicType` are only declared in the `Conditional` interface. They have no body to model.
- The `State` code `NamedBean.UNKNOWN` is taken to be 0x01; `NamedBean` is not part of this model. Only the item types used by `Action` are modelled, because the `ItemType` enum is not part of this model.
- Display strings: every `toString()`, `ResourceBundle` and `Bundle.getMessage` text.
- Listeners, `PropertyChangeSupport` events, dirty flags, XML `load`/`store`, the XML constructors, the `JComboBox` helpers, the singleton `instance()`, logging and `synchronized`. These are notification, persistence, UI and concurrency, not state the core computes.
- `AutomationManager.AutomationManager.GetList`: `Hashtable` enumeration order is unspecified, so the list's order is left open.
- `AutomationManager.AutomationManager.Deregister`: the call to `Automation.dispose()` is not modelled; `Automation` is not part of this model. Automations are values with an id and a name, not objects with identity. In a valid table every key equals its entry's id, so entries are distinct and `out.contains(x)` in the sort views is membership.
- `AutomationManager.AutomationManager.NewAutomation`: the fresh-key and size-grows-by-one conclusions are stated only while the counter is below `Integer.MAX_VALUE`. At `MAX_VALUE` the counter wraps to `MIN_VALUE`, and the printed id may already be a key.
- `AutomationManager.NameLess`: `compareToIgnoreCase` folds ASCII letters only. Non-ASCII case mapping is not modelled. Characters are compared as Unicode scalar values, while Java compares UTF-16 code units. So a name with a supplementary character orders differently: U+1F600 comes before U+FF00 in Java and after it here.
- `JavaInt.ParseInt`: only ASCII digits are accepted. Java also accepts other Unicode decimal digits.
- `AutomationManager.GetActionByCode`: the code of `BlankAction` is a parameter, because `BlankAction` is not part of this model. The action classes not in this model (`NoAction`, `BuildTrainAction`, ...) are taken to return the `ActionCodes` constant of the same name.
- The automation action classes' `doAction` bodies call into `Train` and `Automation`, which are not part of this model. Only their codes are used.
- `AutomationItem.TrainMenuEnabled`, `AutomationItem.RouteMenuEnabled` and `AutomationItem.AutomationMenuEnabled`: `Action.isTrainMenuEnabled()` and its siblings are taken to test the `ENABLE_TRAINS`, `ENABLE_ROUTES` and `ENABLE_AUTOMATION_LIST` bits of the action's code; `Action` is not part of this model. `Train`, `RouteLocation` and `Automation` are opaque values.
- `AutomationItem.AutomationItem`: `doAction`, `dispose` and the id, sequence and message getters (plain field reads) are not modelled separately.
- `DCCppSensor.SENSOR_ON`: `DCCppConstants` is not part of this model, and the parsed value of `SENSOR_ON` is taken to be 1. `DCCppReply` is reduced to the three values the sensor reads.
- `DCCppSensor.Sensor`: the sensor state stands for `AbstractSensor`'s known state, starting at UNKNOWN. The `setOwnState` listener firing and the traffic controller are not modelled. `requestUpdateFromLayout` has an empty body. The getters `getNumber`, `getBaseAddress` and `getNibble` are the constant fields `address`, `baseAddress` and `nibble`.
- `DCCppSensor.Sensor.constructor`: a name that does not parse makes the Java constructor throw. The Dafny constructor requires a parsable name, and `NewSensor` models the throwing case as `null`.
- LoaderPane (Swing, file reading and OpenLCB network download), PacketGenAction, JsonTurnoutServiceFactory and the test files are GUI, network and service wiring outside this core.
