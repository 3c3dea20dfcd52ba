/** The automation registry: a table of automations keyed by id, a counter
    for generating new ids, lookups by name and by id, two sorted views,
    and the fixed list of actions the manager offers. */
module AutomationManager {
  import opened Wrappers
  import JavaInt
  import ActionCodes
  import Search

  /** An automation as the manager sees it: its id and its name. */
  datatype Automation = Automation(id: string, name: string)

  /** No element occurs twice. */
  predicate Distinct<T(==)>(s: seq<T>) {
    forall i, j :: 0 <= i < j < |s| ==> s[i] != s[j]
  }

  /** `out` lists the table's automations, each exactly once. */
  ghost predicate Enumerates(out: seq<Automation>, table: map<string, Automation>) {
    Distinct(out) && |out| == |table| && forall a :: a in out <==> a in table.Values
  }

  // ---------------------------------------------------------- orderings

  /** `less` is a strict order: irreflexive and transitive. */
  ghost predicate StrictOrder<T(!new)>(less: (T, T) -> bool) {
    (forall a :: !less(a, a)) &&
    (forall a, b, c :: less(a, b) && less(b, c) ==> less(a, c))
  }

  /** No element is strictly below an element placed before it. */
  predicate SortedBy<T>(s: seq<T>, less: (T, T) -> bool) {
    forall i, j :: 0 <= i < j < |s| ==> !less(s[j], s[i])
  }

  /** The case folding `compareToIgnoreCase` applies, for ASCII letters. */
  function FoldCase(c: char): char {
    if 'A' <= c <= 'Z' then (c as int - 'A' as int + 'a' as int) as char else c
  }

  /** The string with every character folded. */
  function FoldString(s: string): (r: string)
    ensures |r| == |s|
    ensures forall i :: 0 <= i < |s| ==> r[i] == FoldCase(s[i])
  {
    if |s| == 0 then [] else [FoldCase(s[0])] + FoldString(s[1..])
  }

  /** Lexicographic order on strings: the first differing character
      decides, and a proper prefix comes first. */
  predicate LexLess(s: string, t: string)
    ensures |s| < |t| && s == t[..|s|] ==> LexLess(s, t)
  {
    if |s| == 0 then |t| > 0
    else if |t| == 0 then false
    else if s[0] != t[0] then s[0] < t[0]
    else
      assert |s| < |t| && s == t[..|s|] ==> s[1..] == t[1..][..|s| - 1];
      LexLess(s[1..], t[1..])
  }

  lemma {:induction false} LexLessIrreflexive(s: string)
    ensures !LexLess(s, s)
  {
    if |s| > 0 {
      LexLessIrreflexive(s[1..]);
    }
  }

  /** Of two different strings exactly one is less than the other. */
  lemma {:induction false} LexLessTotal(s: string, t: string)
    ensures s != t ==> (LexLess(s, t) <==> !LexLess(t, s))
  {
    if |s| > 0 && |t| > 0 && s[0] == t[0] {
      assert s == [s[0]] + s[1..] && t == [t[0]] + t[1..];
      LexLessTotal(s[1..], t[1..]);
    }
  }

  lemma {:induction false} LexLessTransitive(a: string, b: string, c: string)
    requires LexLess(a, b) && LexLess(b, c)
    ensures LexLess(a, c)
  {
    if |a| > 0 && |b| > 0 && |c| > 0 && a[0] == b[0] && b[0] == c[0] {
      LexLessTransitive(a[1..], b[1..], c[1..]);
    }
  }

  /** `a.getName().compareToIgnoreCase(b.getName()) < 0`: names that are
      equal ignoring case are never less. */
  predicate NameLess(a: Automation, b: Automation)
    ensures NameLess(a, b) ==> FoldString(a.name) != FoldString(b.name)
  {
    LexLessIrreflexive(FoldString(a.name));
    LexLess(FoldString(a.name), FoldString(b.name))
  }

  /** Two automations are unordered exactly when their names are equal
      ignoring case, so the sort keeps such names in the order it meets
      them; otherwise exactly one is less. */
  lemma NameLessTrichotomy(a: Automation, b: Automation)
    ensures FoldString(a.name) == FoldString(b.name) <==> !NameLess(a, b) && !NameLess(b, a)
    ensures !(NameLess(a, b) && NameLess(b, a))
  {
    LexLessTotal(FoldString(a.name), FoldString(b.name));
  }

  /** `Integer.parseInt(a.getId()) < Integer.parseInt(b.getId())`, where a
      `NumberFormatException` is caught and counts as "not less": an
      automation whose id is not a number is less than nothing and nothing
      is less than it. */
  predicate IdLess(a: Automation, b: Automation)
    ensures JavaInt.ParseInt(a.id).None? ==> !IdLess(a, b)
    ensures JavaInt.ParseInt(b.id).None? ==> !IdLess(a, b)
  {
    var x := JavaInt.ParseInt(a.id);
    var y := JavaInt.ParseInt(b.id);
    x.Some? && y.Some? && x.value < y.value
  }

  lemma NameLessIsStrictOrder()
    ensures StrictOrder(NameLess)
  {
    forall a: Automation ensures !NameLess(a, a) {
      LexLessIrreflexive(FoldString(a.name));
    }
    forall a: Automation, b: Automation, c: Automation | NameLess(a, b) && NameLess(b, c)
      ensures NameLess(a, c)
    {
      LexLessTransitive(FoldString(a.name), FoldString(b.name), FoldString(c.name));
    }
  }

  /** For ids printed from `int`s, as `newAutomation` makes them, the id
      order is the numeric order. */
  lemma IdLessOfPrintedIds(a: Automation, b: Automation, m: int, n: int)
    requires JavaInt.InRange(m) && JavaInt.InRange(n)
    requires a.id == JavaInt.ToString(m) && b.id == JavaInt.ToString(n)
    ensures IdLess(a, b) <==> m < n
  {
    JavaInt.ParseToString(m);
    JavaInt.ParseToString(n);
  }

  lemma IdLessIsStrictOrder()
    ensures StrictOrder(IdLess)
  {
  }

  /** Every id of the list is numeric. */
  predicate AllIdsNumeric(s: seq<Automation>) {
    forall i :: 0 <= i < |s| ==> JavaInt.ParseInt(s[i].id).Some?
  }

  /** A list sorted by `IdLess` whose ids are all numeric ascends by id. */
  lemma SortedByIdAscends(s: seq<Automation>, i: int, j: int)
    requires SortedBy(s, IdLess) && AllIdsNumeric(s)
    requires 0 <= i < j < |s|
    ensures JavaInt.ParseInt(s[i].id).value <= JavaInt.ParseInt(s[j].id).value
  {
    assert !IdLess(s[j], s[i]);
  }

  // --------------------------------------------------- insertion sort

  /** The re-sort loop shared by `getAutomationsByNameList` and
      `getAutomationsByIdList`: each element is inserted before the first
      element it is strictly less than, or appended when there is none. */
  method InsertionSort<T(==, !new)>(list: seq<T>, less: (T, T) -> bool) returns (out: seq<T>)
    requires Distinct(list)
    requires StrictOrder(less)
    ensures multiset(out) == multiset(list)
    ensures SortedBy(out, less)
  {
    out := [];
    for n := 0 to |list|
      invariant multiset(out) == multiset(list[..n])
      invariant SortedBy(out, less)
    {
      var x := list[n];
      assert x !in out by {
        assert x !in list[..n];
        assert x !in multiset(list[..n]);
      }
      out := InsertOne(out, x, less);
      assert list[..n + 1] == list[..n] + [x];
    }
    assert list[..|list|] == list;
  }

  /** One round of the re-sort: `x` goes before the first element of `out`
      it is strictly less than; when the scan ends and `out.contains(x)` is
      still false, it is appended. */
  method InsertOne<T(==, !new)>(sorted: seq<T>, x: T, less: (T, T) -> bool) returns (out: seq<T>)
    requires StrictOrder(less)
    requires SortedBy(sorted, less)
    requires x !in sorted
    ensures multiset(out) == multiset(sorted) + multiset{x}
    ensures SortedBy(out, less)
  {
    out := sorted;
    var j := 0;
    while j < |out|
      invariant 0 <= j <= |out|
      invariant out == sorted
      invariant forall i :: 0 <= i < j ==> !less(x, out[i])
    {
      if less(x, out[j]) {
        InsertKeepsSorted(out, j, x, less);
        InsertAddsOne(out, j, x);
        out := out[..j] + [x] + out[j..];
        assert out[j] == x;
        break;
      }
      j := j + 1;
    }
    if x !in out {
      AppendKeepsSorted(out, x, less);
      out := out + [x];
    }
  }

  /** Inserting `x` before the first element it is strictly less than keeps
      a sorted list sorted. */
  lemma InsertKeepsSorted<T(!new)>(s: seq<T>, j: int, x: T, less: (T, T) -> bool)
    requires StrictOrder(less)
    requires SortedBy(s, less)
    requires 0 <= j < |s| && less(x, s[j])
    requires forall i :: 0 <= i < j ==> !less(x, s[i])
    ensures SortedBy(s[..j] + [x] + s[j..], less)
  {
    var r := s[..j] + [x] + s[j..];
    forall p, q | 0 <= p < q < |r| ensures !less(r[q], r[p]) {
      if q == j {
      } else if p == j {
        var k := q - 1;
        assert r[q] == s[k];
      } else {
        var p' := if p < j then p else p - 1;
        var q' := if q < j then q else q - 1;
        assert r[p] == s[p'] && r[q] == s[q'];
      }
    }
  }

  /** Inserting `x` at `j` adds one `x` to the elements. */
  lemma InsertAddsOne<T>(s: seq<T>, j: int, x: T)
    requires 0 <= j <= |s|
    ensures multiset(s[..j] + [x] + s[j..]) == multiset(s) + multiset{x}
  {
    assert s == s[..j] + s[j..];
  }

  /** Appending an element no earlier element is above keeps a list sorted. */
  lemma AppendKeepsSorted<T>(s: seq<T>, x: T, less: (T, T) -> bool)
    requires SortedBy(s, less)
    requires forall i :: 0 <= i < |s| ==> !less(x, s[i])
    ensures SortedBy(s + [x], less)
  {
    var r := s + [x];
    forall p, q | 0 <= p < q < |r| ensures !less(r[q], r[p]) {
      assert r[p] == s[p];
    }
  }

  /** A permutation of a duplicate-free enumeration of the table is again an
      enumeration of it. */
  lemma PermutationEnumerates(out: seq<Automation>, list: seq<Automation>, table: map<string, Automation>)
    requires Enumerates(list, table)
    requires multiset(out) == multiset(list)
    ensures Enumerates(out, table)
  {
    assert |out| == |list| by {
      assert |multiset(out)| == |multiset(list)|;
    }
    forall a ensures a in out <==> a in list {
      assert a in out <==> a in multiset(out);
      assert a in list <==> a in multiset(list);
    }
    forall i, j | 0 <= i < j < |out| ensures out[i] != out[j] {
      if out[i] == out[j] {
        MultiplicityOfRepeat(out, i, j);
        DistinctMultiplicity(list, out[i]);
        assert false;
      }
    }
  }

  lemma MultiplicityOfRepeat<T>(s: seq<T>, i: int, j: int)
    requires 0 <= i < j < |s| && s[i] == s[j]
    ensures multiset(s)[s[i]] >= 2
  {
    assert s == s[..i] + [s[i]] + s[i + 1..j] + [s[j]] + s[j + 1..];
  }

  lemma {:induction false} DistinctMultiplicity<T>(s: seq<T>, x: T)
    requires Distinct(s)
    ensures multiset(s)[x] <= 1
  {
    if |s| > 0 {
      assert s == [s[0]] + s[1..];
      DistinctMultiplicity(s[1..], x);
      if x == s[0] {
        assert x !in s[1..];
      }
    }
  }

  // --------------------------------------------------------- the manager

  class AutomationManager {
    /** `_automationHashTable`: the automations by id. */
    var table: map<string, Automation>
    /** `_id`: the last id generated or registered. */
    var lastId: int

    /** Every entry is stored under its own id, and the counter is an `int`. */
    ghost predicate Valid()
      reads this
    {
      JavaInt.InRange(lastId) &&
      forall k :: k in table ==> table[k].id == k
    }

    /** Every numeric key is at most `lastId`, so the next generated id is
        not in use. */
    ghost predicate IdsBounded()
      reads this
    {
      forall k :: k in table && JavaInt.ParseInt(k).Some? ==> JavaInt.ParseInt(k).value <= lastId
    }

    constructor()
      ensures table == map[] && lastId == 0
      ensures Valid() && IdsBounded()
    {
      table := map[];
      lastId := 0;
    }

    /** `dispose()`: the table is emptied; the counter is kept. */
    method Dispose()
      requires Valid()
      modifies this
      ensures table == map[] && lastId == old(lastId)
      ensures Valid() && IdsBounded()
    {
      table := map[];
    }

    /** `numEntries()`. */
    method NumEntries() returns (n: int)
      ensures n == |table|
    {
      n := |table|;
    }

    /** `getAutomationById(id)`: the entry stored under `id`, if any. */
    function GetAutomationById(id: string): (r: Option<Automation>)
      reads this
      ensures r.Some? <==> id in table
      ensures r.Some? ==> r.value == table[id]
      ensures Valid() && r.Some? ==> r.value.id == id
    {
      if id in table then Some(table[id]) else None
    }

    /** `getAutomationByName(name)`: walks the table's values in an order the
        table chooses and returns the first with that name. */
    method GetAutomationByName(name: string) returns (r: Option<Automation>)
      ensures r.Some? ==> r.value in table.Values && r.value.name == name
      ensures r.None? <==> forall a :: a in table.Values ==> a.name != name
    {
      var rest := table.Values;
      while rest != {}
        invariant rest <= table.Values
        invariant forall a :: a in table.Values - rest ==> a.name != name
        decreases |rest|
      {
        var s :| s in rest;
        if s.name == name {
          return Some(s);
        }
        rest := rest - {s};
      }
      return None;
    }

    /** `newAutomation(name)`: returns the automation with that name when
        there is one and changes nothing; otherwise advances the counter
        (wrapping like a Java `int`) and stores a new automation under the
        counter's decimal string. */
    method NewAutomation(name: string) returns (a: Automation)
      requires Valid()
      modifies this
      ensures Valid()
      ensures a.name == name
      ensures old(exists x :: x in table.Values && x.name == name) ==>
        a in old(table.Values) && table == old(table) && lastId == old(lastId)
      ensures old(forall x :: x in table.Values ==> x.name != name) ==>
        lastId == JavaInt.Wrap(old(lastId) + 1) &&
        a == Automation(JavaInt.ToString(lastId), name) &&
        table == old(table)[a.id := a]
      ensures old(IdsBounded()) && old(lastId) < JavaInt.MAX_VALUE ==> IdsBounded()
      ensures (old(IdsBounded()) && old(lastId) < JavaInt.MAX_VALUE &&
               old(forall x :: x in table.Values ==> x.name != name)) ==>
        a.id !in old(table) && |table| == old(|table|) + 1
    {
      var found := GetAutomationByName(name);
      if found.Some? {
        return found.value;
      }
      lastId := JavaInt.Wrap(lastId + 1);
      var id := JavaInt.ToString(lastId);
      a := Automation(id, name);
      JavaInt.ParseToString(lastId);
      if old(IdsBounded()) && old(lastId) < JavaInt.MAX_VALUE {
        assert lastId == old(lastId) + 1;
        assert id !in table;
      }
      table := table[id := a];
    }

    /** `register(automation)`: stores the automation under its id, then
        parses the id and raises the counter to it.  A non-numeric id is
        stored before `parseInt` throws; `ok` is false then. */
    method Register(automation: Automation) returns (ok: bool)
      requires Valid()
      modifies this
      ensures Valid()
      ensures table == old(table)[automation.id := automation]
      ensures ok <==> JavaInt.ParseInt(automation.id).Some?
      ensures ok ==> lastId == if JavaInt.ParseInt(automation.id).value > old(lastId)
                               then JavaInt.ParseInt(automation.id).value else old(lastId)
      ensures !ok ==> lastId == old(lastId)
      ensures old(IdsBounded()) ==> IdsBounded()
    {
      table := table[automation.id := automation];
      var id := JavaInt.ParseInt(automation.id);
      if id.None? {
        return false;
      }
      if id.value > lastId {
        lastId := id.value;
      }
      return true;
    }

    /** `deregister(automation)`: nothing for `null`; otherwise the entry
        under the automation's id is removed and every other entry kept. */
    method Deregister(automation: Option<Automation>)
      requires Valid()
      modifies this
      ensures Valid()
      ensures automation.None? ==> table == old(table)
      ensures automation.Some? ==> table == old(table) - {automation.value.id}
      ensures lastId == old(lastId)
      ensures old(IdsBounded()) ==> IdsBounded()
    {
      if automation.None? {
        return;
      }
      table := table - {automation.value.id};
    }

    /** `getList()`: the table's values in an order the table chooses. */
    method GetList() returns (out: seq<Automation>)
      requires Valid()
      ensures Enumerates(out, table)
    {
      out := [];
      var rest := table.Keys;
      while rest != {}
        invariant rest <= table.Keys
        invariant Distinct(out)
        invariant |out| + |rest| == |table|
        invariant forall a :: a in out <==> a in table.Values && a.id !in rest
        decreases |rest|
      {
        var k :| k in rest;
        assert table[k] !in out;
        out := out + [table[k]];
        rest := rest - {k};
      }
    }

    /** `getAutomationsByNameList()`: every automation once, ordered by
        case-insensitive name. */
    method GetAutomationsByNameList() returns (out: seq<Automation>)
      requires Valid()
      ensures Enumerates(out, table)
      ensures SortedBy(out, NameLess)
    {
      var list := GetList();
      NameLessIsStrictOrder();
      out := InsertionSort(list, NameLess);
      PermutationEnumerates(out, list, table);
    }

    /** `getAutomationsByIdList()`: every automation once, never an entry
        with a smaller numeric id after one with a larger; when all ids are
        numeric the list ascends by id. */
    method GetAutomationsByIdList() returns (out: seq<Automation>)
      requires Valid()
      ensures Enumerates(out, table)
      ensures SortedBy(out, IdLess)
      ensures AllIdsNumeric(out) ==>
        forall i, j :: 0 <= i < j < |out| ==>
          JavaInt.ParseInt(out[i].id).value <= JavaInt.ParseInt(out[j].id).value
    {
      var list := GetList();
      IdLessIsStrictOrder();
      out := InsertionSort(list, IdLess);
      PermutationEnumerates(out, list, table);
      if AllIdsNumeric(out) {
        forall i, j | 0 <= i < j < |out|
          ensures JavaInt.ParseInt(out[i].id).value <= JavaInt.ParseInt(out[j].id).value
        {
          SortedByIdAscends(out, i, j);
        }
      }
    }
  }

  // ------------------------------------------------------ action list

  /** An entry of the manager's action list: the blank entry, or an action
      of one of the coded kinds. */
  datatype ListedAction = Blank | Listed(kind: ActionCodes.Kind)

  /** `getActionList()`, in order. */
  function ActionList(): seq<ListedAction> {
    [Blank,
     Listed(ActionCodes.NoAction), Listed(ActionCodes.BuildTrain),
     Listed(ActionCodes.BuildTrainIfSelected), Listed(ActionCodes.MoveTrain),
     Listed(ActionCodes.TerminateTrain), Listed(ActionCodes.WaitForTrain),
     Listed(ActionCodes.RunAutomation)]
  }

  /** The code of a listed action; the blank entry's code is a parameter. */
  function ListedCode(blankCode: bv32, a: ListedAction): bv32 {
    match a
    case Blank => blankCode
    case Listed(k) => ActionCodes.Code(k)
  }

  /** `getActionByCode(code)`: the first listed action with that code. */
  function GetActionByCode(blankCode: bv32, code: bv32): (r: Option<ListedAction>)
    ensures r.Some? ==> r.value in ActionList() && ListedCode(blankCode, r.value) == code
  {
    Search.FindFirst(ActionList(), a => ListedCode(blankCode, a), code)
  }

  /** The blank entry comes first, so it wins its own code. */
  lemma GetActionByCodeBlank(blankCode: bv32)
    ensures GetActionByCode(blankCode, blankCode) == Some(Blank)
  {
  }

  /** Every other listed kind is found by its code, unless the blank entry
      shares that code. */
  lemma GetActionByCodeListed(blankCode: bv32, k: ActionCodes.Kind)
    requires Listed(k) in ActionList()
    requires ActionCodes.Code(k) != blankCode
    ensures GetActionByCode(blankCode, ActionCodes.Code(k)) == Some(Listed(k))
  {
    var code_of := a => ListedCode(blankCode, a);
    forall b | b in ActionList() && code_of(b) == code_of(Listed(k)) ensures b == Listed(k) {
      ActionCodes.CodesDistinct(b.kind, k);
    }
    Search.FindFirstUnique(ActionList(), code_of, Listed(k));
  }

  /** A code that neither the blank entry nor any listed kind carries gives
      `null`, and only such a code does. */
  lemma GetActionByCodeMissing(blankCode: bv32, code: bv32)
    ensures GetActionByCode(blankCode, code).None? <==>
      code != blankCode && forall k :: Listed(k) in ActionList() ==> ActionCodes.Code(k) != code
  {
    if GetActionByCode(blankCode, code).None? {
      forall k | Listed(k) in ActionList() ensures ActionCodes.Code(k) != code {
        var i :| 0 <= i < |ActionList()| && ActionList()[i] == Listed(k);
      }
    }
  }

}
