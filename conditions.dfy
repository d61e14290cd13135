/**
 * Conditional resolution (`ConditionResolver`, `ProcIf.__resolve_condition`,
 * `ProcIfLabels.resolve`) as functions over the variation tree and the
 * states of its placeholders.
 *
 * A store maps each placeholder identity to its state. Looking up a variable
 * may meet an unfilled placeholder on its path; the source then fills it on
 * the spot, which may look up further variables. That nesting is bounded by
 * `fuel`, which stands for the interpreter's recursion limit: when it runs
 * out, the look-up fails like any other failure along the path.
 */
module Conditions {
  import opened Outcomes
  import opened Tags
  import opened Strings
  import opened Util

  /** How deep placeholder fills may nest inside one another before the look-up gives up. */
  const MaxFillDepth: nat := 150

  // ---------------------------------------------------------------------
  // __find_item
  // ---------------------------------------------------------------------

  /**
   * `__find_item`: the first node, depth first in child order, whose id is
   * `id`. Only AnimalAI records carry ids; the search does not enter Proc
   * tags, ranges or placeholders.
   */
  function FindItem(id: string, n: Node): Option<Node>
    decreases n
  {
    match n
    case Record(_, _, fields) => if HasId(n, id) then Some(n) else FindFirst(id, fields)
    case List(items) => FindFirst(id, items)
    case Dict(_, values) => FindFirst(id, values)
    case RecordList(_, elements) => FindFirst(id, elements)
    case _ => None
  }

  function FindFirst(id: string, ns: seq<Node>): Option<Node>
    decreases ns
  {
    if ns == [] then None
    else
      var found := FindItem(id, ns[0]);
      if found.Some? then found else FindFirst(id, ns[1..])
  }

  /** Whether the search descends into a node's children: plain containers and AnimalAI tags. */
  predicate Searched(n: Node)
  {
    n.Record? || n.List? || n.Dict? || n.RecordList?
  }

  /** The nodes the search looks at, in the order it looks at them. */
  function Visited(n: Node): (r: seq<Node>)
    ensures |r| >= 1 && r[0] == n
    decreases n
  {
    match n
    case Record(_, _, fields) => [n] + VisitedAll(fields)
    case List(items) => [n] + VisitedAll(items)
    case Dict(_, values) => [n] + VisitedAll(values)
    case RecordList(_, elements) => [n] + VisitedAll(elements)
    case _ => [n]
  }

  function VisitedAll(ns: seq<Node>): seq<Node>
    decreases ns
  {
    if ns == [] then [] else Visited(ns[0]) + VisitedAll(ns[1..])
  }

  /** Position k holds the first node carrying the id. */
  predicate FirstAt(id: string, s: seq<Node>, k: int)
  {
    0 <= k < |s| && HasId(s[k], id) && forall j :: 0 <= j < k ==> !HasId(s[j], id)
  }

  /** A plain linear search for the first node carrying the id. */
  function FirstWithId(id: string, s: seq<Node>): (r: Option<Node>)
    ensures r.Some? ==> exists k :: FirstAt(id, s, k) && s[k] == r.value
    ensures r.None? <==> forall j :: 0 <= j < |s| ==> !HasId(s[j], id)
    decreases |s|
  {
    if s == [] then None
    else if HasId(s[0], id) then
      assert FirstAt(id, s, 0);
      Some(s[0])
    else
      var r := FirstWithId(id, s[1..]);
      if r.Some? then
        var k :| FirstAt(id, s[1..], k) && s[1..][k] == r.value;
        assert forall j :: 1 <= j <= k ==> s[j] == s[1..][j - 1];
        assert FirstAt(id, s, k + 1);
        r
      else
        assert forall j :: 1 <= j < |s| ==> s[j] == s[1..][j - 1];
        r
  }

  lemma {:induction false} FirstWithIdConcat(id: string, a: seq<Node>, b: seq<Node>)
    ensures FirstWithId(id, a + b) == if FirstWithId(id, a).Some? then FirstWithId(id, a) else FirstWithId(id, b)
    decreases |a|
  {
    if a == [] {
      assert a + b == b;
    } else {
      var ab := a + b;
      assert ab[0] == a[0];
      assert ab[1..] == a[1..] + b;
      if !HasId(a[0], id) {
        FirstWithIdConcat(id, a[1..], b);
        assert FirstWithId(id, ab) == FirstWithId(id, ab[1..]);
        assert FirstWithId(id, a) == FirstWithId(id, a[1..]);
      }
    }
  }

  /**
   * The search returns the first node of the depth-first visit order that
   * carries the id, and nothing when no visited node does.
   */
  lemma {:induction false} FindItemIsFirst(id: string, n: Node)
    ensures FindItem(id, n) == FirstWithId(id, Visited(n))
    decreases n, 1
  {
    match n
    case Record(_, _, fields) =>
      FindFirstIsFirst(id, fields);
      FirstWithIdConcat(id, [n], VisitedAll(fields));
    case List(items) =>
      FindFirstIsFirst(id, items);
      FirstWithIdConcat(id, [n], VisitedAll(items));
    case Dict(_, values) =>
      FindFirstIsFirst(id, values);
      FirstWithIdConcat(id, [n], VisitedAll(values));
    case RecordList(_, elements) =>
      FindFirstIsFirst(id, elements);
      FirstWithIdConcat(id, [n], VisitedAll(elements));
    case _ =>
  }

  lemma {:induction false} FindFirstIsFirst(id: string, ns: seq<Node>)
    ensures FindFirst(id, ns) == FirstWithId(id, VisitedAll(ns))
    decreases ns, 0
  {
    if ns != [] {
      FindItemIsFirst(id, ns[0]);
      FindFirstIsFirst(id, ns[1..]);
      FirstWithIdConcat(id, Visited(ns[0]), VisitedAll(ns[1..]));
    }
  }

  // ---------------------------------------------------------------------
  // __matches
  // ---------------------------------------------------------------------

  /** A Python number: int or float, and bool counting as 0 or 1. */
  function NumberOf(n: Node): (r: Option<real>)
    ensures r.Some? <==> n.Leaf? && !n.scalar.Str?
  {
    match n
    case Leaf(Num(x)) => Some(x)
    case Leaf(Bool(b)) => Some(if b then 1.0 else 0.0)
    case _ => None
  }

  /** `==` on scalars: strings by text, numbers (bool included) by value, mixed kinds unequal. */
  predicate ScalarEq(a: Scalar, b: Scalar)
  {
    if a.Str? || b.Str? then a.Str? && b.Str? && a.text == b.text
    else NumberOf(Leaf(a)).value == NumberOf(Leaf(b)).value
  }

  /**
   * Python `==` between a looked-up value and a case entry. Lists compare
   * element by element, mappings by key regardless of key order, scalars by
   * value. The tag objects define no equality of their own, so they are only
   * equal to themselves; a variation and a template never share one.
   */
  predicate PyEq(a: Node, b: Node)
    decreases a
  {
    match a
    case Leaf(x) => b.Leaf? && ScalarEq(x, b.scalar)
    case List(xs) =>
      b.List? && |xs| == |b.items| && forall i :: 0 <= i < |xs| ==> PyEq(xs[i], b.items[i])
    case Dict(ka, va) =>
      b.Dict? && |ka| == |va| == |b.keys| == |b.values|
      && forall i :: 0 <= i < |ka| ==>
           exists j :: 0 <= j < |b.keys| && ScalarEq(ka[i], b.keys[j]) && PyEq(va[i], b.values[j])
    case Placeholder(s, _, _) => b.Placeholder? && b.slot == s
    case _ => false
  }

  /**
   * `__matches`: a range entry holds min <= v <= max, a numeric entry holds
   * when v is (close to) the same number, any other entry by equality.
   * Comparing a non-number with a range or a number raises.
   */
  function Matches(v: Node, entry: Node): (r: Result<bool>)
    ensures entry.R? ==> (r.Ok? <==> NumberOf(v).Some?)
    ensures entry.R? && r.Ok? ==> (r.value <==> entry.min <= NumberOf(v).value <= entry.max)
    ensures NumberOf(entry).Some? ==> (r.Ok? <==> NumberOf(v).Some?)
    ensures NumberOf(entry).Some? && r.Ok? ==> (r.value <==> NumberOf(v) == NumberOf(entry))
    ensures !entry.R? && NumberOf(entry).None? ==> r == Ok(PyEq(v, entry))
    ensures r.Err? ==> r.error == NotComparable
  {
    if entry.R? then
      var x := NumberOf(v);
      if x.None? then Err(NotComparable) else Ok(entry.min <= x.value <= entry.max)
    else if NumberOf(entry).Some? then
      var x := NumberOf(v);
      if x.None? then Err(NotComparable) else Ok(x.value == NumberOf(entry).value)
    else Ok(PyEq(v, entry))
  }

  /** `all(matches(v, c) for v, c in zip(values, entries))`: stops at the first entry that does not match. */
  function AllMatch(values: seq<Node>, entries: seq<Node>): (r: Result<bool>)
    ensures r == Ok(true) ==> forall k :: 0 <= k < |values| && k < |entries| ==> Matches(values[k], entries[k]) == Ok(true)
    ensures r == Ok(false) ==> exists k :: 0 <= k < |values| && k < |entries| && Matches(values[k], entries[k]) == Ok(false)
    decreases |values|
  {
    if values == [] || entries == [] then Ok(true)
    else
      var m :- Matches(values[0], entries[0]);
      if !m then Ok(false)
      else
        var r := AllMatch(values[1..], entries[1..]);
        if r == Ok(false) then
          var k :| 0 <= k < |values[1..]| && k < |entries[1..]| && Matches(values[1..][k], entries[1..][k]) == Ok(false);
          assert Matches(values[k + 1], entries[k + 1]) == Ok(false);
          r
        else
          assert r == Ok(true) ==> forall k :: 1 <= k < |values| && k < |entries| ==>
            Matches(values[k], entries[k]) == Matches(values[1..][k - 1], entries[1..][k - 1]);
          r
  }

  /** A case is a list of entries, one per variable, or a single entry. */
  function CaseEntries(c: Node): (r: seq<Node>)
    ensures c.List? ==> r == c.items
    ensures !c.List? ==> r == [c]
  {
    if c.List? then c.items else [c]
  }

  /** Case j is well-formed for the values and does not match them. */
  predicate Misses(values: seq<Node>, c: Node)
  {
    |CaseEntries(c)| == |values| && AllMatch(values, CaseEntries(c)) == Ok(false)
  }

  /**
   * The case loop of `ConditionResolver.resolve` from case `i` on: the index
   * of the first case whose entries all match, or -1. A case of the wrong
   * length raises when the loop reaches it.
   */
  function MatchFrom(values: seq<Node>, cases: seq<Node>, i: nat): (r: Result<int>)
    ensures r.Ok? ==> -1 <= r.value < |cases|
    ensures r.Ok? && r.value >= 0 ==> (i <= r.value && |CaseEntries(cases[r.value])| == |values|
                                        && AllMatch(values, CaseEntries(cases[r.value])) == Ok(true))
    ensures r.Ok? ==> forall j :: i <= j < |cases| && (r.value == -1 || j < r.value) ==> Misses(values, cases[j])
    ensures r.Err? ==> exists j :: FailsAt(values, cases, i, j)
    decreases |cases| - i
  {
    if i >= |cases| then Ok(-1)
    else
      var entries := CaseEntries(cases[i]);
      if |entries| != |values| then
        assert FailsAt(values, cases, i, i);
        Err(CaseLengthMismatch)
      else
        var m := AllMatch(values, entries);
        if m.Err? then
          assert FailsAt(values, cases, i, i);
          Err(m.error)
        else if m.value then Ok(i)
        else
          var later := MatchFrom(values, cases, i + 1);
          assert later.Err? ==> exists j :: FailsAt(values, cases, i, j) by {
            if later.Err? {
              var j :| FailsAt(values, cases, i + 1, j);
              assert FailsAt(values, cases, i, j);
            }
          }
          later
  }

  /** Matching from `i` on reads only the entries of the cases from `i` on. */
  lemma {:induction false} SameEntriesSameMatch(values: seq<Node>, a: seq<Node>, b: seq<Node>, i: nat)
    requires |a| == |b|
    requires forall k :: i <= k < |a| ==> CaseEntries(a[k]) == CaseEntries(b[k])
    ensures MatchFrom(values, a, i) == MatchFrom(values, b, i)
    decreases |a| - i
  {
    if i < |a| {
      var entries := CaseEntries(a[i]);
      assert entries == CaseEntries(b[i]);
      if |entries| == |values| && AllMatch(values, entries) == Ok(false) {
        SameEntriesSameMatch(values, a, b, i + 1);
      }
    }
  }

  /**
   * A case that is not a list is matched exactly as the one-entry list
   * holding it: writing `cases: [x]` or `cases: [[x]]` for one variable
   * gives the same answer.
   */
  lemma BareCaseAsList(values: seq<Node>, cases: seq<Node>, j: nat)
    requires j < |cases| && !cases[j].List?
    ensures MatchCases(values, cases[j := List([cases[j]])]) == MatchCases(values, cases)
  {
    var listed := cases[j := List([cases[j]])];
    forall k | 0 <= k < |cases|
      ensures CaseEntries(listed[k]) == CaseEntries(cases[k])
    {
    }
    SameEntriesSameMatch(values, listed, cases, 0);
  }

  /**
   * Case `j` is the one where matching stops with an error: every case from
   * `i` up to it misses, and it has the wrong length or cannot be compared.
   */
  predicate FailsAt(values: seq<Node>, cases: seq<Node>, i: nat, j: int)
  {
    i <= j < |cases| && (forall k :: i <= k < j ==> Misses(values, cases[k]))
    && (|CaseEntries(cases[j])| != |values| || AllMatch(values, CaseEntries(cases[j])).Err?)
  }

  function MatchCases(values: seq<Node>, cases: seq<Node>): (r: Result<int>)
  {
    MatchFrom(values, cases, 0)
  }

  // ---------------------------------------------------------------------
  // Variable paths
  // ---------------------------------------------------------------------

  /** A path segment: all digits gives a list index, anything else a key. */
  function ParseKey(segment: string): (k: PathKey)
    ensures k.At? <==> IsDigits(segment)
    ensures k.Field? ==> k.name == segment
  {
    if IsDigits(segment) then At(DigitsValue(segment)) else Field(segment)
  }

  function ParsePath(segments: seq<string>): (r: seq<PathKey>)
    ensures |r| == |segments| && forall i :: 0 <= i < |segments| ==> r[i] == ParseKey(segments[i])
  {
    seq(|segments|, i requires 0 <= i < |segments| => ParseKey(segments[i]))
  }

  /** How a key is written in a variable path. */
  function KeyText(k: PathKey): string
  {
    if k.At? then NatToString(k.index) else k.name
  }

  /** Writing an index and reading it back gives the same index. */
  lemma IndexRoundTrip(k: nat)
    ensures ParseKey(KeyText(At(k))) == At(k)
  {
    DigitsRoundTrip(k);
  }

  /** A key name that is not all digits reads back as the same key. */
  lemma FieldRoundTrip(name: string)
    requires !IsDigits(name)
    ensures ParseKey(KeyText(Field(name))) == Field(name)
  {
  }

  /** A variable names the item id, then the path below it: `id.key.key`. */
  function ItemId(variable: string): string
  {
    Split(variable, '.')[0]
  }

  function VariablePath(variable: string): seq<PathKey>
  {
    ParsePath(Split(variable, '.')[1..])
  }

  /** The variable is recovered from its id and the path segments joined with dots. */
  lemma VariableParts(variable: string)
    ensures Join(".", [ItemId(variable)] + Split(variable, '.')[1..]) == variable
  {
    var parts := Split(variable, '.');
    assert [ItemId(variable)] + parts[1..] == parts;
    JoinSplit(variable, '.');
  }

  /** `node.value if isinstance(node.value, list) else [node.value]`. */
  function VariableList(v: Variables): (r: seq<string>)
    ensures v.One? ==> r == [v.name]
    ensures v.Many? ==> r == v.names
  {
    if v.One? then [v.name] else v.names
  }

  // ---------------------------------------------------------------------
  // Placeholder states
  // ---------------------------------------------------------------------

  /** The state of a placeholder; one the store does not know counts as unfilled. */
  function Lookup(store: Store, slot: nat): FillState
  {
    if slot in store then store[slot] else Unfilled
  }

  /** Records a new state for a placeholder the store knows. */
  function Put(store: Store, slot: nat, state: FillState): (r: Store)
    ensures r.Keys == store.Keys
    ensures slot in store ==> r[slot] == state
    ensures forall s :: s in store && s != slot ==> r[s] == store[s]
  {
    if slot in store then store[slot := state] else store
  }

  /** Resolution creates no placeholder and never empties one that was filled. */
  predicate Grows(before: Store, after: Store)
  {
    after.Keys == before.Keys && forall s :: s in before && before[s].Filled? ==> after[s].Filled?
  }

  /** `value[key]`, where a placeholder passes the key on to its value and an unfilled one raises. */
  function Step(value: Node, key: PathKey, store: Store): (r: Option<Node>)
    ensures !value.Placeholder? ==> r == Index(value, key)
    ensures value.Placeholder? && Lookup(store, value.slot).Unfilled? ==> r.None?
    ensures value.Placeholder? && Lookup(store, value.slot).Filled? ==> r == Index(Lookup(store, value.slot).value, key)
  {
    if value.Placeholder? then
      match Lookup(store, value.slot)
      case Unfilled => None
      case Filled(v, _) => Index(v, key)
    else Index(value, key)
  }

  // ---------------------------------------------------------------------
  // __find_variable, resolve, __resolve_condition, fill
  // ---------------------------------------------------------------------

  /**
   * The path loop of `__find_variable` from segment `i` on. Each step indexes
   * the current value; an unfilled placeholder reached this way is filled
   * against the root first. Every failure, a failed fill included, is
   * NonExistentVariable.
   */
  function WalkFrom(path: seq<PathKey>, i: nat, value: Node, root: Node, store: Store, fuel: nat): (r: Result<(Node, Store)>)
    ensures r.Ok? ==> Grows(store, r.value.1)
    ensures r.Err? ==> r.error == NonExistentVariable
    decreases fuel, 0, |path| - i
  {
    if i >= |path| then Ok((value, store))
    else
      var next := Step(value, path[i], store);
      if next.None? then Err(NonExistentVariable)
      else if next.value.Placeholder? && Lookup(store, next.value.slot).Unfilled? then
        if fuel == 0 then Err(NonExistentVariable)
        else
          var filled := FillF(next.value.slot, next.value.pending, root, store, fuel - 1);
          if filled.Err? then Err(NonExistentVariable)
          else WalkFrom(path, i + 1, next.value, root, filled.value.1, fuel)
      else WalkFrom(path, i + 1, next.value, root, store, fuel)
  }

  /**
   * `__find_variable`: the item named by the first segment, then the value
   * at the rest of the path. A missing item is IDNotFound; anything that
   * goes wrong below it is NonExistentVariable.
   */
  function FindVariableF(variable: string, root: Node, store: Store, fuel: nat): (r: Result<(Node, Store)>)
    ensures r.Ok? ==> Grows(store, r.value.1)
    ensures r.Err? ==> (r.error == IDNotFound <==> FindItem(ItemId(variable), root).None?)
    ensures r.Err? ==> r.error == IDNotFound || r.error == NonExistentVariable
    decreases fuel, 1
  {
    var item := FindItem(ItemId(variable), root);
    if item.None? then Err(IDNotFound)
    else WalkFrom(VariablePath(variable), 0, item.value, root, store, fuel)
  }

  /** `[__find_variable(v, root) for v in variables]`: every variable in order, the first failure stopping. */
  function FindAllF(variables: seq<string>, root: Node, store: Store, fuel: nat): (r: Result<(seq<Node>, Store)>)
    ensures r.Ok? ==> |r.value.0| == |variables| && Grows(store, r.value.1)
    decreases fuel, 2, |variables|
  {
    if variables == [] then Ok(([], store))
    else
      var (first, s1) :- FindVariableF(variables[0], root, store, fuel);
      var (rest, s2) :- FindAllF(variables[1..], root, s1, fuel);
      Ok(([first] + rest, s2))
  }

  /**
   * `ConditionResolver.resolve`: all variables are looked up before any case
   * is tried, then the first matching case index (or -1) and the values.
   */
  function ResolveF(variables: seq<string>, cases: seq<Node>, root: Node, store: Store, fuel: nat): (r: Result<((int, seq<Node>), Store)>)
    ensures r.Ok? ==> Grows(store, r.value.1)
    ensures r.Ok? ==> |r.value.0.1| == |variables| && MatchCases(r.value.0.1, cases) == Ok(r.value.0.0)
    decreases fuel, 3
  {
    var (values, s1) :- FindAllF(variables, root, store, fuel);
    var idx :- MatchCases(values, cases);
    Ok(((idx, values), s1))
  }

  /** The labels of a `!ProcIf` are used when given and non-empty. */
  predicate LabelsGiven(c: Conditional)
  {
    c.labels.Some? && |c.labels.value| > 0
  }

  /**
   * `ProcIf.__resolve_condition`: the `then` value and label of the first
   * matching case; with no match the default and the default label, which
   * must be present (the label only when labels were given).
   */
  function ResolveConditionF(c: Conditional, root: Node, store: Store, fuel: nat): (r: Result<((Node, Option<Label>), Store)>)
    ensures r.Ok? ==> Grows(store, r.value.1)
    ensures LabelsGiven(c) && |c.labels.value| != |c.cases| ==> r == Err(AssertionFailed)
    ensures var looked := FindAllF(VariableList(c.variable), root, store, fuel);
      !(LabelsGiven(c) && |c.labels.value| != |c.cases|) && looked.Err? ==> r == Err(looked.error)
    decreases fuel, 4
  {
    if LabelsGiven(c) && |c.labels.value| != |c.cases| then Err(AssertionFailed)
    else
      var (found, s1) :- ResolveF(VariableList(c.variable), c.cases, root, store, fuel);
      var idx := found.0;
      if idx == -1 then
        if c.default.None? then Err(MissingCase)
        else if c.labels.Some? && c.defaultLabel.None? then Err(MissingCase)
        else Ok(((c.default.value, c.defaultLabel), s1))
      else if idx >= |c.thenValues| then Err(IndexOutOfRange)
      else Ok(((c.thenValues[idx], if LabelsGiven(c) then Some(c.labels.value[idx]) else None), s1))
  }

  /**
   * When case `j` is the first case whose entries all match the values the
   * variables have, the conditional resolves to the `j`-th `then` value,
   * with the `j`-th label when labels are given; a `then` list too short
   * for `j` raises IndexError.
   */
  lemma ResolveConditionPicks(c: Conditional, root: Node, store: Store, fuel: nat, values: seq<Node>, s1: Store, j: nat)
    requires !(LabelsGiven(c) && |c.labels.value| != |c.cases|)
    requires FindAllF(VariableList(c.variable), root, store, fuel) == Ok((values, s1))
    requires j < |c.cases| && |CaseEntries(c.cases[j])| == |values| && AllMatch(values, CaseEntries(c.cases[j])) == Ok(true)
    requires forall k :: 0 <= k < j ==> Misses(values, c.cases[k])
    ensures var r := ResolveConditionF(c, root, store, fuel);
      (j < |c.thenValues| ==>
         r == Ok(((c.thenValues[j], if LabelsGiven(c) then Some(c.labels.value[j]) else None), s1)))
      && (j >= |c.thenValues| ==> r == Err(IndexOutOfRange))
  {
    FirstMatchWins(values, c.cases, j);
    assert ResolveF(VariableList(c.variable), c.cases, root, store, fuel) == Ok(((j, values), s1));
    ResolveConditionAt(c, root, store, fuel, values, s1, j);
  }

  lemma ResolveConditionAt(c: Conditional, root: Node, store: Store, fuel: nat, values: seq<Node>, s1: Store, j: nat)
    requires !(LabelsGiven(c) && |c.labels.value| != |c.cases|)
    requires ResolveF(VariableList(c.variable), c.cases, root, store, fuel) == Ok(((j, values), s1))
    ensures var r := ResolveConditionF(c, root, store, fuel);
      (j < |c.thenValues| ==>
         r == Ok(((c.thenValues[j], if LabelsGiven(c) then Some(c.labels.value[j]) else None), s1)))
      && (j >= |c.thenValues| ==> r == Err(IndexOutOfRange))
  {
  }

  /**
   * When no case matches the values the variables have, the conditional
   * resolves to its default with the default label; a missing default, or
   * a missing default label when labels are given, raises.
   */
  lemma ResolveConditionDefault(c: Conditional, root: Node, store: Store, fuel: nat, values: seq<Node>, s1: Store)
    requires !(LabelsGiven(c) && |c.labels.value| != |c.cases|)
    requires FindAllF(VariableList(c.variable), root, store, fuel) == Ok((values, s1))
    requires forall k :: 0 <= k < |c.cases| ==> Misses(values, c.cases[k])
    ensures var r := ResolveConditionF(c, root, store, fuel);
      (r.Err? <==> c.default.None? || (c.labels.Some? && c.defaultLabel.None?))
      && (r.Err? ==> r.error == MissingCase)
      && (r.Ok? ==> r.value == ((c.default.value, c.defaultLabel), s1))
  {
    NoMatchGivesMinusOne(values, c.cases, 0);
    assert ResolveF(VariableList(c.variable), c.cases, root, store, fuel) == Ok(((-1, values), s1));
  }

  /** `MutablePlaceholder.fill(root)`: resolve the conditional and store its value and label. */
  function FillF(slot: nat, c: Conditional, root: Node, store: Store, fuel: nat): (r: Result<((Node, Option<Label>), Store)>)
    ensures r.Ok? ==> Grows(store, r.value.1)
    ensures r.Ok? && slot in store ==> r.value.1[slot] == Filled(r.value.0.0, r.value.0.1)
    decreases fuel, 5
  {
    var (resolved, s1) :- ResolveConditionF(c, root, store, fuel);
    Ok((resolved, Put(s1, slot, Filled(resolved.0, resolved.1))))
  }

  /**
   * `ProcIfLabels.resolve`: the label of the first matching case, else the
   * default label, which must be present. Labels and cases must have the
   * same length.
   */
  function ResolveLabelsF(rule: LabelRule, root: Node, store: Store): (r: Result<(Option<Label>, Store)>)
    ensures r.Ok? ==> Grows(store, r.value.1) && r.value.0.Some?
    ensures |rule.labels| != |rule.cases| ==> r == Err(AssertionFailed)
    ensures r.Ok? ==> r.value.0.value in rule.labels || r.value.0 == rule.default
    ensures var looked := FindAllF(VariableList(rule.variable), root, store, MaxFillDepth);
      |rule.labels| == |rule.cases| && looked.Err? ==> r == Err(looked.error)
  {
    if |rule.labels| != |rule.cases| then Err(AssertionFailed)
    else
      var (found, s1) :- ResolveF(VariableList(rule.variable), rule.cases, root, store, MaxFillDepth);
      if found.0 == -1 then
        if rule.default.None? then Err(MissingCase) else Ok((rule.default, s1))
      else Ok((Some(rule.labels[found.0]), s1))
  }

  /**
   * When case `j` is the first case whose entries all match the values the
   * variables have, the rule adds its `j`-th label.
   */
  lemma ResolveLabelsPicks(rule: LabelRule, root: Node, store: Store, values: seq<Node>, s1: Store, j: nat)
    requires |rule.labels| == |rule.cases|
    requires FindAllF(VariableList(rule.variable), root, store, MaxFillDepth) == Ok((values, s1))
    requires j < |rule.cases| && |CaseEntries(rule.cases[j])| == |values| && AllMatch(values, CaseEntries(rule.cases[j])) == Ok(true)
    requires forall k :: 0 <= k < j ==> Misses(values, rule.cases[k])
    ensures ResolveLabelsF(rule, root, store) == Ok((Some(rule.labels[j]), s1))
  {
    FirstMatchWins(values, rule.cases, j);
    assert ResolveF(VariableList(rule.variable), rule.cases, root, store, MaxFillDepth) == Ok(((j, values), s1));
  }

  /**
   * When no case matches the values the variables have, the rule adds its
   * default label, and raises when it has none.
   */
  lemma ResolveLabelsDefault(rule: LabelRule, root: Node, store: Store, values: seq<Node>, s1: Store)
    requires |rule.labels| == |rule.cases|
    requires FindAllF(VariableList(rule.variable), root, store, MaxFillDepth) == Ok((values, s1))
    requires forall k :: 0 <= k < |rule.cases| ==> Misses(values, rule.cases[k])
    ensures var r := ResolveLabelsF(rule, root, store);
      (r.Err? <==> rule.default.None?)
      && (r.Err? ==> r.error == MissingCase)
      && (r.Ok? ==> r.value == (rule.default, s1))
  {
    NoMatchGivesMinusOne(values, rule.cases, 0);
    assert ResolveF(VariableList(rule.variable), rule.cases, root, store, MaxFillDepth) == Ok(((-1, values), s1));
  }

  // ---------------------------------------------------------------------
  // Properties
  // ---------------------------------------------------------------------

  /**
   * The index resolution returns is the smallest one whose case matches:
   * every earlier case is well-formed and does not match.
   */
  lemma FirstMatchWins(values: seq<Node>, cases: seq<Node>, j: nat)
    requires j < |cases| && |CaseEntries(cases[j])| == |values| && AllMatch(values, CaseEntries(cases[j])) == Ok(true)
    requires forall k :: 0 <= k < j ==> Misses(values, cases[k])
    ensures MatchCases(values, cases) == Ok(j)
  {
    MatchFromSkips(values, cases, 0, j);
  }

  lemma {:induction false} MatchFromSkips(values: seq<Node>, cases: seq<Node>, i: nat, j: nat)
    requires i <= j < |cases| && |CaseEntries(cases[j])| == |values| && AllMatch(values, CaseEntries(cases[j])) == Ok(true)
    requires forall k :: i <= k < j ==> Misses(values, cases[k])
    ensures MatchFrom(values, cases, i) == Ok(j)
    decreases j - i
  {
    if i < j {
      MatchFromMiss(values, cases, i);
      MatchFromSkips(values, cases, i + 1, j);
    } else {
      MatchFromHit(values, cases, i);
    }
  }

  /** One turn of the case loop. */
  lemma MatchFromAt(values: seq<Node>, cases: seq<Node>, i: nat)
    requires i < |cases|
    ensures var m := AllMatch(values, CaseEntries(cases[i]));
      MatchFrom(values, cases, i)
        == if |CaseEntries(cases[i])| != |values| then Err(CaseLengthMismatch)
           else if m.Err? then Err(m.error)
           else if m.value then Ok(i)
           else MatchFrom(values, cases, i + 1)
  {
  }

  /** A case that is well-formed and does not match passes the loop on to the next. */
  lemma MatchFromMiss(values: seq<Node>, cases: seq<Node>, i: nat)
    requires i < |cases| && Misses(values, cases[i])
    ensures MatchFrom(values, cases, i) == MatchFrom(values, cases, i + 1)
  {
  }

  /** A case whose entries all match ends the loop at its index. */
  lemma MatchFromHit(values: seq<Node>, cases: seq<Node>, i: nat)
    requires i < |cases| && |CaseEntries(cases[i])| == |values| && AllMatch(values, CaseEntries(cases[i])) == Ok(true)
    ensures MatchFrom(values, cases, i) == Ok(i)
  {
  }

  /** No case matching and none malformed gives -1. */
  lemma {:induction false} NoMatchGivesMinusOne(values: seq<Node>, cases: seq<Node>, i: nat)
    requires forall k :: i <= k < |cases| ==> Misses(values, cases[k])
    ensures MatchFrom(values, cases, i) == Ok(-1)
    decreases |cases| - i
  {
    if i < |cases| {
      NoMatchGivesMinusOne(values, cases, i + 1);
    }
  }

  /**
   * Cases after the first matching one are never examined: whatever follows
   * it, malformed cases included, the result stays the same.
   */
  lemma {:induction false} LaterCasesIgnored(values: seq<Node>, cases: seq<Node>, more: seq<Node>, i: nat)
    requires MatchFrom(values, cases, i).Ok? && MatchFrom(values, cases, i).value >= 0
    ensures MatchFrom(values, cases + more, i) == MatchFrom(values, cases, i)
  {
    var j := MatchFrom(values, cases, i).value;
    forall k | i <= k <= j
      ensures (cases + more)[k] == cases[k]
    {
    }
    MatchFromSkips(values, cases + more, i, j);
  }
}
