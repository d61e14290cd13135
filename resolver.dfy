/**
 * The condition resolver over live placeholder objects. While
 * `__find_variable` walks a variable path it may reach a `!ProcIf`
 * placeholder that is not filled yet and fill it in place; these methods do
 * that on `MutablePlaceholder` objects and are proved to compute what the
 * functions of `Conditions` compute on the objects' states.
 *
 * The objects of one variation are given as a map from placeholder identity
 * to object; distinct identities are distinct objects.
 */
module Resolver {
  import opened Outcomes
  import opened Tags
  import opened Util
  import opened Conditions
  import opened Metadata

  type Objects = map<nat, MutablePlaceholder>

  /** The states of the objects, by identity. */
  function Snapshot(objs: Objects): (s: Store)
    reads objs.Values
    ensures s.Keys == objs.Keys
    ensures forall slot :: slot in objs ==> s[slot] == objs[slot].State()
  {
    map slot | slot in objs :: objs[slot].State()
  }

  /** No object stands for two placeholders. */
  predicate Injective(objs: Objects)
  {
    forall a, b :: a in objs && b in objs && a != b ==> objs[a] != objs[b]
  }

  /**
   * A method's outcome agrees with its specification function: the same
   * result or the same error, and on success the objects are in the states
   * the function computes.
   */
  predicate Mirrors<T(==)>(r: Result<T>, spec: Result<(T, Store)>, now: Store)
  {
    (r.Ok? <==> spec.Ok?)
    && (r.Ok? ==> r.value == spec.value.0 && now == spec.value.1)
    && (r.Err? ==> r.error == spec.error)
  }

  /** `value[key]`: a placeholder object answers through its own `__getitem__`. */
  method GetItem(value: Node, key: PathKey, objs: Objects) returns (r: Option<Node>)
    ensures r == Step(value, key, Snapshot(objs))
  {
    if value.Placeholder? {
      if value.slot in objs {
        var got := objs[value.slot].GetItem(key);
        r := if got.Ok? then Some(got.value) else None;
      } else {
        r := None;
      }
    } else {
      r := Index(value, key);
    }
  }

  /**
   * `MutablePlaceholder.fill(root)`: resolves the placeholder's conditional
   * and stores the value and label in its object; no other object changes
   * except through the nested fills the resolution makes.
   */
  method Fill(slot: nat, c: Conditional, root: Node, objs: Objects, fuel: nat) returns (r: Result<(Node, Option<Label>)>)
    requires Injective(objs)
    modifies objs.Values
    ensures Mirrors(r, FillF(slot, c, root, old(Snapshot(objs)), fuel), Snapshot(objs))
    decreases fuel, 6
  {
    ghost var before := Snapshot(objs);
    r := ResolveCondition(c, root, objs, fuel);
    if r.Err? {
      return;
    }
    ghost var mid := Snapshot(objs);
    assert FillF(slot, c, root, before, fuel) == Ok((r.value, Put(mid, slot, Filled(r.value.0, r.value.1))));
    if slot in objs {
      StoreFilled(slot, r.value, objs);
    }
  }

  /** Stores a resolved pair in one object: only that object's state changes. */
  method StoreFilled(slot: nat, resolved: (Node, Option<Label>), objs: Objects)
    requires Injective(objs) && slot in objs
    modifies objs[slot]
    ensures Snapshot(objs) == Put(old(Snapshot(objs)), slot, Filled(resolved.0, resolved.1))
  {
    ghost var mid := Snapshot(objs);
    var stored := objs[slot].Fill(resolved);
    forall t | t in objs && t != slot
      ensures objs[t].State() == mid[t]
    {
      assert objs[t] != objs[slot];
    }
  }

  /** `ProcIf.__resolve_condition` on live objects. */
  method ResolveCondition(c: Conditional, root: Node, objs: Objects, fuel: nat) returns (r: Result<(Node, Option<Label>)>)
    requires Injective(objs)
    modifies objs.Values
    ensures Mirrors(r, ResolveConditionF(c, root, old(Snapshot(objs)), fuel), Snapshot(objs))
    decreases fuel, 5
  {
    if LabelsGiven(c) && |c.labels.value| != |c.cases| {
      return Err(AssertionFailed);
    }
    ghost var before := Snapshot(objs);
    var found := Resolve(VariableList(c.variable), c.cases, root, objs, fuel);
    if found.Err? {
      return Err(found.error);
    }
    assert ResolveF(VariableList(c.variable), c.cases, root, before, fuel) == Ok((found.value, Snapshot(objs)));
    var idx := found.value.0;
    if idx == -1 {
      if c.default.None? || (c.labels.Some? && c.defaultLabel.None?) {
        return Err(MissingCase);
      }
      return Ok((c.default.value, c.defaultLabel));
    }
    if idx >= |c.thenValues| {
      return Err(IndexOutOfRange);
    }
    return Ok((c.thenValues[idx], if LabelsGiven(c) then Some(c.labels.value[idx]) else None));
  }

  /** The lookups still to make, after the values already found. */
  function After(values: seq<Node>, rest: Result<(seq<Node>, Store)>): Result<(seq<Node>, Store)>
  {
    if rest.Ok? then Ok((values + rest.value.0, rest.value.1)) else rest
  }

  lemma AfterAfter(a: seq<Node>, b: seq<Node>, rest: Result<(seq<Node>, Store)>)
    ensures After(a, After(b, rest)) == After(a + b, rest)
    ensures After([], rest) == rest
  {
    if rest.Ok? {
      assert a + (b + rest.value.0) == (a + b) + rest.value.0;
      assert [] + rest.value.0 == rest.value.0;
    }
  }

  /** The list comprehension of `resolve`: every variable looked up in order; a lookup may fill placeholders. */
  method FindAll(variables: seq<string>, root: Node, objs: Objects, fuel: nat) returns (r: Result<seq<Node>>)
    requires Injective(objs)
    modifies objs.Values
    ensures Mirrors(r, FindAllF(variables, root, old(Snapshot(objs)), fuel), Snapshot(objs))
    decreases fuel, 3
  {
    var values: seq<Node> := [];
    var i := 0;
    assert variables[0..] == variables;
    AfterAfter([], [], FindAllF(variables, root, Snapshot(objs), fuel));
    while i < |variables|
      invariant 0 <= i <= |variables| && |values| == i
      invariant FindAllF(variables, root, old(Snapshot(objs)), fuel) == After(values, FindAllF(variables[i..], root, Snapshot(objs), fuel))
    {
      ghost var before := Snapshot(objs);
      FindAllStep(variables, i, root, before, fuel);
      var v := FindVariable(variables[i], root, objs, fuel);
      if v.Err? {
        return Err(v.error);
      }
      AfterAfter(values, [v.value], FindAllF(variables[i + 1..], root, Snapshot(objs), fuel));
      values := values + [v.value];
      i := i + 1;
    }
    assert variables[i..] == [];
    assert FindAllF(variables[i..], root, Snapshot(objs), fuel) == Ok(([], Snapshot(objs)));
    assert values + [] == values;
    return Ok(values);
  }

  lemma FindAllStep(variables: seq<string>, i: nat, root: Node, store: Store, fuel: nat)
    requires i < |variables|
    ensures var f := FindVariableF(variables[i], root, store, fuel);
            FindAllF(variables[i..], root, store, fuel)
              == if f.Err? then Err(f.error) else After([f.value.0], FindAllF(variables[i + 1..], root, f.value.1, fuel))
  {
    assert variables[i..][1..] == variables[i + 1..];
  }

  /** `ConditionResolver.resolve`: all lookups first, then the case loop. */
  method Resolve(variables: seq<string>, cases: seq<Node>, root: Node, objs: Objects, fuel: nat) returns (r: Result<(int, seq<Node>)>)
    requires Injective(objs)
    modifies objs.Values
    ensures Mirrors(r, ResolveF(variables, cases, root, old(Snapshot(objs)), fuel), Snapshot(objs))
    decreases fuel, 4
  {
    var values := FindAll(variables, root, objs, fuel);
    if values.Err? {
      return Err(values.error);
    }
    var idx := MatchCasesM(values.value, cases);
    if idx.Err? {
      return Err(idx.error);
    }
    return Ok((idx.value, values.value));
  }

  /**
   * The case loop of `resolve`: returns at the first case whose entries all
   * match, raises at a case of the wrong length, gives -1 after the last.
   */
  method MatchCasesM(values: seq<Node>, cases: seq<Node>) returns (r: Result<int>)
    ensures r == MatchCases(values, cases)
  {
    var idx := 0;
    while idx < |cases|
      invariant 0 <= idx <= |cases|
      invariant MatchCases(values, cases) == MatchFrom(values, cases, idx)
    {
      MatchFromAt(values, cases, idx);
      var entries := CaseEntries(cases[idx]);
      if |entries| != |values| {
        return Err(CaseLengthMismatch);
      }
      var all := AllMatch(values, entries);
      if all.Err? {
        return Err(all.error);
      }
      if all.value {
        return Ok(idx);
      }
      idx := idx + 1;
    }
    return Ok(-1);
  }

  /**
   * One step of the path loop of `__find_variable`: index the current value
   * and, when that gives an unfilled placeholder, fill it against the root.
   * Any failure, a failed fill included, is NonExistentVariable.
   */
  function Advance(value: Node, key: PathKey, root: Node, store: Store, fuel: nat): (r: Result<(Node, Store)>)
    ensures r.Err? ==> r.error == NonExistentVariable
    ensures r.Ok? ==> Some(r.value.0) == Step(value, key, store) && Grows(store, r.value.1)
    ensures r.Ok? && r.value.0.Placeholder? && r.value.0.slot in store ==> r.value.1[r.value.0.slot].Filled?
  {
    var next := Step(value, key, store);
    if next.None? then Err(NonExistentVariable)
    else if next.value.Placeholder? && Lookup(store, next.value.slot).Unfilled? then
      if fuel == 0 then Err(NonExistentVariable)
      else
        var filled := FillF(next.value.slot, next.value.pending, root, store, fuel - 1);
        if filled.Err? then Err(NonExistentVariable) else Ok((next.value, filled.value.1))
    else Ok((next.value, store))
  }

  /** The path loop is one step after another. */
  lemma WalkAdvance(path: seq<PathKey>, i: nat, value: Node, root: Node, store: Store, fuel: nat)
    requires i < |path|
    ensures var a := Advance(value, path[i], root, store, fuel);
      WalkFrom(path, i, value, root, store, fuel)
        == if a.Err? then Err(a.error) else WalkFrom(path, i + 1, a.value.0, root, a.value.1, fuel)
  {
  }

  /** The body of the path loop on live objects. */
  method AdvanceOn(value: Node, key: PathKey, root: Node, objs: Objects, fuel: nat) returns (r: Result<Node>)
    requires Injective(objs)
    modifies objs.Values
    ensures Mirrors(r, Advance(value, key, root, old(Snapshot(objs)), fuel), Snapshot(objs))
    decreases fuel, 0
  {
    ghost var before := Snapshot(objs);
    var next := GetItem(value, key, objs);
    if next.None? {
      return Err(NonExistentVariable);
    }
    var n := next.value;
    if n.Placeholder? && (n.slot !in objs || !objs[n.slot].IsFilled()) {
      assert Lookup(before, n.slot).Unfilled?;
      if fuel == 0 {
        return Err(NonExistentVariable);
      }
      assert Step(value, key, before) == Some(n);
      r := FillOnPath(n, root, objs, fuel - 1);
      return;
    }
    assert !(n.Placeholder? && Lookup(before, n.slot).Unfilled?);
    assert Advance(value, key, root, before, fuel) == Ok((n, before));
    return Ok(n);
  }

  /** An unfilled placeholder met on the path is filled first; a failed fill means the variable does not exist. */
  method FillOnPath(n: Node, root: Node, objs: Objects, fuel: nat) returns (r: Result<Node>)
    requires Injective(objs) && n.Placeholder?
    modifies objs.Values
    ensures var f := FillF(n.slot, n.pending, root, old(Snapshot(objs)), fuel);
      Mirrors(r, if f.Err? then Err(NonExistentVariable) else Ok((n, f.value.1)), Snapshot(objs))
    decreases fuel, 7
  {
    var filled := Fill(n.slot, n.pending, root, objs, fuel);
    if filled.Err? {
      return Err(NonExistentVariable);
    }
    return Ok(n);
  }

  /** The path loop of `__find_variable` on live objects, from the item on. */
  method WalkOn(path: seq<PathKey>, item: Node, root: Node, objs: Objects, fuel: nat) returns (r: Result<Node>)
    requires Injective(objs)
    modifies objs.Values
    ensures Mirrors(r, WalkFrom(path, 0, item, root, old(Snapshot(objs)), fuel), Snapshot(objs))
    decreases fuel, 1
  {
    var value := item;
    var i := 0;
    while i < |path|
      invariant 0 <= i <= |path|
      invariant WalkFrom(path, 0, item, root, old(Snapshot(objs)), fuel) == WalkFrom(path, i, value, root, Snapshot(objs), fuel)
    {
      WalkAdvance(path, i, value, root, Snapshot(objs), fuel);
      var next := AdvanceOn(value, path[i], root, objs, fuel);
      if next.Err? {
        return Err(next.error);
      }
      value := next.value;
      i := i + 1;
    }
    return Ok(value);
  }

  /**
   * `__find_variable`: the item with the id, then one index per path
   * segment; an unfilled placeholder met on the way is filled against the
   * root before the walk goes on.
   */
  method FindVariable(variable: string, root: Node, objs: Objects, fuel: nat) returns (r: Result<Node>)
    requires Injective(objs)
    modifies objs.Values
    ensures Mirrors(r, FindVariableF(variable, root, old(Snapshot(objs)), fuel), Snapshot(objs))
    decreases fuel, 2
  {
    var item := FindItem(ItemId(variable), root);
    if item.None? {
      return Err(IDNotFound);
    }
    r := WalkOn(VariablePath(variable), item.value, root, objs, fuel);
  }

  /**
   * `ProcIfLabels.resolve`: adds the label of the first matching case, or
   * the default label, to the variation's Meta; nothing is added on error.
   */
  method ResolveLabels(rule: LabelRule, root: Node, meta: Meta, objs: Objects) returns (r: Result<Option<Label>>)
    requires Injective(objs)
    modifies meta, objs.Values
    ensures Mirrors(r, ResolveLabelsF(rule, root, old(Snapshot(objs))), Snapshot(objs))
    ensures r.Ok? ==> r.value.Some? && meta.labels == old(meta.labels) + [r.value.value]
    ensures r.Err? ==> meta.labels == old(meta.labels)
  {
    if |rule.labels| != |rule.cases| {
      return Err(AssertionFailed);
    }
    ghost var before := Snapshot(objs);
    var found := Resolve(VariableList(rule.variable), rule.cases, root, objs, MaxFillDepth);
    if found.Err? {
      return Err(found.error);
    }
    ghost var after := Snapshot(objs);
    assert ResolveF(VariableList(rule.variable), rule.cases, root, before, MaxFillDepth) == Ok((found.value, after));
    var chosen := if found.value.0 == -1 then rule.default else Some(rule.labels[found.value.0]);
    if chosen.None? {
      return Err(MissingCase);
    }
    assert ResolveLabelsF(rule, root, before) == Ok((chosen, after));
    meta.AddLabel(chosen);
    assert Snapshot(objs) == after;
    return Ok(chosen);
  }
}
