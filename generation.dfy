/**
 * The body of `generate`: choosing the variations by mode, then for each
 * variation the pass that fills the `!ProcIf` placeholders in walk order
 * and the pass that resolves the template's `!ProcIfLabels`.
 *
 * The functions here are the specification; the methods at the end run the
 * passes on live `MutablePlaceholder` and `Meta` objects and are proved to
 * agree with them.
 */
module Generation {
  import opened Outcomes
  import opened Tags
  import opened Util
  import opened Handlers
  import opened Conditions
  import opened Metadata
  import opened Resolver
  import opened Expansion
  import opened Core

  /** The label a fill adds to the variation's Meta: nothing for `None`. */
  function LabelOf(chosen: Option<Label>): (r: seq<Label>)
    ensures |r| <= 1 && (r == [] <==> chosen.None?)
  {
    if chosen.Some? then [chosen.value] else []
  }

  /** The labels found so far, in front of the result of what remains. */
  function Then(labels: seq<Label>, rest: Result<(seq<Label>, Store)>): Result<(seq<Label>, Store)>
  {
    if rest.Ok? then Ok((labels + rest.value.0, rest.value.1)) else rest
  }

  lemma ThenThen(a: seq<Label>, b: seq<Label>, rest: Result<(seq<Label>, Store)>)
    ensures Then(a, Then(b, rest)) == Then(a + b, rest)
    ensures Then([], rest) == rest
  {
    if rest.Ok? {
      assert a + (b + rest.value.0) == (a + b) + rest.value.0;
      assert [] + rest.value.0 == rest.value.0;
    }
  }

  lemma GrowsTrans(a: Store, b: Store, c: Store)
    requires Grows(a, b) && Grows(b, c)
    ensures Grows(a, c)
  {
  }

  /**
   * The callback `fill_placeholder` on one node of the walk: a placeholder
   * already filled (by an earlier conditional that needed it) gives its
   * stored label again, any other placeholder is filled against the
   * variation; every other node adds nothing.
   */
  function FillNode(n: Node, root: Node, store: Store): (r: Result<(seq<Label>, Store)>)
    ensures r.Ok? ==> Grows(store, r.value.1)
    ensures !n.Placeholder? ==> r == Ok(([], store))
  {
    if !n.Placeholder? then Ok(([], store))
    else
      match Lookup(store, n.slot)
      case Filled(_, chosen) => Ok((LabelOf(chosen), store))
      case Unfilled =>
        var filled :- FillF(n.slot, n.pending, root, store, MaxFillDepth);
        Ok((LabelOf(filled.0.1), filled.1))
  }

  /** A fill the callback makes leaves that placeholder filled. */
  lemma FillNodeFills(n: Node, root: Node, store: Store)
    requires FillNode(n, root, store).Ok? && n.Placeholder? && n.slot in store
    ensures FillNode(n, root, store).value.1[n.slot].Filled?
  {
  }

  /** The callback applied to the nodes of the walk in order; the labels it gives are collected in order. */
  function FillVisits(visits: seq<Node>, root: Node, store: Store): (r: Result<(seq<Label>, Store)>)
    ensures r.Ok? ==> Grows(store, r.value.1)
    decreases |visits|
  {
    if visits == [] then Ok(([], store))
    else
      var first :- FillNode(visits[0], root, store);
      var rest := FillVisits(visits[1..], root, first.1);
      assert rest.Ok? ==> Grows(store, rest.value.1) by {
        if rest.Ok? { GrowsTrans(store, first.1, rest.value.1); }
      }
      Then(first.0, rest)
  }

  /** What remains to do after a first stretch that may have failed. */
  function AndThen(first: Result<(seq<Label>, Store)>, visits: seq<Node>, root: Node): Result<(seq<Label>, Store)>
  {
    if first.Err? then Err(first.error) else Then(first.value.0, FillVisits(visits, root, first.value.1))
  }

  /** Filling along two stretches of a walk is filling along the first, then the second. */
  lemma {:induction false} FillVisitsConcat(a: seq<Node>, b: seq<Node>, root: Node, store: Store)
    ensures FillVisits(a + b, root, store) == AndThen(FillVisits(a, root, store), b, root)
    decreases |a|
  {
    if a == [] {
      assert a + b == b;
      ThenThen([], [], FillVisits(b, root, store));
    } else {
      assert (a + b)[0] == a[0] && (a + b)[1..] == a[1..] + b;
      var first := FillNode(a[0], root, store);
      if first.Ok? {
        FillVisitsConcat(a[1..], b, root, first.value.1);
        var tail := FillVisits(a[1..], root, first.value.1);
        if tail.Ok? {
          ThenThen(first.value.0, tail.value.0, FillVisits(b, root, tail.value.1));
        }
      }
    }
  }

  /** After the callback has seen a placeholder the store knows, that placeholder is filled. */
  lemma {:induction false} FillVisitsFills(visits: seq<Node>, root: Node, store: Store)
    requires FillVisits(visits, root, store).Ok?
    ensures forall slot :: slot in VisitedSlots(visits) && slot in store ==> FillVisits(visits, root, store).value.1[slot].Filled?
    decreases |visits|
  {
    if visits != [] {
      var n := visits[0];
      var first := FillNode(n, root, store).value;
      FillVisitsFills(visits[1..], root, first.1);
      if n.Placeholder? && n.slot in store {
        FillNodeFills(n, root, store);
      }
    }
  }

  /**
   * The placeholder pass over one variation: `walk_tree` with the fill
   * callback, rooted at the variation; a node without a handler on the way
   * stops the pass with an error after the fills before it.
   */
  function PassF(v: Variation, store: Store): (r: Result<(seq<Label>, Store)>)
    ensures r.Ok? ==> Grows(store, r.value.1)
  {
    var w := WalkTree(v.value, NotPlaceholder);
    var filled :- FillVisits(w.visits, v.value, store);
    if !w.complete then Err(NoHandler) else Ok(filled)
  }

  /** After a pass every placeholder of the variation holds a value. */
  lemma PassFillsAll(v: Variation, store: Store)
    requires PassF(v, store).Ok?
    requires SlotsOf(v.value) <= store.Keys
    ensures forall slot :: slot in SlotsOf(v.value) ==> PassF(v, store).value.1[slot].Filled?
  {
    var w := WalkTree(v.value, NotPlaceholder);
    WalkReachesSlots(v.value);
    FillVisitsFills(w.visits, v.value, store);
  }

  /** The list comprehension over the template's `!ProcIfLabels`: each rule adds one label, in order. */
  function RulesF(rules: seq<LabelRule>, root: Node, store: Store): (r: Result<(seq<Label>, Store)>)
    ensures r.Ok? ==> Grows(store, r.value.1) && |r.value.0| == |rules|
    decreases |rules|
  {
    if rules == [] then Ok(([], store))
    else
      var first :- ResolveLabelsF(rules[0], root, store);
      var rest := RulesF(rules[1..], root, first.1);
      assert rest.Ok? ==> Grows(store, rest.value.1) by {
        if rest.Ok? { GrowsTrans(store, first.1, rest.value.1); }
      }
      Then([first.0.value], rest)
  }

  /**
   * The label the `i`-th rule chooses when the rules run in order from
   * `store`, each in the store the ones before it leave; `None` when it or
   * an earlier rule fails.
   */
  function RuleChoice(rules: seq<LabelRule>, root: Node, store: Store, i: nat): Option<Label>
    requires i < |rules|
    decreases i
  {
    match ResolveLabelsF(rules[0], root, store)
    case Err(_) => None
    case Ok(first) => if i == 0 then first.0 else RuleChoice(rules[1..], root, first.1, i - 1)
  }

  /**
   * Each rule adds exactly one label, in rule order: the label it resolves
   * to in the store the earlier rules leave, which is one of its own labels
   * or its default.
   */
  lemma {:induction false} RulesLabels(rules: seq<LabelRule>, root: Node, store: Store)
    requires RulesF(rules, root, store).Ok?
    ensures var found := RulesF(rules, root, store).value.0;
      |found| == |rules|
      && forall i :: 0 <= i < |rules| ==>
           RuleChoice(rules, root, store, i) == Some(found[i])
           && (found[i] in rules[i].labels || Some(found[i]) == rules[i].default)
  {
    var found := RulesF(rules, root, store).value.0;
    forall i | 0 <= i < |rules|
      ensures RuleChoice(rules, root, store, i) == Some(found[i])
      ensures found[i] in rules[i].labels || Some(found[i]) == rules[i].default
    {
      RulesLabelAt(rules, root, store, i);
      ChoiceAmongLabels(rules, root, store, i);
    }
  }

  /** The `i`-th label the rules add is the `i`-th rule's choice. */
  lemma {:induction false} RulesLabelAt(rules: seq<LabelRule>, root: Node, store: Store, i: nat)
    requires RulesF(rules, root, store).Ok? && i < |rules|
    ensures RuleChoice(rules, root, store, i) == Some(RulesF(rules, root, store).value.0[i])
    decreases i
  {
    RulesUnfold(rules, root, store);
    var first := ResolveLabelsF(rules[0], root, store).value;
    var rest := RulesF(rules[1..], root, first.1).value.0;
    if i > 0 {
      RulesLabelAt(rules[1..], root, first.1, i - 1);
    }
    ChoiceStep(rules, root, store, i, first, RulesF(rules, root, store).value.0, rest);
  }

  /** One step of `RuleChoice` against one step of the labels the rules add. */
  lemma ChoiceStep(rules: seq<LabelRule>, root: Node, store: Store, i: nat, first: (Option<Label>, Store), found: seq<Label>, rest: seq<Label>)
    requires i < |rules| && ResolveLabelsF(rules[0], root, store) == Ok(first) && first.0.Some?
    requires found == [first.0.value] + rest && |rest| == |rules| - 1
    requires i > 0 ==> RuleChoice(rules[1..], root, first.1, i - 1) == Some(rest[i - 1])
    ensures RuleChoice(rules, root, store, i) == Some(found[i])
  {
  }

  /** A rule chooses one of its own labels or its default. */
  lemma ChoiceAmongLabels(rules: seq<LabelRule>, root: Node, store: Store, i: nat)
    requires i < |rules|
    ensures RuleChoice(rules, root, store, i).Some? ==>
      RuleChoice(rules, root, store, i).value in rules[i].labels || RuleChoice(rules, root, store, i) == rules[i].default
  {
  }

  /** One step of `RulesF`: the first rule's label comes first, then the rest's labels. */
  lemma RulesUnfold(rules: seq<LabelRule>, root: Node, store: Store)
    requires rules != [] && RulesF(rules, root, store).Ok?
    ensures ResolveLabelsF(rules[0], root, store).Ok?
    ensures var first := ResolveLabelsF(rules[0], root, store).value;
      RulesF(rules[1..], root, first.1).Ok?
      && RulesF(rules, root, store).value.0 == [first.0.value] + RulesF(rules[1..], root, first.1).value.0
  {
  }

  /**
   * What `MutablePlaceholder.represent` writes out: every placeholder
   * replaced by the value it was filled with.
   */
  function Materialize(n: Node, store: Store): Node
    decreases n, 0
  {
    match n
    case Placeholder(slot, _, _) =>
      if Lookup(store, slot).Filled? then Lookup(store, slot).value else n
    case List(items) => List(MaterializeAll(items, store))
    case Dict(keys, values) => Dict(keys, MaterializeAll(values, store))
    case Record(tag, names, fields) => Record(tag, names, MaterializeAll(fields, store))
    case RecordList(tag, elements) => RecordList(tag, MaterializeAll(elements, store))
    case _ => n
  }

  function MaterializeAll(ns: seq<Node>, store: Store): (r: seq<Node>)
    ensures |r| == |ns|
    decreases ns, 1
  {
    if ns == [] then [] else [Materialize(ns[0], store)] + MaterializeAll(ns[1..], store)
  }

  /** A variation without placeholders is written out as it is. */
  lemma {:induction false} MaterializeFixed(n: Node, store: Store)
    requires SlotsOf(n) == {}
    ensures Materialize(n, store) == n
    decreases n, 0
  {
    match n
    case List(items) => MaterializeAllFixed(items, store);
    case Dict(_, values) => MaterializeAllFixed(values, store);
    case Record(_, _, fields) => MaterializeAllFixed(fields, store);
    case RecordList(_, elements) => MaterializeAllFixed(elements, store);
    case _ =>
  }

  lemma {:induction false} MaterializeAllFixed(ns: seq<Node>, store: Store)
    requires SlotsAll(ns) == {}
    ensures MaterializeAll(ns, store) == ns
    decreases ns, 1
  {
    if ns != [] {
      MaterializeFixed(ns[0], store);
      MaterializeAllFixed(ns[1..], store);
    }
  }

  /**
   * One iteration of the loop in `generate`: the placeholder pass, then the
   * label rules, then the variation as it is written out; the Meta's labels
   * are the variation's own, the fill labels, then one label per rule.
   */
  function VariationF(v: Variation, rules: seq<LabelRule>, store: Store): (r: Result<(Variation, Store)>)
    ensures r.Ok? ==> Grows(store, r.value.1)
  {
    var fills :- PassF(v, store);
    var ruled :- RulesF(rules, v.value, fills.1);
    GrowsTrans(store, fills.1, ruled.1);
    Ok((Variation(Materialize(v.value, ruled.1), v.labels + fills.0 + ruled.0), ruled.1))
  }

  /**
   * The Meta of an output: the variation's labels first, one label per rule
   * last, each the label its rule resolves to after the placeholder pass.
   */
  lemma OutputLabels(v: Variation, rules: seq<LabelRule>, store: Store)
    requires VariationF(v, rules, store).Ok?
    ensures var out := VariationF(v, rules, store).value.0;
      var filled := PassF(v, store).value.1;
      |out.labels| >= |v.labels| + |rules| && out.labels[..|v.labels|] == v.labels
      && var last := out.labels[|out.labels| - |rules|..];
         forall i :: 0 <= i < |rules| ==>
           RuleChoice(rules, v.value, filled, i) == Some(last[i])
           && (last[i] in rules[i].labels || Some(last[i]) == rules[i].default)
  {
    var fills := PassF(v, store).value;
    var ruled := RulesF(rules, v.value, fills.1).value;
    RulesLabels(rules, v.value, fills.1);
    assert VariationF(v, rules, store).value.0.labels == v.labels + fills.0 + ruled.0;
    LabelsShape(v.labels, fills.0, ruled.0, rules);
  }

  /** The rules' labels at the end of a label list keep their place. */
  lemma LabelsShape(front: seq<Label>, mid: seq<Label>, found: seq<Label>, rules: seq<LabelRule>)
    requires |found| == |rules|
    ensures var all := front + mid + found;
      |all| >= |front| + |rules| && all[..|front|] == front && all[|all| - |rules|..] == found
  {
    var all := front + mid + found;
    assert all[..|front|] == front;
    assert all[|all| - |rules|..] == found;
  }

  /** After a pass every placeholder of the written-out variation is filled. */
  lemma OutputFilled(v: Variation, rules: seq<LabelRule>, store: Store)
    requires VariationF(v, rules, store).Ok?
    requires SlotsOf(v.value) <= store.Keys
    ensures forall slot :: slot in SlotsOf(v.value) ==> VariationF(v, rules, store).value.1[slot].Filled?
  {
    PassFillsAll(v, store);
  }

  // ---------------------------------------------------------------------
  // generate
  // ---------------------------------------------------------------------

  datatype Mode = SampleMode | Exhaustive | OtherMode(name: string)

  /**
   * Whether the variations of one run share their placeholder objects.
   * `Shared` is what `generate` does in exhaustive mode: the product hands
   * the same `MutablePlaceholder` to every variation that contains it.
   * `Fresh` gives every variation objects of its own.
   */
  datatype Sharing = Shared | Fresh

  /** The variations a run yields before it stops, and the error that stopped it, if any. */
  datatype Run = Run(outputs: seq<Variation>, failure: Option<Error>)

  /** `(sample_recursive(template) for _ in range(amount))`: samples until the first error. */
  function SampleStream(template: Node, k: nat, rng: Rng, c: Cursor): (r: (seq<Variation>, Option<Error>))
    ensures |r.0| <= k && (r.1.None? ==> |r.0| == k)
    decreases k
  {
    if k == 0 then ([], None)
    else
      match Sample(template, rng, c)
      case Err(e) => ([], Some(e))
      case Ok((v, next)) =>
        var rest := SampleStream(template, k - 1, rng, next);
        ([v] + rest.0, rest.1)
  }

  /**
   * The variations the mode chooses and how choosing them ends: in
   * exhaustive mode asking for more than there are yields all of them and
   * then fails, and asking for none still starts the iteration, so only an
   * error raised at that start is reported; an unknown mode fails before
   * the first.
   */
  function Stream(mode: Mode, template: Node, amount: int, rng: Rng): (r: (seq<Variation>, Option<Error>))
    ensures r.1.None? ==> |r.0| == Max0(amount)
    ensures |r.0| <= Max0(amount)
  {
    match mode
    case SampleMode => SampleStream(template, Max0(amount), rng, Cursor(0, 0))
    case Exhaustive =>
      if amount <= 0 then ([], EagerError(template))
      else
      (match Iterate(template, rng, Cursor(0, 0))
       case Err(e) => ([], Some(e))
       case Ok((vs, _)) =>
         if amount <= |vs| then (vs[..Max0(amount)], None) else (vs, Some(IterationExhausted)))
    case OtherMode(_) => ([], Some(UnknownMode))
  }

  /** Every placeholder of the variations, unfilled. */
  function InitialStore(slots: set<nat>): (s: Store)
    ensures s.Keys == slots && forall slot :: slot in s ==> s[slot] == Unfilled
  {
    map slot | slot in slots :: Unfilled
  }

  /** The placeholders of a variation, in the order its tree lists them. */
  function PlaceholdersOf(n: Node): (r: seq<Node>)
    ensures forall i :: 0 <= i < |r| ==> r[i].Placeholder?
    decreases n, 1
  {
    match n
    case Placeholder(_, _, _) => [n]
    case List(items) => PlaceholdersAll(items)
    case Dict(_, values) => PlaceholdersAll(values)
    case Record(_, _, fields) => PlaceholdersAll(fields)
    case RecordList(_, elements) => PlaceholdersAll(elements)
    case _ => []
  }

  function PlaceholdersAll(ns: seq<Node>): (r: seq<Node>)
    ensures forall i :: 0 <= i < |r| ==> r[i].Placeholder?
    decreases ns, 0
  {
    if ns == [] then [] else PlaceholdersOf(ns[0]) + PlaceholdersAll(ns[1..])
  }

  /**
   * The object a placeholder stands for, as the run meets it: one it has
   * met before keeps its state; a new one starts unfilled, unless it is a
   * `deepcopy` of another, which holds what that one holds at this moment.
   */
  function AdmitOne(p: Node, store: Store): (r: Store)
  {
    if !p.Placeholder? || p.slot in store then store
    else store[p.slot := if p.origin.Some? then Lookup(store, p.origin.value) else Unfilled]
  }

  /** The objects of a variation the run meets when the product hands the variation over, in tree order. */
  function Admit(ps: seq<Node>, store: Store): (r: Store)
    decreases |ps|
  {
    if ps == [] then store else AdmitOne(ps[|ps| - 1], Admit(ps[..|ps| - 1], store))
  }

  /** One of the placeholders `ps` lists has identity `slot`. */
  predicate Mentions(ps: seq<Node>, slot: nat)
  {
    exists i :: 0 <= i < |ps| && ps[i].Placeholder? && ps[i].slot == slot
  }

  /** Meeting placeholders in two stretches is meeting them all. */
  lemma {:induction false} AdmitConcat(a: seq<Node>, b: seq<Node>, store: Store)
    ensures Admit(a + b, store) == Admit(b, Admit(a, store))
    decreases |b|
  {
    if b == [] {
      assert a + b == a;
    } else {
      assert (a + b)[..|a + b| - 1] == a + b[..|b| - 1];
      assert (a + b)[|a + b| - 1] == b[|b| - 1];
      AdmitConcat(a, b[..|b| - 1], store);
    }
  }

  /**
   * Meeting placeholders creates an object for each of them and for
   * nothing else, and leaves every object already met as it was.
   */
  lemma {:induction false} AdmitKeeps(ps: seq<Node>, store: Store)
    ensures forall s :: s in store ==> s in Admit(ps, store) && Admit(ps, store)[s] == store[s]
    ensures forall s :: s in Admit(ps, store) <==> s in store || Mentions(ps, s)
    decreases |ps|
  {
    if ps != [] {
      var front := ps[..|ps| - 1];
      AdmitKeeps(front, store);
      forall s
        ensures s in Admit(ps, store) <==> s in store || Mentions(ps, s)
      {
        if Mentions(front, s) {
          var i :| 0 <= i < |front| && front[i].Placeholder? && front[i].slot == s;
          assert ps[i] == front[i];
        }
        if Mentions(ps, s) {
          var i :| 0 <= i < |ps| && ps[i].Placeholder? && ps[i].slot == s;
          if i < |front| {
            assert front[i] == ps[i];
          }
        }
      }
    }
  }

  /** The state a placeholder gets when the run meets it for the first time. */
  lemma AdmitNew(ps: seq<Node>, store: Store, i: nat)
    requires i < |ps| && ps[i].Placeholder? && ps[i].slot !in Admit(ps[..i], store)
    ensures ps[i].slot in Admit(ps, store)
    ensures var before := Admit(ps[..i], store);
      Admit(ps, store)[ps[i].slot] == if ps[i].origin.Some? then Lookup(before, ps[i].origin.value) else Unfilled
  {
    assert ps == ps[..i + 1] + ps[i + 1..];
    assert ps[..i + 1][..i] == ps[..i];
    AdmitConcat(ps[..i + 1], ps[i + 1..], store);
    AdmitKeeps(ps[i + 1..], Admit(ps[..i + 1], store));
  }

  /**
   * A `deepcopy` the run meets for the first time holds what its original
   * holds, when the original was met before it: in an earlier variation or
   * earlier in the same one.
   */
  lemma AdmitCopies(ps: seq<Node>, store: Store, i: nat)
    requires i < |ps| && ps[i].Placeholder? && ps[i].origin.Some?
    requires ps[i].slot !in store && forall j :: 0 <= j < i ==> !(ps[j].Placeholder? && ps[j].slot == ps[i].slot)
    requires ps[i].origin.value in store || Mentions(ps[..i], ps[i].origin.value)
    ensures var r := Admit(ps, store);
      ps[i].slot in r && ps[i].origin.value in r && r[ps[i].slot] == r[ps[i].origin.value]
  {
    var slot, origin := ps[i].slot, ps[i].origin.value;
    var before := Admit(ps[..i], store);
    AdmitKeeps(ps[..i], store);
    forall j | 0 <= j < i
      ensures !(ps[..i][j].Placeholder? && ps[..i][j].slot == slot)
    {
      assert ps[..i][j] == ps[j];
    }
    AdmitNew(ps, store, i);
    assert ps == ps[..i] + ps[i..];
    AdmitConcat(ps[..i], ps[i..], store);
    AdmitKeeps(ps[i..], before);
    AdmitKeeps(ps, store);
    assert ps[i..][0] == ps[i];
  }

  /**
   * The store a variation's pass starts from: with objects shared along
   * the run, the carried store with the variation's placeholders met;
   * otherwise objects of its own, all unfilled.
   */
  function StartOf(v: Variation, carried: Store, sharing: Sharing): Store
  {
    if sharing == Shared then Admit(PlaceholdersOf(v.value), carried) else InitialStore(SlotsOf(v.value))
  }

  /** The passes over the chosen variations, in order, until one fails. */
  function PassAll(vs: seq<Variation>, rules: seq<LabelRule>, store: Store, sharing: Sharing): (r: (seq<Variation>, Option<Error>))
    ensures |r.0| <= |vs| && (r.1.None? ==> |r.0| == |vs|)
    decreases |vs|
  {
    if vs == [] then ([], None)
    else
      match VariationF(vs[0], rules, StartOf(vs[0], store, sharing))
      case Err(e) => ([], Some(e))
      case Ok((out, next)) =>
        var rest := PassAll(vs[1..], rules, next, sharing);
        ([out] + rest.0, rest.1)
  }

  /**
   * `generate`: what the run yields and how it ends. A run that ends without
   * error yields exactly the requested number of variations, never more; an
   * unknown mode yields nothing.
   */
  function GenerateF(mode: Mode, template: Node, amount: int, rules: seq<LabelRule>, rng: Rng, sharing: Sharing): (r: Run)
    ensures |r.outputs| <= Max0(amount)
    ensures r.failure.None? ==> |r.outputs| == Max0(amount)
    ensures mode.OtherMode? ==> r == Run([], Some(UnknownMode))
  {
    var chosen := Stream(mode, template, amount, rng);
    var passed := PassAll(chosen.0, rules, map[], sharing);
    Run(passed.0, if passed.1.Some? then passed.1 else chosen.1)
  }

  /**
   * Sample mode: every variation it chooses is, up to placeholder
   * identities, one of the variations exhaustive iteration enumerates.
   */
  lemma {:induction false} SampledAreVariations(template: Node, k: nat, rng: Rng, c: Cursor)
    requires RestrictFree(template)
    ensures forall v :: v in SampleStream(template, k, rng, c).0 ==>
              Canonical(template).Ok? && EraseV(v) in Canonical(template).value
    decreases k
  {
    if k > 0 && Sample(template, rng, c).Ok? {
      var (v, next) := Sample(template, rng, c).value;
      SampleInCanonical(template, rng, c);
      SampledAreVariations(template, k - 1, rng, next);
    }
  }

  /**
   * Exhaustive mode: the chosen variations are the first `amount` of the
   * enumeration, in order; asking for more yields all of them and then
   * fails with IterationExhausted.
   */
  lemma ExhaustiveTakesPrefix(template: Node, amount: int, rng: Rng)
    requires RestrictFree(template) && Canonical(template).Ok?
    ensures var all := Canonical(template).value;
      var chosen := Stream(Exhaustive, template, amount, rng);
      EraseVs(chosen.0) == all[..Min(Max0(amount), |all|)]
      && chosen.1 == (if amount <= |all| then None else Some(IterationExhausted))
  {
    IterateCanonical(template, rng, Cursor(0, 0));
    if EagerError(template).Some? {
      EagerErrorRaises(template, rng, Cursor(0, 0));
    }
    var vs := Iterate(template, rng, Cursor(0, 0)).value.0;
    var all := Canonical(template).value;
    assert EraseVs(vs) == all;
    if amount <= |all| {
      assert EraseVs(vs[..Max0(amount)]) == all[..Max0(amount)];
    } else {
      assert all[..|all|] == all;
    }
  }

  /** The pass a variation gets when it has objects of its own, all unfilled. */
  function OwnPass(v: Variation, rules: seq<LabelRule>): Result<(Variation, Store)>
  {
    VariationF(v, rules, InitialStore(SlotsOf(v.value)))
  }

  /** With fresh objects the store carried between passes plays no part. */
  lemma FreshStep(vs: seq<Variation>, rules: seq<LabelRule>, store: Store)
    requires vs != []
    ensures var r := PassAll(vs, rules, store, Fresh);
      if OwnPass(vs[0], rules).Err? then r == ([], Some(OwnPass(vs[0], rules).error))
      else r == ([OwnPass(vs[0], rules).value.0] + PassAll(vs[1..], rules, OwnPass(vs[0], rules).value.1, Fresh).0,
                 PassAll(vs[1..], rules, OwnPass(vs[0], rules).value.1, Fresh).1)
  {
  }

  /**
   * With objects of its own per variation, each output depends on its own
   * variation only: it is that variation's pass from all-unfilled objects.
   */
  lemma {:induction false} FreshIndependent(vs: seq<Variation>, rules: seq<LabelRule>, store: Store)
    ensures var r := PassAll(vs, rules, store, Fresh);
      forall k :: 0 <= k < |r.0| ==> OwnPass(vs[k], rules).Ok? && r.0[k] == OwnPass(vs[k], rules).value.0
    decreases |vs|
  {
    if vs != [] {
      FreshStep(vs, rules, store);
      var first := OwnPass(vs[0], rules);
      if first.Ok? {
        FreshIndependent(vs[1..], rules, first.value.1);
        var rest := PassAll(vs[1..], rules, first.value.1, Fresh).0;
        OwnShift(vs, rules, rest);
      }
    }
  }

  /** Prepending the first variation's own pass to a run over the rest moves its failing position up by one. */
  lemma FailureShift(vs: seq<Variation>, rules: seq<LabelRule>, rest: (seq<Variation>, Option<Error>))
    requires vs != [] && OwnPass(vs[0], rules).Ok?
    requires rest.1.Some? ==> |rest.0| < |vs[1..]| && OwnPass(vs[1..][|rest.0|], rules) == Err(rest.1.value)
    ensures var r := ([OwnPass(vs[0], rules).value.0] + rest.0, rest.1);
      r.1.Some? ==> |r.0| < |vs| && OwnPass(vs[|r.0|], rules) == Err(r.1.value)
  {
    if rest.1.Some? {
      assert vs[1 + |rest.0|] == vs[1..][|rest.0|];
    }
  }

  /** Prepending the first variation's own pass to the rest's own passes keeps outputs and variations aligned. */
  lemma OwnShift(vs: seq<Variation>, rules: seq<LabelRule>, rest: seq<Variation>)
    requires vs != [] && OwnPass(vs[0], rules).Ok? && |rest| < |vs|
    requires forall k :: 0 <= k < |rest| ==> OwnPass(vs[1..][k], rules).Ok? && rest[k] == OwnPass(vs[1..][k], rules).value.0
    ensures var outs := [OwnPass(vs[0], rules).value.0] + rest;
      forall k :: 0 <= k < |outs| ==> OwnPass(vs[k], rules).Ok? && outs[k] == OwnPass(vs[k], rules).value.0
  {
    var outs := [OwnPass(vs[0], rules).value.0] + rest;
    forall k | 0 <= k < |outs|
      ensures OwnPass(vs[k], rules).Ok? && outs[k] == OwnPass(vs[k], rules).value.0
    {
      if k > 0 {
        assert outs[k] == rest[k - 1] && vs[k] == vs[1..][k - 1];
      }
    }
  }

  /** With fresh objects a run stops at the first variation whose own pass fails, with its error. */
  lemma {:induction false} FreshFailure(vs: seq<Variation>, rules: seq<LabelRule>, store: Store)
    ensures var r := PassAll(vs, rules, store, Fresh);
      r.1.Some? ==> |r.0| < |vs| && OwnPass(vs[|r.0|], rules) == Err(r.1.value)
    decreases |vs|
  {
    if vs != [] {
      FreshStep(vs, rules, store);
      var first := OwnPass(vs[0], rules);
      if first.Ok? {
        FreshFailure(vs[1..], rules, first.value.1);
        FailureShift(vs, rules, PassAll(vs[1..], rules, first.value.1, Fresh));
      }
    }
  }

  // ---------------------------------------------------------------------
  // The passes on live objects
  // ---------------------------------------------------------------------

  /**
   * A pass on live objects agrees with the fills its specification makes:
   * it fails exactly when a fill fails, with that error; otherwise it gives
   * the expected answer, and the objects and the Meta's labels are as the
   * fills leave them.
   */
  predicate FillsMirror(r: Result<bool>, answer: bool, spec: Result<(seq<Label>, Store)>, labelsBefore: seq<Label>, now: Store, labelsNow: seq<Label>)
  {
    (r.Ok? <==> spec.Ok?)
    && (r.Ok? ==> r.value == answer && now == spec.value.1 && labelsNow == labelsBefore + spec.value.0)
    && (r.Err? ==> r.error == spec.error)
  }

  /** A stretch that succeeded, followed by one the pass mirrors, is mirrored as a whole. */
  lemma MirrorThen(first: Result<(seq<Label>, Store)>, L0: seq<Label>, S1: Store, L1: seq<Label>,
                   r: Result<bool>, answer: bool, rest: Result<(seq<Label>, Store)>, S2: Store, L2: seq<Label>)
    requires first.Ok? && S1 == first.value.1 && L1 == L0 + first.value.0
    requires FillsMirror(r, answer, rest, L1, S2, L2)
    ensures FillsMirror(r, answer, Then(first.value.0, rest), L0, S2, L2)
  {
    if rest.Ok? {
      assert L2 == L0 + (first.value.0 + rest.value.0);
    }
  }

  /**
   * The callback `fill_placeholder` on live objects: a placeholder is
   * filled against the variation, or its stored value reused, and its label
   * goes to the Meta; the answer is whether the walk goes on into the node.
   */
  method FillPlaceholder(n: Node, root: Node, meta: Meta, objs: Objects) returns (r: Result<bool>)
    requires Injective(objs)
    modifies meta, objs.Values
    ensures FillsMirror(r, NotPlaceholder(n), FillNode(n, root, old(Snapshot(objs))), old(meta.labels), Snapshot(objs), meta.labels)
  {
    if !n.Placeholder? {
      assert meta.labels == meta.labels + [];
      return Ok(true);
    }
    ghost var S0 := Snapshot(objs);
    ghost var L0 := meta.labels;
    var chosen := PlaceholderLabel(n, root, objs);
    if chosen.Err? {
      return Err(chosen.error);
    }
    meta.AddLabel(chosen.value);
    LabelledMirror(FillNode(n, root, S0), L0, chosen.value, Snapshot(objs), meta.labels);
    return Ok(false);
  }

  /** The label a placeholder contributes: the stored one, or the one a fresh fill chooses. */
  method PlaceholderLabel(n: Node, root: Node, objs: Objects) returns (r: Result<Option<Label>>)
    requires Injective(objs) && n.Placeholder?
    modifies objs.Values
    ensures r.Ok? ==> FillNode(n, root, old(Snapshot(objs))) == Ok((LabelOf(r.value), Snapshot(objs)))
    ensures r.Err? ==> FillNode(n, root, old(Snapshot(objs))) == Err(r.error)
  {
    ghost var S0 := Snapshot(objs);
    FillNodeCases(n, root, S0);
    if n.slot in objs && objs[n.slot].IsFilled() {
      return Ok(objs[n.slot].fillLabel);
    }
    var filled := Fill(n.slot, n.pending, root, objs, MaxFillDepth);
    if filled.Err? {
      return Err(filled.error);
    }
    return Ok(filled.value.1);
  }

  /** A placeholder whose label went to the Meta: the walk does not go into it. */
  lemma LabelledMirror(spec: Result<(seq<Label>, Store)>, L0: seq<Label>, chosen: Option<Label>, S: Store, L: seq<Label>)
    requires spec == Ok((LabelOf(chosen), S)) && L == L0 + LabelOf(chosen)
    ensures FillsMirror(Ok(false), false, spec, L0, S, L)
  {
  }

  lemma FillNodeCases(n: Node, root: Node, store: Store)
    requires n.Placeholder?
    ensures Lookup(store, n.slot).Filled? ==>
      FillNode(n, root, store) == Ok((LabelOf(Lookup(store, n.slot).fillLabel), store))
    ensures Lookup(store, n.slot).Unfilled? ==>
      var f := FillF(n.slot, n.pending, root, store, MaxFillDepth);
      FillNode(n, root, store) == if f.Err? then Err(f.error) else Ok((LabelOf(f.value.0.1), f.value.1))
  {
  }

  /** The walk of a node the callback does not go into is that node alone. */
  lemma WalkStops(n: Node, root: Node, store: Store)
    requires !NotPlaceholder(n)
    ensures WalkTree(n, NotPlaceholder) == Walked([n], true)
    ensures FillVisits([n], root, store) == FillNode(n, root, store)
  {
    assert [n][1..] == [];
    var first := FillNode(n, root, store);
    if first.Ok? {
      assert first.value.0 + [] == first.value.0;
    }
  }

  /** The walk of a node without a handler is that node alone, unfinished. */
  lemma WalkBlocked(n: Node, root: Node, store: Store)
    requires NotPlaceholder(n) && Children(n).Err?
    ensures WalkTree(n, NotPlaceholder) == Walked([n], false)
    ensures FillVisits([n], root, store) == Ok(([], store))
  {
    assert [n][1..] == [];
    assert FillVisits([n][1..], root, store) == Ok(([], store));
    ThenThen([], [], Ok(([], store)));
  }

  /** A walk that goes into a node is the node, then the walks of its children. */
  lemma WalkInto(n: Node, root: Node, store: Store)
    requires NotPlaceholder(n) && Children(n).Ok?
    ensures forall j :: 0 <= j < |Children(n).value| ==> Size(Children(n).value[j]) < Size(n)
    ensures var w := WalkAll(Children(n).value, NotPlaceholder, Size(n));
      WalkTree(n, NotPlaceholder).complete == w.complete
      && FillVisits(WalkTree(n, NotPlaceholder).visits, root, store) == FillVisits(w.visits, root, store)
  {
    ChildrenSmaller(n);
    var rest := WalkAll(Children(n).value, NotPlaceholder, Size(n)).visits;
    assert ([n] + rest)[0] == n && ([n] + rest)[1..] == rest;
    ThenThen([], [], FillVisits(rest, root, store));
  }

  /**
   * `walk_tree(variation, fill_placeholder)` on live objects: the callback
   * sees the node; unless it was a placeholder, the walk goes on into the
   * node's children in order. The answer is whether the walk finished.
   */
  method WalkFill(n: Node, root: Node, meta: Meta, objs: Objects) returns (r: Result<bool>)
    requires Injective(objs)
    modifies meta, objs.Values
    ensures var w := WalkTree(n, NotPlaceholder);
      FillsMirror(r, w.complete, FillVisits(w.visits, root, old(Snapshot(objs))), old(meta.labels), Snapshot(objs), meta.labels)
    decreases Size(n), 2
  {
    ghost var S0 := Snapshot(objs);
    ghost var L0 := meta.labels;
    var go := FillPlaceholder(n, root, meta, objs);
    if go.Err? || !go.value {
      StopsMirror(n, root, S0, L0, go, Snapshot(objs), meta.labels);
      return if go.Err? then go else Ok(true);
    }
    var children := Children(n);
    if children.Err? {
      BlockedMirror(n, root, S0, L0, Snapshot(objs), meta.labels);
      return Ok(false);
    }
    assert Snapshot(objs) == S0 && meta.labels == L0 + [];
    r := WalkChildren(n, root, meta, objs);
  }

  /** The walk goes on into the children of a node that is not a placeholder and has a handler. */
  method WalkChildren(n: Node, root: Node, meta: Meta, objs: Objects) returns (r: Result<bool>)
    requires Injective(objs) && NotPlaceholder(n) && Children(n).Ok?
    modifies meta, objs.Values
    ensures var w := WalkTree(n, NotPlaceholder);
      FillsMirror(r, w.complete, FillVisits(w.visits, root, old(Snapshot(objs))), old(meta.labels), Snapshot(objs), meta.labels)
    decreases Size(n), 1
  {
    ghost var S0 := Snapshot(objs);
    ghost var L0 := meta.labels;
    WalkInto(n, root, S0);
    r := WalkFillAll(Children(n).value, Size(n), root, meta, objs);
    IntoMirror(n, root, S0, L0, r, Snapshot(objs), meta.labels);
  }

  /** The callback's outcome at a placeholder is the outcome of the whole walk from it. */
  lemma StopsMirror(n: Node, root: Node, S0: Store, L0: seq<Label>, go: Result<bool>, S: Store, L: seq<Label>)
    requires FillsMirror(go, NotPlaceholder(n), FillNode(n, root, S0), L0, S, L)
    requires go.Err? || !go.value
    ensures var w := WalkTree(n, NotPlaceholder);
      FillsMirror(if go.Err? then go else Ok(true), w.complete, FillVisits(w.visits, root, S0), L0, S, L)
  {
    WalkStops(n, root, S0);
  }

  /** A node without a handler, after a callback that changed nothing, ends the walk. */
  lemma BlockedMirror(n: Node, root: Node, S0: Store, L0: seq<Label>, S: Store, L: seq<Label>)
    requires FillsMirror(Ok(true), NotPlaceholder(n), FillNode(n, root, S0), L0, S, L)
    requires Children(n).Err?
    ensures var w := WalkTree(n, NotPlaceholder);
      FillsMirror(Ok(false), w.complete, FillVisits(w.visits, root, S0), L0, S, L)
  {
    WalkBlocked(n, root, S0);
    assert L == L0 + [];
  }

  /** Walking a node's children, after a callback that changed nothing, is walking the node. */
  lemma IntoMirror(n: Node, root: Node, S0: Store, L0: seq<Label>, r: Result<bool>, S: Store, L: seq<Label>)
    requires NotPlaceholder(n) && Children(n).Ok?
    requires forall j :: 0 <= j < |Children(n).value| ==> Size(Children(n).value[j]) < Size(n)
    requires var w := WalkAll(Children(n).value, NotPlaceholder, Size(n));
      FillsMirror(r, w.complete, FillVisits(w.visits, root, S0), L0, S, L)
    ensures var w := WalkTree(n, NotPlaceholder);
      FillsMirror(r, w.complete, FillVisits(w.visits, root, S0), L0, S, L)
  {
    WalkInto(n, root, S0);
  }

  /** Walking the first child, then the rest, is walking all the children. */
  lemma WalkAllHead(cs: seq<Node>, bound: nat, root: Node, store: Store)
    requires cs != [] && forall j :: 0 <= j < |cs| ==> Size(cs[j]) < bound
    ensures var first := WalkTree(cs[0], NotPlaceholder);
      var w := WalkAll(cs, NotPlaceholder, bound);
      (!first.complete ==> w == first)
      && (first.complete ==>
            w.complete == WalkAll(cs[1..], NotPlaceholder, bound).complete
            && FillVisits(w.visits, root, store)
               == AndThen(FillVisits(first.visits, root, store), WalkAll(cs[1..], NotPlaceholder, bound).visits, root))
  {
    var first := WalkTree(cs[0], NotPlaceholder);
    if first.complete {
      FillVisitsConcat(first.visits, WalkAll(cs[1..], NotPlaceholder, bound).visits, root, store);
    }
  }

  /** The walks of a node's children one after the other, as the generator in `walk_tree` consumes them. */
  method WalkFillAll(cs: seq<Node>, ghost bound: nat, root: Node, meta: Meta, objs: Objects) returns (r: Result<bool>)
    requires Injective(objs)
    requires forall j :: 0 <= j < |cs| ==> Size(cs[j]) < bound
    modifies meta, objs.Values
    ensures var w := WalkAll(cs, NotPlaceholder, bound);
      FillsMirror(r, w.complete, FillVisits(w.visits, root, old(Snapshot(objs))), old(meta.labels), Snapshot(objs), meta.labels)
    decreases bound, 0, |cs|
  {
    if cs == [] {
      assert meta.labels == meta.labels + [];
      return Ok(true);
    }
    ghost var S0 := Snapshot(objs);
    ghost var L0 := meta.labels;
    WalkAllHead(cs, bound, root, S0);
    var sub := WalkFill(cs[0], root, meta, objs);
    if sub.Err? || !sub.value {
      return sub;
    }
    ghost var S1 := Snapshot(objs);
    ghost var L1 := meta.labels;
    r := WalkFillAll(cs[1..], bound, root, meta, objs);
    MirrorThen(FillVisits(WalkTree(cs[0], NotPlaceholder).visits, root, S0), L0, S1, L1,
               r, WalkAll(cs[1..], NotPlaceholder, bound).complete,
               FillVisits(WalkAll(cs[1..], NotPlaceholder, bound).visits, root, S1), Snapshot(objs), meta.labels);
  }

  lemma RulesStep(rules: seq<LabelRule>, i: nat, root: Node, store: Store)
    requires i < |rules|
    ensures var f := ResolveLabelsF(rules[i], root, store);
      RulesF(rules[i..], root, store)
        == if f.Err? then Err(f.error) else Then([f.value.0.value], RulesF(rules[i + 1..], root, f.value.1))
  {
    assert rules[i..][0] == rules[i] && rules[i..][1..] == rules[i + 1..];
  }

  lemma RulesDone(rules: seq<LabelRule>, root: Node, store: Store)
    ensures RulesF(rules[|rules|..], root, store) == Ok(([], store))
  {
    assert rules[|rules|..] == [];
  }

  /** What one rule does to the labels found so far and to the rest of the rules. */
  lemma RuleStep(rules: seq<LabelRule>, i: nat, root: Node, before: Store, found: seq<Label>, chosen: Result<Option<Label>>, now: Store)
    requires i < |rules|
    requires Mirrors(chosen, ResolveLabelsF(rules[i], root, before), now)
    ensures chosen.Err? ==> Then(found, RulesF(rules[i..], root, before)) == Err(chosen.error)
    ensures chosen.Ok? ==> chosen.value.Some?
    ensures chosen.Ok? ==>
      Then(found, RulesF(rules[i..], root, before)) == Then(found + [chosen.value.value], RulesF(rules[i + 1..], root, now))
  {
    RulesStep(rules, i, root, before);
    if chosen.Ok? {
      ThenThen(found, [chosen.value.value], RulesF(rules[i + 1..], root, now));
    }
  }

  /** One rule of the comprehension on live objects, and what it leaves for the rules after it. */
  method ApplyRule(rules: seq<LabelRule>, i: nat, root: Node, meta: Meta, objs: Objects, ghost found: seq<Label>)
    returns (chosen: Result<Option<Label>>)
    requires i < |rules| && Injective(objs)
    modifies meta, objs.Values
    ensures chosen.Err? ==> Then(found, RulesF(rules[i..], root, old(Snapshot(objs)))) == Err(chosen.error)
    ensures chosen.Ok? ==> chosen.value.Some? && meta.labels == old(meta.labels) + [chosen.value.value]
    ensures chosen.Ok? ==>
      Then(found, RulesF(rules[i..], root, old(Snapshot(objs)))) == Then(found + [chosen.value.value], RulesF(rules[i + 1..], root, Snapshot(objs)))
  {
    ghost var before := Snapshot(objs);
    chosen := ResolveLabels(rules[i], root, meta, objs);
    RuleStep(rules, i, root, before, found, chosen, Snapshot(objs));
  }

  /** The list comprehension over the `!ProcIfLabels` rules on live objects. */
  method ApplyRules(rules: seq<LabelRule>, root: Node, meta: Meta, objs: Objects) returns (r: Result<seq<Label>>)
    requires Injective(objs)
    modifies meta, objs.Values
    ensures Mirrors(r, RulesF(rules, root, old(Snapshot(objs))), Snapshot(objs))
    ensures r.Ok? ==> meta.labels == old(meta.labels) + r.value
  {
    ghost var S0 := Snapshot(objs);
    ghost var L0 := meta.labels;
    var found: seq<Label> := [];
    var i := 0;
    assert rules[0..] == rules;
    ThenThen([], [], RulesF(rules, root, S0));
    while i < |rules|
      invariant 0 <= i <= |rules|
      invariant RulesF(rules, root, S0) == Then(found, RulesF(rules[i..], root, Snapshot(objs)))
      invariant meta.labels == L0 + found
    {
      var chosen := ApplyRule(rules, i, root, meta, objs, found);
      if chosen.Err? {
        return Err(chosen.error);
      }
      found := found + [chosen.value.value];
      i := i + 1;
    }
    RulesDone(rules, root, Snapshot(objs));
    assert found + [] == found;
    return Ok(found);
  }

  /** The loop body of `generate` for one variation, with its own Meta. */
  method PassOne(v: Variation, rules: seq<LabelRule>, objs: Objects) returns (r: Result<Variation>)
    requires Injective(objs)
    modifies objs.Values
    ensures Mirrors(r, VariationF(v, rules, old(Snapshot(objs))), Snapshot(objs))
  {
    var meta := new Meta.WithLabels(v.labels);
    var walked := WalkFill(v.value, v.value, meta, objs);
    if walked.Err? {
      return Err(walked.error);
    }
    if !walked.value {
      return Err(NoHandler);
    }
    var ruled := ApplyRules(rules, v.value, meta, objs);
    if ruled.Err? {
      return Err(ruled.error);
    }
    return Ok(Variation(Materialize(v.value, Snapshot(objs)), meta.labels));
  }

  /** A new, unfilled `MutablePlaceholder` for each placeholder identity. */
  method Allocate(slots: set<nat>) returns (objs: Objects)
    ensures objs.Keys == slots && Injective(objs)
    ensures forall slot :: slot in objs ==> fresh(objs[slot])
    ensures Snapshot(objs) == InitialStore(slots)
  {
    objs := map[];
    var remaining := slots;
    while remaining != {}
      invariant remaining <= slots && objs.Keys == slots - remaining
      invariant Injective(objs) && forall s :: s in objs ==> fresh(objs[s])
      invariant forall slot :: slot in objs ==> objs[slot].State() == Unfilled
      decreases remaining
    {
      var slot :| slot in remaining;
      var p := new MutablePlaceholder();
      objs := objs[slot := p];
      remaining := remaining - {slot};
    }
    assert Snapshot(objs) == InitialStore(slots);
  }

  /** The variations of the run so far, in front of the passes still to make. */
  function Prefixed(outputs: seq<Variation>, rest: (seq<Variation>, Option<Error>)): (seq<Variation>, Option<Error>)
  {
    (outputs + rest.0, rest.1)
  }

  lemma PrefixedPrefixed(a: seq<Variation>, b: seq<Variation>, rest: (seq<Variation>, Option<Error>))
    ensures Prefixed(a, Prefixed(b, rest)) == Prefixed(a + b, rest)
    ensures Prefixed([], rest) == rest
  {
    assert a + (b + rest.0) == (a + b) + rest.0;
    assert [] + rest.0 == rest.0;
  }

  /** What one variation's pass does to the run: it stops it, or adds an output and passes on its store. */
  lemma PassStep(vs: seq<Variation>, i: nat, rules: seq<LabelRule>, carried: Store, sharing: Sharing,
                 outputs: seq<Variation>, out: Result<Variation>, now: Store)
    requires i < |vs|
    requires Mirrors(out, VariationF(vs[i], rules, StartOf(vs[i], carried, sharing)), now)
    ensures out.Err? ==> Prefixed(outputs, PassAll(vs[i..], rules, carried, sharing)) == (outputs, Some(out.error))
    ensures out.Ok? ==>
      Prefixed(outputs, PassAll(vs[i..], rules, carried, sharing)) == Prefixed(outputs + [out.value], PassAll(vs[i + 1..], rules, now, sharing))
  {
    assert vs[i..][0] == vs[i] && vs[i..][1..] == vs[i + 1..];
    if out.Err? {
      assert outputs + [] == outputs;
    } else {
      PrefixedPrefixed(outputs, [out.value], PassAll(vs[i + 1..], rules, now, sharing));
    }
  }

  /**
   * The product handing a variation over: each of its placeholders the run
   * has met keeps its object; each new one gets a new object, a copy of its
   * original's object as it is now when the placeholder is a `deepcopy`.
   */
  method AdmitObjects(ps: seq<Node>, objs: Objects) returns (r: Objects)
    requires Injective(objs)
    ensures Injective(r) && Snapshot(r) == Admit(ps, Snapshot(objs))
    ensures forall s :: s in r ==> (s in objs && r[s] == objs[s]) || fresh(r[s])
  {
    ghost var before := Snapshot(objs);
    r := objs;
    var i := 0;
    assert ps[..0] == [];
    while i < |ps|
      invariant 0 <= i <= |ps|
      invariant Injective(r) && Snapshot(r) == Admit(ps[..i], before)
      invariant forall s :: s in r ==> (s in objs && r[s] == objs[s]) || fresh(r[s])
    {
      AdmitSnoc(ps, i, before);
      r := AdmitObject(ps[i], r);
      i := i + 1;
    }
    assert ps[..|ps|] == ps;
  }

  lemma AdmitSnoc(ps: seq<Node>, i: nat, store: Store)
    requires i < |ps|
    ensures Admit(ps[..i + 1], store) == AdmitOne(ps[i], Admit(ps[..i], store))
  {
    assert ps[..i + 1][..i] == ps[..i] && ps[..i + 1][i] == ps[i];
  }

  /** One placeholder of the variation handed over: its object, made now if the run has none for it yet. */
  method AdmitObject(p: Node, objs: Objects) returns (r: Objects)
    requires Injective(objs)
    ensures Injective(r) && Snapshot(r) == AdmitOne(p, Snapshot(objs))
    ensures forall s :: s in r ==> (s in objs && r[s] == objs[s]) || fresh(r[s])
  {
    r := objs;
    if p.Placeholder? && p.slot !in objs {
      var made: MutablePlaceholder;
      if p.origin.Some? && p.origin.value in objs {
        made := new MutablePlaceholder.CopyOf(objs[p.origin.value]);
      } else {
        made := new MutablePlaceholder();
      }
      r := objs[p.slot := made];
      assert Snapshot(r) == Snapshot(objs)[p.slot := made.State()];
    }
  }

  /**
   * One variation's pass, on the run's shared objects or on objects of its
   * own; `next` are the shared objects after it and `now` the state its
   * objects are left in.
   */
  method PassNext(v: Variation, rules: seq<LabelRule>, shared: Objects, sharing: Sharing) returns (out: Result<Variation>, next: Objects, ghost now: Store)
    requires Injective(shared)
    modifies shared.Values
    ensures Mirrors(out, VariationF(v, rules, StartOf(v, old(Snapshot(shared)), sharing)), now)
    ensures Injective(next) && forall s :: s in next ==> (s in shared && next[s] == shared[s]) || fresh(next[s])
    ensures sharing == Shared ==> Snapshot(next) == now
  {
    var objs;
    if sharing == Fresh {
      objs := Allocate(SlotsOf(v.value));
      next := shared;
    } else {
      objs := AdmitObjects(PlaceholdersOf(v.value), shared);
      next := objs;
    }
    assert Snapshot(objs) == StartOf(v, Snapshot(shared), sharing);
    out := PassOne(v, rules, objs);
    now := Snapshot(objs);
  }

  /**
   * The loop of `generate` over the chosen variations: each is passed on
   * its placeholder objects with a Meta of its own. With `Shared`, the
   * objects the product made serve every variation that holds them, as the
   * exhaustive product hands them on; with `Fresh` each variation gets new
   * ones.
   */
  method PassVariations(vs: seq<Variation>, rules: seq<LabelRule>, sharing: Sharing) returns (passed: (seq<Variation>, Option<Error>))
    ensures passed == PassAll(vs, rules, map[], sharing)
  {
    var shared: Objects := map[];
    ghost var carried: Store := map[];
    var outputs: seq<Variation> := [];
    var i := 0;
    assert vs[0..] == vs;
    PrefixedPrefixed([], [], PassAll(vs, rules, carried, sharing));
    while i < |vs|
      invariant 0 <= i <= |vs|
      invariant Injective(shared) && forall s :: s in shared ==> fresh(shared[s])
      invariant sharing == Shared ==> Snapshot(shared) == carried
      invariant PassAll(vs, rules, map[], sharing) == Prefixed(outputs, PassAll(vs[i..], rules, carried, sharing))
    {
      ghost var now;
      var out;
      out, shared, now := PassNext(vs[i], rules, shared, sharing);
      PassStep(vs, i, rules, carried, sharing, outputs, out, now);
      if out.Err? {
        return (outputs, Some(out.error));
      }
      carried := now;
      outputs := outputs + [out.value];
      i := i + 1;
    }
    assert vs[i..] == [] && outputs + [] == outputs;
    return (outputs, None);
  }

  /** `generate`: chooses the variations by mode, then passes each in order. */
  method Generate(mode: Mode, template: Node, amount: int, rules: seq<LabelRule>, rng: Rng, sharing: Sharing) returns (run: Run)
    ensures run == GenerateF(mode, template, amount, rules, rng, sharing)
  {
    var chosen := Stream(mode, template, amount, rng);
    var passed := PassVariations(chosen.0, rules, sharing);
    run := Run(passed.0, if passed.1.Some? then passed.1 else chosen.1);
  }
}
