/**
 * The node handlers. A node is taken by the first handler of the HANDLERS
 * table that accepts it; the handler counts the node's variations,
 * enumerates them, samples one, and lists the node's children. The
 * drivers' recursors (count, iterate and sample on any node) are the
 * recursive calls of Count, Iterate and Sample.
 *
 * Randomness is an oracle: `rng(k)` is the k-th number drawn, and a choice
 * among n things takes `rng(k) % n`. The cursor counts the draws made so far
 * and the placeholders created so far, which gives every placeholder object
 * its own identity.
 */
module Handlers {
  import opened Outcomes
  import opened Tags
  import opened Util
  import opened Metadata

  // ---------------------------------------------------------------------
  // Dispatch
  // ---------------------------------------------------------------------

  datatype Handler =
    | PlainSequenceHandler | PlainMappingHandler | PlainScalarHandler
    | AnimalAIScalarHandler | AnimalAIMappingHandler | AnimalAISequenceHandler
    | ProcListHandler | ProcListLabelledHandler | ProcColorHandler
    | ProcVector3ScaledHandler | ProcRepeatChoiceHandler
    | ProcRestrictCombinationsHandler | ProcIfHandler | ProcIfLabelsHandler

  /** The handler table, in the order dispatch tries it. */
  const HANDLERS: seq<Handler> := [
    PlainSequenceHandler, PlainMappingHandler, PlainScalarHandler,
    AnimalAIScalarHandler, AnimalAIMappingHandler, AnimalAISequenceHandler,
    ProcListHandler, ProcListLabelledHandler, ProcColorHandler,
    ProcVector3ScaledHandler, ProcRepeatChoiceHandler,
    ProcRestrictCombinationsHandler, ProcIfHandler, ProcIfLabelsHandler]

  /** `can_handle` of each handler. */
  predicate CanHandle(h: Handler, n: Node)
  {
    match h
    case PlainSequenceHandler => n.List?
    case PlainMappingHandler => n.Dict?
    case PlainScalarHandler => n.Leaf?
    case AnimalAIScalarHandler => n.RecordLeaf?
    case AnimalAIMappingHandler => n.Record?
    case AnimalAISequenceHandler => n.RecordList?
    case ProcListHandler => n.ProcList?
    case ProcListLabelledHandler => n.ProcListLabelled?
    case ProcColorHandler => n.ProcColor?
    case ProcVector3ScaledHandler => n.ProcVector3Scaled?
    case ProcRepeatChoiceHandler => n.ProcRepeatChoice?
    case ProcRestrictCombinationsHandler => n.ProcRestrictCombinations?
    case ProcIfHandler => n.ProcIf?
    case ProcIfLabelsHandler => n.ProcIfLabels?
  }

  /** The handlers that only rebuild their node from its children (the StaticNodeHandler marker). */
  predicate IsStatic(h: Handler)
  {
    h.PlainSequenceHandler? || h.PlainMappingHandler? || h.PlainScalarHandler?
    || h.AnimalAIScalarHandler? || h.AnimalAIMappingHandler? || h.AnimalAISequenceHandler?
  }

  /** The first handler of `hs` that accepts `n`. */
  function FirstHandler(hs: seq<Handler>, n: Node): (r: Result<Handler>)
    ensures r.Ok? ==> r.value in hs && CanHandle(r.value, n)
    ensures r.Ok? ==> exists i :: 0 <= i < |hs| && hs[i] == r.value && forall j :: 0 <= j < i ==> !CanHandle(hs[j], n)
    ensures r.Err? ==> r.error == NoHandler && forall h :: h in hs ==> !CanHandle(h, n)
    decreases |hs|
  {
    if hs == [] then Err(NoHandler)
    else if CanHandle(hs[0], n) then Ok(hs[0])
    else
      var r := FirstHandler(hs[1..], n);
      if r.Ok? then
        var i :| 0 <= i < |hs[1..]| && hs[1..][i] == r.value && forall j :: 0 <= j < i ==> !CanHandle(hs[1..][j], n);
        assert hs[i + 1] == r.value;
        assert forall j :: 1 <= j < i + 1 ==> hs[j] == hs[1..][j - 1];
        r
      else r
  }

  /** `get_node_handler`: the first matching handler, or a ValueError. */
  function GetNodeHandler(n: Node): (r: Result<Handler>)
    ensures r.Ok? ==> CanHandle(r.value, n)
  {
    FirstHandler(HANDLERS, n)
  }

  /** At most one handler accepts any node, so table order never changes the choice. */
  lemma HandlersExclusive(n: Node, h1: Handler, h2: Handler)
    requires CanHandle(h1, n) && CanHandle(h2, n)
    ensures h1 == h2
  {
  }

  /** Dispatch picks exactly the handler that accepts the node. */
  lemma DispatchUnique(n: Node, h: Handler)
    requires CanHandle(h, n)
    ensures GetNodeHandler(n) == Ok(h)
  {
    assert h in HANDLERS;
    var r := GetNodeHandler(n);
    HandlersExclusive(n, r.value, h);
  }

  /** The handler whose `can_handle` accepts a node kind, if any. */
  function HandlerOf(n: Node): (h: Option<Handler>)
    ensures h.Some? ==> CanHandle(h.value, n)
    ensures h.None? <==> n.R? || n.Placeholder?
    ensures h.None? ==> forall g :: !CanHandle(g, n)
  {
    match n
    case List(_) => Some(PlainSequenceHandler)
    case Dict(_, _) => Some(PlainMappingHandler)
    case Leaf(_) => Some(PlainScalarHandler)
    case RecordLeaf(_, _) => Some(AnimalAIScalarHandler)
    case Record(_, _, _) => Some(AnimalAIMappingHandler)
    case RecordList(_, _) => Some(AnimalAISequenceHandler)
    case ProcList(_) => Some(ProcListHandler)
    case ProcListLabelled(_) => Some(ProcListLabelledHandler)
    case ProcColor(_) => Some(ProcColorHandler)
    case ProcVector3Scaled(_, _, _) => Some(ProcVector3ScaledHandler)
    case ProcRepeatChoice(_, _) => Some(ProcRepeatChoiceHandler)
    case ProcRestrictCombinations(_, _) => Some(ProcRestrictCombinationsHandler)
    case ProcIf(_) => Some(ProcIfHandler)
    case ProcIfLabels(_) => Some(ProcIfLabelsHandler)
    case R(_, _) => None
    case Placeholder(_, _, _) => None
  }

  /** Every node has a handler except a bare `!R` range and a placeholder. */
  lemma DispatchTotal(n: Node)
    ensures GetNodeHandler(n).Err? <==> n.R? || n.Placeholder?
  {
    var h := HandlerOf(n);
    if h.Some? {
      DispatchUnique(n, h.value);
    }
  }

  /** The YAML tag name of a Proc node, as the count explanation prints it. */
  function TagName(n: Node): string
  {
    match n
    case ProcList(_) => "ProcList"
    case ProcListLabelled(_) => "ProcListLabelled"
    case ProcColor(_) => "ProcColor"
    case ProcVector3Scaled(_, _, _) => "ProcVector3Scaled"
    case ProcRepeatChoice(_, _) => "ProcRepeatChoice"
    case ProcRestrictCombinations(_, _) => "ProcRestrictCombinations"
    case ProcIf(_) => "ProcIf"
    case ProcIfLabels(_) => "ProcIfLabels"
    case R(_, _) => "R"
    case _ => ""
  }

  // ---------------------------------------------------------------------
  // Variations, labels and rebuilding
  // ---------------------------------------------------------------------

  /** One variation of a node with the labels it carries (the value and its Meta). */
  datatype Variation = Variation(value: Node, labels: seq<Label>)

  type Rng = nat -> nat

  datatype Cursor = Cursor(draws: nat, slots: nat)

  /** A choice among n things, made by the next draw of the oracle. */
  function Draw(rng: Rng, c: Cursor, n: nat): (k: nat)
    requires n > 0
    ensures k < n
  {
    rng(c.draws) % n
  }

  function AfterDraw(c: Cursor): Cursor
  {
    Cursor(c.draws + 1, c.slots)
  }

  /** `extract_children`: the values of the parts, in order. */
  function Values(parts: seq<Variation>): (r: seq<Node>)
    ensures |r| == |parts| && forall i :: 0 <= i < |parts| ==> r[i] == parts[i].value
  {
    seq(|parts|, i requires 0 <= i < |parts| => parts[i].value)
  }

  /** The labels of the parts concatenated in part order. */
  function JoinLabels(parts: seq<Variation>): seq<Label>
    decreases |parts|
  {
    if parts == [] then [] else JoinLabels(parts[..|parts| - 1]) + parts[|parts| - 1].labels
  }

  /** `extract_meta`: a fresh Meta whose labels are those of all parts, in part order. */
  method ExtractMeta(parts: seq<Variation>) returns (meta: Meta)
    ensures fresh(meta)
    ensures meta.labels == JoinLabels(parts)
  {
    meta := new Meta();
    var i := 0;
    while i < |parts|
      invariant 0 <= i <= |parts|
      invariant meta.labels == JoinLabels(parts[..i])
    {
      assert parts[..i + 1][..i] == parts[..i];
      meta.labels := meta.labels + parts[i].labels;
      i := i + 1;
    }
    assert parts[..|parts|] == parts;
  }

  /** Container nodes: the kinds the static handlers rebuild from their children. */
  predicate IsContainer(n: Node)
  {
    n.List? || n.Dict? || n.Record? || n.RecordList?
  }

  /** The same container with new children; mapping keys and record field names are kept. */
  function WithChildren(n: Node, children: seq<Node>): Node
  {
    match n
    case List(_) => List(children)
    case Dict(keys, _) => Dict(keys, children)
    case Record(tag, names, _) => Record(tag, names, children)
    case RecordList(name, _) => RecordList(name, children)
    case _ => n
  }

  /** One variation of a container from one variation of each child. */
  function Rebuild(n: Node, parts: seq<Variation>): Variation
  {
    Variation(WithChildren(n, Values(parts)), JoinLabels(parts))
  }

  function RebuildAll(n: Node, combos: seq<seq<Variation>>): (r: seq<Variation>)
    ensures |r| == |combos| && forall k :: 0 <= k < |combos| ==> r[k] == Rebuild(n, combos[k])
  {
    seq(|combos|, k requires 0 <= k < |combos| => Rebuild(n, combos[k]))
  }

  /** `scale_vector3`: each component multiplied by the scale. */
  function ScaleVector3(v: Vec, scale: real): Node
  {
    VecNode(Vec(v.x * scale, v.y * scale, v.z * scale))
  }

  /** The base of a `!ProcVector3Scaled`, (1, 1, 1) when absent. */
  function BaseOrUnit(base: Option<Vec>): Vec
  {
    if base.Some? then base.value else Vec(1.0, 1.0, 1.0)
  }

  /** `to_rgb`. */
  function ToRgb(c: Rgb): Node
  {
    Record(RGB, ["r", "g", "b"], [Leaf(Num(c.0 as real)), Leaf(Num(c.1 as real)), Leaf(Num(c.2 as real))])
  }

  /** The palette as variations, in palette order, without labels. */
  function Palette(): (r: seq<Variation>)
    ensures |r| == 10
  {
    seq(10, i requires 0 <= i < 10 => Variation(ToRgb(Colors()[i]), []))
  }

  // ---------------------------------------------------------------------
  // count
  // ---------------------------------------------------------------------

  /** `count_recursive`: the number of variations a node declares. */
  function Count(n: Node): Result<int>
    decreases n
  {
    match n
    case List(items) => CountAll(items)
    case Dict(_, values) => CountAll(values)
    case Record(_, _, fields) => CountAll(fields)
    case RecordList(_, elements) => CountAll(elements)
    case Leaf(_) => Ok(1)
    case RecordLeaf(_, _) => Ok(1)
    case ProcList(options) => Ok(|options|)
    case ProcListLabelled(labelled) => Ok(|labelled|)
    case ProcColor(amount) => Ok(amount)
    case ProcVector3Scaled(_, scales, _) => Ok(|scales|)
    case ProcRepeatChoice(_, value) => Count(value)
    case ProcRestrictCombinations(amount, _) => Ok(amount)
    case ProcIf(_) => Ok(1)
    case ProcIfLabels(_) => Ok(1)
    case R(_, _) => Err(NoHandler)
    case Placeholder(_, _, _) => Err(NoHandler)
  }

  /** `Util.count`: every child counted in order, then multiplied together starting from 1. */
  function CountAll(children: seq<Node>): Result<int>
    decreases children
  {
    if children == [] then Ok(1)
    else
      var first :- Count(children[0]);
      var rest :- CountAll(children[1..]);
      Ok(first * rest)
  }

  // ---------------------------------------------------------------------
  // children
  // ---------------------------------------------------------------------

  lemma SizeAllBounds(s: seq<Node>)
    ensures forall i :: 0 <= i < |s| ==> Size(s[i]) <= SizeAll(s)
  {
    forall i | 0 <= i < |s| {
      SizeAllBound(s, i);
    }
  }

  lemma SizeAllOne(a: Node)
    ensures SizeAll([a]) == Size(a)
  {
    assert [a][1..] == [];
  }

  lemma SizeAllTwo(a: Node, b: Node)
    ensures SizeAll([a, b]) == Size(a) + Size(b)
  {
    assert [a, b][1..] == [b];
    SizeAllOne(b);
  }

  lemma SmallChildren(n: Node)
    ensures n.ProcListLabelled? ==> forall i :: 0 <= i < |n.labelled| ==> Size(OptionNode(n.labelled[i])) < Size(n)
    ensures forall v :: Size(VariablesNode(v)) == VariablesSize(v)
    ensures forall o :: Size(OptionalList(o)) == 1 + OptionSize(o)
    ensures forall v :: Size(VecNode(v)) == 4
  {
    if n.ProcListLabelled? {
      forall i | 0 <= i < |n.labelled|
        ensures Size(OptionNode(n.labelled[i])) < Size(n)
      {
        var o := n.labelled[i];
        SizeAllTwo(o.labelValue, o.value);
        assert Size(OptionNode(o)) == 1 + Size(o.labelValue) + Size(o.value);
        assert forall k :: 0 <= k < |n.labelled| ==> n.labelled[k].labelValue < n && n.labelled[k].value < n;
        SizeLabelledBound(n.labelled, n, i);
      }
    }
    forall v: Variables ensures Size(VariablesNode(v)) == VariablesSize(v) {
      if v.Many? {
        SizeAllOfLeaves(StrLeaves(v.names));
      }
    }
    forall o: Option<Node> ensures Size(OptionalList(o)) == 1 + OptionSize(o) {
      if o.Some? {
        SizeAllOne(o.value);
      }
    }
    forall v: Vec ensures Size(VecNode(v)) == 4 {
      SizeAllOfLeaves([Leaf(Num(v.x)), Leaf(Num(v.y)), Leaf(Num(v.z))]);
    }
  }

  /**
   * `children`: what the tree walk descends into. Containers give their
   * values; Proc tags give their fields as the handler lists them.
   */
  function Children(n: Node): (r: Result<seq<Node>>)
    ensures r.Err? <==> n.R? || n.Placeholder?
    ensures r.Err? ==> r.error == NoHandler
  {
    match n
    case List(items) => Ok(items)
    case Dict(_, values) => Ok(values)
    case Leaf(_) => Ok([])
    case Record(_, _, fields) => Ok(fields)
    case RecordList(_, elements) => Ok(elements)
    case RecordLeaf(_, _) => Ok([])
    case ProcList(options) => Ok(options)
    case ProcListLabelled(labelled) =>
      Ok(seq(|labelled|, i requires 0 <= i < |labelled| => OptionNode(labelled[i])))
    case ProcColor(amount) => Ok([Leaf(Num(amount as real))])
    case ProcVector3Scaled(base, scales, _) =>
      Ok([OptionalList(if base.Some? then Some(VecNode(base.value)) else None)] + NumLeaves(scales))
    case ProcRepeatChoice(amount, value) => Ok([Leaf(Num(amount as real)), value])
    case ProcRestrictCombinations(amount, item) => Ok([Leaf(Num(amount as real)), item])
    case ProcIf(c) =>
      Ok([VariablesNode(c.variable), List(c.cases), List(c.thenValues), OptionalList(c.default)])
    case ProcIfLabels(rule) =>
      Ok([VariablesNode(rule.variable), List(rule.cases),
          OptionalList(rule.default)])
    case R(_, _) => Err(NoHandler)
    case Placeholder(_, _, _) => Err(NoHandler)
  }

  /** Every child is strictly smaller than its node, so walking the children terminates. */
  lemma ChildrenSmaller(n: Node)
    ensures Children(n).Ok? ==> forall i :: 0 <= i < |Children(n).value| ==> Size(Children(n).value[i]) < Size(n)
  {
    SmallChildren(n);
    var cs := Children(n);
    match n
    case List(items) => SizeAllBounds(items);
    case Dict(_, values) => SizeAllBounds(values);
    case Record(_, _, fields) => SizeAllBounds(fields);
    case RecordList(_, elements) => SizeAllBounds(elements);
    case ProcList(options) => SizeAllBounds(options);
    case ProcVector3Scaled(base, scales, _) =>
      if base.Some? {
        assert OptionSize(Some(VecNode(base.value))) == 4;
      }
    case ProcIf(c) =>
      SizeAllBounds(c.cases);
    case ProcIfLabels(rule) =>
      SizeAllBounds(rule.cases);
    case _ =>
  }

  // ---------------------------------------------------------------------
  // Placeholders and copies
  // ---------------------------------------------------------------------

  /**
   * A deep copy of a variation value: the same tree, with every placeholder
   * replaced by a new object (fresh identities from `next` on).
   */
  function Renumber(n: Node, next: nat): (r: (Node, nat))
    ensures r.1 >= next
    decreases n
  {
    match n
    case Placeholder(slot, cond, _) => (Placeholder(next, cond, Some(slot)), next + 1)
    case List(items) => var c := RenumberAll(items, next); (List(c.0), c.1)
    case Dict(keys, values) => var c := RenumberAll(values, next); (Dict(keys, c.0), c.1)
    case Record(tag, names, fields) => var c := RenumberAll(fields, next); (Record(tag, names, c.0), c.1)
    case RecordList(name, elements) => var c := RenumberAll(elements, next); (RecordList(name, c.0), c.1)
    case _ => (n, next)
  }

  function RenumberAll(ns: seq<Node>, next: nat): (r: (seq<Node>, nat))
    ensures |r.0| == |ns| && r.1 >= next
    decreases ns
  {
    if ns == [] then ([], next)
    else
      var first := Renumber(ns[0], next);
      var rest := RenumberAll(ns[1..], first.1);
      ([first.0] + rest.0, rest.1)
  }

  /** `k` deep copies of `v`. */
  function Copies(v: Node, k: int, next: nat): (r: (seq<Node>, nat))
    ensures |r.0| == if k <= 0 then 0 else k
    ensures r.1 >= next
    decreases k
  {
    if k <= 0 then ([], next)
    else
      var first := Renumber(v, next);
      var rest := Copies(v, k - 1, first.1);
      ([first.0] + rest.0, rest.1)
  }

  /** `[v] + [deepcopy(v) for _ in range(amount - 1)]`. */
  function Duplicate(v: Node, amount: int, next: nat): (r: (seq<Node>, nat))
    ensures |r.0| == if amount <= 1 then 1 else amount
    ensures r.0[0] == v
    ensures r.1 >= next
  {
    var copies := Copies(v, amount - 1, next);
    ([v] + copies.0, copies.1)
  }

  /** Each variation turned into the list of its duplicates, keeping its labels. */
  function DuplicateAll(vs: seq<Variation>, amount: int, next: nat): (r: (seq<Variation>, nat))
    ensures |r.0| == |vs| && r.1 >= next
    decreases |vs|
  {
    if vs == [] then ([], next)
    else
      var d := Duplicate(vs[0].value, amount, next);
      var rest := DuplicateAll(vs[1..], amount, d.1);
      ([Variation(List(d.0), vs[0].labels)] + rest.0, rest.1)
  }

  // ---------------------------------------------------------------------
  // iterate
  // ---------------------------------------------------------------------

  /**
   * `iterate_variations_recursive`: every variation of the node, in order.
   * Containers enumerate the product of their children's iterations;
   * `product` re-invokes the iteration of every later child for each item
   * of an earlier one, so those children run again (new placeholders, new
   * draws). A `!ProcIf` yields one new placeholder.
   */
  function Iterate(n: Node, rng: Rng, c: Cursor): Result<(seq<Variation>, Cursor)>
    decreases n, 0
  {
    match n
    case List(items) =>
      var p :- IterateProduct(items, rng, c); Ok((RebuildAll(n, p.0), p.1))
    case Dict(_, values) =>
      var p :- IterateProduct(values, rng, c); Ok((RebuildAll(n, p.0), p.1))
    case Record(_, _, fields) =>
      var p :- IterateProduct(fields, rng, c); Ok((RebuildAll(n, p.0), p.1))
    case RecordList(_, elements) =>
      var p :- IterateProduct(elements, rng, c); Ok((RebuildAll(n, p.0), p.1))
    case Leaf(_) => Ok(([Variation(n, [])], c))
    case RecordLeaf(_, _) => Ok(([Variation(n, [])], c))
    case ProcList(options) =>
      Ok((seq(|options|, i requires 0 <= i < |options| => Variation(options[i], [])), c))
    case ProcListLabelled(labelled) =>
      Ok((seq(|labelled|, i requires 0 <= i < |labelled| => Variation(labelled[i].value, [labelled[i].labelValue])), c))
    case ProcColor(_) => Ok((Palette(), c))
    case ProcVector3Scaled(base, scales, scaleLabels) =>
      var b := BaseOrUnit(base);
      if scaleLabels.None? then
        Ok((seq(|scales|, k requires 0 <= k < |scales| => Variation(ScaleVector3(b, scales[k]), [])), c))
      else if |scaleLabels.value| != |scales| then Err(AssertionFailed)
      else
        Ok((seq(|scales|, k requires 0 <= k < |scales| => Variation(ScaleVector3(b, scales[k]), [scaleLabels.value[k]])), c))
    case ProcRepeatChoice(amount, value) =>
      var inner :- Iterate(value, rng, c);
      var d := DuplicateAll(inner.0, amount, inner.1.slots);
      Ok((d.0, Cursor(inner.1.draws, d.1)))
    case ProcRestrictCombinations(amount, item) => SampleTimes(item, amount, rng, c)
    case ProcIf(cond) => Ok(([Variation(Placeholder(c.slots, cond, None), [])], Cursor(c.draws, c.slots + 1)))
    case ProcIfLabels(_) => Err(UnsupportedOperation)
    case R(_, _) => Err(NoHandler)
    case Placeholder(_, _, _) => Err(NoHandler)
  }

  /** `product` over the children's iterations: one combination per tuple, in product order. */
  function IterateProduct(children: seq<Node>, rng: Rng, c: Cursor): Result<(seq<seq<Variation>>, Cursor)>
    decreases children, 1
  {
    if children == [] then Ok(([[]], c))
    else
      var firsts :- Iterate(children[0], rng, c);
      IterateRest(firsts.0, children[1..], rng, firsts.1)
  }

  /** For each item of the first position, in order, a fresh product over the remaining children. */
  function IterateRest(firsts: seq<Variation>, rest: seq<Node>, rng: Rng, c: Cursor): Result<(seq<seq<Variation>>, Cursor)>
    decreases rest, 2, |firsts|
  {
    if firsts == [] then Ok(([], c))
    else
      var tails :- IterateProduct(rest, rng, c);
      var more :- IterateRest(firsts[1..], rest, rng, tails.1);
      Ok((Prepend(firsts[0], tails.0) + more.0, more.1))
  }

  /**
   * The error calling `iterate_variations_recursive(n)` raises before the
   * first variation is asked for: finding no handler, `iterate` on a
   * `!ProcIfLabels`, the length check of a labelled `!ProcVector3Scaled`,
   * and any of these for the value of a `!ProcRepeatChoice`, whose
   * generator starts the value's iteration at once. Containers and the
   * other tags build generators that raise nothing yet.
   */
  function EagerError(n: Node): Option<Error>
  {
    match n
    case R(_, _) => Some(NoHandler)
    case Placeholder(_, _, _) => Some(NoHandler)
    case ProcIfLabels(_) => Some(UnsupportedOperation)
    case ProcVector3Scaled(_, scales, scaleLabels) =>
      if scaleLabels.Some? && |scaleLabels.value| != |scales| then Some(AssertionFailed) else None
    case ProcRepeatChoice(_, value) => EagerError(value)
    case _ => None
  }

  /** An error raised at the call is the error the whole iteration fails with. */
  lemma {:induction false} EagerErrorRaises(n: Node, rng: Rng, c: Cursor)
    requires EagerError(n).Some?
    ensures Iterate(n, rng, c) == Err(EagerError(n).value)
  {
    if n.ProcRepeatChoice? {
      EagerErrorRaises(n.value, rng, c);
    }
  }

  // ---------------------------------------------------------------------
  // sample
  // ---------------------------------------------------------------------

  /** `sample_recursive`: one variation, choosing with the oracle wherever the source draws at random. */
  function Sample(n: Node, rng: Rng, c: Cursor): Result<(Variation, Cursor)>
    decreases n, 0
  {
    match n
    case List(items) => var p :- SampleAll(items, rng, c); Ok((Rebuild(n, p.0), p.1))
    case Dict(_, values) => var p :- SampleAll(values, rng, c); Ok((Rebuild(n, p.0), p.1))
    case Record(_, _, fields) => var p :- SampleAll(fields, rng, c); Ok((Rebuild(n, p.0), p.1))
    case RecordList(_, elements) => var p :- SampleAll(elements, rng, c); Ok((Rebuild(n, p.0), p.1))
    case Leaf(_) => Ok((Variation(n, []), c))
    case RecordLeaf(_, _) => Ok((Variation(n, []), c))
    case ProcList(options) =>
      if |options| == 0 then Err(EmptyChoice)
      else Ok((Variation(options[Draw(rng, c, |options|)], []), AfterDraw(c)))
    case ProcListLabelled(labelled) =>
      if |labelled| == 0 then Err(EmptyChoice)
      else
        var o := labelled[Draw(rng, c, |labelled|)];
        Ok((Variation(o.value, [o.labelValue]), AfterDraw(c)))
    case ProcColor(_) => Ok((Variation(ToRgb(Colors()[Draw(rng, c, 10)]), []), AfterDraw(c)))
    case ProcVector3Scaled(base, scales, scaleLabels) =>
      if |scales| == 0 then Err(EmptyChoice)
      else
        var k := Draw(rng, c, |scales|);
        var v := ScaleVector3(BaseOrUnit(base), scales[k]);
        if scaleLabels.None? then Ok((Variation(v, []), AfterDraw(c)))
        else if |scaleLabels.value| != |scales| then Err(AssertionFailed)
        else Ok((Variation(v, [scaleLabels.value[k]]), AfterDraw(c)))
    case ProcRepeatChoice(amount, value) =>
      var choice :- Sample(value, rng, c);
      var d := Duplicate(choice.0.value, amount, choice.1.slots);
      Ok((Variation(List(d.0), choice.0.labels), Cursor(choice.1.draws, d.1)))
    case ProcRestrictCombinations(_, item) => Sample(item, rng, c)
    case ProcIf(cond) => Ok((Variation(Placeholder(c.slots, cond, None), []), Cursor(c.draws, c.slots + 1)))
    case ProcIfLabels(_) => Err(UnsupportedOperation)
    case R(_, _) => Err(NoHandler)
    case Placeholder(_, _, _) => Err(NoHandler)
  }

  /** One sample of each child, in child order. */
  function SampleAll(children: seq<Node>, rng: Rng, c: Cursor): Result<(seq<Variation>, Cursor)>
    decreases children, 1
  {
    if children == [] then Ok(([], c))
    else
      var first :- Sample(children[0], rng, c);
      var rest :- SampleAll(children[1..], rng, first.1);
      Ok(([first.0] + rest.0, rest.1))
  }

  /** `(sample_recursive(item) for _ in range(times))`. */
  function SampleTimes(item: Node, times: int, rng: Rng, c: Cursor): Result<(seq<Variation>, Cursor)>
    decreases times
  {
    if times <= 0 then Ok(([], c))
    else
      var first :- Sample(item, rng, c);
      var rest :- SampleTimes(item, times - 1, rng, first.1);
      Ok(([first.0] + rest.0, rest.1))
  }
}
