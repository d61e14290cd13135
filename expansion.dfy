/**
 * What counting, enumerating and sampling promise about one another.
 *
 * Count against iteration: the number of variations a node declares is the
 * number its iteration yields, except where the source itself departs from
 * that (a `!ProcColor` always yields the ten palette colours; a negative
 * `!ProcRestrictCombinations` amount yields nothing).
 *
 * Iteration against a reference: apart from which placeholder object stands
 * for each `!ProcIf`, the iteration of a node without
 * `!ProcRestrictCombinations` is a fixed sequence, `Canonical`, built from
 * the Cartesian product of the children's sequences. Every sample is one of
 * its elements.
 */
module Expansion {
  import opened Outcomes
  import opened Tags
  import opened Util
  import opened Handlers

  // ---------------------------------------------------------------------
  // Count against iteration
  // ---------------------------------------------------------------------

  /** The nodes whose count is the length of their iteration. */
  predicate CountExact(n: Node)
    decreases n
  {
    match n
    case List(items) => forall i :: 0 <= i < |items| ==> CountExact(items[i])
    case Dict(_, values) => forall i :: 0 <= i < |values| ==> CountExact(values[i])
    case Record(_, _, fields) => forall i :: 0 <= i < |fields| ==> CountExact(fields[i])
    case RecordList(_, elements) => forall i :: 0 <= i < |elements| ==> CountExact(elements[i])
    case ProcColor(amount) => amount == |Colors()|
    case ProcRepeatChoice(_, value) => CountExact(value)
    case ProcRestrictCombinations(amount, _) => amount >= 0
    case _ => true
  }

  function Max0(k: int): nat
  {
    if k < 0 then 0 else k
  }

  lemma {:induction false} SampleTimesLength(item: Node, times: int, rng: Rng, c: Cursor)
    requires SampleTimes(item, times, rng, c).Ok?
    ensures |SampleTimes(item, times, rng, c).value.0| == Max0(times)
    decreases times
  {
    if times > 0 {
      var first := Sample(item, rng, c).value;
      SampleTimesLength(item, times - 1, rng, first.1);
    }
  }

  /**
   * When a node's count and its iteration both succeed, the count is the
   * number of variations the iteration yields.
   */
  lemma {:induction false} IterateLength(n: Node, rng: Rng, c: Cursor)
    requires CountExact(n) && Iterate(n, rng, c).Ok? && Count(n).Ok?
    ensures Count(n).value == |Iterate(n, rng, c).value.0|
    decreases n, 0
  {
    match n
    case List(items) => IterateProductLength(items, rng, c);
    case Dict(_, values) => IterateProductLength(values, rng, c);
    case Record(_, _, fields) => IterateProductLength(fields, rng, c);
    case RecordList(_, elements) => IterateProductLength(elements, rng, c);
    case ProcRepeatChoice(_, value) => IterateLength(value, rng, c);
    case ProcRestrictCombinations(amount, item) => SampleTimesLength(item, amount, rng, c);
    case _ =>
  }

  lemma {:induction false} IterateProductLength(cs: seq<Node>, rng: Rng, c: Cursor)
    requires forall i :: 0 <= i < |cs| ==> CountExact(cs[i])
    requires IterateProduct(cs, rng, c).Ok? && CountAll(cs).Ok?
    ensures CountAll(cs).value == |IterateProduct(cs, rng, c).value.0|
    decreases cs, 1
  {
    if cs != [] {
      var firsts := Iterate(cs[0], rng, c).value;
      IterateLength(cs[0], rng, c);
      IterateRestLength(firsts.0, cs[1..], rng, firsts.1);
    }
  }

  lemma {:induction false} IterateRestLength(firsts: seq<Variation>, rest: seq<Node>, rng: Rng, c: Cursor)
    requires forall i :: 0 <= i < |rest| ==> CountExact(rest[i])
    requires IterateRest(firsts, rest, rng, c).Ok? && CountAll(rest).Ok?
    ensures |IterateRest(firsts, rest, rng, c).value.0| == |firsts| * CountAll(rest).value
    decreases rest, 2, |firsts|
  {
    if firsts != [] {
      var tails := IterateProduct(rest, rng, c).value;
      IterateProductLength(rest, rng, c);
      IterateRestLength(firsts[1..], rest, rng, tails.1);
      var k := CountAll(rest).value;
      assert |firsts| * k == k + (|firsts| - 1) * k;
    }
  }

  /** A `!ProcColor` yields the ten palette colours whatever its amount, while it counts `amount`. */
  lemma ColorCountDiffers(amount: int, rng: Rng, c: Cursor)
    ensures Count(ProcColor(amount)) == Ok(amount)
    ensures Iterate(ProcColor(amount), rng, c).Ok? && |Iterate(ProcColor(amount), rng, c).value.0| == 10
    ensures forall i :: 0 <= i < 10 ==> Iterate(ProcColor(amount), rng, c).value.0[i] == Variation(ToRgb(Colors()[i]), [])
  {
  }

  // ---------------------------------------------------------------------
  // Placeholder identities
  // ---------------------------------------------------------------------

  /** A value with every placeholder object replaced by the same stand-in: only identities are forgotten. */
  function Erase(n: Node): Node
    decreases n, 1
  {
    match n
    case Placeholder(_, cond, _) => Placeholder(0, cond, None)
    case List(items) => List(EraseAll(items))
    case Dict(keys, values) => Dict(keys, EraseAll(values))
    case Record(tag, names, fields) => Record(tag, names, EraseAll(fields))
    case RecordList(name, elements) => RecordList(name, EraseAll(elements))
    case _ => n
  }

  function EraseAll(ns: seq<Node>): (r: seq<Node>)
    ensures |r| == |ns| && forall i :: 0 <= i < |ns| ==> r[i] == Erase(ns[i])
    decreases ns, 0
  {
    seq(|ns|, i requires 0 <= i < |ns| => Erase(ns[i]))
  }

  function EraseV(v: Variation): Variation
  {
    Variation(Erase(v.value), v.labels)
  }

  function EraseVs(vs: seq<Variation>): (r: seq<Variation>)
    ensures |r| == |vs| && forall i :: 0 <= i < |vs| ==> r[i] == EraseV(vs[i])
  {
    seq(|vs|, i requires 0 <= i < |vs| => EraseV(vs[i]))
  }

  function EraseCombos(cs: seq<seq<Variation>>): (r: seq<seq<Variation>>)
    ensures |r| == |cs| && forall k :: 0 <= k < |cs| ==> r[k] == EraseVs(cs[k])
  {
    seq(|cs|, k requires 0 <= k < |cs| => EraseVs(cs[k]))
  }

  /** A deep copy differs from its original only in placeholder identities. */
  lemma {:induction false} RenumberErases(n: Node, next: nat)
    ensures Erase(Renumber(n, next).0) == Erase(n)
    decreases n, 1
  {
    match n
    case List(items) => RenumberAllErases(items, next);
    case Dict(_, values) => RenumberAllErases(values, next);
    case Record(_, _, fields) => RenumberAllErases(fields, next);
    case RecordList(_, elements) => RenumberAllErases(elements, next);
    case _ =>
  }

  lemma {:induction false} RenumberAllErases(ns: seq<Node>, next: nat)
    ensures EraseAll(RenumberAll(ns, next).0) == EraseAll(ns)
    decreases ns, 0
  {
    if ns != [] {
      var first := Renumber(ns[0], next);
      RenumberErases(ns[0], next);
      RenumberAllErases(ns[1..], first.1);
      var r := RenumberAll(ns, next).0;
      assert r == [first.0] + RenumberAll(ns[1..], first.1).0;
      forall i | 0 <= i < |ns| ensures Erase(r[i]) == Erase(ns[i]) {
        if i > 0 {
          assert r[i] == RenumberAll(ns[1..], first.1).0[i - 1];
          assert Erase(r[i]) == EraseAll(RenumberAll(ns[1..], first.1).0)[i - 1];
        }
      }
    }
  }

  /** `k` copies of one value. */
  function Repeat(x: Node, k: nat): (r: seq<Node>)
    ensures |r| == k && forall i :: 0 <= i < k ==> r[i] == x
  {
    seq(k, _ => x)
  }

  function Max1(k: int): nat
  {
    if k <= 1 then 1 else k
  }

  lemma {:induction false} CopiesErase(v: Node, k: int, next: nat)
    ensures EraseAll(Copies(v, k, next).0) == Repeat(Erase(v), Max0(k))
    decreases k
  {
    if k > 0 {
      var first := Renumber(v, next);
      RenumberErases(v, next);
      CopiesErase(v, k - 1, first.1);
      var r := Copies(v, k, next).0;
      assert r == [first.0] + Copies(v, k - 1, first.1).0;
      forall i | 0 <= i < k ensures Erase(r[i]) == Erase(v) {
        if i > 0 {
          assert r[i] == Copies(v, k - 1, first.1).0[i - 1];
          assert Erase(r[i]) == EraseAll(Copies(v, k - 1, first.1).0)[i - 1];
        }
      }
    }
  }

  /** `[v] + [deepcopy(v) ...]`: `Max1(amount)` elements, each the same as `v` up to placeholder identities. */
  lemma DuplicateErase(v: Node, amount: int, next: nat)
    ensures EraseAll(Duplicate(v, amount, next).0) == Repeat(Erase(v), Max1(amount))
  {
    CopiesErase(v, amount - 1, next);
    var d := Duplicate(v, amount, next).0;
    var copies := Copies(v, amount - 1, next).0;
    assert d == [v] + copies;
    forall i | 0 <= i < |d| ensures Erase(d[i]) == Erase(v) {
      if i > 0 {
        assert d[i] == copies[i - 1];
        assert Erase(d[i]) == EraseAll(copies)[i - 1];
      }
    }
  }

  /** Each variation turned into a list of `Max1(amount)` equal elements, keeping its labels. */
  function RepeatedVariations(vs: seq<Variation>, amount: int): (r: seq<Variation>)
    ensures |r| == |vs|
  {
    seq(|vs|, i requires 0 <= i < |vs| => Variation(List(Repeat(vs[i].value, Max1(amount))), vs[i].labels))
  }

  lemma {:induction false} DuplicateAllErase(vs: seq<Variation>, amount: int, next: nat)
    ensures EraseVs(DuplicateAll(vs, amount, next).0) == RepeatedVariations(EraseVs(vs), amount)
    decreases |vs|
  {
    if vs != [] {
      var d := Duplicate(vs[0].value, amount, next);
      var rest := DuplicateAll(vs[1..], amount, d.1);
      DuplicateErase(vs[0].value, amount, next);
      DuplicateAllErase(vs[1..], amount, d.1);
      var all := DuplicateAll(vs, amount, next).0;
      assert all == [Variation(List(d.0), vs[0].labels)] + rest.0;
      forall i | 0 <= i < |vs| ensures EraseV(all[i]) == RepeatedVariations(EraseVs(vs), amount)[i] {
        if i > 0 {
          assert all[i] == rest.0[i - 1];
          assert EraseV(all[i]) == EraseVs(rest.0)[i - 1];
          assert vs[i] == vs[1..][i - 1];
        }
      }
    }
  }

  lemma {:induction false} JoinLabelsErase(parts: seq<Variation>)
    ensures JoinLabels(EraseVs(parts)) == JoinLabels(parts)
    decreases |parts|
  {
    if parts != [] {
      var init := parts[..|parts| - 1];
      JoinLabelsErase(init);
      assert EraseVs(parts)[..|parts| - 1] == EraseVs(init);
    }
  }

  lemma RebuildErase(n: Node, parts: seq<Variation>)
    requires IsContainer(n)
    ensures EraseV(Rebuild(n, parts)) == Rebuild(n, EraseVs(parts))
  {
    JoinLabelsErase(parts);
    assert EraseAll(Values(parts)) == Values(EraseVs(parts));
  }

  lemma RebuildAllErase(n: Node, combos: seq<seq<Variation>>)
    requires IsContainer(n)
    ensures EraseVs(RebuildAll(n, combos)) == RebuildAll(n, EraseCombos(combos))
  {
    forall k | 0 <= k < |combos| ensures EraseVs(RebuildAll(n, combos))[k] == RebuildAll(n, EraseCombos(combos))[k] {
      RebuildErase(n, combos[k]);
    }
  }

  lemma EraseCombosPrepend(f: Variation, tails: seq<seq<Variation>>)
    ensures EraseCombos(Prepend(f, tails)) == Prepend(EraseV(f), EraseCombos(tails))
  {
    forall k | 0 <= k < |tails| ensures EraseCombos(Prepend(f, tails))[k] == Prepend(EraseV(f), EraseCombos(tails))[k] {
      assert EraseVs([f] + tails[k]) == [EraseV(f)] + EraseVs(tails[k]);
    }
  }

  lemma EraseCombosConcat(a: seq<seq<Variation>>, b: seq<seq<Variation>>)
    ensures EraseCombos(a + b) == EraseCombos(a) + EraseCombos(b)
  {
  }

  // ---------------------------------------------------------------------
  // The reference iteration
  // ---------------------------------------------------------------------

  /** No `!ProcRestrictCombinations` is expanded: the iteration makes no random choice. */
  predicate RestrictFree(n: Node)
    decreases n
  {
    match n
    case List(items) => forall i :: 0 <= i < |items| ==> RestrictFree(items[i])
    case Dict(_, values) => forall i :: 0 <= i < |values| ==> RestrictFree(values[i])
    case Record(_, _, fields) => forall i :: 0 <= i < |fields| ==> RestrictFree(fields[i])
    case RecordList(_, elements) => forall i :: 0 <= i < |elements| ==> RestrictFree(elements[i])
    case ProcRepeatChoice(_, value) => RestrictFree(value)
    case ProcRestrictCombinations(_, _) => false
    case _ => true
  }

  /**
   * The variations of a node, placeholder identities forgotten: containers
   * give the Cartesian product of their children's variations (first child
   * slowest); a choice list gives its options in order; a repeat turns each
   * variation of its value into a list of copies.
   */
  function Canonical(n: Node): Result<seq<Variation>>
    requires RestrictFree(n)
    decreases n, 0
  {
    match n
    case List(items) => var p :- CanonicalProduct(items); Ok(RebuildAll(n, p))
    case Dict(_, values) => var p :- CanonicalProduct(values); Ok(RebuildAll(n, p))
    case Record(_, _, fields) => var p :- CanonicalProduct(fields); Ok(RebuildAll(n, p))
    case RecordList(_, elements) => var p :- CanonicalProduct(elements); Ok(RebuildAll(n, p))
    case Leaf(_) => Ok([Variation(n, [])])
    case RecordLeaf(_, _) => Ok([Variation(n, [])])
    case ProcList(options) =>
      Ok(seq(|options|, i requires 0 <= i < |options| => Variation(Erase(options[i]), [])))
    case ProcListLabelled(labelled) =>
      Ok(seq(|labelled|, i requires 0 <= i < |labelled| => Variation(Erase(labelled[i].value), [labelled[i].labelValue])))
    case ProcColor(_) => Ok(EraseVs(Palette()))
    case ProcVector3Scaled(base, scales, scaleLabels) =>
      if scaleLabels.Some? && |scaleLabels.value| != |scales| then Err(AssertionFailed)
      else
        Ok(seq(|scales|, k requires 0 <= k < |scales| =>
          Variation(Erase(ScaleVector3(BaseOrUnit(base), scales[k])), if scaleLabels.None? then [] else [scaleLabels.value[k]])))
    case ProcRepeatChoice(amount, value) => var inner :- Canonical(value); Ok(RepeatedVariations(inner, amount))
    case ProcIf(cond) => Ok([Variation(Placeholder(0, cond, None), [])])
    case ProcIfLabels(_) | ProcRestrictCombinations(_, _) => Err(UnsupportedOperation)
    case R(_, _) | Placeholder(_, _, _) => Err(NoHandler)
  }

  /** The product of the children's variations; once a child has none, the later ones are not looked at. */
  function CanonicalProduct(cs: seq<Node>): Result<seq<seq<Variation>>>
    requires forall i :: 0 <= i < |cs| ==> RestrictFree(cs[i])
    decreases cs, 1
  {
    if cs == [] then Ok([[]])
    else
      var firsts :- Canonical(cs[0]);
      if firsts == [] then Ok([])
      else
        var tails :- CanonicalProduct(cs[1..]);
        Ok(Distribute(firsts, tails))
  }

  function EraseResult(r: Result<(seq<Variation>, Cursor)>): Result<seq<Variation>>
  {
    if r.Ok? then Ok(EraseVs(r.value.0)) else Err(r.error)
  }

  function EraseProductResult(r: Result<(seq<seq<Variation>>, Cursor)>): Result<seq<seq<Variation>>>
  {
    if r.Ok? then Ok(EraseCombos(r.value.0)) else Err(r.error)
  }

  /**
   * Iteration is the reference sequence: whatever the cursor, the variations
   * come in the same order with the same values and labels, differing only in
   * which placeholder objects they hold, and the same errors arise.
   */
  lemma {:induction false} IterateCanonical(n: Node, rng: Rng, c: Cursor)
    requires RestrictFree(n)
    ensures EraseResult(Iterate(n, rng, c)) == Canonical(n)
    decreases n, 0
  {
    match n
    case List(items) =>
      IterateProductCanonical(items, rng, c);
      if IterateProduct(items, rng, c).Ok? {
        RebuildAllErase(n, IterateProduct(items, rng, c).value.0);
      }
    case Dict(_, values) =>
      IterateProductCanonical(values, rng, c);
      if IterateProduct(values, rng, c).Ok? {
        RebuildAllErase(n, IterateProduct(values, rng, c).value.0);
      }
    case Record(_, _, fields) =>
      IterateProductCanonical(fields, rng, c);
      if IterateProduct(fields, rng, c).Ok? {
        RebuildAllErase(n, IterateProduct(fields, rng, c).value.0);
      }
    case RecordList(_, elements) =>
      IterateProductCanonical(elements, rng, c);
      if IterateProduct(elements, rng, c).Ok? {
        RebuildAllErase(n, IterateProduct(elements, rng, c).value.0);
      }
    case ProcRepeatChoice(amount, value) =>
      IterateCanonical(value, rng, c);
      var inner := Iterate(value, rng, c);
      if inner.Ok? {
        DuplicateAllErase(inner.value.0, amount, inner.value.1.slots);
      }
    case ProcList(options) =>
      assert EraseVs(Iterate(n, rng, c).value.0) == Canonical(n).value;
    case ProcListLabelled(labelled) =>
      assert EraseVs(Iterate(n, rng, c).value.0) == Canonical(n).value;
    case ProcVector3Scaled(base, scales, scaleLabels) =>
      if Iterate(n, rng, c).Ok? {
        assert EraseVs(Iterate(n, rng, c).value.0) == Canonical(n).value;
      }
    case Leaf(_) =>
      assert EraseVs([Variation(n, [])]) == [Variation(n, [])];
    case RecordLeaf(_, _) =>
      assert EraseVs([Variation(n, [])]) == [Variation(n, [])];
    case ProcIf(cond) =>
      assert EraseVs(Iterate(n, rng, c).value.0) == [Variation(Placeholder(0, cond, None), [])];
    case _ =>
  }

  lemma {:induction false} IterateProductCanonical(cs: seq<Node>, rng: Rng, c: Cursor)
    requires forall i :: 0 <= i < |cs| ==> RestrictFree(cs[i])
    ensures EraseProductResult(IterateProduct(cs, rng, c)) == CanonicalProduct(cs)
    decreases cs, 1
  {
    if cs != [] {
      IterateCanonical(cs[0], rng, c);
      var firsts := Iterate(cs[0], rng, c);
      if firsts.Ok? {
        assert Canonical(cs[0]) == Ok(EraseVs(firsts.value.0));
        if firsts.value.0 == [] {
          assert IterateProduct(cs, rng, c) == Ok(([], firsts.value.1));
        } else {
          IterateRestCanonical(firsts.value.0, cs[1..], rng, firsts.value.1);
          assert IterateProduct(cs, rng, c) == IterateRest(firsts.value.0, cs[1..], rng, firsts.value.1);
          var t := CanonicalProduct(cs[1..]);
          assert EraseVs(firsts.value.0) != [];
          assert CanonicalProduct(cs) == if t.Ok? then Ok(Distribute(EraseVs(firsts.value.0), t.value)) else Err(t.error);
        }
      } else {
        assert IterateProduct(cs, rng, c) == Err(firsts.error);
        assert Canonical(cs[0]) == Err(firsts.error);
      }
    } else {
      assert EraseCombos([[]]) == [[]];
    }
  }

  lemma {:induction false} IterateRestCanonical(firsts: seq<Variation>, rest: seq<Node>, rng: Rng, c: Cursor)
    requires firsts != []
    requires forall i :: 0 <= i < |rest| ==> RestrictFree(rest[i])
    ensures var t := CanonicalProduct(rest);
            EraseProductResult(IterateRest(firsts, rest, rng, c))
              == if t.Ok? then Ok(Distribute(EraseVs(firsts), t.value)) else Err(t.error)
    decreases rest, 2, |firsts|
  {
    IterateProductCanonical(rest, rng, c);
    var tails := IterateProduct(rest, rng, c);
    if tails.Ok? {
      var t := EraseCombos(tails.value.0);
      var ef := EraseVs(firsts);
      EraseCombosPrepend(firsts[0], tails.value.0);
      assert ef[1..] == EraseVs(firsts[1..]);
      if firsts[1..] == [] {
        assert Distribute(ef, t) == Prepend(ef[0], t) + Distribute(ef[1..], t);
        var more := IterateRest(firsts[1..], rest, rng, tails.value.1);
        assert more == Ok(([], tails.value.1));
        EraseCombosConcat(Prepend(firsts[0], tails.value.0), []);
        assert Prepend(firsts[0], tails.value.0) + [] == Prepend(firsts[0], tails.value.0);
      } else {
        IterateRestCanonical(firsts[1..], rest, rng, tails.value.1);
        var more := IterateRest(firsts[1..], rest, rng, tails.value.1);
        if more.Ok? {
          EraseCombosConcat(Prepend(firsts[0], tails.value.0), more.value.0);
        }
      }
    }
  }

  // ---------------------------------------------------------------------
  // Enumeration order
  // ---------------------------------------------------------------------

  /** When every child has its reference sequence, a container's product is the Cartesian product of those sequences. */
  lemma {:induction false} CanonicalProductIsProduct(cs: seq<Node>, ps: seq<seq<Variation>>)
    requires |ps| == |cs|
    requires forall i :: 0 <= i < |cs| ==> RestrictFree(cs[i]) && Canonical(cs[i]) == Ok(ps[i])
    ensures CanonicalProduct(cs) == Ok(Product(ps))
    decreases |cs|
  {
    if cs != [] {
      assert Canonical(cs[0]) == Ok(ps[0]);
      if ps[0] != [] {
        assert forall i :: 0 <= i < |cs[1..]| ==> cs[1..][i] == cs[i + 1] && ps[1..][i] == ps[i + 1];
        CanonicalProductIsProduct(cs[1..], ps[1..]);
      }
    }
  }

  /**
   * Enumeration order of a container: the variation made of variation
   * `picks[i]` of each child i stands at the mixed-radix position of the
   * picks (first child slowest, last child fastest); its value is the
   * container with those children (mapping keys and field names kept) and
   * its labels are theirs in child order.
   */
  lemma ContainerOrder(n: Node, ps: seq<seq<Variation>>, picks: seq<nat>)
    requires IsContainer(n) && RestrictFree(n) && Children(n).Ok?
    requires |ps| == |Children(n).value|
    requires forall i :: 0 <= i < |ps| ==> RestrictFree(Children(n).value[i]) && Canonical(Children(n).value[i]) == Ok(ps[i])
    requires ValidPicks(ps, picks)
    ensures Canonical(n).Ok?
    ensures Rank(ps, picks) < |Canonical(n).value|
    ensures Canonical(n).value[Rank(ps, picks)] == Variation(WithChildren(n, Values(Picked(ps, picks))), JoinLabels(Picked(ps, picks)))
  {
    var cs := Children(n).value;
    CanonicalProductIsProduct(cs, ps);
    ProductOrder(ps, picks);
    assert Canonical(n) == Ok(RebuildAll(n, Product(ps)));
  }

  /** Containers keep their kind, tag, keys, field names and number of children in every variation. */
  predicate SameShape(n: Node, m: Node)
  {
    match n
    case List(items) => m.List? && |m.items| == |items|
    case Dict(keys, values) => m.Dict? && m.keys == keys && |m.values| == |values|
    case Record(tag, names, fields) => m.Record? && m.tag == tag && m.names == names && |m.fields| == |fields|
    case RecordList(name, elements) => m.RecordList? && m.listTag == name && |m.elements| == |elements|
    case _ => true
  }

  lemma {:induction false} IterateProductWidth(cs: seq<Node>, rng: Rng, c: Cursor)
    requires IterateProduct(cs, rng, c).Ok?
    ensures forall k :: 0 <= k < |IterateProduct(cs, rng, c).value.0| ==> |IterateProduct(cs, rng, c).value.0[k]| == |cs|
    decreases cs, 1
  {
    if cs != [] {
      var firsts := Iterate(cs[0], rng, c).value;
      IterateRestWidth(firsts.0, cs[1..], rng, firsts.1);
    }
  }

  lemma {:induction false} IterateRestWidth(firsts: seq<Variation>, rest: seq<Node>, rng: Rng, c: Cursor)
    requires IterateRest(firsts, rest, rng, c).Ok?
    ensures forall k :: 0 <= k < |IterateRest(firsts, rest, rng, c).value.0| ==> |IterateRest(firsts, rest, rng, c).value.0[k]| == |rest| + 1
    decreases rest, 2, |firsts|
  {
    if firsts != [] {
      var tails := IterateProduct(rest, rng, c).value;
      IterateProductWidth(rest, rng, c);
      IterateRestWidth(firsts[1..], rest, rng, tails.1);
    }
  }

  /** Every variation of a container is a container of the same shape. */
  lemma IterateKeepsShape(n: Node, rng: Rng, c: Cursor)
    requires IsContainer(n) && Iterate(n, rng, c).Ok?
    ensures forall k :: 0 <= k < |Iterate(n, rng, c).value.0| ==> SameShape(n, Iterate(n, rng, c).value.0[k].value)
  {
    var cs := Children(n).value;
    IterateProductWidth(cs, rng, c);
  }

  // ---------------------------------------------------------------------
  // Sampling
  // ---------------------------------------------------------------------

  /** Every sample is, up to placeholder identities, one of the variations the iteration enumerates. */
  lemma {:induction false} SampleInCanonical(n: Node, rng: Rng, c: Cursor)
    requires RestrictFree(n) && Sample(n, rng, c).Ok?
    ensures Canonical(n).Ok? && EraseV(Sample(n, rng, c).value.0) in Canonical(n).value
    decreases n, 2
  {
    var s := Sample(n, rng, c).value;
    match n
    case List(items) => SampleContainer(n, items, rng, c);
    case Dict(_, values) => SampleContainer(n, values, rng, c);
    case Record(_, _, fields) => SampleContainer(n, fields, rng, c);
    case RecordList(_, elements) => SampleContainer(n, elements, rng, c);
    case Leaf(_) =>
    case RecordLeaf(_, _) =>
    case ProcList(options) =>
      var k := Draw(rng, c, |options|);
      assert Canonical(n).value[k] == EraseV(s.0);
    case ProcListLabelled(labelled) =>
      var k := Draw(rng, c, |labelled|);
      assert Canonical(n).value[k] == EraseV(s.0);
    case ProcColor(_) =>
      var k := Draw(rng, c, 10);
      assert Canonical(n).value[k] == EraseV(s.0);
    case ProcVector3Scaled(_, scales, _) =>
      var k := Draw(rng, c, |scales|);
      assert Canonical(n).value[k] == EraseV(s.0);
    case ProcRepeatChoice(amount, value) =>
      var choice := Sample(value, rng, c).value;
      SampleInCanonical(value, rng, c);
      var inner := Canonical(value).value;
      var i :| 0 <= i < |inner| && inner[i] == EraseV(choice.0);
      DuplicateErase(choice.0.value, amount, choice.1.slots);
      assert Canonical(n).value[i] == EraseV(s.0);
    case ProcIf(cond) =>
      assert Canonical(n).value[0] == EraseV(s.0);
  }

  lemma SampleContainer(n: Node, cs: seq<Node>, rng: Rng, c: Cursor)
    requires IsContainer(n) && RestrictFree(n) && Children(n) == Ok(cs)
    requires Sample(n, rng, c).Ok?
    ensures Canonical(n).Ok? && EraseV(Sample(n, rng, c).value.0) in Canonical(n).value
    decreases n, 1
  {
    var parts := SampleAll(cs, rng, c).value;
    SampleAllInProduct(cs, rng, c);
    assert Sample(n, rng, c).value.0 == Rebuild(n, parts.0);
    RebuildErase(n, parts.0);
    var p := CanonicalProduct(cs).value;
    assert Canonical(n) == Ok(RebuildAll(n, p));
    var k :| 0 <= k < |p| && p[k] == EraseVs(parts.0);
    assert RebuildAll(n, p)[k] == Rebuild(n, EraseVs(parts.0));
  }

  lemma {:induction false} SampleAllInProduct(cs: seq<Node>, rng: Rng, c: Cursor)
    requires forall i :: 0 <= i < |cs| ==> RestrictFree(cs[i])
    requires SampleAll(cs, rng, c).Ok?
    ensures CanonicalProduct(cs).Ok? && EraseVs(SampleAll(cs, rng, c).value.0) in CanonicalProduct(cs).value
    decreases cs, 0
  {
    if cs == [] {
      assert EraseVs([]) == [];
    } else {
      var first := Sample(cs[0], rng, c).value;
      SampleAllCons(cs, rng, c);
      SampleInCanonical(cs[0], rng, c);
      assert forall i :: 0 <= i < |cs[1..]| ==> cs[1..][i] == cs[i + 1];
      SampleAllInProduct(cs[1..], rng, first.1);
      ProductCons(cs, first.0, SampleAll(cs[1..], rng, first.1).value.0);
    }
  }

  /** Sampling the children: the first child's sample, then the others'. */
  lemma SampleAllCons(cs: seq<Node>, rng: Rng, c: Cursor)
    requires cs != [] && SampleAll(cs, rng, c).Ok?
    ensures Sample(cs[0], rng, c).Ok?
    ensures var first := Sample(cs[0], rng, c).value;
      SampleAll(cs[1..], rng, first.1).Ok?
      && SampleAll(cs, rng, c).value.0 == [first.0] + SampleAll(cs[1..], rng, first.1).value.0
  {
  }

  /** A variation of the first child in front of a combination of the others is in the product. */
  lemma ProductCons(cs: seq<Node>, v: Variation, rest: seq<Variation>)
    requires cs != [] && forall i :: 0 <= i < |cs| ==> RestrictFree(cs[i])
    requires forall i :: 0 <= i < |cs[1..]| ==> RestrictFree(cs[1..][i])
    requires Canonical(cs[0]).Ok? && EraseV(v) in Canonical(cs[0]).value
    requires CanonicalProduct(cs[1..]).Ok? && EraseVs(rest) in CanonicalProduct(cs[1..]).value
    ensures CanonicalProduct(cs).Ok? && EraseVs([v] + rest) in CanonicalProduct(cs).value
  {
    var f := Canonical(cs[0]).value;
    var tails := CanonicalProduct(cs[1..]).value;
    assert CanonicalProduct(cs) == Ok(Distribute(f, tails));
    var t := EraseVs([v] + rest);
    assert t[0] == EraseV(v) && t[1..] == EraseVs(rest);
    DistributeMember(f, tails, t);
  }

  /** Every element is, up to placeholder identities, one of the variations of `item`. */
  predicate AmongVariations(vs: seq<Variation>, item: Node)
    requires RestrictFree(item)
  {
    forall v :: v in vs ==> Canonical(item).Ok? && EraseV(v) in Canonical(item).value
  }

  /**
   * `!ProcRestrictCombinations` enumerates `amount` samples of its item
   * (none for a negative amount), each one of the item's own variations.
   */
  lemma RestrictIterate(amount: int, item: Node, rng: Rng, c: Cursor)
    requires RestrictFree(item) && Iterate(ProcRestrictCombinations(amount, item), rng, c).Ok?
    ensures |Iterate(ProcRestrictCombinations(amount, item), rng, c).value.0| == Max0(amount)
    ensures AmongVariations(Iterate(ProcRestrictCombinations(amount, item), rng, c).value.0, item)
  {
    assert Iterate(ProcRestrictCombinations(amount, item), rng, c) == SampleTimes(item, amount, rng, c);
    SampleTimesMembers(item, amount, rng, c);
  }

  lemma {:induction false} SampleTimesMembers(item: Node, times: int, rng: Rng, c: Cursor)
    requires RestrictFree(item) && SampleTimes(item, times, rng, c).Ok?
    ensures |SampleTimes(item, times, rng, c).value.0| == Max0(times)
    ensures AmongVariations(SampleTimes(item, times, rng, c).value.0, item)
    decreases times
  {
    if times > 0 {
      var first := Sample(item, rng, c).value;
      var rest := SampleTimes(item, times - 1, rng, first.1).value;
      SampleInCanonical(item, rng, c);
      SampleTimesMembers(item, times - 1, rng, first.1);
      assert SampleTimes(item, times, rng, c).value.0 == [first.0] + rest.0;
    }
  }

  // ---------------------------------------------------------------------
  // The other handlers' iterations
  // ---------------------------------------------------------------------

  /**
   * `!ProcRepeatChoice`: each variation of the value becomes a list of
   * `Max1(amount)` elements equal to it up to placeholder identities, its
   * first element the variation itself, keeping its labels.
   */
  lemma RepeatShape(amount: int, value: Node, rng: Rng, c: Cursor)
    requires Iterate(ProcRepeatChoice(amount, value), rng, c).Ok?
    ensures Iterate(value, rng, c).Ok?
    ensures var vs := Iterate(ProcRepeatChoice(amount, value), rng, c).value.0;
            var ws := Iterate(value, rng, c).value.0;
            |vs| == |ws| &&
            forall i :: 0 <= i < |vs| ==>
              vs[i].labels == ws[i].labels && vs[i].value.List? && |vs[i].value.items| == Max1(amount) &&
              vs[i].value.items[0] == ws[i].value &&
              forall j :: 0 <= j < |vs[i].value.items| ==> Erase(vs[i].value.items[j]) == Erase(ws[i].value)
  {
    var inner := Iterate(value, rng, c).value;
    assert Iterate(ProcRepeatChoice(amount, value), rng, c).value.0 == DuplicateAll(inner.0, amount, inner.1.slots).0;
    DuplicateAllShape(inner.0, amount, inner.1.slots);
  }

  /** The shape `RepeatShape` states, for the copies of any variations. */
  lemma DuplicateAllShape(ws: seq<Variation>, amount: int, next: nat)
    ensures var vs := DuplicateAll(ws, amount, next).0;
            |vs| == |ws| &&
            forall i :: 0 <= i < |vs| ==>
              vs[i].labels == ws[i].labels && vs[i].value.List? && |vs[i].value.items| == Max1(amount) &&
              vs[i].value.items[0] == ws[i].value &&
              forall j :: 0 <= j < |vs[i].value.items| ==> Erase(vs[i].value.items[j]) == Erase(ws[i].value)
  {
    var vs := DuplicateAll(ws, amount, next).0;
    DuplicateAllErase(ws, amount, next);
    DuplicateAllHeads(ws, amount, next);
    forall i | 0 <= i < |vs|
      ensures vs[i].labels == ws[i].labels && vs[i].value.List? && |vs[i].value.items| == Max1(amount)
      ensures forall j :: 0 <= j < |vs[i].value.items| ==> Erase(vs[i].value.items[j]) == Erase(ws[i].value)
    {
      assert EraseV(vs[i]) == RepeatedVariations(EraseVs(ws), amount)[i];
      assert EraseAll(vs[i].value.items) == Repeat(Erase(ws[i].value), Max1(amount));
    }
  }

  lemma {:induction false} DuplicateAllHeads(vs: seq<Variation>, amount: int, next: nat)
    ensures var d := DuplicateAll(vs, amount, next).0;
            |d| == |vs| && forall i :: 0 <= i < |vs| ==> d[i].value.List? && |d[i].value.items| > 0 && d[i].value.items[0] == vs[i].value
    decreases |vs|
  {
    if vs != [] {
      var d := Duplicate(vs[0].value, amount, next);
      DuplicateAllHeads(vs[1..], amount, d.1);
      var rest := DuplicateAll(vs[1..], amount, d.1).0;
      var all := DuplicateAll(vs, amount, next).0;
      assert all == [Variation(List(d.0), vs[0].labels)] + rest;
      forall i | 0 <= i < |vs| ensures all[i].value.List? && |all[i].value.items| > 0 && all[i].value.items[0] == vs[i].value {
        if i > 0 {
          assert all[i] == rest[i - 1];
          assert vs[i] == vs[1..][i - 1];
        }
      }
    }
  }

  /**
   * `!ProcVector3Scaled`: one variation per scale, in order, the base (or
   * (1, 1, 1)) scaled componentwise, labelled with the matching scale label;
   * labels whose number differs from the number of scales fail the assertion.
   */
  lemma Vector3Iterate(n: Node, rng: Rng, c: Cursor)
    requires n.ProcVector3Scaled?
    ensures Iterate(n, rng, c).Err? <==> n.scaleLabels.Some? && |n.scaleLabels.value| != |n.scales|
    ensures Iterate(n, rng, c).Err? ==> Iterate(n, rng, c).error == AssertionFailed
    ensures Iterate(n, rng, c).Ok? ==> |Iterate(n, rng, c).value.0| == |n.scales|
    ensures Iterate(n, rng, c).Ok? ==>
      var b := BaseOrUnit(n.base);
      forall k :: 0 <= k < |n.scales| ==>
        Iterate(n, rng, c).value.0[k].value == VecNode(Vec(b.x * n.scales[k], b.y * n.scales[k], b.z * n.scales[k])) &&
        Iterate(n, rng, c).value.0[k].labels == (if n.scaleLabels.Some? then [n.scaleLabels.value[k]] else [])
  {
  }

  /** A node without a handler fails every handler operation with the dispatch error. */
  lemma UnhandledNode(n: Node, rng: Rng, c: Cursor)
    requires GetNodeHandler(n).Err?
    ensures Count(n) == Err(NoHandler) && Children(n) == Err(NoHandler)
    ensures Iterate(n, rng, c) == Err(NoHandler) && Sample(n, rng, c) == Err(NoHandler)
  {
    DispatchTotal(n);
  }

  /**
   * `Util.count` over concatenated children: counting a list of children in
   * two parts gives the product of the parts' counts, and fails iff one of
   * the parts fails, so the grouping of children does not change a count.
   */
  lemma {:induction false} CountAllConcat(a: seq<Node>, b: seq<Node>)
    ensures CountAll(a + b).Ok? <==> CountAll(a).Ok? && CountAll(b).Ok?
    ensures CountAll(a + b).Ok? ==> CountAll(a + b).value == CountAll(a).value * CountAll(b).value
    decreases |a|
  {
    if a == [] {
      assert a + b == b;
    } else {
      assert (a + b)[0] == a[0];
      assert (a + b)[1..] == a[1..] + b;
      CountAllConcat(a[1..], b);
      if CountAll(a + b).Ok? {
        var x := Count(a[0]).value;
        assert CountAll(a + b).value == x * (CountAll(a[1..]).value * CountAll(b).value);
        assert CountAll(a).value == x * CountAll(a[1..]).value;
        MulAssoc(x, CountAll(a[1..]).value, CountAll(b).value);
      }
    }
  }

  lemma MulAssoc(x: int, y: int, z: int)
    ensures x * (y * z) == (x * y) * z
  {
  }

  /**
   * `!ProcList` and `!ProcListLabelled`: iteration yields the options in
   * declared order, a plain option without labels and a labelled option
   * with exactly its own label; there are as many as the count says, and a
   * sample is one of them.
   */
  lemma ChoiceListIterate(n: Node, rng: Rng, c: Cursor)
    requires n.ProcList? || n.ProcListLabelled?
    ensures Iterate(n, rng, c).Ok? && Count(n).Ok?
    ensures |Iterate(n, rng, c).value.0| == Count(n).value
    ensures n.ProcList? ==>
      forall i :: 0 <= i < |n.options| ==> Iterate(n, rng, c).value.0[i] == Variation(n.options[i], [])
    ensures n.ProcListLabelled? ==>
      forall i :: 0 <= i < |n.labelled| ==>
        Iterate(n, rng, c).value.0[i] == Variation(n.labelled[i].value, [n.labelled[i].labelValue])
    ensures Sample(n, rng, c).Ok? ==> Sample(n, rng, c).value.0 in Iterate(n, rng, c).value.0
    ensures Sample(n, rng, c).Err? <==> Count(n).value == 0
  {
    if Sample(n, rng, c).Ok? {
      var vs := Iterate(n, rng, c).value.0;
      if n.ProcList? {
        assert vs[Draw(rng, c, |n.options|)] == Sample(n, rng, c).value.0;
      } else {
        assert vs[Draw(rng, c, |n.labelled|)] == Sample(n, rng, c).value.0;
      }
    }
  }
}
