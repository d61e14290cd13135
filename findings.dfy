/**
 * Exhaustive mode hands the same `MutablePlaceholder` to every variation
 * that shares a `!ProcIf` produced by one `iterate` call: `product` calls
 * the first child's iterator once and reuses each of its items for every
 * combination of the later children. The placeholder is filled during the
 * first variation's pass and then counts as filled, so the later variations
 * write out, and label themselves with, the value resolved against the first
 * variation rather than their own.
 *
 * The example template is a list of a `!ProcIf` on `box.x` and a Vector3
 * with id `box` whose `x` is `!ProcList [u, w]`. The conditional says "one"
 * when x is 1 and "other" otherwise.
 */
module Findings {
  import opened Outcomes
  import opened Strings
  import opened Tags
  import opened Util
  import opened Handlers
  import opened Conditions
  import opened Core
  import opened Generation

  /** `!ProcIf {value: box.x, cases: [1], then: [one], default: other, labels: [one], default_label: other}`. */
  const Cond: Conditional :=
    Conditional(One("box.x"), [Leaf(Num(1.0))], [Leaf(Str("one"))], Some(Leaf(Str("other"))), Some([Leaf(Str("one"))]), Some(Leaf(Str("other"))))

  /** The Vector3 with id `box` and the given `x`. */
  function Box(x: Node): Node
  {
    Record(Vector3, ["id", "x"], [Leaf(Str("box")), x])
  }

  /** The template with `x` a choice of `u` and `w`. */
  function Template(u: real, w: real): Node
  {
    List([ProcIf(Cond), Box(ProcList([Leaf(Num(u)), Leaf(Num(w))]))])
  }

  /** The variation of the template in which x is `x`, holding placeholder 0. */
  function Chosen(x: real): Variation
  {
    Variation(List([Placeholder(0, Cond, None), Box(Leaf(Num(x)))]), [])
  }

  /** The variation as written out once its placeholder holds `tagged`. */
  function Written(tagged: string, x: real): Variation
  {
    Variation(List([Leaf(Str(tagged)), Box(Leaf(Num(x)))]), [Leaf(Str(tagged))])
  }

  /** Iterating the template gives two variations that hold the same placeholder. */
  lemma TemplateIterates(u: real, w: real, rng: Rng)
    ensures Iterate(Template(u, w), rng, Cursor(0, 0)) == Ok(([Chosen(u), Chosen(w)], Cursor(0, 1)))
  {
    var c := Cursor(0, 1);
    var n := Template(u, w);
    var bu := Variation(Box(Leaf(Num(u))), []);
    var bw := Variation(Box(Leaf(Num(w))), []);
    BoxIterates(u, w, rng, c);
    var p := Variation(Placeholder(0, Cond, None), []);
    assert Iterate(n.items[0], rng, Cursor(0, 0)) == Ok(([p], c));
    PairIterates(n, n.items[0], n.items[1], p, bu, bw, rng, Cursor(0, 0), c);
    RebuildPair(n, p, bu);
    RebuildPair(n, p, bw);
    assert Rebuild(n, [p, bu]) == Chosen(u) && Rebuild(n, [p, bw]) == Chosen(w);
  }

  lemma BoxIterates(u: real, w: real, rng: Rng, c: Cursor)
    ensures Iterate(Box(ProcList([Leaf(Num(u)), Leaf(Num(w))])), rng, c)
         == Ok(([Variation(Box(Leaf(Num(u))), []), Variation(Box(Leaf(Num(w))), [])], c))
  {
    var n := Box(ProcList([Leaf(Num(u)), Leaf(Num(w))]));
    var id := Variation(n.fields[0], []);
    var xu := Variation(Leaf(Num(u)), []);
    var xw := Variation(Leaf(Num(w)), []);
    assert Iterate(n.fields[1], rng, c).value.0 == [xu, xw];
    PairIterates(n, n.fields[0], n.fields[1], id, xu, xw, rng, c, c);
    RebuildPair(n, id, xu);
    RebuildPair(n, id, xw);
    assert Rebuild(n, [id, xu]) == Variation(Box(Leaf(Num(u))), []);
    assert Rebuild(n, [id, xw]) == Variation(Box(Leaf(Num(w))), []);
  }

  /**
   * A list or record of two children, the first with one variation and the
   * second with two: one variation per variation of the second child.
   */
  lemma PairIterates(n: Node, a: Node, b: Node, f: Variation, g1: Variation, g2: Variation, rng: Rng, c: Cursor, d: Cursor)
    requires (n.List? && n.items == [a, b]) || (n.Record? && n.fields == [a, b])
    requires Iterate(a, rng, c) == Ok(([f], d))
    requires Iterate(b, rng, d) == Ok(([g1, g2], d))
    ensures Iterate(n, rng, c) == Ok(([Rebuild(n, [f, g1]), Rebuild(n, [f, g2])], d))
  {
    ProductOfLast(b, [g1, g2], rng, d);
    ProductOfTwo(a, b, f, [[g1], [g2]], rng, c, d);
    assert [f] + [g1] == [f, g1] && [f] + [g2] == [f, g2];
    assert RebuildAll(n, [[f, g1], [f, g2]]) == [Rebuild(n, [f, g1]), Rebuild(n, [f, g2])];
  }

  /** A child with one variation followed by a child with two: two combinations. */
  lemma ProductOfTwo(a: Node, b: Node, f: Variation, tails: seq<seq<Variation>>, rng: Rng, c: Cursor, d: Cursor)
    requires Iterate(a, rng, c) == Ok(([f], d))
    requires |tails| == 2 && IterateProduct([b], rng, d) == Ok((tails, d))
    ensures IterateProduct([a, b], rng, c) == Ok(([[f] + tails[0], [f] + tails[1]], d))
  {
    assert [a, b][0] == a && [a, b][1..] == [b];
    RestOfOne(f, [b], tails, rng, d);
  }

  /** A container rebuilt from two parts: their values in order, their labels concatenated. */
  lemma RebuildPair(n: Node, u: Variation, w: Variation)
    ensures Rebuild(n, [u, w]) == Variation(WithChildren(n, [u.value, w.value]), u.labels + w.labels)
  {
    assert Values([u, w]) == [u.value, w.value];
    assert [u, w][..1] == [u] && [u][..0] == [];
    assert JoinLabels([u]) == [] + u.labels;
  }

  /** The product over one child with two variations: one combination each. */
  lemma ProductOfLast(n: Node, vs: seq<Variation>, rng: Rng, c: Cursor)
    requires |vs| == 2 && Iterate(n, rng, c) == Ok((vs, c))
    ensures IterateProduct([n], rng, c) == Ok(([[vs[0]], [vs[1]]], c))
  {
    var none: seq<Variation> := [];
    assert IterateProduct([], rng, c) == Ok(([none], c));
    PrependOne(vs[1], none);
    PrependOne(vs[0], none);
    assert [vs[1]] + none == [vs[1]] && [vs[0]] + none == [vs[0]];
    var last := vs[1..];
    assert last[1..] == [];
    var r1 := IterateRest(last[1..], [], rng, c);
    assert r1 == Ok(([], c));
    var t := IterateProduct([], rng, c);
    assert t == Ok(([none], c));
    assert IterateRest(last, [], rng, c) == Ok((Prepend(last[0], t.value.0) + r1.value.0, r1.value.1));
    assert Prepend(last[0], t.value.0) + r1.value.0 == [[vs[1]]];
    assert IterateRest(vs, [], rng, c) == Ok((Prepend(vs[0], t.value.0) + [[vs[1]]], c));
    assert Prepend(vs[0], t.value.0) + [[vs[1]]] == [[vs[0]], [vs[1]]];
    assert [n][0] == n && [n][1..] == [];
  }

  lemma PrependOne(x: Variation, t: seq<Variation>)
    ensures Prepend(x, [t]) == [[x] + t]
  {
    assert Prepend(x, [t])[0] == [x] + t;
  }

  /** One variation in the first position followed by the product of the rest. */
  lemma RestOfOne(f: Variation, rest: seq<Node>, tails: seq<seq<Variation>>, rng: Rng, c: Cursor)
    requires |tails| == 2 && IterateProduct(rest, rng, c) == Ok((tails, c))
    ensures IterateRest([f], rest, rng, c) == Ok(([[f] + tails[0], [f] + tails[1]], c))
  {
    assert [f][1..] == [];
    assert IterateRest([], rest, rng, c) == Ok(([], c));
    var pre := Prepend(f, tails);
    assert pre[0] == [f] + tails[0] && pre[1] == [f] + tails[1];
    assert pre == [[f] + tails[0], [f] + tails[1]];
    assert pre + [] == pre;
  }

  // ---------------------------------------------------------------------
  // Resolving the conditional against one variation
  // ---------------------------------------------------------------------

  /** The label the conditional gives when x is `x`. */
  function LabelFor(x: real): string
  {
    if x == 1.0 then "one" else "other"
  }

  lemma BoxXParts()
    ensures ItemId("box.x") == "box" && VariablePath("box.x") == [Field("x")]
  {
    var v := "box.x";
    assert v[4..][1..] == [] && v[4] == 'x';
    assert Split(v[4..][1..], '.') == [""];
    assert ['x'] + "" == "x" && [""][1..] == [];
    assert Split(v[4..], '.') == ["x"];
    assert Split(v[3..], '.') == ["", "x"] by { assert v[3..][1..] == v[4..]; }
    assert Split(v[2..], '.') == ["x", "x"] by {
      assert v[2..][1..] == v[3..] && v[2] == 'x';
      assert ['x'] + "" == "x" && ["", "x"][1..] == ["x"];
    }
    assert Split(v[1..], '.') == ["ox", "x"] by {
      assert v[1..][1..] == v[2..] && v[1] == 'o';
      assert ['o'] + "x" == "ox" && ["x", "x"][1..] == ["x"];
    }
    assert Split(v, '.') == ["box", "x"] by {
      assert v[0] == 'b';
      assert ['b'] + "ox" == "box" && ["ox", "x"][1..] == ["x"];
    }
  }

  /** The item with id `box` is the second element of the variation. */
  lemma BoxFound(x: real)
    ensures FindItem("box", Chosen(x).value) == Some(Box(Leaf(Num(x))))
  {
    var root := Chosen(x).value;
    assert GetId(root.items[1]) == Some(Leaf(Str("box")));
    assert FindItem("box", root.items[1]) == Some(root.items[1]);
    assert FindItem("box", root.items[0]).None?;
    assert FindFirst("box", root.items) == Some(root.items[1]);
  }

  /** `box.x` names the element's `x`, whatever the placeholders hold. */
  lemma BoxXLookup(x: real, store: Store, fuel: nat)
    ensures FindVariableF("box.x", Chosen(x).value, store, fuel) == Ok((Leaf(Num(x)), store))
  {
    BoxXParts();
    BoxFound(x);
    var b := Box(Leaf(Num(x)));
    assert Step(b, Field("x"), store) == Some(Leaf(Num(x)));
    assert WalkFrom([Field("x")], 1, Leaf(Num(x)), Chosen(x).value, store, fuel) == Ok((Leaf(Num(x)), store));
    assert WalkFrom([Field("x")], 0, b, Chosen(x).value, store, fuel) == Ok((Leaf(Num(x)), store));
  }

  /** Resolved against its own variation the conditional gives "one" exactly when x is 1. */
  lemma Resolves(x: real, store: Store, fuel: nat)
    ensures ResolveConditionF(Cond, Chosen(x).value, store, fuel)
         == Ok(((Leaf(Str(LabelFor(x))), Some(Leaf(Str(LabelFor(x))))), store))
  {
    BoxXFound(x, store, fuel);
    CaseOfX(x);
  }

  lemma BoxXFound(x: real, store: Store, fuel: nat)
    ensures FindAllF(VariableList(Cond.variable), Chosen(x).value, store, fuel) == Ok(([Leaf(Num(x))], store))
  {
    var root := Chosen(x).value;
    var vars := VariableList(Cond.variable);
    assert vars[0] == "box.x" && vars[1..] == [];
    BoxXLookup(x, store, fuel);
    assert FindAllF(vars[1..], root, store, fuel) == Ok(([], store));
    assert [Leaf(Num(x))] + [] == [Leaf(Num(x))];
  }

  /** The only case, 1, matches x exactly when x is 1. */
  lemma CaseOfX(x: real)
    ensures MatchCases([Leaf(Num(x))], Cond.cases) == Ok(if x == 1.0 then 0 else -1)
  {
    assert AllMatch([Leaf(Num(x))], [Leaf(Num(1.0))]) == Ok(x == 1.0);
    if x != 1.0 {
      assert MatchFrom([Leaf(Num(x))], Cond.cases, 1) == Ok(-1);
    }
  }

  // ---------------------------------------------------------------------
  // The fill pass over one variation
  // ---------------------------------------------------------------------

  lemma WalkLeaf(l: Scalar)
    ensures WalkTree(Leaf(l), NotPlaceholder) == Walked([Leaf(l)], true)
  {
    assert WalkAll([], NotPlaceholder, Size(Leaf(l))) == Walked([], true);
    assert [Leaf(l)] + [] == [Leaf(l)];
  }

  /** Walking a node with two children that are walked to the end: the node, then each child's walk. */
  lemma WalkPair(n: Node, a: Node, b: Node)
    requires NotPlaceholder(n) && Children(n) == Ok([a, b])
    requires WalkTree(a, NotPlaceholder).complete && WalkTree(b, NotPlaceholder).complete
    ensures WalkTree(n, NotPlaceholder)
         == Walked([n] + WalkTree(a, NotPlaceholder).visits + WalkTree(b, NotPlaceholder).visits, true)
  {
    WalkUnfold(n);
    assert Size(a) < Size(n) && Size(b) < Size(n) by {
      assert Children(n).value[0] == a && Children(n).value[1] == b;
    }
    WalkTwo(a, b, Size(n));
  }

  /** Two children walked to the end, one after the other. */
  lemma WalkTwo(a: Node, b: Node, bound: nat)
    requires Size(a) < bound && Size(b) < bound
    requires WalkTree(a, NotPlaceholder).complete && WalkTree(b, NotPlaceholder).complete
    ensures WalkAll([a, b], NotPlaceholder, bound)
         == Walked(WalkTree(a, NotPlaceholder).visits + WalkTree(b, NotPlaceholder).visits, true)
  {
    var wb := WalkTree(b, NotPlaceholder);
    WalkAllCons(b, [], bound);
    assert [b] + [] == [b] && wb.visits + [] == wb.visits;
    WalkAllCons(a, [b], bound);
    assert [a] + [b] == [a, b];
  }

  /** A node the walk descends into: the node, then the walks of its children. */
  lemma WalkUnfold(n: Node)
    requires NotPlaceholder(n) && Children(n).Ok?
    ensures forall i :: 0 <= i < |Children(n).value| ==> Size(Children(n).value[i]) < Size(n)
    ensures WalkTree(n, NotPlaceholder)
         == Walked([n] + WalkAll(Children(n).value, NotPlaceholder, Size(n)).visits,
                   WalkAll(Children(n).value, NotPlaceholder, Size(n)).complete)
  {
    ChildrenSmaller(n);
  }

  /** Walking a child that is walked to the end, then the others. */
  lemma WalkAllCons(c: Node, cs: seq<Node>, bound: nat)
    requires Size(c) < bound && forall i :: 0 <= i < |cs| ==> Size(cs[i]) < bound
    requires WalkTree(c, NotPlaceholder).complete
    ensures WalkAll([c] + cs, NotPlaceholder, bound)
         == Walked(WalkTree(c, NotPlaceholder).visits + WalkAll(cs, NotPlaceholder, bound).visits,
                   WalkAll(cs, NotPlaceholder, bound).complete)
  {
    assert ([c] + cs)[0] == c && ([c] + cs)[1..] == cs;
  }

  /** The walk sees the list, the placeholder (and stops there), the box and its two fields. */
  lemma WalkOfChosen(x: real)
    ensures WalkTree(Chosen(x).value, NotPlaceholder)
         == Walked([Chosen(x).value, Placeholder(0, Cond, None), Box(Leaf(Num(x))), Leaf(Str("box")), Leaf(Num(x))], true)
  {
    var b := Box(Leaf(Num(x)));
    WalkLeaf(Str("box"));
    WalkLeaf(Num(x));
    WalkPair(b, Leaf(Str("box")), Leaf(Num(x)));
    WalkPair(Chosen(x).value, Placeholder(0, Cond, None), b);
  }

  /** The pass over the variation does what its one placeholder does. */
  lemma PassOfChosen(x: real, store: Store)
    ensures PassF(Chosen(x), store) == FillNode(Placeholder(0, Cond, None), Chosen(x).value, store)
  {
    WalkOfChosen(x);
    var rest := [Box(Leaf(Num(x))), Leaf(Str("box")), Leaf(Num(x))];
    assert [Chosen(x).value, Placeholder(0, Cond, None)] + rest
        == [Chosen(x).value, Placeholder(0, Cond, None), Box(Leaf(Num(x))), Leaf(Str("box")), Leaf(Num(x))];
    PassOfOne(Chosen(x), Placeholder(0, Cond, None), rest, store);
  }

  /** A complete walk that meets one placeholder, second: the pass is that placeholder's fill. */
  lemma PassOfOne(v: Variation, p: Node, rest: seq<Node>, store: Store)
    requires WalkTree(v.value, NotPlaceholder) == Walked([v.value, p] + rest, true)
    requires !v.value.Placeholder?
    requires forall i :: 0 <= i < |rest| ==> !rest[i].Placeholder?
    ensures PassF(v, store) == FillNode(p, v.value, store)
  {
    var root := v.value;
    var visits := [root, p] + rest;
    var filled := FillNode(p, root, store);
    if filled.Ok? {
      FillVisitsPlain(rest, root, filled.value.1);
      assert filled.value.0 + [] == filled.value.0;
    }
    assert visits[0] == root && visits[1..][0] == p && visits[1..][1..] == rest;
    assert FillVisits(visits[1..], root, store) == filled;
    ThenThen([], [], FillVisits(visits[1..], root, store));
  }

  /** Nodes that are not placeholders fill nothing and add no label. */
  lemma {:induction false} FillVisitsPlain(visits: seq<Node>, root: Node, store: Store)
    requires forall i :: 0 <= i < |visits| ==> !visits[i].Placeholder?
    ensures FillVisits(visits, root, store) == Ok(([], store))
    decreases |visits|
  {
    if visits != [] {
      FillVisitsPlain(visits[1..], root, store);
      ThenThen([], [], FillVisits(visits[1..], root, store));
    }
  }

  /** Written out, the variation shows the value its placeholder holds. */
  lemma WrittenOut(x: real, store: Store, tagged: string)
    requires Lookup(store, 0).Filled? && Lookup(store, 0).value == Leaf(Str(tagged))
    ensures Materialize(Chosen(x).value, store) == Written(tagged, x).value
  {
    var b := Box(Leaf(Num(x)));
    assert SlotsAll(b.fields[1..]) == {} && SlotsAll(b.fields) == {};
    MaterializeFixed(b, store);
    var items := Chosen(x).value.items;
    assert items[1..] == [b];
    assert MaterializeAll([b], store) == [b];
    assert MaterializeAll(items, store) == [Leaf(Str(tagged)), b];
  }

  /** A pass that finds the placeholder unfilled resolves it against this variation. */
  lemma ResolvedPass(x: real, store: Store)
    requires 0 in store && store[0] == Unfilled
    ensures VariationF(Chosen(x), [], store)
         == Ok((Written(LabelFor(x), x), store[0 := Filled(Leaf(Str(LabelFor(x))), Some(Leaf(Str(LabelFor(x)))))]))
  {
    var t := LabelFor(x);
    var after := store[0 := Filled(Leaf(Str(t)), Some(Leaf(Str(t))))];
    PassOfChosen(x, store);
    Resolves(x, store, MaxFillDepth);
    assert PassF(Chosen(x), store) == Ok(([Leaf(Str(t))], after));
    assert RulesF([], Chosen(x).value, after) == Ok(([], after));
    WrittenOut(x, after, t);
    assert [] + [Leaf(Str(t))] + [] == [Leaf(Str(t))];
  }

  /** A pass that finds the placeholder filled reuses what it holds, whatever this variation says. */
  lemma StalePass(x: real, store: Store, tagged: string)
    requires 0 in store && store[0] == Filled(Leaf(Str(tagged)), Some(Leaf(Str(tagged))))
    ensures VariationF(Chosen(x), [], store) == Ok((Written(tagged, x), store))
  {
    PassOfChosen(x, store);
    assert PassF(Chosen(x), store) == Ok(([Leaf(Str(tagged))], store));
    assert RulesF([], Chosen(x).value, store) == Ok(([], store));
    WrittenOut(x, store, tagged);
    assert [] + [Leaf(Str(tagged))] + [] == [Leaf(Str(tagged))];
  }

  // ---------------------------------------------------------------------
  // The run
  // ---------------------------------------------------------------------

  lemma SlotsOfChosen(x: real)
    ensures SlotsOf(Chosen(x).value) == {0}
  {
    var b := Box(Leaf(Num(x)));
    SlotsOfPair(b.fields[0], b.fields[1]);
    SlotsOfPair(Placeholder(0, Cond, None), b);
  }

  lemma SlotsOfPair(a: Node, b: Node)
    ensures SlotsAll([a, b]) == SlotsOf(a) + SlotsOf(b)
  {
    assert [a, b][1..] == [b] && [b][1..] == [];
    assert SlotsAll([b]) == SlotsOf(b) + SlotsAll([]);
  }

  /** The variation holds one placeholder, the conditional's, which is no copy. */
  lemma PlaceholdersOfChosen(x: real)
    ensures PlaceholdersOf(Chosen(x).value) == [Placeholder(0, Cond, None)]
  {
    var b := Box(Leaf(Num(x)));
    PlaceholdersOfPair(b.fields[0], b.fields[1]);
    PlaceholdersOfPair(Placeholder(0, Cond, None), b);
  }

  lemma PlaceholdersOfPair(a: Node, b: Node)
    ensures PlaceholdersAll([a, b]) == PlaceholdersOf(a) + PlaceholdersOf(b)
  {
    assert [a, b][1..] == [b] && [b][1..] == [];
    assert PlaceholdersAll([b]) == PlaceholdersOf(b) + PlaceholdersAll([]);
    assert PlaceholdersOf(b) + [] == PlaceholdersOf(b);
  }

  /** Meeting the placeholder first creates it unfilled; meeting it again keeps what it holds. */
  lemma AdmitsChosen(x: real, store: Store)
    ensures Admit(PlaceholdersOf(Chosen(x).value), map[]) == map[0 := Unfilled]
    ensures 0 in store ==> Admit(PlaceholdersOf(Chosen(x).value), store) == store
  {
    PlaceholdersOfChosen(x);
    var ps := [Placeholder(0, Cond, None)];
    assert ps[..0] == [];
  }

  /** Two passes that succeed, the second from what the first left (or from fresh objects). */
  lemma PassTwo(a: Variation, b: Variation, rules: seq<LabelRule>, s0: Store, sharing: Sharing,
                oa: Variation, s1: Store, ob: Variation, s2: Store)
    requires VariationF(a, rules, StartOf(a, s0, sharing)) == Ok((oa, s1))
    requires VariationF(b, rules, StartOf(b, s1, sharing)) == Ok((ob, s2))
    ensures PassAll([a, b], rules, s0, sharing) == ([oa, ob], None)
  {
    PassSingle(b, rules, s1, sharing, ob, s2);
    assert [a, b][0] == a && [a, b][1..] == [b];
    assert [oa] + [ob] == [oa, ob];
  }

  lemma PassSingle(b: Variation, rules: seq<LabelRule>, s1: Store, sharing: Sharing, ob: Variation, s2: Store)
    requires VariationF(b, rules, StartOf(b, s1, sharing)) == Ok((ob, s2))
    ensures PassAll([b], rules, s1, sharing) == ([ob], None)
  {
    assert [b][0] == b && [b][1..] == [];
    assert PassAll([], rules, s2, sharing) == ([], None);
    assert [ob] + [] == [ob];
  }

  /** Exhaustive mode asked for two variations takes both, sharing placeholder 0. */
  lemma ChoosesBoth(u: real, w: real, rng: Rng)
    ensures Stream(Exhaustive, Template(u, w), 2, rng) == ([Chosen(u), Chosen(w)], None)
  {
    TemplateIterates(u, w, rng);
    assert [Chosen(u), Chosen(w)][..2] == [Chosen(u), Chosen(w)];
  }

  /**
   * As written: the second variation (x = w, which is not 1) is written out
   * as "one" and labelled "one", the resolution made for the first (x = 1).
   */
  lemma SharedReusesFirstResolution(w: real, rng: Rng)
    requires w != 1.0
    ensures GenerateF(Exhaustive, Template(1.0, w), 2, [], rng, Shared)
         == Run([Written("one", 1.0), Written("one", w)], None)
  {
    ChoosesBoth(1.0, w, rng);
    SharedPasses(w);
  }

  /** The passes on shared objects: the first fills placeholder 0, the second finds it filled. */
  lemma SharedPasses(w: real)
    requires w != 1.0
    ensures PassAll([Chosen(1.0), Chosen(w)], [], map[], Shared) == ([Written("one", 1.0), Written("one", w)], None)
  {
    var vs := [Chosen(1.0), Chosen(w)];
    var s0 := map[0 := Unfilled];
    var s1 := s0[0 := Filled(Leaf(Str("one")), Some(Leaf(Str("one"))))];
    AdmitsChosen(1.0, map[]);
    AdmitsChosen(w, s1);
    assert StartOf(vs[0], map[], Shared) == s0 && StartOf(vs[1], s1, Shared) == s1;
    ResolvedPass(1.0, s0);
    StalePass(w, s1, "one");
    PassTwo(vs[0], vs[1], [], map[], Shared, Written("one", 1.0), s1, Written("one", w), s1);
  }

  /**
   * Intended: with objects of its own the second variation is resolved
   * against itself and written out and labelled "other".
   */
  lemma FreshResolvesEach(w: real, rng: Rng)
    requires w != 1.0
    ensures GenerateF(Exhaustive, Template(1.0, w), 2, [], rng, Fresh)
         == Run([Written("one", 1.0), Written("other", w)], None)
  {
    ChoosesBoth(1.0, w, rng);
    FreshPasses(w);
  }

  /** The passes on fresh objects: each finds placeholder 0 unfilled and resolves it. */
  lemma FreshPasses(w: real)
    requires w != 1.0
    ensures PassAll([Chosen(1.0), Chosen(w)], [], map[], Fresh) == ([Written("one", 1.0), Written("other", w)], None)
  {
    var vs := [Chosen(1.0), Chosen(w)];
    SlotsOfChosen(1.0);
    SlotsOfChosen(w);
    var s0 := InitialStore({0});
    assert s0 == map[0 := Unfilled];
    var s1 := s0[0 := Filled(Leaf(Str("one")), Some(Leaf(Str("one"))))];
    var s2 := s0[0 := Filled(Leaf(Str("other")), Some(Leaf(Str("other"))))];
    assert StartOf(vs[0], map[], Fresh) == s0 && StartOf(vs[1], s1, Fresh) == s0;
    ResolvedPass(1.0, s0);
    ResolvedPass(w, s0);
    PassTwo(vs[0], vs[1], [], map[], Fresh, Written("one", 1.0), s1, Written("other", w), s2);
  }
}
