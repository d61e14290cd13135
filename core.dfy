/**
 * The drivers of the engine: the count explanation and the tree walk.
 * The recursors that dispatch count, iterate and sample through the
 * handler table are the recursive calls of `Count`, `Iterate` and `Sample`
 * in `Handlers`.
 */
module Core {
  import opened Outcomes
  import opened Tags
  import opened Strings
  import opened Handlers

  // ---------------------------------------------------------------------
  // explain_count_recursive
  // ---------------------------------------------------------------------

  /**
   * `_explain_count_recursive`: static nodes join the non-empty
   * explanations of their children with " x "; a Proc tag other than the
   * conditionals gives its count and tag name without looking inside.
   */
  function Explanation(n: Node): Result<string>
    decreases n, 0
  {
    match n
    case List(items) => var es :- ExplainAll(items); Ok(Join(" x ", NonEmpty(es)))
    case Dict(_, values) => var es :- ExplainAll(values); Ok(Join(" x ", NonEmpty(es)))
    case Record(_, _, fields) => var es :- ExplainAll(fields); Ok(Join(" x ", NonEmpty(es)))
    case RecordList(_, elements) => var es :- ExplainAll(elements); Ok(Join(" x ", NonEmpty(es)))
    case Leaf(_) => Ok("")
    case RecordLeaf(_, _) => Ok("")
    case ProcIf(_) | ProcIfLabels(_) => Ok("")
    case R(_, _) | Placeholder(_, _, _) => Err(NoHandler)
    case _ => var k :- Count(n); Ok(IntToString(k) + "#" + TagName(n))
  }

  /** The explanations of the children, in order; the first failure stops. */
  function ExplainAll(cs: seq<Node>): (r: Result<seq<string>>)
    ensures r.Ok? ==> |r.value| == |cs|
    decreases cs, 1
  {
    if cs == [] then Ok([])
    else
      var first :- Explanation(cs[0]);
      var rest :- ExplainAll(cs[1..]);
      Ok([first] + rest)
  }

  /** The strings that are not empty, in order. */
  function NonEmpty(es: seq<string>): (r: seq<string>)
    ensures forall i :: 0 <= i < |r| ==> r[i] != ""
    ensures forall e :: e in r <==> e in es && e != ""
  {
    if es == [] then []
    else if es[0] == "" then NonEmpty(es[1..])
    else [es[0]] + NonEmpty(es[1..])
  }

  /** `explain_count_recursive`: the explanation, or "No variations" when it is empty. */
  function ExplainCount(n: Node): Result<string>
  {
    var e :- Explanation(n);
    Ok(if e == "" then "No variations" else e)
  }

  /** One counted Proc tag of an explanation. */
  datatype Factor = Factor(count: int, tag: string)

  /** The counted Proc tags of a node, in the order the explanation lists them. */
  function Factors(n: Node): Result<seq<Factor>>
    decreases n, 0
  {
    match n
    case List(items) => FactorsAll(items)
    case Dict(_, values) => FactorsAll(values)
    case Record(_, _, fields) => FactorsAll(fields)
    case RecordList(_, elements) => FactorsAll(elements)
    case Leaf(_) => Ok([])
    case RecordLeaf(_, _) => Ok([])
    case ProcIf(_) | ProcIfLabels(_) => Ok([])
    case R(_, _) | Placeholder(_, _, _) => Err(NoHandler)
    case _ => var k :- Count(n); Ok([Factor(k, TagName(n))])
  }

  function FactorsAll(cs: seq<Node>): Result<seq<Factor>>
    decreases cs, 1
  {
    if cs == [] then Ok([])
    else
      var first :- Factors(cs[0]);
      var rest :- FactorsAll(cs[1..]);
      Ok(first + rest)
  }

  function Render(f: Factor): (s: string)
    ensures '#' in s
  {
    var s := IntToString(f.count) + "#" + f.tag;
    assert s[|IntToString(f.count)|] == '#';
    s
  }

  function RenderAll(fs: seq<Factor>): (r: seq<string>)
    ensures |r| == |fs| && forall i :: 0 <= i < |fs| ==> r[i] == Render(fs[i])
  {
    seq(|fs|, i requires 0 <= i < |fs| => Render(fs[i]))
  }

  /** The product of the factors' counts. */
  function Multiply(fs: seq<Factor>): int
  {
    if fs == [] then 1 else fs[0].count * Multiply(fs[1..])
  }

  lemma {:induction false} MultiplyConcat(a: seq<Factor>, b: seq<Factor>)
    ensures Multiply(a + b) == Multiply(a) * Multiply(b)
    decreases |a|
  {
    if a != [] {
      assert (a + b)[0] == a[0] && (a + b)[1..] == a[1..] + b;
      MultiplyConcat(a[1..], b);
      assert a[0].count * (Multiply(a[1..]) * Multiply(b)) == (a[0].count * Multiply(a[1..])) * Multiply(b);
    } else {
      assert a + b == b;
    }
  }

  /** Joining is associative over concatenation: the two joins are glued by one separator. */
  lemma {:induction false} JoinConcat(sep: string, a: seq<string>, b: seq<string>)
    requires a != [] && b != []
    ensures Join(sep, a + b) == Join(sep, a) + sep + Join(sep, b)
    decreases |a|
  {
    if |a| == 1 {
      assert (a + b)[1..] == b;
    } else {
      assert (a + b)[1..] == a[1..] + b;
      JoinConcat(sep, a[1..], b);
    }
  }

  /** A join of non-empty strings is empty exactly when there is nothing to join. */
  lemma {:induction false} JoinEmpty(sep: string, a: seq<string>)
    requires forall i :: 0 <= i < |a| ==> a[i] != ""
    ensures Join(sep, a) == "" <==> a == []
    decreases |a|
  {
    if |a| > 1 {
      JoinEmpty(sep, a[1..]);
    }
  }

  /** A join of strings that each contain '#' contains '#' once there is something to join. */
  lemma {:induction false} JoinHasMark(sep: string, a: seq<string>)
    requires a != [] && forall i :: 0 <= i < |a| ==> '#' in a[i]
    ensures '#' in Join(sep, a)
    decreases |a|
  {
    if |a| > 1 {
      var j :| 0 <= j < |a[0]| && a[0][j] == '#';
      assert Join(sep, a)[j] == '#';
    }
  }

  lemma RenderAllConcat(a: seq<Factor>, b: seq<Factor>)
    ensures RenderAll(a + b) == RenderAll(a) + RenderAll(b)
  {
  }

  /**
   * The explanation lists the counted Proc tags: it succeeds exactly when
   * the count does, it is those factors rendered and joined with " x ", and
   * the factors multiply to the count.
   */
  lemma {:induction false} ExplanationFactors(n: Node)
    ensures Explanation(n).Ok? <==> Count(n).Ok?
    ensures Factors(n).Ok? <==> Count(n).Ok?
    ensures Count(n).Ok? ==> Explanation(n).value == Join(" x ", RenderAll(Factors(n).value))
    ensures Count(n).Ok? ==> Count(n).value == Multiply(Factors(n).value)
    decreases n, 1
  {
    if n.List? || n.Dict? || n.Record? || n.RecordList? {
      ContainerFactors(n);
    } else if n.Leaf? || n.RecordLeaf? || n.ProcIf? || n.ProcIfLabels? || n.R? || n.Placeholder? {
    } else if Count(n).Ok? {
      TagFactors(n);
    }
  }

  /** A container explains and factors as its children do. */
  lemma {:induction false} ContainerFactors(n: Node)
    requires n.List? || n.Dict? || n.Record? || n.RecordList?
    ensures Explanation(n).Ok? <==> Count(n).Ok?
    ensures Factors(n).Ok? <==> Count(n).Ok?
    ensures Count(n).Ok? ==> Explanation(n).value == Join(" x ", RenderAll(Factors(n).value))
    ensures Count(n).Ok? ==> Count(n).value == Multiply(Factors(n).value)
    decreases n, 0
  {
    match n
    case List(items) => ExplainAllFactors(items);
    case Dict(_, values) => ExplainAllFactors(values);
    case Record(_, _, fields) => ExplainAllFactors(fields);
    case RecordList(_, elements) => ExplainAllFactors(elements);
  }

  /** A counted Proc tag is one factor: its count and its name. */
  lemma TagFactors(n: Node)
    requires !(n.List? || n.Dict? || n.Record? || n.RecordList?)
    requires !(n.Leaf? || n.RecordLeaf? || n.ProcIf? || n.ProcIfLabels? || n.R? || n.Placeholder?)
    requires Count(n).Ok?
    ensures Explanation(n).Ok? && Factors(n).Ok?
    ensures Explanation(n).value == Join(" x ", RenderAll(Factors(n).value))
    ensures Count(n).value == Multiply(Factors(n).value)
  {
    var f := Factor(Count(n).value, TagName(n));
    assert Factors(n).value == [f];
    assert RenderAll([f]) == [Render(f)];
  }

  lemma {:induction false} ExplainAllFactors(cs: seq<Node>)
    ensures ExplainAll(cs).Ok? <==> CountAll(cs).Ok?
    ensures FactorsAll(cs).Ok? <==> CountAll(cs).Ok?
    ensures CountAll(cs).Ok? ==> Join(" x ", NonEmpty(ExplainAll(cs).value)) == Join(" x ", RenderAll(FactorsAll(cs).value))
    ensures CountAll(cs).Ok? ==> CountAll(cs).value == Multiply(FactorsAll(cs).value)
    decreases cs, 2
  {
    if cs != [] {
      ExplanationFactors(cs[0]);
      ExplainAllFactors(cs[1..]);
      if CountAll(cs).Ok? {
        var e := Explanation(cs[0]).value;
        var es := ExplainAll(cs[1..]).value;
        var f := Factors(cs[0]).value;
        var fs := FactorsAll(cs[1..]).value;
        assert ExplainAll(cs).value == [e] + es;
        assert FactorsAll(cs).value == f + fs;
        MultiplyConcat(f, fs);
        RenderAllConcat(f, fs);
        var left := NonEmpty(es);
        var right := RenderAll(fs);
        assert Join(" x ", left) == Join(" x ", right);
        JoinEmpty(" x ", left);
        JoinEmpty(" x ", right);
        JoinEmpty(" x ", RenderAll(f));
        assert ([e] + es)[1..] == es;
        if e == "" {
          assert RenderAll(f) == [];
          assert f == [];
          assert f + fs == fs;
        } else {
          assert NonEmpty([e] + es) == [e] + left;
          assert RenderAll(f) != [];
          if left == [] {
            assert right == [];
            assert RenderAll(f) + right == RenderAll(f);
            assert [e] + left == [e];
          } else {
            JoinConcat(" x ", [e], left);
            JoinConcat(" x ", RenderAll(f), right);
          }
        }
      }
    }
  }

  /** "No variations" is printed exactly when no Proc tag is counted. */
  lemma NoVariationsExactly(n: Node)
    requires Count(n).Ok?
    ensures ExplainCount(n).Ok? && Factors(n).Ok?
    ensures ExplainCount(n).value == "No variations" <==> Factors(n).value == []
  {
    ExplanationFactors(n);
    var fs := Factors(n).value;
    JoinEmpty(" x ", RenderAll(fs));
    if fs != [] {
      JoinHasMark(" x ", RenderAll(fs));
      assert '#' !in "No variations";
    }
  }

  // ---------------------------------------------------------------------
  // walk_tree
  // ---------------------------------------------------------------------

  /**
   * The nodes a walk reached, in the order the callback saw them, and
   * whether it finished: it stops at the first node that has no handler.
   */
  datatype Walked = Walked(visits: seq<Node>, complete: bool)

  /**
   * `walk_tree`: the callback sees the node first; only when it answers
   * true are the node's children walked, in `children()` order.
   */
  function WalkTree(n: Node, descend: Node -> bool): (w: Walked)
    ensures |w.visits| > 0 && w.visits[0] == n
    ensures !descend(n) ==> w == Walked([n], true)
    ensures descend(n) && Children(n).Err? ==> w == Walked([n], false)
    decreases Size(n), 1
  {
    if !descend(n) then Walked([n], true)
    else
      var cs := Children(n);
      if cs.Err? then Walked([n], false)
      else
        assert forall i :: 0 <= i < |cs.value| ==> Size(cs.value[i]) < Size(n) by {
          ChildrenSmaller(n);
        }
        var inner := WalkAll(cs.value, descend, Size(n));
        Walked([n] + inner.visits, inner.complete)
  }

  /** The walks of the children one after the other; an unfinished one ends the whole walk. */
  function WalkAll(cs: seq<Node>, descend: Node -> bool, ghost bound: nat): (w: Walked)
    requires forall i :: 0 <= i < |cs| ==> Size(cs[i]) < bound
    decreases bound, 0, |cs|
  {
    if cs == [] then Walked([], true)
    else
      var first := WalkTree(cs[0], descend);
      if !first.complete then first
      else
        var rest := WalkAll(cs[1..], descend, bound);
        Walked(first.visits + rest.visits, rest.complete)
  }

  /** The identities of the placeholders among some nodes. */
  function VisitedSlots(visits: seq<Node>): set<nat>
  {
    if visits == [] then {}
    else (if visits[0].Placeholder? then {visits[0].slot} else {}) + VisitedSlots(visits[1..])
  }

  lemma {:induction false} VisitedSlotsConcat(a: seq<Node>, b: seq<Node>)
    ensures VisitedSlots(a + b) == VisitedSlots(a) + VisitedSlots(b)
    decreases |a|
  {
    if a != [] {
      assert (a + b)[0] == a[0] && (a + b)[1..] == a[1..] + b;
      VisitedSlotsConcat(a[1..], b);
    } else {
      assert a + b == b;
    }
  }

  /** The placeholders in a variation: those reached through its lists, mappings and records. */
  function SlotsOf(n: Node): set<nat>
    decreases n, 1
  {
    match n
    case Placeholder(slot, _, _) => {slot}
    case List(items) => SlotsAll(items)
    case Dict(_, values) => SlotsAll(values)
    case Record(_, _, fields) => SlotsAll(fields)
    case RecordList(_, elements) => SlotsAll(elements)
    case _ => {}
  }

  function SlotsAll(ns: seq<Node>): set<nat>
    decreases ns, 0
  {
    if ns == [] then {} else SlotsOf(ns[0]) + SlotsAll(ns[1..])
  }

  /** Walking to every node but into no placeholder: the fill pass's callback. */
  predicate NotPlaceholder(n: Node)
  {
    !n.Placeholder?
  }

  /** A walk that finishes reaches every placeholder of the variation. */
  lemma {:induction false} WalkReachesSlots(n: Node)
    requires WalkTree(n, NotPlaceholder).complete
    ensures SlotsOf(n) <= VisitedSlots(WalkTree(n, NotPlaceholder).visits)
    decreases n, 1
  {
    var w := WalkTree(n, NotPlaceholder);
    if !n.Placeholder? {
      var cs := Children(n);
      ChildrenSmaller(n);
      var inner := WalkAll(cs.value, NotPlaceholder, Size(n));
      assert w.visits == [n] + inner.visits;
      VisitedSlotsConcat([n], inner.visits);
      match n
      case List(items) => WalkAllReaches(items, Size(n));
      case Dict(_, values) => WalkAllReaches(values, Size(n));
      case Record(_, _, fields) => WalkAllReaches(fields, Size(n));
      case RecordList(_, elements) => WalkAllReaches(elements, Size(n));
      case _ =>
    } else {
      assert VisitedSlots([n]) == {n.slot};
    }
  }

  lemma {:induction false} WalkAllReaches(cs: seq<Node>, bound: nat)
    requires forall i :: 0 <= i < |cs| ==> Size(cs[i]) < bound
    requires WalkAll(cs, NotPlaceholder, bound).complete
    ensures SlotsAll(cs) <= VisitedSlots(WalkAll(cs, NotPlaceholder, bound).visits)
    decreases cs, 0
  {
    if cs != [] {
      var first := WalkTree(cs[0], NotPlaceholder);
      var rest := WalkAll(cs[1..], NotPlaceholder, bound);
      WalkReachesSlots(cs[0]);
      WalkAllReaches(cs[1..], bound);
      VisitedSlotsConcat(first.visits, rest.visits);
    }
  }
}
