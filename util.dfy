/**
 * The engine's utilities: the Cartesian product that fixes the enumeration
 * order, the colour palette, and the placeholder object a `!ProcIf` leaves in
 * a variation until the deferred pass fills it.
 */
module Util {
  import opened Outcomes
  import opened Tags

  // ---------------------------------------------------------------------
  // product
  // ---------------------------------------------------------------------

  /** Every tail with `x` put in front of it. */
  function Prepend<T>(x: T, tails: seq<seq<T>>): (r: seq<seq<T>>)
    ensures |r| == |tails|
    ensures forall k :: 0 <= k < |tails| ==> r[k] == [x] + tails[k]
  {
    seq(|tails|, k requires 0 <= k < |tails| => [x] + tails[k])
  }

  /**
   * The loop body of `product`: for each item of the first input in order,
   * that item in front of every tuple of the remaining inputs.
   */
  function Distribute<T>(firsts: seq<T>, tails: seq<seq<T>>): seq<seq<T>>
    decreases |firsts|
  {
    if firsts == [] then [] else Prepend(firsts[0], tails) + Distribute(firsts[1..], tails)
  }

  /** `product(*inputs)`: no inputs give one empty tuple. */
  function Product<T>(inputs: seq<seq<T>>): seq<seq<T>>
    decreases |inputs|
  {
    if inputs == [] then [[]] else Distribute(inputs[0], Product(inputs[1..]))
  }

  /** The product of the input lengths. */
  function ProductSize<T>(inputs: seq<seq<T>>): nat
    decreases |inputs|
  {
    if inputs == [] then 1 else |inputs[0]| * ProductSize(inputs[1..])
  }

  /** The position of the tuple picking `picks[i]` from input i: mixed radix, last input fastest. */
  function Rank<T>(inputs: seq<seq<T>>, picks: seq<nat>): nat
    requires |picks| == |inputs|
    decreases |inputs|
  {
    if inputs == [] then 0 else picks[0] * ProductSize(inputs[1..]) + Rank(inputs[1..], picks[1..])
  }

  predicate ValidPicks<T>(inputs: seq<seq<T>>, picks: seq<nat>)
  {
    |picks| == |inputs| && forall i :: 0 <= i < |inputs| ==> picks[i] < |inputs[i]|
  }

  /** The tuple that takes element `picks[i]` of every input i. */
  function Picked<T>(inputs: seq<seq<T>>, picks: seq<nat>): (r: seq<T>)
    requires ValidPicks(inputs, picks)
    ensures |r| == |inputs| && forall i :: 0 <= i < |inputs| ==> r[i] == inputs[i][picks[i]]
  {
    seq(|inputs|, i requires 0 <= i < |inputs| => inputs[i][picks[i]])
  }

  lemma MulAtLeast(a: int, d: int)
    requires a >= 1 && d > 0
    ensures a * d >= d
  {
  }

  /** Euclidean division is unique: a quotient and an in-range remainder are the quotient and remainder. */
  lemma DivModUnique(k: int, d: int, q: int, m: int)
    requires d > 0 && 0 <= m < d && k == q * d + m
    ensures k / d == q && k % d == m
  {
    var q', m' := k / d, k % d;
    assert k == q' * d + m' && 0 <= m' < d;
    if q' > q {
      MulAtLeast(q' - q, d);
      assert false;
    } else if q' < q {
      MulAtLeast(q - q', d);
      assert false;
    }
  }

  lemma {:induction false} DistributeLength<T>(firsts: seq<T>, tails: seq<seq<T>>)
    ensures |Distribute(firsts, tails)| == |firsts| * |tails|
    decreases |firsts|
  {
    if firsts != [] {
      DistributeLength(firsts[1..], tails);
      MulSucc(|firsts| - 1, |tails|);
    }
  }

  lemma MulSucc(a: int, b: int)
    ensures (a + 1) * b == b + a * b
  {
  }

  /** Position k of the loop body holds item k / |tails| in front of tail k % |tails|. */
  lemma {:induction false} DistributeAt<T>(firsts: seq<T>, tails: seq<seq<T>>, k: nat)
    requires k < |Distribute(firsts, tails)|
    ensures |tails| > 0 && k / |tails| < |firsts|
    ensures Distribute(firsts, tails)[k] == [firsts[k / |tails|]] + tails[k % |tails|]
    decreases |firsts|
  {
    var n := |tails|;
    DistributeLength(firsts, tails);
    assert firsts != [];
    assert n > 0;
    var head := Prepend(firsts[0], tails);
    var rest := Distribute(firsts[1..], tails);
    assert Distribute(firsts, tails) == head + rest;
    if k < n {
      DivModUnique(k, n, 0, k);
    } else {
      DistributeAt(firsts[1..], tails, k - n);
      DivModShift(k, n);
      assert Distribute(firsts, tails)[k] == rest[k - n];
    }
  }

  /** Taking one divisor off the dividend takes one off the quotient and keeps the remainder. */
  lemma DivModShift(k: int, n: int)
    requires n > 0 && k >= n
    ensures k / n == (k - n) / n + 1 && k % n == (k - n) % n
  {
    var q := (k - n) / n;
    assert k - n == q * n + (k - n) % n;
    assert k == (q + 1) * n + (k - n) % n;
    DivModUnique(k, n, q + 1, (k - n) % n);
  }

  lemma {:induction false} DistributeMember<T>(firsts: seq<T>, tails: seq<seq<T>>, t: seq<T>)
    ensures t in Distribute(firsts, tails) <==> |t| > 0 && t[0] in firsts && t[1..] in tails
    decreases |firsts|
  {
    if firsts != [] {
      DistributeMember(firsts[1..], tails, t);
      if |t| > 0 && t[0] == firsts[0] && t[1..] in tails {
        var k :| 0 <= k < |tails| && tails[k] == t[1..];
        assert Prepend(firsts[0], tails)[k] == t;
      }
      if t in Prepend(firsts[0], tails) {
        var k :| 0 <= k < |tails| && Prepend(firsts[0], tails)[k] == t;
        assert t[1..] == tails[k];
      }
    }
  }

  /** The number of tuples is the product of the input lengths. */
  lemma {:induction false} ProductLength<T>(inputs: seq<seq<T>>)
    ensures |Product(inputs)| == ProductSize(inputs)
    decreases |inputs|
  {
    if inputs != [] {
      ProductLength(inputs[1..]);
      DistributeLength(inputs[0], Product(inputs[1..]));
    }
  }

  /** A tuple belongs to the product exactly when it has one component per input, each taken from that input. */
  lemma {:induction false} ProductMember<T>(inputs: seq<seq<T>>, t: seq<T>)
    ensures t in Product(inputs) <==> |t| == |inputs| && forall i :: 0 <= i < |inputs| ==> t[i] in inputs[i]
    decreases |inputs|
  {
    if inputs != [] {
      DistributeMember(inputs[0], Product(inputs[1..]), t);
      if |t| > 0 {
        ProductMember(inputs[1..], t[1..]);
        if |t| == |inputs| && forall i :: 0 <= i < |inputs| ==> t[i] in inputs[i] {
          assert forall i :: 0 <= i < |inputs[1..]| ==> t[1..][i] in inputs[1..][i] by {
            forall i | 0 <= i < |inputs[1..]| ensures t[1..][i] in inputs[1..][i] {
              assert t[1..][i] == t[i + 1];
            }
          }
        }
        if t[0] in inputs[0] && t[1..] in Product(inputs[1..]) {
          forall i | 0 <= i < |inputs| ensures t[i] in inputs[i] {
            if i > 0 {
              assert t[i] == t[1..][i - 1];
            }
          }
        }
      }
    }
  }

  /** Each tuple has one component per input. */
  lemma ProductWidth<T>(inputs: seq<seq<T>>, k: nat)
    requires k < |Product(inputs)|
    ensures |Product(inputs)[k]| == |inputs|
  {
    ProductMember(inputs, Product(inputs)[k]);
  }

  lemma {:induction false} RankBound<T>(inputs: seq<seq<T>>, picks: seq<nat>)
    requires ValidPicks(inputs, picks)
    ensures Rank(inputs, picks) < ProductSize(inputs)
    decreases |inputs|
  {
    if inputs != [] {
      var rest := ProductSize(inputs[1..]);
      RankBound(inputs[1..], picks[1..]);
      assert picks[0] * rest + rest == (picks[0] + 1) * rest;
      assert (picks[0] + 1) * rest <= |inputs[0]| * rest;
    }
  }

  /**
   * Enumeration order: the tuple that takes element `picks[i]` of each input
   * sits at the mixed-radix position of `picks`, so the first input varies
   * slowest and the last fastest (lexicographic order).
   */
  lemma {:induction false} ProductOrder<T>(inputs: seq<seq<T>>, picks: seq<nat>)
    requires ValidPicks(inputs, picks)
    ensures Rank(inputs, picks) < |Product(inputs)|
    ensures Product(inputs)[Rank(inputs, picks)] == Picked(inputs, picks)
    decreases |inputs|
  {
    RankBound(inputs, picks);
    ProductLength(inputs);
    if inputs != [] {
      var tails := Product(inputs[1..]);
      var rest := Rank(inputs[1..], picks[1..]);
      ProductOrder(inputs[1..], picks[1..]);
      ProductLength(inputs[1..]);
      var k := Rank(inputs, picks);
      DivModUnique(k, |tails|, picks[0], rest);
      DistributeAt(inputs[0], tails, k);
      assert Product(inputs)[k] == [inputs[0][picks[0]]] + Picked(inputs[1..], picks[1..]);
    }
  }

  lemma DistributeStep<T>(firsts: seq<T>, tails: seq<seq<T>>, rest: seq<seq<T>>)
    requires firsts != [] && Distribute(firsts[1..], tails) == rest
    ensures Distribute(firsts, tails) == Prepend(firsts[0], tails) + rest
  {
  }

  /** `product('ABCD')` gives four one-tuples. */
  lemma ProductSingleExample()
    ensures Product(["ABCD"]) == ["A", "B", "C", "D"]
  {
    var none: seq<string> := [""];
    assert Product<char>([]) == none;
    assert Prepend('A', none)[0] == "A" && Prepend('B', none)[0] == "B";
    assert Prepend('C', none)[0] == "C" && Prepend('D', none)[0] == "D";
    assert Prepend('A', none) == ["A"] && Prepend('B', none) == ["B"];
    assert Prepend('C', none) == ["C"] && Prepend('D', none) == ["D"];
    DistributeStep("D", none, []);
    DistributeStep("CD", none, ["D"]);
    DistributeStep("BCD", none, ["C", "D"]);
    DistributeStep("ABCD", none, ["B", "C", "D"]);
  }

  /** `product('xy')` gives two one-tuples. */
  lemma ProductOfXY()
    ensures Product(["xy"]) == ["x", "y"]
  {
    var none: seq<string> := [""];
    assert Product<char>([]) == none;
    PrependOne('x', none);
    PrependOne('y', none);
    DistributeStep("y", none, []);
    DistributeStep("xy", none, ["y"]);
  }

  /** One item in front of the single empty tuple. */
  lemma PrependOne(c: char, none: seq<string>)
    requires none == [""]
    ensures Prepend(c, none) == [[c]]
  {
    assert Prepend(c, none)[0] == [c];
  }

  /** One item in front of the tuples x and y. */
  lemma PrependXY(c: char, xy: seq<string>)
    requires xy == ["x", "y"]
    ensures Prepend(c, xy) == [[c, 'x'], [c, 'y']]
  {
    assert Prepend(c, xy)[0] == [c, 'x'] && Prepend(c, xy)[1] == [c, 'y'];
  }

  /** `product('ABCD', 'xy')` gives Ax Ay Bx By Cx Cy Dx Dy. */
  lemma ProductPairExample()
    ensures Product(["ABCD", "xy"]) == ["Ax", "Ay", "Bx", "By", "Cx", "Cy", "Dx", "Dy"]
  {
    var xy: seq<string> := ["x", "y"];
    ProductOfXY();
    assert ["ABCD", "xy"][1..] == ["xy"];
    assert Product(["ABCD", "xy"]) == Distribute("ABCD", xy);
    PrependXY('A', xy);
    PrependXY('B', xy);
    PrependXY('C', xy);
    PrependXY('D', xy);
    DistributeStep("D", xy, []);
    DistributeStep("CD", xy, ["Dx", "Dy"]);
    DistributeStep("BCD", xy, ["Cx", "Cy", "Dx", "Dy"]);
    DistributeStep("ABCD", xy, ["Bx", "By", "Cx", "Cy", "Dx", "Dy"]);
  }

  /** `inputs * repeat`: the input list concatenated `repeat` times (none when repeat <= 0). */
  function Repeated<T>(inputs: seq<seq<T>>, repeat: int): (r: seq<seq<T>>)
    ensures |r| == if repeat <= 0 then 0 else |inputs| * repeat
    ensures forall x :: x in r ==> x in inputs
    decreases repeat
  {
    if repeat <= 0 then [] else inputs + Repeated(inputs, repeat - 1)
  }

  /**
   * `product(*inputs, repeat=repeat)`: with no inputs, one empty tuple;
   * otherwise the product of the repeated inputs, and an IndexError when
   * repeating leaves nothing. Only the outermost call repeats.
   */
  function ProductRepeat<T>(inputs: seq<seq<T>>, repeat: int): (r: Result<seq<seq<T>>>)
    ensures inputs == [] ==> r == Ok([[]])
    ensures inputs != [] && repeat <= 0 ==> r == Err(IndexOutOfRange)
    ensures inputs != [] && repeat >= 1 ==> r == Ok(Product(Repeated(inputs, repeat)))
  {
    if inputs == [] then Ok([[]])
    else
      var repeated := Repeated(inputs, repeat);
      if repeated == [] then Err(IndexOutOfRange) else Ok(Product(repeated))
  }

  // ---------------------------------------------------------------------
  // COLORS
  // ---------------------------------------------------------------------

  type Rgb = (int, int, int)

  /** The palette: red, green, blue, yellow, magenta, cyan, two greys, maroon, dark green. */
  function Colors(): (palette: seq<Rgb>)
    ensures |palette| == 10
    ensures forall i :: 0 <= i < 10 ==>
      0 <= palette[i].0 <= 255 && 0 <= palette[i].1 <= 255 && 0 <= palette[i].2 <= 255
    ensures forall i, j :: 0 <= i < j < 10 ==> palette[i] != palette[j]
  {
    [(255, 0, 0), (0, 255, 0), (0, 0, 255), (255, 255, 0), (255, 0, 255),
     (0, 255, 255), (192, 192, 192), (128, 128, 128), (128, 0, 0), (0, 128, 0)]
  }

  // ---------------------------------------------------------------------
  // MutablePlaceholder
  // ---------------------------------------------------------------------

  /** What a placeholder holds: nothing yet, or the resolved value and its label. */
  datatype FillState = Unfilled | Filled(value: Node, fillLabel: Option<Label>)

  /** The states of all placeholders of a variation, by identity. */
  type Store = map<nat, FillState>

  /**
   * The object a `!ProcIf` leaves in a variation. Its resolver closure is the
   * conditional carried by the `Placeholder` node that stands for it; `Fill`
   * receives what that resolver computed.
   */
  class MutablePlaceholder {
    var value: Option<Node>
    var fillLabel: Option<Label>

    /** A new placeholder is unfilled. */
    constructor ()
      ensures value == None && fillLabel == None
      ensures State() == Unfilled
    {
      value := None;
      fillLabel := None;
    }

    /** `deepcopy` of a placeholder: a new object holding what `other` holds at the time of the copy. */
    constructor CopyOf(other: MutablePlaceholder)
      ensures value == other.value && fillLabel == other.fillLabel
      ensures State() == other.State()
    {
      value := other.value;
      fillLabel := other.fillLabel;
    }

    /** `is_filled`: a value has been stored. */
    predicate IsFilled()
      reads this
    {
      value.Some?
    }

    function State(): (s: FillState)
      reads this
      ensures s.Filled? <==> IsFilled()
    {
      if value.Some? then Filled(value.value, fillLabel) else Unfilled
    }

    /** `fill`: stores the resolver's (value, label) and returns the same pair. */
    method Fill(resolved: (Node, Option<Label>)) returns (r: (Node, Option<Label>))
      modifies this
      ensures value == Some(resolved.0) && fillLabel == resolved.1
      ensures State() == Filled(resolved.0, resolved.1)
      ensures r == resolved
    {
      value, fillLabel := Some(resolved.0), resolved.1;
      r := resolved;
    }

    /** `__getitem__`: an unfilled placeholder raises; a filled one indexes its value. */
    method GetItem(key: PathKey) returns (r: Result<Node>)
      ensures value.None? ==> r == Err(NotFilled)
      ensures value.Some? && Index(value.value, key).Some? ==> r == Ok(Index(value.value, key).value)
      ensures value.Some? && Index(value.value, key).None? ==> r == Err(NotIndexable)
    {
      if value.None? {
        return Err(NotFilled);
      }
      var found := Index(value.value, key);
      if found.None? {
        return Err(NotIndexable);
      }
      return Ok(found.value);
    }
  }
}
