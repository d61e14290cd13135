/**
 * The template tree. A node is a plain YAML value (list, mapping, scalar), an
 * AnimalAI record tag (Arena, ArenaConfig, Item, Vector3, RGB), the `!R`
 * range literal, one of the `!Proc*` tags, or a placeholder left behind by a
 * `!ProcIf` until the deferred pass fills it.
 *
 * Mappings and records keep their keys and their values in two parallel
 * sequences, in insertion order; the values are the node's children.
 */
module Tags {
  import opened Outcomes

  /** A YAML scalar: str, a number (int or float, as a real) or bool. */
  datatype Scalar = Str(text: string) | Num(number: real) | Bool(truth: bool)

  /** The AnimalAI mapping tags. */
  datatype RecordTag = Arena | ArenaConfig | Item | Vector3 | RGB

  /** The `value` of a conditional: one variable path or a list of them. */
  datatype Variables = One(name: string) | Many(names: seq<string>)

  datatype Vec = Vec(x: real, y: real, z: real)

  /**
   * A label is whatever YAML value the template gives for it: the handlers
   * only carry it into the variation's Meta, so nothing requires a string.
   */
  type Label = Node

  /** One entry of a `!ProcListLabelled`: the value to use and the label it adds. */
  datatype LabelledOption = LabelledOption(labelValue: Label, value: Node)

  /**
   * The fields of a `!ProcIf` as the handler reads them: `value`, `cases`,
   * `then`, `default`, `labels`, `default_label`.
   */
  datatype Conditional = Conditional(
    variable: Variables,
    cases: seq<Node>,
    thenValues: seq<Node>,
    default: Option<Node>,
    labels: Option<seq<Label>>,
    defaultLabel: Option<Label>)

  /** A template-level `!ProcIfLabels` rule: `value`, `cases`, `labels`, `default`. */
  datatype LabelRule = LabelRule(
    variable: Variables,
    cases: seq<Node>,
    labels: seq<Label>,
    default: Option<Label>)

  datatype Node =
    | List(items: seq<Node>)
    | Dict(keys: seq<Scalar>, values: seq<Node>)
    | Leaf(scalar: Scalar)
    | Record(tag: RecordTag, names: seq<string>, fields: seq<Node>)
    | RecordList(listTag: string, elements: seq<Node>)    // an AnimalAI sequence tag
    | RecordLeaf(leafTag: string, content: Scalar)         // an AnimalAI scalar tag
    | R(min: real, max: real)
    | ProcList(options: seq<Node>)
    | ProcListLabelled(labelled: seq<LabelledOption>)
    | ProcColor(amount: int)
    | ProcVector3Scaled(base: Option<Vec>, scales: seq<real>, scaleLabels: Option<seq<Label>>)
    | ProcRepeatChoice(amount: int, value: Node)
    | ProcRestrictCombinations(amount: int, item: Node)
    | ProcIf(cond: Conditional)
    | ProcIfLabels(rule: LabelRule)
    | Placeholder(slot: nat, pending: Conditional, origin: Option<nat>)
      // the MutablePlaceholder with identity `slot`; `origin` is the one it is a deep copy of

  /** One step of a variable path: a digit segment indexes, any other names a key. */
  datatype PathKey = At(index: nat) | Field(name: string)

  /** The kinds the source treats as CustomTag instances that are not AnimalAI tags. */
  predicate IsProcGenTag(n: Node)
  {
    n.R? || n.ProcList? || n.ProcListLabelled? || n.ProcColor? || n.ProcVector3Scaled?
    || n.ProcRepeatChoice? || n.ProcRestrictCombinations? || n.ProcIf? || n.ProcIfLabels?
  }

  function VecNode(v: Vec): Node
  {
    Record(Vector3, ["x", "y", "z"], [Leaf(Num(v.x)), Leaf(Num(v.y)), Leaf(Num(v.z))])
  }

  /** A labelled option seen as the mapping `{label: ..., value: ...}` it is in the source. */
  function OptionNode(o: LabelledOption): Node
  {
    Dict([Str("label"), Str("value")], [o.labelValue, o.value])
  }

  function NumLeaves(xs: seq<real>): (r: seq<Node>)
    ensures |r| == |xs| && forall i :: 0 <= i < |xs| ==> r[i] == Leaf(Num(xs[i]))
  {
    seq(|xs|, i requires 0 <= i < |xs| => Leaf(Num(xs[i])))
  }

  function StrLeaves(xs: seq<string>): (r: seq<Node>)
    ensures |r| == |xs| && forall i :: 0 <= i < |xs| ==> r[i] == Leaf(Str(xs[i]))
  {
    seq(|xs|, i requires 0 <= i < |xs| => Leaf(Str(xs[i])))
  }

  function VariablesNode(v: Variables): Node
  {
    match v
    case One(name) => Leaf(Str(name))
    case Many(names) => List(StrLeaves(names))
  }

  function OptionalList(o: Option<Node>): Node
  {
    if o.Some? then List([o.value]) else List([])
  }

  /**
   * `WithId.get_id`: the `id` field of an AnimalAI record when it was set.
   * Only records carry ids; the other node kinds have no `id`.
   */
  function GetId(n: Node): (r: Option<Node>)
    ensures r.Some? <==> n.Record? && "id" in n.names[..Min(|n.names|, |n.fields|)]
    ensures r.Some? ==> FieldOf(n.names, n.fields, "id") == r
  {
    if n.Record? then FieldOf(n.names, n.fields, "id") else None
  }

  function Min(a: int, b: int): int { if a <= b then a else b }

  /** The value of the first field called `name`, if any. */
  function FieldOf(names: seq<string>, fields: seq<Node>, name: string): (r: Option<Node>)
    ensures r.Some? <==> name in names[..Min(|names|, |fields|)]
    ensures r.Some? ==> exists j :: 0 <= j < |names| && j < |fields| && names[j] == name && fields[j] == r.value
    decreases |names|
  {
    if names == [] || fields == [] then None
    else if names[0] == name then Some(fields[0])
    else
      var r := FieldOf(names[1..], fields[1..], name);
      assert names[..Min(|names|, |fields|)] == [names[0]] + names[1..][..Min(|names| - 1, |fields| - 1)];
      if r.Some? then
        var j :| 0 <= j < |names[1..]| && j < |fields[1..]| && names[1..][j] == name && fields[1..][j] == r.value;
        assert names[j + 1] == name && fields[j + 1] == r.value;
        r
      else r
  }

  /** An identified node: an AnimalAI record whose `id` is the string `id`. */
  predicate HasId(n: Node, id: string)
  {
    GetId(n) == Some(Leaf(Str(id)))
  }

  /** Python dictionary lookup: an int key finds an equal number, True counting as 1 and False as 0. */
  predicate KeyMatches(k: Scalar, key: PathKey)
  {
    match k
    case Str(s) => key.Field? && key.name == s
    case Num(r) => key.At? && r == key.index as real
    case Bool(b) => key.At? && (if b then 1 else 0) == key.index
  }

  /** Entry `j` is the first whose key matches. */
  predicate FirstKeyAt(keys: seq<Scalar>, key: PathKey, j: int)
  {
    0 <= j < |keys| && KeyMatches(keys[j], key) && forall i :: 0 <= i < j ==> !KeyMatches(keys[i], key)
  }

  /** `d[key]` on a mapping: the value of the first entry whose key matches, None (a KeyError) when none does. */
  function DictLookup(keys: seq<Scalar>, values: seq<Node>, key: PathKey): (r: Option<Node>)
    ensures r.None? <==> forall j :: 0 <= j < |keys| && j < |values| ==> !KeyMatches(keys[j], key)
    ensures r.Some? ==> exists j :: FirstKeyAt(keys, key, j) && j < |values| && values[j] == r.value
    decreases |keys|
  {
    if keys == [] || values == [] then None
    else if KeyMatches(keys[0], key) then
      assert FirstKeyAt(keys, key, 0);
      Some(values[0])
    else
      var r := DictLookup(keys[1..], values[1..], key);
      if r.Some? then
        var j :| FirstKeyAt(keys[1..], key, j) && j < |values[1..]| && values[1..][j] == r.value;
        assert FirstKeyAt(keys, key, j + 1) by {
          forall i | 0 <= i < j + 1
            ensures !KeyMatches(keys[i], key)
          {
            if i > 0 {
              assert keys[i] == keys[1..][i - 1];
            }
          }
        }
        assert values[j + 1] == r.value;
        r
      else
        assert forall j :: 1 <= j < |keys| ==> keys[j] == keys[1..][j - 1];
        r
  }

  /**
   * `node[key]` for one step of a variable path; None where Python raises.
   * Lists, AnimalAI sequences and choice lists take an index, strings give
   * the character at an index, mappings look the key up, AnimalAI records
   * and the mapping-shaped Proc tags return the named field (the
   * conditional tags under the names their handlers read), `!R` returns its
   * bounds at 0 and 1, and scalar tags never index. A field the tag holds
   * as None reads as missing. A placeholder is indexed through the value
   * it holds (`Conditions.Step`), not here.
   */
  function Index(n: Node, key: PathKey): (r: Option<Node>)
    ensures n.RecordLeaf? || n.ProcColor? || n.Placeholder? ==> r.None?
    ensures n.Record? && key.Field? ==> r == FieldOf(n.names, n.fields, key.name)
    ensures n.List? && key.At? && key.index < |n.items| ==> r == Some(n.items[key.index])
    ensures n.Dict? ==> r == DictLookup(n.keys, n.values, key)
  {
    match n
    case List(items) =>
      if key.At? && key.index < |items| then Some(items[key.index]) else None
    case Dict(keys, values) => DictLookup(keys, values, key)
    case Leaf(s) =>
      if s.Str? && key.At? && key.index < |s.text| then Some(Leaf(Str([s.text[key.index]]))) else None
    case Record(_, names, fields) =>
      if key.Field? then FieldOf(names, fields, key.name) else None
    case RecordList(_, elements) =>
      if key.At? && key.index < |elements| then Some(elements[key.index]) else None
    case RecordLeaf(_, _) => None
    case R(lo, hi) =>
      if key == At(0) then Some(Leaf(Num(lo)))
      else if key == At(1) then Some(Leaf(Num(hi)))
      else None
    case ProcList(options) =>
      if key.At? && key.index < |options| then Some(options[key.index]) else None
    case ProcListLabelled(labelled) =>
      if key.At? && key.index < |labelled| then Some(OptionNode(labelled[key.index])) else None
    case ProcColor(_) => None
    case ProcVector3Scaled(base, scales, scaleLabels) =>
      if key == Field("scales") then Some(List(NumLeaves(scales)))
      else if key == Field("base") && base.Some? then Some(VecNode(base.value))
      else if key == Field("labels") && scaleLabels.Some? then Some(List(scaleLabels.value))
      else None
    case ProcRepeatChoice(amount, value) =>
      if key == Field("amount") then Some(Leaf(Num(amount as real)))
      else if key == Field("value") then Some(value)
      else None
    case ProcRestrictCombinations(amount, item) =>
      if key == Field("amount") then Some(Leaf(Num(amount as real)))
      else if key == Field("item") then Some(item)
      else None
    case ProcIf(c) =>
      if key == Field("value") then Some(VariablesNode(c.variable))
      else if key == Field("cases") then Some(List(c.cases))
      else if key == Field("then") then Some(List(c.thenValues))
      else if key == Field("default") && c.default.Some? then Some(c.default.value)
      else if key == Field("labels") && c.labels.Some? then Some(List(c.labels.value))
      else if key == Field("default_label") && c.defaultLabel.Some? then Some(c.defaultLabel.value)
      else None
    case ProcIfLabels(rule) =>
      if key == Field("value") then Some(VariablesNode(rule.variable))
      else if key == Field("cases") then Some(List(rule.cases))
      else if key == Field("labels") then Some(List(rule.labels))
      else if key == Field("default") && rule.default.Some? then Some(rule.default.value)
      else None
    case Placeholder(_, _, _) => None
  }

  /**
   * `new_labelled_option`: an option must be a mapping holding both `label`
   * and `value`; anything else fails the assertion. The label may be any value.
   */
  function NewLabelledOption(raw: Node): (r: Result<LabelledOption>)
    ensures r.Ok? <==> raw.Dict? && DictLookup(raw.keys, raw.values, Field("value")).Some?
                       && DictLookup(raw.keys, raw.values, Field("label")).Some?
    ensures r.Ok? ==> (Index(raw, Field("value")) == Some(r.value.value)
                       && Index(raw, Field("label")) == Some(r.value.labelValue))
    ensures r.Err? ==> r.error == AssertionFailed
  {
    if !raw.Dict? then Err(AssertionFailed)
    else
      var found := DictLookup(raw.keys, raw.values, Field("label"));
      var value := DictLookup(raw.keys, raw.values, Field("value"));
      if found.None? || value.None? then Err(AssertionFailed)
      else Ok(LabelledOption(found.value, value.value))
  }

  /** The `!ProcListLabelled` constructor: every option converted, order kept, first bad option fails. */
  function NewProcListLabelled(options: seq<Node>): (r: Result<Node>)
    ensures r.Ok? <==> forall i :: 0 <= i < |options| ==> NewLabelledOption(options[i]).Ok?
    ensures r.Ok? ==> (r.value.ProcListLabelled? && |r.value.labelled| == |options|
                       && forall i :: 0 <= i < |options| ==> NewLabelledOption(options[i]) == Ok(r.value.labelled[i]))
    ensures r.Err? ==> r.error == AssertionFailed
  {
    NewLabelledOptionsEach(options);
    var converted :- NewLabelledOptions(options);
    Ok(ProcListLabelled(converted))
  }

  /** The list comprehension over the options: one converted option per raw one, or the assertion's failure. */
  function NewLabelledOptions(options: seq<Node>): (r: Result<seq<LabelledOption>>)
    ensures r.Ok? ==> |r.value| == |options|
    ensures r.Err? ==> r.error == AssertionFailed
  {
    if options == [] then Ok([])
    else
      var first :- NewLabelledOption(options[0]);
      var rest :- NewLabelledOptions(options[1..]);
      Ok([first] + rest)
  }

  /** The comprehension succeeds iff every option converts, and then holds each option's conversion in order. */
  lemma NewLabelledOptionsEach(options: seq<Node>)
    ensures var r := NewLabelledOptions(options);
      (r.Ok? <==> forall i :: 0 <= i < |options| ==> NewLabelledOption(options[i]).Ok?)
      && (r.Ok? ==> forall i :: 0 <= i < |options| ==> NewLabelledOption(options[i]) == Ok(r.value[i]))
  {
    if NewLabelledOptions(options).Ok? {
      NewLabelledOptionsConverted(options);
    } else {
      NewLabelledOptionsFails(options);
    }
  }

  /** A successful comprehension holds each option's own conversion, in order. */
  lemma {:induction false} NewLabelledOptionsConverted(options: seq<Node>)
    requires NewLabelledOptions(options).Ok?
    ensures var converted := NewLabelledOptions(options).value;
      forall i :: 0 <= i < |options| ==> NewLabelledOption(options[i]) == Ok(converted[i])
  {
    if options != [] {
      NewLabelledOptionsUnfold(options);
      NewLabelledOptionsConverted(options[1..]);
      var converted := NewLabelledOptions(options).value;
      assert converted[1..] == NewLabelledOptions(options[1..]).value;
      ConvertedShift(options, converted);
    }
  }

  /** Conversions that hold for the first option and for each of the rest hold for every option. */
  lemma ConvertedShift(options: seq<Node>, converted: seq<LabelledOption>)
    requires |options| == |converted| > 0
    requires NewLabelledOption(options[0]) == Ok(converted[0])
    requires forall i :: 0 <= i < |options| - 1 ==> NewLabelledOption(options[1..][i]) == Ok(converted[1..][i])
    ensures forall i :: 0 <= i < |options| ==> NewLabelledOption(options[i]) == Ok(converted[i])
  {
    forall i | 1 <= i < |options|
      ensures NewLabelledOption(options[i]) == Ok(converted[i])
    {
      assert options[i] == options[1..][i - 1] && converted[i] == converted[1..][i - 1];
    }
  }

  lemma NewLabelledOptionsUnfold(options: seq<Node>)
    requires options != [] && NewLabelledOptions(options).Ok?
    ensures NewLabelledOption(options[0]).Ok? && NewLabelledOptions(options[1..]).Ok?
    ensures NewLabelledOptions(options).value
            == [NewLabelledOption(options[0]).value] + NewLabelledOptions(options[1..]).value
  {
  }

  /** A failed comprehension names an option that does not convert. */
  lemma {:induction false} NewLabelledOptionsFails(options: seq<Node>)
    requires NewLabelledOptions(options).Err?
    ensures exists i :: 0 <= i < |options| && NewLabelledOption(options[i]).Err?
  {
    if NewLabelledOption(options[0]).Ok? {
      NewLabelledOptionsFails(options[1..]);
      var i :| 0 <= i < |options[1..]| && NewLabelledOption(options[1..][i]).Err?;
      assert options[i + 1] == options[1..][i];
    }
  }

  /**
   * A size measure on nodes. The children a handler reports for a Proc tag
   * are built from its fields, so they are not sub-terms of the tag; the
   * measure is chosen so that every such child is still smaller.
   */
  function Size(n: Node): nat
    decreases n, 2
  {
    match n
    case List(items) => 1 + SizeAll(items)
    case Dict(_, values) => 1 + SizeAll(values)
    case Leaf(_) => 1
    case Record(_, _, fields) => 1 + SizeAll(fields)
    case RecordList(_, elements) => 1 + SizeAll(elements)
    case RecordLeaf(_, _) => 1
    case R(_, _) => 1
    case ProcList(options) => 1 + SizeAll(options)
    case ProcListLabelled(labelled) =>
      assert forall i :: 0 <= i < |labelled| ==> labelled[i].labelValue < n && labelled[i].value < n;
      1 + SizeLabelled(labelled, n)
    case ProcColor(_) => 2
    case ProcVector3Scaled(_, scales, _) => 6 + |scales|
    case ProcRepeatChoice(_, value) => 2 + Size(value)
    case ProcRestrictCombinations(_, item) => 2 + Size(item)
    case ProcIf(c) => 4 + VariablesSize(c.variable) + SizeAll(c.cases) + SizeAll(c.thenValues) + OptionSize(c.default)
    case ProcIfLabels(r) => 4 + VariablesSize(r.variable) + SizeAll(r.cases) + OptionSize(r.default)
    case Placeholder(_, _, _) => 1
  }

  function SizeAll(s: seq<Node>): nat
    decreases s, 0
  {
    if s == [] then 0 else Size(s[0]) + SizeAll(s[1..])
  }

  function SizeLabelled(s: seq<LabelledOption>, ghost parent: Node): nat
    requires forall i :: 0 <= i < |s| ==> s[i].labelValue < parent && s[i].value < parent
    decreases parent, 1, |s|
  {
    if s == [] then 0 else 2 + Size(s[0].labelValue) + Size(s[0].value) + SizeLabelled(s[1..], parent)
  }

  function OptionSize(o: Option<Node>): nat
    decreases o, 0
  {
    if o.Some? then Size(o.value) else 0
  }

  function VariablesSize(v: Variables): nat
  {
    if v.One? then 1 else 1 + |v.names|
  }

  /** Each element of a sequence is no bigger than the whole sequence. */
  lemma {:induction false} SizeAllBound(s: seq<Node>, i: nat)
    requires i < |s|
    ensures Size(s[i]) <= SizeAll(s)
    decreases |s|
  {
    if i > 0 {
      SizeAllBound(s[1..], i - 1);
    }
  }

  lemma {:induction false} SizeLabelledBound(s: seq<LabelledOption>, parent: Node, i: nat)
    requires forall k :: 0 <= k < |s| ==> s[k].labelValue < parent && s[k].value < parent
    requires i < |s|
    ensures 2 + Size(s[i].labelValue) + Size(s[i].value) <= SizeLabelled(s, parent)
    decreases |s|
  {
    if i > 0 {
      SizeLabelledBound(s[1..], parent, i - 1);
    }
  }

  lemma {:induction false} SizeAllOfLeaves(s: seq<Node>)
    requires forall i :: 0 <= i < |s| ==> s[i].Leaf?
    ensures SizeAll(s) == |s|
    decreases |s|
  {
    if s != [] {
      SizeAllOfLeaves(s[1..]);
    }
  }

  /**
   * `Range(value)`: reads the two bounds first (an IndexError for a shorter
   * list), then rejects a list whose length is not 2, then a minimum above
   * the maximum.
   */
  function RangeBounds(value: seq<real>): (r: Result<(real, real)>)
    ensures r.Ok? <==> |value| == 2 && value[0] <= value[1]
    ensures r.Ok? ==> r.value == (value[0], value[1])
    ensures |value| < 2 ==> r == Err(IndexOutOfRange)
    ensures |value| > 2 ==> r == Err(RangeLength)
    ensures |value| == 2 && value[0] > value[1] ==> r == Err(RangeOrder)
  {
    if |value| < 2 then Err(IndexOutOfRange)
    else if |value| != 2 then Err(RangeLength)
    else if value[0] > value[1] then Err(RangeOrder)
    else Ok((value[0], value[1]))
  }

  /** The `!R` range object, whose bounds can be read and overwritten by index. */
  class Range {
    var min: real
    var max: real

    constructor Make(lo: real, hi: real)
      ensures min == lo && max == hi
    {
      min := lo;
      max := hi;
    }

    /** `Range.__init__`: a new range from a list, or the error the checks raise. */
    static method New(value: seq<real>) returns (r: Result<Range>)
      ensures r.Ok? <==> RangeBounds(value).Ok?
      ensures r.Ok? ==> fresh(r.value) && r.value.min == value[0] && r.value.max == value[1]
      ensures r.Err? ==> r.error == RangeBounds(value).error
    {
      if |value| < 2 {
        return Err(IndexOutOfRange);
      }
      var lo := value[0];
      var hi := value[1];
      if |value| != 2 {
        return Err(RangeLength);
      }
      if lo > hi {
        return Err(RangeOrder);
      }
      var range := new Range.Make(lo, hi);
      return Ok(range);
    }

    /** The range as a node of the tree. */
    function AsNode(): Node
      reads this
    {
      R(min, max)
    }

    /** `__getitem__`: 0 is the minimum, 1 the maximum, anything else an IndexError. */
    method GetItem(key: int) returns (r: Result<real>)
      ensures key == 0 ==> r == Ok(min)
      ensures key == 1 ==> r == Ok(max)
      ensures key != 0 && key != 1 ==> r == Err(IndexOutOfRange)
      ensures key >= 0 && r.Ok? ==> Index(AsNode(), At(key)) == Some(Leaf(Num(r.value)))
    {
      if key == 0 {
        return Ok(min);
      } else if key == 1 {
        return Ok(max);
      } else {
        return Err(IndexOutOfRange);
      }
    }

    /**
     * `__setitem__`: writes the addressed bound only, without re-checking
     * that the minimum stays below the maximum.
     */
    method SetItem(key: int, bound: real) returns (r: Result<()>)
      modifies this
      ensures key == 0 ==> r.Ok? && min == bound && max == old(max)
      ensures key == 1 ==> r.Ok? && max == bound && min == old(min)
      ensures key != 0 && key != 1 ==> r == Err(IndexOutOfRange) && min == old(min) && max == old(max)
    {
      if key == 0 {
        min := bound;
        return Ok(());
      } else if key == 1 {
        max := bound;
        return Ok(());
      } else {
        return Err(IndexOutOfRange);
      }
    }

    /** `__iter__`: the minimum, then the maximum. */
    function Iter(): (r: seq<real>)
      reads this
      ensures |r| == 2 && r[0] == min && r[1] == max
    {
      [min, max]
    }
  }
}
