# procgen-companion variation engine, in Dafny

This project models the engine of procgen-companion that expands an
Animal-AI arena template into concrete arena variations. A template is a
YAML tree. Plain lists, mappings and scalars and the Animal-AI tags (`!Item`,
`!Vector3`, `!RGB`, `!R`, ...) are static. Procedural tags mark choices:
`!ProcList`, `!ProcListLabelled`, `!ProcColor`, `!ProcVector3Scaled`,
`!ProcRepeatChoice`, `!ProcRestrictCombinations` and the conditionals
`!ProcIf` and `!ProcIfLabels`.

Each node type has a handler that can count, iterate, sample and list the
children of its nodes. Dispatch picks the first handler that accepts a node.
Counting multiplies the counts of the children. Exhaustive iteration is the
lexicographic cartesian product of the children's variations. Sampling picks
every choice at random. `generate` chooses `amount` variations by mode. For
each variation it then runs a second pass. That pass walks the variation and
fills every `!ProcIf` placeholder (a `MutablePlaceholder`) against the
variation; a fill may fill other placeholders on the way. It then resolves
the template's `!ProcIfLabels` rules. Each resolved label is added to the
variation's `Meta`.

Modules, one per file:

| file | module | models |
|---|---|---|
| outcomes.dfy | `Outcomes` | `Option`, `Result` and the errors the engine raises |
| strings.dfy | `Strings` | `str.split`, `"".join`, `str.isdigit`, `int(...)` |
| meta.dfy | `Metadata` | the `Meta` class (a label list that only grows) |
| tags.dfy | `Tags` | the tree (`Node`), `get_id`, the `__getitem__` methods, `new_labelled_option`, the `Range` class |
| util.dfy | `Util` | `product`, `COLORS`, the `MutablePlaceholder` class |
| handlers.dfy | `Handlers` | `HANDLERS`, `get_node_handler`, every handler's count/iterate/sample/children, `extract_meta`, `to_rgb`, `scale_vector3` |
| expansion.dfy | `Expansion` | a reference enumeration (`Canonical`) and what iterate, count and sample promise against it |
| conditions.dfy | `Conditions` | `ConditionResolver` and `ProcIf.__resolve_condition` as functions on a snapshot of the placeholders |
| resolver.dfy | `Resolver` | the same resolver as methods on live `MutablePlaceholder` objects, proved to agree with `Conditions` |
| core.dfy | `Core` | `explain_count_recursive`, `walk_tree` |
| generation.dfy | `Generation` | the body of `generate`: mode selection, the placeholder pass and the label pass |
| findings.dfy | `Findings` | the shared-placeholder discrepancy described under Findings |

Randomness is a parameter. `rng` is an oracle from the draw number to a
natural number, and the `k`-th draw picks `rng(k) % n` among `n` options.
The placeholders of a variation are numbered (`Placeholder(slot, ...)`).
The live objects are a map from slot to `MutablePlaceholder`. Their
abstract state is a `Store` from slot to `Unfilled` or `Filled(value, label)`.

## Model

| member | source | states |
|---|---|---|
| Strings.Split | procgen_companion/handlers.py:588 | splitting yields at least one part and no part contains the separator |
| Strings.JoinSplit | procgen_companion/handlers.py:588 | joining the parts of a split with the separator gives back the original string |
| Strings.DigitsRoundTrip | procgen_companion/handlers.py:597 | reading back the decimal digits of a natural number gives the number |
| Metadata.Meta.constructor | procgen_companion/meta.py:12-14 | a new Meta has no labels |
| Metadata.Meta.WithLabels | procgen_companion/handlers.py:308 | a Meta created with labels holds exactly those labels |
| Metadata.Meta.AddLabel | procgen_companion/meta.py:16-18 | a present label is appended and an absent one changes nothing; the old labels stay a prefix |
| Tags.GetId | procgen_companion/tags.py:62-68 | an id exists iff the mapping tag has an `id` field, and it is that field's value |
| Tags.FieldOf | procgen_companion/tags.py:108-110 | an attribute lookup succeeds iff the name is a field, and returns the value stored under that name |
| Tags.DictLookup | procgen_companion/handlers.py:603 | a lookup fails iff no key matches; otherwise it returns the value stored under the first matching key |
| Tags.Index | procgen_companion/tags.py:108-158 | `value[key]`: a field of a record, the entry of a mapping, an in-range element of a list; never on a scalar tag, a colour or a placeholder |
| Tags.NewLabelledOption | procgen_companion/tags.py:298-304 | succeeds iff the option is a mapping holding both `value` and `label`, whatever the label's type; keeps both; otherwise the assertion fails |
| Tags.NewProcListLabelled | procgen_companion/tags.py:285-286 | succeeds iff every option is well formed, keeping each option in order; otherwise the assertion fails |
| Tags.NewLabelledOptions | procgen_companion/tags.py:286 | the list comprehension over the options keeps their number, and its only failure is the assertion's |
| Tags.NewLabelledOptionsEach | procgen_companion/tags.py:286 | the comprehension succeeds iff every option converts, and then element i is option i's own conversion |
| Tags.NewLabelledOptionsConverted | procgen_companion/tags.py:286 | after a successful comprehension, each element is its option's conversion, in order |
| Tags.NewLabelledOptionsFails | procgen_companion/tags.py:286 | a failed comprehension has an option that does not convert |
| Tags.RangeBounds | procgen_companion/tags.py:232-238 | a range is accepted iff it has exactly two ordered bounds; fewer, more or unordered bounds raise the matching error |
| Tags.Range.Make | procgen_companion/tags.py:232-234 | a constructed range holds the given minimum and maximum |
| Tags.Range.New | procgen_companion/tags.py:232-238 | a range object is made iff the list has exactly two ordered bounds, holding them; otherwise the error `RangeBounds` names (IndexError below two, ValueError above two or when unordered) |
| Tags.Range.GetItem | procgen_companion/tags.py:248-254 | index 0 gives the minimum, 1 the maximum, anything else is out of range, agreeing with indexing the tree node |
| Tags.Range.SetItem | procgen_companion/tags.py:240-246 | index 0 sets only the minimum, 1 only the maximum, anything else fails and changes nothing |
| Tags.Range.Iter | procgen_companion/tags.py:256-257 | iteration yields the minimum and then the maximum |
| Util.DistributeLength | procgen_companion/util.py:30-32 | the outer loop over items times the inner product has `|items| * |tails|` tuples |
| Util.DistributeAt | procgen_companion/util.py:30-32 | tuple `k` of the outer loop is item `k / |tails|` followed by tail `k % |tails|` |
| Util.DistributeMember | procgen_companion/util.py:30-32 | a tuple is produced iff its head is an item and its tail is a tail |
| Util.ProductLength | procgen_companion/util.py:11-32 | the product has as many tuples as the product of the input lengths |
| Util.ProductMember | procgen_companion/util.py:11-32 | a tuple is in the product iff it has one element per input, drawn from that input |
| Util.ProductWidth | procgen_companion/util.py:11-32 | every tuple has one element per input |
| Util.RankBound | procgen_companion/util.py:11-32 | the lexicographic rank of a choice is below the product's size |
| Util.ProductOrder | procgen_companion/util.py:11-32 | the tuple at the lexicographic rank of a choice of indices is exactly that choice: the product is in lexicographic order |
| Util.ProductSingleExample | procgen_companion/util.py:25-32 | `product('ABCD')` gives A, B, C, D |
| Util.ProductPairExample | procgen_companion/util.py:19 | `product('ABCD', 'xy')` gives Ax Ay Bx By Cx Cy Dx Dy, as the docstring says |
| Util.Repeated | procgen_companion/util.py:28 | `iterables * repeat` has `repeat` copies of the inputs and nothing else |
| Util.ProductRepeat | procgen_companion/util.py:25-32 | no inputs give the one empty tuple; a repeat below 1 fails; otherwise the product of the repeated inputs |
| Util.Colors | procgen_companion/util.py:72-73 | ten distinct colours, each channel within 0..255 |
| Util.MutablePlaceholder.constructor | procgen_companion/util.py:85-87 | a new placeholder holds no value and is not filled |
| Util.MutablePlaceholder.CopyOf | procgen_companion/handlers.py:409 | a `deepcopy` of a placeholder holds the value and label its original holds, so it is filled iff the original is |
| Util.MutablePlaceholder.State | procgen_companion/util.py:93-94 | the abstract state is filled iff `is_filled` |
| Util.MutablePlaceholder.Fill | procgen_companion/util.py:89-91 | filling stores the resolved value and label, returns them, and leaves the placeholder filled |
| Util.MutablePlaceholder.GetItem | procgen_companion/util.py:96-99 | indexing an unfilled placeholder fails; a filled one answers with its value's item or fails as that value would |
| Handlers.FirstHandler | procgen_companion/handlers.py:559-563 | the handler returned accepts the node and every handler before it rejects it; no handler accepts a node for which it fails |
| Handlers.GetNodeHandler | procgen_companion/handlers.py:559-563 | the handler found accepts the node |
| Handlers.HandlerOf | procgen_companion/handlers.py:541-556 | the handler table accepts every node kind except references and placeholders, and the handler it names does accept the node; for the two kinds left over no handler accepts it |
| Handlers.HandlersExclusive | procgen_companion/handlers.py:541-556 | no node is accepted by two handlers, so the order of `HANDLERS` does not matter |
| Handlers.DispatchUnique | procgen_companion/handlers.py:559-563 | a handler that accepts a node is the one dispatch returns |
| Handlers.DispatchTotal | procgen_companion/handlers.py:559-563 | dispatch fails exactly on a `!R` range and on a placeholder |
| Handlers.Draw | procgen_companion/handlers.py:285 | a random choice among `n` options is an index below `n` |
| Handlers.ExtractMeta | procgen_companion/handlers.py:74-79 | the Meta returned is new and holds the children's labels concatenated in order |
| Handlers.Palette | procgen_companion/handlers.py:337-339 | iterating a colour yields ten variations |
| Handlers.Children | procgen_companion/handlers.py:116-117 | listing children fails exactly where dispatch does, with `NoHandler` |
| Handlers.ChildrenSmaller | procgen_companion/handlers.py:384-386 | every child is strictly smaller than its parent |
| Handlers.Renumber | procgen_companion/handlers.py:409 | a deep copy draws fresh placeholder identities from the next free number on |
| Handlers.Copies | procgen_companion/handlers.py:409 | `amount - 1` deep copies, none when the amount is below 1 |
| Handlers.Duplicate | procgen_companion/handlers.py:409 | the repeated value comes first, followed by the copies: `max(amount, 1)` elements |
| Handlers.DuplicateAll | procgen_companion/handlers.py:408-410 | every variation of the repeated value is duplicated, one output per input |
| Handlers.EagerErrorRaises | procgen_companion/handlers.py:373-410 | the errors `iterate` raises as soon as it is called, before any variation is pulled (no handler, `.iterate` of a `!ProcIfLabels`, scale labels of the wrong length, also under a repeat choice), are what iteration reports |
| Expansion.CountAllConcat | procgen_companion/handlers.py:57-59 | counting children in two parts gives the product of the parts' counts and fails iff a part fails; the empty product is 1 |
| Expansion.ChoiceListIterate | procgen_companion/handlers.py:284-316 | a choice list iterates its options in declared order, a labelled option carrying exactly its label; as many as it counts; a sample is one of them, and sampling fails iff there are no options |
| Expansion.SampleTimesLength | procgen_companion/handlers.py:438 | a restricted combination samples exactly `amount` times (none below 1) |
| Expansion.IterateLength | procgen_companion/core.py:108-110 | where counting is exact, the count equals the number of variations iterate yields |
| Expansion.IterateProductLength | procgen_companion/handlers.py:57-59 | the product of the children's counts equals the number of combinations |
| Expansion.IterateRestLength | procgen_companion/handlers.py:57-59 | each first choice is combined with every combination of the later children |
| Expansion.ColorCountDiffers | procgen_companion/handlers.py:333-339 | a colour counts its `amount` but always iterates the ten palette colours, in palette order |
| Expansion.RenumberErases | procgen_companion/handlers.py:409 | a deep copy differs from its original only in placeholder identities |
| Expansion.RenumberAllErases | procgen_companion/handlers.py:409 | deep copies of a list differ from the originals only in placeholder identities |
| Expansion.CopiesErase | procgen_companion/handlers.py:409 | the copies equal the copied value up to placeholder identities |
| Expansion.DuplicateErase | procgen_companion/handlers.py:409 | a repeated choice is `max(amount, 1)` equal values up to identities |
| Expansion.RepeatedVariations | procgen_companion/handlers.py:408-410 | one repeated variation per variation of the value |
| Expansion.DuplicateAllErase | procgen_companion/handlers.py:408-410 | iterating a repeat choice duplicates each variation of its value, up to identities |
| Expansion.JoinLabelsErase | procgen_companion/handlers.py:74-79 | the labels a combination carries do not depend on placeholder identities |
| Expansion.RebuildErase | procgen_companion/handlers.py:112 | rebuilding commutes with forgetting identities |
| Expansion.RebuildAllErase | procgen_companion/handlers.py:112-113 | rebuilding every combination commutes with forgetting identities |
| Expansion.IterateCanonical | procgen_companion/core.py:98-100 | exhaustive iteration yields, up to placeholder identities, exactly the reference enumeration: the lexicographic product of the children's variations, rebuilt into the container |
| Expansion.IterateProductCanonical | procgen_companion/handlers.py:110-111 | the product over the children's iterators is the product of their reference enumerations |
| Expansion.IterateRestCanonical | procgen_companion/util.py:29-32 | the first child's items, each followed by every combination of the later children |
| Expansion.CanonicalProductIsProduct | procgen_companion/util.py:11-32 | the reference enumeration of a container's children is `product` of their enumerations |
| Expansion.ContainerOrder | procgen_companion/handlers.py:108-113 | the variation at the lexicographic rank of a choice per child is the container rebuilt from those choices, carrying their labels |
| Expansion.IterateProductWidth | procgen_companion/handlers.py:110-111 | every combination has one part per child |
| Expansion.IterateRestWidth | procgen_companion/util.py:30-32 | every combination has one part for the first child and one per later child |
| Expansion.IterateKeepsShape | procgen_companion/handlers.py:108-149 | every variation of a container keeps its kind, its keys and its number of children |
| Expansion.SampleInCanonical | procgen_companion/core.py:103-105 | every sample is, up to identities, one of the variations exhaustive iteration enumerates |
| Expansion.SampleContainer | procgen_companion/handlers.py:99-101 | a sampled container is a member of the container's enumeration |
| Expansion.SampleAllInProduct | procgen_companion/handlers.py:100 | sampling each child yields a member of the product of the children's enumerations |
| Expansion.RestrictIterate | procgen_companion/handlers.py:431-438 | a restricted combination yields exactly `amount` variations, each a variation of its item |
| Expansion.SampleTimesMembers | procgen_companion/handlers.py:438 | the `amount` samples are all variations of the item |
| Expansion.RepeatShape | procgen_companion/handlers.py:408-410 | each variation of a repeat choice is a list of `max(amount, 1)` copies of a variation of the value, carrying its labels |
| Expansion.DuplicateAllHeads | procgen_companion/handlers.py:409 | each duplicated list starts with the original variation itself |
| Expansion.Vector3Iterate | procgen_companion/handlers.py:373-381 | fails iff labels are given with a length other than the scales'; otherwise one vector per scale, the base (or 1,1,1) times the scale, labelled with the scale's label |
| Expansion.UnhandledNode | procgen_companion/handlers.py:559-563 | a node without a handler fails to count, list, iterate and sample |
| Conditions.Visited | procgen_companion/handlers.py:625-648 | the search order starts at the node itself |
| Conditions.FirstWithId | procgen_companion/handlers.py:647-648 | the first node in search order with the id, or none iff no node has it |
| Conditions.FirstWithIdConcat | procgen_companion/handlers.py:647-648 | the first match in two lists is the first list's match if it has one |
| Conditions.FindItemIsFirst | procgen_companion/handlers.py:625-648 | `__find_item` returns the first node, in depth-first pre-order, whose id is the one looked for |
| Conditions.FindFirstIsFirst | procgen_companion/handlers.py:646-648 | the search over the children returns the first match in their combined search order |
| Conditions.NumberOf | procgen_companion/handlers.py:620 | a node is a number iff it is a non-string scalar |
| Conditions.Matches | procgen_companion/handlers.py:617-623 | a range matches iff min <= value <= max; a number matches an equal number; anything else uses equality; comparing a non-number with a number fails |
| Conditions.AllMatch | procgen_companion/handlers.py:581 | true only if every value matches its entry; false only if some value does not |
| Conditions.MatchFrom | procgen_companion/handlers.py:571-585 | the index found is the first case all of whose entries match, after cases that all miss; -1 iff every case misses; an error means some earlier-reached case has the wrong length or cannot be compared |
| Conditions.SameEntriesSameMatch | procgen_companion/handlers.py:571-585 | the search from case `i` depends only on the entries of cases `i` onwards |
| Conditions.BareCaseAsList | procgen_companion/handlers.py:572 | a case that is not a list matches exactly as the one-entry list holding it |
| Conditions.ParseKey | procgen_companion/handlers.py:597 | a segment becomes an index iff it is all digits, otherwise it stays a field name |
| Conditions.IndexRoundTrip | procgen_companion/handlers.py:597 | writing an index as digits and parsing it gives the index back |
| Conditions.FieldRoundTrip | procgen_companion/handlers.py:597 | a non-numeric name parses as that field |
| Conditions.VariableParts | procgen_companion/handlers.py:588 | the item id and the path segments joined with dots give back the variable |
| Conditions.Put | procgen_companion/util.py:89-91 | recording a fill changes that placeholder's state and no other |
| Conditions.Step | procgen_companion/handlers.py:603 | indexing a placeholder uses its filled value and fails when unfilled; other nodes index normally |
| Conditions.WalkFrom | procgen_companion/handlers.py:601-609 | following the path only fills placeholders; every failure on the way is reported as `NonExistentVariable` |
| Conditions.FindVariableF | procgen_companion/handlers.py:587-615 | fails with `IDNotFound` iff no item carries the id, otherwise only with `NonExistentVariable`; placeholders only get filled |
| Conditions.FindAllF | procgen_companion/handlers.py:569 | one value per variable, in order |
| Conditions.ResolveF | procgen_companion/handlers.py:568-585 | one value per variable, and the index returned is what the case loop gives for those values |
| Conditions.ResolveConditionF | procgen_companion/handlers.py:473-496 | mismatched labels and cases fail the assertion; a failed variable lookup fails with that error; a success only fills placeholders |
| Conditions.FillF | procgen_companion/util.py:89-91 | a successful fill leaves the placeholder filled with what it resolved |
| Conditions.ResolveLabelsF | procgen_companion/handlers.py:522-538 | mismatched labels and cases fail the assertion; a failed variable lookup fails with that error; otherwise the label added is one of the rule's labels or its default |
| Conditions.FirstMatchWins | procgen_companion/handlers.py:571-582 | the first fully matching case after misses is the one returned, whatever follows |
| Conditions.MatchFromSkips | procgen_companion/handlers.py:571-582 | the loop steps over missing cases to the first match |
| Conditions.NoMatchGivesMinusOne | procgen_companion/handlers.py:585 | when every case misses, the loop ends with -1 |
| Conditions.LaterCasesIgnored | procgen_companion/handlers.py:571-582 | once a case matches, the cases after it, malformed ones included, change nothing |
| Conditions.ResolveConditionPicks | procgen_companion/handlers.py:478-496 | when case `j` is the first case that matches, the result is `then[j]` with `labels[j]` (no label when labels are absent or empty), and a `then` shorter than `j` fails with IndexError |
| Conditions.ResolveConditionDefault | procgen_companion/handlers.py:479-494 | when no case matches, the result is the default with the default label; it fails with `MissingCase` iff there is no default, or labels but no default label |
| Conditions.ResolveLabelsPicks | procgen_companion/handlers.py:526-538 | when case `j` is the first case that matches, the rule adds `labels[j]` |
| Conditions.ResolveLabelsDefault | procgen_companion/handlers.py:528-536 | when no case matches, the rule adds its default; it fails with `MissingCase` iff there is none |
| Resolver.GetItem | procgen_companion/handlers.py:603 | indexing on live objects agrees with `Conditions.Step` on their states |
| Resolver.Fill | procgen_companion/util.py:89-91 | filling on live objects agrees with `Conditions.FillF`, including the nested fills |
| Resolver.StoreFilled | procgen_companion/util.py:90 | storing a resolved pair changes that one placeholder to filled with that value and label, and no other placeholder |
| Resolver.ResolveCondition | procgen_companion/handlers.py:473-496 | `__resolve_condition` on live objects agrees with `Conditions.ResolveConditionF` and leaves the objects in the states it computes |
| Resolver.FindAll | procgen_companion/handlers.py:569 | the lookups, in order, agree with `Conditions.FindAllF` |
| Resolver.Resolve | procgen_companion/handlers.py:568-585 | `resolve` on live objects agrees with `Conditions.ResolveF` |
| Resolver.MatchCasesM | procgen_companion/handlers.py:571-585 | the case loop returns what `Conditions.MatchCases` specifies |
| Resolver.FindVariable | procgen_companion/handlers.py:587-615 | `__find_variable` on live objects, filling unfilled placeholders on the way, agrees with `Conditions.FindVariableF` |
| Resolver.Advance | procgen_companion/handlers.py:603-609 | one step along the path: a missing key, or a placeholder met unfilled whose fill fails, is `NonExistentVariable`; on success the item is what indexing gives, the store only grows, and a placeholder met there ends up filled |
| Resolver.AdvanceOn | procgen_companion/handlers.py:604-607 | one step on live objects agrees with `Resolver.Advance` and leaves the objects in the state it computes |
| Resolver.FillOnPath | procgen_companion/handlers.py:605-609 | an unfilled placeholder met on the path is filled as `Conditions.FillF` says; a failed fill is reported as `NonExistentVariable` |
| Resolver.WalkOn | procgen_companion/handlers.py:602-609 | the loop over the path on live objects agrees with `WalkFrom` |
| Resolver.ResolveLabels | procgen_companion/handlers.py:522-538 | agrees with `Conditions.ResolveLabelsF`; on success exactly the chosen label is appended to the Meta, on failure the Meta is unchanged |
| Core.ExplainAll | procgen_companion/core.py:127 | one explanation per child |
| Core.NonEmpty | procgen_companion/core.py:128 | empty explanations are dropped and every non-empty one is kept: a string is in the result iff it is a non-empty explanation |
| Core.Render | procgen_companion/core.py:133 | a factor reads `count#tag` |
| Core.JoinEmpty | procgen_companion/core.py:114-116 | joining non-empty strings is empty iff there are none |
| Core.JoinHasMark | procgen_companion/core.py:133 | a join of factors shows at least one `#` |
| Core.ExplanationFactors | procgen_companion/core.py:120-136 | the explanation exists iff the count does; it lists the factors `count#tag` joined with " x ", and the count is the product of those factors |
| Core.ExplainAllFactors | procgen_companion/core.py:125-128 | the explanations of a node's children list the children's factors, and their product is the children's count |
| Core.NoVariationsExactly | procgen_companion/core.py:113-117 | the explanation is "No variations" iff the template has no counted procedural tag |
| Core.WalkTree | procgen_companion/core.py:139-146 | the walk visits the node first; a callback that says stop ends the walk there; a node without children-listing stops it |
| Core.VisitedSlotsConcat | procgen_companion/core.py:146 | the placeholders visited by consecutive walks are the union |
| Core.WalkReachesSlots | procgen_companion/core.py:139-146 | a complete walk that stops at placeholders visits every placeholder of the tree |
| Core.WalkAllReaches | procgen_companion/core.py:146 | the walks over the children visit every placeholder below them |
| Generation.LabelOf | procgen_companion/meta.py:17-18 | a label adds one entry, none adds nothing |
| Generation.FillNode | procgen_companion/core.py:76-88 | the callback only fills placeholders; non-placeholders change nothing and add no label |
| Generation.FillNodeFills | procgen_companion/core.py:80-85 | after the callback a placeholder is filled |
| Generation.FillNodeCases | procgen_companion/core.py:80-87 | a filled placeholder contributes its stored label without resolving again; an unfilled one is resolved against the variation and contributes the new label |
| Generation.FillVisits | procgen_companion/core.py:89 | the callback over the visited nodes only fills placeholders |
| Generation.FillVisitsConcat | procgen_companion/core.py:89 | the fills of consecutive visits run on, from the state the first ones leave |
| Generation.FillVisitsFills | procgen_companion/core.py:76-89 | every placeholder visited is filled afterwards |
| Generation.PassF | procgen_companion/core.py:76-89 | the placeholder pass only fills placeholders |
| Generation.PassFillsAll | procgen_companion/core.py:76-89 | after the placeholder pass every placeholder of the variation is filled |
| Generation.RulesF | procgen_companion/core.py:92-93 | the label pass only fills placeholders |
| Generation.RulesLabels | procgen_companion/core.py:92-93 | the label pass adds one label per rule, in rule order; label `i` is exactly what rule `i` resolves to (`RuleChoice`) in the store the earlier rules leave, which is one of its labels or its default |
| Generation.RulesLabelAt | procgen_companion/core.py:92-93 | the `i`-th label of the pass is the `i`-th rule's own resolution after the rules before it |
| Generation.ApplyRule | procgen_companion/core.py:92 | one rule on live objects: its label is appended to the Meta, and the rest of the pass is `RulesF` from the rule after it; a failure is the failure of the pass |
| Generation.MaterializeAll | procgen_companion/util.py:101-105 | writing out a list keeps its length |
| Generation.MaterializeFixed | procgen_companion/util.py:101-105 | a tree without placeholders is written out unchanged |
| Generation.MaterializeAllFixed | procgen_companion/util.py:101-105 | a list without placeholders is written out unchanged |
| Generation.VariationF | procgen_companion/core.py:70-95 | one variation's passes only fill placeholders |
| Generation.OutputLabels | procgen_companion/core.py:70-95 | the output keeps the variation's own labels first and ends with one label per rule, label `i` being what rule `i` resolves to after the placeholder pass and the rules before it |
| Generation.OutputFilled | procgen_companion/core.py:76-95 | after a variation's passes every one of its placeholders is filled |
| Generation.SampleStream | procgen_companion/core.py:61 | sampling stops at the first error and otherwise yields exactly `amount` variations |
| Generation.Stream | procgen_companion/core.py:60-66 | without error the mode chooses exactly `amount` variations, never more |
| Generation.AdmitConcat | procgen_companion/handlers.py:408-410 | meeting the placeholders of a variation in two stretches is meeting them all at once |
| Generation.AdmitKeeps | procgen_companion/handlers.py:408-410 | objects met before keep their state, and the objects after a variation is met are the earlier ones plus that variation's |
| Generation.AdmitNew | procgen_companion/handlers.py:409 | a placeholder met for the first time starts unfilled, or, if it is a deep copy, with the state its original has at that moment |
| Generation.AdmitCopies | procgen_companion/handlers.py:409 | a deep copy made when the variation is pulled holds the same value and label as its original at that moment, filled if the original was |
| Generation.PassAll | procgen_companion/core.py:70-95 | the passes stop at the first error and otherwise yield one output per variation |
| Generation.GenerateF | procgen_companion/core.py:35-95 | a run yields at most `amount` variations, exactly `amount` if it ends without error; an unknown mode yields nothing and fails |
| Generation.SampledAreVariations | procgen_companion/core.py:61 | every variation sample mode yields is, up to identities, one of the template's enumerated variations |
| Generation.ExhaustiveTakesPrefix | procgen_companion/core.py:63-64 | exhaustive mode yields the first `amount` enumerated variations, and fails after all of them when `amount` is larger |
| Generation.FreshIndependent | procgen_companion/core.py:70-95 | with fresh objects, each output is what that variation's passes give on their own |
| Generation.FreshFailure | procgen_companion/core.py:70-95 | with fresh objects, a failure is the failure of the first variation whose own passes fail |
| Generation.FillPlaceholder | procgen_companion/core.py:76-88 | `fill_placeholder` on live objects agrees with `FillNode`, adds its label to the Meta and tells the walk to stop exactly at placeholders |
| Generation.PlaceholderLabel | procgen_companion/core.py:80-85 | the label a placeholder gives is the stored one when it is already filled, otherwise the one a fresh fill chooses; either way it and the new object states agree with `FillNode`, and an error is the fill's error |
| Generation.WalkStops | procgen_companion/core.py:142-143 | the walk stops at a placeholder, after its callback |
| Generation.WalkBlocked | procgen_companion/core.py:144-146 | a node whose children cannot be listed ends the walk |
| Generation.WalkInto | procgen_companion/core.py:144-146 | the walk over a node continues with the walks over its children |
| Generation.WalkFill | procgen_companion/core.py:89 | `walk_tree(variation, fill_placeholder)` on live objects agrees with the specification of the walk and the fills, and the Meta gains exactly the labels it computes |
| Generation.WalkFillAll | procgen_companion/core.py:146 | the walks over the children on live objects agree with their specification |
| Generation.WalkChildren | procgen_companion/core.py:144-146 | when the callback lets the walk go on at a node with a handler, walking its children on live objects is the walk from that node: same answer, same fills, same labels |
| Generation.ApplyRules | procgen_companion/core.py:92-93 | the label pass on live objects agrees with `RulesF` and appends exactly the labels it computes to the Meta |
| Generation.PassOne | procgen_companion/core.py:70-95 | one variation's passes on live objects agree with `VariationF` |
| Generation.Allocate | procgen_companion/util.py:85-87 | one new, distinct, unfilled placeholder object per identity |
| Generation.PassNext | procgen_companion/core.py:70-95 | the next variation's passes on live objects agree with the specification; shared objects carry their new states on, and copies made for the variation take their original's state |
| Generation.AdmitObjects | procgen_companion/handlers.py:408-410 | on live objects, meeting a variation's placeholders creates one new object per new placeholder, in the states `Admit` gives, and keeps the old ones |
| Generation.AdmitObject | procgen_companion/handlers.py:409 | one placeholder met on live objects, as `AdmitOne` says |
| Generation.PassVariations | procgen_companion/core.py:70-95 | the loop over the chosen variations on live objects yields what `PassAll` specifies |
| Generation.Generate | procgen_companion/core.py:35-95 | `generate` on live objects yields what `GenerateF` specifies |
| Findings.TemplateIterates | procgen_companion/util.py:29-32 | the example template iterates to two variations that share placeholder 0 |
| Findings.BoxXParts | procgen_companion/handlers.py:588-597 | `box.x` is item `box`, path `x` |
| Findings.Resolves | procgen_companion/handlers.py:473-496 | the example conditional resolves to "one" when x is 1 and to "other" otherwise |
| Findings.ResolvedPass | procgen_companion/core.py:76-95 | an unfilled placeholder is resolved against the variation itself |
| Findings.StalePass | procgen_companion/core.py:80-83 | a filled placeholder keeps its old value and label, whatever the variation |
| Findings.ChoosesBoth | procgen_companion/core.py:63-64 | exhaustive mode chooses both variations, with one placeholder between them |
| Findings.SharedReusesFirstResolution | procgen_companion/core.py:80-83 | as written: the second variation is written out and labelled "one" although its x is not 1 |
| Findings.FreshResolvesEach | procgen_companion/core.py:76-95 | corrected: with a placeholder per variation the second variation is resolved to "other" |

## Left out

- Reading and writing YAML, the command-line front ends and file naming are not modelled. The trees are given as values, and writing out is `Generation.Materialize`.
- Template preparation (`get_proc_meta`, `del_proc_meta`, `TemplateMeta.default`) is not part of this model. The `!ProcIfLabels` rules are an input of `generate`.
- Randomness (`random.choice`, `random.randint`) is an oracle parameter `rng`. Seeding (`init`) is not modelled. The draws are numbered in the order the model makes them, which is not always the order Python makes its calls: a `!ProcRestrictCombinations` takes all its `amount` samples at once, where its lazy generator (procgen_companion/handlers.py:438) under `product` interleaves them with the draws of the later children. The set of possible outputs is the same; the output for a given draw sequence can differ.
- Numbers are Dafny reals, not floating point. Rounding in `scale_vector3` is not modelled. A `!ProcVector3Scaled` base holds three numbers, so a base whose `x`, `y` or `z` is a string or a tag cannot be written, and the `TypeError` `scale_vector3` raises for it (procgen_companion/handlers.py:389-390) has no counterpart.
- Conditions.Matches: numbers are compared by exact equality. The tolerance of `math.isclose` (relative 1e-9) is not modelled.
- Conditions.FillF: nested fills are bounded by `MaxFillDepth` (150). Past that bound a lookup fails with `NonExistentVariable`, which stands for the `RecursionError` of a conditional that depends on itself.
- Generation.Stream: the chosen variations are computed before the passes run, where Python pulls each one only after the passes over the one before. The `deepcopy` a `!ProcRepeatChoice` makes is therefore given its state when the passes first meet it (`Generation.Admit`): it holds what its original holds at that moment, as in Python. What stays different: when exhaustive iteration raises while a later variation is pulled, the model reports that error with no outputs, where Python first yields the variations before it.
- Generation.Stream: asking for more variations than exhaustive iteration has is reported as `IterationExhausted`, standing for the `RuntimeError` raised by `next` on the finished iterator.
- `ProcIf` declares its variable field as `variable` (procgen_companion/tags.py:359, 374), and the loader refuses any other key (procgen_companion/tags.py:86-89), but the handler reads `node.value` (procgen_companion/handlers.py:470, 474, 481, 485). As written, a `!ProcIf` either fails to load or fails in its handler. The model follows the handler: the field is `value` (`Tags.Conditional.variable`), and `Tags.Index` answers it under `value`.
- YAML null is not modelled: `Tags.Scalar` has no null. So a `then` value or default that is null, or a field that holds None (a `!ProcVector3Scaled` without `base`), cannot be written; `Tags.Index` reads such a field as missing.
- Util.MutablePlaceholder.Fill: always leaves the placeholder filled. In Python `is_filled` is `value is not None` (procgen_companion/util.py:93-94), so a conditional that resolves to null stays unfilled and is resolved again at each later lookup; without null this cannot arise in the model.
- Conditions.ParseKey: only the ASCII digits 0-9 make an index. Python's `str.isdigit` (procgen_companion/handlers.py:597) also accepts other Unicode digits, such as Arabic-Indic ones, which `int` then reads.
- Tags.DictLookup: a mapping may hold keys that Python treats as equal (`1`, `1.0` and `true`). A Python dict keeps only the first such key, with the last value given for it; the model keeps every entry and answers with the first one's value.
- `deepcopy` is modelled by renumbering placeholders in the copy. Object identity is otherwise a placeholder number.
- `Meta(labels=[...])` is called in procgen_companion/handlers.py:308, 316, 365 and 381, but `Meta.__init__` (procgen_companion/meta.py:12) takes no labels. The model follows the evident intent, a Meta holding those labels (`Metadata.Meta.WithLabels`).
- The commented-out `choices` of `Meta` are not modelled.
- Error messages and the node annotation of `NodeAnnotatedProcGenError` are not modelled. Each error is one constructor of `Outcomes.Error`.
- The assertion in `ProcIf.__init__` (procgen_companion/tags.py:379-380) that makes `default_label` a string is not modelled, so the missing-default-label branch (procgen_companion/handlers.py:487) stays reachable in the model.
- Expansion.IterateLength: stated only for templates whose counts are exact (`CountExact`). `!ProcColor` counts `amount` but iterates ten colours (`Expansion.ColorCountDiffers`), and `!ProcRestrictCombinations` iterates samples.

## Findings

| source | as written | input that shows it | evidently intended | confidence | as-written member | corrected member |
|---|---|---|---|---|---|---|
| procgen_companion/core.py:80-83 | In exhaustive mode `product` calls the first child's iterator once and reuses each of its items with every combination of the later children. A `!ProcIf` placeholder there is one object shared by several variations. The first variation's pass fills it; later passes find it filled and keep its value and label. | Template `[!ProcIf {value: box.x, cases: [1], then: [one], default: other, labels: [one], default_label: other}, !Vector3 {id: box, x: !ProcList [1, w]}]` with `w != 1`, the conditional's field written `value` as its handler reads it (see Left out), exhaustive mode, amount 2: the second variation is written and labelled "one" | each variation's conditionals are resolved against that variation, giving "other" for the second | not executed | Findings.SharedReusesFirstResolution | Findings.FreshResolvesEach |
