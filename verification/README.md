# AWS instance explorer: a Dafny model of the instance chart

The instance explorer draws the EC2 instances of an AWS account as a
force-directed graph. A root node sits in the centre. Optionally there is one
group node per distinct value of a chosen key path (by default the instance
type), and one node per instance. The user can filter instances by six kinds
of rules, group and colour them by any key path, and supply credentials. All
settings are saved in the browser.

This project models the data side of that chart, in two versions.

- **`AwsInstanceChart`** (aws-instance-chart.js), the current chart:
  - the dotted key lookup `findKey`;
  - the rule filters `matchesFilter` and `matchesAllFilters`;
  - `update`, which filters the records, clears the node list and the root's children in place, and refills them. It adds one group node per distinct key in first-seen order, each followed by its records, or it puts every record under the root. Then it derives the parent→child links;
  - the keys the renderer joins nodes and links on;
  - the record-building loop of `loadInstanceData`, and the tag-key set behind `getGroupKeys`;
  - the node style getters;
  - the four settings setters, each of which skips a no-change value and then asks for a reload, a rebuild or a redraw.
- **app.js**, the earlier chart:
  - `getInstanceMap`, which files every instance under its `Role` tag;
  - `loadData`, which flattens that dictionary into a root → role → instance node list;
  - its style getters.

Modules, one per file:

| module | file | contents |
|---|---|---|
| `Wrappers` | wrappers.dfy | `Option` and `Result` |
| `Grouping` | grouping.dfy | insertion-ordered sets (a JavaScript `Set`, an object's keys), members of a key, grouping as a permutation |
| `KeyResolver` | key_resolver.dfy | record values, `split`/`join` on dots, `findKey`, `String(v)`, loose `==` |
| `Ec2` | ec2.dfy | the `describeInstances` response, the tags dictionary |
| `InstanceRecords` | instance_records.dfy | the chart's instance records, the `getGroupKeys` options |
| `Filters` | filters.dfy | filter rules, `matchesFilter`, `matchesAllFilters`, the filter step of `update` |
| `InstanceTree` | instance_tree.dfy | the node list, root children and links after `update`; node and link keys |
| `ChartStyle` | chart_style.dfy | fill, stroke, radius and link distance |
| `Chart` | chart.dfy | settings, the `InstanceChart` class with its methods and setters |
| `RoleMap` | role_map.dfy | app.js: `getInstanceMap`, `loadData`, its style getters |

Modelling choices:

- **Record values.** A value found in a record is `Absent` (`undefined`), a string, or a nested object.
  - `findKey` walks the path one segment at a time. Stepping into `undefined` throws in the source and is caught. The model returns `Absent` in that case.
- **Failing tests.** A contains or notContains test can throw:
  - `match` is called on a value that is not a string;
  - the pattern does not compile.

  The model gives such a test an explicit error outcome (`FilterError`). The error aborts filtering, and so `update`, before anything is touched. `loadInstanceData` then keeps the new records but not a new tree. `set groupBy` keeps the new key in memory but does not save it.
- **Regular expressions** are an abstract `RegexEngine`, a parameter holding "does the pattern compile" and "does it match".
- **In-place state.** `update` clears and refills `this.nodes` and `rootNode.children` in place, so they are fields of the class `InstanceChart`.
  - `BuildTree`, `BuildGroups` and `AddGroup` follow the source's pushes one at a time. Pushing into a group's `children` is seen through both lists, because the group object is shared. The model replaces the group node in both lists.
  - Each method is proved against the specification functions `TreeNodes`, `RootChildren` and `TreeLinks`. The lemmas of `InstanceTree` state what those functions promise.
- **Saved settings.** `localStorage` is the field `saved`: the blob last written by `saveSettings`.
- **Effects.** Reloading, rebuilding and redrawing are returned as an `Action` for the caller to carry out.
- **Group keys.** Within a single `update`, on records as `loadInstanceData` builds them, the key paths resolved on different records are either all objects (the path `tags`) or all not objects. So the loose `==` that fills a group agrees with the `Set` that collected the keys, and a record never lands in two groups. This is proved (`InstanceRecords.LooseEqAtSamePath`, `InstanceTree.GroupsByKey`), not assumed.

## Model

| member | source | states |
|---|---|---|
| KeyResolver.Split | aws-instance-chart.js:140 | splitting on dots yields at least one segment, and no segment holds a dot |
| KeyResolver.SplitWithoutDot | aws-instance-chart.js:140 | a key without a dot is a single segment, so `findKey` is then a plain property lookup |
| KeyResolver.SplitAtDot | aws-instance-chart.js:140 | the segments of `p.q` are the segments of `p` followed by those of `q` |
| KeyResolver.JoinSplit | aws-instance-chart.js:140 | joining the segments of a path with dots gives the path back |
| KeyResolver.SplitJoin | aws-instance-chart.js:140 | splitting a dot-join of dot-free segments gives the segments back |
| KeyResolver.Index | aws-instance-chart.js:140 | no contract; definition: one step `o[i]` of the reduce: on `undefined` it throws (`None`); on a string it gives `undefined`; on an object it gives the property, or `undefined` when the property is missing |
| KeyResolver.Walk | aws-instance-chart.js:140 | no contract; definition: the reduce over the segments, starting from the record; it is `None` from the first step that throws (properties in `WalkAppend` and `FindKeyAtDot`) |
| KeyResolver.FindKey | aws-instance-chart.js:138-144 | total: a lookup in `undefined` gives `undefined` instead of throwing; a dot-free key on an object is that property, or `undefined` when it is missing |
| KeyResolver.WalkAppend | aws-instance-chart.js:140 | reducing over `a + b` is reducing over `a`, then over `b` from where it stopped; a throw in `a` is final |
| KeyResolver.FindKeyAtDot | aws-instance-chart.js:138-144 | resolving `p.q` resolves `p`, then `q` inside what was found |
| KeyResolver.FindKeyInString | aws-instance-chart.js:140 | in the model a string has no properties, so any path inside a string gives `undefined` (see `KeyResolver.FindKey` under Left out) |
| KeyResolver.FindKeyNested | aws-instance-chart.js:131-144 | the documented example, in the intended argument order `findKey("tags.Role", obj)`: `tags.Role` finds the `Role` entry of the `tags` object, whatever else the record holds. The doc comment passes the two arguments the other way round; as written that call gives `undefined`, because `split` on an object throws and the throw is caught |
| KeyResolver.JsString | aws-instance-chart.js:227 | a string converts to itself |
| KeyResolver.LooseEq | aws-instance-chart.js:165 | between two values of the same kind (both objects or neither), `==` is equality; a string equals an object only when both stringify to `[object Object]` |
| Grouping.Insert | aws-instance-chart.js:256 | `Set.add`: the element is present afterwards, nothing else is added, nothing already present moves, and no element occurs twice |
| Grouping.InsertAll | aws-instance-chart.js:254-257 | adding a list to a set keeps what was there, adds exactly the list's elements and creates no duplicate |
| Grouping.Dedup | aws-instance-chart.js:254-257 | the set of a list's elements holds each element exactly once and is no longer than the list |
| Grouping.DedupLength | aws-instance-chart.js:254-257 | the set is no larger than the list it was built from |
| Grouping.InsertAllAppend | aws-instance-chart.js:344-359 | adding two lists in turn equals adding their concatenation |
| Grouping.IndexOf | aws-instance-chart.js:127 | `indexOf` finds the first occurrence: the element is there, and not before |
| Grouping.FirstOccurrence | aws-instance-chart.js:127 | any position holding the first occurrence is the one `indexOf` returns |
| Grouping.DedupFirstSeen | aws-instance-chart.js:254-260 | a `Set` iterates its elements in order of first insertion |
| Grouping.Keys | aws-instance-chart.js:255-257 | one key per element, in order |
| Grouping.Members | aws-instance-chart.js:270-275 | the members of a key are exactly the elements with that key, at most as many as the list |
| Grouping.SameMembers | aws-instance-chart.js:271 | two membership tests that agree on every element select the same members in the same order |
| Grouping.GatheredSnoc | aws-instance-chart.js:270-274 | one more element joins only the group of its own key |
| Grouping.MembersSnoc | aws-instance-chart.js:270-274 | appending an element extends only its own key's members |
| Grouping.MembersOfUnusedKey | aws-instance-chart.js:270-274 | a key no element has collects no members |
| Grouping.Partition | aws-instance-chart.js:260-276 | the members of each distinct key, key after key, are a permutation of the input: nothing lost, nothing duplicated |
| Grouping.PartitionStep | aws-instance-chart.js:260-276 | the permutation property survives one more element |
| Grouping.NewGroup | aws-instance-chart.js:260-276 | an element with an unseen key forms a new group after the others |
| Grouping.PartitionLength | aws-instance-chart.js:260-276 | grouping keeps the number of elements |
| Ec2.TagMap | aws-instance-chart.js:352-356 | the tags object has exactly the keys of the tag list |
| Ec2.InstancesOf | aws-instance-chart.js:344-345 | no contract; definition: every instance of every reservation, in response order |
| Ec2.AllTagKeys | aws-instance-chart.js:344-356 | no contract; definition: the tag keys in the order the reduce meets them, repeats included |
| Ec2.TagMapLastWins | aws-instance-chart.js:354 | for a repeated tag key, the value of the last tag with that key is kept |
| Ec2.AllTagKeysAppend | aws-instance-chart.js:344-359 | the tag keys of two instance lists are those of the first followed by those of the second |
| Ec2.AllTagKeysSnoc | aws-instance-chart.js:345-356 | one more instance adds its own tag keys at the end |
| InstanceRecords.AsValue | aws-instance-chart.js:347-357 | a record is an object with exactly the fields `id`, `nodeType`, `instanceId`, `instanceType` and `tags`; `id` and `instanceId` both hold the instance id and `nodeType` is `instance` |
| InstanceRecords.ToRecord | aws-instance-chart.js:347-357 | no contract; definition: the record pushed for one instance: its id, its type, and its tags folded by `TagMap`. `AsValue` adds the fields `id` and `nodeType` |
| InstanceRecords.RecordsOf | aws-instance-chart.js:337-359 | no contract; definition: `this.instances` after the loops: one record per instance of the response |
| InstanceRecords.TagKeysOf | aws-instance-chart.js:341-356 | no contract; definition: `this.allTagKeys` after the loops: every tag key seen, once, in first-seen order |
| InstanceRecords.Records | aws-instance-chart.js:344-359 | one record per instance of the response, in response order |
| InstanceRecords.RecordsAppend | aws-instance-chart.js:344-359 | the records of two instance lists are concatenated |
| InstanceRecords.RecordFields | aws-instance-chart.js:347-357 | through `findKey`, `id` and `instanceId` give the id, `nodeType` gives `instance`, `instanceType` gives the type and `tags` the tags object |
| InstanceRecords.IdField | aws-instance-chart.js:348 | `findKey("id")` gives the instance id |
| InstanceRecords.InstanceIdField | aws-instance-chart.js:350 | `findKey("instanceId")` gives the instance id |
| InstanceRecords.NodeTypeField | aws-instance-chart.js:349 | `findKey("nodeType")` gives `instance` |
| InstanceRecords.InstanceTypeField | aws-instance-chart.js:351 | `findKey("instanceType")` gives the instance type |
| InstanceRecords.TagsField | aws-instance-chart.js:352 | `findKey("tags")` gives the tags object |
| InstanceRecords.PlainField | aws-instance-chart.js:138-144 | a dot-free field name resolves to that field of the record |
| InstanceRecords.GroupKeyOptions | aws-instance-chart.js:386-388 | `instanceId`, `instanceType`, then `tags.<key>` for each tag key in order; when the tag keys are distinct, so are the options |
| InstanceRecords.TagOptions | aws-instance-chart.js:387 | one `tags.<key>` option per tag key, in order |
| InstanceRecords.OptionsDistinct | aws-instance-chart.js:387 | distinct tag keys give distinct options, none equal to the two field options |
| InstanceRecords.TagOptionResolves | aws-instance-chart.js:387 | for a tag key without a dot, the option `tags.<key>` finds that tag's value on every record, or `undefined` where the tag is absent |
| InstanceRecords.DottedTagOptionMisses | aws-instance-chart.js:387 | on every record, a tag key with a dot (such as `kubernetes.io/cluster`) is offered as an option, yet the option never finds the tag it names: the path splits at the key's first dot |
| InstanceRecords.DottedKeyMisses | aws-instance-chart.js:140 | `tags.a.b` looks up a tag named `a` and then `b` inside its value, which gives `undefined` whether or not there is such a tag (a tag value is a string, see `KeyResolver.FindKey` under Left out) |
| InstanceRecords.WalkFromScalar | aws-instance-chart.js:140 | from a string or `undefined`, no path reaches an object |
| InstanceRecords.ObjectOnlyAtTags | aws-instance-chart.js:138-144 | on a record, a path resolves to an object exactly when it is `tags` |
| InstanceRecords.LooseEqAtSamePath | aws-instance-chart.js:271 | two records' values at the same path are loosely equal exactly when they are equal |
| Filters.Search | aws-instance-chart.js:175 | `a.match(new RegExp(b))` succeeds exactly when `a` is a string and `b` compiles, and then gives the engine's answer |
| Filters.Test | aws-instance-chart.js:165-182 | equals is `a == b`; notEquals is `a != b`; contains is the search; notContains is its negation; only the last two can throw, and exactly on a non-string or a bad pattern |
| Filters.Outcome | aws-instance-chart.js:151-154 | no contract; definition: one rule's test, applied to `findKey(key, obj)` and the rule's expected value |
| Filters.RulesPass | aws-instance-chart.js:149-158 | no contract; definition: `matchesFilter`'s result. It checks the rules in order: `true` once none is left, and it stops at the first `false` or the first throw (properties in `RulesPassAll`, `RulesFailAtFirst` and `RulesErrFromRule`) |
| Filters.AllSet | aws-instance-chart.js:185-187 | no contract; definition: every `set` key resolves to something other than `undefined` |
| Filters.NoneSet | aws-instance-chart.js:190-192 | no contract; definition: every `notSet` key resolves to `undefined` |
| Filters.MatchesAll | aws-instance-chart.js:163-195 | no contract; definition: `matchesAllFilters`' result. It checks equals, notEquals, contains and notContains in that order, each only when the earlier ones passed, then set and notSet (properties in `MatchesAllIff` and `ErrorsOnlyFromPatterns`) |
| Filters.Matches | aws-instance-chart.js:244 | no contract; definition: the callback `d => this.matchesAllFilters(d)` given to `filter` |
| Filters.Filtered | aws-instance-chart.js:244 | no contract; definition: `instances.filter(...)`. It keeps the passing records in order, and the first throw, scanning from the front, aborts it (properties in `FilteredOkIff` and `FilteredKeepsPassing`) |
| Filters.MatchesFilter | aws-instance-chart.js:149-158 | the loop returns what `RulesPass` specifies: rules in order, stopping at the first that fails or throws |
| Filters.RulesPassAll | aws-instance-chart.js:149-158 | a rule list passes exactly when every rule passes; in particular, an empty list passes |
| Filters.RulesFailAtFirst | aws-instance-chart.js:150-155 | a rule list fails exactly when some rule fails and every earlier rule passes |
| Filters.FailureIndex | aws-instance-chart.js:150-155 | a failing list has a first failing rule, with every earlier rule passing |
| Filters.FailureStops | aws-instance-chart.js:150-155 | a first failing rule makes the list fail, whatever the later rules would do |
| Filters.RulesErrFromRule | aws-instance-chart.js:149-158 | a rule list throws only if one of its rules throws |
| Filters.AndThen | aws-instance-chart.js:165-182 | the six categories are checked in order: the whole passes when both parts pass, and throws only if the first throws or passes and the second throws |
| Filters.MatchesAllFilters | aws-instance-chart.js:163-195 | the method returns what `MatchesAll` specifies |
| Filters.AllKeysSet | aws-instance-chart.js:185-187 | passes exactly when every `set` key resolves to a defined value |
| Filters.NoKeysSet | aws-instance-chart.js:190-192 | passes exactly when every `notSet` key resolves to `undefined` |
| Filters.MatchesAllIff | aws-instance-chart.js:163-195 | a record passes exactly when every rule of each of the six categories passes |
| Filters.NoFiltersPass | aws-instance-chart.js:163-195 | with the default, all-empty `filterBy`, every object passes |
| Filters.MoreRulesPassLess | aws-instance-chart.js:163-195 | adding rules never lets through an object that was not let through before |
| Filters.SubKeyLists | aws-instance-chart.js:185-192 | fewer `set`/`notSet` keys are met whenever more are |
| Filters.SubRuleList | aws-instance-chart.js:149-158 | a sub-list of passing rules passes |
| Filters.ErrorsOnlyFromPatterns | aws-instance-chart.js:175-180 | filtering throws only through a contains or notContains rule whose value is not a string or whose pattern does not compile |
| Filters.FilterInstances | aws-instance-chart.js:244 | the filter step returns what `Filtered` specifies: the passing records, or the first error |
| Filters.FilteredErrSticks | aws-instance-chart.js:244 | once a prefix throws, the whole filter throws that same error |
| Filters.FilteredOkIff | aws-instance-chart.js:244 | filtering succeeds exactly when no record's test throws |
| Filters.FilteredKeepsPassing | aws-instance-chart.js:244 | when it succeeds, filtering keeps exactly the passing records, in their original order |
| Filters.NoFiltersKeepAll | aws-instance-chart.js:244 | under the default filters every record is kept |
| Filters.AllPassKeepsAll | aws-instance-chart.js:244 | when every record passes, the filtered list is the whole list |
| InstanceTree.Leaves | aws-instance-chart.js:279-282 | one record node per record, in order |
| InstanceTree.Grouped | aws-instance-chart.js:252 | no contract; definition: `settings.groupBy` is truthy: set, and not the empty string |
| InstanceTree.GroupKeyOf | aws-instance-chart.js:256 | no contract; definition: a record's group key, `findKey(groupBy, instance)` |
| InstanceTree.GroupKeys | aws-instance-chart.js:254-257 | no contract; definition: the `groupKeys` set: the records' keys, each once, in first-seen order (properties in `GroupKeysAreKeys` and `GroupNodesAreGroups`) |
| InstanceTree.LooselyEquals | aws-instance-chart.js:271 | no contract; definition: a group's membership test, `findKey(groupBy, instance) == k` |
| InstanceTree.GroupOf | aws-instance-chart.js:260-275 | no contract; definition: the group node of key `k` once the inner loop is done: its id is `k`, and its children are the records that pass the membership test, in filter order |
| InstanceTree.Expand | aws-instance-chart.js:266-274 | no contract; definition: the node list after the root when grouping: each group node followed by its records |
| InstanceTree.TreeNodes | aws-instance-chart.js:246-283 | no contract; definition: `this.nodes` after `update`: the root, then either the groups each followed by their records, or the records (properties in `GroupedTree` and `UngroupedTree`) |
| InstanceTree.RootChildren | aws-instance-chart.js:246-283 | no contract; definition: `rootNode.children` after `update`: the group nodes, or the records when not grouping |
| InstanceTree.ChildrenOf | aws-instance-chart.js:286 | no contract; definition: a node's `children` array as the links read it: the root's children, a group's records, and none for a record |
| InstanceTree.TreeLinks | aws-instance-chart.js:286 | no contract; definition: `this.links`: for each node in list order, one link to each of its children (properties in `LinksCoverTree` and `LinksFollowChildren`) |
| InstanceTree.NodeKey | aws-instance-chart.js:201 | no contract; definition: the join key `d.id`, as a string: `root` for the root, `String(k)` for a group of key `k`, the instance id for a record (properties in `UngroupedKeysDistinct` and `GroupKeyIsId`) |
| InstanceTree.LinkKey | aws-instance-chart.js:226-228 | no contract; definition: the join key `source.id + ":" + target.id` (property in `LinkKeyInjective`) |
| InstanceTree.GroupNodes | aws-instance-chart.js:260-268 | one group node per key, in key order |
| InstanceTree.LinksFrom | aws-instance-chart.js:286 | one link from a parent to each of its children, in order |
| InstanceTree.Targets | aws-instance-chart.js:286 | the target of each link, in order |
| InstanceTree.GroupsByKey | aws-instance-chart.js:270-275 | for a key some record has, the loose comparison selects exactly the records whose key equals it |
| InstanceTree.GroupNodesAreGroups | aws-instance-chart.js:252-276 | the group keys are distinct, are exactly the records' keys, and come in first-seen order; each group holds exactly the records of its key, in filter order |
| InstanceTree.GroupKeysAreKeys | aws-instance-chart.js:254-257 | a key is in the group key set exactly when some filtered record has it |
| InstanceTree.GroupNodesMembers | aws-instance-chart.js:260-276 | each group node's children are the members of its key |
| InstanceTree.LeafRecordsAppend | aws-instance-chart.js:266-282 | the records among two node lists are concatenated |
| InstanceTree.LeafRecordsOfLeaves | aws-instance-chart.js:279-282 | the records pushed as nodes are the records themselves, in order |
| InstanceTree.ExpandShape | aws-instance-chart.js:266-274 | after the groups, the node list holds each group followed by its records, and nothing else |
| InstanceTree.ExpandStepRecords | aws-instance-chart.js:266-274 | pushing a group and its records adds exactly those records |
| InstanceTree.GroupNodesGather | aws-instance-chart.js:260-276 | the records under the groups are the members of each key, key after key |
| InstanceTree.GroupedTree | aws-instance-chart.js:246-276 | with grouping: `nodes[0]` is the root; `nodes.length == 1 + groups + filtered records`; every filtered record appears exactly once; the root's children are the group nodes |
| InstanceTree.GroupedExpansion | aws-instance-chart.js:252-276 | the grouped node list counts 1 + groups + records and holds each record once |
| InstanceTree.ExpandGathers | aws-instance-chart.js:260-276 | the records of the grouped node list are the groups' members, group after group |
| InstanceTree.RootedRecords | aws-instance-chart.js:249 | the root contributes no record |
| InstanceTree.UngroupedTree | aws-instance-chart.js:277-283 | with a falsy `groupBy`, the nodes are the root followed by exactly the filtered records in order, and those records are the root's children |
| InstanceTree.TreeLinksAppend | aws-instance-chart.js:286 | the links of two node lists are concatenated |
| InstanceTree.TreeLinksSnoc | aws-instance-chart.js:286 | one more node adds a link to each of its children |
| InstanceTree.LeavesHaveNoLinks | aws-instance-chart.js:286 | record nodes have no children, and so no outgoing links |
| InstanceTree.TargetsAppend | aws-instance-chart.js:286 | the targets of two link lists are concatenated |
| InstanceTree.TargetsOfLinksFrom | aws-instance-chart.js:286 | a node's links reach exactly its children, in order |
| InstanceTree.ExpandTargets | aws-instance-chart.js:286 | in the grouped part, the links reach every record exactly once and no group |
| InstanceTree.ExpandStepTargets | aws-instance-chart.js:286 | one more group adds a link to each of its records and nothing else |
| InstanceTree.RootedTargets | aws-instance-chart.js:286 | the root's links come first, one to each of its children |
| InstanceTree.GroupedLinks | aws-instance-chart.js:252-286 | with grouping, the links reach every node below the root exactly once |
| InstanceTree.UngroupedLinks | aws-instance-chart.js:277-286 | without grouping, the links reach every record once, in order |
| InstanceTree.LinksCoverTree | aws-instance-chart.js:286 | every node but the root is the target of exactly one link, so `links.length == nodes.length - 1` |
| InstanceTree.LinksFollowChildren | aws-instance-chart.js:286 | every link goes from a node of the list to one of that node's children |
| InstanceTree.LinkKeyInjective | aws-instance-chart.js:226-228 | `source.id + ":" + target.id` determines both ids when the target id holds no colon |
| InstanceTree.SplitAtLastColon | aws-instance-chart.js:227 | a string joined by a colon to a colon-free tail splits back uniquely |
| InstanceTree.UngroupedKeysDistinct | aws-instance-chart.js:201 | without grouping, the node keys `d.id` are distinct when the instance ids are distinct and none is `root` |
| InstanceTree.SingleRecordGrouped | aws-instance-chart.js:252-276 | one record grouped on any path gives exactly the root, its group, and the record |
| InstanceTree.SingleGroupNodes | aws-instance-chart.js:260-276 | one record gives one group holding just that record |
| InstanceTree.SingleKey | aws-instance-chart.js:254-257 | one record gives one group key, its own |
| InstanceTree.SingleMember | aws-instance-chart.js:270-275 | a record belongs to the group of its own key |
| InstanceTree.ExpandOne | aws-instance-chart.js:266-274 | one group expands to the group followed by its records |
| InstanceTree.GroupByIdRepeatsKeys | aws-instance-chart.js:201 | grouping on a path that resolves to the instance id (such as `instanceId`) gives a group node with the same `d.id` as the record beneath it, so the keyed node join sees that key twice |
| InstanceTree.GroupKeyIsId | aws-instance-chart.js:201 | a group keyed by a record's id has that record's node key |
| ChartStyle.NodeFill | aws-instance-chart.js:96-101 | only records take a palette colour; the root and groups have fixed colours |
| ChartStyle.ColourKey | aws-instance-chart.js:88-90 | no contract; definition: the palette key `findKey(colorBy, d)`; it is `undefined` when `colorBy` is unset, because the split then throws and is caught |
| ChartStyle.NodeStroke | aws-instance-chart.js:107-112 | only records get a darkened colour; the root and groups have fixed strokes |
| ChartStyle.StrokeDarkensFill | aws-instance-chart.js:107-112 | a record's stroke is its own fill, darkened |
| ChartStyle.FrameIgnoresColorBy | aws-instance-chart.js:96-112 | the root and group colours do not depend on `colorBy` |
| ChartStyle.ColouredByType | aws-instance-chart.js:88-90 | coloured by `instanceType`, two records hand the palette the same key exactly when they share a type, so records of one type share a colour |
| ChartStyle.SizeIndex | aws-instance-chart.js:127 | the index of the size after the first dot in the size list, or -1 exactly when there is no such part or it is not listed |
| ChartStyle.NodeRadius | aws-instance-chart.js:118-128 | only records are scaled by size; the root and groups have fixed radii |
| ChartStyle.SizesDistinct | aws-instance-chart.js:122-125 | the size names are distinct and hold no dot |
| ChartStyle.SizeOfType | aws-instance-chart.js:127 | a type `family.size` with a listed size is scaled by that size's position |
| ChartStyle.LargerSizesScaleFurther | aws-instance-chart.js:118-128 | a larger size gets a larger radius index, across families |
| ChartStyle.UnsizedType | aws-instance-chart.js:127 | a type without a dot gets index -1 |
| ChartStyle.LinkDistances | aws-instance-chart.js:50-52 | in the tree `update` builds, a link is short exactly when it leads from a group to a record, and long otherwise |
| ChartStyle.LinkDistance | aws-instance-chart.js:50-52 | no contract; definition: 5 for a link whose source is a group, else 30 |
| ChartStyle.LinkStep | aws-instance-chart.js:50-52 | one link of the tree has the distance its ends call for |
| Chart.DefaultSettingsShowAllByType | aws-instance-chart.js:8-28 | under `DEFAULT_SETTINGS` no credentials are set and every record passes the all-empty filters; records are grouped on `instanceType`, so the group keys are exactly the distinct instance types, and coloured by the same key |
| Chart.CollectGroupKeys | aws-instance-chart.js:254-257 | the loop builds the `groupKeys` set: the distinct resolved keys in first-seen order |
| Chart.ReduceTags | aws-instance-chart.js:352-356 | the `reduce` builds the tags object, and adds each tag key to the seen-key set |
| Chart.TagsSnoc | aws-instance-chart.js:352-356 | one more tag sets its key in the object and adds it to the seen set |
| Chart.BuildTree | aws-instance-chart.js:246-283 | the refilled node list and root children are `TreeNodes` and `RootChildren` of the filtered records |
| Chart.AddUngrouped | aws-instance-chart.js:277-283 | without grouping, the root followed by every record, which are also the root's children |
| Chart.BuildGroups | aws-instance-chart.js:252-276 | with grouping, the root's children are the group nodes, and the node list is the root followed by each group and its records |
| Chart.AddGroup | aws-instance-chart.js:260-275 | one group: its node is appended to both lists, followed in the node list by the records that pass its test, which are also its children |
| Chart.InstanceChart.GroupKeys | aws-instance-chart.js:386-388 | `instanceId`, `instanceType`, then `tags.<key>` per seen tag key in insertion order, each offered once |
| Chart.InstanceChart.constructor | aws-instance-chart.js:31-44 | the stored settings or the defaults; no records and no tag keys; the tree is the root alone |
| Chart.InstanceChart.Update | aws-instance-chart.js:243-296 | when a filter throws, nothing changes; otherwise the node list, root children and links are the tree of exactly the records that pass; settings, records and tag keys are unchanged |
| Chart.InstanceChart.Show | aws-instance-chart.js:246-286 | the node list, root children and links become the tree of the given records under the current `groupBy` |
| Chart.InstanceChart.LoadInstanceData | aws-instance-chart.js:322-367 | on an API error nothing changes; otherwise the records and tag keys are replaced wholesale by those of the response, then `update` runs; if it throws, the old tree stays |
| Chart.InstanceChart.ReadReservations | aws-instance-chart.js:337-359 | the records are one per instance across all reservations, in order; the tag keys are every key seen, once each, in first-seen order |
| Chart.InstanceChart.ReadInstances | aws-instance-chart.js:345-358 | one reservation's instances are appended as records, and their tag keys are added to the set |
| Chart.InstanceChart.SetAccessKeyId | aws-instance-chart.js:393-399 | an empty or unchanged key changes nothing; otherwise the key is stored and saved and a reload is asked for |
| Chart.InstanceChart.SetSecretAccessKey | aws-instance-chart.js:404-410 | an empty or unchanged key changes nothing; otherwise the key is stored and saved and a reload is asked for |
| Chart.InstanceChart.SetColorBy | aws-instance-chart.js:415-421 | an unchanged key changes nothing; otherwise it is stored and saved and a redraw is asked for; the tree is never touched |
| Chart.InstanceChart.SetGroupBy | aws-instance-chart.js:426-432 | an unchanged key changes nothing. Otherwise the key is stored and the tree is rebuilt under it; the settings are saved only if the rebuild did not throw |
| RoleMap.RoleRecords | app.js:160-176 | one role record per instance, in response order |
| RoleMap.ToRoleRecord | app.js:163-175 | no contract; definition: one instance's tags folded by `TagMap`; its record holds the id, the type, and the `Name` and `Role` tags, each possibly missing |
| RoleMap.PropertyKey | app.js:169 | no contract; definition: the property name `roles[v]` uses: the role, or `"undefined"` for a missing one |
| RoleMap.RoleKey | app.js:169 | no contract; definition: a record's property name, `roles[tags["Role"]]` |
| RoleMap.File | app.js:169-175 | no contract; definition: `roles[k] = roles[k] || []` then `push`. An unseen name is appended to the property order with an empty list, and the record is appended to the list of its name |
| RoleMap.FileAll | app.js:160-177 | no contract; definition: the records filed one after the other (properties in `FileAllGroups` and `FilingKeepsEveryRecord`) |
| RoleMap.InstanceMap | app.js:158-179 | no contract; definition: the `roles` dictionary handed to the callback: every instance of the response, filed in order |
| RoleMap.FileAllAppend | app.js:160-177 | filing two lists in turn is filing their concatenation |
| RoleMap.FileAllSnoc | app.js:169-175 | filing one more record files it under its role |
| RoleMap.RoleRecordsAppend | app.js:160-176 | the role records of two instance lists are concatenated |
| RoleMap.FileAllGroups | app.js:168-175 | the dictionary's property names are the distinct roles in first-seen order, and each list holds that role's records in encounter order across reservations |
| RoleMap.FileAllOrder | app.js:169 | a role's list is created the first time that role is seen |
| RoleMap.FileAllLists | app.js:170-175 | each list holds exactly the records of its role, in encounter order |
| RoleMap.FiledUnderOwnRole | app.js:169-175 | every record sits under the property named after its role, with a missing role under `undefined` |
| RoleMap.UndefinedRoleShared | app.js:169-174 | a record without a role and one whose role is the string `undefined` share one list, though their `role` fields differ |
| RoleMap.FilingKeepsEveryRecord | app.js:159-177 | the lists, read in property order, hold every instance of the response exactly once; their lengths sum to the instance count |
| RoleMap.ListsAreGathered | app.js:159-177 | reading the lists in property order is gathering the members of each role |
| RoleMap.RoleRecordsSnoc | app.js:161-176 | one more instance adds its role record at the end |
| RoleMap.ReadTags | app.js:163-166 | the tags dictionary of the loop is `TagMap`: a later tag with the same key overwrites the earlier one |
| RoleMap.GetInstanceMap | app.js:153-182 | on an API error the error is passed on and no dictionary is built; otherwise the dictionary is every instance filed under its role |
| RoleMap.FileInstances | app.js:161-176 | one reservation's instances are filed in order |
| RoleMap.Machines | app.js:201-204 | one instance node per record, in order |
| RoleMap.RoleNodes | app.js:195-198 | one role node per property name, in order |
| RoleMap.RoleNode | app.js:195-204 | no contract; definition: a role node, `{name: role, children}`, whose children are the instance nodes of that role's list |
| RoleMap.Flatten | app.js:194-205 | no contract; definition: each role node followed by its instance nodes, role after role in property order (properties in `FlattenLength` and `RoleBlock`) |
| RoleMap.AppNodes | app.js:187-210 | no contract; definition: the node list `loadData` hands to `update`: the root with the role nodes as children, then the flattened roles; after an API error, only a childless root (properties in `LoadedNodes` and `FailedLoadNodes`) |
| RoleMap.LoadData | app.js:187-210 | the pushes build `AppNodes`: the root with the role nodes as children, then each role node followed by its instances |
| RoleMap.AddRole | app.js:195-204 | one role: its node joins the root's children and the node list, followed by its records, which are also its children |
| RoleMap.FlattenLength | app.js:195-205 | the flattened list has one node per role plus one per record |
| RoleMap.LoadedNodes | app.js:187-210 | after a load, `nodes[0]` is the root with the role nodes as children, and `nodes.length == 1 + #roles + #instances` |
| RoleMap.FailedLoadNodes | app.js:188-192 | after an API error, the node list is only the root, with no children |
| RoleMap.FlattenPrefix | app.js:195-205 | the nodes of the first roles are a prefix of the node list |
| RoleMap.SliceOfPrefix | app.js:195-205 | a block that follows a prefix is found at that position |
| RoleMap.RoleBlock | app.js:195-205 | each role node is followed at once by that role's instances, in list order |
| RoleMap.AppFill | app.js:59-61 | white exactly for the nodes with a `children` array |
| RoleMap.RoleValue | app.js:59-68 | no contract; definition: `d.role`: an instance's role, and `undefined` for the root, the role nodes, and an instance without a role |
| RoleMap.AppStroke | app.js:67-69 | an instance is outlined in its own fill, darkened; the root and all role nodes share the darkened colour of an undefined role |
| RoleMap.AppRadius | app.js:75-82 | radius 1 exactly for the nodes without a truthy `type`: the root, the roles and instances of empty type |

## Left out

- Rendering. The d3 DOM joins of `drawNodes`/`drawLinks`, `tick`, `resize`, the force layout and its parameters, and app.js `update`/`tick`/`resize` are all left out. Only the join keys (`NodeKey`, `LinkKey`) and the link distance are modelled. The mouse-over hooks are left out too.
- `d3.layout.tree().links` is not part of this model. `TreeLinks` is the relation it is documented to compute: one link per parent and child, parent by parent in node-list order.
- The AWS SDK is left out: `describeInstances`, `AWS.config`, the region, the credentials passed to it, and app.js `setCredentials`. A response or error arrives as a parameter. The timing of the asynchronous callback is not modelled, and neither is a race between overlapping reloads.
- `loadInstanceData`'s optional callback is left out. Its argument is the returned `LoadOutcome`.
- The setters' reload, rebuild and redraw are returned as an `Action` rather than performed.
- `localStorage` and JSON are left out. `saveSettings` is the assignment `saved := Some(settings)`, and `getSettings` is the constructor's `stored` parameter.
- Floating point is left out:
  - `Math.pow(index, 1.4)` is `Scaled(index)`;
  - `d3.rgb(...).darker(k)` is `Darker(colour)`, without its factor;
  - the `category20` scale is `Palette(value)`.
- ChartStyle.ColouredByType: the colour scale is not modelled. `d3.scale.category20` converts each key to a string and hands out its 20 colours in a cycle, so different keys can share a colour: the 21st distinct type, `undefined` and the string "undefined", and any two objects. `Palette(key)` keeps keys apart, so the lemma promises distinct keys, not distinct colours.
- Regular expressions are an abstract `RegexEngine` with no regex semantics.
- js/main.js, the page's UI glue, is not part of this model.
- Record values are strings, nested objects and `undefined` only. An expected value in a filter rule that is not a string (a number in hand-edited settings) is not modelled.
- InstanceRecords.AsValue, InstanceRecords.ObjectOnlyAtTags: these describe a record as `loadInstanceData` builds it, before its first draw. The d3 force layout adds numeric fields to every drawn record: `index`, `weight`, `x`, `y`, `px` and `py`, plus `fixed` once it is hovered or dragged (`force.drag` registers both handlers). Later `update` calls resolve key paths on those same objects. In JavaScript, a `set: ["x"]` rule then passes every drawn record and `groupBy: "x"` groups by position. The model's records never gain these fields.
- KeyResolver.FindKey: it does not model indexing into a string. Every string field of a record can be reached by a key path. In JavaScript that gives a character (`id.0`), `length` (`instanceType.length`) or a method, where the model gives `undefined` (`KeyResolver.FindKeyInString`). Prototype properties such as `constructor` or `toString` are modelled as missing too.
- Ec2.TagMap: a tag whose key is `__proto__` is not modelled. Assigning a string to `obj["__proto__"]` is ignored in JavaScript, so the tags object lacks that key, while the model keeps it like any other.
- RoleMap.GetInstanceMap: a `Role` tag that names an `Object.prototype` member is not modelled (`constructor`, `toString`, `valueOf`, `hasOwnProperty`, `__proto__`, ...). For such a role, `roles[role] || []` at app.js:169 finds the inherited value, which is truthy. The `.push` on line 170 is then undefined and throws a TypeError, so the callback is never called. The model files the record like any other and succeeds.
- KeyResolver.LooseEq: it compares two objects by content, whereas JavaScript compares them by identity. Within one `update`, two records' values at one path are never an object and a non-object (`InstanceRecords.LooseEqAtSamePath`). Only `tags` resolves to objects, and the model's `Set` also compares them by content. So grouping on `tags` gives one group per distinct tags object here, rather than one group per record.
- RoleMap.FileAllGroups, RoleMap.RoleNodes, RoleMap.LoadData: property order is simplified. JavaScript lists integer-like property names (a role such as `1`) first, in numeric order. The model keeps plain insertion order for the dictionary's property names, and so for the role nodes.
- Shared node objects. The model does not represent object identity, so `rootNode` and the group nodes shared between `this.nodes`, `rootNode.children` and the links are values. When a node gains a child, the model replaces it in every list that holds it.
- Chart.InstanceChart.Valid: the class invariant states only that the tag-key set holds no key twice. That the node list, root children and links form the tree of the filtered records is stated by each method that rebuilds them (`IsTree`), not kept as an invariant, because the tree can go stale when `instances` or `settings` change without an `update` (after `update` throws).
- InstanceTree.GroupByIdRepeatsKeys is stated for any group path that resolves to the instance id; `InstanceRecords.InstanceIdField` shows that `instanceId` is such a path.
