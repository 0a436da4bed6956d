/**
 * The node tree that `update` builds from the filtered records, and the
 * links derived from it.
 *
 * The node list starts with the root. Without grouping the records follow
 * as the root's children. With grouping, every distinct group key (in the
 * order a `Set` first saw it) contributes a group node, a child of the root,
 * immediately followed by the records whose key is loosely equal to it.
 * Links are one `{source, target}` per parent and child, taken parent by
 * parent in node-list order.
 */
module InstanceTree {
  import opened Wrappers
  import opened KeyResolver
  import opened Grouping
  import opened InstanceRecords

  /** A chart node: the root, a group with its member records, or one record. */
  datatype Node = Root | Group(key: Value, children: seq<Instance>) | Leaf(record: Instance)

  datatype Link = Link(source: Node, target: Node)

  /** The group key of a record: its value at the `groupBy` path. */
  function GroupKeyOf(path: string): Instance -> Value {
    r => FindKey(path, AsValue(r))
  }

  /** The membership test of a group: `findKey(groupBy, instance) == k`. */
  function LooselyEquals(path: string, k: Value): Instance -> bool {
    r => LooseEq(FindKey(path, AsValue(r)), k)
  }

  /** Whether `groupBy` is truthy: set and not the empty string. */
  predicate Grouped(groupBy: Option<string>) {
    groupBy.Some? && groupBy.value != ""
  }

  /** The contents of the `groupKeys` set, in insertion order. */
  function GroupKeys(xs: seq<Instance>, path: string): seq<Value> {
    Dedup(Keys(xs, GroupKeyOf(path)))
  }

  function Leaves(xs: seq<Instance>): (ns: seq<Node>)
    ensures |ns| == |xs|
    ensures forall i :: 0 <= i < |xs| ==> ns[i] == Leaf(xs[i])
    decreases |xs|
  {
    if xs == [] then [] else Leaves(xs[..|xs| - 1]) + [Leaf(xs[|xs| - 1])]
  }

  /** The group node of key `k` once every record has been visited. */
  function GroupOf(xs: seq<Instance>, path: string, k: Value): Node {
    Group(k, Members(xs, LooselyEquals(path, k), true))
  }

  /** The root's children when grouping: one group node per key. */
  function GroupNodes(ks: seq<Value>, xs: seq<Instance>, path: string): (gs: seq<Node>)
    ensures |gs| == |ks|
    ensures forall i :: 0 <= i < |ks| ==> gs[i] == GroupOf(xs, path, ks[i])
    decreases |ks|
  {
    if ks == [] then [] else GroupNodes(ks[..|ks| - 1], xs, path) + [GroupOf(xs, path, ks[|ks| - 1])]
  }

  /** The records directly under a node of the list. */
  function RecordsUnder(n: Node): seq<Instance> {
    if n.Group? then n.children else []
  }

  /** Each node of `gs` followed by the records under it: the node list after the root when grouping. */
  function Expand(gs: seq<Node>): seq<Node>
    decreases |gs|
  {
    if gs == [] then []
    else
      var g := gs[|gs| - 1];
      Expand(gs[..|gs| - 1]) + [g] + Leaves(RecordsUnder(g))
  }

  /** The records under the nodes of `gs`, node by node. */
  function AllRecordsUnder(gs: seq<Node>): seq<Instance>
    decreases |gs|
  {
    if gs == [] then [] else AllRecordsUnder(gs[..|gs| - 1]) + RecordsUnder(gs[|gs| - 1])
  }

  /** `this.nodes` after `update` over the filtered records `xs`. */
  function TreeNodes(xs: seq<Instance>, groupBy: Option<string>): seq<Node> {
    if Grouped(groupBy) then [Root] + Expand(GroupNodes(GroupKeys(xs, groupBy.value), xs, groupBy.value))
    else [Root] + Leaves(xs)
  }

  /** `rootNode.children` after `update` over the filtered records `xs`. */
  function RootChildren(xs: seq<Instance>, groupBy: Option<string>): seq<Node> {
    if Grouped(groupBy) then GroupNodes(GroupKeys(xs, groupBy.value), xs, groupBy.value)
    else Leaves(xs)
  }

  /** The `children` array of a node; records have none. */
  function ChildrenOf(n: Node, rootChildren: seq<Node>): seq<Node> {
    match n
    case Root => rootChildren
    case Group(_, ms) => Leaves(ms)
    case Leaf(_) => []
  }

  function LinksFrom(n: Node, cs: seq<Node>): (ls: seq<Link>)
    ensures |ls| == |cs|
    ensures forall i :: 0 <= i < |cs| ==> ls[i] == Link(n, cs[i])
    decreases |cs|
  {
    if cs == [] then [] else LinksFrom(n, cs[..|cs| - 1]) + [Link(n, cs[|cs| - 1])]
  }

  /** `d3.layout.tree().links(nodes)`: the links to the children of each node, node by node. */
  function TreeLinks(nodes: seq<Node>, rootChildren: seq<Node>): seq<Link>
    decreases |nodes|
  {
    if nodes == [] then []
    else
      var n := nodes[|nodes| - 1];
      TreeLinks(nodes[..|nodes| - 1], rootChildren) + LinksFrom(n, ChildrenOf(n, rootChildren))
  }

  function Targets(ls: seq<Link>): (ts: seq<Node>)
    ensures |ts| == |ls|
    ensures forall i :: 0 <= i < |ls| ==> ts[i] == ls[i].target
    decreases |ls|
  {
    if ls == [] then [] else Targets(ls[..|ls| - 1]) + [ls[|ls| - 1].target]
  }

  /** The records among the nodes, in node order. */
  function LeafRecords(ns: seq<Node>): seq<Instance>
    decreases |ns|
  {
    if ns == [] then []
    else LeafRecords(ns[..|ns| - 1]) + (if ns[|ns| - 1].Leaf? then [ns[|ns| - 1].record] else [])
  }

  /** The key d3 joins nodes on: `d.id`, as a string. */
  function NodeKey(n: Node): string {
    match n
    case Root => "root"
    case Group(k, _) => JsString(k)
    case Leaf(r) => r.instanceId
  }

  /** The key d3 joins links on: `source.id + ":" + target.id`. */
  function LinkKey(l: Link): string {
    NodeKey(l.source) + ":" + NodeKey(l.target)
  }

  // ----- Groups -----

  /**
   * Every group key is the key of some record, so the loose comparison that
   * fills a group selects exactly the records whose key equals the group's.
   */
  lemma GroupsByKey(xs: seq<Instance>, path: string, k: Value)
    requires k in Keys(xs, GroupKeyOf(path))
    ensures GroupOf(xs, path, k) == Group(k, Members(xs, GroupKeyOf(path), k))
  {
    var key := GroupKeyOf(path);
    var i :| 0 <= i < |xs| && key(xs[i]) == k;
    forall x | x in xs
      ensures LooselyEquals(path, k)(x) == true <==> key(x) == k
    {
      LooseEqAtSamePath(path, x, xs[i]);
    }
    SameMembers(xs, LooselyEquals(path, k), true, key, k);
  }

  /**
   * One group per distinct key of the filtered records, in order of first
   * appearance, and each group holds exactly the records with its key, in
   * filter order.
   */
  lemma GroupNodesAreGroups(xs: seq<Instance>, path: string)
    ensures var ks := GroupKeys(xs, path);
      var key := GroupKeyOf(path);
      var gs := GroupNodes(ks, xs, path);
      Distinct(ks)
      && (forall k :: k in ks <==> exists x :: x in xs && key(x) == k)
      && (forall i, j :: 0 <= i < j < |ks| ==> IndexOf(Keys(xs, key), ks[i]) < IndexOf(Keys(xs, key), ks[j]))
      && (forall i :: 0 <= i < |gs| ==> gs[i] == Group(ks[i], Members(xs, key, ks[i])))
  {
    DedupFirstSeen(Keys(xs, GroupKeyOf(path)));
    GroupKeysAreKeys(xs, path);
    GroupNodesMembers(xs, path);
  }

  lemma GroupKeysAreKeys(xs: seq<Instance>, path: string)
    ensures var key := GroupKeyOf(path);
      forall k :: k in GroupKeys(xs, path) <==> exists x :: x in xs && key(x) == k
  {
    var key := GroupKeyOf(path);
    var ks := GroupKeys(xs, path);
    forall k | k in ks
      ensures exists x :: x in xs && key(x) == k
    {
      var i :| 0 <= i < |xs| && Keys(xs, key)[i] == k;
      assert xs[i] in xs;
    }
    forall k | exists x :: x in xs && key(x) == k
      ensures k in ks
    {
      var x :| x in xs && key(x) == k;
      var i :| 0 <= i < |xs| && xs[i] == x;
      assert Keys(xs, key)[i] == k;
    }
  }

  lemma GroupNodesMembers(xs: seq<Instance>, path: string)
    ensures var ks := GroupKeys(xs, path);
      var gs := GroupNodes(ks, xs, path);
      forall i :: 0 <= i < |gs| ==> gs[i] == Group(ks[i], Members(xs, GroupKeyOf(path), ks[i]))
  {
    var ks := GroupKeys(xs, path);
    forall i | 0 <= i < |ks|
      ensures GroupNodes(ks, xs, path)[i] == Group(ks[i], Members(xs, GroupKeyOf(path), ks[i]))
    {
      GroupsByKey(xs, path, ks[i]);
    }
  }

  // ----- Node list -----

  lemma LeafRecordsAppend(a: seq<Node>, b: seq<Node>)
    ensures LeafRecords(a + b) == LeafRecords(a) + LeafRecords(b)
    decreases |b|
  {
    if b != [] {
      var n := |b| - 1;
      assert (a + b)[..|a + b| - 1] == a + b[..n];
      LeafRecordsAppend(a, b[..n]);
    } else {
      assert a + b == a;
    }
  }

  lemma {:induction false} LeafRecordsOfLeaves(xs: seq<Instance>)
    ensures LeafRecords(Leaves(xs)) == xs
    decreases |xs|
  {
    if xs != [] {
      var n := |xs| - 1;
      LeafRecordsOfLeaves(xs[..n]);
      assert Leaves(xs)[..n] == Leaves(xs[..n]);
      assert xs[..n] + [xs[n]] == xs;
    }
  }

  /** The records of an expanded list are the records under its nodes, in order. */
  lemma {:induction false} ExpandShape(gs: seq<Node>)
    requires forall i :: 0 <= i < |gs| ==> gs[i].Group?
    ensures LeafRecords(Expand(gs)) == AllRecordsUnder(gs)
    ensures |Expand(gs)| == |gs| + |AllRecordsUnder(gs)|
    decreases |gs|
  {
    if gs != [] {
      var n := |gs| - 1;
      var g := gs[n];
      ExpandShape(gs[..n]);
      ExpandStepRecords(Expand(gs[..n]), g);
      assert AllRecordsUnder(gs) == AllRecordsUnder(gs[..n]) + RecordsUnder(g);
    }
  }

  /** Expanding one more group appends its records after those already listed. */
  lemma ExpandStepRecords(prev: seq<Node>, g: Node)
    requires g.Group?
    ensures LeafRecords(prev + [g] + Leaves(g.children)) == LeafRecords(prev) + g.children
  {
    LeafRecordsAppend(prev + [g], Leaves(g.children));
    LeafRecordsAppend(prev, [g]);
    assert LeafRecords([g]) == [] by {
      assert [g][..0] == [];
    }
    LeafRecordsOfLeaves(g.children);
  }

  /** The records under the group nodes are the members of each key, key by key. */
  lemma {:induction false} GroupNodesGather(ks: seq<Value>, xs: seq<Instance>, path: string)
    requires forall k :: k in ks ==> k in Keys(xs, GroupKeyOf(path))
    ensures AllRecordsUnder(GroupNodes(ks, xs, path)) == Gathered(ks, xs, GroupKeyOf(path))
    decreases |ks|
  {
    if ks != [] {
      var n := |ks| - 1;
      var gs := GroupNodes(ks, xs, path);
      var prev := GroupNodes(ks[..n], xs, path);
      assert gs == prev + [GroupOf(xs, path, ks[n])];
      assert gs[..n] == prev;
      assert ks[n] in ks;
      assert forall j :: j in ks[..n] ==> j in ks;
      GroupNodesGather(ks[..n], xs, path);
      GroupsByKey(xs, path, ks[n]);
      assert AllRecordsUnder(gs) == AllRecordsUnder(prev) + RecordsUnder(gs[n]);
    }
  }

  /**
   * After `update` with grouping: the root comes first, then one group node
   * per distinct key and every filtered record exactly once, so the node
   * count is 1 + groups + records.
   */
  lemma GroupedTree(xs: seq<Instance>, path: string)
    requires path != ""
    ensures var nodes := TreeNodes(xs, Some(path));
      nodes[0] == Root
      && |nodes| == 1 + |GroupKeys(xs, path)| + |xs|
      && multiset(LeafRecords(nodes)) == multiset(xs)
      && RootChildren(xs, Some(path)) == GroupNodes(GroupKeys(xs, path), xs, path)
  {
    var gs := GroupNodes(GroupKeys(xs, path), xs, path);
    GroupedExpansion(xs, path);
    assert TreeNodes(xs, Some(path)) == [Root] + Expand(gs);
  }

  lemma GroupedExpansion(xs: seq<Instance>, path: string)
    ensures var ks := GroupKeys(xs, path);
      var nodes := [Root] + Expand(GroupNodes(ks, xs, path));
      |nodes| == 1 + |ks| + |xs| && multiset(LeafRecords(nodes)) == multiset(xs)
  {
    var ks := GroupKeys(xs, path);
    var gs := GroupNodes(ks, xs, path);
    ExpandGathers(xs, path);
    RootedRecords(Expand(gs));
    Partition(xs, GroupKeyOf(path));
    PartitionLength(xs, GroupKeyOf(path));
  }

  /** Expanding the groups lists, after each group, the members of its key. */
  lemma ExpandGathers(xs: seq<Instance>, path: string)
    ensures var ks := GroupKeys(xs, path);
      var gs := GroupNodes(ks, xs, path);
      var records := Gathered(ks, xs, GroupKeyOf(path));
      LeafRecords(Expand(gs)) == records && |Expand(gs)| == |gs| + |records|
  {
    var ks := GroupKeys(xs, path);
    ExpandShape(GroupNodes(ks, xs, path));
    GroupNodesGather(ks, xs, path);
  }

  /** The root contributes no record. */
  lemma RootedRecords(ns: seq<Node>)
    ensures LeafRecords([Root] + ns) == LeafRecords(ns)
  {
    LeafRecordsAppend([Root], ns);
    assert LeafRecords([Root]) == [] by {
      assert [Root][..0] == [];
    }
  }

  /**
   * After `update` without grouping: the root, then exactly the filtered
   * records in order, which are also the root's children.
   */
  lemma UngroupedTree(xs: seq<Instance>, groupBy: Option<string>)
    requires !Grouped(groupBy)
    ensures TreeNodes(xs, groupBy) == [Root] + Leaves(xs)
    ensures RootChildren(xs, groupBy) == Leaves(xs)
    ensures LeafRecords(TreeNodes(xs, groupBy)) == xs
  {
    LeafRecordsAppend([Root], Leaves(xs));
    LeafRecordsOfLeaves(xs);
    assert LeafRecords([Root]) == [] by {
      assert [Root][..0] == [];
    }
  }

  // ----- Links -----

  lemma {:induction false} TreeLinksAppend(a: seq<Node>, b: seq<Node>, rc: seq<Node>)
    ensures TreeLinks(a + b, rc) == TreeLinks(a, rc) + TreeLinks(b, rc)
    decreases |b|
  {
    if b == [] {
      assert a + b == a;
    } else {
      var n := |b| - 1;
      SplitLast(a, b);
      TreeLinksAppend(a, b[..n], rc);
      TreeLinksSnoc(a + b[..n], b[n], rc);
      TreeLinksSnoc(b[..n], b[n], rc);
      AppendAssoc3(TreeLinks(a, rc), TreeLinks(b[..n], rc), LinksFrom(b[n], ChildrenOf(b[n], rc)));
    }
  }

  lemma TreeLinksSnoc(ns: seq<Node>, n: Node, rc: seq<Node>)
    ensures TreeLinks(ns + [n], rc) == TreeLinks(ns, rc) + LinksFrom(n, ChildrenOf(n, rc))
  {
    DropLast(ns, n);
  }

  lemma {:induction false} LeavesHaveNoLinks(xs: seq<Instance>, rc: seq<Node>)
    ensures TreeLinks(Leaves(xs), rc) == []
    decreases |xs|
  {
    if xs != [] {
      var n := |xs| - 1;
      assert Leaves(xs)[..n] == Leaves(xs[..n]);
      LeavesHaveNoLinks(xs[..n], rc);
    }
  }

  lemma TargetsAppend(a: seq<Link>, b: seq<Link>)
    ensures Targets(a + b) == Targets(a) + Targets(b)
  {
  }

  lemma TargetsOfLinksFrom(n: Node, cs: seq<Node>)
    ensures Targets(LinksFrom(n, cs)) == cs
  {
  }

  /** In an expanded list, each record is the target of exactly one link, from its group. */
  lemma {:induction false} ExpandTargets(gs: seq<Node>, rc: seq<Node>)
    requires forall i :: 0 <= i < |gs| ==> gs[i].Group?
    ensures multiset(Targets(TreeLinks(Expand(gs), rc))) + multiset(gs) == multiset(Expand(gs))
    decreases |gs|
  {
    if gs != [] {
      var n := |gs| - 1;
      var g := gs[n];
      var prev := Expand(gs[..n]);
      ExpandTargets(gs[..n], rc);
      ExpandStepTargets(gs, rc);
      MultisetOfSnoc(gs);
      SnocMultisets(Targets(TreeLinks(prev, rc)), Leaves(g.children), gs[..n], g, prev);
      assert Expand(gs) == prev + [g] + Leaves(g.children);
    }
  }

  lemma SnocMultisets<T>(ts: seq<T>, more: seq<T>, ps: seq<T>, g: T, e: seq<T>)
    requires multiset(ts) + multiset(ps) == multiset(e)
    ensures multiset(ts + more) + (multiset(ps) + multiset{g}) == multiset(e + [g] + more)
  {
  }

  lemma MultisetOfSnoc<T>(s: seq<T>)
    requires s != []
    ensures multiset(s) == multiset(s[..|s| - 1]) + multiset{s[|s| - 1]}
  {
    assert s == s[..|s| - 1] + [s[|s| - 1]];
  }

  /** Expanding one more group adds the links to its records, and nothing else. */
  lemma ExpandStepTargets(gs: seq<Node>, rc: seq<Node>)
    requires gs != [] && gs[|gs| - 1].Group?
    ensures var g := gs[|gs| - 1];
      Targets(TreeLinks(Expand(gs), rc)) == Targets(TreeLinks(Expand(gs[..|gs| - 1]), rc)) + Leaves(g.children)
  {
    var n := |gs| - 1;
    var g := gs[n];
    var prev := Expand(gs[..n]);
    var leaves := Leaves(g.children);
    assert Expand(gs) == prev + [g] + leaves;
    TreeLinksAppend(prev + [g], leaves, rc);
    TreeLinksAppend(prev, [g], rc);
    LeavesHaveNoLinks(g.children, rc);
    assert TreeLinks([g], rc) == LinksFrom(g, leaves) by {
      assert [g][..0] == [];
    }
    var before := TreeLinks(prev, rc);
    assert TreeLinks(Expand(gs), rc) == before + LinksFrom(g, leaves);
    TargetsAppend(before, LinksFrom(g, leaves));
    TargetsOfLinksFrom(g, leaves);
  }

  /** Below the root: the root's links come first, to each of its children. */
  lemma RootedTargets(rest: seq<Node>, rc: seq<Node>)
    ensures Targets(TreeLinks([Root] + rest, rc)) == rc + Targets(TreeLinks(rest, rc))
  {
    TreeLinksAppend([Root], rest, rc);
    assert TreeLinks([Root], rc) == LinksFrom(Root, rc) by {
      assert [Root][..0] == [];
    }
    TargetsAppend(LinksFrom(Root, rc), TreeLinks(rest, rc));
    TargetsOfLinksFrom(Root, rc);
  }

  /** The root's links and its groups' links reach every node below the root once. */
  lemma GroupedLinks(gs: seq<Node>)
    requires forall i :: 0 <= i < |gs| ==> gs[i].Group?
    ensures multiset(Targets(TreeLinks([Root] + Expand(gs), gs))) == multiset(Expand(gs))
  {
    RootedTargets(Expand(gs), gs);
    ExpandTargets(gs, gs);
  }

  /** Without groups the root's links reach every record once, in order. */
  lemma UngroupedLinks(xs: seq<Instance>)
    ensures Targets(TreeLinks([Root] + Leaves(xs), Leaves(xs))) == Leaves(xs)
  {
    RootedTargets(Leaves(xs), Leaves(xs));
    LeavesHaveNoLinks(xs, Leaves(xs));
  }

  /**
   * The links of the tree `update` builds: every node but the root is the
   * target of exactly one link, so there is one link fewer than nodes.
   */
  lemma LinksCoverTree(xs: seq<Instance>, groupBy: Option<string>)
    ensures var nodes := TreeNodes(xs, groupBy);
      var links := TreeLinks(nodes, RootChildren(xs, groupBy));
      multiset(Targets(links)) == multiset(nodes[1..]) && |links| == |nodes| - 1
  {
    var nodes := TreeNodes(xs, groupBy);
    var rc := RootChildren(xs, groupBy);
    var rest := nodes[1..];
    if Grouped(groupBy) {
      assert nodes == [Root] + Expand(rc);
      assert rest == Expand(rc);
      GroupedLinks(rc);
    } else {
      assert nodes == [Root] + Leaves(xs);
      assert rest == Leaves(xs);
      UngroupedLinks(xs);
    }
    var ts := Targets(TreeLinks(nodes, rc));
    assert |multiset(ts)| == |multiset(rest)|;
  }

  /** Every link goes from a node of the list to one of that node's children. */
  lemma {:induction false} LinksFollowChildren(nodes: seq<Node>, rc: seq<Node>)
    ensures forall l :: l in TreeLinks(nodes, rc) ==> l.source in nodes && l.target in ChildrenOf(l.source, rc)
    decreases |nodes|
  {
    if nodes != [] {
      var n := |nodes| - 1;
      LinksFollowChildren(nodes[..n], rc);
      assert forall x :: x in nodes[..n] ==> x in nodes;
      assert nodes[n] in nodes;
    }
  }

  // ----- Keys -----

  /** A link key names its two ends, as long as the target's key holds no colon. */
  lemma LinkKeyInjective(a: Link, b: Link)
    requires ':' !in NodeKey(a.target) && ':' !in NodeKey(b.target)
    requires LinkKey(a) == LinkKey(b)
    ensures NodeKey(a.source) == NodeKey(b.source) && NodeKey(a.target) == NodeKey(b.target)
  {
    var s, t, u, v := NodeKey(a.source), NodeKey(a.target), NodeKey(b.source), NodeKey(b.target);
    SplitAtLastColon(s, t, u, v);
  }

  lemma SplitAtLastColon(s: string, t: string, u: string, v: string)
    requires ':' !in t && ':' !in v && s + ":" + t == u + ":" + v
    ensures s == u && t == v
  {
    var x := s + ":" + t;
    assert x[|s|] == ':' && forall i :: |s| < i < |x| ==> x[i] == t[i - |s| - 1] != ':';
    assert x[|u|] == ':' && forall i :: |u| < i < |x| ==> x[i] == v[i - |u| - 1] != ':';
    assert |s| == |u|;
    assert s == x[..|s|] && u == x[..|u|];
    assert t == x[|s| + 1..] && v == x[|u| + 1..];
  }

  /**
   * Without grouping, the node keys are distinct when the instance ids are
   * distinct and none of them is `root`.
   */
  lemma UngroupedKeysDistinct(xs: seq<Instance>, groupBy: Option<string>)
    requires !Grouped(groupBy)
    requires forall i, j :: 0 <= i < j < |xs| ==> xs[i].instanceId != xs[j].instanceId
    requires forall i :: 0 <= i < |xs| ==> xs[i].instanceId != "root"
    ensures var nodes := TreeNodes(xs, groupBy);
      forall i, j :: 0 <= i < j < |nodes| ==> NodeKey(nodes[i]) != NodeKey(nodes[j])
  {
    var nodes := TreeNodes(xs, groupBy);
    assert nodes == [Root] + Leaves(xs);
    forall i, j | 0 <= i < j < |nodes|
      ensures NodeKey(nodes[i]) != NodeKey(nodes[j])
    {
      assert nodes[j] == Leaf(xs[j - 1]);
      if i > 0 {
        assert nodes[i] == Leaf(xs[i - 1]);
      }
    }
  }

  /** A single record grouped on any path: the root, its group, the record. */
  lemma SingleRecordGrouped(r: Instance, path: string)
    requires path != ""
    ensures TreeNodes([r], Some(path)) == [Root, Group(GroupKeyOf(path)(r), [r]), Leaf(r)]
  {
    var g := Group(GroupKeyOf(path)(r), [r]);
    SingleGroupNodes(r, path);
    assert TreeNodes([r], Some(path)) == [Root] + Expand([g]);
    ExpandOne(g);
    assert Leaves([r]) == [Leaf(r)];
    Three(Root, g, Leaf(r));
  }

  lemma Three<T>(a: T, b: T, c: T)
    ensures [a] + ([b] + [c]) == [a, b, c]
  {
  }

  lemma SingleGroupNodes(r: Instance, path: string)
    ensures GroupNodes(GroupKeys([r], path), [r], path) == [Group(GroupKeyOf(path)(r), [r])]
  {
    var k := GroupKeyOf(path)(r);
    SingleKey(r, path);
    SingleMember(r, path);
    assert [k][..0] == [];
  }

  lemma ExpandOne(g: Node)
    ensures Expand([g]) == [g] + Leaves(RecordsUnder(g))
  {
    assert [g][..0] == [];
  }

  lemma SingleKey(r: Instance, path: string)
    ensures GroupKeys([r], path) == [GroupKeyOf(path)(r)]
  {
    var k := GroupKeyOf(path)(r);
    assert Keys([r], GroupKeyOf(path)) == [k] by {
      assert [r][..0] == [];
    }
    assert InsertAll([], [k]) == [k] by {
      assert [k][..0] == [];
    }
  }

  lemma SingleMember(r: Instance, path: string)
    ensures GroupOf([r], path, GroupKeyOf(path)(r)) == Group(GroupKeyOf(path)(r), [r])
  {
    var k := GroupKeyOf(path)(r);
    assert LooselyEquals(path, k)(r);
    assert Members([r], LooselyEquals(path, k), true) == [r] by {
      assert [r][..0] == [];
    }
  }

  /**
   * Grouping by `instanceId` (or any path that resolves to the instance id,
   * see `InstanceIdField`) gives each group node the same key as the single
   * record beneath it, so the keyed join sees the key twice.
   */
  lemma GroupByIdRepeatsKeys(r: Instance, path: string)
    requires path != "" && FindKey(path, AsValue(r)) == Str(r.instanceId)
    ensures var nodes := TreeNodes([r], Some(path));
      |nodes| == 3 && nodes[1].Group? && nodes[2].Leaf? && NodeKey(nodes[1]) == NodeKey(nodes[2])
  {
    SingleRecordGrouped(r, path);
    GroupKeyIsId(r, path);
  }

  lemma GroupKeyIsId(r: Instance, path: string)
    requires FindKey(path, AsValue(r)) == Str(r.instanceId)
    ensures NodeKey(Group(GroupKeyOf(path)(r), [r])) == NodeKey(Leaf(r))
  {
    assert GroupKeyOf(path)(r) == Str(r.instanceId);
  }
}
