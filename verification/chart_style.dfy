/**
 * How `drawNodes` and the force layout present each node of the chart: its
 * fill and stroke colours, its radius, and the length of the link above it.
 */
module ChartStyle {
  import opened Wrappers
  import opened KeyResolver
  import opened Grouping
  import opened InstanceRecords
  import opened InstanceTree

  /**
   * A colour as handed to the renderer: a CSS literal, the category20
   * palette entry chosen for a value, or a darker shade of another colour.
   * `Palette(key)` names the entry by its key only; which of the twenty
   * colours that is, and which keys share one, is not modelled.
   */
  datatype Colour = Css(code: string) | Palette(key: Value) | Darker(base: Colour)

  /** `findKey(settings.colorBy, d)`; an unset key path throws inside `findKey`, which yields `undefined`. */
  function ColourKey(colorBy: Option<string>, r: Instance): Value {
    if colorBy.None? then Absent else FindKey(colorBy.value, AsValue(r))
  }

  /** `getNodeFill`: black root, white groups, records from the palette. */
  function NodeFill(n: Node, colorBy: Option<string>): (c: Colour)
    ensures c.Palette? <==> n.Leaf?
  {
    match n
    case Root => Css("#000000")
    case Group(_, _) => Css("#ffffff")
    case Leaf(r) => Palette(ColourKey(colorBy, r))
  }

  /** `getNodeStroke`: grey root, translucent black groups, records a shade darker than their fill. */
  function NodeStroke(n: Node, colorBy: Option<string>): (c: Colour)
    ensures c.Darker? <==> n.Leaf?
  {
    match n
    case Root => Css("#555555")
    case Group(_, _) => Css("rgba(0, 0, 0, 0.3)")
    case Leaf(r) => Darker(Palette(ColourKey(colorBy, r)))
  }

  /** A record's outline is its own fill, darkened. */
  lemma StrokeDarkensFill(n: Node, colorBy: Option<string>)
    requires n.Leaf?
    ensures NodeStroke(n, colorBy) == Darker(NodeFill(n, colorBy))
  {
  }

  /** The root and the groups look the same whatever the records are coloured by. */
  lemma FrameIgnoresColorBy(n: Node, c1: Option<string>, c2: Option<string>)
    requires !n.Leaf?
    ensures NodeFill(n, c1) == NodeFill(n, c2) && NodeStroke(n, c1) == NodeStroke(n, c2)
  {
  }

  /**
   * Coloured by instance type (the default), two records are handed to the
   * palette with the same key exactly when they share a type, so records of
   * one type share a colour. The palette itself may give two keys one colour.
   */
  lemma ColouredByType(r1: Instance, r2: Instance)
    ensures ColourKey(Some("instanceType"), r1) == ColourKey(Some("instanceType"), r2)
        <==> r1.instanceType == r2.instanceType
    ensures r1.instanceType == r2.instanceType
        ==> NodeFill(Leaf(r1), Some("instanceType")) == NodeFill(Leaf(r2), Some("instanceType"))
  {
    InstanceTypeField(r1);
    InstanceTypeField(r2);
  }

  /** The size names of EC2 instance types, smallest first. */
  const Sizes: seq<string> := ["nano", "micro", "small", "medium", "large", "xlarge",
    "2xlarge", "4xlarge", "8xlarge", "16xlarge", "32xlarge"]

  /**
   * `instanceTypes.indexOf(type.split(".")[1])`: the position of the size
   * part of an instance type in the list `sizes` (`Sizes`), or -1 when
   * there is no size part or it is not listed.
   */
  function SizeIndex(sizes: seq<string>, instanceType: string): (i: int)
    ensures -1 <= i < |sizes|
    ensures i == -1 <==> |Split(instanceType)| < 2 || Split(instanceType)[1] !in sizes
    ensures i >= 0 ==> sizes[i] == Split(instanceType)[1]
  {
    var segs := Split(instanceType);
    if |segs| < 2 || segs[1] !in sizes then -1 else IndexOf(sizes, segs[1])
  }

  /** `getNodeRadius`: fixed sizes for the root and the groups, `Math.pow(index, 1.4)` for records. */
  datatype Radius = Fixed(size: int) | Scaled(index: int)

  function NodeRadius(n: Node): (r: Radius)
    ensures r.Scaled? <==> n.Leaf?
  {
    match n
    case Root => Fixed(4)
    case Group(_, _) => Fixed(3)
    case Leaf(rec) => Scaled(SizeIndex(Sizes, rec.instanceType))
  }

  lemma SizesDistinct()
    ensures Distinct(Sizes)
    ensures forall i :: 0 <= i < |Sizes| ==> '.' !in Sizes[i]
  {
  }

  /** A type written `family.size` with a listed size is scaled by that size's position. */
  lemma SizeOfType(sizes: seq<string>, family: string, size: string)
    requires '.' !in family && '.' !in size && size in sizes
    ensures SizeIndex(sizes, family + "." + size) == IndexOf(sizes, size)
  {
    SplitAtDot(family, size);
    SplitWithoutDot(family);
    SplitWithoutDot(size);
  }

  /** Within and across families, a larger size gets a larger radius index. */
  lemma LargerSizesScaleFurther(f1: string, f2: string, i: nat, j: nat)
    requires '.' !in f1 && '.' !in f2 && i < j < |Sizes|
    ensures 0 <= NodeRadius(Leaf(Instance("", f1 + "." + Sizes[i], map[]))).index
             < NodeRadius(Leaf(Instance("", f2 + "." + Sizes[j], map[]))).index
  {
    SizesDistinct();
    SizeOfType(Sizes, f1, Sizes[i]);
    SizeOfType(Sizes, f2, Sizes[j]);
    DistinctIndex(Sizes, i);
    DistinctIndex(Sizes, j);
  }

  /** A type with no size part gets index -1, so its radius `Math.pow(-1, 1.4)` is NaN. */
  lemma UnsizedType(sizes: seq<string>, instanceType: string)
    requires '.' !in instanceType
    ensures SizeIndex(sizes, instanceType) == -1
  {
    SplitWithoutDot(instanceType);
  }

  /** The force layout's `linkDistance`: short below a group, long below the root. */
  function LinkDistance(l: Link): int {
    if l.source.Group? then 5 else 30
  }

  /**
   * In the tree `update` builds, records sit close to their group while
   * groups, and records that are not grouped, sit far from the root.
   */
  lemma LinkDistances(xs: seq<Instance>, groupBy: Option<string>)
    ensures var links := TreeLinks(TreeNodes(xs, groupBy), RootChildren(xs, groupBy));
      forall l :: l in links ==> LinkDistance(l) == if Grouped(groupBy) && l.target.Leaf? then 5 else 30
  {
    var nodes, rc := TreeNodes(xs, groupBy), RootChildren(xs, groupBy);
    LinksFollowChildren(nodes, rc);
    forall l | l in TreeLinks(nodes, rc)
      ensures LinkDistance(l) == if Grouped(groupBy) && l.target.Leaf? then 5 else 30
    {
      LinkStep(xs, groupBy, l);
    }
  }

  lemma LinkStep(xs: seq<Instance>, groupBy: Option<string>, l: Link)
    requires l.source in TreeNodes(xs, groupBy)
    requires l.target in ChildrenOf(l.source, RootChildren(xs, groupBy))
    ensures LinkDistance(l) == if Grouped(groupBy) && l.target.Leaf? then 5 else 30
  {
    if !Grouped(groupBy) {
      assert l.source in [Root] + Leaves(xs);
    } else if l.source.Root? {
      assert l.target in GroupNodes(GroupKeys(xs, groupBy.value), xs, groupBy.value);
    }
  }
}
