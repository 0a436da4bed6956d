/**
 * The earlier chart in app.js: `getInstanceMap` files the instances of a
 * `describeInstances` response under their `Role` tag, and `loadData`
 * flattens that dictionary into a root → role → instance node list.
 */
module RoleMap {
  import opened Wrappers
  import opened KeyResolver
  import opened Grouping
  import opened Ec2
  import opened ChartStyle

  /** The record pushed for one instance: `{instanceId, type, name, role}`; an untagged name or role is `undefined`. */
  datatype RoleRecord = RoleRecord(instanceId: string, instanceType: string, name: Option<string>, role: Option<string>)

  /** `tags[k]`. */
  function Lookup(tags: map<string, string>, k: string): Option<string> {
    if k in tags then Some(tags[k]) else None
  }

  function ToRoleRecord(i: Ec2Instance): RoleRecord {
    var tags := TagMap(i.tags);
    RoleRecord(i.instanceId, i.instanceType, Lookup(tags, "Name"), Lookup(tags, "Role"))
  }

  function RoleRecords(xs: seq<Ec2Instance>): (rs: seq<RoleRecord>)
    ensures |rs| == |xs|
    ensures forall i :: 0 <= i < |xs| ==> rs[i] == ToRoleRecord(xs[i])
    decreases |xs|
  {
    if xs == [] then [] else RoleRecords(xs[..|xs| - 1]) + [ToRoleRecord(xs[|xs| - 1])]
  }

  /** The property name a value is stored under: `roles[undefined]` is `roles["undefined"]`. */
  function PropertyKey(v: Option<string>): string {
    if v.Some? then v.value else "undefined"
  }

  function RoleKey(r: RoleRecord): string {
    PropertyKey(r.role)
  }

  /** The `roles` object: its property names in insertion order, and the list stored under each. */
  datatype Roles = Roles(order: seq<string>, lists: map<string, seq<RoleRecord>>)

  const NoRoles := Roles([], map[])

  /** `roles[k] = roles[k] || []; roles[k].push(r)` with `k` the record's role. */
  function File(m: Roles, r: RoleRecord): Roles {
    var k := RoleKey(r);
    var m' := if k in m.lists then m else Roles(m.order + [k], m.lists[k := []]);
    Roles(m'.order, m'.lists[k := m'.lists[k] + [r]])
  }

  /** The records filed one after the other. */
  function FileAll(m: Roles, rs: seq<RoleRecord>): Roles
    decreases |rs|
  {
    if rs == [] then m else File(FileAll(m, rs[..|rs| - 1]), rs[|rs| - 1])
  }

  /** The dictionary `getInstanceMap` hands to its callback for a response. */
  function InstanceMap(resp: Response): Roles {
    FileAll(NoRoles, RoleRecords(InstancesOf(resp.reservations)))
  }

  lemma {:induction false} FileAllAppend(m: Roles, a: seq<RoleRecord>, b: seq<RoleRecord>)
    ensures FileAll(m, a + b) == FileAll(FileAll(m, a), b)
    decreases |b|
  {
    if b == [] {
      assert a + b == a;
    } else {
      var n := |b| - 1;
      assert (a + b)[..|a + b| - 1] == a + b[..n];
      assert (a + b)[|a + b| - 1] == b[n];
      FileAllAppend(m, a, b[..n]);
    }
  }

  lemma FileAllSnoc(m: Roles, rs: seq<RoleRecord>, r: RoleRecord)
    ensures FileAll(m, rs + [r]) == File(FileAll(m, rs), r)
  {
    DropLast(rs, r);
  }

  lemma RoleRecordsAppend(a: seq<Ec2Instance>, b: seq<Ec2Instance>)
    ensures RoleRecords(a + b) == RoleRecords(a) + RoleRecords(b)
  {
  }

  /**
   * Filing is grouping by role: the property names are the distinct roles
   * in order of first appearance, and each list holds the records of that
   * role in encounter order.
   */
  lemma FileAllGroups(rs: seq<RoleRecord>)
    ensures var m := FileAll(NoRoles, rs);
      m.order == Dedup(Keys(rs, RoleKey))
      && (forall k :: k in m.lists <==> k in Keys(rs, RoleKey))
      && (forall k :: k in m.lists ==> m.lists[k] == Members(rs, RoleKey, k))
  {
    FileAllOrder(rs);
    FileAllLists(rs);
  }

  lemma {:induction false} FileAllOrder(rs: seq<RoleRecord>)
    ensures var m := FileAll(NoRoles, rs);
      m.order == Dedup(Keys(rs, RoleKey)) && (forall k :: k in m.lists <==> k in Keys(rs, RoleKey))
    decreases |rs|
  {
    if rs != [] {
      var n := |rs| - 1;
      FileAllOrder(rs[..n]);
      var ks := Keys(rs, RoleKey);
      assert ks[..n] == Keys(rs[..n], RoleKey);
    }
  }

  lemma {:induction false} FileAllLists(rs: seq<RoleRecord>)
    ensures var m := FileAll(NoRoles, rs);
      forall k :: k in m.lists ==> m.lists[k] == Members(rs, RoleKey, k)
    decreases |rs|
  {
    if rs != [] {
      var n := |rs| - 1;
      FileAllLists(rs[..n]);
      FileAllOrder(rs[..n]);
      var m := FileAll(NoRoles, rs[..n]);
      forall k | k in FileAll(NoRoles, rs).lists
        ensures FileAll(NoRoles, rs).lists[k] == Members(rs, RoleKey, k)
      {
        if k != RoleKey(rs[n]) {
          assert k in m.lists;
        } else if k !in m.lists {
          MembersOfUnusedKey(rs[..n], RoleKey, k);
        }
      }
    }
  }

  /** Every record sits in the list named after its role, `undefined` roles under "undefined". */
  lemma FiledUnderOwnRole(rs: seq<RoleRecord>, k: string, r: RoleRecord)
    requires k in FileAll(NoRoles, rs).lists && r in FileAll(NoRoles, rs).lists[k]
    ensures PropertyKey(r.role) == k
  {
    FileAllGroups(rs);
  }

  /**
   * A record whose role is the string "undefined" and a record with no role
   * end up in the same list, though their `role` fields differ.
   */
  lemma UndefinedRoleShared(a: RoleRecord, b: RoleRecord)
    requires a.role == None && b.role == Some("undefined")
    ensures a.role != b.role
    ensures FileAll(NoRoles, [a, b]).order == ["undefined"]
    ensures FileAll(NoRoles, [a, b]).lists["undefined"] == [a, b]
  {
    FileAllSnoc(NoRoles, [], a);
    FileAllSnoc(NoRoles, [a], b);
    assert [] + [a] == [a] && [a] + [b] == [a, b];
    var m1 := FileAll(NoRoles, [a]);
    assert m1 == Roles(["undefined"], map["undefined" := [a]]);
  }

  /** The lists of the roles `ks`, one after the other. */
  function ListsOf(m: Roles, ks: seq<string>): seq<RoleRecord>
    decreases |ks|
  {
    if ks == [] then [] else ListsOf(m, ks[..|ks| - 1]) + ListOf(m, ks[|ks| - 1])
  }

  function ListOf(m: Roles, k: string): seq<RoleRecord> {
    if k in m.lists then m.lists[k] else []
  }

  /** No record is lost or repeated by filing: the lists, read in property order, hold every record once. */
  lemma FilingKeepsEveryRecord(rs: seq<RoleRecord>)
    ensures var m := FileAll(NoRoles, rs);
      multiset(ListsOf(m, m.order)) == multiset(rs) && |ListsOf(m, m.order)| == |rs|
  {
    FileAllGroups(rs);
    var m := FileAll(NoRoles, rs);
    ListsAreGathered(m, m.order, rs);
    Partition(rs, RoleKey);
    PartitionLength(rs, RoleKey);
  }

  lemma {:induction false} ListsAreGathered(m: Roles, ks: seq<string>, rs: seq<RoleRecord>)
    requires forall k :: k in ks ==> k in m.lists && m.lists[k] == Members(rs, RoleKey, k)
    ensures ListsOf(m, ks) == Gathered(ks, rs, RoleKey)
    decreases |ks|
  {
    if ks != [] {
      var n := |ks| - 1;
      assert forall k :: k in ks[..n] ==> k in ks;
      ListsAreGathered(m, ks[..n], rs);
      assert ks[n] in ks;
    }
  }

  lemma RoleRecordsSnoc(xs: seq<Ec2Instance>, i: nat)
    requires i < |xs|
    ensures RoleRecords(xs[..i + 1]) == RoleRecords(xs[..i]) + [ToRoleRecord(xs[i])]
  {
    TakeOneMore(xs, i);
    DropLast(xs[..i], xs[i]);
  }

  /** The tags loop of `getInstanceMap`: later tags overwrite earlier ones. */
  method ReadTags(tags: seq<Tag>) returns (m: map<string, string>)
    ensures m == TagMap(tags)
  {
    m := map[];
    var i := 0;
    while i < |tags|
      invariant 0 <= i <= |tags|
      invariant m == TagMap(tags[..i])
    {
      m := m[tags[i].key := tags[i].value];
      TakeOneMore(tags, i);
      DropLast(tags[..i], tags[i]);
      i := i + 1;
    }
    assert tags[..i] == tags;
  }

  /** `getInstanceMap`: on an API error the error is passed on and no dictionary is built. */
  method GetInstanceMap(resp: Result<Response, ApiError>) returns (r: Result<Roles, ApiError>)
    ensures resp.Err? ==> r == Err(resp.error)
    ensures resp.Ok? ==> r == Ok(InstanceMap(resp.value))
  {
    if resp.Err? {
      return Err(resp.error);
    }
    var rs := resp.value.reservations;
    var roles := NoRoles;
    var ri := 0;
    while ri < |rs|
      invariant 0 <= ri <= |rs|
      invariant roles == FileAll(NoRoles, RoleRecords(InstancesOf(rs[..ri])))
    {
      ghost var before := InstancesOf(rs[..ri]);
      roles := FileInstances(roles, rs[ri].instances);
      TakeOneMore(rs, ri);
      DropLast(rs[..ri], rs[ri]);
      RoleRecordsAppend(before, rs[ri].instances);
      FileAllAppend(NoRoles, RoleRecords(before), RoleRecords(rs[ri].instances));
      ri := ri + 1;
    }
    assert rs[..ri] == rs;
    return Ok(roles);
  }

  /** The loop over one reservation's instances. */
  method FileInstances(roles: Roles, insts: seq<Ec2Instance>) returns (roles': Roles)
    ensures roles' == FileAll(roles, RoleRecords(insts))
  {
    roles' := roles;
    var i := 0;
    while i < |insts|
      invariant 0 <= i <= |insts|
      invariant roles' == FileAll(roles, RoleRecords(insts[..i]))
    {
      var tags := ReadTags(insts[i].tags);
      var role := Lookup(tags, "Role");
      var k := PropertyKey(role);
      if k !in roles'.lists {
        roles' := Roles(roles'.order + [k], roles'.lists[k := []]);
      }
      var rec := RoleRecord(insts[i].instanceId, insts[i].instanceType, Lookup(tags, "Name"), role);
      roles' := Roles(roles'.order, roles'.lists[k := roles'.lists[k] + [rec]]);
      RoleRecordsSnoc(insts, i);
      FileAllSnoc(roles, RoleRecords(insts[..i]), ToRoleRecord(insts[i]));
      i := i + 1;
    }
    assert insts[..i] == insts;
  }

  /** A node of app.js's chart: the root and the role nodes have children, instances are records. */
  datatype AppNode = Branch(name: string, children: seq<AppNode>) | Machine(record: RoleRecord)

  function Machines(rs: seq<RoleRecord>): (ns: seq<AppNode>)
    ensures |ns| == |rs|
    ensures forall i :: 0 <= i < |rs| ==> ns[i] == Machine(rs[i])
    decreases |rs|
  {
    if rs == [] then [] else Machines(rs[..|rs| - 1]) + [Machine(rs[|rs| - 1])]
  }

  function RoleNode(m: Roles, k: string): AppNode {
    Branch(k, Machines(ListOf(m, k)))
  }

  function RoleNodes(m: Roles, ks: seq<string>): (ns: seq<AppNode>)
    ensures |ns| == |ks|
    ensures forall i :: 0 <= i < |ks| ==> ns[i] == RoleNode(m, ks[i])
    decreases |ks|
  {
    if ks == [] then [] else RoleNodes(m, ks[..|ks| - 1]) + [RoleNode(m, ks[|ks| - 1])]
  }

  /** Each role node followed by its records, role after role. */
  function Flatten(m: Roles, ks: seq<string>): seq<AppNode>
    decreases |ks|
  {
    if ks == [] then []
    else
      var k := ks[|ks| - 1];
      Flatten(m, ks[..|ks| - 1]) + [RoleNode(m, k)] + Machines(ListOf(m, k))
  }

  /** The node list `loadData` hands to `update`; after an API error the dictionary is `undefined` and only the root is left. */
  function AppNodes(r: Result<Roles, ApiError>): seq<AppNode> {
    if r.Err? then [Branch("root", [])]
    else [Branch("root", RoleNodes(r.value, r.value.order))] + Flatten(r.value, r.value.order)
  }

  /** `loadData`: push the root, then each role node and its records, adding each to its parent's children. */
  method LoadData(r: Result<Roles, ApiError>) returns (nodes: seq<AppNode>)
    ensures nodes == AppNodes(r)
  {
    nodes := [Branch("root", [])];
    if r.Err? {
      return;
    }
    var m := r.value;
    var rootChildren: seq<AppNode> := [];
    var i := 0;
    while i < |m.order|
      invariant 0 <= i <= |m.order|
      invariant rootChildren == RoleNodes(m, m.order[..i])
      invariant nodes == [Branch("root", rootChildren)] + Flatten(m, m.order[..i])
    {
      var k := m.order[i];
      nodes, rootChildren := AddRole(nodes, rootChildren, Flatten(m, m.order[..i]), k, ListOf(m, k));
      TakeOneMore(m.order, i);
      DropLast(m.order[..i], k);
      AppendAssoc3(Flatten(m, m.order[..i]), [RoleNode(m, k)], Machines(ListOf(m, k)));
      i := i + 1;
    }
    assert m.order[..i] == m.order;
  }

  /**
   * One role: push its node, add it to the root's children, then push each
   * record and add it to the role node's children. The root and the role
   * node are shared objects, so each push is seen both in `nodes` and in
   * the parent's `children`.
   */
  method AddRole(nodes: seq<AppNode>, rootChildren: seq<AppNode>, ghost rest: seq<AppNode>, k: string, list: seq<RoleRecord>)
    returns (nodes': seq<AppNode>, rootChildren': seq<AppNode>)
    requires nodes == [Branch("root", rootChildren)] + rest
    ensures rootChildren' == rootChildren + [Branch(k, Machines(list))]
    ensures nodes' == [Branch("root", rootChildren')] + (rest + [Branch(k, Machines(list))] + Machines(list))
  {
    var g, c := |nodes|, |rootChildren|;
    rootChildren' := rootChildren + [Branch(k, [])];
    nodes' := nodes[0 := Branch("root", rootChildren')] + [Branch(k, [])];
    PushRole(Branch("root", rootChildren), rest, Branch("root", rootChildren'), Branch(k, []));
    var j := 0;
    while j < |list|
      invariant 0 <= j <= |list|
      invariant rootChildren' == rootChildren + [Branch(k, Machines(list[..j]))]
      invariant nodes' == [Branch("root", rootChildren')] + rest + [Branch(k, Machines(list[..j]))] + Machines(list[..j])
    {
      var ms := Machines(list[..j]);
      TakeOneMore(list, j);
      DropLast(list[..j], list[j]);
      var ms' := ms + [Machine(list[j])];
      ReplaceLast(rootChildren, Branch(k, ms), Branch(k, ms'));
      rootChildren' := rootChildren'[c := Branch(k, ms')];
      PushChild(Branch("root", rootChildren + [Branch(k, ms)]), rest, Branch(k, ms), ms,
        Branch("root", rootChildren'), Branch(k, ms'), Machine(list[j]));
      nodes' := nodes'[0 := Branch("root", rootChildren')][g := Branch(k, ms')] + [Machine(list[j])];
      j := j + 1;
    }
    assert list[..j] == list;
  }

  lemma PushRole<T>(root: T, rest: seq<T>, root': T, x: T)
    ensures ([root] + rest)[0 := root'] + [x] == [root'] + rest + [x]
  {
  }

  lemma PushChild<T>(root: T, rest: seq<T>, g: T, ms: seq<T>, root': T, g': T, x: T)
    ensures ([root] + rest + [g] + ms)[0 := root'][1 + |rest| := g'] + [x] == [root'] + rest + [g'] + (ms + [x])
  {
  }

  lemma {:induction false} FlattenLength(m: Roles, ks: seq<string>)
    ensures |Flatten(m, ks)| == |ks| + |ListsOf(m, ks)|
    decreases |ks|
  {
    if ks != [] {
      FlattenLength(m, ks[..|ks| - 1]);
    }
  }

  /**
   * The node list of a loaded response: the root first, its children the
   * role nodes in property order, and one node per role and per instance.
   */
  lemma LoadedNodes(resp: Response)
    ensures var m := InstanceMap(resp);
      var nodes := AppNodes(Ok(m));
      nodes[0] == Branch("root", RoleNodes(m, m.order))
      && |nodes| == 1 + |Dedup(Keys(RoleRecords(InstancesOf(resp.reservations)), RoleKey))|
                      + |InstancesOf(resp.reservations)|
  {
    var m := InstanceMap(resp);
    FileAllGroups(RoleRecords(InstancesOf(resp.reservations)));
    FilingKeepsEveryRecord(RoleRecords(InstancesOf(resp.reservations)));
    FlattenLength(m, m.order);
  }

  /** After an API error only the root is drawn, with no children. */
  lemma FailedLoadNodes(e: ApiError)
    ensures AppNodes(Err(e)) == [Branch("root", [])]
  {
  }

  lemma {:induction false} FlattenPrefix(m: Roles, ks: seq<string>, i: nat)
    requires i <= |ks|
    ensures Flatten(m, ks[..i]) <= Flatten(m, ks)
    decreases |ks| - i
  {
    if i < |ks| {
      FlattenPrefix(m, ks, i + 1);
      TakeOneMore(ks, i);
      DropLast(ks[..i], ks[i]);
    } else {
      assert ks[..i] == ks;
    }
  }

  lemma SliceOfPrefix<T>(a: seq<T>, b: seq<T>, c: seq<T>)
    requires a + b <= c
    ensures c[|a|..|a| + |b|] == b
  {
    assert c[..|a| + |b|] == a + b;
  }

  /** Each role node is followed at once by that role's records, in list order. */
  lemma RoleBlock(m: Roles, ks: seq<string>, i: nat)
    requires i < |ks|
    ensures var p := |Flatten(m, ks[..i])|;
      var block := [RoleNode(m, ks[i])] + Machines(ListOf(m, ks[i]));
      p + |block| <= |Flatten(m, ks)| && Flatten(m, ks)[p..p + |block|] == block
  {
    FlattenPrefix(m, ks, i + 1);
    TakeOneMore(ks, i);
    DropLast(ks[..i], ks[i]);
    var block := [RoleNode(m, ks[i])] + Machines(ListOf(m, ks[i]));
    AppendAssoc3(Flatten(m, ks[..i]), [RoleNode(m, ks[i])], Machines(ListOf(m, ks[i])));
    SliceOfPrefix(Flatten(m, ks[..i]), block, Flatten(m, ks));
  }

  /** `getNodeFill`: white for any node with a `children` array, else the palette colour of the role. */
  function AppFill(n: AppNode): (c: Colour)
    ensures c == Css("#ffffff") <==> n.Branch?
  {
    if n.Branch? then Css("#ffffff") else Palette(RoleValue(n))
  }

  /** `d.role`: the root and the role nodes have none. */
  function RoleValue(n: AppNode): Value {
    if n.Machine? && n.record.role.Some? then Str(n.record.role.value) else Absent
  }

  /**
   * `getNodeStroke`: the role's palette colour, darkened, for every node; so
   * a record is outlined in its own fill, darkened, while the root and the
   * role nodes all share the darkened colour of an undefined role.
   */
  function AppStroke(n: AppNode): (c: Colour)
    ensures n.Machine? ==> c == Darker(AppFill(n))
    ensures n.Branch? ==> c == Darker(Palette(Absent))
  {
    Darker(Palette(RoleValue(n)))
  }

  /** `getNodeRadius`: 1 without a (truthy) type, so for the root, the roles and records of empty type. */
  function AppRadius(n: AppNode): (r: Radius)
    ensures r == Fixed(1) <==> n.Branch? || n.record.instanceType == ""
  {
    if n.Branch? || n.record.instanceType == "" then Fixed(1) else Scaled(SizeIndex(Sizes, n.record.instanceType))
  }
}
