/**
 * `AwsInstanceChart`: the settings, the instance records and tag keys it has
 * loaded, and the node list, root children and links it hands to the
 * renderer; `update`, the record-building part of `loadInstanceData`, and
 * the four setters, each of which asks for a reload, a rebuild or a redraw.
 */
module Chart {
  import opened Wrappers
  import opened KeyResolver
  import opened Grouping
  import opened Ec2
  import opened InstanceRecords
  import opened Filters
  import opened InstanceTree

  /** The settings record that is saved as one blob. */
  datatype Settings = Settings(
    accessKeyId: Option<string>,
    secretAccessKey: Option<string>,
    filterBy: FilterRules,
    groupBy: Option<string>,
    colorBy: Option<string>)

  /** `DEFAULT_SETTINGS`: no credentials, no filters, grouped and coloured by instance type. */
  const DefaultSettings := Settings(None, None, NoFilters, Some("instanceType"), Some("instanceType"))

  /**
   * Under `DEFAULT_SETTINGS` no credentials are set, every record passes the
   * filters, and the groups, like the colours, are the distinct instance types.
   */
  lemma DefaultSettingsShowAllByType(re: RegexEngine, xs: seq<Instance>)
    ensures DefaultSettings.accessKeyId.None? && DefaultSettings.secretAccessKey.None?
    ensures Filtered(Matches(DefaultSettings.filterBy, re), xs) == Ok(xs)
    ensures Grouped(DefaultSettings.groupBy)
    ensures forall k :: k in GroupKeys(xs, DefaultSettings.groupBy.value) <==> exists x :: x in xs && k == Str(x.instanceType)
    ensures forall x :: FindKey(DefaultSettings.colorBy.value, AsValue(x)) == Str(x.instanceType)
  {
    NoFiltersKeepAll(re, xs);
    GroupKeysAreKeys(xs, "instanceType");
    forall x: Instance
      ensures FindKey("instanceType", AsValue(x)) == Str(x.instanceType)
    {
      InstanceTypeField(x);
    }
  }

  /** What a setter asks for once it has stored a new value. */
  datatype Action = NoChange | Reload | Rebuild | Redraw

  /** How a load ended: the API call failed, `update` threw, or the records were loaded. */
  datatype LoadOutcome = ApiFailed(apiError: ApiError) | UpdateFailed(filterError: FilterError) | Loaded(records: seq<Instance>)

  /** The `groupKeys` set of `update`, filled one record at a time. */
  method CollectGroupKeys(xs: seq<Instance>, path: string) returns (ks: seq<Value>)
    ensures ks == GroupKeys(xs, path)
  {
    ks := [];
    var i := 0;
    while i < |xs|
      invariant 0 <= i <= |xs|
      invariant ks == InsertAll([], Keys(xs[..i], GroupKeyOf(path)))
    {
      var k := FindKey(path, AsValue(xs[i]));
      ghost var before := ks;
      if k !in ks {
        ks := ks + [k];
      }
      assert ks == Insert(before, GroupKeyOf(path)(xs[i]));
      TakeOneMore(xs, i);
      KeysSnoc(xs[..i], xs[i], GroupKeyOf(path), []);
      i := i + 1;
    }
    assert xs[..i] == xs;
  }

  /** The `reduce` over an instance's tags: the tags dictionary, and the tag-key set with each key added. */
  method ReduceTags(seen: seq<string>, tags: seq<Tag>) returns (obj: map<string, string>, seen': seq<string>)
    ensures obj == TagMap(tags)
    ensures seen' == InsertAll(seen, Keys(tags, KeyOf))
  {
    obj := map[];
    seen' := seen;
    var i := 0;
    while i < |tags|
      invariant 0 <= i <= |tags|
      invariant obj == TagMap(tags[..i])
      invariant seen' == InsertAll(seen, Keys(tags[..i], KeyOf))
    {
      if tags[i].key !in seen' {
        seen' := seen' + [tags[i].key];
      }
      obj := obj[tags[i].key := tags[i].value];
      TagsSnoc(tags, i, seen);
      i := i + 1;
    }
    assert tags[..i] == tags;
  }

  lemma TagsSnoc(tags: seq<Tag>, i: nat, seen: seq<string>)
    requires i < |tags|
    ensures TagMap(tags[..i + 1]) == TagMap(tags[..i])[tags[i].key := tags[i].value]
    ensures InsertAll(seen, Keys(tags[..i + 1], KeyOf)) == Insert(InsertAll(seen, Keys(tags[..i], KeyOf)), tags[i].key)
  {
    TakeOneMore(tags, i);
    DropLast(tags[..i], tags[i]);
    KeysSnoc(tags[..i], tags[i], KeyOf, seen);
  }

  lemma RecordsSnoc(xs: seq<Ec2Instance>, x: Ec2Instance)
    ensures Records(xs + [x]) == Records(xs) + [ToRecord(x)]
    ensures AllTagKeys(xs + [x]) == AllTagKeys(xs) + Keys(x.tags, KeyOf)
  {
    DropLast(xs, x);
  }

  lemma InstancesSnoc(rs: seq<Reservation>, i: nat)
    requires i < |rs|
    ensures InstancesOf(rs[..i + 1]) == InstancesOf(rs[..i]) + rs[i].instances
  {
    TakeOneMore(rs, i);
    DropLast(rs[..i], rs[i]);
  }

  lemma LeavesSnoc(xs: seq<Instance>, x: Instance)
    ensures Leaves(xs + [x]) == Leaves(xs) + [Leaf(x)]
  {
    DropLast(xs, x);
  }

  lemma ExpandSnoc(pre: seq<Node>, gs: seq<Node>, g: Node)
    ensures pre + Expand(gs + [g]) == pre + Expand(gs) + [g] + Leaves(RecordsUnder(g))
  {
    DropLast(gs, g);
    AppendAssoc3(pre, Expand(gs) + [g], Leaves(RecordsUnder(g)));
    AppendAssoc3(pre, Expand(gs), [g]);
  }

  lemma GroupNodesSnoc(ks: seq<Value>, i: nat, xs: seq<Instance>, path: string)
    requires i < |ks|
    ensures GroupNodes(ks[..i + 1], xs, path) == GroupNodes(ks[..i], xs, path) + [GroupOf(xs, path, ks[i])]
  {
    TakeOneMore(ks, i);
    DropLast(ks[..i], ks[i]);
  }

  /** `(a + [g] + b)` with `g` replaced and one element pushed: the group object gains a child. */
  lemma GrowGroup<T>(a: seq<T>, g: T, b: seq<T>, g': T, x: T)
    ensures (a + [g] + b)[|a| := g'] + [x] == a + [g'] + (b + [x])
  {
  }

  /** The node list, the root's children and the links `update` derives from the filtered records `xs`. */
  ghost predicate IsTree(xs: seq<Instance>, groupBy: Option<string>, nodes: seq<Node>, rootChildren: seq<Node>, links: seq<Link>) {
    nodes == TreeNodes(xs, groupBy)
    && rootChildren == RootChildren(xs, groupBy)
    && links == TreeLinks(nodes, rootChildren)
  }

  /**
   * The node list and the root's children that `update` builds from the
   * filtered records `xs`: cleared, then refilled one push at a time.
   */
  method BuildTree(xs: seq<Instance>, groupBy: Option<string>) returns (nodes: seq<Node>, rootChildren: seq<Node>)
    ensures nodes == TreeNodes(xs, groupBy) && rootChildren == RootChildren(xs, groupBy)
  {
    if groupBy.Some? && groupBy.value != "" {
      nodes, rootChildren := BuildGroups(xs, groupBy.value);
    } else {
      nodes, rootChildren := AddUngrouped(xs);
    }
  }

  /** No grouping: every record goes under the root. */
  method AddUngrouped(xs: seq<Instance>) returns (nodes: seq<Node>, rootChildren: seq<Node>)
    ensures nodes == [Root] + Leaves(xs) && rootChildren == Leaves(xs)
  {
    nodes, rootChildren := [Root], [];
    var i := 0;
    while i < |xs|
      invariant 0 <= i <= |xs|
      invariant nodes == [Root] + Leaves(xs[..i]) && rootChildren == Leaves(xs[..i])
    {
      nodes := nodes + [Leaf(xs[i])];
      rootChildren := rootChildren + [Leaf(xs[i])];
      TakeOneMore(xs, i);
      LeavesSnoc(xs[..i], xs[i]);
      i := i + 1;
    }
    assert xs[..i] == xs;
  }

  /** Grouping: one group node per distinct key, each followed by its records. */
  method BuildGroups(xs: seq<Instance>, path: string) returns (nodes: seq<Node>, rootChildren: seq<Node>)
    ensures rootChildren == GroupNodes(GroupKeys(xs, path), xs, path)
    ensures nodes == [Root] + Expand(rootChildren)
  {
    nodes, rootChildren := [Root], [];
    var ks := CollectGroupKeys(xs, path);
    var i := 0;
    while i < |ks|
      invariant 0 <= i <= |ks|
      invariant rootChildren == GroupNodes(ks[..i], xs, path)
      invariant nodes == [Root] + Expand(rootChildren)
    {
      nodes, rootChildren := AddGroup(nodes, rootChildren, xs, ks[i], LooselyEquals(path, ks[i]));
      GroupNodesSnoc(ks, i, xs, path);
      ExpandSnoc([Root], GroupNodes(ks[..i], xs, path), GroupOf(xs, path, ks[i]));
      i := i + 1;
    }
    assert ks[..i] == ks;
  }

  /**
   * One group: push the group node to both lists, then push each record
   * that passes `inGroup` (the loose comparison of its key with `k`) and
   * add it to the group's children.
   */
  method AddGroup(nodes: seq<Node>, rootChildren: seq<Node>, xs: seq<Instance>, k: Value, inGroup: Instance -> bool)
    returns (nodes': seq<Node>, rootChildren': seq<Node>)
    ensures var g := Group(k, Members(xs, inGroup, true));
      rootChildren' == rootChildren + [g] && nodes' == nodes + [g] + Leaves(g.children)
  {
    var g, r := |nodes|, |rootChildren|;
    nodes' := nodes + [Group(k, [])];
    rootChildren' := rootChildren + [Group(k, [])];
    var members: seq<Instance> := [];
    var j := 0;
    while j < |xs|
      invariant 0 <= j <= |xs|
      invariant members == Members(xs[..j], inGroup, true)
      invariant nodes' == nodes + [Group(k, members)] + Leaves(members)
      invariant rootChildren' == rootChildren + [Group(k, members)]
    {
      TakeOneMore(xs, j);
      MembersSnoc(xs[..j], xs[j], inGroup, true);
      if inGroup(xs[j]) {
        GrowGroup(nodes, Group(k, members), Leaves(members), Group(k, members + [xs[j]]), Leaf(xs[j]));
        LeavesSnoc(members, xs[j]);
        ReplaceLast(rootChildren, Group(k, members), Group(k, members + [xs[j]]));
        members := members + [xs[j]];
        nodes' := nodes'[g := Group(k, members)] + [Leaf(xs[j])];
        rootChildren' := rootChildren'[r := Group(k, members)];
      }
      j := j + 1;
    }
    assert xs[..j] == xs;
  }

  class InstanceChart {
    var settings: Settings
    /** The blob in local storage, if any. */
    var saved: Option<Settings>
    var instances: seq<Instance>
    /** The `allTagKeys` set, in insertion order. */
    var allTagKeys: seq<string>
    var nodes: seq<Node>
    /** `rootNode.children`. */
    var rootChildren: seq<Node>
    var links: seq<Link>

    /** The tag key set holds no key twice. */
    ghost predicate Valid()
      reads this
    {
      Distinct(allTagKeys)
    }

    /**
     * `getGroupKeys()`: the keys offered for colouring, grouping and
     * filtering, each offered once.
     */
    function GroupKeys(): (r: seq<string>)
      reads this
      requires Valid()
      ensures Distinct(r)
      ensures |r| == 2 + |allTagKeys| && r[0] == "instanceId" && r[1] == "instanceType"
      ensures forall i :: 0 <= i < |allTagKeys| ==> r[i + 2] == "tags." + allTagKeys[i]
    {
      GroupKeyOptions(allTagKeys)
    }

    /**
     * The stored settings, or the defaults when nothing is stored; no
     * records yet, so the tree is the root alone.
     */
    constructor(stored: Option<Settings>)
      ensures Valid()
      ensures settings == (if stored.Some? then stored.value else DefaultSettings) && saved == stored
      ensures instances == [] && allTagKeys == []
      ensures nodes == [Root] && rootChildren == [] && links == []
      ensures IsTree([], settings.groupBy, nodes, rootChildren, links)
    {
      settings := if stored.Some? then stored.value else DefaultSettings;
      saved := stored;
      instances := [];
      allTagKeys := [];
      nodes := [Root];
      rootChildren := [];
      links := [];
      new;
      assert TreeLinks([Root], []) == [] by {
        assert [Root][..0] == [];
      }
      assert TreeNodes([], settings.groupBy) == [Root] && RootChildren([], settings.groupBy) == [];
    }

    /**
     * `update()`: filter the records, then rebuild the node list and the
     * root's children in place, and derive the links. When a filter throws,
     * nothing has been touched yet.
     */
    method Update(re: RegexEngine) returns (err: Option<FilterError>)
      requires Valid()
      modifies this
      ensures Valid()
      ensures settings == old(settings) && saved == old(saved)
      ensures instances == old(instances) && allTagKeys == old(allTagKeys)
      ensures var f := Filtered(Matches(settings.filterBy, re), instances);
        if f.Err? then
          err == Some(f.error) && nodes == old(nodes) && rootChildren == old(rootChildren) && links == old(links)
        else
          err.None? && IsTree(f.value, settings.groupBy, nodes, rootChildren, links)
    {
      var filtered := FilterInstances(settings.filterBy, re, instances);
      if filtered.Err? {
        return Some(filtered.error);
      }
      Show(filtered.value);
      return None;
    }

    /** Rebuild the tree from the filtered records `xs`, grouped as the settings say. */
    method Show(xs: seq<Instance>)
      modifies this`nodes, this`rootChildren, this`links
      ensures IsTree(xs, settings.groupBy, nodes, rootChildren, links)
    {
      var groupBy := settings.groupBy;
      var ns, rc := BuildTree(xs, groupBy);
      var ls := TreeLinks(ns, rc);
      assert IsTree(xs, groupBy, ns, rc, ls);
      nodes, rootChildren, links := ns, rc, ls;
      assert nodes == ns && rootChildren == rc && links == ls && settings.groupBy == groupBy;
    }

    /**
     * `loadInstanceData`, once the API has answered. On an error nothing
     * changes. Otherwise the records and the tag keys are replaced
     * wholesale, then `update` runs; if it throws, the new records stay but
     * the tree is the old one.
     */
    method LoadInstanceData(resp: Result<Response, ApiError>, re: RegexEngine) returns (outcome: LoadOutcome)
      requires Valid()
      modifies this
      ensures Valid()
      ensures settings == old(settings) && saved == old(saved)
      ensures resp.Err? ==>
        outcome == ApiFailed(resp.error)
        && instances == old(instances) && allTagKeys == old(allTagKeys)
        && nodes == old(nodes) && rootChildren == old(rootChildren) && links == old(links)
      ensures resp.Ok? ==> instances == RecordsOf(resp.value) && allTagKeys == TagKeysOf(resp.value)
      ensures resp.Ok? ==>
        var f := Filtered(Matches(settings.filterBy, re), instances);
        if f.Err? then
          outcome == UpdateFailed(f.error) && nodes == old(nodes) && rootChildren == old(rootChildren) && links == old(links)
        else
          outcome == Loaded(instances) && IsTree(f.value, settings.groupBy, nodes, rootChildren, links)
    {
      if resp.Err? {
        return ApiFailed(resp.error);
      }
      ReadReservations(resp.value.reservations);
      var err := Update(re);
      if err.Some? {
        return UpdateFailed(err.value);
      }
      return Loaded(instances);
    }

    /** The loop over reservations: one record per instance, tag keys collected on the way. */
    method ReadReservations(rs: seq<Reservation>)
      modifies this`instances, this`allTagKeys
      ensures instances == Records(InstancesOf(rs))
      ensures allTagKeys == Dedup(AllTagKeys(InstancesOf(rs)))
    {
      instances := [];
      allTagKeys := [];
      var ri := 0;
      while ri < |rs|
        invariant 0 <= ri <= |rs|
        invariant instances == Records(InstancesOf(rs[..ri]))
        invariant allTagKeys == InsertAll([], AllTagKeys(InstancesOf(rs[..ri])))
      {
        ReadInstances(rs[ri].instances);
        InstancesSnoc(rs, ri);
        RecordsAppend(InstancesOf(rs[..ri]), rs[ri].instances);
        AllTagKeysAppend(InstancesOf(rs[..ri]), rs[ri].instances);
        InsertAllAppend([], AllTagKeys(InstancesOf(rs[..ri])), AllTagKeys(rs[ri].instances));
        ri := ri + 1;
      }
      assert rs[..ri] == rs;
    }

    /** The loop over one reservation's instances. */
    method ReadInstances(insts: seq<Ec2Instance>)
      modifies this`instances, this`allTagKeys
      ensures instances == old(instances) + Records(insts)
      ensures allTagKeys == InsertAll(old(allTagKeys), AllTagKeys(insts))
    {
      var ii := 0;
      while ii < |insts|
        invariant 0 <= ii <= |insts|
        invariant instances == old(instances) + Records(insts[..ii])
        invariant allTagKeys == InsertAll(old(allTagKeys), AllTagKeys(insts[..ii]))
      {
        var inst := insts[ii];
        var tags, seen := ReduceTags(allTagKeys, inst.tags);
        allTagKeys := seen;
        instances := instances + [Instance(inst.instanceId, inst.instanceType, tags)];
        TakeOneMore(insts, ii);
        RecordsSnoc(insts[..ii], inst);
        InsertAllAppend(old(allTagKeys), AllTagKeys(insts[..ii]), Keys(inst.tags, KeyOf));
        ii := ii + 1;
      }
      assert insts[..ii] == insts;
    }

    /** `set accessKeyId`: an empty or unchanged key is ignored; otherwise store, save and reload. */
    method SetAccessKeyId(value: string) returns (action: Action)
      modifies this`settings, this`saved
      ensures if value == "" || old(settings).accessKeyId == Some(value) then
          action == NoChange && settings == old(settings) && saved == old(saved)
        else
          action == Reload && settings == old(settings).(accessKeyId := Some(value)) && saved == Some(settings)
    {
      if value == "" || settings.accessKeyId == Some(value) {
        return NoChange;
      }
      settings := settings.(accessKeyId := Some(value));
      saved := Some(settings);
      return Reload;
    }

    /** `set secretAccessKey`: an empty or unchanged key is ignored; otherwise store, save and reload. */
    method SetSecretAccessKey(value: string) returns (action: Action)
      modifies this`settings, this`saved
      ensures if value == "" || old(settings).secretAccessKey == Some(value) then
          action == NoChange && settings == old(settings) && saved == old(saved)
        else
          action == Reload && settings == old(settings).(secretAccessKey := Some(value)) && saved == Some(settings)
    {
      if value == "" || settings.secretAccessKey == Some(value) {
        return NoChange;
      }
      settings := settings.(secretAccessKey := Some(value));
      saved := Some(settings);
      return Reload;
    }

    /** `set colorBy`: an unchanged key is ignored; otherwise store, save and redraw. The tree is never touched. */
    method SetColorBy(value: Option<string>) returns (action: Action)
      modifies this`settings, this`saved
      ensures if old(settings).colorBy == value then
          action == NoChange && settings == old(settings) && saved == old(saved)
        else
          action == Redraw && settings == old(settings).(colorBy := value) && saved == Some(settings)
    {
      if settings.colorBy == value {
        return NoChange;
      }
      settings := settings.(colorBy := value);
      saved := Some(settings);
      return Redraw;
    }

    /**
     * `set groupBy`: an unchanged key is ignored; otherwise store the key,
     * rebuild the tree, and save. If the rebuild throws, the new key stays
     * in memory but is not saved, and the tree is the old one.
     */
    method SetGroupBy(value: Option<string>, re: RegexEngine) returns (action: Action, err: Option<FilterError>)
      requires Valid()
      modifies this
      ensures Valid()
      ensures instances == old(instances) && allTagKeys == old(allTagKeys)
      ensures old(settings).groupBy == value ==>
        action == NoChange && err.None? && settings == old(settings) && saved == old(saved)
        && nodes == old(nodes) && rootChildren == old(rootChildren) && links == old(links)
      ensures old(settings).groupBy != value ==>
        action == Rebuild && settings == old(settings).(groupBy := value)
        && var f := Filtered(Matches(settings.filterBy, re), instances);
        if f.Err? then
          err == Some(f.error) && saved == old(saved)
          && nodes == old(nodes) && rootChildren == old(rootChildren) && links == old(links)
        else
          err.None? && saved == Some(settings) && IsTree(f.value, value, nodes, rootChildren, links)
    {
      if settings.groupBy == value {
        return NoChange, None;
      }
      settings := settings.(groupBy := value);
      err := Update(re);
      if err.None? {
        saved := Some(settings);
      }
      return Rebuild, err;
    }
  }
}
