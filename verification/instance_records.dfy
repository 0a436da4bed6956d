/**
 * The flat instance records the chart keeps (`{id, nodeType, instanceId,
 * instanceType, tags}`), how they are built from a response, and which key
 * paths the user is offered for grouping, colouring and filtering.
 */
module InstanceRecords {
  import opened KeyResolver
  import opened Ec2
  import opened Grouping

  /** One record; its `id` and `instanceId` are both the EC2 instance id. */
  datatype Instance = Instance(instanceId: string, instanceType: string, tags: map<string, string>)

  function TagsValue(tags: map<string, string>): Value {
    Obj(map k | k in tags :: Str(tags[k]))
  }

  /** The record as the object that key paths are resolved against. */
  function AsValue(r: Instance): (v: Value)
    ensures v.Obj? && v.fields.Keys == {"id", "nodeType", "instanceId", "instanceType", "tags"}
    ensures v.fields["id"] == v.fields["instanceId"] == Str(r.instanceId)
    ensures v.fields["nodeType"] == Str("instance")
    ensures v.fields["instanceType"] == Str(r.instanceType)
    ensures v.fields["tags"] == TagsValue(r.tags)
  {
    Obj(map[
      "id" := Str(r.instanceId),
      "nodeType" := Str("instance"),
      "instanceId" := Str(r.instanceId),
      "instanceType" := Str(r.instanceType),
      "tags" := TagsValue(r.tags)])
  }

  /** The record pushed for one instance of the response. */
  function ToRecord(i: Ec2Instance): Instance {
    Instance(i.instanceId, i.instanceType, TagMap(i.tags))
  }

  function Records(xs: seq<Ec2Instance>): (rs: seq<Instance>)
    ensures |rs| == |xs|
    ensures forall i :: 0 <= i < |xs| ==> rs[i] == ToRecord(xs[i])
    decreases |xs|
  {
    if xs == [] then [] else Records(xs[..|xs| - 1]) + [ToRecord(xs[|xs| - 1])]
  }

  lemma RecordsAppend(a: seq<Ec2Instance>, b: seq<Ec2Instance>)
    ensures Records(a + b) == Records(a) + Records(b)
  {
  }

  /** The records of a whole response, one per instance, in response order. */
  function RecordsOf(resp: Response): seq<Instance> {
    Records(InstancesOf(resp.reservations))
  }

  /** Every tag key seen in a response, each once, in order of first appearance. */
  function TagKeysOf(resp: Response): seq<string> {
    Dedup(AllTagKeys(InstancesOf(resp.reservations)))
  }

  /** The fields of a record resolve to the instance's own data. */
  lemma RecordFields(r: Instance)
    ensures FindKey("id", AsValue(r)) == FindKey("instanceId", AsValue(r)) == Str(r.instanceId)
    ensures FindKey("nodeType", AsValue(r)) == Str("instance")
    ensures FindKey("instanceType", AsValue(r)) == Str(r.instanceType)
    ensures FindKey("tags", AsValue(r)) == TagsValue(r.tags)
  {
    IdField(r);
    InstanceIdField(r);
    NodeTypeField(r);
    InstanceTypeField(r);
    TagsField(r);
  }

  lemma IdField(r: Instance)
    ensures FindKey("id", AsValue(r)) == Str(r.instanceId)
  {
    PlainField(r, "id");
  }

  lemma InstanceIdField(r: Instance)
    ensures FindKey("instanceId", AsValue(r)) == Str(r.instanceId)
  {
    PlainField(r, "instanceId");
  }

  lemma NodeTypeField(r: Instance)
    ensures FindKey("nodeType", AsValue(r)) == Str("instance")
  {
    PlainField(r, "nodeType");
  }

  lemma InstanceTypeField(r: Instance)
    ensures FindKey("instanceType", AsValue(r)) == Str(r.instanceType)
  {
    PlainField(r, "instanceType");
  }

  lemma TagsField(r: Instance)
    ensures FindKey("tags", AsValue(r)) == TagsValue(r.tags)
  {
    PlainField(r, "tags");
  }

  lemma PlainField(r: Instance, k: string)
    requires k in AsValue(r).fields && '.' !in k
    ensures FindKey(k, AsValue(r)) == AsValue(r).fields[k]
  {
  }

  /**
   * `getGroupKeys()` over the tag keys seen so far: the two instance fields,
   * then one `tags.<key>` path per tag key. No option is offered twice.
   */
  function GroupKeyOptions(tagKeys: seq<string>): (r: seq<string>)
    ensures |r| == 2 + |tagKeys| && r[0] == "instanceId" && r[1] == "instanceType"
    ensures forall i :: 0 <= i < |tagKeys| ==> r[i + 2] == "tags." + tagKeys[i]
    ensures Distinct(tagKeys) ==> Distinct(r)
  {
    var r := ["instanceId", "instanceType"] + TagOptions(tagKeys);
    if Distinct(tagKeys) then OptionsDistinct(tagKeys); r else r
  }

  /** One `tags.<key>` path per tag key, in order. */
  function TagOptions(tagKeys: seq<string>): (r: seq<string>)
    ensures |r| == |tagKeys| && forall i :: 0 <= i < |tagKeys| ==> r[i] == "tags." + tagKeys[i]
  {
    seq(|tagKeys|, i requires 0 <= i < |tagKeys| => "tags." + tagKeys[i])
  }

  lemma OptionsDistinct(tagKeys: seq<string>)
    requires Distinct(tagKeys)
    ensures Distinct(["instanceId", "instanceType"] + TagOptions(tagKeys))
  {
    var r := ["instanceId", "instanceType"] + TagOptions(tagKeys);
    forall i, j | 0 <= i < j < |r|
      ensures r[i] != r[j]
    {
      if 2 <= i {
        assert r[i][5..] == tagKeys[i - 2] && r[j][5..] == tagKeys[j - 2];
      } else if 2 <= j {
        assert r[i][0] == 'i' && r[j][0] == 't';
      }
    }
  }

  /**
   * The option `tags.<key>` finds the tag's value on every record, provided
   * the key has no dot.
   */
  lemma TagOptionResolves(r: Instance, k: string)
    requires '.' !in k
    ensures FindKey("tags." + k, AsValue(r)) == if k in r.tags then Str(r.tags[k]) else Absent
  {
    PlainField(r, "tags");
    assert "tags." + k == "tags" + "." + k;
    FindKeyAtDot("tags", k, AsValue(r));
    var tv := TagsValue(r.tags);
    assert FindKey("tags." + k, AsValue(r)) == FindKey(k, tv);
    assert k in tv.fields <==> k in r.tags;
    assert k in r.tags ==> tv.fields[k] == Str(r.tags[k]);
  }

  /**
   * A tag key holding a dot is offered as an option but never found, on any
   * record: the path splits inside the key. EKS clusters tag their nodes this
   * way (`kubernetes.io/cluster`).
   */
  lemma DottedTagOptionMisses(r: Instance, k: string)
    requires '.' in k
    ensures FindKey("tags." + k, AsValue(r)) == Absent
  {
    var i := IndexOf(k, '.');
    var a, b := k[..i], k[i + 1..];
    assert k == a + "." + b;
    DottedKeyMisses(r, a, b);
  }

  /**
   * `tags.a.b` looks for a tag named `a`, then for `b` inside its value: in
   * `undefined` when there is no such tag, in a string when there is one.
   */
  lemma DottedKeyMisses(r: Instance, a: string, b: string)
    requires '.' !in a
    ensures FindKey("tags." + (a + "." + b), AsValue(r)) == Absent
  {
    assert "tags." + (a + "." + b) == ("tags." + a) + "." + b;
    FindKeyAtDot("tags." + a, b, AsValue(r));
    TagOptionResolves(r, a);
    if a in r.tags {
      FindKeyInString(b, r.tags[a]);
    }
  }

  /** Walking on from a string or from `undefined` never reaches an object. */
  lemma {:induction false} WalkFromScalar(segs: seq<string>, v: Value)
    requires !v.Obj?
    ensures Walk(segs, v).None? || !Walk(segs, v).value.Obj?
    decreases |segs|
  {
    if segs != [] && v.Str? {
      WalkFromScalar(segs[1..], Absent);
    }
  }

  /** On a record, the only path that resolves to an object is `tags`. */
  lemma ObjectOnlyAtTags(path: string, r: Instance)
    ensures FindKey(path, AsValue(r)).Obj? <==> path == "tags"
  {
    var o := AsValue(r);
    var segs := Split(path);
    JoinSplit(path);
    SplitWithoutDot("tags");
    var v0 := if segs[0] in o.fields then o.fields[segs[0]] else Absent;
    assert Walk(segs, o) == Walk(segs[1..], v0);
    if segs[0] != "tags" {
      WalkFromScalar(segs[1..], v0);
    } else if |segs| > 1 {
      var tv := TagsValue(r.tags);
      var v1 := if segs[1] in tv.fields then tv.fields[segs[1]] else Absent;
      assert Walk(segs[1..], tv) == Walk(segs[2..], v1);
      WalkFromScalar(segs[2..], v1);
    } else {
      assert segs == ["tags"];
    }
  }

  /**
   * Two records' values at the same path are both objects or neither, so
   * loose equality between them is plain equality: a record can never be
   * loosely equal to the key of a group other than its own.
   */
  lemma LooseEqAtSamePath(path: string, r1: Instance, r2: Instance)
    ensures LooseEq(FindKey(path, AsValue(r1)), FindKey(path, AsValue(r2)))
        <==> FindKey(path, AsValue(r1)) == FindKey(path, AsValue(r2))
  {
    ObjectOnlyAtTags(path, r1);
    ObjectOnlyAtTags(path, r2);
  }
}
