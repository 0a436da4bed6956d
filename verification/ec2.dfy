/**
 * The part of an EC2 `describeInstances` response that both versions of the
 * chart read: reservations holding instances, each with an id, a type and a
 * list of tags.
 */
module Ec2 {
  import opened Grouping

  datatype Tag = Tag(key: string, value: string)
  datatype Ec2Instance = Ec2Instance(instanceId: string, instanceType: string, tags: seq<Tag>)
  datatype Reservation = Reservation(instances: seq<Ec2Instance>)
  datatype Response = Response(reservations: seq<Reservation>)

  /** The error the SDK passes to the callback instead of a response. */
  datatype ApiError = ApiError(message: string)

  /** Every instance of every reservation, in response order. */
  function InstancesOf(rs: seq<Reservation>): seq<Ec2Instance>
    decreases |rs|
  {
    if rs == [] then [] else InstancesOf(rs[..|rs| - 1]) + rs[|rs| - 1].instances
  }

  function KeyOf(t: Tag): string { t.key }

  /**
   * The tag list folded into a dictionary, one `obj[tag.Key] = tag.Value`
   * after the other: its keys are exactly the tag keys.
   */
  function TagMap(tags: seq<Tag>): (m: map<string, string>)
    ensures forall k :: k in m <==> k in Keys(tags, KeyOf)
    decreases |tags|
  {
    if tags == [] then map[]
    else
      var n := |tags| - 1;
      TagMap(tags[..n])[tags[n].key := tags[n].value]
  }

  /** When a key is repeated, the value of its last tag is the one kept. */
  lemma {:induction false} TagMapLastWins(tags: seq<Tag>, i: nat)
    requires i < |tags|
    requires forall j :: i < j < |tags| ==> tags[j].key != tags[i].key
    ensures tags[i].key in TagMap(tags) && TagMap(tags)[tags[i].key] == tags[i].value
    decreases |tags|
  {
    var n := |tags| - 1;
    if i < n {
      var p := tags[..n];
      forall j | i < j < |p|
        ensures p[j].key != p[i].key
      {
        assert p[j] == tags[j] && p[i] == tags[i];
      }
      TagMapLastWins(p, i);
      assert tags[n].key != tags[i].key;
    }
  }

  /** The keys of all tags of all instances, in order, repetitions included. */
  function AllTagKeys(xs: seq<Ec2Instance>): seq<string>
    decreases |xs|
  {
    if xs == [] then [] else AllTagKeys(xs[..|xs| - 1]) + Keys(xs[|xs| - 1].tags, KeyOf)
  }

  lemma {:induction false} AllTagKeysAppend(a: seq<Ec2Instance>, b: seq<Ec2Instance>)
    ensures AllTagKeys(a + b) == AllTagKeys(a) + AllTagKeys(b)
    decreases |b|
  {
    if b == [] {
      assert a + b == a;
    } else {
      var n := |b| - 1;
      SplitLast(a, b);
      AllTagKeysAppend(a, b[..n]);
      AllTagKeysSnoc(a + b[..n], b[n]);
      AllTagKeysSnoc(b[..n], b[n]);
    }
  }

  lemma AllTagKeysSnoc(xs: seq<Ec2Instance>, x: Ec2Instance)
    ensures AllTagKeys(xs + [x]) == AllTagKeys(xs) + Keys(x.tags, KeyOf)
  {
    DropLast(xs, x);
  }
}
