/**
 * Resolution of a dotted key path over a loosely typed record (the chart's
 * `findKey`), and the two pieces of JavaScript value semantics the chart
 * relies on: loose equality `==` and conversion of a value to a string.
 */
module KeyResolver {
  import opened Wrappers

  /**
   * A value found inside a record: a string, a nested object, or
   * `undefined`. Records as `loadInstanceData` builds them hold nothing else.
   */
  datatype Value = Absent | Str(s: string) | Obj(fields: map<string, Value>)

  /** `s.split(".")`: the segments between dots; never empty, no segment holds a dot. */
  function Split(s: string): (segs: seq<string>)
    ensures |segs| >= 1
    ensures forall i :: 0 <= i < |segs| ==> '.' !in segs[i]
    decreases |s|
  {
    if s == [] then [""]
    else
      var rest := Split(s[1..]);
      if s[0] == '.' then [""] + rest
      else [[s[0]] + rest[0]] + rest[1..]
  }

  /** `segs.join(".")`. */
  function Join(segs: seq<string>): string
    decreases |segs|
  {
    if segs == [] then ""
    else if |segs| == 1 then segs[0]
    else segs[0] + "." + Join(segs[1..])
  }

  /** A path without a dot is a single segment. */
  lemma {:induction false} SplitWithoutDot(s: string)
    ensures '.' !in s ==> Split(s) == [s]
    decreases |s|
  {
    if s != [] && '.' !in s {
      assert '.' !in s[1..];
      SplitWithoutDot(s[1..]);
      assert s == [s[0]] + s[1..];
    }
  }

  /** Splitting at a dot splits the two sides independently. */
  lemma {:induction false} SplitAtDot(p: string, q: string)
    ensures Split(p + "." + q) == Split(p) + Split(q)
    decreases |p|
  {
    if p == [] {
      assert p + "." + q == "." + q;
      assert ("." + q)[1..] == q;
    } else {
      assert (p + "." + q)[1..] == p[1..] + "." + q;
      SplitAtDot(p[1..], q);
    }
  }

  /** Joining the segments of a path gives the path back. */
  lemma {:induction false} JoinSplit(s: string)
    ensures Join(Split(s)) == s
    decreases |s|
  {
    if s != [] {
      JoinSplit(s[1..]);
      var rest := Split(s[1..]);
      if s[0] == '.' {
        assert s == "." + s[1..];
      } else if |rest| == 1 {
        assert s == [s[0]] + s[1..];
      } else {
        assert Join(rest) == rest[0] + "." + Join(rest[1..]);
        assert s == [s[0]] + s[1..];
      }
    }
  }

  /** Splitting a join of dot-free segments gives the segments back. */
  lemma {:induction false} SplitJoin(segs: seq<string>)
    requires |segs| >= 1
    requires forall i :: 0 <= i < |segs| ==> '.' !in segs[i]
    ensures Split(Join(segs)) == segs
    decreases |segs|
  {
    SplitWithoutDot(segs[0]);
    if |segs| > 1 {
      SplitJoin(segs[1..]);
      SplitAtDot(segs[0], Join(segs[1..]));
      assert segs == [segs[0]] + segs[1..];
    }
  }

  /** One step of the reduction `o[i]`: indexing `undefined` throws (`None`). */
  function Index(o: Value, seg: string): Option<Value> {
    match o
    case Absent => None
    case Str(_) => Some(Absent)
    case Obj(m) => Some(if seg in m then m[seg] else Absent)
  }

  /** `segs.reduce((o, i) => o[i], o)`, with `None` where that throws. */
  function Walk(segs: seq<string>, o: Value): Option<Value>
    decreases |segs|
  {
    if segs == [] then Some(o)
    else
      match Index(o, segs[0])
      case None => None
      case Some(v) => Walk(segs[1..], v)
  }

  /**
   * `findKey(key, obj)`: the value at the dotted path `key`, or `undefined`
   * when any segment is missing or steps into `undefined` (the exception is
   * caught). `undefined` has no properties; a dot-free key is a plain lookup.
   */
  function FindKey(key: string, obj: Value): (r: Value)
    ensures obj == Absent ==> r == Absent
    ensures '.' !in key && obj.Obj? ==> r == (if key in obj.fields then obj.fields[key] else Absent)
  {
    SplitWithoutDot(key);
    assert [key][1..] == [];
    assert '.' !in key && obj.Obj? ==>
      Walk(Split(key), obj) == Walk([], if key in obj.fields then obj.fields[key] else Absent);
    match Walk(Split(key), obj)
    case None => Absent
    case Some(v) => v
  }

  /** Walking two paths one after the other is walking their concatenation. */
  lemma {:induction false} WalkAppend(a: seq<string>, b: seq<string>, o: Value)
    ensures Walk(a + b, o) == match Walk(a, o) case None => None case Some(v) => Walk(b, v)
    decreases |a|
  {
    if a == [] {
      assert a + b == b;
    } else {
      assert (a + b)[1..] == a[1..] + b;
      match Index(o, a[0])
      case None =>
      case Some(v) => WalkAppend(a[1..], b, v);
    }
  }

  /** Resolving `p.q` resolves `p` and then `q` in what was found. */
  lemma FindKeyAtDot(p: string, q: string, o: Value)
    ensures FindKey(p + "." + q, o) == FindKey(q, FindKey(p, o))
  {
    SplitAtDot(p, q);
    WalkAppend(Split(p), Split(q), o);
  }

  /**
   * A string has no properties in this model: any path resolved inside one
   * gives `undefined`.
   */
  lemma FindKeyInString(key: string, s: string)
    ensures FindKey(key, Str(s)) == Absent
  {
    var segs := Split(key);
    assert Walk(segs, Str(s)) == Walk(segs[1..], Absent);
  }

  /**
   * The documented use of `findKey`, with the key first as the method
   * declares it: `tags.Role` finds the `Role` entry of the `tags` object,
   * whatever else the record holds.
   */
  lemma FindKeyNested(p: string, q: string, v: Value, fields: map<string, Value>)
    requires '.' !in p && '.' !in q
    ensures FindKey(p + "." + q, Obj(fields[p := Obj(map[q := v])])) == v
  {
    var inner := Obj(map[q := v]);
    var obj := Obj(fields[p := inner]);
    assert FindKey(p, obj) == inner;
    FindKeyAtDot(p, q, obj);
  }

  /** `String(v)`, as used by template literals and by d3 for data keys. */
  function JsString(v: Value): (r: string)
    ensures v.Str? ==> r == v.s
  {
    match v
    case Absent => "undefined"
    case Str(s) => s
    case Obj(_) => "[object Object]"
  }

  /**
   * Loose equality `a == b`. A string compared with an object compares with
   * the object's string form; `undefined` equals only `undefined`. Between
   * two values of the same kind (both objects, or neither) it is plain
   * equality; objects are compared by content in this model.
   */
  function LooseEq(a: Value, b: Value): (r: bool)
    ensures a.Obj? == b.Obj? ==> (r <==> a == b)
    ensures a.Obj? != b.Obj? && r ==> JsString(a) == JsString(b) == "[object Object]"
  {
    match (a, b)
    case (Absent, Absent) => true
    case (Absent, _) => false
    case (_, Absent) => false
    case (Str(s), Str(t)) => s == t
    case (Str(s), Obj(_)) => s == "[object Object]"
    case (Obj(_), Str(t)) => t == "[object Object]"
    case (Obj(m), Obj(n)) => m == n
  }
}
