/**
 * The slice of Gson's `JsonObject` the settings objects use: booleans, integers and objects
 * whose members keep their insertion order.
 */
module Json {
  import opened Wrappers

  datatype Json =
    | JBool(b: bool)
    | JInt(n: int)
    | JObject(members: seq<(string, Json)>)

  /** The keys of an object's members, in order. */
  function Keys(members: seq<(string, Json)>): (r: seq<string>)
    ensures |r| == |members|
    ensures forall i :: 0 <= i < |members| ==> r[i] == members[i].0
  {
    seq(|members|, i requires 0 <= i < |members| => members[i].0)
  }

  /** The value stored under `key`, if any. */
  function Lookup(members: seq<(string, Json)>, key: string): (r: Option<Json>)
    ensures r.None? <==> key !in Keys(members)
    ensures r.Some? ==> exists i :: 0 <= i < |members| && members[i] == (key, r.value)
  {
    if members == [] then None
    else if members[0].0 == key then
      assert members[0] == (key, members[0].1);
      Some(members[0].1)
    else
      var r := Lookup(members[1..], key);
      assert Keys(members) == [members[0].0] + Keys(members[1..]);
      assert r.Some? ==> exists i :: 0 <= i < |members| && members[i] == (key, r.value) by {
        if r.Some? {
          var i :| 0 <= i < |members[1..]| && members[1..][i] == (key, r.value);
          assert members[i + 1] == (key, r.value);
        }
      }
      r
  }

  /** `JsonObject.get(key)`: `None` for a missing key and for a value that is not an object. */
  function Get(j: Json, key: string): Option<Json> {
    if j.JObject? then Lookup(j.members, key) else None
  }

  /** Following a path of keys from the root. */
  function GetPath(j: Json, path: seq<string>): Option<Json>
    decreases |path|
  {
    if path == [] then Some(j)
    else
      match Get(j, path[0])
      case None => None
      case Some(child) => GetPath(child, path[1..])
  }

  /**
   * `JsonObject.add(key, value)` / `addProperty`: a new key is appended; an existing key keeps
   * its position and takes the new value.
   */
  function Put(members: seq<(string, Json)>, key: string, value: Json): (r: seq<(string, Json)>)
    ensures key !in Keys(members) ==> r == members + [(key, value)]
    ensures |r| == if key in Keys(members) then |members| else |members| + 1
  {
    if key in Keys(members) then
      seq(|members|, i requires 0 <= i < |members| => if members[i].0 == key then (key, value) else members[i])
    else members + [(key, value)]
  }

  /** Two member lists that agree on every entry with key `k` answer the same for `k`. */
  lemma {:induction false} LookupAgree(a: seq<(string, Json)>, b: seq<(string, Json)>, k: string)
    requires |a| == |b|
    requires forall i :: 0 <= i < |a| ==> (a[i].0 == k <==> b[i].0 == k)
    requires forall i :: 0 <= i < |a| && a[i].0 == k ==> a[i].1 == b[i].1
    ensures Lookup(a, k) == Lookup(b, k)
    decreases |a|
  {
    if a != [] && a[0].0 != k {
      LookupAgree(a[1..], b[1..], k);
    }
  }

  /** An entry appended under another key does not change a lookup. */
  lemma {:induction false} LookupAppendOther(a: seq<(string, Json)>, p: (string, Json), k: string)
    requires p.0 != k
    ensures Lookup(a + [p], k) == Lookup(a, k)
    decreases |a|
  {
    if a != [] {
      assert (a + [p])[1..] == a[1..] + [p];
      LookupAppendOther(a[1..], p, k);
    }
  }

  /** What `Put` stores is what `Lookup` finds, and the other keys keep their values. */
  lemma LookupPut(members: seq<(string, Json)>, key: string, value: Json, other: string)
    ensures Lookup(Put(members, key, value), key) == Some(value)
    ensures other != key ==> Lookup(Put(members, key, value), other) == Lookup(members, other)
  {
    var r := Put(members, key, value);
    if key in Keys(members) {
      var j :| 0 <= j < |members| && Keys(members)[j] == key;
      assert Keys(r)[j] == key;
      if other != key {
        LookupAgree(r, members, other);
      }
    } else {
      assert Keys(r)[|members|] == key;
      var v := Lookup(r, key).value;
      var i :| 0 <= i < |r| && r[i] == (key, v);
      if i < |members| {
        assert Keys(members)[i] == key;
      }
      if other != key {
        LookupAppendOther(members, (key, value), other);
      }
    }
  }

  /** A lookup finds the first member with the key. */
  lemma {:induction false} LookupFirst(members: seq<(string, Json)>, i: nat)
    requires i < |members|
    requires forall j :: 0 <= j < i ==> members[j].0 != members[i].0
    ensures Lookup(members, members[i].0) == Some(members[i].1)
    decreases i
  {
    if i > 0 {
      LookupFirst(members[1..], i - 1);
    }
  }

  /** No key occurs twice. */
  predicate DistinctKeys(members: seq<(string, Json)>) {
    forall i, j :: 0 <= i < j < |members| ==> members[i].0 != members[j].0
  }

  /**
   * `JsonObject().apply { add(k1, v1); add(k2, v2); ... }`: the properties added one after the
   * other. With distinct keys each one is appended, so the object lists them in call order.
   */
  method Build(props: seq<(string, Json)>) returns (o: Json)
    requires DistinctKeys(props)
    ensures o == JObject(props)
  {
    var members: seq<(string, Json)> := [];
    for k := 0 to |props|
      invariant members == props[..k]
    {
      assert props[k].0 !in Keys(members);
      members := Put(members, props[k].0, props[k].1);
      assert props[..k + 1] == props[..k] + [props[k]];
    }
    assert props[..|props|] == props;
    o := JObject(members);
  }
}
