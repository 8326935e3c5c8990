/** A closed, JSON-shaped value: the model of the record's opaque `object Data`
    payload and of the object a record is serialised to. Members keep their
    insertion order, as System.Text.Json writes them. */
module Json {
  import opened Common

  datatype Json =
    | Null
    | Bool(b: bool)
    | Num(n: int)
    | Str(s: string)
    | Arr(items: seq<Json>)
    | Obj(members: seq<(string, Json)>)

  function Keys(members: seq<(string, Json)>): (ks: seq<string>)
    ensures |ks| == |members|
    ensures forall i :: 0 <= i < |members| ==> ks[i] == members[i].0
  {
    if members == [] then [] else [members[0].0] + Keys(members[1..])
  }

  /** The value under the first member named `key`, if any. */
  function Lookup(members: seq<(string, Json)>, key: string): (r: Option<Json>)
    ensures r.Some? <==> key in Keys(members)
    ensures r.Some? ==> (key, r.value) in members
  {
    if members == [] then None
    else if members[0].0 == key then Some(members[0].1)
    else Lookup(members[1..], key)
  }

  /** `Lookup` on an object; anything else has no members. */
  function Member(j: Json, key: string): Option<Json> {
    if j.Obj? then Lookup(j.members, key) else None
  }

  /** The lookup finds the first member with the key. */
  lemma {:induction false} LookupAt(members: seq<(string, Json)>, key: string, i: nat)
    requires i < |members| && members[i].0 == key
    requires forall j :: 0 <= j < i ==> members[j].0 != key
    ensures Lookup(members, key) == Some(members[i].1)
    decreases i
  {
    if i > 0 {
      LookupAt(members[1..], key, i - 1);
    }
  }

  /** Two member lists with the same keys that agree wherever the key is `key`
      answer a lookup of `key` alike. */
  lemma {:induction false} LookupAgrees(a: seq<(string, Json)>, b: seq<(string, Json)>, key: string)
    requires Keys(a) == Keys(b)
    requires forall i :: 0 <= i < |a| && a[i].0 == key ==> a[i].1 == b[i].1
    ensures Lookup(a, key) == Lookup(b, key)
  {
    if a != [] {
      assert a[0].0 == b[0].0;
      assert Keys(a[1..]) == Keys(b[1..]);
      LookupAgrees(a[1..], b[1..], key);
    }
  }
}
