/**
 * JSON values as the handlers send them with `res.json(...)`. An object is
 * the sequence of its members in insertion order, which is the order
 * `JSON.stringify` writes them; a member whose value is `undefined` is left
 * out when the object is built (see `Http.Echo`). Numbers are carried as
 * exact reals and never computed with.
 */
module Json {
  import opened Wrappers

  datatype Value =
    | Null
    | Bool(b: bool)
    | Num(n: real)
    | Str(s: string)
    | Arr(items: seq<Value>)
    | Obj(members: seq<(string, Value)>)

  /** The value of the first member named `key`, if there is one */
  function Lookup(members: seq<(string, Value)>, key: string): (r: Option<Value>)
    ensures r.Some? <==> exists i :: 0 <= i < |members| && members[i].0 == key
    decreases |members|
  {
    if members == [] then None
    else if members[0].0 == key then Some(members[0].1)
    else Lookup(members[1..], key)
  }

  /** `v[key]` on an object; nothing on any other value */
  function Get(v: Value, key: string): Option<Value>
  {
    if v.Obj? then Lookup(v.members, key) else None
  }

  /** `v[k1][k2]` */
  function Get2(v: Value, k1: string, k2: string): Option<Value>
  {
    match Get(v, k1)
    case Some(inner) => Get(inner, k2)
    case None => None
  }

  /** The first member with the key is the one found. */
  lemma {:induction false} LookupAt(members: seq<(string, Value)>, i: nat, key: string)
    requires i < |members| && members[i].0 == key
    requires forall j :: 0 <= j < i ==> members[j].0 != key
    ensures Lookup(members, key) == Some(members[i].1)
    decreases i
  {
    if i > 0 {
      LookupAt(members[1..], i - 1, key);
    }
  }

  /** A key no member has is not found. */
  lemma {:induction false} LookupMissing(members: seq<(string, Value)>, key: string)
    requires forall j :: 0 <= j < |members| ==> members[j].0 != key
    ensures Lookup(members, key) == None
    decreases |members|
  {
    if members != [] {
      LookupMissing(members[1..], key);
    }
  }
}
