/**
 * Decoded JSON values as the scripts see them after `json.loads`.
 * Objects keep their members in insertion order, as Python dicts do;
 * their keys are distinct, so a lookup may take the first matching member.
 */
module Json {
  import opened Wrappers

  datatype Json =
    | JNull
    | JBool(b: bool)
    | JNum(n: real)
    | JStr(s: string)
    | JArr(items: seq<Json>)
    | JObj(members: seq<(string, Json)>)

  /** Python truthiness: `None`, `False`, zero, `""`, `[]` and `{}` are falsy. */
  predicate Truthy(j: Json) {
    match j
    case JNull => false
    case JBool(b) => b
    case JNum(n) => n != 0.0
    case JStr(s) => s != ""
    case JArr(xs) => xs != []
    case JObj(ms) => ms != []
  }

  /** Lists and dicts cannot be set members or dict keys (`TypeError: unhashable type`). */
  predicate Hashable(j: Json) {
    !j.JArr? && !j.JObj?
  }

  /** The keys of an object, in insertion order. */
  function Keys(ms: seq<(string, Json)>): (ks: seq<string>)
    ensures |ks| == |ms| && forall i :: 0 <= i < |ms| ==> ks[i] == ms[i].0
  {
    if ms == [] then [] else [ms[0].0] + Keys(ms[1..])
  }

  /** The values of an object, in insertion order (`d.values()`). */
  function Values(ms: seq<(string, Json)>): (vs: seq<Json>)
    ensures |vs| == |ms| && forall i :: 0 <= i < |ms| ==> vs[i] == ms[i].1
  {
    if ms == [] then [] else [ms[0].1] + Values(ms[1..])
  }

  /** `key in d` and `d[key]`: the value of the first member named `key`. */
  function Lookup(ms: seq<(string, Json)>, key: string): Option<Json> {
    if ms == [] then None
    else if ms[0].0 == key then Some(ms[0].1)
    else Lookup(ms[1..], key)
  }

  /** A key reads a value exactly when it is among the keys, and the value is that of a member named `key`. */
  lemma {:induction false} LookupKeys(ms: seq<(string, Json)>, key: string)
    ensures Lookup(ms, key).Some? <==> key in Keys(ms)
    ensures Lookup(ms, key).Some? ==> exists i :: 0 <= i < |ms| && ms[i] == (key, Lookup(ms, key).value)
  {
    if ms != [] && ms[0].0 != key {
      LookupKeys(ms[1..], key);
      assert Keys(ms) == [ms[0].0] + Keys(ms[1..]);
      if Lookup(ms, key).Some? {
        var i :| 0 <= i < |ms[1..]| && ms[1..][i] == (key, Lookup(ms, key).value);
        assert ms[i + 1] == ms[1..][i];
      }
    }
  }

  /** `d.get(key, default)`. */
  function GetOr(ms: seq<(string, Json)>, key: string, default: Json): Json {
    Lookup(ms, key).GetOr(default)
  }

  /**
   * `d[key] = v`: the value of an existing key is replaced where it stands,
   * a new key is appended at the end.
   */
  function Put(ms: seq<(string, Json)>, key: string, v: Json): seq<(string, Json)> {
    if ms == [] then [(key, v)]
    else if ms[0].0 == key then [(key, v)] + ms[1..]
    else [ms[0]] + Put(ms[1..], key, v)
  }

  /** After `d[key] = v`, `d[key]` is `v` and every other key reads as before. */
  lemma {:induction false} PutLookup(ms: seq<(string, Json)>, key: string, v: Json, other: string)
    ensures Lookup(Put(ms, key, v), key) == Some(v)
    ensures other != key ==> Lookup(Put(ms, key, v), other) == Lookup(ms, other)
  {
    if ms != [] && ms[0].0 != key {
      PutLookup(ms[1..], key, v, other);
    }
  }

  /** `d[key] = v` keeps the key order; a new key goes last. */
  lemma {:induction false} PutKeys(ms: seq<(string, Json)>, key: string, v: Json)
    ensures Keys(Put(ms, key, v)) == if key in Keys(ms) then Keys(ms) else Keys(ms) + [key]
  {
    if ms == [] {
    } else if ms[0].0 == key {
      assert Keys(ms)[0] == key;
    } else {
      PutKeys(ms[1..], key, v);
      assert Keys(ms) == [ms[0].0] + Keys(ms[1..]);
    }
  }

  /** `j[key]`: None when `j` is not a dict (TypeError) or has no such key (KeyError). */
  function Index(j: Json, key: string): (r: Option<Json>)
    ensures r.Some? <==> j.JObj? && key in Keys(j.members)
  {
    if j.JObj? then LookupKeys(j.members, key); Lookup(j.members, key) else None
  }

  /** `rec["id"]` followed by the membership test: None when either raises. */
  function ReadId(rec: Json): (r: Option<Json>)
    ensures r.Some? <==> rec.JObj? && Lookup(rec.members, "id").Some? && Hashable(Lookup(rec.members, "id").value)
    ensures r.Some? ==> Lookup(rec.members, "id") == r
  {
    if rec.JObj? then
      match Lookup(rec.members, "id")
      case None => None
      case Some(id) => if Hashable(id) then Some(id) else None
    else None
  }

  /** Two dicts that agree on every key but `key`. */
  ghost predicate SameApartFrom(o: Json, rec: Json, key: string) {
    o.JObj? && rec.JObj? && forall k :: k != key ==> Lookup(o.members, k) == Lookup(rec.members, k)
  }

  /** `d[key] = v` changes nothing but `key`, which then reads `v`. */
  lemma PutApartFrom(ms: seq<(string, Json)>, key: string, v: Json)
    ensures SameApartFrom(JObj(Put(ms, key, v)), JObj(ms), key)
    ensures Lookup(Put(ms, key, v), key) == Some(v)
  {
    PutLookup(ms, key, v, key);
    forall k | k != key
      ensures Lookup(Put(ms, key, v), k) == Lookup(ms, k)
    {
      PutLookup(ms, key, v, k);
    }
  }

  /**
   * Python's `str(j)`: a string is itself; how other values print is not
   * modelled and is left to `render`.
   */
  function Str(render: Json -> string, j: Json): string {
    if j.JStr? then j.s else render(j)
  }
}
