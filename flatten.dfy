/**
 * The field flattener (`flatten_and_extract`): projects the selected
 * metadata fields into string fragments, in field order and then in value
 * order, and joins them with ". ".
 */
module Flatten {
  import opened Wrappers
  import opened Json
  import opened Strings

  /** `map(str, vs)`. */
  function StrAll(render: Json -> string, vs: seq<Json>): seq<string> {
    if vs == [] then [] else [Str(render, vs[0])] + StrAll(render, vs[1..])
  }

  /** One list element: a dict gives `str` of each of its values, anything else `str` of itself. */
  function ItemFragments(render: Json -> string, x: Json): seq<string> {
    if x.JObj? then StrAll(render, Values(x.members)) else [Str(render, x)]
  }

  /** The elements of a list value, one after the other. */
  function ListFragments(render: Json -> string, xs: seq<Json>): seq<string> {
    if xs == [] then [] else ItemFragments(render, xs[0]) + ListFragments(render, xs[1..])
  }

  /**
   * What `v = metadata.get(f)` contributes: a string as it is, a list
   * element by element, a dict its values; absent fields, numbers,
   * booleans and null nothing.
   */
  function ValueFragments(render: Json -> string, v: Option<Json>): seq<string> {
    match v
    case Some(JStr(s)) => [s]
    case Some(JArr(xs)) => ListFragments(render, xs)
    case Some(JObj(ms)) => StrAll(render, Values(ms))
    case _ => []
  }

  /** The fields in the order given, duplicates included. */
  function FieldsFragments(render: Json -> string, ms: seq<(string, Json)>, fields: seq<string>): seq<string> {
    if fields == [] then []
    else ValueFragments(render, Lookup(ms, fields[0])) + FieldsFragments(render, ms, fields[1..])
  }

  /**
   * The fragments, or None when `metadata.get` raises because the metadata
   * is not a dict and there is at least one field to look up.
   */
  function Fragments(render: Json -> string, metadata: Json, fields: seq<string>): (r: Option<seq<string>>)
    ensures r.None? <==> fields != [] && !metadata.JObj?
  {
    if fields == [] then Some([])
    else if metadata.JObj? then Some(FieldsFragments(render, metadata.members, fields))
    else None
  }

  /** The result of `flatten_and_extract`, None when it raises. */
  function FlattenText(render: Json -> string, metadata: Json, fields: seq<string>): Option<string> {
    match Fragments(render, metadata, fields)
    case None => None
    case Some(vals) => Some(Join(vals, ". "))
  }

  lemma {:induction false} ListFragmentsAppend(render: Json -> string, a: seq<Json>, b: seq<Json>)
    ensures ListFragments(render, a + b) == ListFragments(render, a) + ListFragments(render, b)
  {
    if a == [] {
      assert a + b == b;
    } else {
      assert (a + b)[0] == a[0] && (a + b)[1..] == a[1..] + b;
      ListFragmentsAppend(render, a[1..], b);
    }
  }

  /** Fields are handled one by one: the fragments of `a + b` are those of `a`, then of `b`. */
  lemma {:induction false} FieldsFragmentsAppend(render: Json -> string, ms: seq<(string, Json)>, a: seq<string>, b: seq<string>)
    ensures FieldsFragments(render, ms, a + b) == FieldsFragments(render, ms, a) + FieldsFragments(render, ms, b)
  {
    if a == [] {
      assert a + b == b;
    } else {
      assert (a + b)[0] == a[0] && (a + b)[1..] == a[1..] + b;
      FieldsFragmentsAppend(render, ms, a[1..], b);
    }
  }

  lemma ListFragmentsSnoc(render: Json -> string, xs: seq<Json>, j: nat)
    requires j < |xs|
    ensures ListFragments(render, xs[..j + 1]) == ListFragments(render, xs[..j]) + ItemFragments(render, xs[j])
  {
    var x := xs[j];
    assert [x][1..] == [];
    assert ListFragments(render, [x]) == ItemFragments(render, x) + ListFragments(render, []);
    ListFragmentsAppend(render, xs[..j], [x]);
    assert xs[..j + 1] == xs[..j] + [x];
  }

  lemma FieldsFragmentsSnoc(render: Json -> string, ms: seq<(string, Json)>, fields: seq<string>, i: nat)
    requires i < |fields|
    ensures FieldsFragments(render, ms, fields[..i + 1]) ==
      FieldsFragments(render, ms, fields[..i]) + ValueFragments(render, Lookup(ms, fields[i]))
  {
    var f := fields[i];
    assert [f][1..] == [];
    assert FieldsFragments(render, ms, [f]) == ValueFragments(render, Lookup(ms, f)) + FieldsFragments(render, ms, []);
    FieldsFragmentsAppend(render, ms, fields[..i], [f]);
    assert fields[..i + 1] == fields[..i] + [f];
  }

  lemma ListStep(render: Json -> string, vals: seq<string>, out: seq<string>, xs: seq<Json>, j: nat)
    requires j < |xs| && out == vals + ListFragments(render, xs[..j])
    ensures out + ItemFragments(render, xs[j]) == vals + ListFragments(render, xs[..j + 1])
  {
    ListFragmentsSnoc(render, xs, j);
    AppendAssoc(vals, ListFragments(render, xs[..j]), ItemFragments(render, xs[j]));
  }

  /** One element of a list value: a dict extends `vals` by its values, anything else is appended. */
  method ExtendWithItem(render: Json -> string, vals: seq<string>, x: Json) returns (out: seq<string>)
    ensures out == vals + ItemFragments(render, x)
  {
    if x.JObj? {
      out := vals + StrAll(render, Values(x.members));
    } else {
      out := vals + [Str(render, x)];
    }
  }

  /** The inner loop over a list value: each element's fragments are appended to `vals`. */
  method ExtendWithList(render: Json -> string, vals: seq<string>, xs: seq<Json>) returns (out: seq<string>)
    ensures out == vals + ListFragments(render, xs)
  {
    out := vals;
    for j := 0 to |xs|
      invariant out == vals + ListFragments(render, xs[..j])
    {
      ListStep(render, vals, out, xs, j);
      out := ExtendWithItem(render, out, xs[j]);
    }
    assert xs[..|xs|] == xs;
  }

  /** One pass of the field loop: what `v = metadata.get(f)` appends to `vals`. */
  method ExtendWithValue(render: Json -> string, vals: seq<string>, v: Option<Json>) returns (out: seq<string>)
    ensures out == vals + ValueFragments(render, v)
  {
    out := vals;
    match v {
      case Some(JStr(s)) =>
        out := vals + [s];
      case Some(JArr(xs)) =>
        out := ExtendWithList(render, vals, xs);
      case Some(JObj(m)) =>
        out := vals + StrAll(render, Values(m));
      case _ =>
    }
  }

  /** The loop of `flatten_and_extract` over the selected fields. */
  method FlattenAndExtract(render: Json -> string, metadata: Json, fields: seq<string>) returns (raised: bool, text: string)
    ensures raised <==> FlattenText(render, metadata, fields).None?
    ensures !raised ==> text == FlattenText(render, metadata, fields).value
  {
    if fields == [] {
      return false, Join([], ". ");
    }
    if !metadata.JObj? {
      return true, "";   // the first `metadata.get(f)` raises AttributeError
    }
    var ms := metadata.members;
    var vals: seq<string> := [];
    for i := 0 to |fields|
      invariant vals == FieldsFragments(render, ms, fields[..i])
    {
      vals := ExtendWithValue(render, vals, Lookup(ms, fields[i]));
      FieldsFragmentsSnoc(render, ms, fields, i);
    }
    assert fields[..|fields|] == fields;
    return false, Join(vals, ". ");
  }

  /** Fields missing from the metadata add nothing. */
  lemma {:induction false} AbsentFieldsIgnored(render: Json -> string, ms: seq<(string, Json)>, fields: seq<string>)
    requires forall i :: 0 <= i < |fields| ==> fields[i] !in Keys(ms)
    ensures FieldsFragments(render, ms, fields) == []
  {
    if fields != [] {
      LookupKeys(ms, fields[0]);
      AbsentFieldsIgnored(render, ms, fields[1..]);
    }
  }

  lemma ExampleList(render: Json -> string, xs: seq<Json>)
    requires xs == [JStr("y"), JObj([("c", JStr("z"))])]
    ensures ListFragments(render, xs) == ["y", "z"]
  {
    var inner := xs[1];
    assert ItemFragments(render, inner) == ["z"] by {
      assert Values(inner.members) == [JStr("z")];
    }
    assert xs[1..] == [inner];
    assert ListFragments(render, [inner]) == ["z"];
  }

  lemma ExampleJoin(vals: seq<string>)
    requires vals == ["x", "y", "z"]
    ensures Join(vals, ". ") == "x. y. z"
  {
    assert vals[1..] == ["y", "z"];
    assert vals[1..][1..] == ["z"];
    assert Join(["z"], ". ") == "z";
    assert Join(["y", "z"], ". ") == "y. z";
  }

  /** `fields=["a","b"]` over `{"a": "x", "b": ["y", {"c": "z"}]}` gives "x. y. z". */
  lemma Example(render: Json -> string, metadata: Json, fields: seq<string>)
    requires metadata == JObj([("a", JStr("x")), ("b", JArr([JStr("y"), JObj([("c", JStr("z"))])]))])
    requires fields == ["a", "b"]
    ensures FlattenText(render, metadata, fields) == Some("x. y. z")
  {
    var ms := metadata.members;
    var xs := [JStr("y"), JObj([("c", JStr("z"))])];
    assert Lookup(ms, "a") == Some(JStr("x"));
    assert Lookup(ms, "b") == Some(JArr(xs)) by {
      assert ms[1..] == [("b", JArr(xs))];
    }
    ExampleList(render, xs);
    assert FieldsFragments(render, ms, ["b"]) == ["y", "z"];
    assert FieldsFragments(render, ms, fields) == ["x", "y", "z"] by {
      assert fields[1..] == ["b"];
    }
    ExampleJoin(["x", "y", "z"]);
  }
}
