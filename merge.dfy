/**
 * `merge_captions.py`: a join by id of the captioned records into the
 * full dataset. Every input record is written once, in order, with its
 * `imageCaption` set from the captioned file or to `"N/A"`.
 */
module MergeCaptions {
  import opened Wrappers
  import opened Json
  import opened Maps
  import opened Files

  // ----- step 1: the captions dict -----

  /**
   * Lines 12-16 on one line of the captioned file: None when the line
   * raises (it does not decode, is not a dict, or has a truthy id that is
   * unhashable); otherwise the assignment `captions[record_id] = caption`
   * it makes, which it makes exactly when its id is truthy.
   */
  function Entry(line: Option<Json>): Option<Option<(Json, Json)>> {
    if line.None? || !line.value.JObj? then None
    else
      var id := GetOr(line.value.members, "id", JNull);
      if !Truthy(id) then Some(None)
      else if !Hashable(id) then None
      else Some(Some((id, GetOr(line.value.members, "imageCaption", JStr("N/A")))))
  }

  /**
   * A line raises exactly when it does not decode, is not a dict, or has a
   * truthy unhashable id; otherwise it assigns `captions[id]` exactly when
   * its id is truthy, to its `imageCaption` or `"N/A"` without one.
   */
  lemma EntryCases(line: Option<Json>)
    ensures var r := Entry(line);
      (r.None? <==>
        line.None? || !line.value.JObj? ||
        (Truthy(GetOr(line.value.members, "id", JNull)) && !Hashable(GetOr(line.value.members, "id", JNull)))) &&
      (r.Some? ==> (r.value.Some? <==> Truthy(GetOr(line.value.members, "id", JNull)))) &&
      (r.Some? && r.value.Some? ==>
        r.value.value == (GetOr(line.value.members, "id", JNull), GetOr(line.value.members, "imageCaption", JStr("N/A"))))
  {
  }

  /** Step 1 raises on some line. */
  predicate Raises(lines: seq<Option<Json>>) {
    exists j :: 0 <= j < |lines| && Entry(lines[j]).None?
  }

  /** The assignment a line that does not raise makes. */
  function Assignment(line: Option<Json>): Option<(Json, Json)> {
    match Entry(line)
    case None => None
    case Some(e) => e
  }

  function Assignments(lines: seq<Option<Json>>): (r: seq<Option<(Json, Json)>>)
    ensures |r| == |lines| && forall j :: 0 <= j < |lines| ==> r[j] == Assignment(lines[j])
  {
    if lines == [] then [] else Assignments(lines[..|lines| - 1]) + [Assignment(lines[|lines| - 1])]
  }

  /** The `captions` dict after step 1, read when it does not raise. */
  function Captions(lines: seq<Option<Json>>): map<Json, Json> {
    Collect(Assignments(lines))
  }

  /**
   * An id is a key of `captions` exactly when some captioned record has it
   * as a truthy id; a falsy id is never a key.
   */
  lemma CaptionsKeys(lines: seq<Option<Json>>, id: Json)
    requires !Raises(lines)
    ensures id in Captions(lines) <==>
      exists j :: 0 <= j < |lines| && lines[j].Some? && lines[j].value.JObj? && GetOr(lines[j].value.members, "id", JNull) == id && Truthy(id)
    ensures !Truthy(id) ==> id !in Captions(lines)
  {
    CollectKeys(Assignments(lines), id);
    if id in Captions(lines) {
      var j :| 0 <= j < |lines| && Writes(Assignments(lines)[j], id);
      assert Entry(lines[j]).Some?;
    }
    if exists j :: 0 <= j < |lines| && lines[j].Some? && lines[j].value.JObj? && GetOr(lines[j].value.members, "id", JNull) == id && Truthy(id) {
      var j :| 0 <= j < |lines| && lines[j].Some? && lines[j].value.JObj? && GetOr(lines[j].value.members, "id", JNull) == id && Truthy(id);
      assert Entry(lines[j]).Some?;
      assert Writes(Assignments(lines)[j], id);
    }
  }

  /** The last captioned record with an id decides its caption: its `imageCaption`, or `"N/A"` without one. */
  lemma CaptionsLastWins(lines: seq<Option<Json>>, j: nat)
    requires j < |lines| && Assignment(lines[j]).Some?
    requires forall l :: j < l < |lines| ==> !Writes(Assignment(lines[l]), Assignment(lines[j]).value.0)
    ensures var id := GetOr(lines[j].value.members, "id", JNull);
      id in Captions(lines) && Captions(lines)[id] == GetOr(lines[j].value.members, "imageCaption", JStr("N/A"))
  {
    CollectLastWins(Assignments(lines), j);
  }

  /** Lines 10-16: `crashed` when a line raises; otherwise the `captions` dict. */
  method LoadCaptions(lines: seq<Option<Json>>) returns (crashed: bool, captions: map<Json, Json>)
    ensures crashed <==> Raises(lines)
    ensures !crashed ==> captions == Captions(lines)
  {
    captions := map[];
    var i := 0;
    while i < |lines|
      invariant 0 <= i <= |lines|
      invariant forall j :: 0 <= j < i ==> Entry(lines[j]).Some?
      invariant captions == Captions(lines[..i])
    {
      if Entry(lines[i]).None? {
        return true, captions;
      }
      var a := Assignment(lines[i]);
      if a.Some? {
        captions := captions[a.value.0 := a.value.1];
      }
      CaptionsNext(lines, i);
      i := i + 1;
    }
    assert lines[..i] == lines;
    return false, captions;
  }

  /** One more line of the captioned file makes its assignment last. */
  lemma CaptionsNext(lines: seq<Option<Json>>, i: nat)
    requires i < |lines|
    ensures var a := Assignment(lines[i]);
      Captions(lines[..i + 1]) == if a.Some? then Captions(lines[..i])[a.value.0 := a.value.1] else Captions(lines[..i])
  {
    assert lines[..i + 1][..i] == lines[..i];
    CollectSnoc(Assignments(lines[..i]), Assignment(lines[i]));
  }

  // ----- step 2: the merge -----

  /** The caption an id gets: `captions[id]` when it is a key, else `"N/A"`. */
  function CaptionFor(id: Json, captions: map<Json, Json>): Json {
    if id in captions then captions[id] else JStr("N/A")
  }

  /**
   * Lines 21-27 on one input line: None when it raises (it does not decode,
   * is not a dict, or its id is unhashable, even a falsy one); otherwise the
   * record written.
   */
  function Merged(line: Option<Json>, captions: map<Json, Json>): (r: Option<Json>)
    ensures r.Some? <==> line.Some? && line.value.JObj? && Hashable(GetOr(line.value.members, "id", JNull))
  {
    if line.None? || !line.value.JObj? then None
    else
      var ms := line.value.members;
      var id := GetOr(ms, "id", JNull);
      if !Hashable(id) then None
      else Some(JObj(Put(ms, "imageCaption", CaptionFor(id, captions))))
  }

  /**
   * A merged record differs from its input only in `imageCaption`, which
   * holds the caption of its id (an existing one is overwritten in place,
   * a missing one is added last).
   */
  lemma MergedRecord(line: Option<Json>, captions: map<Json, Json>)
    requires Merged(line, captions).Some?
    ensures var ms := line.value.members;
      var r := Merged(line, captions).value;
      r.JObj? &&
      SameApartFrom(r, line.value, "imageCaption") &&
      Lookup(r.members, "imageCaption") == Some(CaptionFor(GetOr(ms, "id", JNull), captions)) &&
      Keys(r.members) == if "imageCaption" in Keys(ms) then Keys(ms) else Keys(ms) + ["imageCaption"]
  {
    var ms := line.value.members;
    var caption := CaptionFor(GetOr(ms, "id", JNull), captions);
    PutApartFrom(ms, "imageCaption", caption);
    PutKeys(ms, "imageCaption", caption);
  }

  /**
   * A record whose id is missing or falsy gets `"N/A"` when `captions` is
   * the dict step 1 built.
   */
  lemma FalsyIdGetsNA(lines: seq<Option<Json>>, line: Option<Json>)
    requires !Raises(lines) && Merged(line, Captions(lines)).Some?
    requires !Truthy(GetOr(line.value.members, "id", JNull))
    ensures Lookup(Merged(line, Captions(lines)).value.members, "imageCaption") == Some(JStr("N/A"))
  {
    CaptionsKeys(lines, GetOr(line.value.members, "id", JNull));
    MergedRecord(line, Captions(lines));
  }

  /** The records written so far, and whether the script has raised. */
  datatype Output = Output(written: seq<Json>, crashed: bool)

  /** Step 2 over the first n input lines. */
  function MergeTo(input: seq<Option<Json>>, n: nat, captions: map<Json, Json>): Output
    requires n <= |input|
  {
    if n == 0 then Output([], false)
    else
      var o := MergeTo(input, n - 1, captions);
      if o.crashed then o
      else
        match Merged(input[n - 1], captions)
        case None => Output(o.written, true)
        case Some(r) => Output(o.written + [r], false)
  }

  /**
   * One record per input line, in order, up to the first line that raises;
   * without one, exactly as many records as lines.
   */
  lemma {:induction false} MergeToShape(input: seq<Option<Json>>, n: nat, captions: map<Json, Json>)
    requires n <= |input|
    ensures var o := MergeTo(input, n, captions);
      |o.written| <= n &&
      (forall j :: 0 <= j < |o.written| ==> Merged(input[j], captions) == Some(o.written[j])) &&
      (o.crashed <==> exists j :: 0 <= j < n && Merged(input[j], captions).None?) &&
      (!o.crashed ==> |o.written| == n) &&
      (o.crashed ==> Merged(input[|o.written|], captions).None?)
  {
    if n > 0 {
      MergeToShape(input, n - 1, captions);
    }
  }

  /** Once a line has raised, the later lines change nothing. */
  lemma {:induction false} MergeCrashSticky(input: seq<Option<Json>>, k: nat, n: nat, captions: map<Json, Json>)
    requires k <= n <= |input| && MergeTo(input, k, captions).crashed
    ensures MergeTo(input, n, captions) == MergeTo(input, k, captions)
  {
    if k < n {
      MergeCrashSticky(input, k, n - 1, captions);
    }
  }

  /**
   * The script: build `captions`, then rewrite the output file with every
   * input record merged. When step 1 raises, the output file is not
   * opened and keeps its contents.
   */
  method MergeFiles(captioned: seq<Option<Json>>, input: seq<Option<Json>>, out: Sink) returns (crashed: bool)
    modifies out
    ensures Raises(captioned) ==> crashed && out.records == old(out.records)
    ensures !Raises(captioned) ==>
      var o := MergeTo(input, |input|, Captions(captioned));
      crashed == o.crashed && out.records == o.written
  {
    var captions;
    crashed, captions := LoadCaptions(captioned);
    if crashed {
      return;
    }
    out.Truncate();
    var i := 0;
    while i < |input|
      invariant 0 <= i <= |input|
      invariant !MergeTo(input, i, captions).crashed && out.records == MergeTo(input, i, captions).written
    {
      var r := Merged(input[i], captions);
      if r.None? {
        MergeCrashSticky(input, i + 1, |input|, captions);
        return true;
      }
      out.Append(r.value);
      i := i + 1;
    }
  }
}
