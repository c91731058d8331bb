/**
 * `image_captioning/caption_assets.py`: caption the image of every asset
 * not yet in the output file, through a url-to-caption cache seeded from
 * that file, and append each record whose caption is not an error.
 */
module Captioning {
  import opened Wrappers
  import opened Json
  import opened Strings
  import opened Maps
  import opened Files

  // ----- caption_image -----

  /** Opening the fetched image and captioning it: the exception's text, or the decoded caption. */
  datatype Decoded = DecodeRaised(message: string) | Decoded(caption: string)

  /**
   * The answer to `requests.get(url)`: the exception's text, or the
   * Content-Type (`""` when absent) with what decoding the image gives.
   */
  datatype Fetch = FetchRaised(message: string) | Fetched(contentType: string, decoded: Decoded)

  /** `caption_image` past the cache: a caption, or the error text returned in its place. */
  datatype Outcome = Success(caption: string) | Failure(error: string)

  /**
   * Lines 44-56: only an image that decodes gives a caption; every other
   * answer gives a text starting with `ERROR: `.
   */
  function Attempt(f: Fetch): (r: Outcome)
    ensures r.Success? <==> f.Fetched? && StartsWith(f.contentType, "image/") && f.decoded.Decoded?
    ensures r.Success? ==> r.caption == f.decoded.caption
    ensures r.Failure? ==> StartsWith(r.error, "ERROR: ")
    ensures f.Fetched? && !StartsWith(f.contentType, "image/") ==> r == Failure("ERROR: Non-image content type (" + f.contentType + ")")
  {
    match f
    case FetchRaised(m) => Failure("ERROR: " + m)
    case Fetched(ct, d) =>
      if !StartsWith(ct, "image/") then Failure("ERROR: Non-image content type (" + ct + ")")
      else
        match d
        case DecodeRaised(m) => Failure("ERROR: " + m)
        case Decoded(t) => Success(t)
  }

  /** The string `caption_image` returns past the cache. */
  function Text(o: Outcome): string {
    if o.Success? then o.caption else o.error
  }

  /** The cache and the urls fetched so far, in order. */
  datatype Pass = Pass(cache: map<Json, Json>, fetched: seq<Json>)

  /** Every entry of `c0` is in `c1` with the same value. */
  predicate Extends(c0: map<Json, Json>, c1: map<Json, Json>) {
    forall u :: u in c0 ==> u in c1 && c1[u] == c0[u]
  }

  /**
   * Lines 41-56 on a hashable url: a cached url gives its caption with no
   * fetch and no change; any other url is fetched once, and only a
   * successful caption enters the cache.
   */
  function CaptionStep(s: Pass, url: Json, f: Fetch): (r: (Json, Pass))
    ensures url in s.cache ==> r == (s.cache[url], s)
    ensures url !in s.cache ==> r.0 == JStr(Text(Attempt(f))) && r.1.fetched == s.fetched + [url]
    ensures Extends(s.cache, r.1.cache)
    ensures forall u :: u in r.1.cache && u !in s.cache ==>
      u == url && Attempt(f).Success? && r.1.cache[u] == JStr(Attempt(f).caption)
    ensures url !in s.cache && Attempt(f).Success? ==> url in r.1.cache && r.1.cache[url] == JStr(Attempt(f).caption)
  {
    if url in s.cache then (s.cache[url], s)
    else
      var o := Attempt(f);
      (JStr(Text(o)), Pass(if o.Success? then s.cache[url := JStr(o.caption)] else s.cache, s.fetched + [url]))
  }

  // ----- loading the output file -----

  /** Line 31: the id a line adds to `processed_ids`; None when it does not decode, is not a dict, or the id is unhashable. */
  function LoadedId(line: Option<Json>): (r: Option<Json>)
    ensures r.Some? <==> line.Some? && line.value.JObj? && Hashable(GetOr(line.value.members, "id", JNull))
    ensures r.Some? ==> r.value == GetOr(line.value.members, "id", JNull)
  {
    if line.Some? && line.value.JObj? && Hashable(GetOr(line.value.members, "id", JNull)) then
      Some(GetOr(line.value.members, "id", JNull))
    else None
  }

  /** `record.get("nftMetadata", {}).get("imageUrl")`; None when the metadata is not a dict, which raises. */
  function ImageUrl(rec: Json): (r: Option<Json>)
    requires rec.JObj?
    ensures r.Some? <==> GetOr(rec.members, "nftMetadata", JObj([])).JObj?
  {
    var meta := GetOr(rec.members, "nftMetadata", JObj([]));
    if meta.JObj? then Some(GetOr(meta.members, "imageUrl", JNull)) else None
  }

  /**
   * Lines 32-34: the assignment `image_cache[url] = record["imageCaption"]`
   * a line makes, if any. It needs the id to have been added first, a
   * truthy hashable url and an `imageCaption` key.
   */
  function CacheEntry(line: Option<Json>): (r: Option<(Json, Json)>)
    ensures r.Some? <==>
      LoadedId(line).Some? && ImageUrl(line.value).Some? && Truthy(ImageUrl(line.value).value) &&
      Hashable(ImageUrl(line.value).value) && Lookup(line.value.members, "imageCaption").Some?
    ensures r.Some? ==> r.value == (ImageUrl(line.value).value, Lookup(line.value.members, "imageCaption").value)
  {
    if LoadedId(line).None? then None
    else
      var rec := line.value;
      match ImageUrl(rec)
      case None => None
      case Some(url) =>
        if Truthy(url) && Lookup(rec.members, "imageCaption").Some? && Hashable(url) then
          Some((url, Lookup(rec.members, "imageCaption").value))
        else None
  }

  function CacheEntries(lines: seq<Option<Json>>): (r: seq<Option<(Json, Json)>>)
    ensures |r| == |lines| && forall j :: 0 <= j < |lines| ==> r[j] == CacheEntry(lines[j])
  {
    if lines == [] then [] else CacheEntries(lines[..|lines| - 1]) + [CacheEntry(lines[|lines| - 1])]
  }

  /** The ids the startup loop adds to `processed_ids`. */
  function LoadedIds(lines: seq<Option<Json>>): set<Json> {
    if lines == [] then {}
    else LoadedIds(lines[..|lines| - 1]) + (if LoadedId(lines[|lines| - 1]).Some? then {LoadedId(lines[|lines| - 1]).value} else {})
  }

  /** An id is loaded exactly when some line of the output file adds it, even one whose url or caption then raises. */
  lemma {:induction false} LoadedIdsHas(lines: seq<Option<Json>>, id: Json)
    ensures id in LoadedIds(lines) <==> exists j :: 0 <= j < |lines| && LoadedId(lines[j]) == Some(id)
  {
    if lines != [] {
      var n := |lines| - 1;
      var init := lines[..n];
      LoadedIdsHas(init, id);
      assert forall j :: 0 <= j < n ==> init[j] == lines[j];
      assert id in LoadedIds(lines) <==> id in LoadedIds(init) || LoadedId(lines[n]) == Some(id);
    }
  }

  /** The cache after the startup loop. */
  function LoadedCache(lines: seq<Option<Json>>): map<Json, Json> {
    Collect(CacheEntries(lines))
  }

  /** A url is cached at startup exactly when some line of the output file assigns it. */
  lemma LoadedCacheKeys(lines: seq<Option<Json>>, url: Json)
    ensures url in LoadedCache(lines) <==> exists j :: 0 <= j < |lines| && Writes(CacheEntry(lines[j]), url)
  {
    CollectKeys(CacheEntries(lines), url);
  }

  /** The last line of the output file that assigns a url decides its cached caption. */
  lemma LoadedCacheLastWins(lines: seq<Option<Json>>, j: nat)
    requires j < |lines| && CacheEntry(lines[j]).Some?
    requires forall l :: j < l < |lines| ==> !Writes(CacheEntry(lines[l]), CacheEntry(lines[j]).value.0)
    ensures CacheEntry(lines[j]).value.0 in LoadedCache(lines)
    ensures LoadedCache(lines)[CacheEntry(lines[j]).value.0] == CacheEntry(lines[j]).value.1
  {
    CollectLastWins(CacheEntries(lines), j);
  }

  // ----- the main loop -----

  /**
   * Lines 61-69: the url the loop captions for a line, or None when the line
   * is skipped or raises before: it does not decode, `record["id"]` or the
   * membership test raises, the id was processed, the metadata is not a dict,
   * the url is falsy, or it is unhashable (`url in image_cache` raises).
   */
  function Target(line: Option<Json>, ids: set<Json>): (r: Option<Json>)
    ensures r.Some? <==>
      line.Some? && ReadId(line.value).Some? && ReadId(line.value).value !in ids &&
      ImageUrl(line.value).Some? && Truthy(ImageUrl(line.value).value) && Hashable(ImageUrl(line.value).value)
    ensures r.Some? ==> r == ImageUrl(line.value)
  {
    if line.None? then None
    else
      match ReadId(line.value)
      case None => None
      case Some(id) =>
        if id in ids then None
        else
          match ImageUrl(line.value)
          case None => None
          case Some(url) => if Truthy(url) && Hashable(url) then Some(url) else None
  }

  /** Line 70: a caption that is written; one that is not a string raises on `startswith`. */
  predicate Accepted(caption: Json) {
    caption.JStr? && !StartsWith(caption.s, "ERROR:")
  }

  /** The pass after a line, and the records it writes. */
  datatype Stepped = Stepped(pass: Pass, out: seq<Json>)

  /** Lines 60-78 on the i-th line, `ids` being `processed_ids`. */
  function Step(s: Pass, line: Option<Json>, i: nat, ids: set<Json>, fetch: (nat, Json) -> Fetch): Stepped {
    match Target(line, ids)
    case None => Stepped(s, [])
    case Some(url) =>
      var (caption, t) := CaptionStep(s, url, fetch(i, url));
      Stepped(t, if Accepted(caption) then [JObj(Put(line.value.members, "imageCaption", caption))] else [])
  }

  /** The caption `caption_image` gives a url in the pass `s`. */
  function CaptionIn(s: Pass, url: Json, f: Fetch): Json {
    if url in s.cache then s.cache[url] else JStr(Text(Attempt(f)))
  }

  /**
   * A line is written, once and with `imageCaption` set to its caption,
   * exactly when it has an unprocessed id and a truthy image url whose
   * caption is a string not starting with `ERROR:`.
   */
  lemma StepWrites(s: Pass, line: Option<Json>, i: nat, ids: set<Json>, fetch: (nat, Json) -> Fetch)
    ensures var t := Step(s, line, i, ids, fetch);
      (t.out != [] <==> Target(line, ids).Some? && Accepted(CaptionIn(s, Target(line, ids).value, fetch(i, Target(line, ids).value)))) &&
      (t.out != [] ==>
        var url := Target(line, ids).value;
        var caption := CaptionIn(s, url, fetch(i, url));
        var r := JObj(Put(line.value.members, "imageCaption", caption));
        t.out == [r] && SameApartFrom(r, line.value, "imageCaption") && Lookup(r.members, "imageCaption") == Some(caption))
  {
    if Target(line, ids).Some? {
      var url := Target(line, ids).value;
      PutApartFrom(line.value.members, "imageCaption", CaptionIn(s, url, fetch(i, url)));
    }
  }

  /** The pass after the first n lines, and everything written on the way. */
  function RunTo(lines: seq<Option<Json>>, n: nat, ids: set<Json>, fetch: (nat, Json) -> Fetch, s0: Pass): Stepped
    requires n <= |lines|
  {
    if n == 0 then Stepped(s0, [])
    else
      var r := RunTo(lines, n - 1, ids, fetch, s0);
      var t := Step(r.pass, lines[n - 1], n - 1, ids, fetch);
      Stepped(t.pass, r.out + t.out)
  }

  /** A line never drops or replaces a cached caption. */
  lemma StepKeepsCache(s: Pass, line: Option<Json>, i: nat, ids: set<Json>, fetch: (nat, Json) -> Fetch)
    ensures Extends(s.cache, Step(s, line, i, ids, fetch).pass.cache)
  {
    if Target(line, ids).Some? {
      var url := Target(line, ids).value;
      var r := CaptionStep(s, url, fetch(i, url));
    }
  }

  /** The cache only grows: a cached caption is never dropped or replaced. */
  lemma {:induction false} RunCacheGrows(lines: seq<Option<Json>>, m: nat, n: nat, ids: set<Json>, fetch: (nat, Json) -> Fetch, s0: Pass)
    requires m <= n <= |lines|
    ensures Extends(RunTo(lines, m, ids, fetch, s0).pass.cache, RunTo(lines, n, ids, fetch, s0).pass.cache)
    decreases n
  {
    if m < n {
      RunCacheGrows(lines, m, n - 1, ids, fetch, s0);
      StepKeepsCache(RunTo(lines, n - 1, ids, fetch, s0).pass, lines[n - 1], n - 1, ids, fetch);
    }
  }

  /** The line that added a url to the cache. */
  ghost predicate AddedAt(lines: seq<Option<Json>>, i: nat, n: nat, ids: set<Json>, fetch: (nat, Json) -> Fetch, s0: Pass, u: Json)
    requires n <= |lines|
  {
    i < n && u !in RunTo(lines, i, ids, fetch, s0).pass.cache && u in RunTo(lines, i + 1, ids, fetch, s0).pass.cache &&
    u in RunTo(lines, n, ids, fetch, s0).pass.cache &&
    RunTo(lines, n, ids, fetch, s0).pass.cache[u] == RunTo(lines, i + 1, ids, fetch, s0).pass.cache[u]
  }

  /** A url cached by the end of the run was added by one line and kept its caption since. */
  lemma {:induction false} RunCacheOrigin(lines: seq<Option<Json>>, n: nat, ids: set<Json>, fetch: (nat, Json) -> Fetch, s0: Pass, u: Json)
    requires n <= |lines|
    requires u in RunTo(lines, n, ids, fetch, s0).pass.cache && u !in s0.cache
    ensures exists i: nat :: AddedAt(lines, i, n, ids, fetch, s0, u)
  {
    assert n > 0;
    var r := RunTo(lines, n - 1, ids, fetch, s0);
    if u in r.pass.cache {
      RunCacheOrigin(lines, n - 1, ids, fetch, s0, u);
      var i: nat :| AddedAt(lines, i, n - 1, ids, fetch, s0, u);
      StepKeepsCache(r.pass, lines[n - 1], n - 1, ids, fetch);
      assert AddedAt(lines, i, n, ids, fetch, s0, u);
    } else {
      assert AddedAt(lines, n - 1, n, ids, fetch, s0, u);
    }
  }

  /** A line adds to the cache only its own url, holding the caption fetched for it. */
  lemma StepCache(s: Pass, line: Option<Json>, i: nat, ids: set<Json>, fetch: (nat, Json) -> Fetch, u: Json)
    requires u in Step(s, line, i, ids, fetch).pass.cache && u !in s.cache
    ensures Target(line, ids) == Some(u) && Attempt(fetch(i, u)).Success?
    ensures Step(s, line, i, ids, fetch).pass.cache[u] == JStr(Attempt(fetch(i, u)).caption)
  {
  }

  /** An image whose caption was fetched successfully on line i. */
  predicate CaptionedAt(lines: seq<Option<Json>>, i: nat, ids: set<Json>, fetch: (nat, Json) -> Fetch, u: Json, c: Json) {
    i < |lines| && Target(lines[i], ids) == Some(u) && Attempt(fetch(i, u)).Success? && c == JStr(Attempt(fetch(i, u)).caption)
  }

  /** Only successful captions enter the cache: every url the loop adds holds a caption some line fetched. */
  lemma RunCacheFromSuccess(lines: seq<Option<Json>>, ids: set<Json>, fetch: (nat, Json) -> Fetch, s0: Pass, u: Json)
    requires u in RunTo(lines, |lines|, ids, fetch, s0).pass.cache && u !in s0.cache
    ensures exists i: nat :: CaptionedAt(lines, i, ids, fetch, u, RunTo(lines, |lines|, ids, fetch, s0).pass.cache[u])
  {
    RunCacheOrigin(lines, |lines|, ids, fetch, s0, u);
    var i: nat :| AddedAt(lines, i, |lines|, ids, fetch, s0, u);
    StepCache(RunTo(lines, i, ids, fetch, s0).pass, lines[i], i, ids, fetch, u);
    assert CaptionedAt(lines, i, ids, fetch, u, RunTo(lines, |lines|, ids, fetch, s0).pass.cache[u]);
  }

  /** An error text starting with `ERROR: ` is rejected. */
  lemma ErrorRejected(e: string)
    requires StartsWith(e, "ERROR: ")
    ensures !Accepted(JStr(e))
  {
    assert e[..6] == e[..7][..6];
  }

  /** A written line leaves its caption, which is accepted, in the cache under its url. */
  lemma WrittenIsCached(s: Pass, line: Option<Json>, i: nat, ids: set<Json>, fetch: (nat, Json) -> Fetch)
    requires Step(s, line, i, ids, fetch).out != []
    ensures var t := Step(s, line, i, ids, fetch);
      var url := Target(line, ids).value;
      url in t.pass.cache && Accepted(t.pass.cache[url]) &&
      t.out == [JObj(Put(line.value.members, "imageCaption", t.pass.cache[url]))]
  {
    var url := Target(line, ids).value;
    var o := Attempt(fetch(i, url));
    if url !in s.cache && o.Failure? {
      ErrorRejected(o.error);
    }
  }

  /** A line whose url is cached is answered from the cache, changing nothing but the output. */
  lemma CachedWritten(s: Pass, line: Option<Json>, i: nat, ids: set<Json>, fetch: (nat, Json) -> Fetch)
    requires Target(line, ids).Some? && Target(line, ids).value in s.cache
    ensures var t := Step(s, line, i, ids, fetch);
      var c := s.cache[Target(line, ids).value];
      t.pass == s && t.out == if Accepted(c) then [JObj(Put(line.value.members, "imageCaption", c))] else []
  {
  }

  /** Right after a line is written, its caption is cached under its url. */
  lemma WrittenThenCached(lines: seq<Option<Json>>, ids: set<Json>, fetch: (nat, Json) -> Fetch, s0: Pass, j: nat)
    requires j < |lines|
    requires Step(RunTo(lines, j, ids, fetch, s0).pass, lines[j], j, ids, fetch).out != []
    ensures var url := Target(lines[j], ids).value;
      var after := RunTo(lines, j + 1, ids, fetch, s0).pass;
      url in after.cache && Accepted(after.cache[url]) &&
      Step(RunTo(lines, j, ids, fetch, s0).pass, lines[j], j, ids, fetch).out == [JObj(Put(lines[j].value.members, "imageCaption", after.cache[url]))]
  {
    WrittenIsCached(RunTo(lines, j, ids, fetch, s0).pass, lines[j], j, ids, fetch);
  }

  /** A url cached after line m keeps its caption until line n. */
  lemma StaysCached(lines: seq<Option<Json>>, ids: set<Json>, fetch: (nat, Json) -> Fetch, s0: Pass, m: nat, n: nat, url: Json)
    requires m <= n <= |lines| && url in RunTo(lines, m, ids, fetch, s0).pass.cache
    ensures url in RunTo(lines, n, ids, fetch, s0).pass.cache
    ensures RunTo(lines, n, ids, fetch, s0).pass.cache[url] == RunTo(lines, m, ids, fetch, s0).pass.cache[url]
  {
    RunCacheGrows(lines, m, n, ids, fetch, s0);
  }

  /**
   * `processed_ids` is not extended by the loop: a line repeating a line
   * that was written is written again, identically, with its caption taken
   * from the cache and no fetch.
   */
  lemma RepeatWrittenAgain(lines: seq<Option<Json>>, ids: set<Json>, fetch: (nat, Json) -> Fetch, s0: Pass, j: nat, k: nat)
    requires j < k < |lines| && lines[k] == lines[j]
    requires Step(RunTo(lines, j, ids, fetch, s0).pass, lines[j], j, ids, fetch).out != []
    ensures var before := RunTo(lines, k, ids, fetch, s0).pass;
      var t := Step(before, lines[k], k, ids, fetch);
      t.out == Step(RunTo(lines, j, ids, fetch, s0).pass, lines[j], j, ids, fetch).out && t.pass == before
  {
    var url := Target(lines[j], ids).value;
    WrittenThenCached(lines, ids, fetch, s0, j);
    StaysCached(lines, ids, fetch, s0, j + 1, k, url);
    CachedWritten(RunTo(lines, k, ids, fetch, s0).pass, lines[k], k, ids, fetch);
  }

  /** One more line: the pass is that line's, and its records follow the earlier ones in the file. */
  lemma RunToNext(lines: seq<Option<Json>>, i: nat, ids: set<Json>, fetch: (nat, Json) -> Fetch, s0: Pass, lines0: seq<Option<Json>>)
    requires i < |lines|
    ensures var r := RunTo(lines, i, ids, fetch, s0);
      var t := Step(r.pass, lines[i], i, ids, fetch);
      RunTo(lines, i + 1, ids, fetch, s0).pass == t.pass &&
      lines0 + AsLines(RunTo(lines, i + 1, ids, fetch, s0).out) == lines0 + AsLines(r.out) + AsLines(t.out)
  {
    var r := RunTo(lines, i, ids, fetch, s0);
    var t := Step(r.pass, lines[i], i, ids, fetch);
    AsLinesAppend(r.out, t.out);
    AppendAssoc(lines0, AsLines(r.out), AsLines(t.out));
  }

  // ----- the script as imperative code -----

  /** Lines 26-36: `processed_ids` and `image_cache` as read from the output file's lines. */
  method LoadExisting(lines: seq<Option<Json>>) returns (ids: set<Json>, cache: map<Json, Json>)
    ensures ids == LoadedIds(lines) && cache == LoadedCache(lines)
  {
    ids, cache := {}, map[];
    var i := 0;
    while i < |lines|
      invariant 0 <= i <= |lines|
      invariant ids == LoadedIds(lines[..i]) && cache == LoadedCache(lines[..i])
    {
      var id := LoadedId(lines[i]);
      if id.Some? {
        ids := ids + {id.value};
        var e := CacheEntry(lines[i]);
        if e.Some? {
          cache := cache[e.value.0 := e.value.1];
        }
      }
      assert lines[..i + 1][..i] == lines[..i];
      CollectSnoc(CacheEntries(lines[..i]), CacheEntry(lines[i]));
      i := i + 1;
    }
    assert lines[..i] == lines;
  }

  /** The captioning state: the loaded ids, the cache, and the urls fetched. */
  class Captioner {
    const fetch: (nat, Json) -> Fetch
    const processedIds: set<Json>
    var cache: map<Json, Json>
    var fetched: seq<Json>

    constructor (fetch: (nat, Json) -> Fetch, ids: set<Json>, cache: map<Json, Json>)
      ensures this.fetch == fetch && processedIds == ids && this.cache == cache && fetched == []
    {
      this.fetch := fetch;
      processedIds := ids;
      this.cache := cache;
      fetched := [];
    }

    /** `caption_image(url)` for the i-th line; `raised` when the url is unhashable. */
    method CaptionImage(i: nat, url: Json) returns (raised: bool, caption: Json)
      modifies this
      ensures raised <==> !Hashable(url)
      ensures raised ==> cache == old(cache) && fetched == old(fetched)
      ensures !raised ==>
        var (c, t) := CaptionStep(Pass(old(cache), old(fetched)), url, fetch(i, url));
        caption == c && cache == t.cache && fetched == t.fetched
    {
      if !Hashable(url) {
        return true, JNull;
      }
      if url in cache {
        return false, cache[url];
      }
      fetched := fetched + [url];
      var o := Attempt(fetch(i, url));
      if o.Success? {
        cache := cache[url := JStr(o.caption)];
      }
      return false, JStr(Text(o));
    }

    /** Lines 60-78 on the i-th line. */
    method CaptionLine(i: nat, line: Option<Json>, out: LineFile)
      modifies this, out
      ensures var t := Step(Pass(old(cache), old(fetched)), line, i, processedIds, fetch);
        cache == t.pass.cache && fetched == t.pass.fetched && out.lines == old(out.lines) + AsLines(t.out)
    {
      if line.None? {
        return;
      }
      var id := ReadId(line.value);
      if id.None? || id.value in processedIds {
        return;
      }
      var url := ImageUrl(line.value);
      if url.None? || !Truthy(url.value) {
        return;
      }
      var raised, caption := CaptionImage(i, url.value);
      if raised || !Accepted(caption) {
        return;
      }
      out.Append(JObj(Put(line.value.members, "imageCaption", caption)));
    }

    /** Lines 58-78: every input line in order. */
    method CaptionLines(input: seq<Option<Json>>, out: LineFile)
      modifies this, out
      ensures var r := RunTo(input, |input|, processedIds, fetch, Pass(old(cache), old(fetched)));
        cache == r.pass.cache && fetched == r.pass.fetched && out.lines == old(out.lines) + AsLines(r.out)
    {
      ghost var s0, lines0 := Pass(cache, fetched), out.lines;
      var i := 0;
      while i < |input|
        invariant 0 <= i <= |input|
        invariant var r := RunTo(input, i, processedIds, fetch, s0);
          cache == r.pass.cache && fetched == r.pass.fetched && out.lines == lines0 + AsLines(r.out)
      {
        CaptionLine(i, input[i], out);
        RunToNext(input, i, processedIds, fetch, s0, lines0);
        i := i + 1;
      }
    }
  }

  /**
   * The script: load the output file, then caption the input lines,
   * appending to the same file.
   */
  method CaptionAssets(input: seq<Option<Json>>, fetch: (nat, Json) -> Fetch, out: LineFile) returns (c: Captioner)
    modifies out
    ensures var r := RunTo(input, |input|, LoadedIds(old(out.lines)), fetch, Pass(LoadedCache(old(out.lines)), []));
      c.cache == r.pass.cache && c.fetched == r.pass.fetched && out.lines == old(out.lines) + AsLines(r.out)
  {
    var ids, cache := LoadExisting(out.lines);
    c := new Captioner(fetch, ids, cache);
    c.CaptionLines(input, out);
  }
}
