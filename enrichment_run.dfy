/**
 * The enrichment driver: loads the ids already in the success store, then
 * runs the graph once per input record whose id is new, writing a
 * checkpoint after every hundredth record processed. The set of loaded
 * ids is not extended during the run.
 */
module EnrichmentRun {
  import opened Wrappers
  import opened Json
  import opened Enrichment

  const CHECKPOINT_EVERY := 100

  /** The ids of the success store's lines, whatever they are. */
  function StoreIds(store: seq<VectorRecord>): (ids: set<Json>)
    ensures forall i :: 0 <= i < |store| ==> store[i].id in ids
    ensures forall id :: id in ids ==> exists i :: 0 <= i < |store| && store[i].id == id
  {
    set i | 0 <= i < |store| :: store[i].id
  }

  /**
   * `load_existing_ids`: the ids of the success store's lines; None when
   * one of them is a list or a dict, which cannot go into a set. A missing
   * file is the empty store.
   */
  function LoadExistingIds(store: seq<VectorRecord>): (r: Option<set<Json>>)
    ensures r.None? <==> exists i :: 0 <= i < |store| && !Hashable(store[i].id)
    ensures r.Some? ==> forall id :: id in r.value <==> exists i :: 0 <= i < |store| && store[i].id == id
  {
    if forall i :: 0 <= i < |store| ==> Hashable(store[i].id) then Some(StoreIds(store)) else None
  }

  lemma LoadAppend(a: seq<VectorRecord>, b: seq<VectorRecord>)
    ensures StoreIds(a + b) == StoreIds(a) + StoreIds(b)
  {
    var ab := a + b;
    forall id | id in StoreIds(a + b)
      ensures id in StoreIds(a) + StoreIds(b)
    {
      var i :| 0 <= i < |ab| && ab[i].id == id;
      if i >= |a| {
        assert b[i - |a|] == ab[i];
      }
    }
    forall i | 0 <= i < |a|
      ensures a[i].id in StoreIds(a + b)
    {
      assert ab[i] == a[i];
    }
    forall i | 0 <= i < |b|
      ensures b[i].id in StoreIds(a + b)
    {
      assert ab[|a| + i] == b[i];
    }
  }

  /**
   * A member the stages can use as text: absent, a string, or falsy (which
   * they treat like null). A truthy non-string makes the graph raise.
   */
  predicate Textual(j: Option<Json>) {
    j.None? || j.value.JStr? || !Truthy(j.value)
  }

  /** `d.get(key, default)` as the stages see it. */
  function Text(j: Option<Json>, default: Option<string>): (r: Option<string>)
    requires Textual(j)
    ensures j.None? ==> r == default
    ensures j.Some? ==> (r.Some? <==> j.value.JStr?) && (r.Some? ==> r.value == j.value.s)
  {
    if j.None? then default else if j.value.JStr? then Some(j.value.s) else None
  }

  /**
   * The initial state built from a record. None when
   * `rec.get("nftMetadata", {})` is not a dict, so `.get` raises, or when
   * `tokenUri`, `name` or `imageCaption` is a truthy non-string, on which
   * the normalizer or the final join raises.
   */
  function ReadAsset(rec: Json, id: Json): (r: Option<Asset>)
    requires rec.JObj?
    ensures var nm := Lookup(rec.members, "nftMetadata");
      var fields := if nm.Some? && nm.value.JObj? then nm.value.members else [];
      r.None? <==>
        (nm.Some? && !nm.value.JObj?) ||
        !Textual(Lookup(fields, "tokenUri")) || !Textual(Lookup(fields, "name")) ||
        !Textual(Lookup(rec.members, "imageCaption"))
    ensures r.Some? ==> r.value.id == id
  {
    var nm := Lookup(rec.members, "nftMetadata");
    if nm.Some? && !nm.value.JObj? then None
    else
      var fields := if nm.Some? then nm.value.members else [];
      var uri, name, caption := Lookup(fields, "tokenUri"), Lookup(fields, "name"), Lookup(rec.members, "imageCaption");
      if !Textual(uri) || !Textual(name) || !Textual(caption) then None
      else Some(Asset(id, Text(uri, None), Text(name, Some("")), Text(caption, Some(""))))
  }

  /**
   * What the run has produced so far: the records embedded, the input
   * position each came from, the vectors written and the checkpoint (None
   * when the file is absent or empty).
   */
  datatype RunState = RunState(processed: seq<Asset>, lines: seq<nat>, vectors: seq<VectorRecord>, checkpoint: Option<string>, crashed: bool)

  /** What the loop body does with one record; an embedded one keeps its input position. */
  datatype Outcome = Skip | Crash | Embed(a: Asset, line: nat, d: string)

  /**
   * The loop body on the record at input position `i`: skipped when its id
   * is loaded, a crash when reading it or running the graph raises,
   * otherwise embedded.
   */
  function RecordOutcome(rec: Json, i: nat, existing: set<Json>, describe: (Asset, nat) -> Option<string>): (o: Outcome)
    ensures o.Skip? <==> ReadId(rec).Some? && ReadId(rec).value in existing
    ensures o.Crash? <==>
      ReadId(rec).None? ||
      (ReadId(rec).value !in existing &&
       (ReadAsset(rec, ReadId(rec).value).None? || describe(ReadAsset(rec, ReadId(rec).value).value, i).None?))
    ensures o.Embed? ==>
      ReadId(rec).Some? && o.a.id == ReadId(rec).value && o.a.id !in existing && Hashable(o.a.id) &&
      o.line == i && ReadAsset(rec, o.a.id) == Some(o.a) && describe(o.a, i) == Some(o.d)
  {
    match ReadId(rec)
    case None => Crash
    case Some(id) =>
      if id in existing then Skip
      else match ReadAsset(rec, id)
        case None => Crash
        case Some(a) =>
          match describe(a, i)
          case None => Crash
          case Some(d) => Embed(a, i, d)
  }

  /**
   * The effect of an outcome on the run: an embedded record is appended,
   * and every hundredth one writes its id to the checkpoint. The file is
   * opened for writing, and so emptied, before `rec["id"] + "\n"` raises on
   * an id that is not a string.
   */
  function Apply(st: RunState, o: Outcome, embed: string -> Embedding): RunState {
    match o
    case Skip => st
    case Crash => st.(crashed := true)
    case Embed(a, line, d) =>
      var next := st.(processed := st.processed + [a], lines := st.lines + [line],
                      vectors := st.vectors + [VectorRecord(a.id, d, embed(d))]);
      if |next.processed| % CHECKPOINT_EVERY != 0 then next
      else if a.id.JStr? then next.(checkpoint := Some(a.id.s))
      else next.(checkpoint := None, crashed := true)
  }

  /** One iteration of the driver's loop, on the record at position `i`; a crash ends the run. */
  function Step(st: RunState, rec: Json, i: nat, existing: set<Json>, describe: (Asset, nat) -> Option<string>, embed: string -> Embedding): RunState {
    if st.crashed then st else Apply(st, RecordOutcome(rec, i, existing, describe), embed)
  }

  /**
   * The driver's loop over the input lines, from the initial checkpoint
   * `ck`; `describe(a, i)` is the graph's result for the record on line
   * `i` (None when it raises) and `embed` the embedding model.
   */
  function Run(input: seq<Json>, existing: set<Json>, describe: (Asset, nat) -> Option<string>, embed: string -> Embedding, ck: Option<string>): RunState
  {
    if input == [] then RunState([], [], [], ck, false)
    else Step(Run(input[..|input| - 1], existing, describe, embed, ck), input[|input| - 1], |input| - 1, existing, describe, embed)
  }

  /** The graph as a function of the record and its input position. */
  function Describer(svc: Services): (Asset, nat) -> Option<string> {
    (a: Asset, i: nat) => Enrich(a, svc, i)
  }

  /** Once the run has crashed, later lines change nothing. */
  lemma {:induction false} CrashSticky(input: seq<Json>, k: nat, existing: set<Json>, describe: (Asset, nat) -> Option<string>, embed: string -> Embedding, ck: Option<string>)
    requires k <= |input|
    requires Run(input[..k], existing, describe, embed, ck).crashed
    ensures Run(input, existing, describe, embed, ck) == Run(input[..k], existing, describe, embed, ck)
    decreases |input|
  {
    if k < |input| {
      var init := input[..|input| - 1];
      assert init[..k] == input[..k];
      CrashSticky(init, k, existing, describe, embed, ck);
    } else {
      assert input[..k] == input;
    }
  }

  /** `compiled.invoke` on the state the driver builds for an asset read from line `line`. */
  method EnrichAsset(a: Asset, line: nat, out: Outputs, svc: Services) returns (raised: bool)
    modifies out
    ensures raised == Describer(svc)(a, line).None?
    ensures var d := Describer(svc)(a, line);
      out.vectors == old(out.vectors) + if raised then [] else [VectorRecord(a.id, d.value, svc.embed(d.value))]
    ensures out.failures == old(out.failures) && out.checkpoint == old(out.checkpoint)
  {
    var state := new AssetState(a);
    raised := Invoke(state, out, svc, line);
  }

  /** The step on the record at position `i`, case by case as the loop body reads it. */
  lemma StepCases(st: RunState, rec: Json, i: nat, existing: set<Json>, describe: (Asset, nat) -> Option<string>, embed: string -> Embedding)
    requires !st.crashed
    ensures var r := Step(st, rec, i, existing, describe, embed);
      var id := ReadId(rec);
      (id.None? ==> r == st.(crashed := true)) &&
      (id.Some? && id.value in existing ==> r == st) &&
      (id.Some? && id.value !in existing ==>
        var a := ReadAsset(rec, id.value);
        (a.None? ==> r == st.(crashed := true)) &&
        (a.Some? && describe(a.value, i).None? ==> r == st.(crashed := true)) &&
        (a.Some? && describe(a.value, i).Some? ==> r == Apply(st, Embed(a.value, i, describe(a.value, i).value), embed)))
  {
  }

  /** One pass of the loop body on the record at position `i`: skipped, processed, or the run crashes. */
  method ProcessRecord(rec: Json, i: nat, existing: set<Json>, out: Outputs, svc: Services,
                       ghost st: RunState, ghost store: seq<VectorRecord>, count: nat)
    returns (count': nat, crashed: bool)
    requires !st.crashed && count == |st.processed|
    requires out.vectors == store + st.vectors && out.checkpoint == st.checkpoint
    modifies out
    ensures var next := Step(st, rec, i, existing, Describer(svc), svc.embed);
      count' == |next.processed| && crashed == next.crashed &&
      out.vectors == store + next.vectors && out.checkpoint == next.checkpoint
    ensures out.failures == old(out.failures)
  {
    StepCases(st, rec, i, existing, Describer(svc), svc.embed);
    count', crashed := count, false;
    var id := ReadId(rec);
    if id.None? {
      return count, true;
    }
    if id.value in existing {
      return;
    }
    var a := ReadAsset(rec, id.value);
    if a.None? {
      return count, true;
    }
    var raised := EnrichAsset(a.value, i, out, svc);
    if raised {
      return count, true;
    }
    ghost var d := Describer(svc)(a.value, i).value;
    ApplyEmbed(st, a.value, i, d, svc.embed);
    AppendAssoc(store, st.vectors, [VectorRecord(a.value.id, d, svc.embed(d))]);
    count' := count + 1;
    if count' % CHECKPOINT_EVERY == 0 {
      if !id.value.JStr? {
        out.checkpoint := None;
        return count', true;
      }
      out.checkpoint := Some(id.value.s);
    }
  }

  /**
   * The driver (`__main__`): when the store's ids load, the success store
   * grows by the run's vectors and the checkpoint is the run's; when they
   * do not, it raises before reading any input. The failure log is
   * untouched either way.
   */
  method RunEnrichment(input: seq<Json>, out: Outputs, svc: Services) returns (count: nat, crashed: bool)
    modifies out
    ensures var ids := LoadExistingIds(old(out.vectors));
      (ids.None? ==> crashed && count == 0 && out.vectors == old(out.vectors) && out.checkpoint == old(out.checkpoint)) &&
      (ids.Some? ==>
        var r := Run(input, ids.value, Describer(svc), svc.embed, old(out.checkpoint));
        count == |r.processed| && crashed == r.crashed &&
        out.vectors == old(out.vectors) + r.vectors && out.checkpoint == r.checkpoint)
    ensures out.failures == old(out.failures)
  {
    var loaded := LoadExistingIds(out.vectors);
    if loaded.None? {
      return 0, true;
    }
    var processedIds := loaded.value;
    ghost var store, ck := out.vectors, out.checkpoint;
    count, crashed := 0, false;
    var i := 0;
    while i < |input|
      invariant 0 <= i <= |input|
      invariant var r := Run(input[..i], processedIds, Describer(svc), svc.embed, ck);
        count == |r.processed| && !r.crashed &&
        out.vectors == store + r.vectors && out.checkpoint == r.checkpoint
      invariant out.failures == old(out.failures)
    {
      assert input[..i + 1][..i] == input[..i];
      count, crashed := ProcessRecord(input[i], i, processedIds, out, svc, Run(input[..i], processedIds, Describer(svc), svc.embed, ck), store, count);
      if crashed {
        CrashSticky(input, i + 1, processedIds, Describer(svc), svc.embed, ck);
        return;
      }
      i := i + 1;
    }
    assert input[..|input|] == input;
  }

  /**
   * The vectors line up with the processed records: same ids, hashable and
   * not in the loaded set, each embedded with the description the graph
   * gave on the record's line.
   */
  predicate WritesEnriched(r: RunState, existing: set<Json>, describe: (Asset, nat) -> Option<string>, embed: string -> Embedding) {
    |r.vectors| == |r.processed| && |r.lines| == |r.processed| &&
    forall i :: 0 <= i < |r.processed| ==>
      r.vectors[i].id == r.processed[i].id && r.processed[i].id !in existing && Hashable(r.processed[i].id) &&
      describe(r.processed[i], r.lines[i]) == Some(r.vectors[i].descriptionText) &&
      r.vectors[i].embedding == embed(r.vectors[i].descriptionText)
  }

  /** An embedded record appends its asset, its position and its vector, crash or not. */
  lemma ApplyEmbed(st: RunState, a: Asset, line: nat, d: string, embed: string -> Embedding)
    ensures var r := Apply(st, Embed(a, line, d), embed);
      r.processed == st.processed + [a] && r.lines == st.lines + [line] &&
      r.vectors == st.vectors + [VectorRecord(a.id, d, embed(d))]
  {
  }

  lemma ApplyWritesEnriched(prev: RunState, o: Outcome, existing: set<Json>, describe: (Asset, nat) -> Option<string>, embed: string -> Embedding)
    requires WritesEnriched(prev, existing, describe, embed)
    requires o.Embed? ==> o.a.id !in existing && Hashable(o.a.id) && describe(o.a, o.line) == Some(o.d)
    ensures WritesEnriched(Apply(prev, o, embed), existing, describe, embed)
  {
    var r := Apply(prev, o, embed);
    if o.Embed? {
      ApplyEmbed(prev, o.a, o.line, o.d, embed);
      forall i | 0 <= i < |r.processed|
        ensures r.vectors[i].id == r.processed[i].id && r.processed[i].id !in existing && Hashable(r.processed[i].id) &&
          describe(r.processed[i], r.lines[i]) == Some(r.vectors[i].descriptionText) &&
          r.vectors[i].embedding == embed(r.vectors[i].descriptionText)
      {
        if i < |prev.processed| {
          assert r.processed[i] == prev.processed[i] && r.lines[i] == prev.lines[i] && r.vectors[i] == prev.vectors[i];
        }
      }
    }
  }

  /** The run's vectors line up with the records it processed. */
  lemma {:induction false} RunWritesEnriched(input: seq<Json>, existing: set<Json>, describe: (Asset, nat) -> Option<string>, embed: string -> Embedding, ck: Option<string>)
    ensures WritesEnriched(Run(input, existing, describe, embed, ck), existing, describe, embed)
  {
    if input != [] {
      var init := input[..|input| - 1];
      RunWritesEnriched(init, existing, describe, embed, ck);
      var prev := Run(init, existing, describe, embed, ck);
      if !prev.crashed {
        ApplyWritesEnriched(prev, RecordOutcome(input[|input| - 1], |input| - 1, existing, describe), existing, describe, embed);
      }
    }
  }

  /** Not crashing at the end means not crashing on any prefix. */
  lemma NoCrashBefore(input: seq<Json>, existing: set<Json>, describe: (Asset, nat) -> Option<string>, embed: string -> Embedding, ck: Option<string>)
    requires input != []
    requires !Run(input, existing, describe, embed, ck).crashed
    ensures !Run(input[..|input| - 1], existing, describe, embed, ck).crashed
  {
  }

  /**
   * The checkpoint holds the id of the record at the last multiple of a
   * hundred among the processed ones, or `ck` before the hundredth.
   */
  predicate CheckpointFits(r: RunState, ck: Option<string>) {
    var n := |r.processed|;
    (n < CHECKPOINT_EVERY ==> r.checkpoint == ck) &&
    (n >= CHECKPOINT_EVERY ==>
      var last := r.processed[n - n % CHECKPOINT_EVERY - 1];
      last.id.JStr? && r.checkpoint == Some(last.id.s))
  }

  lemma HundredthStep(n: nat)
    ensures (n + 1) % CHECKPOINT_EVERY != 0 ==>
      (n + 1) % CHECKPOINT_EVERY == n % CHECKPOINT_EVERY + 1 && (n + 1 >= CHECKPOINT_EVERY ==> n >= CHECKPOINT_EVERY)
    ensures (n + 1) % CHECKPOINT_EVERY == 0 ==> n + 1 >= CHECKPOINT_EVERY
    ensures n >= CHECKPOINT_EVERY ==> n - n % CHECKPOINT_EVERY >= CHECKPOINT_EVERY
  {
  }

  /**
   * The checkpoint holds the id of the last record whose position among
   * the processed ones is a multiple of a hundred, or the initial
   * checkpoint before the hundredth.
   */
  lemma {:induction false} CheckpointIsLastHundredth(input: seq<Json>, existing: set<Json>, describe: (Asset, nat) -> Option<string>, embed: string -> Embedding, ck: Option<string>)
    requires !Run(input, existing, describe, embed, ck).crashed
    ensures CheckpointFits(Run(input, existing, describe, embed, ck), ck)
  {
    if input != [] {
      var init := input[..|input| - 1];
      NoCrashBefore(input, existing, describe, embed, ck);
      CheckpointIsLastHundredth(init, existing, describe, embed, ck);
      CheckpointStep(Run(init, existing, describe, embed, ck), RecordOutcome(input[|input| - 1], |input| - 1, existing, describe), embed, ck);
    }
  }

  /** Applying an outcome keeps the checkpoint property, unless it crashes. */
  lemma CheckpointStep(prev: RunState, o: Outcome, embed: string -> Embedding, ck: Option<string>)
    requires CheckpointFits(prev, ck) && !Apply(prev, o, embed).crashed
    ensures CheckpointFits(Apply(prev, o, embed), ck)
  {
    var r := Apply(prev, o, embed);
    if o.Embed? {
      var n := |prev.processed|;
      var m := |r.processed|;
      assert r.processed == prev.processed + [o.a];
      assert m == n + 1;
      HundredthStep(n);
      if m % CHECKPOINT_EVERY != 0 {
        assert r.checkpoint == prev.checkpoint;
        if n >= CHECKPOINT_EVERY {
          var k := n - n % CHECKPOINT_EVERY - 1;
          assert m - m % CHECKPOINT_EVERY - 1 == k;
          assert r.processed[k] == prev.processed[k];
        }
      } else {
        assert r.processed[m - m % CHECKPOINT_EVERY - 1] == o.a;
      }
    }
  }

  /**
   * A run that crashes writing a checkpoint leaves the checkpoint file
   * empty: it is opened for writing before the id fails to concatenate.
   */
  lemma CheckpointCrashEmpties(prev: RunState, a: Asset, line: nat, d: string, embed: string -> Embedding)
    requires (|prev.processed| + 1) % CHECKPOINT_EVERY == 0 && !a.id.JStr?
    ensures var r := Apply(prev, Embed(a, line, d), embed);
      r.crashed && r.checkpoint == None && r.vectors == prev.vectors + [VectorRecord(a.id, d, embed(d))]
  {
  }

  /** The record's id can be read and is among `ids`: the driver would skip it. */
  predicate Loaded(rec: Json, ids: set<Json>) {
    ReadId(rec).Some? && ReadId(rec).value in ids
  }

  /** Applying an outcome that does not crash loses no written id, and an embedded one adds its own. */
  lemma ApplyIds(prev: RunState, o: Outcome, embed: string -> Embedding)
    requires !Apply(prev, o, embed).crashed
    ensures var r := Apply(prev, o, embed);
      !o.Crash? && StoreIds(prev.vectors) <= StoreIds(r.vectors) &&
      (o.Embed? ==> o.a.id in StoreIds(r.vectors))
  {
    if o.Embed? {
      var v := VectorRecord(o.a.id, o.d, embed(o.d));
      assert Apply(prev, o, embed).vectors == prev.vectors + [v];
      LoadAppend(prev.vectors, [v]);
      assert [v][0] == v;
    }
  }

  /** Every record's id can be read and is among `ids`. */
  predicate AllLoaded(input: seq<Json>, ids: set<Json>) {
    forall j :: 0 <= j < |input| ==> Loaded(input[j], ids)
  }

  lemma AllLoadedSnoc(init: seq<Json>, rec: Json, a: set<Json>, b: set<Json>)
    requires AllLoaded(init, a) && a <= b && Loaded(rec, b)
    ensures AllLoaded(init + [rec], b)
  {
    forall j | 0 <= j < |init| + 1
      ensures Loaded((init + [rec])[j], b)
    {
      if j < |init| {
        assert (init + [rec])[j] == init[j];
        assert Loaded(init[j], a);
      }
    }
  }

  /** After a step that does not crash, the record's id is loaded or written, and no written id is lost. */
  lemma CoverStep(prev: RunState, rec: Json, i: nat, existing: set<Json>, describe: (Asset, nat) -> Option<string>, embed: string -> Embedding)
    requires !prev.crashed
    requires !Step(prev, rec, i, existing, describe, embed).crashed
    ensures var r := Step(prev, rec, i, existing, describe, embed);
      Loaded(rec, existing + StoreIds(r.vectors)) &&
      StoreIds(prev.vectors) <= StoreIds(r.vectors)
  {
    ApplyIds(prev, RecordOutcome(rec, i, existing, describe), embed);
  }

  /** A completed run leaves every input id either loaded before or written by the run. */
  lemma {:induction false} RunCoversInput(input: seq<Json>, existing: set<Json>, describe: (Asset, nat) -> Option<string>, embed: string -> Embedding, ck: Option<string>)
    requires !Run(input, existing, describe, embed, ck).crashed
    ensures AllLoaded(input, existing + StoreIds(Run(input, existing, describe, embed, ck).vectors))
  {
    if input != [] {
      var init, rec := input[..|input| - 1], input[|input| - 1];
      NoCrashBefore(input, existing, describe, embed, ck);
      RunCoversInput(init, existing, describe, embed, ck);
      var prev := Run(init, existing, describe, embed, ck);
      var r := Run(input, existing, describe, embed, ck);
      assert r == Step(prev, rec, |input| - 1, existing, describe, embed);
      CoverStep(prev, rec, |input| - 1, existing, describe, embed);
      assert init + [rec] == input;
      AllLoadedSnoc(init, rec, existing + StoreIds(prev.vectors), existing + StoreIds(r.vectors));
    }
  }

  /** When every record's id is already loaded, the run writes nothing. */
  lemma {:induction false} NothingLeft(input: seq<Json>, existing: set<Json>, describe: (Asset, nat) -> Option<string>, embed: string -> Embedding, ck: Option<string>)
    requires AllLoaded(input, existing)
    ensures Run(input, existing, describe, embed, ck) == RunState([], [], [], ck, false)
  {
    if input != [] {
      var init := input[..|input| - 1];
      assert forall j :: 0 <= j < |init| ==> init[j] == input[j];
      assert AllLoaded(init, existing);
      NothingLeft(init, existing, describe, embed, ck);
      assert Loaded(input[|input| - 1], existing);
    }
  }

  /**
   * Resuming after a run that finished reloads its ids, all of which can be
   * loaded, and processes nothing: the second run appends no lines and
   * keeps the checkpoint.
   */
  lemma ResumeIsIdempotent(input: seq<Json>, store: seq<VectorRecord>, describe: (Asset, nat) -> Option<string>, embed: string -> Embedding, ck: Option<string>, ck2: Option<string>)
    requires LoadExistingIds(store).Some?
    requires !Run(input, LoadExistingIds(store).value, describe, embed, ck).crashed
    ensures var first := Run(input, LoadExistingIds(store).value, describe, embed, ck);
      var again := LoadExistingIds(store + first.vectors);
      again.Some? && Run(input, again.value, describe, embed, ck2) == RunState([], [], [], ck2, false)
  {
    var existing := LoadExistingIds(store).value;
    var first := Run(input, existing, describe, embed, ck);
    var both := store + first.vectors;
    RunWritesEnriched(input, existing, describe, embed, ck);
    forall i | 0 <= i < |both|
      ensures Hashable(both[i].id)
    {
      if i >= |store| {
        assert both[i] == first.vectors[i - |store|];
      } else {
        assert both[i] == store[i];
      }
    }
    RunCoversInput(input, existing, describe, embed, ck);
    LoadAppend(store, first.vectors);
    NothingLeft(input, StoreIds(both), describe, embed, ck2);
  }

  /** Running one more line is one more step, on that line's position. */
  lemma RunSnoc(input: seq<Json>, rec: Json, existing: set<Json>, describe: (Asset, nat) -> Option<string>, embed: string -> Embedding, ck: Option<string>)
    ensures Run(input + [rec], existing, describe, embed, ck) == Step(Run(input, existing, describe, embed, ck), rec, |input|, existing, describe, embed)
  {
    assert (input + [rec])[..|input|] == input;
  }

  /** A step that neither skips nor crashes on a new id embeds the record at that position. */
  lemma NewIdEmbedded(st: RunState, rec: Json, i: nat, existing: set<Json>, describe: (Asset, nat) -> Option<string>, embed: string -> Embedding)
    requires !st.crashed && !Step(st, rec, i, existing, describe, embed).crashed
    requires ReadId(rec).Some? && ReadId(rec).value !in existing
    ensures var a := ReadAsset(rec, ReadId(rec).value);
      a.Some? && describe(a.value, i).Some? &&
      Step(st, rec, i, existing, describe, embed).vectors ==
        st.vectors + [VectorRecord(ReadId(rec).value, describe(a.value, i).value, embed(describe(a.value, i).value))]
  {
    var o := RecordOutcome(rec, i, existing, describe);
    ApplyEmbed(st, o.a, i, o.d, embed);
  }

  /**
   * The loaded set is not extended during a run: a new record that
   * appears twice in a row is embedded twice, each time with the
   * description the graph gives on that line.
   */
  lemma RepeatedIdEmbeddedTwice(input: seq<Json>, rec: Json, existing: set<Json>, describe: (Asset, nat) -> Option<string>, embed: string -> Embedding, ck: Option<string>)
    requires !Run(input + [rec] + [rec], existing, describe, embed, ck).crashed
    requires ReadId(rec).Some? && ReadId(rec).value !in existing
    ensures var id := ReadId(rec).value;
      var before := Run(input, existing, describe, embed, ck).vectors;
      var after := Run(input + [rec] + [rec], existing, describe, embed, ck).vectors;
      var a := ReadAsset(rec, id);
      a.Some? &&
      var d1, d2 := describe(a.value, |input|), describe(a.value, |input| + 1);
      d1.Some? && d2.Some? &&
      after == before + [VectorRecord(id, d1.value, embed(d1.value)), VectorRecord(id, d2.value, embed(d2.value))]
  {
    var before := Run(input, existing, describe, embed, ck);
    var once := Run(input + [rec], existing, describe, embed, ck);
    RunSnoc(input, rec, existing, describe, embed, ck);
    RunSnoc(input + [rec], rec, existing, describe, embed, ck);
    assert !once.crashed;
    assert !before.crashed;
    NewIdEmbedded(before, rec, |input|, existing, describe, embed);
    NewIdEmbedded(once, rec, |input| + 1, existing, describe, embed);
  }
}
