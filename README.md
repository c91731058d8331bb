# NFT asset enrichment scripts, modelled in Dafny

This project models the record-processing core of four batch scripts that
enrich a dataset of NFT assets stored as newline-delimited JSON:

- `metadata_enrichment_graph.py` runs each new asset through a five-stage
  pipeline:
  - normalise the token URI;
  - fetch the metadata, with retries;
  - have a language model pick useful fields;
  - flatten those fields;
  - compose a description of at most 2000 characters and append it, with
    its embedding, to a success store.

  The driver skips ids already in the success store and writes a
  checkpoint every 100 records.
- `yakoa_originality.py` handles each new asset in four steps:
  - look the token up on the Yakoa service;
  - register it when the lookup gives nothing;
  - look it up again when registration succeeded;
  - write the record, with a `yakoa` summary when a status was obtained.
- `image_captioning/caption_assets.py` captions each new asset's image.
  Captions go through a url → caption cache seeded from the output file.
  Only records whose caption is not an error text are written.
- `merge_captions.py` joins the captions by id back into the full
  dataset. The last caption of an id wins, and `"N/A"` is the default.

The model follows each script's own form:

- pure string and JSON logic is written as functions with lemmas about
  them;
- loops that build values are methods with loop invariants, proved
  against a function that specifies them;
- state updated in place is a class whose methods name what they modify.
  This covers the per-record pipeline state (`Enrichment.AssetState`),
  the captioning cache (`Captioning.Captioner`), the Yakoa client with
  its request log (`Originality.Client`), and the output files
  (`Files.Sink`, `Files.LineFile`, `Enrichment.Outputs`).

The world outside the scripts is passed in as parameters:

- the network is a function from what is asked to the reply it gets;
- the language model and the embedding model are functions too;
- files are sequences of records, and already parsed input lines are
  `Json` values (`Option<Json>` where a script catches undecodable lines
  or a decoding error matters).

An uncaught Python exception ends a script. It is modelled as a
`raised`/`crashed` flag; what was written before it stays written.

Code structure:

- `wrappers.dfy`, `json.dfy`, `strings.dfy`, `maps.dfy` and `files.dfy`
  hold the Python semantics the scripts rely on. These include:
  - truthiness and hashability;
  - insertion-ordered dicts with `d.get`, `d[k]` and `d[k] = v`;
  - `str.strip`, `split`, `join`, `replace` and `startswith`;
  - dicts built by a loop of assignments;
  - append-only files.
- `token_uri.dfy`, `fetch.dfy`, `selection.dfy`, `flatten.dfy`,
  `description.dfy`, `enrichment.dfy` and `enrichment_run.dfy` model
  `metadata_enrichment_graph.py`.
- `yakoa.dfy` models `yakoa_originality.py`.
- `captions.dfy` models `image_captioning/caption_assets.py`.
- `merge.dfy` models `merge_captions.py`.

Where a natural reading of the scripts differs from what the code does,
the model follows the code:

- The regular expression `ipfs/([\w\d]+.*)` keeps the rest of the *line*,
  because `.` does not match a newline. It does not keep the rest of the
  string (`TokenUri.PathRule`).
- The pipeline's early exits never reach the failure log. Every invoked
  record that does not raise ends in the success store.
  - `vectorize_description` always sets `complete`, so `failure_logger` is
    unreachable (`Enrichment.Invoke`).
  - `extract_description` always overwrites the early-exit reason
    (`Enrichment.EarlyReasonOverwritten`).
- The checkpoint file is opened for writing before `rec["id"] + "\n"` is
  evaluated. A hundredth record whose id is not a string therefore
  empties the checkpoint before the script raises
  (`EnrichmentRun.CheckpointCrashEmpties`).
- In `yakoa_originality.py` the registration body is built before the
  `try`. A record missing `blockNumber`, `transactionHash`,
  `blockTimestamp`, `ipId` or `nftMetadata.imageUrl`, or with an
  unconvertible number, therefore ends the script rather than counting as
  a failed registration (`Originality.RegistrationBody`,
  `Originality.Client.RegisterToken`).
- At captioning startup, `processed_ids.add(record.get("id"))` runs first.
  A line whose url lookup or `imageCaption` read then raises has still
  added its id. A line that is not a dict, or whose id is unhashable, adds
  nothing (`Captioning.LoadedId`, `Captioning.LoadedIdsHas`).
- `merge_captions.py` writes one record per input record only when no line
  raises. A record whose id is a list or a dict raises at
  `record_id in captions`, even an empty, falsy one (`MergeCaptions.Merged`,
  `MergeCaptions.MergeToShape`).
- None of the three scripts that load an id set (enrichment, Yakoa,
  captioning) adds to it during the run. A new id that appears twice is
  processed twice:
  - `EnrichmentRun.RepeatedIdEmbeddedTwice`;
  - `Originality.WritesEachFreshRecord`;
  - `Captioning.RepeatWrittenAgain`.

## Model

| member | source | states |
|---|---|---|
| Json.LookupKeys | image_captioning/caption_assets.py:33-34 | `key in d` holds exactly when the key is among the dict's keys, and `d[key]` is then the value of a member named `key` |
| Json.PutLookup | merge_captions.py:23-26 | after `d[key] = v`, `d[key]` is `v` and every other key reads as before |
| Json.PutKeys | image_captioning/caption_assets.py:74 | `d[key] = v` keeps the key order; a new key is added last |
| Json.PutApartFrom | merge_captions.py:23-26 | `d[key] = v` changes no key but `key`, which then reads `v` |
| Json.Index | yakoa_originality.py:27-29 | `j[key]` is defined exactly when `j` is a dict holding `key` (otherwise TypeError or KeyError) |
| Json.ReadId | metadata_enrichment_graph.py:169 | `rec["id"] in ids` goes through exactly when `rec` is a dict with an `id` that is hashable, and reads that id |
| Maps.CollectKeys | merge_captions.py:15-16 | a key is in a dict built by a loop of assignments exactly when some assignment wrote it |
| Maps.CollectLastWins | merge_captions.py:15-16 | the last assignment to a key decides its value |
| Maps.CollectSnoc | merge_captions.py:16 | one more assignment updates the dict at that key only |
| Strings.TrimLeft | metadata_enrichment_graph.py:63 | `lstrip(cs)` removes exactly the leading run of characters from `cs` |
| Strings.TrimRight | metadata_enrichment_graph.py:63 | `rstrip(cs)` removes exactly the trailing run of characters from `cs` |
| Strings.StripIsInnerSlice | metadata_enrichment_graph.py:63 | `strip(cs)` is a slice of the input bounded by characters not in `cs`, and is empty exactly when every character is in `cs` |
| Strings.StripEmpty | metadata_enrichment_graph.py:63 | `strip(cs)` is empty exactly when every character is in `cs` |
| Strings.StripUnchanged | metadata_enrichment_graph.py:63 | a string with no stripped character at either end is left as it is |
| Strings.JoinSplit | metadata_enrichment_graph.py:62 | splitting and joining again with the separator gives back the text |
| Strings.NoSeparatorOnePiece | metadata_enrichment_graph.py:62 | a text without a newline is one line |
| Strings.SplitPiecesFree | metadata_enrichment_graph.py:62 | no line of a split contains the separator |
| Strings.SplitAppend | metadata_enrichment_graph.py:62 | the lines of `a + "\n" + b` are those of `a` followed by those of `b` |
| Strings.ReplaceIsJoinOfSplit | metadata_enrichment_graph.py:34 | `s.replace(p, r)` equals `r.join(s.split(p))` |
| Strings.ReplaceAllLeading | metadata_enrichment_graph.py:33-34 | a string starting with the pattern starts with the replacement after `replace` |
| Strings.ReplaceAllAbsent | metadata_enrichment_graph.py:34 | `replace` leaves a string alone when it lacks one of the pattern's characters |
| TokenUri.SearchPath | metadata_enrichment_graph.py:35 | `re.search` finds the leftmost position where `ipfs/` is followed by a word character, or reports that there is none |
| TokenUri.LineEnd | metadata_enrichment_graph.py:35 | the `.*` of the pattern runs to the next newline or to the end of the text |
| TokenUri.NormalizeTokenUri | metadata_enrichment_graph.py:30-40 | gives None exactly for an absent or empty reference, or one that is neither `ipfs://`, nor matched by the pattern, nor `http…`; every result starts with `http`; an `ipfs://` reference has every `ipfs://` replaced by the gateway; a match at the start is rewritten to the gateway and the rest of its line; an `http…` reference with no match is returned unchanged |
| TokenUri.PathRule | metadata_enrichment_graph.py:35-37 | without the `ipfs://` prefix, the leftmost `ipfs/<word char>` decides: the result is the gateway followed by the rest of that line |
| TokenUri.PathRuleIdempotent | metadata_enrichment_graph.py:35-37 | normalising a reference the pattern rewrote gives it back unchanged |
| TokenUri.GatewayRewriteFixed | metadata_enrichment_graph.py:35-37 | a gateway address whose path is one line starting with a word character normalises to itself |
| TokenUri.SchemeExample | metadata_enrichment_graph.py:33-34 | `ipfs://Qm123/meta.json` becomes the gateway followed by `Qm123/meta.json` |
| TokenUri.HttpWithPathExample | metadata_enrichment_graph.py:35-39 | `https://x.io/ipfs/Qm1` is rewritten to the gateway: the pattern rule comes before the `http` rule |
| TokenUri.NotAUriExample | metadata_enrichment_graph.py:38-40 | `not-a-uri` cannot be normalised |
| Fetch.FetchJson | metadata_enrichment_graph.py:42-50 | the retry loop returns what the retry policy `FetchFrom` gives, with the number of requests and of sleeps |
| Fetch.FetchFromPolicy | metadata_enrichment_graph.py:42-50 | at most `retries` requests; the first accepted reply (status 200, a JSON content type, a decodable body) ends the loop with its body; otherwise None after exactly `retries` requests; one sleep per request that raised and none after a bad status |
| Fetch.FetchPolicy | metadata_enrichment_graph.py:42-50 | the same from the first request; `retries <= 0` makes no request and gives None |
| Fetch.ThreeFailuresGiveNothing | metadata_enrichment_graph.py:42-50 | three unaccepted replies give None after three requests |
| FieldSelection.ResponseText | metadata_enrichment_graph.py:54-62 | a text is read only from a reply without a 4xx/5xx status whose body decodes to a dict |
| FieldSelection.Clean | metadata_enrichment_graph.py:63 | `ln.strip("- ").strip()` is no longer than the line and has no surrounding whitespace |
| FieldSelection.ExtractKeys | metadata_enrichment_graph.py:52-65 | any exception in the call or the parsing gives the empty list |
| FieldSelection.FlatMapAppend | metadata_enrichment_graph.py:63 | the comprehension treats lines one by one: over `a + b` it gives the results for `a`, then for `b` |
| FieldSelection.SelectionAppend | metadata_enrichment_graph.py:63 | the entries of `a + b` are the entries of `a` followed by those of `b` |
| FieldSelection.TextAppend | metadata_enrichment_graph.py:62-63 | a reply text `a + "\n" + b` gives the entries of `a` followed by those of `b` |
| FieldSelection.OneLine | metadata_enrichment_graph.py:63 | a single line gives exactly one entry, its cleaned text, when it is not blank, and none otherwise |
| FieldSelection.EntriesTrimmed | metadata_enrichment_graph.py:63 | there are no more entries than lines, and every entry is empty or has no surrounding whitespace |
| FieldSelection.FlatMapEmpty | metadata_enrichment_graph.py:63 | a comprehension gives nothing exactly when every line gives nothing |
| FieldSelection.NoEntriesIffAllBlank | metadata_enrichment_graph.py:63 | there are no entries exactly when every line is blank |
| FieldSelection.DashesGiveEmptyEntry | metadata_enrichment_graph.py:63 | a reply that is only `-` characters gives one entry, the empty string |
| FieldSelection.FailureGivesNoFields | metadata_enrichment_graph.py:60-65 | a raised request and an error status both give no fields |
| Flatten.Fragments | metadata_enrichment_graph.py:67-81 | the flattener raises exactly when there is a field to look up and the metadata is not a dict |
| Flatten.ListFragmentsAppend | metadata_enrichment_graph.py:74-78 | list elements are handled one by one: the fragments of `a + b` are those of `a`, then of `b` |
| Flatten.FieldsFragmentsAppend | metadata_enrichment_graph.py:69-80 | fields are handled one by one, in order and duplicates included |
| Flatten.ExtendWithItem | metadata_enrichment_graph.py:75-78 | a dict element appends `str` of its values in order; any other element appends `str` of itself |
| Flatten.ExtendWithList | metadata_enrichment_graph.py:73-78 | the inner loop appends the fragments of every element in order |
| Flatten.ExtendWithValue | metadata_enrichment_graph.py:70-80 | a string is appended as it is, a list by its elements, a dict by its values; absent fields, numbers, booleans and null append nothing |
| Flatten.FlattenAndExtract | metadata_enrichment_graph.py:67-81 | the loop raises exactly when the specification does, and otherwise returns the fragments joined with `". "` |
| Flatten.AbsentFieldsIgnored | metadata_enrichment_graph.py:70-80 | fields missing from the metadata contribute nothing |
| Flatten.ExampleList | metadata_enrichment_graph.py:73-78 | the list `["y", {"c": "z"}]` gives the fragments `y`, `z` |
| Flatten.Example | metadata_enrichment_graph.py:67-81 | the fields `["a", "b"]` over `{"a": "x", "b": ["y", {"c": "z"}]}` give `x. y. z` |
| Description.ComposeDescription | metadata_enrichment_graph.py:112-117 | the description has at most 2000 characters, is a prefix of the untruncated join, and equals it when that is no longer than 2000 |
| Description.UntruncatedParts | metadata_enrichment_graph.py:112-117 | the join is name, `". "`, caption, `". "`, text, with a missing or None name or caption taken as empty |
| Description.Example | metadata_enrichment_graph.py:111-119 | name `N`, an empty caption and the fragments `f1`, `f2` give `N. . f1. f2` |
| Enrichment.AssetState.constructor | metadata_enrichment_graph.py:171-176 | the driver's initial state holds the record's id, token URI, name and caption, and nothing else is set |
| Enrichment.AssetState.InspectTokenUri | metadata_enrichment_graph.py:83-89 | always stores the normalised URI; sets the description to the reference and completes the record exactly when the reference is non-empty and cannot be normalised |
| Enrichment.AssetState.FetchMetadata | metadata_enrichment_graph.py:91-101 | leaves a complete state unchanged; otherwise stores a truthy fetch result, or sets `"Unfetchable metadata"` and completes |
| Enrichment.AssetState.RunLlmExtraction | metadata_enrichment_graph.py:103-109 | without fetched metadata, sets `"No metadata available"` and completes, however `complete` stood; otherwise sets only the selected fields |
| Enrichment.AssetState.ExtractDescription | metadata_enrichment_graph.py:111-119 | overwrites the description with the composed text, or raises when the flattener does; `complete` is untouched |
| Enrichment.AssetState.VectorizeDescription | metadata_enrichment_graph.py:121-127 | appends exactly one success line of id, description and embedding, and completes the record |
| Enrichment.AssetState.FailureLogger | metadata_enrichment_graph.py:129-132 | appends one failure line of the id and the description as reason |
| Enrichment.AssetState.RouteAfterVectorize | metadata_enrichment_graph.py:148-151 | the conditional edge logs a failure exactly when the record is not complete |
| Enrichment.Invoke | metadata_enrichment_graph.py:143-153 | the graph raises exactly when the description cannot be composed; otherwise it appends exactly one success line and no failure line, and the record ends complete |
| Enrichment.EarlyReasonOverwritten | metadata_enrichment_graph.py:83-119 | without metadata, whatever the early-exit reason, the record is embedded with name and caption alone |
| Enrichment.RaisesIff | metadata_enrichment_graph.py:114-116 | the pipeline raises exactly when truthy non-dict metadata meets a non-empty field list |
| Enrichment.FetchedDictDescribed | metadata_enrichment_graph.py:108-117 | fetched dict metadata gives name, caption and the flattened selected fields |
| Enrichment.DescriptionBounded | metadata_enrichment_graph.py:117 | an embedded description is at most 2000 characters long |
| EnrichmentRun.LoadExistingIds | metadata_enrichment_graph.py:156-160 | loading raises exactly when some line's id is a list or a dict; otherwise the loaded ids are exactly the ids of the success store's lines |
| EnrichmentRun.LoadAppend | metadata_enrichment_graph.py:156-160 | the ids of a store that was appended to are the ids of both parts |
| EnrichmentRun.Text | metadata_enrichment_graph.py:173-175 | `d.get(key, default)` as the stages read it: the default when absent, the string when it is one, nothing for a falsy non-string |
| EnrichmentRun.ReadAsset | metadata_enrichment_graph.py:171-176 | the initial state is built exactly when `nftMetadata` is a dict, or absent, and `tokenUri`, `name` and `imageCaption` are usable as text; it carries the record's id |
| EnrichmentRun.RecordOutcome | metadata_enrichment_graph.py:168-177 | a record is skipped exactly when its id is readable and loaded; it crashes exactly when the id cannot be read, the state cannot be built or the graph raises; otherwise it is embedded with the graph's description |
| EnrichmentRun.CrashSticky | metadata_enrichment_graph.py:162-181 | once the driver has raised, later lines change nothing |
| EnrichmentRun.EnrichAsset | metadata_enrichment_graph.py:171-177 | invoking the graph on a new state, with the services answering for that input line, appends the record's success line exactly when it does not raise |
| EnrichmentRun.StepCases | metadata_enrichment_graph.py:168-181 | one pass of the loop on the line at position i, case by case: a skip changes nothing; a crash changes nothing but the flag; an embedding appends the asset and its vector with the description the graph gives on line i, and every hundredth one writes its id to the checkpoint, or empties the checkpoint and raises when the id is not a string |
| EnrichmentRun.ProcessRecord | metadata_enrichment_graph.py:168-181 | the loop body on line i changes the store and the checkpoint exactly as one step of the run, including the emptied checkpoint when the hundredth id is not a string |
| EnrichmentRun.RunEnrichment | metadata_enrichment_graph.py:162-181 | when the store's ids cannot be loaded, raises with nothing written; otherwise the success store grows by the run's vectors and the checkpoint is the run's; the failure log is untouched either way |
| EnrichmentRun.ApplyWritesEnriched | metadata_enrichment_graph.py:169-177 | one outcome keeps the vectors lined up with the processed records |
| EnrichmentRun.RunWritesEnriched | metadata_enrichment_graph.py:166-177 | each vector written has the id of the record it was built for, a hashable id not loaded at start, and the description the graph gave on that record's line |
| EnrichmentRun.CheckpointIsLastHundredth | metadata_enrichment_graph.py:178-181 | without a crash, the checkpoint holds the id of the last record whose count is a multiple of 100, or the initial checkpoint before the hundredth |
| EnrichmentRun.CheckpointStep | metadata_enrichment_graph.py:178-181 | one outcome keeps that checkpoint property |
| EnrichmentRun.CheckpointCrashEmpties | metadata_enrichment_graph.py:178-181 | a hundredth record whose id is not a string crashes the run after its vector is written and leaves the checkpoint file empty |
| EnrichmentRun.RunCoversInput | metadata_enrichment_graph.py:163-177 | after a run that does not crash, every input id was loaded at start or written by the run |
| EnrichmentRun.NothingLeft | metadata_enrichment_graph.py:169-170 | when every input id is loaded, the run writes nothing and keeps the checkpoint |
| EnrichmentRun.ResumeIsIdempotent | metadata_enrichment_graph.py:157-170 | after a run that finished, the store's ids still load, and a second run over the same input writes nothing |
| EnrichmentRun.RepeatedIdEmbeddedTwice | metadata_enrichment_graph.py:163-170 | the loaded set is not extended during the run: a new record that comes twice in a row, without a crash, appends two vectors, both carrying its id, each with the description the graph gave on its own line |
| EnrichmentRun.NewIdEmbedded | metadata_enrichment_graph.py:168-177 | a step on a new id that does not crash appends exactly the record's vector, with the description for its line |
| Originality.StatusUrl | yakoa_originality.py:63-64 | the status endpoint is the registration endpoint followed by `/` and the token id |
| Originality.TokenId | yakoa_originality.py:26-30 | defined exactly when `nftMetadata` is a dict holding `chainId`, `tokenContract` and `tokenId`; the chain is `chainId` |
| Originality.TokenIdParts | yakoa_originality.py:30 | when neither part has a colon, the token id splits back into contract and token number |
| Originality.DecimalValue | yakoa_originality.py:43-45 | the decimal numeral of a number has that value |
| Originality.ParseIntString | yakoa_originality.py:43-45 | `int(str(n)) == n` |
| Originality.Trunc | yakoa_originality.py:43-45 | `int(x)` of a real truncates toward zero |
| Originality.RegistrationBody | yakoa_originality.py:38-55 | the body can be built exactly when the record has `blockNumber` and `blockTimestamp` that `int` accepts, plus `transactionHash`, `ipId`, and `nftMetadata` with an `imageUrl` |
| Originality.TokenStatus | yakoa_originality.py:63-71 | a status 200 reply with a decodable body gives exactly that body; every other reply, and an exception, gives None |
| Originality.MismatchOfDicts | yakoa_originality.py:97-100 | over a list of dicts, `hash_mismatch` is true exactly when some entry has `fetch_status == "hash_mismatch"` |
| Originality.MismatchRaises | yakoa_originality.py:97-100 | the scan raises exactly when it reaches a non-dict entry before any matching one |
| Originality.Summary | yakoa_originality.py:94-101 | the summary is built exactly when the status is a dict and the `media` scan does not raise |
| Originality.SummaryFields | yakoa_originality.py:94-101 | the summary has the keys `infringements`, `originality_score` and `hash_mismatch` in that order, copies the first two (None when absent), and `hash_mismatch` is false when `media` is missing |
| Originality.ProbeProtocol | yakoa_originality.py:85-91 | the status is looked up first; the token is registered only when that status is falsy; the second lookup happens only when registration answered 200 or 201 |
| Originality.AnnotateEffect | yakoa_originality.py:93-103 | a written record keeps every other field and gains the summary exactly when the final status is truthy; with a falsy status it is written unchanged |
| Originality.CheckEffect | yakoa_originality.py:79-104 | a loaded id is skipped without a request; any other record is written only after its token id was read, as the annotation of its final status |
| Originality.ExistingIds | yakoa_originality.py:32-36 | loading raises exactly when some line has no readable, hashable id; otherwise the loaded set is exactly the ids of the output file's lines |
| Originality.RunCrashSticky | yakoa_originality.py:77-104 | once the script has raised, later lines change nothing |
| Originality.Unskipped | yakoa_originality.py:80-82 | the records the loop does not skip, in input order |
| Originality.RunWritesInOrder | yakoa_originality.py:78-104 | with sound steps and no crash, the written records are the unskipped ones in order, each changed only in `yakoa` |
| Originality.WritesEachFreshRecord | yakoa_originality.py:75-104 | without an exception, every record whose id was not loaded is written exactly once and in order, changed only in `yakoa` |
| Originality.Client.GetTokenStatus | yakoa_originality.py:63-71 | sends one status request and returns the status it gives |
| Originality.Client.RegisterToken | yakoa_originality.py:38-61 | raises, with nothing sent, exactly when the body cannot be built; otherwise sends one registration request and succeeds exactly on status 200 or 201 |
| Originality.ProbeAsset | yakoa_originality.py:84-91 | sends the requests and reaches the final status that the protocol `ProbeToken` gives |
| Originality.RegisterThenLookUp | yakoa_originality.py:88-91 | registration followed by the second lookup, as `Reregister` gives them |
| Originality.CheckAsset | yakoa_originality.py:79-104 | the loop body writes, skips or raises, and sends requests, exactly as `Check` gives |
| Originality.CheckOriginality | yakoa_originality.py:75-104 | the output file grows by what the run writes, and the requests are the run's; a failed load raises before any request |
| Files.Sink.Append | yakoa_originality.py:103-104 | writing a line appends one record to the file |
| Files.Sink.Truncate | merge_captions.py:19 | opening with `"w"` empties the file |
| Files.LineFile.Append | image_captioning/caption_assets.py:75-76 | writing a line appends one decodable record to the file |
| Captioning.Attempt | image_captioning/caption_assets.py:44-56 | a caption comes exactly from a fetched image with an `image/` content type that decodes; everything else gives a text starting with `ERROR: `, and a wrong content type gives `ERROR: Non-image content type (<ct>)` |
| Captioning.CaptionStep | image_captioning/caption_assets.py:41-56 | a cached url gives its caption with no fetch and no change; any other url is fetched once, and a successful caption is cached under it; the cache only grows, and only by that url with a successful caption |
| Captioning.LoadedId | image_captioning/caption_assets.py:30-31 | a line adds an id exactly when it decodes to a dict whose id, `None` when missing, is hashable |
| Captioning.ImageUrl | image_captioning/caption_assets.py:32 | the url is read exactly when `nftMetadata`, `{}` when missing, is a dict |
| Captioning.CacheEntry | image_captioning/caption_assets.py:31-34 | a line caches a caption exactly when its id was added, its url is truthy and hashable, and it has an `imageCaption`; the entry is that url and caption |
| Captioning.LoadedIdsHas | image_captioning/caption_assets.py:26-36 | an id is loaded exactly when some line of the output file adds it |
| Captioning.LoadedCacheKeys | image_captioning/caption_assets.py:32-34 | a url is cached at startup exactly when some line assigns it |
| Captioning.LoadedCacheLastWins | image_captioning/caption_assets.py:32-34 | the last line assigning a url decides its cached caption |
| Captioning.Target | image_captioning/caption_assets.py:61-69 | a line is captioned exactly when it decodes, its id can be read and was not processed, and its url is present, truthy and hashable |
| Captioning.StepWrites | image_captioning/caption_assets.py:58-76 | a line is written exactly when it has an unprocessed id and a truthy url whose caption is a string not starting with `ERROR:`; it is written once, changed only in `imageCaption`, which is the caption |
| Captioning.StepKeepsCache | image_captioning/caption_assets.py:41-56 | a line never drops or replaces a cached caption |
| Captioning.RunCacheGrows | image_captioning/caption_assets.py:58-78 | the cache only grows over the run |
| Captioning.RunCacheOrigin | image_captioning/caption_assets.py:53 | a url cached during the run was added by one line and kept its caption afterwards |
| Captioning.StepCache | image_captioning/caption_assets.py:53 | a line adds only its own url, holding the caption fetched for it |
| Captioning.RunCacheFromSuccess | image_captioning/caption_assets.py:47-54 | every url the run caches holds a caption that some line fetched successfully |
| Captioning.ErrorRejected | image_captioning/caption_assets.py:70-72 | an error text is never written |
| Captioning.WrittenIsCached | image_captioning/caption_assets.py:69-76 | a written line leaves its caption in the cache under its url |
| Captioning.CachedWritten | image_captioning/caption_assets.py:42-43 | a line whose url is cached is answered from the cache, with no fetch and no cache change |
| Captioning.WrittenThenCached | image_captioning/caption_assets.py:69-76 | right after a line is written, its caption is cached under its url |
| Captioning.StaysCached | image_captioning/caption_assets.py:42-53 | a cached url keeps its caption for the rest of the run |
| Captioning.RepeatWrittenAgain | image_captioning/caption_assets.py:42-63 | a line repeating a written line is written again, identically, from the cache and without a fetch |
| Captioning.LoadExisting | image_captioning/caption_assets.py:26-36 | the startup loop builds the loaded ids and the loaded cache |
| Captioning.Captioner.CaptionImage | image_captioning/caption_assets.py:41-56 | raises exactly on an unhashable url; otherwise gives the caption and the new cache that `CaptionStep` gives |
| Captioning.Captioner.CaptionLine | image_captioning/caption_assets.py:60-78 | one line updates the cache and the output file exactly as `Step` gives |
| Captioning.Captioner.CaptionLines | image_captioning/caption_assets.py:58-78 | the input loop leaves the cache and the output file as `RunTo` gives |
| Captioning.CaptionAssets | image_captioning/caption_assets.py:22-78 | the script appends to the output file what the run gives from the ids and the cache loaded from that same file |
| MergeCaptions.EntryCases | merge_captions.py:12-16 | a line raises exactly when it does not decode, is not a dict, or has a truthy unhashable id; otherwise it assigns `captions[id]` exactly when its id is truthy, to its `imageCaption` or `"N/A"` |
| MergeCaptions.CaptionsKeys | merge_captions.py:12-16 | an id is a key exactly when some captioned record has it as a truthy id; a falsy id never is |
| MergeCaptions.CaptionsLastWins | merge_captions.py:14-16 | the last captioned record with an id decides its caption |
| MergeCaptions.LoadCaptions | merge_captions.py:10-16 | the loop raises exactly when some line raises, and otherwise builds the `captions` dict |
| MergeCaptions.Merged | merge_captions.py:21-26 | an input line raises exactly when it does not decode, is not a dict, or has an unhashable id |
| MergeCaptions.MergedRecord | merge_captions.py:22-26 | a merged record changes only `imageCaption`, which holds `captions[id]` or `"N/A"`; an existing one is overwritten in place, and a missing one is added last |
| MergeCaptions.FalsyIdGetsNA | merge_captions.py:22-26 | a record with a missing or falsy id gets `"N/A"` |
| MergeCaptions.MergeToShape | merge_captions.py:19-27 | one record per input line, in order, up to the first line that raises; with none, exactly as many records as lines |
| MergeCaptions.MergeCrashSticky | merge_captions.py:20-27 | after a line raises, the later lines change nothing |
| MergeCaptions.MergeFiles | merge_captions.py:10-27 | when step 1 raises, the output file is not opened and keeps its contents; otherwise it holds exactly the merged records |

## Left out

- HTTP calls are replaced by functions from the request to a reply. These
  cover the IPFS gateway, the language model service and Yakoa. The reply
  is a function of the line's position and the request's position or url,
  so repeated requests may get different answers. In the enrichment
  script the gateway's and the selector's replies depend on the input line
  and on the request, so a record that comes back on a later line may be
  described differently.
- The embedding model is an opaque function from the text to a value.
  The captioning model (BLIP, torch, PIL) is an opaque caption-or-error
  outcome. Floating-point numerics are not modelled.
- The langgraph `StateGraph` is modelled as the explicit sequence on
  lines 143-151 of `metadata_enrichment_graph.py`. How the library itself
  runs graphs is not modelled.
- `json.loads` and `json.dumps` are not modelled. Inputs are taken as
  decoded values. The output format and the JSON text of the prompt
  (`json.dumps(json_data, indent=2)`) are not modelled.
  - Where the code catches a decoding error, or where a bad line raises,
    a line is an `Option<Json>`. This covers captioning and the merge.
  - In the enrichment and Yakoa scripts, an undecodable input line is
    not represented.
  - Duplicate keys in an object are not represented: objects have
    distinct keys.
- Python's `str()` of a non-string value is a `render` parameter. Only
  `str(s) == s` for strings is fixed. Exception messages inside
  `ERROR: {e}` are opaque strings.
- Numbers are reals, so `1` and `1.0` are one value, as they are one set
  member or dict key in Python. What is lost is their text: `render` gets
  the same value for both, so it cannot give `"1"` for one and `"1.0"` for
  the other. Python's `True == 1` and `False == 0` are not modelled:
  booleans are distinct from numbers here.
- `int()` on strings is modelled for ASCII whitespace, a sign and ASCII
  digits. Underscores and non-ASCII digits are not modelled.
- `\w` is ASCII letters, digits and underscore. `splitlines()` splits
  only on `'\n'`. `strip()` knows only the ASCII whitespace characters.
- `time.sleep` durations are not modelled; only the number of sleeps in
  `fetch_json` is counted. `tqdm`, `print`, `dotenv` and the environment
  are not modelled, except the Yakoa network name, which is a parameter.
- Scripts that open a missing input file raise before doing anything.
  This is not modelled: a missing output or store file is an empty
  sequence, as the scripts treat it.
- `Originality.RegisterToken`: the registration body is computed by
  `Originality.RegistrationBody` from the record and passed in. The model
  does not construct it at the call site.
- The model does not capture the flush calls or a crash part-way through
  writing a line.
