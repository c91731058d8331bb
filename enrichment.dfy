/**
 * The enrichment graph: five stages that update one record's state in
 * place, run in the fixed order inspect_token_uri, fetch_metadata,
 * run_llm_extraction, extract_description, vectorize_description, followed
 * by the conditional edge to failure_logger.
 */
module Enrichment {
  import opened Wrappers
  import opened Json
  import opened TokenUri
  import opened Fetch
  import opened FieldSelection
  import opened Flatten
  import opened Description

  /** The embedding vector; its numerics are not modelled. */
  type Embedding = seq<real>

  /**
   * The capabilities the stages call. The network answers are functions of
   * the input line being processed, so a record that comes back on a later
   * line may be answered differently.
   */
  datatype Services = Services(
    http: (nat, string, nat) -> Attempt,   // on line i, the k-th attempt of `requests.get(uri)` within one fetch
    llm: (nat, Json) -> LlmReply,          // on line i, the selector service's reply for some metadata
    embed: string -> Embedding,       // `MODEL.encode`
    render: Json -> string)           // `str` of a non-string JSON value

  /** The fields of an input record that the driver copies into a new state. */
  datatype Asset = Asset(id: Json, tokenUri: Option<string>, name: Option<string>, imageCaption: Option<string>)

  /** One line of the success store. */
  datatype VectorRecord = VectorRecord(id: Json, descriptionText: string, embedding: Embedding)

  /** One line of the failure log. */
  datatype FailureRecord = FailureRecord(id: Json, reason: Option<string>)

  /** The three files the pipeline writes: success store, failure log, checkpoint (None when absent or empty). */
  class Outputs {
    var vectors: seq<VectorRecord>
    var failures: seq<FailureRecord>
    var checkpoint: Option<string>

    constructor (vectors: seq<VectorRecord>, failures: seq<FailureRecord>, checkpoint: Option<string>)
      ensures this.vectors == vectors && this.failures == failures && this.checkpoint == checkpoint
    {
      this.vectors := vectors;
      this.failures := failures;
      this.checkpoint := checkpoint;
    }
  }

  /** The attempt outcomes of one `fetch_json(uri)` call on line `line`. */
  function Outcomes(svc: Services, line: nat, uri: string): nat -> Attempt {
    (k: nat) => svc.http(line, uri, k)
  }

  /** What `fetch_json(uri) if uri else None` gives on line `line`. */
  function FetchedFor(svc: Services, line: nat, uri: Option<string>): Option<Json> {
    if uri.Some? && uri.value != "" then FetchFrom(Outcomes(svc, line, uri.value), 0, MAX_RETRIES).result else None
  }

  /** A value is present and truthy (`if x:` on an optional). */
  predicate Present(x: Option<Json>) {
    x.Some? && Truthy(x.value)
  }

  /** A present string that is not empty. */
  predicate NonEmpty(x: Option<string>) {
    x.Some? && x.value != ""
  }

  /** The per-record state (`AssetState`): the input fields never change, the rest is filled in by the stages. */
  class AssetState {
    const id: Json
    const name: Option<string>
    const imageCaption: Option<string>
    const tokenUri: Option<string>
    var normalizedUri: Option<string>
    var fetchedMetadata: Option<Json>
    var fieldsToUse: Option<seq<string>>
    var descriptionText: Option<string>
    var complete: bool

    /** The state the driver builds from an input record. */
    constructor (a: Asset)
      ensures Input() == a && Initial()
    {
      id, name, imageCaption, tokenUri := a.id, a.name, a.imageCaption, a.tokenUri;
      normalizedUri, fetchedMetadata, fieldsToUse, descriptionText, complete := None, None, None, None, false;
    }

    function Input(): Asset {
      Asset(id, tokenUri, name, imageCaption)
    }

    /** Only the input keys are set. */
    predicate Initial()
      reads this
    {
      normalizedUri.None? && fetchedMetadata.None? && fieldsToUse.None? && descriptionText.None? && !complete
    }

    /**
     * `inspect_token_uri`: always stores the normalized URI; a non-empty
     * reference that cannot be normalized becomes the description and
     * completes the record.
     */
    method InspectTokenUri()
      modifies this
      ensures normalizedUri == NormalizeTokenUri(tokenUri)
      ensures var early := NonEmpty(tokenUri) && !NonEmpty(normalizedUri);
        descriptionText == (if early then tokenUri else old(descriptionText)) &&
        complete == (early || old(complete))
      ensures fetchedMetadata == old(fetchedMetadata) && fieldsToUse == old(fieldsToUse)
    {
      normalizedUri := NormalizeTokenUri(tokenUri);
      if NonEmpty(tokenUri) && !NonEmpty(normalizedUri) {
        descriptionText := tokenUri;
        complete := true;
      }
    }

    /**
     * `fetch_metadata`: leaves a complete record alone; otherwise keeps a
     * truthy fetch result, or records "Unfetchable metadata" and completes.
     */
    method FetchMetadata(svc: Services, line: nat)
      modifies this
      ensures old(complete) ==>
        fetchedMetadata == old(fetchedMetadata) && descriptionText == old(descriptionText) && complete
      ensures !old(complete) ==>
        var m := FetchedFor(svc, line, old(normalizedUri));
        if Present(m) then
          fetchedMetadata == m && descriptionText == old(descriptionText) && !complete
        else
          fetchedMetadata == old(fetchedMetadata) && descriptionText == Some("Unfetchable metadata") && complete
      ensures normalizedUri == old(normalizedUri) && fieldsToUse == old(fieldsToUse)
    {
      if complete {
        return;
      }
      var uri := normalizedUri;
      var metadata: Option<Json> := None;
      if uri.Some? && uri.value != "" {
        var attempts, sleeps;
        metadata, attempts, sleeps := FetchJson(Outcomes(svc, line, uri.value), MAX_RETRIES);
      }
      if Present(metadata) {
        fetchedMetadata := metadata;
      } else {
        descriptionText := Some("Unfetchable metadata");
        complete := true;
      }
    }

    /**
     * `run_llm_extraction`: without fetched metadata, records "No metadata
     * available" and completes, whatever `complete` was; otherwise stores
     * the selected fields.
     */
    method RunLlmExtraction(svc: Services, line: nat)
      modifies this
      ensures old(fetchedMetadata).None? ==>
        descriptionText == Some("No metadata available") && complete && fieldsToUse == old(fieldsToUse)
      ensures old(fetchedMetadata).Some? ==>
        fieldsToUse == Some(ExtractKeys(svc.llm(line, old(fetchedMetadata).value))) &&
        descriptionText == old(descriptionText) && complete == old(complete)
      ensures normalizedUri == old(normalizedUri) && fetchedMetadata == old(fetchedMetadata)
    {
      if fetchedMetadata.None? {
        descriptionText := Some("No metadata available");
        complete := true;
        return;
      }
      fieldsToUse := Some(ExtractKeys(svc.llm(line, fetchedMetadata.value)));
    }

    /**
     * `extract_description`: overwrites the description with the composed
     * text, whatever it held; `complete` is not touched. Raises when the
     * flattener does.
     */
    method ExtractDescription(svc: Services) returns (raised: bool)
      modifies this
      ensures var t := FlattenText(svc.render, old(fetchedMetadata).GetOr(JObj([])), old(fieldsToUse).GetOr([]));
        raised == t.None? &&
        descriptionText == if raised then old(descriptionText) else Some(ComposeDescription(name, imageCaption, t.value))
      ensures normalizedUri == old(normalizedUri) && fetchedMetadata == old(fetchedMetadata)
      ensures fieldsToUse == old(fieldsToUse) && complete == old(complete)
    {
      var meta := fetchedMetadata.GetOr(JObj([]));
      var fields := fieldsToUse.GetOr([]);
      var txt;
      raised, txt := FlattenAndExtract(svc.render, meta, fields);
      if raised {
        return;
      }
      descriptionText := Some(ComposeDescription(name, imageCaption, txt));
    }

    /** `vectorize_description`: appends one success line and always completes the record. */
    method VectorizeDescription(out: Outputs, svc: Services)
      requires descriptionText.Some?
      modifies this, out
      ensures descriptionText == old(descriptionText)
      ensures out.vectors == old(out.vectors) + [VectorRecord(id, descriptionText.value, svc.embed(descriptionText.value))]
      ensures out.failures == old(out.failures) && out.checkpoint == old(out.checkpoint)
      ensures complete
      ensures normalizedUri == old(normalizedUri) && fetchedMetadata == old(fetchedMetadata)
      ensures fieldsToUse == old(fieldsToUse)
    {
      var embedding := svc.embed(descriptionText.value);
      out.vectors := out.vectors + [VectorRecord(id, descriptionText.value, embedding)];
      complete := true;
    }

    /** `failure_logger`: appends the id and the description as the reason. */
    method FailureLogger(out: Outputs)
      modifies out
      ensures out.failures == old(out.failures) + [FailureRecord(id, descriptionText)]
      ensures out.vectors == old(out.vectors) && out.checkpoint == old(out.checkpoint)
    {
      out.failures := out.failures + [FailureRecord(id, descriptionText)];
    }

    /** The conditional edge after vectorize_description: failure_logger when not complete, else the end. */
    method RouteAfterVectorize(out: Outputs)
      modifies out
      ensures out.failures == old(out.failures) + if complete then [] else [FailureRecord(id, descriptionText)]
      ensures out.vectors == old(out.vectors) && out.checkpoint == old(out.checkpoint)
    {
      if !complete {
        FailureLogger(out);
      }
    }
  }

  /** inspect_token_uri completes the record early: a reference is there but cannot be normalized. */
  predicate EarlyExit(a: Asset) {
    NonEmpty(a.tokenUri) && !NonEmpty(NormalizeTokenUri(a.tokenUri))
  }

  /** The metadata the state holds after fetch_metadata, on line `line`. */
  function Metadata(a: Asset, svc: Services, line: nat): Option<Json> {
    if EarlyExit(a) then None
    else
      var m := FetchedFor(svc, line, NormalizeTokenUri(a.tokenUri));
      if Present(m) then m else None
  }

  /** The fields the state holds after run_llm_extraction, on line `line`. */
  function Fields(a: Asset, svc: Services, line: nat): Option<seq<string>> {
    match Metadata(a, svc, line)
    case None => None
    case Some(m) => Some(ExtractKeys(svc.llm(line, m)))
  }

  /** The description the record on line `line` is embedded with, or None when extract_description raises. */
  function Enrich(a: Asset, svc: Services, line: nat): Option<string> {
    match FlattenText(svc.render, Metadata(a, svc, line).GetOr(JObj([])), Fields(a, svc, line).GetOr([]))
    case None => None
    case Some(txt) => Some(ComposeDescription(a.name, a.imageCaption, txt))
  }

  /**
   * `compiled.invoke(state)` on a fresh state: the stages in graph order.
   * Unless extract_description raises, exactly one success line is
   * appended and the failure log is untouched: vectorize_description
   * always completes the record, so the conditional edge never selects
   * failure_logger.
   */
  method Invoke(s: AssetState, out: Outputs, svc: Services, line: nat) returns (raised: bool)
    requires s.Initial()
    modifies s, out
    ensures raised <==> Enrich(s.Input(), svc, line).None?
    ensures out.vectors == old(out.vectors) +
      if raised then [] else [VectorRecord(s.id, Enrich(s.Input(), svc, line).value, svc.embed(Enrich(s.Input(), svc, line).value))]
    ensures out.failures == old(out.failures) && out.checkpoint == old(out.checkpoint)
    ensures !raised ==> s.complete
  {
    s.InspectTokenUri();
    s.FetchMetadata(svc, line);
    assert s.fetchedMetadata == Metadata(s.Input(), svc, line);
    s.RunLlmExtraction(svc, line);
    assert s.fieldsToUse == Fields(s.Input(), svc, line);
    raised := s.ExtractDescription(svc);
    if raised {
      return;
    }
    s.VectorizeDescription(out, svc);
    s.RouteAfterVectorize(out);
  }

  /**
   * Whatever the early-exit reason (unnormalizable reference, failed
   * fetch, no metadata), extract_description replaces it: the record is
   * embedded with name and caption alone.
   */
  lemma EarlyReasonOverwritten(a: Asset, svc: Services, line: nat)
    requires Metadata(a, svc, line).None?
    ensures Enrich(a, svc, line) == Some(ComposeDescription(a.name, a.imageCaption, ""))
  {
  }

  /** extract_description raises exactly when truthy non-dict metadata meets a non-empty field list. */
  lemma RaisesIff(a: Asset, svc: Services, line: nat)
    ensures Enrich(a, svc, line).None? <==>
      Metadata(a, svc, line).Some? && !Metadata(a, svc, line).value.JObj? && Fields(a, svc, line).value != []
  {
  }

  /** A fetched dict yields name, caption and the flattened selected fields. */
  lemma FetchedDictDescribed(a: Asset, svc: Services, line: nat, ms: seq<(string, Json)>)
    requires Metadata(a, svc, line) == Some(JObj(ms))
    ensures Enrich(a, svc, line) == Some(ComposeDescription(a.name, a.imageCaption,
      Strings.Join(FieldsFragments(svc.render, ms, ExtractKeys(svc.llm(line, JObj(ms)))), ". ")))
  {
  }

  /** An embedded description is never longer than 2000 characters. */
  lemma DescriptionBounded(a: Asset, svc: Services, line: nat)
    requires Enrich(a, svc, line).Some?
    ensures |Enrich(a, svc, line).value| <= MAX_DESCRIPTION
  {
  }
}
