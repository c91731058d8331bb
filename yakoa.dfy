/**
 * The originality check (`yakoa_originality.py`): for every captioned
 * asset whose id is not yet in the output file, look its token up on the
 * Yakoa service, register it when the lookup gives nothing, look it up
 * again after a successful registration, and append the record to the
 * output, with a `yakoa` summary when a status was obtained.
 */
module Originality {
  import opened Wrappers
  import opened Json
  import opened Strings
  import opened Files

  /** `requests.get` on the token endpoint: an exception, or a status code and the body (None when `r.json()` raises). */
  datatype GetReply = GetRaised | GetResponse(status: int, body: Option<Json>)

  /** `requests.post` on the registration endpoint: an exception, or a status code. */
  datatype PostReply = PostRaised | PostResponse(status: int)

  /** What the script sends to the service. */
  datatype Request = StatusRequest(url: string) | RegisterRequest(url: string, body: Json)

  /**
   * The service as the script sees it: the network name from the
   * environment, and the replies, as functions of the input line, the
   * request's position among that line's requests (0, 1 or 2) and what is
   * sent. `render` is Python's `str` on non-string values.
   */
  datatype Api = Api(
    network: string,
    get: (nat, nat, string) -> GetReply,
    post: (nat, nat, string, Json) -> PostReply,
    render: Json -> string)

  /** `BASE_URL`. */
  function BaseUrl(network: string): string {
    "https://" + network + ".ip-api-sandbox.yakoa.io/" + network
  }

  /** The registration endpoint `{BASE_URL}/{chain}/token`. */
  function RegisterUrl(api: Api, chain: Json): string {
    BaseUrl(api.network) + "/" + Str(api.render, chain) + "/token"
  }

  /** The status endpoint `{BASE_URL}/{chain}/token/{token_id}`. */
  function StatusUrl(api: Api, chain: Json, tokenId: string): (url: string)
    ensures url == RegisterUrl(api, chain) + "/" + tokenId
  {
    BaseUrl(api.network) + "/" + Str(api.render, chain) + "/token/" + tokenId
  }

  // ----- get_token_id -----

  /**
   * `get_token_id`: `"<tokenContract>:<tokenId>"` and the chain id, all
   * read from `nftMetadata`; None when one of the lookups raises.
   */
  function TokenId(record: Json, render: Json -> string): (r: Option<(string, Json)>)
    ensures r.Some? <==>
      Index(record, "nftMetadata").Some? &&
      Index(Index(record, "nftMetadata").value, "chainId").Some? &&
      Index(Index(record, "nftMetadata").value, "tokenContract").Some? &&
      Index(Index(record, "nftMetadata").value, "tokenId").Some?
    ensures r.Some? ==> r.value.1 == Index(Index(record, "nftMetadata").value, "chainId").value
  {
    match Index(record, "nftMetadata")
    case None => None
    case Some(nm) =>
      match (Index(nm, "chainId"), Index(nm, "tokenContract"), Index(nm, "tokenId"))
      case (Some(chain), Some(contract), Some(id)) => Some((Str(render, contract) + ":" + Str(render, id), chain))
      case _ => None
  }

  /** When neither part holds a colon, the token id splits back into the contract and the token number. */
  lemma TokenIdParts(record: Json, render: Json -> string)
    requires TokenId(record, render).Some?
    requires var nm := Index(record, "nftMetadata").value;
      ':' !in Str(render, Index(nm, "tokenContract").value) && ':' !in Str(render, Index(nm, "tokenId").value)
    ensures var nm := Index(record, "nftMetadata").value;
      Split(TokenId(record, render).value.0, ":") ==
        [Str(render, Index(nm, "tokenContract").value), Str(render, Index(nm, "tokenId").value)]
  {
    var nm := Index(record, "nftMetadata").value;
    var c, t := Str(render, Index(nm, "tokenContract").value), Str(render, Index(nm, "tokenId").value);
    assert TokenId(record, render).value.0 == c + [':'] + t;
    SplitAppend(c, ':', t);
    NoSeparatorOnePiece(c, ':');
    NoSeparatorOnePiece(t, ':');
  }

  // ----- int() -----

  predicate IsDigit(c: char) {
    '0' <= c <= '9'
  }

  predicate AllDigits(s: string) {
    forall i :: 0 <= i < |s| ==> IsDigit(s[i])
  }

  /** The value of a string of decimal digits. */
  function DigitsValue(ds: string): nat
    requires AllDigits(ds)
  {
    if ds == [] then 0 else 10 * DigitsValue(ds[..|ds| - 1]) + (ds[|ds| - 1] as int - '0' as int)
  }

  /** The decimal numeral of `n`, without leading zeros. */
  function Decimal(n: nat): (s: string)
    ensures |s| >= 1 && AllDigits(s)
  {
    if n < 10 then [('0' as int + n) as char]
    else Decimal(n / 10) + [('0' as int + n % 10) as char]
  }

  lemma {:induction false} DecimalValue(n: nat)
    ensures DigitsValue(Decimal(n)) == n
  {
    var s := Decimal(n);
    if n >= 10 {
      DecimalValue(n / 10);
      assert s[..|s| - 1] == Decimal(n / 10);
    }
  }

  /** `int(s)` on a string: surrounding whitespace, an optional sign, then decimal digits. */
  function ParseInt(s: string): Option<int> {
    var t := Strip(s, Whitespace);
    if t == [] then None
    else
      var ds := if t[0] == '-' || t[0] == '+' then t[1..] else t;
      if ds != [] && AllDigits(ds) then
        var v: int := DigitsValue(ds);
        Some(if t[0] == '-' then -v else v)
      else None
  }

  /** `str(n)` of an integer. */
  function IntString(n: int): string {
    if n < 0 then "-" + Decimal(-n) else Decimal(n)
  }

  lemma DigitNotWhitespace(c: char)
    requires IsDigit(c)
    ensures c !in Whitespace
  {
  }

  /** `int(str(n)) == n`. */
  lemma ParseIntString(n: int)
    ensures ParseInt(IntString(n)) == Some(n)
  {
    var s := IntString(n);
    var m: nat := if n < 0 then -n else n;
    var d := Decimal(m);
    DecimalValue(m);
    assert s[|s| - 1] == d[|d| - 1];
    DigitNotWhitespace(d[|d| - 1]);
    if n < 0 {
      assert s == "-" + d && s[1..] == d;
      assert s[0] !in Whitespace by {
        assert s[0] == '-';
      }
    } else {
      assert s == d;
      DigitNotWhitespace(d[0]);
      assert !(d[0] == '-' || d[0] == '+');
    }
    StripUnchanged(s, Whitespace);
  }

  /** `int(x)` for a real: truncation toward zero. */
  function Trunc(x: real): (r: int)
    ensures x >= 0.0 ==> r as real <= x < r as real + 1.0
    ensures x < 0.0 ==> r as real - 1.0 < x <= r as real
  {
    if x >= 0.0 then x.Floor else -((-x).Floor)
  }

  /**
   * `int(v)` on a JSON value: booleans are 0 and 1, numbers are truncated,
   * strings are parsed; None when it raises (null, lists, dicts and
   * strings that are not numerals).
   */
  function ToInt(v: Json): Option<int> {
    match v
    case JBool(b) => Some(if b then 1 else 0)
    case JNum(x) => Some(Trunc(x))
    case JStr(s) => ParseInt(s)
    case _ => None
  }

  /** `int(record[key])`, None when the lookup or the conversion raises. */
  function IntAt(record: Json, key: string): Option<int> {
    match Index(record, key)
    case None => None
    case Some(v) => ToInt(v)
  }

  // ----- register_token / get_token_status -----

  /**
   * The registration body of `register_token`. It is built before the
   * `try`, so a missing field or an unconvertible block number or
   * timestamp raises out of the call.
   */
  function RegistrationBody(tokenId: string, record: Json): (r: Option<Json>)
    ensures r.Some? <==>
      IntAt(record, "blockNumber").Some? && Index(record, "transactionHash").Some? &&
      IntAt(record, "blockTimestamp").Some? && Index(record, "ipId").Some? &&
      Index(record, "nftMetadata").Some? && Index(Index(record, "nftMetadata").value, "imageUrl").Some?
  {
    match (IntAt(record, "blockNumber"), Index(record, "transactionHash"), IntAt(record, "blockTimestamp"),
           Index(record, "ipId"), Index(record, "nftMetadata"))
    case (Some(block), Some(tx), Some(time), Some(creator), Some(nm)) =>
      (match Index(nm, "imageUrl")
       case None => None
       case Some(url) =>
         Some(JObj([
           ("id", JStr(tokenId)),
           ("registration_tx", JObj([("block_number", JNum(block as real)), ("transaction_hash", tx), ("timestamp", JNum(time as real))])),
           ("creator_id", creator),
           ("metadata", nm),
           ("media", JArr([JObj([("media_id", JStr("default")), ("url", url)])]))])))
    case _ => None
  }

  /** `register_token`'s answer once the request is sent: status 200 or 201; an exception is False. */
  predicate Registered(reply: PostReply) {
    reply.PostResponse? && (reply.status == 200 || reply.status == 201)
  }

  /** `get_token_status`: the decoded body on status 200, and None (JSON null) otherwise or on an exception. */
  function TokenStatus(reply: GetReply): (status: Json)
    ensures status != JNull ==> reply.GetResponse? && reply.status == 200 && reply.body == Some(status)
    ensures reply.GetRaised? || reply.status != 200 || reply.body.None? ==> status == JNull
    ensures reply.GetResponse? && reply.status == 200 && reply.body.Some? ==> status == reply.body.value
  {
    match reply
    case GetResponse(200, Some(body)) => body
    case _ => JNull
  }

  // ----- the yakoa summary -----

  /** `m.get("fetch_status") == "hash_mismatch"` for a dict `m`. */
  predicate FlagsMismatch(m: Json)
    requires m.JObj?
  {
    Lookup(m.members, "fetch_status") == Some(JStr("hash_mismatch"))
  }

  /**
   * `any(m.get(...) == "hash_mismatch" for m in xs)`: stops at the first
   * match; None when it reaches an element that is not a dict (no `.get`).
   */
  function AnyMismatch(xs: seq<Json>): Option<bool> {
    if xs == [] then Some(false)
    else if !xs[0].JObj? then None
    else if FlagsMismatch(xs[0]) then Some(true)
    else AnyMismatch(xs[1..])
  }

  /**
   * The `any(...)` over `token_status.get("media", [])`: a list is iterated
   * by its elements, a dict by its keys and a string by its characters,
   * which have no `.get`; other values are not iterable.
   */
  function HashMismatch(media: Json): Option<bool> {
    match media
    case JArr(xs) => AnyMismatch(xs)
    case JObj(ms) => if ms == [] then Some(false) else None
    case JStr(s) => if s == "" then Some(false) else None
    case _ => None
  }

  /** Over a list of dicts, the flag is set exactly when some entry has `fetch_status == "hash_mismatch"`. */
  lemma {:induction false} MismatchOfDicts(xs: seq<Json>)
    requires forall i :: 0 <= i < |xs| ==> xs[i].JObj?
    ensures AnyMismatch(xs) == Some(exists i :: 0 <= i < |xs| && xs[i].JObj? && FlagsMismatch(xs[i]))
  {
    if xs != [] && !FlagsMismatch(xs[0]) {
      MismatchOfDicts(xs[1..]);
      assert forall i :: 1 <= i < |xs| ==> xs[i] == xs[1..][i - 1];
    }
  }

  /** The first `i` entries are dicts without the flag, so the scan passes over them. */
  ghost predicate PassesOver(xs: seq<Json>, i: int) {
    forall j :: 0 <= j < i && j < |xs| ==> xs[j].JObj? && !FlagsMismatch(xs[j])
  }

  /** The scan raises exactly when a non-dict entry comes before any matching one. */
  lemma {:induction false} MismatchRaises(xs: seq<Json>)
    ensures AnyMismatch(xs).None? <==> exists i :: 0 <= i < |xs| && !xs[i].JObj? && PassesOver(xs, i)
  {
    if xs == [] {
    } else if !xs[0].JObj? {
      assert PassesOver(xs, 0);
    } else if !FlagsMismatch(xs[0]) {
      var t := xs[1..];
      MismatchRaises(t);
      if AnyMismatch(t).None? {
        var i :| 0 <= i < |t| && !t[i].JObj? && PassesOver(t, i);
        assert xs[i + 1] == t[i];
        assert PassesOver(xs, i + 1) by {
          forall j | 0 <= j < i + 1
            ensures xs[j].JObj? && !FlagsMismatch(xs[j])
          {
            if j > 0 {
              assert xs[j] == t[j - 1];
            }
          }
        }
      }
      if exists i :: 0 <= i < |xs| && !xs[i].JObj? && PassesOver(xs, i) {
        var i :| 0 <= i < |xs| && !xs[i].JObj? && PassesOver(xs, i);
        assert i >= 1;
        assert t[i - 1] == xs[i];
        assert PassesOver(t, i - 1) by {
          forall j | 0 <= j < i - 1
            ensures t[j].JObj? && !FlagsMismatch(t[j])
          {
            assert t[j] == xs[j + 1];
          }
        }
      }
    } else {
      forall i | 0 <= i < |xs| && !xs[i].JObj?
        ensures !PassesOver(xs, i)
      {
        assert i > 0;
      }
    }
  }

  /**
   * `record["yakoa"]` for a truthy status: None when building it raises
   * (a status that is not a dict has no `.get`, or the scan of `media`
   * raises).
   */
  function Summary(status: Json): (r: Option<Json>)
    ensures r.Some? <==> status.JObj? && HashMismatch(GetOr(status.members, "media", JArr([]))).Some?
  {
    if !status.JObj? then None
    else
      var ms := status.members;
      match HashMismatch(GetOr(ms, "media", JArr([])))
      case None => None
      case Some(h) =>
        Some(JObj([
          ("infringements", GetOr(ms, "infringements", JNull)),
          ("originality_score", GetOr(ms, "originality_score", JNull)),
          ("hash_mismatch", JBool(h))]))
  }

  /**
   * The summary copies `infringements` and `originality_score` (null when
   * absent), and `hash_mismatch` is false when there is no `media`.
   */
  lemma SummaryFields(status: Json)
    requires Summary(status).Some?
    ensures var y := Summary(status).value.members;
      Keys(y) == ["infringements", "originality_score", "hash_mismatch"] &&
      Lookup(y, "infringements") == Some(GetOr(status.members, "infringements", JNull)) &&
      Lookup(y, "originality_score") == Some(GetOr(status.members, "originality_score", JNull)) &&
      Lookup(y, "hash_mismatch") == Some(JBool(HashMismatch(GetOr(status.members, "media", JArr([]))).value))
    ensures "media" !in Keys(status.members) ==> Lookup(Summary(status).value.members, "hash_mismatch") == Some(JBool(false))
  {
    var y := Summary(status).value.members;
    assert y[1..][1..] == [y[2]];
    LookupKeys(status.members, "media");
  }

  // ----- one record -----

  /** The token's status after the lookups, the requests sent, and whether registration raised. */
  datatype Probe = Probe(status: Json, requests: seq<Request>, raised: bool)

  /**
   * Lines 85-91: look the token up; when the status is falsy, register it,
   * and when registration succeeded, look it up again. `body` is the
   * registration body `register_token` builds from the record (None when
   * building it raises); it is a pure function of the record and matters
   * only once registration is reached, so it is passed in.
   */
  function ProbeToken(api: Api, i: nat, tokenId: string, chain: Json, body: Option<Json>): Probe {
    var url := StatusUrl(api, chain, tokenId);
    var first := TokenStatus(api.get(i, 0, url));
    if Truthy(first) then Probe(first, [StatusRequest(url)], false)
    else
      var later := Reregister(api, i, url, RegisterUrl(api, chain), first, body);
      later.(requests := [StatusRequest(url)] + later.requests)
  }

  /** Lines 88-91 once the first status was falsy, given the registration body (None when building it raised). */
  function Reregister(api: Api, i: nat, url: string, reg: string, first: Json, body: Option<Json>): Probe {
    match body
    case None => Probe(first, [], true)
    case Some(b) =>
      if !Registered(api.post(i, 1, reg, b)) then Probe(first, [RegisterRequest(reg, b)], false)
      else Probe(TokenStatus(api.get(i, 2, url)), [RegisterRequest(reg, b), StatusRequest(url)], false)
  }

  /**
   * The request protocol: the status is always looked up first; the token
   * is registered only when that status is falsy; and it is looked up a
   * second time only when registration answered 200 or 201.
   */
  lemma ProbeProtocol(api: Api, i: nat, tokenId: string, chain: Json, body: Option<Json>)
    ensures var p := ProbeToken(api, i, tokenId, chain, body);
      var url := StatusUrl(api, chain, tokenId);
      var first := TokenStatus(api.get(i, 0, url));
      1 <= |p.requests| <= 3 && p.requests[0] == StatusRequest(url) &&
      (p.raised <==> !Truthy(first) && body.None?) &&
      (|p.requests| >= 2 <==> !Truthy(first) && body.Some?) &&
      (|p.requests| >= 2 ==> p.requests[1] == RegisterRequest(RegisterUrl(api, chain), body.value)) &&
      (|p.requests| == 3 <==> !Truthy(first) && body.Some? && Registered(api.post(i, 1, RegisterUrl(api, chain), body.value))) &&
      (|p.requests| == 3 ==> p.requests[2] == StatusRequest(url) && p.status == TokenStatus(api.get(i, 2, url))) &&
      (|p.requests| < 3 ==> p.status == first)
  {
  }

  /** What the loop body does with a record. */
  datatype Effect = Skip | Crash | Write(record: Json)

  /** The effect and the requests sent. */
  datatype Checked = Checked(effect: Effect, requests: seq<Request>)

  /** Lines 93-103 on a dict record: the summary is added when the final status is truthy. */
  function Annotate(rec: Json, status: Json): Effect
    requires rec.JObj?
  {
    if !Truthy(status) then Write(rec)
    else
      match Summary(status)
      case None => Crash
      case Some(y) => Write(JObj(Put(rec.members, "yakoa", y)))
  }

  /**
   * A written record keeps every other field; it carries the summary of a
   * truthy status, and is written unchanged when the status is falsy.
   */
  lemma AnnotateEffect(rec: Json, status: Json)
    requires rec.JObj?
    ensures var e := Annotate(rec, status);
      (e.Crash? <==> Truthy(status) && Summary(status).None?) &&
      (e.Write? ==> SameApartFrom(e.record, rec, "yakoa") && ReadId(e.record) == ReadId(rec)) &&
      (e.Write? && Truthy(status) ==> Lookup(e.record.members, "yakoa") == Summary(status)) &&
      (!Truthy(status) ==> e == Write(rec))
  {
    if Truthy(status) && Summary(status).Some? {
      var y := Summary(status).value;
      PutApartFrom(rec.members, "yakoa", y);
      assert Lookup(Put(rec.members, "yakoa", y), "id") == Lookup(rec.members, "id");
    }
  }

  /**
   * The loop body on the i-th record. `record["id"]`, the membership test,
   * `get_token_id`, the registration body and the summary can raise,
   * which ends the script.
   */
  function Check(rec: Json, i: nat, existing: set<Json>, api: Api): Checked {
    match ReadId(rec)
    case None => Checked(Crash, [])
    case Some(id) =>
      if id in existing then Checked(Skip, [])
      else
        match TokenId(rec, api.render)
        case None => Checked(Crash, [])
        case Some(tc) =>
          var p := ProbeToken(api, i, tc.0, tc.1, RegistrationBody(tc.0, rec));
          Checked(if p.raised then Crash else Annotate(rec, p.status), p.requests)
  }

  /** A record that is not skipped because of its id. */
  predicate Fresh(rec: Json, existing: set<Json>) {
    !(ReadId(rec).Some? && ReadId(rec).value in existing)
  }

  /** What the run relies on of one step: loaded ids are skipped, and a written record is its input record up to `yakoa`. */
  ghost predicate Sound(c: Checked, rec: Json, existing: set<Json>) {
    (c.effect.Skip? <==> !Fresh(rec, existing)) &&
    (c.effect.Skip? ==> c.requests == []) &&
    (c.effect.Write? ==> SameApartFrom(c.effect.record, rec, "yakoa") && ReadId(c.effect.record) == ReadId(rec))
  }

  /**
   * A record whose id was loaded is skipped without a request; any other
   * record is written only after its token id was read, and as the
   * annotation of its final status.
   */
  lemma CheckEffect(rec: Json, i: nat, existing: set<Json>, api: Api)
    ensures Sound(Check(rec, i, existing, api), rec, existing)
    ensures var c := Check(rec, i, existing, api);
      c.effect.Write? ==>
        Fresh(rec, existing) && rec.JObj? && TokenId(rec, api.render).Some? &&
        var tc := TokenId(rec, api.render).value;
        c.effect == Annotate(rec, ProbeToken(api, i, tc.0, tc.1, RegistrationBody(tc.0, rec)).status)
  {
    var c := Check(rec, i, existing, api);
    if ReadId(rec).Some? && ReadId(rec).value !in existing && TokenId(rec, api.render).Some? {
      var tc := TokenId(rec, api.render).value;
      var p := ProbeToken(api, i, tc.0, tc.1, RegistrationBody(tc.0, rec));
      if !p.raised {
        AnnotateEffect(rec, p.status);
      }
    }
  }

  // ----- get_existing_ids and the main loop -----

  /**
   * `get_existing_ids`: the ids of the output file's lines; None when a
   * line has no hashable `id`, which raises. A missing file is `[]`.
   */
  function ExistingIds(store: seq<Json>): (r: Option<set<Json>>)
    ensures r.None? <==> exists i :: 0 <= i < |store| && ReadId(store[i]).None?
    ensures r.Some? ==> forall id :: id in r.value <==> exists i :: 0 <= i < |store| && ReadId(store[i]) == Some(id)
  {
    if forall i :: 0 <= i < |store| ==> ReadId(store[i]).Some? then
      Some(set i | 0 <= i < |store| :: ReadId(store[i]).value)
    else None
  }

  /** What the run has written and sent so far, and whether it has ended with an exception. */
  datatype Progress = Progress(written: seq<Json>, requests: seq<Request>, crashed: bool)

  function Advance(p: Progress, c: Checked): Progress {
    Progress(p.written + (if c.effect.Write? then [c.effect.record] else []), p.requests + c.requests, c.effect.Crash?)
  }

  /** The loop body with the loaded ids and the service fixed. */
  function Checker(existing: set<Json>, api: Api): (Json, nat) -> Checked {
    (rec: Json, i: nat) => Check(rec, i, existing, api)
  }

  /** The main loop over the input lines, `check` being the loop body on the i-th line. */
  function Run(input: seq<Json>, check: (Json, nat) -> Checked): Progress {
    if input == [] then Progress([], [], false)
    else
      var p := Run(input[..|input| - 1], check);
      if p.crashed then p else Advance(p, check(input[|input| - 1], |input| - 1))
  }

  /** Once the script has raised, the later lines change nothing. */
  lemma {:induction false} RunCrashSticky(input: seq<Json>, k: nat, check: (Json, nat) -> Checked)
    requires k <= |input| && Run(input[..k], check).crashed
    ensures Run(input, check) == Run(input[..k], check)
    decreases |input|
  {
    if k < |input| {
      var init := input[..|input| - 1];
      assert init[..k] == input[..k];
      RunCrashSticky(init, k, check);
    } else {
      assert input[..k] == input;
    }
  }

  /** The input records that are not skipped, in input order. */
  function Unskipped(input: seq<Json>, existing: set<Json>): (r: seq<Json>)
    ensures forall j :: 0 <= j < |r| ==> Fresh(r[j], existing)
  {
    if input == [] then []
    else Unskipped(input[..|input| - 1], existing) + (if Fresh(input[|input| - 1], existing) then [input[|input| - 1]] else [])
  }

  /** `written[j]` is the j-th unskipped record, possibly with a summary added. */
  ghost predicate WrittenInOrder(written: seq<Json>, unskipped: seq<Json>) {
    |written| == |unskipped| &&
    forall j :: 0 <= j < |written| ==> SameApartFrom(written[j], unskipped[j], "yakoa") && ReadId(written[j]) == ReadId(unskipped[j])
  }

  lemma AdvanceInOrder(p: Progress, input: seq<Json>, rec: Json, c: Checked, existing: set<Json>)
    requires !p.crashed && WrittenInOrder(p.written, Unskipped(input, existing))
    requires Sound(c, rec, existing) && !c.effect.Crash?
    ensures WrittenInOrder(Advance(p, c).written, Unskipped(input + [rec], existing))
  {
    assert (input + [rec])[..|input|] == input;
    var w := Advance(p, c).written;
    var u := Unskipped(input + [rec], existing);
    var u0 := Unskipped(input, existing);
    if c.effect.Write? {
      assert w == p.written + [c.effect.record];
      assert u == u0 + [rec];
      forall j | 0 <= j < |w|
        ensures SameApartFrom(w[j], u[j], "yakoa") && ReadId(w[j]) == ReadId(u[j])
      {
        if j < |w| - 1 {
          assert w[j] == p.written[j] && u[j] == u0[j];
        }
      }
    } else {
      assert w == p.written && u == u0;
    }
  }

  /** Each line's step is sound. */
  ghost predicate SoundSteps(input: seq<Json>, existing: set<Json>, check: (Json, nat) -> Checked) {
    forall i :: 0 <= i < |input| ==> Sound(check(input[i], i), input[i], existing)
  }

  lemma {:induction false} RunWritesInOrder(input: seq<Json>, existing: set<Json>, check: (Json, nat) -> Checked)
    requires SoundSteps(input, existing, check) && !Run(input, check).crashed
    ensures WrittenInOrder(Run(input, check).written, Unskipped(input, existing))
  {
    if input != [] {
      var n := |input| - 1;
      var init := input[..n];
      var rec := input[n];
      assert init + [rec] == input;
      assert SoundSteps(init, existing, check) by {
        forall i | 0 <= i < |init|
          ensures Sound(check(init[i], i), init[i], existing)
        {
          assert init[i] == input[i];
        }
      }
      RunWritesInOrder(init, existing, check);
      AdvanceInOrder(Run(init, check), init, rec, check(rec, n), existing);
    }
  }

  lemma CheckerSound(input: seq<Json>, existing: set<Json>, api: Api)
    ensures SoundSteps(input, existing, Checker(existing, api))
  {
    forall i | 0 <= i < |input|
      ensures Sound(Checker(existing, api)(input[i], i), input[i], existing)
    {
      CheckEffect(input[i], i, existing, api);
    }
  }

  /**
   * Without an exception, every record whose id was not loaded is written
   * exactly once, in input order, with only `yakoa` changed; the loaded
   * ids are not extended, so a repeated new id is written again.
   */
  lemma WritesEachFreshRecord(input: seq<Json>, existing: set<Json>, api: Api)
    requires !Run(input, Checker(existing, api)).crashed
    ensures WrittenInOrder(Run(input, Checker(existing, api)).written, Unskipped(input, existing))
  {
    CheckerSound(input, existing, api);
    RunWritesInOrder(input, existing, Checker(existing, api));
  }

  // ----- the script as imperative code -----

  /** The connection to the service, with every request sent. */
  class Client {
    const api: Api
    var requests: seq<Request>

    constructor (api: Api)
      ensures this.api == api && requests == []
    {
      this.api := api;
      requests := [];
    }

    /** `get_token_status` for the i-th line's j-th request. */
    method GetTokenStatus(i: nat, j: nat, tokenId: string, chain: Json) returns (status: Json)
      modifies this
      ensures requests == old(requests) + [StatusRequest(StatusUrl(api, chain, tokenId))]
      ensures status == TokenStatus(api.get(i, j, StatusUrl(api, chain, tokenId)))
    {
      var url := StatusUrl(api, chain, tokenId);
      requests := requests + [StatusRequest(url)];
      status := TokenStatus(api.get(i, j, url));
    }

    /**
     * `register_token` given the body it builds (see `ProbeToken`);
     * `raised` when building the body raises, before anything is sent.
     */
    method RegisterToken(i: nat, j: nat, chain: Json, body: Option<Json>) returns (raised: bool, success: bool)
      modifies this
      ensures raised == body.None? &&
        (raised ==> requests == old(requests)) &&
        (!raised ==>
          requests == old(requests) + [RegisterRequest(RegisterUrl(api, chain), body.value)] &&
          success == Registered(api.post(i, j, RegisterUrl(api, chain), body.value)))
    {
      if body.None? {
        return true, false;
      }
      var url := RegisterUrl(api, chain);
      requests := requests + [RegisterRequest(url, body.value)];
      return false, Registered(api.post(i, j, url, body.value));
    }
  }

  /** Lines 85-91, where `token_status` is reassigned after a successful registration. */
  method ProbeAsset(i: nat, tokenId: string, chain: Json, body: Option<Json>, client: Client) returns (raised: bool, status: Json)
    modifies client
    ensures var p := ProbeToken(client.api, i, tokenId, chain, body);
      raised == p.raised && status == p.status && client.requests == old(client.requests) + p.requests
  {
    ghost var before := client.requests;
    var first := client.GetTokenStatus(i, 0, tokenId, chain);
    raised, status := false, first;
    if !Truthy(first) {
      ghost var url := StatusUrl(client.api, chain, tokenId);
      ghost var later := Reregister(client.api, i, url, RegisterUrl(client.api, chain), first, body);
      raised, status := RegisterThenLookUp(i, tokenId, chain, body, client, first);
      AppendAssoc(before, [StatusRequest(url)], later.requests);
    }
  }

  /** Lines 88-91: register, and look the token up again when that succeeded. */
  method RegisterThenLookUp(i: nat, tokenId: string, chain: Json, body: Option<Json>, client: Client, first: Json) returns (raised: bool, status: Json)
    modifies client
    ensures var later := Reregister(client.api, i, StatusUrl(client.api, chain, tokenId), RegisterUrl(client.api, chain), first, body);
      raised == later.raised && status == later.status && client.requests == old(client.requests) + later.requests
  {
    ghost var before := client.requests;
    status := first;
    var success;
    raised, success := client.RegisterToken(i, 1, chain, body);
    if !raised && success {
      ghost var a := client.requests[|client.requests| - 1];
      status := client.GetTokenStatus(i, 2, tokenId, chain);
      ghost var b := client.requests[|client.requests| - 1];
      AppendAssoc(before, [a], [b]);
      assert [a] + [b] == [a, b];
    }
  }

  /** The loop body on the i-th record, as `Check` describes it. */
  method CheckAsset(rec: Json, i: nat, existing: set<Json>, client: Client, out: Sink) returns (crashed: bool)
    modifies client, out
    ensures var c := Check(rec, i, existing, client.api);
      crashed == c.effect.Crash? &&
      client.requests == old(client.requests) + c.requests &&
      out.records == old(out.records) + (if c.effect.Write? then [c.effect.record] else [])
  {
    var id := ReadId(rec);
    if id.None? {
      return true;
    }
    if id.value in existing {
      return false;
    }
    var tc := TokenId(rec, client.api.render);
    if tc.None? {
      return true;
    }
    var body := RegistrationBody(tc.value.0, rec);
    var raised, status := ProbeAsset(i, tc.value.0, tc.value.1, body, client);
    if raised {
      return true;
    }
    var record := rec;
    if Truthy(status) {
      var y := Summary(status);
      if y.None? {
        return true;
      }
      record := JObj(Put(rec.members, "yakoa", y.value));
    }
    out.Append(record);
    return false;
  }

  /**
   * The script: load the ids already in the output file, then check every
   * input line in order, appending to the same file, until the end or the
   * first exception.
   */
  method CheckOriginality(input: seq<Json>, client: Client, out: Sink) returns (crashed: bool)
    modifies client, out
    ensures var ids := ExistingIds(old(out.records));
      (ids.None? ==> crashed && client.requests == old(client.requests) && out.records == old(out.records)) &&
      (ids.Some? ==>
        var p := Run(input, Checker(ids.value, client.api));
        crashed == p.crashed &&
        client.requests == old(client.requests) + p.requests &&
        out.records == old(out.records) + p.written)
  {
    var ids := ExistingIds(out.records);
    if ids.None? {
      return true;
    }
    var existing := ids.value;
    ghost var check := Checker(existing, client.api);
    ghost var requests0, records0 := client.requests, out.records;
    crashed := false;
    var i := 0;
    while i < |input|
      invariant 0 <= i <= |input|
      invariant var p := Run(input[..i], check);
        !p.crashed && client.requests == requests0 + p.requests && out.records == records0 + p.written
    {
      assert input[..i + 1][..i] == input[..i];
      ghost var p := Run(input[..i], check);
      ghost var c := check(input[i], i);
      crashed := CheckAsset(input[i], i, existing, client, out);
      AppendAssoc(requests0, p.requests, c.requests);
      AppendAssoc(records0, p.written, if c.effect.Write? then [c.effect.record] else []);
      if crashed {
        RunCrashSticky(input, i + 1, check);
        return;
      }
      i := i + 1;
    }
    assert input[..i] == input;
  }
}
