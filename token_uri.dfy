/**
 * `normalize_token_uri`: turns a token-metadata reference into an address
 * that can be fetched over HTTP, or reports that it cannot.
 */
module TokenUri {
  import opened Wrappers
  import opened Strings

  const IPFS_SCHEME := "ipfs://"
  const IPFS_GATEWAY := "https://gateway.pinata.cloud/ipfs/"

  /** `\w` restricted to ASCII letters, digits and underscore. */
  predicate IsWordChar(c: char) {
    'a' <= c <= 'z' || 'A' <= c <= 'Z' || '0' <= c <= '9' || c == '_'
  }

  /** The pattern `ipfs/[\w\d]` matches at position `i` of `s`. */
  predicate PathAt(s: string, i: nat) {
    i + 6 <= |s| && s[i..i + 5] == "ipfs/" && IsWordChar(s[i + 5])
  }

  /** Where `re.search(r"ipfs/([\w\d]+.*)", s)` finds its leftmost match, scanning from `from`. */
  function SearchPath(s: string, from: nat): (r: Option<nat>)
    ensures r.Some? ==> from <= r.value && PathAt(s, r.value)
    ensures r.Some? ==> forall j: nat :: from <= j < r.value ==> !PathAt(s, j)
    ensures r.None? ==> forall j: nat :: from <= j ==> !PathAt(s, j)
    decreases |s| - from
  {
    if from + 6 > |s| then None
    else if PathAt(s, from) then Some(from)
    else SearchPath(s, from + 1)
  }

  /** The end of the line that position `k` is on: `.` in the pattern never crosses a newline. */
  function LineEnd(s: string, k: nat): (e: nat)
    requires k <= |s|
    ensures k <= e <= |s|
    ensures forall j :: k <= j < e ==> s[j] != '\n'
    ensures e < |s| ==> s[e] == '\n'
    decreases |s| - k
  {
    if k == |s| || s[k] == '\n' then k else LineEnd(s, k + 1)
  }

  /**
   * The rewriting rules, tried in this order: absent or empty gives
   * nothing; an `ipfs://` reference has every `ipfs://` replaced by the
   * gateway; otherwise the leftmost `ipfs/<word char>` is rewritten to the
   * gateway followed by the rest of its line, even inside an `http` URL;
   * otherwise an `http...` reference is kept; anything else gives nothing.
   */
  function NormalizeTokenUri(uri: Option<string>): (r: Option<string>)
    ensures r.None? <==>
      uri.None? ||
      (!StartsWith(uri.value, IPFS_SCHEME) &&
       (forall j: nat :: !PathAt(uri.value, j)) &&
       !StartsWith(uri.value, "http"))
    ensures r.Some? ==> StartsWith(r.value, "http")
    ensures uri.Some? && StartsWith(uri.value, IPFS_SCHEME) ==>
      r == Some(ReplaceAll(uri.value, IPFS_SCHEME, IPFS_GATEWAY))
    ensures uri.Some? && !StartsWith(uri.value, IPFS_SCHEME) && PathAt(uri.value, 0) ==>
      r == Some(IPFS_GATEWAY + uri.value[5..LineEnd(uri.value, 5)])
    ensures (uri.Some? && !StartsWith(uri.value, IPFS_SCHEME) && (forall j: nat :: !PathAt(uri.value, j)) &&
             StartsWith(uri.value, "http")) ==> r == uri
  {
    if uri.None? || uri.value == "" then None
    else
      var u := uri.value;
      if StartsWith(u, IPFS_SCHEME) then
        ReplaceAllLeading(u, IPFS_SCHEME, IPFS_GATEWAY);
        Some(ReplaceAll(u, IPFS_SCHEME, IPFS_GATEWAY))
      else match SearchPath(u, 0)
        case Some(i) => Some(IPFS_GATEWAY + u[i + 5..LineEnd(u, i + 5)])
        case None => if StartsWith(u, "http") then uri else None
  }

  /**
   * The pattern rule, taken after the scheme rule: the leftmost
   * `ipfs/<word char>` decides, and what follows it up to the end of its
   * line is kept after the gateway.
   */
  lemma PathRule(u: string, i: nat)
    requires !StartsWith(u, IPFS_SCHEME)
    requires PathAt(u, i) && forall j: nat :: j < i ==> !PathAt(u, j)
    ensures NormalizeTokenUri(Some(u)) == Some(IPFS_GATEWAY + u[i + 5..LineEnd(u, i + 5)])
  {
    assert SearchPath(u, 0) == Some(i);
  }

  /** Within the gateway, `ipfs/` occurs only at its end, at position 29. */
  lemma GatewayOnlyPathAtEnd(j: nat)
    requires j < 29
    ensures IPFS_GATEWAY[j..j + 5] != "ipfs/"
  {
    var w := IPFS_GATEWAY[j..j + 5];
    assert w[0] == IPFS_GATEWAY[j] && w[1] == IPFS_GATEWAY[j + 1];
    assert j == 0 || j == 1 || j == 2 || j == 3 || j == 4 || j == 5 || j == 6 || j == 7 ||
      j == 8 || j == 9 || j == 10 || j == 11 || j == 12 || j == 13 || j == 14 || j == 15 ||
      j == 16 || j == 17 || j == 18 || j == 19 || j == 20 || j == 21 || j == 22 || j == 23 ||
      j == 24 || j == 25 || j == 26 || j == 27 || j == 28;
  }

  /** A gateway address whose path starts with a word character is matched at the gateway's `ipfs/`. */
  lemma GatewayPathAt(g: string)
    requires g != [] && IsWordChar(g[0])
    ensures PathAt(IPFS_GATEWAY + g, 29)
    ensures forall j: nat :: j < 29 ==> !PathAt(IPFS_GATEWAY + g, j)
  {
    var s := IPFS_GATEWAY + g;
    assert s[29..34] == "ipfs/";
    forall j: nat | j < 29 ensures !PathAt(s, j) {
      assert s[j..j + 5] == IPFS_GATEWAY[j..j + 5];
      GatewayOnlyPathAtEnd(j);
    }
  }

  /**
   * The pattern rule is idempotent: a reference it rewrote (and whose rest
   * of line is the whole rest) normalizes to itself.
   */
  lemma PathRuleIdempotent(u: string, i: nat)
    requires !StartsWith(u, IPFS_SCHEME)
    requires PathAt(u, i) && forall j: nat :: j < i ==> !PathAt(u, j)
    requires LineEnd(u, i + 5) == |u|
    ensures NormalizeTokenUri(NormalizeTokenUri(Some(u))) == NormalizeTokenUri(Some(u))
  {
    PathRule(u, i);
    var g := u[i + 5..];
    assert u[i + 5..LineEnd(u, i + 5)] == g;
    assert g[0] == u[i + 5];
    forall j | 0 <= j < |g| ensures g[j] != '\n' {
      assert g[j] == u[i + 5 + j];
    }
    GatewayRewriteFixed(g);
  }

  /** The gateway followed by a one-line path beginning with a word character is a fixed point. */
  lemma GatewayRewriteFixed(g: string)
    requires g != [] && IsWordChar(g[0])
    requires forall j :: 0 <= j < |g| ==> g[j] != '\n'
    ensures NormalizeTokenUri(Some(IPFS_GATEWAY + g)) == Some(IPFS_GATEWAY + g)
  {
    var v := IPFS_GATEWAY + g;
    GatewayPathAt(g);
    assert !StartsWith(v, IPFS_SCHEME) by {
      assert v[..7][0] == v[0] == 'h';
    }
    PathRule(v, 29);
    assert v[34..] == g;
    forall j | 34 <= j < |v| ensures v[j] != '\n' {
      assert v[j] == g[j - 34];
    }
    LineEndNoNewline(v, 34);
    assert v[34..LineEnd(v, 34)] == g;
  }

  lemma {:induction false} LineEndNoNewline(s: string, k: nat)
    requires k <= |s|
    requires forall j :: k <= j < |s| ==> s[j] != '\n'
    ensures LineEnd(s, k) == |s|
    decreases |s| - k
  {
    if k < |s| {
      LineEndNoNewline(s, k + 1);
    }
  }

  /** `"ipfs://Qm123/meta.json"` goes to the gateway. */
  lemma SchemeExample()
    ensures NormalizeTokenUri(Some("ipfs://Qm123/meta.json")) == Some(IPFS_GATEWAY + "Qm123/meta.json")
  {
    var u := "ipfs://Qm123/meta.json";
    var rest := "Qm123/meta.json";
    assert u[..7] == IPFS_SCHEME;
    assert u[7..] == rest;
    assert ':' !in rest;
    ReplaceAllAbsent(rest, IPFS_SCHEME, IPFS_GATEWAY, 4);
  }

  /** The first `ipfs/` of the example below is at 13. */
  lemma FirstPathAt13(u: string)
    requires u == "https://x.io/ipfs/Qm1"
    ensures PathAt(u, 13) && forall j: nat :: j < 13 ==> !PathAt(u, j)
  {
    assert u[13..18] == "ipfs/";
    forall j: nat | j < 13 ensures !PathAt(u, j) {
      var w := u[j..j + 5];
      assert w[0] == u[j] && w[1] == u[j + 1];
      assert j == 0 || j == 1 || j == 2 || j == 3 || j == 4 || j == 5 || j == 6 ||
        j == 7 || j == 8 || j == 9 || j == 10 || j == 11 || j == 12;
    }
  }

  /** A reference inside an `http` URL is still rewritten: the pattern rule comes first. */
  lemma HttpWithPathExample(u: string)
    requires u == "https://x.io/ipfs/Qm1"
    ensures NormalizeTokenUri(Some(u)) == Some(IPFS_GATEWAY + "Qm1")
  {
    FirstPathAt13(u);
    assert !StartsWith(u, IPFS_SCHEME) by { assert u[..7][0] == 'h'; }
    PathRule(u, 13);
    LineEndNoNewline(u, 18);
    assert u[18..21] == "Qm1";
  }

  /** `"not-a-uri"` cannot be normalized. */
  lemma NotAUriExample()
    ensures NormalizeTokenUri(Some("not-a-uri")) == None
  {
    var u := "not-a-uri";
    assert !StartsWith(u, IPFS_SCHEME) by { assert u[..7][0] == 'n'; }
    assert !StartsWith(u, "http") by { assert u[..4][0] == 'n'; }
    assert SearchPath(u, 0) == None;
  }
}
