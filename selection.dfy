/**
 * The field selector (`extract_keys_via_llm`): the metadata goes to a
 * language-model service, and the free-text answer is parsed into a list
 * of candidate field names, one per non-blank line. Any failure gives the
 * empty list.
 */
module FieldSelection {
  import opened Wrappers
  import opened Strings
  import opened Json

  /** What the POST to the generate endpoint gives. */
  datatype LlmReply =
    | PostRaised                              // connection error, timeout
    | Response(status: int, body: Option<Json>) // body is None when `res.json()` raises

  /** The characters of the list marker that `ln.strip("- ")` removes. */
  const MarkerChars: set<char> := {'-', ' '}

  /**
   * The `response` text, or None when the `try` block raises:
   * `raise_for_status` on a 4xx/5xx status, an undecodable body, a body
   * that is not an object, or a `response` member that is not a string.
   */
  function ResponseText(reply: LlmReply): (t: Option<string>)
    ensures t.Some? ==> reply.Response? && !(400 <= reply.status < 600) && reply.body.Some? && reply.body.value.JObj?
  {
    match reply
    case PostRaised => None
    case Response(status, body) =>
      if 400 <= status < 600 then None
      else match body
        case Some(JObj(ms)) =>
          (match GetOr(ms, "response", JStr(""))
           case JStr(text) => Some(text)
           case _ => None)
        case _ => None
  }

  /** A line counts only when `ln.strip()` is non-empty. */
  predicate Blank(ln: string) {
    Strip(ln, Whitespace) == ""
  }

  /** One entry: `ln.strip("- ").strip()`. */
  function Clean(ln: string): (e: string)
    ensures |e| <= |ln|
    ensures e != "" ==> e[0] !in Whitespace && e[|e| - 1] !in Whitespace
  {
    StripEnds(Strip(ln, MarkerChars), Whitespace);
    Strip(Strip(ln, MarkerChars), Whitespace)
  }

  /** What one line contributes to the list. */
  function Entry(ln: string): seq<string> {
    if Blank(ln) then [] else [Clean(ln)]
  }

  /** `f` applied to every line, the results concatenated in line order. */
  function FlatMap(f: string -> seq<string>, lines: seq<string>): seq<string> {
    if lines == [] then [] else f(lines[0]) + FlatMap(f, lines[1..])
  }

  /** The list comprehension over the lines, in line order. */
  function Selection(lines: seq<string>): seq<string> {
    FlatMap(Entry, lines)
  }

  /** The parsed field list (`splitlines` taken as splitting on '\n'). */
  function ExtractKeys(reply: LlmReply): (fields: seq<string>)
    ensures ResponseText(reply).None? ==> fields == []
  {
    match ResponseText(reply)
    case None => []
    case Some(text) => Selection(Split(text, "\n"))
  }

  /** Lines are handled one by one: the selection of a concatenation is the concatenation. */
  lemma {:induction false} FlatMapAppend(f: string -> seq<string>, a: seq<string>, b: seq<string>)
    ensures FlatMap(f, a + b) == FlatMap(f, a) + FlatMap(f, b)
  {
    if a != [] {
      assert (a + b)[0] == a[0];
      assert (a + b)[1..] == a[1..] + b;
      FlatMapAppend(f, a[1..], b);
    } else {
      assert a + b == b;
    }
  }

  lemma SelectionAppend(a: seq<string>, b: seq<string>)
    ensures Selection(a + b) == Selection(a) + Selection(b)
  {
    FlatMapAppend(Entry, a, b);
  }

  /**
   * Parsing the text of a reply: text joined by a newline parses to the
   * two parts' entries, one after the other.
   */
  lemma TextAppend(a: string, b: string)
    ensures Selection(Split(a + "\n" + b, "\n")) == Selection(Split(a, "\n")) + Selection(Split(b, "\n"))
  {
    SplitAppend(a, '\n', b);
    SelectionAppend(Split(a, "\n"), Split(b, "\n"));
  }

  /** A single line gives one entry exactly when it is not blank. */
  lemma OneLine(ln: string)
    requires '\n' !in ln
    ensures Selection(Split(ln, "\n")) == if Blank(ln) then [] else [Clean(ln)]
  {
    NoSeparatorOnePiece(ln, '\n');
    assert [ln][1..] == [];
    assert Selection([ln]) == Entry(ln) + Selection([]);
  }

  /** Every entry has no surrounding whitespace; there are at most as many entries as lines. */
  lemma {:induction false} EntriesTrimmed(lines: seq<string>)
    ensures |Selection(lines)| <= |lines|
    ensures forall e :: e in Selection(lines) ==> e == "" || (e[0] !in Whitespace && e[|e| - 1] !in Whitespace)
  {
    if lines != [] {
      EntriesTrimmed(lines[1..]);
      assert Selection(lines) == Entry(lines[0]) + Selection(lines[1..]);
    }
  }

  /** A concatenation of pieces is empty exactly when every piece is. */
  lemma {:induction false} FlatMapEmpty(f: string -> seq<string>, lines: seq<string>)
    ensures FlatMap(f, lines) == [] <==> forall i :: 0 <= i < |lines| ==> f(lines[i]) == []
  {
    if lines != [] {
      FlatMapEmpty(f, lines[1..]);
      assert forall i :: 1 <= i < |lines| ==> lines[i] == lines[1..][i - 1];
    }
  }

  /** No entry at all exactly when every line is blank. */
  lemma NoEntriesIffAllBlank(lines: seq<string>)
    ensures Selection(lines) == [] <==> forall i :: 0 <= i < |lines| ==> Blank(lines[i])
  {
    FlatMapEmpty(Entry, lines);
    assert forall i :: 0 <= i < |lines| ==> (Entry(lines[i]) == [] <==> Blank(lines[i]));
  }

  /** A reply that is only a marker line such as "---" still yields one entry, the empty one. */
  lemma DashesGiveEmptyEntry(ln: string)
    requires ln != [] && forall i :: 0 <= i < |ln| ==> ln[i] == '-'
    ensures Selection(Split(ln, "\n")) == [""]
  {
    assert Clean(ln) == "" by {
      StripIsInnerSlice(ln, MarkerChars);
      assert Strip(ln, MarkerChars) == [];
    }
    assert !Blank(ln) by {
      assert '-' !in Whitespace;
      StripIsInnerSlice(ln, Whitespace);
      assert ln[0] == '-';
    }
    assert '\n' !in ln by {
      assert forall i :: 0 <= i < |ln| ==> ln[i] != '\n';
    }
    OneLine(ln);
  }

  /** A failed call or an error status selects no field. */
  lemma FailureGivesNoFields(status: int, body: Option<Json>)
    ensures ExtractKeys(PostRaised) == []
    ensures 400 <= status < 600 ==> ExtractKeys(Response(status, body)) == []
  {
  }
}
