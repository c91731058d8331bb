/** Output files of newline-delimited JSON, as the records written to them. */
module Files {
  import opened Wrappers
  import opened Json

  class Sink {
    var records: seq<Json>

    /** An output file holding `init` (an existing file opened for appending, or `[]`). */
    constructor (init: seq<Json>)
      ensures records == init
    {
      records := init;
    }

    /** `f.write(json.dumps(r) + "\n")`. */
    method Append(r: Json)
      modifies this
      ensures records == old(records) + [r]
    {
      records := records + [r];
    }

    /** `open(path, 'w')`: the file is emptied. */
    method Truncate()
      modifies this
      ensures records == []
    {
      records := [];
    }
  }

  /**
   * A file whose lines are read back one by one: a line that does not
   * decode is None, and every line written decodes to the record written.
   */
  class LineFile {
    var lines: seq<Option<Json>>

    constructor (init: seq<Option<Json>>)
      ensures lines == init
    {
      lines := init;
    }

    /** `f.write(json.dumps(r) + "\n")`. */
    method Append(r: Json)
      modifies this
      ensures lines == old(lines) + [Some(r)]
    {
      lines := lines + [Some(r)];
    }
  }

  /** The lines of a file holding exactly `rs`. */
  function AsLines(rs: seq<Json>): (r: seq<Option<Json>>)
    ensures |r| == |rs| && forall j :: 0 <= j < |rs| ==> r[j] == Some(rs[j])
  {
    if rs == [] then [] else AsLines(rs[..|rs| - 1]) + [Some(rs[|rs| - 1])]
  }

  /** Writing two batches of records writes their concatenation. */
  lemma AsLinesAppend(a: seq<Json>, b: seq<Json>)
    ensures AsLines(a + b) == AsLines(a) + AsLines(b)
  {
    assert |AsLines(a + b)| == |AsLines(a) + AsLines(b)|;
    forall j | 0 <= j < |a + b|
      ensures AsLines(a + b)[j] == (AsLines(a) + AsLines(b))[j]
    {
      if j < |a| {
        assert (a + b)[j] == a[j];
      } else {
        assert (a + b)[j] == b[j - |a|];
      }
    }
  }
}
