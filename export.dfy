/**
  `save_video_export_data`: one row per finished video appended to the
  export ledger (a CSV file), with a header line written only when the file
  did not exist before the call. CSV quoting and the `export_date`
  timestamp are not modelled.
 */
module Export {
  import opened Text
  import opened Job
  import Terms

  /** One ledger row, in the column order of the header. */
  datatype ExportRow = ExportRow(taskId: string, title: string, tags: string, subtitle: string, videoPath: string)

  /** The column names written by `writeheader()`. */
  const HeaderFields: seq<string> := ["task_id", "title", "tags", "subtitle", "video_path", "export_date"]

  /** A line of the ledger file. */
  datatype Line = Header | Record(row: ExportRow)

  /** The `tags` column: a list is joined with ", ", any other truthy value
      is written as it is, and a falsy one gives the empty string. */
  function Tags(t: TermsInput): string {
    if !Truthy(t) then ""
    else
      match t
      case TermsList(xs) => JoinWith(xs, ", ")
      case TermsText(s) => s
      case TermsOther(_, shown) => shown
  }

  /** The `subtitle` column: the script, stripped. */
  function SubtitleContent(script: string): (r: string)
    ensures Trimmed(r) && |r| <= |script|
    ensures r == [] <==> forall k :: 0 <= k < |script| ==> IsSpace(script[k])
    ensures exists i, j :: 0 <= i <= j <= |script| && r == script[i..j]
                           && (forall k :: 0 <= k < i ==> IsSpace(script[k]))
                           && (forall k :: j <= k < |script| ==> IsSpace(script[k]))
  {
    StripIsSlice(script);
    if script == [] then [] else Strip(script)
  }

  function MakeRow(taskId: string, p: Params, videoPath: string, script: string): ExportRow {
    ExportRow(taskId, p.subject, Tags(p.terms), SubtitleContent(script), videoPath)
  }

  /** What a run appends to the ledger for `rows`, given whether the file
      existed before: the header once if it did not, then one record per row. */
  function LinesFor(existed: bool, rows: seq<ExportRow>): (r: seq<Line>)
    ensures |r| == (if rows == [] || existed then |rows| else |rows| + 1)
  {
    if rows == [] then []
    else (if existed then [] else [Header]) + seq(|rows|, k requires 0 <= k < |rows| => Record(rows[k]))
  }

  /** The ledger file. */
  class Ledger {
    var present: bool
    var lines: seq<Line>

    ghost predicate Valid()
      reads this
    {
      !present ==> lines == []
    }

    constructor (present: bool, lines: seq<Line>)
      requires !present ==> lines == []
      ensures Valid() && this.present == present && this.lines == lines
    {
      this.present := present;
      this.lines := lines;
    }

    /** `save_video_export_data` for one row: open for append (creating the
        file), write the header if the file was new, then the row. */
    method SaveVideoExportData(row: ExportRow)
      requires Valid()
      modifies this
      ensures Valid() && present
      ensures lines == old(lines) + (if old(present) then [] else [Header]) + [Record(row)]
    {
      var fileExists := present;
      present := true;
      if !fileExists {
        lines := lines + [Header];
      }
      lines := lines + [Record(row)];
    }
  }

  /** Appending one more row extends the run's lines by a record, preceded
      by the header only when it is the first row written to a new file. */
  lemma LinesForAppend(existed: bool, rows: seq<ExportRow>, row: ExportRow)
    ensures LinesFor(existed, rows + [row])
            == LinesFor(existed, rows) + (if existed || rows != [] then [] else [Header]) + [Record(row)]
  {
    var lhs := LinesFor(existed, rows + [row]);
    var rhs := LinesFor(existed, rows) + (if existed || rows != [] then [] else [Header]) + [Record(row)];
    assert |lhs| == |rhs|;
    forall k | 0 <= k < |lhs| ensures lhs[k] == rhs[k] {
    }
  }

  /** A new ledger holds exactly one header, at the top, followed by the
      rows in order; an existing one gets no header at all. */
  lemma {:induction false} OneHeader(existed: bool, rows: seq<ExportRow>)
    requires rows != []
    ensures !existed ==> LinesFor(existed, rows)[0] == Header
    ensures forall k :: (if existed then 0 else 1) <= k < |LinesFor(existed, rows)| ==>
              LinesFor(existed, rows)[k] == Record(rows[k - (if existed then 0 else 1)])
  {
  }

  /** The tags written for a list of terms normalise back to those terms,
      stripped, provided no term holds a separator and none is empty. */
  lemma TagsRoundTrip(xs: seq<string>)
    requires xs != []
    requires forall k :: 0 <= k < |xs| ==> xs[k] != [] && NoSep(xs[k])
    ensures Terms.NormalizeTerms(TermsText(Tags(TermsList(xs)))) == Terms.Supplied(StripEach(xs))
  {
    var joined := JoinWith(xs, ", ");
    SplitJoin(xs);
    assert joined != [] by {
      assert |joined| >= |xs[0]|;
    }
    StripJoinedPieces(xs);
  }

  /** The pieces of joined terms strip to the stripped terms. */
  lemma StripJoinedPieces(xs: seq<string>)
    requires xs != []
    requires forall k :: 0 <= k < |xs| ==> NoSep(xs[k])
    ensures StripEach(SplitTerms(JoinWith(xs, ", "))) == StripEach(xs)
  {
    SplitJoin(xs);
    StripPaddedTail(SplitTerms(JoinWith(xs, ", ")), xs);
  }

  /** A list equal to `xs` but for a space before every element after the
      first strips like `xs`. */
  lemma StripPaddedTail(ps: seq<string>, xs: seq<string>)
    requires |ps| == |xs| && xs != [] && ps[0] == xs[0]
    requires forall k :: 1 <= k < |xs| ==> ps[k] == " " + xs[k]
    ensures StripEach(ps) == StripEach(xs)
  {
    forall k | 0 <= k < |xs| ensures Strip(ps[k]) == Strip(xs[k]) {
      if k > 0 {
        PaddedStrip(ps[k], xs[k]);
      }
    }
    StripEachPointwise(ps, xs);
  }

  lemma PaddedStrip(piece: string, x: string)
    requires piece == " " + x
    ensures Strip(piece) == Strip(x)
  {
    StripSpacePrefix(x);
  }

  /** Lists whose elements strip alike strip alike. */
  lemma StripEachPointwise(ps: seq<string>, xs: seq<string>)
    requires |ps| == |xs|
    requires forall k :: 0 <= k < |xs| ==> Strip(ps[k]) == Strip(xs[k])
    ensures StripEach(ps) == StripEach(xs)
  {
    var lhs := StripEach(ps);
    var rhs := StripEach(xs);
    assert forall k :: 0 <= k < |xs| ==> lhs[k] == rhs[k];
  }

  /** Splitting joined terms gives the first term, then each later term
      behind the space that followed its comma. */
  lemma {:induction false} SplitJoin(xs: seq<string>)
    requires xs != []
    requires forall k :: 0 <= k < |xs| ==> NoSep(xs[k])
    ensures |JoinWith(xs, ", ")| >= |xs[0]|
    ensures |SplitTerms(JoinWith(xs, ", "))| == |xs|
    ensures SplitTerms(JoinWith(xs, ", "))[0] == xs[0]
    ensures forall k :: 1 <= k < |xs| ==> SplitTerms(JoinWith(xs, ", "))[k] == " " + xs[k]
  {
    if |xs| == 1 {
      SplitSinglePiece(xs[0]);
    } else {
      var tail := JoinWith(xs[1..], ", ");
      SplitJoin(xs[1..]);
      assert JoinWith(xs, ", ") == xs[0] + [','] + (" " + tail);
      SplitAfterPiece(xs[0], " " + tail);
      assert (" " + tail)[1..] == tail;
      var rest := SplitTerms(tail);
      assert SplitTerms(" " + tail) == [" " + rest[0]] + rest[1..];
      var parts := SplitTerms(JoinWith(xs, ", "));
      assert parts == [xs[0]] + ([" " + rest[0]] + rest[1..]);
      forall k | 1 <= k < |xs|
        ensures parts[k] == " " + xs[k]
      {
        if k == 1 {
          assert parts[1] == " " + rest[0];
        } else {
          assert parts[k] == rest[k - 1] && xs[1..][k - 1] == xs[k];
        }
      }
    }
  }
}
