/** The line classifier: one pass over the lines of an export file that sorts
    each stripped line into the numeric data table or the string header table. */
module Lines {
  import opened Results
  import opened Text
  import opened Numbers

  /** What the pass has collected: `file_data` and `file_header`. */
  datatype Sections = Sections(data: seq<seq<Float>>, header: seq<seq<string>>) {
    function Add(row: Row): Sections {
      match row
      case DataRow(values) => Sections(data + [values], header)
      case HeaderRow(tokens) => Sections(data, header + [tokens])
    }
  }

  /** One classified line. */
  datatype Row = DataRow(values: seq<Float>) | HeaderRow(tokens: seq<string>)

  /** A line is data when, once stripped, it is non-empty and starts with a digit. */
  predicate IsDataLine(line: string) {
    var s := Strip(IsSpace, line);
    s != [] && IsDigit(s[0])
  }

  /** The tokens of a stripped line split on ';'. */
  function Tokens(line: string): seq<string> {
    Split(Strip(IsSpace, line), ';')
  }

  /** The body of the classification loop for one line: a data line has every
      token converted with `float()`, any other line keeps its tokens as they are. */
  function ClassifyLine(line: string): Result<Row> {
    var s := Strip(IsSpace, line);
    if s != [] && IsDigit(s[0]) then
      var values :- FloatsOf(Split(s, ';'));
      Success(DataRow(values))
    else
      Success(HeaderRow(Split(s, ';')))
  }

  /** The classification loop run with the per-line step `classify`: the
      tables after it has read `lines`, or the error that stopped it. */
  function Pass(classify: string -> Result<Row>, lines: seq<string>): Result<Sections>
    decreases |lines|
  {
    if lines == [] then Success(Sections([], []))
    else
      var sections :- Pass(classify, lines[..|lines| - 1]);
      var row :- classify(lines[|lines| - 1]);
      Success(sections.Add(row))
  }

  /** The state of the loop of the single-file readers after it has read
      `lines`, or the ValueError that stopped it. */
  function Classified(lines: seq<string>): Result<Sections> {
    Pass(ClassifyLine, lines)
  }

  /** The loop of the single-file readers, reading the lines of the file. */
  method SplitSections(lines: seq<string>) returns (r: Result<Sections>)
    ensures r == Classified(lines)
  {
    var data: seq<seq<Float>> := [];
    var header: seq<seq<string>> := [];
    var i := 0;
    while i < |lines|
      invariant 0 <= i <= |lines|
      invariant Classified(lines[..i]) == Success(Sections(data, header))
    {
      ClassifiedStep(lines, i);
      var line := Strip(IsSpace, lines[i]);
      if line != [] && IsDigit(line[0]) {
        var row := FloatsOf(Split(line, ';'));
        if row.Failure? {
          assert ClassifyLine(lines[i]) == Failure(row.error);
          assert Classified(lines[..i + 1]) == Failure(row.error);
          PassFailureStays(ClassifyLine, lines, i + 1);
          return Failure(row.error);
        }
        assert ClassifyLine(lines[i]) == Success(DataRow(row.value));
        data := data + [row.value];
      } else {
        assert ClassifyLine(lines[i]) == Success(HeaderRow(Split(line, ';')));
        header := header + [Split(line, ';')];
      }
      i := i + 1;
    }
    assert lines[..i] == lines;
    return Success(Sections(data, header));
  }

  /** Reading one more line is one more step of the loop. */
  lemma ClassifiedStep(lines: seq<string>, i: nat)
    requires i < |lines|
    ensures Classified(lines[..i + 1]) ==
      match Classified(lines[..i])
      case Failure(e) => Failure(e)
      case Success(sections) =>
        match ClassifyLine(lines[i])
        case Failure(e) => Failure(e)
        case Success(row) => Success(sections.Add(row))
  {
    assert lines[..i + 1][..i] == lines[..i];
    assert lines[..i + 1][i] == lines[i];
  }

  /** Once the pass has failed on a prefix of the file, the whole file fails
      with the same error. */
  lemma PassFailureStays(classify: string -> Result<Row>, lines: seq<string>, k: nat)
    requires k <= |lines| && Pass(classify, lines[..k]).Failure?
    ensures Pass(classify, lines) == Pass(classify, lines[..k])
  {
    PassAppend(classify, lines[..k], lines[k..]);
    assert lines[..k] + lines[k..] == lines;
  }

  /** Reading `a` then `b` is reading `a + b`: the first error wins, and the
      tables of `b` follow those of `a`. */
  lemma {:induction false} PassAppend(classify: string -> Result<Row>, a: seq<string>, b: seq<string>)
    ensures Pass(classify, a + b) ==
      match Pass(classify, a)
      case Failure(e) => Failure(e)
      case Success(sa) =>
        match Pass(classify, b)
        case Failure(e) => Failure(e)
        case Success(sb) => Success(Sections(sa.data + sb.data, sa.header + sb.header))
    decreases |b|
  {
    if b == [] {
      assert a + b == a;
      if Pass(classify, a).Success? {
        var sa := Pass(classify, a).value;
        assert sa.data + [] == sa.data && sa.header + [] == sa.header;
      }
    } else {
      var p := b[..|b| - 1];
      assert (a + b)[..|a + b| - 1] == a + p;
      assert (a + b)[|a + b| - 1] == b[|b| - 1];
      PassAppend(classify, a, p);
      if Pass(classify, a).Success? && Pass(classify, p).Success? && classify(b[|b| - 1]).Success? {
        var sa, sp := Pass(classify, a).value, Pass(classify, p).value;
        match classify(b[|b| - 1]).value
        case DataRow(v) =>
          assert sa.data + sp.data + [v] == sa.data + (sp.data + [v]);
        case HeaderRow(t) =>
          assert sa.header + sp.header + [t] == sa.header + (sp.header + [t]);
      }
    }
  }

  /** The pass fails exactly when the step fails on some line, and then with
      the error of the first such line. */
  lemma {:induction false} PassFailure(classify: string -> Result<Row>, lines: seq<string>)
    ensures Pass(classify, lines).Failure? <==>
      exists i :: 0 <= i < |lines| && classify(lines[i]).Failure?
    ensures Pass(classify, lines).Failure? ==>
      exists i :: 0 <= i < |lines| && classify(lines[i]) == Failure(Pass(classify, lines).error) &&
        forall j :: 0 <= j < i ==> classify(lines[j]).Success?
  {
    if lines != [] {
      var p := lines[..|lines| - 1];
      var last := |lines| - 1;
      PassFailure(classify, p);
      assert forall i :: 0 <= i < |p| ==> p[i] == lines[i];
      if Pass(classify, p).Failure? {
        var i :| 0 <= i < |p| && classify(p[i]) == Failure(Pass(classify, p).error) &&
          forall j :: 0 <= j < i ==> classify(p[j]).Success?;
        assert classify(lines[i]) == Failure(Pass(classify, lines).error);
      } else if classify(lines[last]).Failure? {
        assert forall j :: 0 <= j < last ==> classify(lines[j]).Success? by {
          forall j | 0 <= j < last ensures classify(lines[j]).Success? {
            assert p[j] == lines[j];
          }
        }
      } else {
        forall i | 0 <= i < |lines| ensures classify(lines[i]).Success? {
          if i < last {
            assert p[i] == lines[i];
          }
        }
      }
    }
  }

  /** The lines `isData` accepts (`data`) or rejects (`!data`), in file order. */
  function Kept(isData: string -> bool, data: bool, lines: seq<string>): seq<string> {
    if lines == [] then []
    else
      var last := lines[|lines| - 1];
      Kept(isData, data, lines[..|lines| - 1]) + (if isData(last) == data then [last] else [])
  }

  /** The lines that are data, in file order. */
  function DataLines(lines: seq<string>): seq<string> {
    Kept(IsDataLine, true, lines)
  }

  /** The lines that are header, in file order. */
  function HeaderLines(lines: seq<string>): seq<string> {
    Kept(IsDataLine, false, lines)
  }

  /** Every line is kept on exactly one side. */
  lemma {:induction false} KeptSize(isData: string -> bool, lines: seq<string>)
    ensures |Kept(isData, true, lines)| + |Kept(isData, false, lines)| == |lines|
  {
    if lines != [] {
      KeptSize(isData, lines[..|lines| - 1]);
    }
  }

  /** When the step makes a data row exactly of the lines `isData` accepts, a
      successful pass holds, in order, the rows of the accepted lines in its
      data table and the rows of the others in its header table. */
  lemma {:induction false} PassPartition(classify: string -> Result<Row>, isData: string -> bool, lines: seq<string>)
    requires forall line :: classify(line).Success? ==> (classify(line).value.DataRow? <==> isData(line))
    requires Pass(classify, lines).Success?
    ensures var s := Pass(classify, lines).value;
      var data, header := Kept(isData, true, lines), Kept(isData, false, lines);
      && |s.data| == |data| && |s.header| == |header|
      && (forall k :: 0 <= k < |data| ==> classify(data[k]) == Success(DataRow(s.data[k])))
      && (forall k :: 0 <= k < |header| ==> classify(header[k]) == Success(HeaderRow(s.header[k])))
  {
    if lines != [] {
      var p := lines[..|lines| - 1];
      var last := lines[|lines| - 1];
      PassPartition(classify, isData, p);
      var sp, s := Pass(classify, p).value, Pass(classify, lines).value;
      var dp, hp := Kept(isData, true, p), Kept(isData, false, p);
      var data, header := Kept(isData, true, lines), Kept(isData, false, lines);
      match classify(last).value
      case DataRow(v) =>
        assert s.data == sp.data + [v] && s.header == sp.header;
        assert data == dp + [last] && header == hp;
        forall k | 0 <= k < |data| ensures classify(data[k]) == Success(DataRow(s.data[k])) {
          if k < |dp| {
            assert data[k] == dp[k] && s.data[k] == sp.data[k];
          }
        }
      case HeaderRow(t) =>
        assert s.header == sp.header + [t] && s.data == sp.data;
        assert header == hp + [last] && data == dp;
        forall k | 0 <= k < |header| ensures classify(header[k]) == Success(HeaderRow(s.header[k])) {
          if k < |hp| {
            assert header[k] == hp[k] && s.header[k] == sp.header[k];
          }
        }
    }
  }

  /** A successful pass keeps every header line, stripped and split but with
      its tokens untouched, and every data line, converted, each table in file
      order; so the two tables together are exactly as long as the file. */
  lemma ClassifiedPartition(lines: seq<string>)
    requires Classified(lines).Success?
    ensures var s := Classified(lines).value;
      && |s.header| == |HeaderLines(lines)|
      && (forall k :: 0 <= k < |s.header| ==> s.header[k] == Tokens(HeaderLines(lines)[k]))
      && |s.data| == |DataLines(lines)|
      && (forall k :: 0 <= k < |s.data| ==> FloatsOf(Tokens(DataLines(lines)[k])) == Success(s.data[k]))
      && |s.data| + |s.header| == |lines|
  {
    forall line | ClassifyLine(line).Success?
      ensures ClassifyLine(line).value.DataRow? <==> IsDataLine(line)
    {
    }
    PassPartition(ClassifyLine, IsDataLine, lines);
    KeptSize(IsDataLine, lines);
    var s := Classified(lines).value;
    forall k | 0 <= k < |s.header| ensures s.header[k] == Tokens(HeaderLines(lines)[k]) {
      assert ClassifyLine(HeaderLines(lines)[k]) == Success(HeaderRow(s.header[k]));
    }
    forall k | 0 <= k < |s.data| ensures FloatsOf(Tokens(DataLines(lines)[k])) == Success(s.data[k]) {
      assert ClassifyLine(DataLines(lines)[k]) == Success(DataRow(s.data[k]));
    }
  }

  /** The pass over a file fails exactly when some data line has a token
      `float()` rejects, and then with the ValueError of the first such line. */
  lemma ClassifiedFailure(lines: seq<string>)
    ensures Classified(lines).Failure? <==>
      exists i :: 0 <= i < |lines| && ClassifyLine(lines[i]).Failure?
    ensures Classified(lines).Failure? ==>
      exists i :: 0 <= i < |lines| && IsDataLine(lines[i]) && ClassifyLine(lines[i]) == Failure(Classified(lines).error) &&
        forall j :: 0 <= j < i ==> ClassifyLine(lines[j]).Success?
  {
    PassFailure(ClassifyLine, lines);
    if Classified(lines).Failure? {
      var i :| 0 <= i < |lines| && ClassifyLine(lines[i]) == Failure(Classified(lines).error) &&
        forall j :: 0 <= j < i ==> ClassifyLine(lines[j]).Success?;
      assert IsDataLine(lines[i]);
    }
  }

  /** A blank (or all-whitespace) line is a header row holding one empty token. */
  lemma BlankLineIsHeaderRow(line: string)
    requires AllOf(IsSpace, line)
    ensures !IsDataLine(line)
    ensures ClassifyLine(line) == Success(HeaderRow([""]))
  {
    var i, j := StripBounds(IsSpace, line);
    if i < j {
      assert false;
    }
  }

  /** A blank line between two parts takes one header index of its own, so
      every header row after it is shifted by one. */
  lemma BlankLineShiftsHeader(before: seq<string>, blank: string, after: seq<string>)
    requires AllOf(IsSpace, blank)
    requires Classified(before).Success? && Classified(after).Success?
    ensures Classified(before + [blank] + after) ==
      Success(Sections(Classified(before).value.data + Classified(after).value.data,
                       Classified(before).value.header + [[""]] + Classified(after).value.header))
  {
    BlankLineIsHeaderRow(blank);
    PassInsertHeader(ClassifyLine, before, blank, [""], after);
  }

  /** A line the step makes a header row, between two parts that read, adds
      exactly that row to the header table, between the rows of the parts. */
  lemma PassInsertHeader(classify: string -> Result<Row>, before: seq<string>, line: string,
                         tokens: seq<string>, after: seq<string>)
    requires classify(line) == Success(HeaderRow(tokens))
    requires Pass(classify, before).Success? && Pass(classify, after).Success?
    ensures Pass(classify, before + [line] + after) ==
      Success(Sections(Pass(classify, before).value.data + Pass(classify, after).value.data,
                       Pass(classify, before).value.header + [tokens] + Pass(classify, after).value.header))
  {
    assert [line][..0] == [];
    PassAppend(classify, before, [line]);
    PassAppend(classify, before + [line], after);
  }
}
