/** What the readers share: access to the header table, trace assembly (the
    data table turned into parallel columns), and the shapes of what the
    readers return. */
module Traces {
  import opened Results
  import opened Numbers
  import opened Lines

  /** Column `k` of every row, in row order. */
  function Column(rows: seq<seq<Float>>, k: nat): (c: seq<Float>)
    requires forall i :: 0 <= i < |rows| ==> k < |rows[i]|
    ensures |c| == |rows|
    ensures forall i :: 0 <= i < |rows| ==> c[i] == rows[i][k]
  {
    if rows == [] then [] else [rows[0][k]] + Column(rows[1..], k)
  }

  datatype Columns = Columns(frequency: seq<Float>, yval1: seq<Float>, yval2: seq<Float>)

  /** How many columns the assembly loop indexes in each row: two, or three
      when `autopeak == 1`. */
  function Width(autopeak: int): nat {
    if autopeak == 1 then 3 else 2
  }

  /** The columns the assembly loop builds from the data table, or the
      IndexError it raises on a row that is too short. */
  function TraceColumns(data: seq<seq<Float>>, autopeak: int): (r: Result<Columns>)
    ensures r.Success? <==> forall i :: 0 <= i < |data| ==> |data[i]| >= Width(autopeak)
    ensures r.Failure? ==> r.error == IndexError
    ensures r.Success? ==>
      && |r.value.frequency| == |r.value.yval1| == |data|
      && (forall i :: 0 <= i < |data| ==> r.value.frequency[i] == data[i][0] && r.value.yval1[i] == data[i][1])
      && (autopeak == 1 ==> |r.value.yval2| == |data| && forall i :: 0 <= i < |data| ==> r.value.yval2[i] == data[i][2])
      && (autopeak != 1 ==> r.value.yval2 == [])
  {
    if forall i :: 0 <= i < |data| ==> |data[i]| >= Width(autopeak) then
      Success(Columns(Column(data, 0), Column(data, 1), if autopeak == 1 then Column(data, 2) else []))
    else
      Failure(IndexError)
  }

  /** The assembly loop of the single-file readers. */
  method AssembleColumns(data: seq<seq<Float>>, autopeak: int) returns (r: Result<Columns>)
    ensures r == TraceColumns(data, autopeak)
  {
    var frequency: seq<Float> := [];
    var yval1: seq<Float> := [];
    var yval2: seq<Float> := [];
    var cnt := 0;
    while cnt < |data|
      invariant 0 <= cnt <= |data|
      invariant forall i :: 0 <= i < cnt ==> |data[i]| >= Width(autopeak)
      invariant |frequency| == |yval1| == cnt
      invariant forall i :: 0 <= i < cnt ==> frequency[i] == data[i][0] && yval1[i] == data[i][1]
      invariant autopeak == 1 ==> |yval2| == cnt && forall i :: 0 <= i < cnt ==> yval2[i] == data[i][2]
      invariant autopeak != 1 ==> yval2 == []
    {
      if |data[cnt]| < 2 {
        // file_data[cnt][0] or file_data[cnt][1] is out of range
        assert |data[cnt]| < Width(autopeak);
        return Failure(IndexError);
      }
      frequency := frequency + [data[cnt][0]];
      yval1 := yval1 + [data[cnt][1]];
      if autopeak == 1 {
        if |data[cnt]| < 3 {
          assert |data[cnt]| < Width(autopeak);
          return Failure(IndexError);
        }
        yval2 := yval2 + [data[cnt][2]];
      }
      cnt := cnt + 1;
    }
    assert frequency == Column(data, 0) && yval1 == Column(data, 1);
    assert autopeak == 1 ==> yval2 == Column(data, 2);
    r := Success(Columns(frequency, yval1, yval2));
  }

  /** `file_header[row][col]`, raising IndexError past the end of either list. */
  function Cell(header: seq<seq<string>>, row: nat, col: nat): Result<string> {
    if row < |header| && col < |header[row]| then Success(header[row][col]) else Failure(IndexError)
  }

  /** What a single-file reader returns: the device record, the trace record
      and the three columns. */
  datatype Reading<D, S> = Reading(device: D, setting: S, frequency: seq<Float>, yval1: seq<Float>, yval2: seq<Float>)

  /** What a batch reader returns: five lists, one entry per file. */
  datatype Batch<D, S> = Batch(device: seq<D>, setting: seq<S>, frequency: seq<seq<Float>>,
                               yval1: seq<seq<Float>>, yval2: seq<seq<Float>>)
  {
    predicate Aligned(n: nat) {
      |device| == |setting| == |frequency| == |yval1| == |yval2| == n
    }

    function Entry(i: nat): Reading<D, S>
      requires i < |device| && Aligned(|device|)
    {
      Reading(device[i], setting[i], frequency[i], yval1[i], yval2[i])
    }
  }

  /** A single-file reader on the lines of a file, `settings` being the
      extraction of its two records from the header table: classify the
      lines, extract the records, then assemble the columns; the first error
      raised is the result. */
  function ReadWith<D, S>(settings: seq<seq<string>> -> Result<(D, S)>, lines: seq<string>, autopeak: int)
    : Result<Reading<D, S>>
  {
    var sections :- Classified(lines);
    var records :- settings(sections.header);
    var columns :- TraceColumns(sections.data, autopeak);
    Success(Reading(records.0, records.1, columns.frequency, columns.yval1, columns.yval2))
  }

  /** The body of a single-file reader, with the file given as its lines. */
  method ReadFile<D, S>(settings: seq<seq<string>> -> Result<(D, S)>, lines: seq<string>, autopeak: int)
    returns (r: Result<Reading<D, S>>)
    ensures r == ReadWith(settings, lines, autopeak)
  {
    var sections := SplitSections(lines);
    if sections.Failure? {
      return Failure(sections.error);
    }
    var records := settings(sections.value.header);
    if records.Failure? {
      return Failure(records.error);
    }
    var columns := AssembleColumns(sections.value.data, autopeak);
    if columns.Failure? {
      return Failure(columns.error);
    }
    var (device, setting) := records.value;
    r := Success(Reading(device, setting, columns.value.frequency, columns.value.yval1, columns.value.yval2));
  }

  /** A successful read takes its records from the header lines alone, and
      its columns are aligned with the data lines of the file, in file order:
      column 0 of each is the frequency, column 1 the value and, only when
      `autopeak == 1`, column 2 the second value. */
  lemma ReadColumns<D, S>(settings: seq<seq<string>> -> Result<(D, S)>, lines: seq<string>, autopeak: int)
    requires ReadWith(settings, lines, autopeak).Success?
    ensures var r := ReadWith(settings, lines, autopeak).value;
      var data := DataLines(lines);
      && settings(seq(|HeaderLines(lines)|, i requires 0 <= i < |HeaderLines(lines)| => Tokens(HeaderLines(lines)[i])))
         == Success((r.device, r.setting))
      && |r.frequency| == |r.yval1| == |data|
      && (autopeak == 1 ==> |r.yval2| == |data|)
      && (autopeak != 1 ==> r.yval2 == [])
      && forall i :: 0 <= i < |data| ==>
           && FloatsOf(Tokens(data[i])).Success?
           && var values := FloatsOf(Tokens(data[i])).value;
           && |values| >= Width(autopeak)
           && r.frequency[i] == values[0] && r.yval1[i] == values[1]
           && (autopeak == 1 ==> r.yval2[i] == values[2])
  {
    ClassifiedPartition(lines);
    var header := Classified(lines).value.header;
    assert header == seq(|HeaderLines(lines)|, i requires 0 <= i < |HeaderLines(lines)| => Tokens(HeaderLines(lines)[i]));
  }

  /** `r` is the batch that the single-file reader `read` makes of `files`, in
      order: it succeeds when every file does, holding each file's reading at
      that file's index, and otherwise fails with the error of the first file
      that failed. */
  ghost predicate IsBatchOf<D, S>(files: seq<seq<string>>, autopeak: int,
                                  read: (seq<string>, int) -> Result<Reading<D, S>>,
                                  r: Result<Batch<D, S>>) {
    && (r.Success? <==> forall i :: 0 <= i < |files| ==> read(files[i], autopeak).Success?)
    && (r.Success? ==> r.value.Aligned(|files|) &&
                       forall i :: 0 <= i < |files| ==> read(files[i], autopeak).value == r.value.Entry(i))
    && (r.Failure? ==> exists i :: 0 <= i < |files| && read(files[i], autopeak) == Failure(r.error) &&
                         forall j :: 0 <= j < i ==> read(files[j], autopeak).Success?)
  }

  /** The loop of the batch readers: the single-file reader `read` on every
      file, in order, each result appended to the five lists; the first file
      that fails aborts the batch with its error. */
  method CollectReadings<D, S>(files: seq<seq<string>>, autopeak: int,
                               read: (seq<string>, int) -> Result<Reading<D, S>>)
    returns (r: Result<Batch<D, S>>)
    ensures IsBatchOf(files, autopeak, read, r)
  {
    var device: seq<D> := [];
    var setting: seq<S> := [];
    var frequency: seq<seq<Float>> := [];
    var yval1: seq<seq<Float>> := [];
    var yval2: seq<seq<Float>> := [];
    var i := 0;
    while i < |files|
      invariant 0 <= i <= |files|
      invariant forall j :: 0 <= j < i ==> read(files[j], autopeak).Success?
      invariant Batch(device, setting, frequency, yval1, yval2).Aligned(i)
      invariant forall j :: 0 <= j < i ==>
                  read(files[j], autopeak).value == Batch(device, setting, frequency, yval1, yval2).Entry(j)
    {
      var one := read(files[i], autopeak);
      if one.Failure? {
        return Failure(one.error);
      }
      device := device + [one.value.device];
      setting := setting + [one.value.setting];
      frequency := frequency + [one.value.frequency];
      yval1 := yval1 + [one.value.yval1];
      yval2 := yval2 + [one.value.yval2];
      i := i + 1;
    }
    r := Success(Batch(device, setting, frequency, yval1, yval2));
  }
}
