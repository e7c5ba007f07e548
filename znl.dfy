/** The Rohde & Schwarz ZNL in spectrum-analyzer mode: the layout of its
    ASCII export header, its two settings records, and its readers. */
module Znl {
  import opened Results
  import opened Numbers
  import opened Lines
  import opened Traces

  /** Settings of the ZNL in spectrum-analyzer mode (`ZNL_spectrum_setting_device`).
      As `DeviceSetting<string, string>` it holds the constructor arguments read
      from the header; as `DeviceSetting<Float, int>` it is the constructed record. */
  datatype DeviceSetting<F, I> = DeviceSetting(
    devType: string, version: string, date: string, mode: string, preamp: string,
    transducer: string, centerFreq: F, centerUnit: string, offset: F, offsetUnit: string,
    xAxStart: F, xAxStartUnit: string, xAxStop: F, xAxStopUnit: string, span: F,
    spanUnit: string, refLvl: F, refLvlUnit: string, offsetLvl: F, offsetLvlUnit: string,
    rfAtt: F, rfAttUnit: string, elAtt: F, elAttUnit: string, rbw: F, rbwUnit: string,
    vbw: F, vbwUnit: string, swt: F, swtUnit: string, sweepCnt: I)
  {
    /** The fields the constructor passes through `float()`, in its order. */
    function Floats(): seq<F> {
      [centerFreq, offset, xAxStart, xAxStop, span, refLvl, offsetLvl, rfAtt, elAtt,
      rbw, vbw, swt]
    }

    /** The fields the constructor stores unchanged, in its order. */
    function Strings(): seq<string> {
      [devType, version, date, mode, preamp, transducer, centerUnit, offsetUnit,
      xAxStartUnit, xAxStopUnit, spanUnit, refLvlUnit, offsetLvlUnit, rfAttUnit,
      elAttUnit, rbwUnit, vbwUnit, swtUnit]
    }

    /** This record with its float fields replaced, in order, by `floats` and
        `sweepCnt` by `n`. */
    function Converted<G, J>(floats: seq<G>, n: J): (r: DeviceSetting<G, J>)
      requires |floats| == 12
      ensures r.Floats() == floats && r.Strings() == Strings() && r.sweepCnt == n
    {
      DeviceSetting(
        devType, version, date, mode, preamp, transducer, floats[0], centerUnit,
        floats[1], offsetUnit, floats[2], xAxStartUnit, floats[3], xAxStopUnit,
        floats[4], spanUnit, floats[5], refLvlUnit, floats[6], offsetLvlUnit,
        floats[7], rfAttUnit, floats[8], elAttUnit, floats[9], rbwUnit, floats[10],
        vbwUnit, floats[11], swtUnit, n)
    }
  }

  /** Trace settings of a one-trace measurement (`ZNL_spectrum_settings_one_trace`). */
  datatype TraceSetting<F, I> = TraceSetting(
    window: string, refPos: F, refPosUnit: string, rangeLvl: F, rangeLvlUnit: string,
    xAxType: string, yAxType: string, xAxUnit: string, yAxUnit: string, trace: string,
    traceMode: string, detector: string, measNumber: I)
  {
    /** The fields the constructor passes through `float()`, in its order. */
    function Floats(): seq<F> {
      [refPos, rangeLvl]
    }

    /** The fields the constructor stores unchanged, in its order. */
    function Strings(): seq<string> {
      [window, refPosUnit, rangeLvlUnit, xAxType, yAxType, xAxUnit, yAxUnit, trace,
      traceMode, detector]
    }

    /** This record with its float fields replaced, in order, by `floats` and
        `measNumber` by `n`. */
    function Converted<G, J>(floats: seq<G>, n: J): (r: TraceSetting<G, J>)
      requires |floats| == 2
      ensures r.Floats() == floats && r.Strings() == Strings() && r.measNumber == n
    {
      TraceSetting(
        window, floats[0], refPosUnit, floats[1], rangeLvlUnit, xAxType, yAxType,
        xAxUnit, yAxUnit, trace, traceMode, detector, n)
    }
  }

  /** Number of header rows the layout reads. */
  const HeaderRows: nat := 30

  /** Rows whose token 2 (the unit) is read besides token 1 (the value). */
  const UnitRows: set<nat> := {6, 7, 8, 9, 10, 11, 12, 13, 14, 15, 16, 17, 20, 21}

  /** The header rows the layout reads: all of 0 to 29. */
  predicate IsReadRow(row: nat) {
    row < HeaderRows
  }

  /** The header is long enough, and each read row wide enough, for every
      index the extraction takes. */
  ghost predicate HeaderFits(header: seq<seq<string>>) {
    && |header| >= HeaderRows
    && (forall row: nat :: IsReadRow(row) ==> |header[row]| >= 2)
    && (forall row :: row in UnitRows ==> |header[row]| >= 3)
  }

  /** The fixed-offset extraction: token 1 (and, for a value with a unit,
      token 2) of fixed header rows, in source order. */
  function Arguments(header: seq<seq<string>>): Result<(DeviceSetting<string, string>, TraceSetting<string, string>)> {
    var devType :- Cell(header, 0, 1);
    var version :- Cell(header, 1, 1);
    var date :- Cell(header, 2, 1);
    var mode :- Cell(header, 3, 1);
    var preamp :- Cell(header, 4, 1);
    var transducer :- Cell(header, 5, 1);
    var centerFreq :- Cell(header, 6, 1);
    var centerUnit :- Cell(header, 6, 2);
    var offset :- Cell(header, 7, 1);
    var offsetUnit :- Cell(header, 7, 2);
    var xAxStart :- Cell(header, 8, 1);
    var xAxStartUnit :- Cell(header, 8, 2);
    var xAxStop :- Cell(header, 9, 1);
    var xAxStopUnit :- Cell(header, 9, 2);
    var span :- Cell(header, 10, 1);
    var spanUnit :- Cell(header, 10, 2);
    var refLvl :- Cell(header, 11, 1);
    var refLvlUnit :- Cell(header, 11, 2);
    var offsetLvl :- Cell(header, 12, 1);
    var offsetLvlUnit :- Cell(header, 12, 2);
    var rfAtt :- Cell(header, 13, 1);
    var rfAttUnit :- Cell(header, 13, 2);
    var elAtt :- Cell(header, 14, 1);
    var elAttUnit :- Cell(header, 14, 2);
    var rbw :- Cell(header, 15, 1);
    var rbwUnit :- Cell(header, 15, 2);
    var vbw :- Cell(header, 16, 1);
    var vbwUnit :- Cell(header, 16, 2);
    var swt :- Cell(header, 17, 1);
    var swtUnit :- Cell(header, 17, 2);
    var sweepCnt :- Cell(header, 18, 1);
    var window :- Cell(header, 19, 1);
    var refPos :- Cell(header, 20, 1);
    var refPosUnit :- Cell(header, 20, 2);
    var rangeLvl :- Cell(header, 21, 1);
    var rangeLvlUnit :- Cell(header, 21, 2);
    var xAxType :- Cell(header, 22, 1);
    var yAxType :- Cell(header, 23, 1);
    var xAxUnit :- Cell(header, 24, 1);
    var yAxUnit :- Cell(header, 25, 1);
    var trace :- Cell(header, 26, 1);
    var traceMode :- Cell(header, 27, 1);
    var detector :- Cell(header, 28, 1);
    var measNumber :- Cell(header, 29, 1);
    var device := DeviceSetting(
      devType, version, date, mode, preamp, transducer, centerFreq, centerUnit,
      offset, offsetUnit, xAxStart, xAxStartUnit, xAxStop, xAxStopUnit, span,
      spanUnit, refLvl, refLvlUnit, offsetLvl, offsetLvlUnit, rfAtt, rfAttUnit,
      elAtt, elAttUnit, rbw, rbwUnit, vbw, vbwUnit, swt, swtUnit, sweepCnt);
    var trace := TraceSetting(window, refPos, refPosUnit, rangeLvl, rangeLvlUnit, xAxType, yAxType, xAxUnit, yAxUnit, trace, traceMode, detector, measNumber);
    Success((device, trace))
  }

  /** The constructor of `ZNL_spectrum_setting_device`: the float fields go through `float()` in
      declaration order, then `sweepCnt` through `int()`, and the first token
      rejected raises its ValueError; the other fields are stored as given. */
  function NewDeviceSetting(a: DeviceSetting<string, string>): (r: Result<DeviceSetting<Float, int>>)
    ensures r.Success? <==>
      (forall k :: 0 <= k < |a.Floats()| ==> ParseFloat(a.Floats()[k]).Some?) && ParseInt(a.sweepCnt).Some?
    ensures r.Success? ==>
      && r.value.Strings() == a.Strings()
      && |r.value.Floats()| == |a.Floats()|
      && (forall k :: 0 <= k < |a.Floats()| ==> ParseFloat(a.Floats()[k]) == Some(r.value.Floats()[k]))
      && ParseInt(a.sweepCnt) == Some(r.value.sweepCnt)
    ensures r.Failure? ==>
      var k := FirstFailure(FloatOf, a.Floats());
      r.error == if k < |a.Floats()| then ValueError(a.Floats()[k]) else ValueError(a.sweepCnt)
  {
    var floats :- FloatsOf(a.Floats());
    var sweepCnt :- IntOf(a.sweepCnt);
    Success(a.Converted(floats, sweepCnt))
  }

  /** The constructor of `ZNL_spectrum_settings_one_trace`: the float fields go through `float()` in
      declaration order, then `measNumber` through `int()`, and the first token
      rejected raises its ValueError; the other fields are stored as given. */
  function NewTraceSetting(a: TraceSetting<string, string>): (r: Result<TraceSetting<Float, int>>)
    ensures r.Success? <==>
      (forall k :: 0 <= k < |a.Floats()| ==> ParseFloat(a.Floats()[k]).Some?) && ParseInt(a.measNumber).Some?
    ensures r.Success? ==>
      && r.value.Strings() == a.Strings()
      && |r.value.Floats()| == |a.Floats()|
      && (forall k :: 0 <= k < |a.Floats()| ==> ParseFloat(a.Floats()[k]) == Some(r.value.Floats()[k]))
      && ParseInt(a.measNumber) == Some(r.value.measNumber)
    ensures r.Failure? ==>
      var k := FirstFailure(FloatOf, a.Floats());
      r.error == if k < |a.Floats()| then ValueError(a.Floats()[k]) else ValueError(a.measNumber)
  {
    var floats :- FloatsOf(a.Floats());
    var measNumber :- IntOf(a.measNumber);
    Success(a.Converted(floats, measNumber))
  }

  /** Both records from the header table: all indexing first, then the
      device constructor, then the trace constructor. */
  function Settings(header: seq<seq<string>>): Result<(DeviceSetting<Float, int>, TraceSetting<Float, int>)> {
    var arguments :- Arguments(header);
    var device :- NewDeviceSetting(arguments.0);
    var trace :- NewTraceSetting(arguments.1);
    Success((device, trace))
  }

  /** The extraction succeeds exactly when the header fits the layout, and
      otherwise raises IndexError: no row count is checked beforehand. */
  lemma ArgumentsNeedHeader(header: seq<seq<string>>)
    ensures Arguments(header).Success? <==> HeaderFits(header)
    ensures Arguments(header).Failure? ==> Arguments(header).error == IndexError
  {
    if HeaderFits(header) {
      assert |header[0]| >= 2;
      assert |header[1]| >= 2;
      assert |header[2]| >= 2;
      assert |header[3]| >= 2;
      assert |header[4]| >= 2;
      assert |header[5]| >= 2;
      assert |header[6]| >= 2;
      assert |header[7]| >= 2;
      assert |header[8]| >= 2;
      assert |header[9]| >= 2;
      assert |header[10]| >= 2;
      assert |header[11]| >= 2;
      assert |header[12]| >= 2;
      assert |header[13]| >= 2;
      assert |header[14]| >= 2;
      assert |header[15]| >= 2;
      assert |header[16]| >= 2;
      assert |header[17]| >= 2;
      assert |header[18]| >= 2;
      assert |header[19]| >= 2;
      assert |header[20]| >= 2;
      assert |header[21]| >= 2;
      assert |header[22]| >= 2;
      assert |header[23]| >= 2;
      assert |header[24]| >= 2;
      assert |header[25]| >= 2;
      assert |header[26]| >= 2;
      assert |header[27]| >= 2;
      assert |header[28]| >= 2;
      assert |header[29]| >= 2;
      assert |header[6]| >= 3;
      assert |header[7]| >= 3;
      assert |header[8]| >= 3;
      assert |header[9]| >= 3;
      assert |header[10]| >= 3;
      assert |header[11]| >= 3;
      assert |header[12]| >= 3;
      assert |header[13]| >= 3;
      assert |header[14]| >= 3;
      assert |header[15]| >= 3;
      assert |header[16]| >= 3;
      assert |header[17]| >= 3;
      assert |header[20]| >= 3;
      assert |header[21]| >= 3;
    }
    if Arguments(header).Success? {
      forall row: nat | IsReadRow(row) ensures |header[row]| >= 2 {
        assert row == 0 || row == 1 || row == 2 || row == 3 || row == 4 || row == 5 || row == 6 || row == 7 || row == 8 || row == 9 || row == 10 || row == 11 || row == 12 || row == 13 || row == 14 || row == 15 || row == 16 || row == 17 || row == 18 || row == 19 || row == 20 || row == 21 || row == 22 || row == 23 || row == 24 || row == 25 || row == 26 || row == 27 || row == 28 || row == 29;
      }
    }
  }

  /** Each argument is the token at its fixed row and column of the header. */
  lemma ArgumentsCells(header: seq<seq<string>>)
    requires HeaderFits(header)
    ensures Arguments(header) == Success((
      DeviceSetting(
        header[0][1], header[1][1], header[2][1], header[3][1], header[4][1],
        header[5][1], header[6][1], header[6][2], header[7][1], header[7][2],
        header[8][1], header[8][2], header[9][1], header[9][2], header[10][1],
        header[10][2], header[11][1], header[11][2], header[12][1], header[12][2],
        header[13][1], header[13][2], header[14][1], header[14][2], header[15][1],
        header[15][2], header[16][1], header[16][2], header[17][1], header[17][2],
        header[18][1]),
      TraceSetting(
        header[19][1], header[20][1], header[20][2], header[21][1], header[21][2],
        header[22][1], header[23][1], header[24][1], header[25][1], header[26][1],
        header[27][1], header[28][1], header[29][1])))
  {
  }

  /** Only the rows of the layout are read: two headers that agree on those
      rows give the same arguments, whatever the other rows hold. */
  lemma UnreadRowsIgnored(header: seq<seq<string>>, other: seq<seq<string>>)
    requires |header| >= HeaderRows && |other| >= HeaderRows
    requires forall row: nat :: IsReadRow(row) ==> header[row] == other[row]
    ensures Arguments(header) == Arguments(other)
  {
  }

  /** `ZNL_spectrum_read_1trace` on the lines of a file. */
  function Read(lines: seq<string>, autopeak: int): Result<Reading<DeviceSetting<Float, int>, TraceSetting<Float, int>>> {
    ReadWith(Settings, lines, autopeak)
  }

  /** `ZNL_spectrum_read_1trace`, with the file given as its lines. */
  method Read1Trace(lines: seq<string>, autopeak: int) returns (r: Result<Reading<DeviceSetting<Float, int>, TraceSetting<Float, int>>>)
    ensures r == Read(lines, autopeak)
  {
    r := ReadFile(Settings, lines, autopeak);
  }

  /** `ZNL_spectrum_read_multrace`, with each file given as its lines: the
      single-file reader on every file, in order, the first failure aborting
      the batch. */
  method ReadMultrace(files: seq<seq<string>>, autopeak: int) returns (r: Result<Batch<DeviceSetting<Float, int>, TraceSetting<Float, int>>>)
    ensures IsBatchOf(files, autopeak, Read, r)
  {
    r := CollectReadings(files, autopeak, Read);
  }

  /** A file with fewer than 30 header lines fails with IndexError once
      its data lines have been read. */
  lemma ShortHeaderFails(lines: seq<string>, autopeak: int)
    requires Classified(lines).Success?
    requires |Classified(lines).value.header| < HeaderRows
    ensures Read(lines, autopeak) == Failure(IndexError)
  {
    ArgumentsNeedHeader(Classified(lines).value.header);
  }

  /** How reading both records ends: IndexError when the header does not fit
      the layout; otherwise the device constructor's ValueError, else the trace
      constructor's, else both constructed records. */
  lemma SettingsOutcome(header: seq<seq<string>>)
    ensures !HeaderFits(header) ==> Settings(header) == Failure(IndexError)
    ensures HeaderFits(header) ==> Arguments(header).Success?
    ensures HeaderFits(header) ==>
      var (device, trace) := Arguments(header).value;
      && (Settings(header).Success? <==> NewDeviceSetting(device).Success? && NewTraceSetting(trace).Success?)
      && (Settings(header).Success? ==>
            Settings(header).value == (NewDeviceSetting(device).value, NewTraceSetting(trace).value))
      && (NewDeviceSetting(device).Failure? ==> Settings(header) == Failure(NewDeviceSetting(device).error))
      && (NewDeviceSetting(device).Success? && NewTraceSetting(trace).Failure? ==>
            Settings(header) == Failure(NewTraceSetting(trace).error))
  {
    ArgumentsNeedHeader(header);
  }

  /** The center-frequency row of an export yields 100 kHz in the device record. */
  lemma CenterFrequencyRow(header: seq<seq<string>>)
    requires |header| > 6 && header[6] == ["Center Frequency", "1.000000E+05", "Hz"]
    ensures Settings(header).Success? ==>
      Settings(header).value.0.centerFreq == Finite(100000.0) && Settings(header).value.0.centerUnit == "Hz"
  {
    if Settings(header).Success? {
      ArgumentsNeedHeader(header);
      SettingsOutcome(header);
      ArgumentsCells(header);
      var a := Arguments(header).value.0;
      var d := Settings(header).value.0;
      assert a.centerFreq == "1.000000E+05" && a.centerUnit == "Hz";
      assert a.Floats()[0] == a.centerFreq && d.Floats()[0] == d.centerFreq;
      CenterFrequencyToken();
    }
  }
}
