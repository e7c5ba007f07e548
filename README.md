# VNA ASCII-export parser: a Dafny model

`VNA_scripts.py` reads the semicolon-separated ASCII exports of two Rohde &
Schwarz analyzers in spectrum mode, the ZVL and the ZNL. This project models
and proves its parser, which works in four steps:

1. **Line classifier.** Every line of a file is stripped. A line that is then
   non-empty and starts with a digit is a data row: all of its `;`-separated
   tokens go through `float()`. Any other line is a header row that keeps its
   tokens as strings.
2. **Header extraction.** Fixed-offset reads of the header table
   (`file_header[row][col]`) become the constructor arguments of two settings
   records per instrument.
3. **Settings constructors.** They convert the numeric fields with `float()`,
   or `int()` for the sweep count and the number of points, and store every
   other field unchanged.
4. **Trace assembly.** Column 0 of the data table becomes `frequency` and
   column 1 `yval1`. Column 2 becomes `yval2` only when `autopeak == 1`.

The batch readers run the single-file reader over a list of files and collect
five lists.

Modules:

- `Results`: `Option`, `Result`, and the two exceptions the parser can raise
  on a well-formed file list. These are `ValueError` (with the rejected token)
  and `IndexError`.
- `Text`: Python's `str.split(';')`, with `Join` as the inverse of `Split`.
  It also has the trimming of whitespace at both ends, over a given whitespace
  set. `str.strip()` trims the characters of `str.isspace()`. `float()` and
  `int()` trim a smaller set, which does not include U+001C to U+001F.
- `Numbers`: Python's `float()` and `int()` on a token, as partial functions
  onto exact values, and `[float(x) for x in toks]`. `int()` converts at most
  4300 digits, the default of `sys.int_info.default_max_str_digits`.
- `Lines`:
  - the classification loop, as the method `SplitSections`;
  - its specification function `Classified`, the pass with the per-line step
    `ClassifyLine`;
  - the partition and failure lemmas.
- `Traces`:
  - the assembly loop `AssembleColumns`, with its specification
    `TraceColumns`;
  - the single-file reader `ReadFile`, with its specification `ReadWith`;
  - the batch loop `CollectReadings`, with its specification `IsBatchOf`.

  Each of these is written once over the instrument's settings extraction.
  `Traces` also holds `Cell`, the header access `file_header[row][col]` that
  both layouts use.
- `Zvl`, `Znl`: each instrument's two settings records, its header layout
  (`Arguments`), its constructors, and its readers `Read1Trace` and
  `ReadMultrace`. `Read1Trace` calls `Traces.ReadFile` with the instrument's
  settings extraction. `ReadMultrace` calls `Traces.CollectReadings` with the
  function `Read`, which `Read1Trace` is proved to return. The batch is
  specified over `Read` because a method cannot appear inside a
  specification.

Python raises its errors in this order, and the model raises them in the same
order:

1. the first `ValueError` of the classification loop;
2. then the `IndexError` of the header extraction;
3. then the first `ValueError` of the device constructor;
4. then that of the trace constructor;
5. then the `IndexError` of the assembly loop.

Behaviours of the code that the model keeps:

- **Blank lines.** A blank line becomes the header row `[""]` and takes a
  header index of its own. The ZVL layout counts on this:
  its row 22 is the blank separator.
- **Header tokens.** Only the whole line is stripped. Each header token
  keeps any whitespace it has next to a `;`.
- **Short headers.** No header length is checked before the extraction. A
  short header or a narrow row raises `IndexError` at the first index that
  misses.
- **Autopeak with two columns.** A data row with two columns when
  `autopeak == 1` raises `IndexError` in the assembly loop.
- **Errors carry no line number or field name.** A `ValueError` carries only
  the rejected token. The one exception is `int()`'s digit-limit error: its
  message gives the digit count instead. The model tags that error with the
  token like any other.
- **Batches.** The first file that fails aborts the whole batch, and no
  partial result is returned.

## Model

| member | source | states |
|---|---|---|
| Text.StripBounds | VNA_scripts.py:232 | `line.strip()`, like the trimming `float()` and `int()` do, is a contiguous slice of the line. Everything cut off is whitespace, and the slice neither starts nor ends with whitespace. |
| Text.StripIdempotent | VNA_scripts.py:232 | Stripping an already stripped line changes nothing. |
| Text.SplitCount | VNA_scripts.py:234 | `split(';')` yields one more token than the line has separators. |
| Text.JoinSplit | VNA_scripts.py:237 | Joining the tokens of `split(';')` with `;` gives back the line, so the header tokens are the line verbatim. |
| Text.SplitJoin | VNA_scripts.py:237 | Splitting the join of separator-free tokens gives back the tokens, so `Split` and `Join` are inverses. |
| Numbers.ConvertAll | VNA_scripts.py:234 | A list comprehension of conversions succeeds iff every token converts, and then holds each token's value in order. Otherwise it raises the error of the first token rejected. |
| Numbers.IntIsFloat | VNA_scripts.py:169 | Every token `int()` accepts, `float()` accepts too, with the same value. |
| Numbers.DecimalWithExponent | VNA_scripts.py:139 | `float()` of a literal with an `E` exponent is the mantissa scaled by ten to the exponent, and fails iff either part is malformed. |
| Numbers.PointedMantissa | VNA_scripts.py:139 | A mantissa `digits.digits` is the value of all its digits, with the fraction's length as its decimal places. |
| Numbers.SignedDigits | VNA_scripts.py:169 | A sign followed by digits is the signed value of the digits. |
| Numbers.IntDigitLimit | VNA_scripts.py:169 | `int()` accepts a run of digits iff it has at most 4300 digits, and then gives the value the digits spell. |
| Numbers.SeparatorControlRejected | VNA_scripts.py:139 | A token that starts with U+001C strips to a number under `str.strip()`, yet `float()` and `int()` both reject it. |
| Numbers.CenterFrequencyToken | VNA_scripts.py:139 | The export token `1.000000E+05` reads as exactly 100000. |
| Lines.SplitSections | VNA_scripts.py:230-238 | The classification loop ends in the state `Classified(lines)` specifies: the two tables, or the first `ValueError`. |
| Lines.ClassifiedStep | VNA_scripts.py:230-238 | One more line read is one more loop step: the previous error stands, or the line's row is appended to its table. |
| Lines.PassAppend | VNA_scripts.py:230-238 | Reading `a + b` reads `a`, then `b`. The first error wins, and each table of `b` follows that of `a`. |
| Lines.PassFailure | VNA_scripts.py:230-238 | The pass fails iff the step fails on some line, and then with the error of the first such line. |
| Lines.PassFailureStays | VNA_scripts.py:230-238 | Once the loop has raised on a line, the file's result is that error, whatever lines follow. |
| Lines.PassInsertHeader | VNA_scripts.py:236-238 | A header line between two parts that read adds its row to the header table between the parts' rows, and changes nothing else. |
| Lines.KeptSize | VNA_scripts.py:232-238 | Each line goes to exactly one side, so the two sides together are as long as the file. |
| Lines.PassPartition | VNA_scripts.py:232-238 | The data table holds, in order, the rows of exactly the lines the test accepts. The header table holds the rows of the others. |
| Lines.ClassifiedPartition | VNA_scripts.py:230-238 | Header rows are the stripped, split header lines with untouched tokens. Data rows are the converted data lines. Both keep file order, and `len(data) + len(header) == len(lines)`. |
| Lines.ClassifiedFailure | VNA_scripts.py:233-234 | The loop fails iff some line's conversion fails. That line is a data line, and the error is that of the first failing line. |
| Lines.BlankLineIsHeaderRow | VNA_scripts.py:232-238 | A blank or all-whitespace line is not data and becomes the header row `[""]`. |
| Lines.BlankLineShiftsHeader | VNA_scripts.py:230-238 | A blank line between two parts of a file takes one header index, so every later header row shifts by one. |
| Traces.TraceColumns | VNA_scripts.py:303-308 | The assembly succeeds iff every row has at least two columns (at least three when `autopeak == 1`); extra columns are ignored. On success `frequency[i]` and `yval1[i]` are columns 0 and 1 of row `i`, `yval2[i]` is column 2 when `autopeak == 1`, and `yval2` is empty otherwise. A short row raises `IndexError`. |
| Traces.AssembleColumns | VNA_scripts.py:303-308 | The assembly loop returns `TraceColumns(data, autopeak)`. |
| Traces.ReadFile | VNA_scripts.py:220-310 | The single-file reader returns `ReadWith`: classification, then settings extraction, then assembly, with the first error raised as the result. |
| Traces.ReadColumns | VNA_scripts.py:230-310 | On success the records come from the header lines alone. The three columns are aligned, in file order, with the converted data lines: column 0, column 1, and column 2 only when `autopeak == 1`. |
| Traces.CollectReadings | VNA_scripts.py:332-348 | The batch succeeds iff every file reads. Then the five lists have one entry per file, entry `i` being file `i`'s reading. Otherwise it fails with the error of the first file that fails. |
| Zvl.ArgumentsNeedHeader | VNA_scripts.py:243-284 | The ZVL extraction succeeds iff there are at least 28 header rows, every read row has token 1 and every unit row token 2. Otherwise it raises `IndexError`. |
| Zvl.ArgumentsCells | VNA_scripts.py:243-284 | Each ZVL argument is the token at its fixed row and column of the header. |
| Zvl.UnreadRowsIgnored | VNA_scripts.py:243-284 | Two headers that agree on rows 0-21 and 23-27 give the same ZVL arguments, so row 22 is never read. |
| Zvl.NewDeviceSetting | VNA_scripts.py:127-169 | Succeeds iff all 13 float fields parse and `sweep_cnt` parses as an int. On success every field is the parsed value and the 21 string fields are unchanged. Otherwise it raises the `ValueError` of the first bad field in constructor order. |
| Zvl.NewTraceSetting | VNA_scripts.py:188-195 | Succeeds iff `meas_number` parses as an int, and keeps the four strings unchanged. Otherwise it raises `ValueError`. |
| Zvl.Read1Trace | VNA_scripts.py:220-310 | `ZVL_spectrum_read_1trace` on a file's lines returns `Zvl.Read`, the generic reader with the ZVL layout and constructors. |
| Zvl.ReadMultrace | VNA_scripts.py:332-348 | `ZVL_spectrum_read_multrace` is the batch of `Zvl.Read` over the files, in order, aborting on the first failure. |
| Zvl.ShortHeaderFails | VNA_scripts.py:243-284 | A ZVL file whose data lines parse but which has fewer than 28 header lines fails with `IndexError`. |
| Zvl.SettingsOutcome | VNA_scripts.py:243-300 | Reading the ZVL records raises `IndexError` iff the header does not fit the layout. Otherwise it raises the device constructor's `ValueError` if it has one, else the trace constructor's. When both succeed it holds both constructed records. |
| Zvl.CenterFrequencyRow | VNA_scripts.py:247-248 | When both records read, a ZVL header whose row 4 is `Center Frequency;1.000000E+05;Hz` gives `center_freq` 100000 and `center_unit` `Hz`. |
| Znl.ArgumentsNeedHeader | VNA_scripts.py:530-575 | The ZNL extraction succeeds iff there are at least 30 header rows, every row has token 1, and rows 6-17, 20 and 21 have token 2. Otherwise it raises `IndexError`. |
| Znl.ArgumentsCells | VNA_scripts.py:530-575 | Each ZNL argument is the token at its fixed row and column. Rows 0-18 feed the device record and rows 19-29 the trace record. |
| Znl.UnreadRowsIgnored | VNA_scripts.py:530-575 | Two headers that agree on rows 0-29 give the same ZNL arguments. |
| Znl.NewDeviceSetting | VNA_scripts.py:400-438 | Succeeds iff all 12 float fields parse and `sweep_cnt` parses as an int. On success every field is the parsed value and the 18 string fields are unchanged. Otherwise it raises the `ValueError` of the first bad field in constructor order. |
| Znl.NewTraceSetting | VNA_scripts.py:465-482 | Succeeds iff `refpos` and `rangelvl` parse as floats and `meas_number` as an int, and keeps the ten strings unchanged. Otherwise it raises the `ValueError` of the first bad field. |
| Znl.Read1Trace | VNA_scripts.py:507-602 | `ZNL_spectrum_read_1trace` on a file's lines returns `Znl.Read`, the generic reader with the ZNL layout and constructors. |
| Znl.ReadMultrace | VNA_scripts.py:624-640 | `ZNL_spectrum_read_multrace` is the batch of `Znl.Read` over the files, in order, aborting on the first failure. |
| Znl.ShortHeaderFails | VNA_scripts.py:530-575 | A ZNL file whose data lines parse but which has fewer than 30 header lines fails with `IndexError`. |
| Znl.SettingsOutcome | VNA_scripts.py:530-592 | Reading the ZNL records raises `IndexError` iff the header does not fit the layout. Otherwise it raises the device constructor's `ValueError` if it has one, else the trace constructor's. When both succeed it holds both constructed records. |
| Znl.CenterFrequencyRow | VNA_scripts.py:536-537 | When both records read, a ZNL header whose row 6 is `Center Frequency;1.000000E+05;Hz` gives `center_freq` 100000 and `center_unit` `Hz`. |

## Left out

- File access: `open(filepath + filename)` and iteration over its lines. Each file is given as the sequence of its lines, and `IOError` is not modelled.
- The per-line loop reads each line as Python's text-mode iterator yields it. Newline translation and encoding are not modelled.
- `float()` values are exact decimals. IEEE rounding, the sign of `-0.0` and overflow to infinity are not modelled.
- The 4300-digit limit of `int()` is the default. Changing it with `sys.set_int_max_str_digits` or `PYTHONINTMAXSTRDIGITS` is not modelled, and neither are interpreters without the limit: releases before 3.11 and before the matching 3.7-3.10 security releases.
- Numbers.IntOf: for a token over the digit limit, `int()`'s ValueError message gives the digit count ("Exceeds the limit (4300 digits) for integer string conversion: value has N digits") and names no token; the model reports it as `ValueError(tok)` like every other rejected token, because `Error` keeps only what tells one failing field from another.
- The `_` digit separator that `float()` and `int()` accept (`int('1_0') == 10`) is not modelled. The model rejects such a token with `ValueError`.
- Only ASCII digits are modelled, in `str.isdigit()` and in `float()`/`int()`. The model treats a line that starts with another Unicode digit as a header line, but `str.isdigit()` makes it data in Python. The model rejects any other Unicode decimal digit with `ValueError`, but `float()` and `int()` accept it (`float('１') == 1.0`).
- `multiplot`, the display flags (`set_showCMD`, `reset_showCMD` and the dB/eps helpers) and every plotting function are outside the parser and not modelled.
- `ZVL_scripts.py` is not part of this model. It is an older module whose `read_dat_file_spec` repeats only the classification loop and does not parse as Python. `Test_function.py`, a plotting demo, is not part of this model either.
