# impydance: a Dafny model of the BK894 LCR meter driver

`impydance.py` drives a BK894 LCR bench meter over VISA. Without the
transport, the console and the file handles, four pieces of sequential
logic are left. This project models them as pure functions and proves
what they do.

- **Capabilities** (`capabilities.dfy`) covers three things:
  - the frequency range check;
  - the twenty accepted measurement codes, matched after `upper()`;
  - the label table `result_header` looks up.

  It also holds the default constants.
- **Sweep** (`sweep.dfy`) covers `frequency_sweep` and `amplitude_sweep`. Each is a function of:
  - its arguments;
  - an *instrument*: a function from the commands sent so far to the reply to the last `fetch?`;
  - the floating-point conversions.

  The outcome is the ordered trace of `write`/`query` strings plus either the rows or the exception that ended the sweep.
- **Log** (`log.dfy`) covers `save_data`: the chunks one call appends to the log file, and whether it raises.
- **Config** (`config.dfy`) covers three things:
  - the text `write_config` writes;
  - `read_config` as a scan over the lines `readlines()` returns;
  - the round trip from one to the other.

`text.dfy` and `numbers.dfy` supply the Python string and number operations
the code relies on. Each is written out for ASCII text and for the
characters that matter to the measurement codes; "## Left out" lists what
Python does beyond that (other characters, underscores in numbers, the
interpreter's digit limit):
- `str.strip()` over Python's whitespace set;
- `split` (always at least one piece);
- `", ".join`, `str.upper()`, left-justified padding and `readlines()`;
- `str(int)` and `int(text)`.

`float(text)`, `str(float)` and `"{:1.8e}"` stay abstract. They are the three
fields of the `Numbers.Floats` parameter.

The model keeps the following behaviours as the code has them, even where
the program's own description or comments suggest otherwise:

- **Configuration is not atomic.**
  - `frequency_sweep` writes `FUNC:IMP` before it checks the voltage.
  - `amplitude_sweep` writes `FREQ` before it checks the key, and `FUNC:IMP` before it checks the voltages.

  A rejected request can therefore leave the meter partly configured. Every error path's trace is stated exactly.
- **"RX" passes `measurements_available` but has no entry in `result_header`.**
  - Both sweeps raise `KeyError: 'RX'` (`NoHeader`, which like Python carries the upper-cased key) after partly configuring the meter.
  - `save_data` raises after it has already written the timestamp line.
- **`read_config` never fails because a field is missing.** It prints advice and returns the empty values. It raises only when a keyword line has no `=` or holds a number that does not convert.
- **The voltage range is (0, 2] V.** The configuration file's comment says voltages start at 50 mV, but the code accepts any voltage in (0, 2] V.
- **Some labels look wrong but are kept as written.** The table maps the series codes `CS*`/`LS*` to the parallel labels `Cp [F]`/`Lp [H]`, and `GB`, `YTD` and `YTR` to `Z [Ohm]`/`Theta [Deg]`. The model keeps these labels and does not judge them.

## Model

| member | source | states |
|---|---|---|
| `Capabilities.FrequenciesAvailable` | impydance.py:183-186 | true exactly when every frequency lies in the closed interval [1, 500000] Hz; vacuously true for no frequencies |
| `Capabilities.VoltagesAvailable` | impydance.py:165 | true exactly when every amplitude lies in (0, 2] V |
| `Capabilities.UpperIsCaseVariant` | impydance.py:201 | for each of the twenty codes, `key.upper()` equals that code exactly when each character of the key is the code's letter, its lower-case form, or U+017F standing for 'S' |
| `Capabilities.AvailableIffCaseVariant` | impydance.py:188-201 | a key is accepted exactly when it spells one of the twenty codes in some mix of upper and lower case |
| `Capabilities.ResultHeader` | impydance.py:198-224 | labels are returned exactly for keys `measurements_available` accepts whose upper case is not "RX", and they are the table's entry for the upper-cased key; for every other key the lookup raises |
| `Capabilities.HeaderKeys` | impydance.py:198-223 | every accepted code other than "RX" has labels, "RX" has none, and the table has no key that is not accepted |
| `Capabilities.HeaderDefinedIff` | impydance.py:198-224 | the label lookup succeeds exactly for accepted keys whose upper case is not "RX" |
| `Capabilities.LabelsInColumns` | impydance.py:205-223 | every first label is a capacitance, inductance or impedance label and every second one is one of the six secondary labels |
| `Capabilities.DefaultsAvailable` | impydance.py:15-22 | the default frequency list, the default frequency, the default amplitude list and the default voltage all pass the range checks |
| `Capabilities.DefaultKeyHeader` | impydance.py:23 | the default key "ZTD" is accepted and labelled `Z [Ohm]`, `Theta [Deg]` |
| `Numbers.ShowInt` | impydance.py:127 | `str(n)` has no surrounding whitespace and consists of decimal digits with at most a leading '-' |
| `Numbers.ParseShowInt` | impydance.py:308-309 | `int()` of `str(n)` with any whitespace around it gives back `n` |
| `Text.StripPadded` | impydance.py:306 | stripping text that has no whitespace at its ends, surrounded by whitespace, gives that text back |
| `Text.JoinSplit` | impydance.py:128 | joining the pieces of a split with the separator gives back the original text, and no piece contains the separator |
| `Text.SplitJoin` | impydance.py:309 | splitting a separator-joined list of pieces that do not contain the separator gives the pieces back |
| `Text.PadRight` | impydance.py:245 | left-justified padding keeps the text as a prefix, fills with spaces only, and reaches at least the width |
| `Text.SplitLinesConcat` | impydance.py:304 | `readlines()` over text written as whole lines gives back exactly those lines |
| `Sweep.DecodeReply` | impydance.py:128-129 | a reply decodes exactly when it has at least two comma-separated fields and the first two convert; the pair is their values |
| `Sweep.DecodeIgnoresExtraFields` | impydance.py:175-176 | fields after the second never change the decoded pair or the error |
| `Sweep.DecodeNeedsTwoFields` | impydance.py:128-129 | a reply without a comma always aborts the sweep |
| `Sweep.DecodePair` | impydance.py:128-129 | a reply `a,b` whose fields convert to x and y decodes to (x, y) |
| `Sweep.PointsTrace` | impydance.py:126-128 | each sweep point contributes exactly two commands |
| `Sweep.RunPoints` | impydance.py:126-129 | the polling loop only extends the trace; on success it has sent the set-command and `fetch?` of every point in order and returns one row per point whose first entry is that point |
| `Sweep.FirstFailure` | impydance.py:126-129 | the first point whose reply does not decode: every earlier reply decodes and this one does not |
| `Sweep.RunPointsSucceedsIff` | impydance.py:126-129 | the loop returns rows exactly when every point's reply decodes |
| `Sweep.RunPointsRows` | impydance.py:173-176 | on success row i holds point i and the two values decoded from the i-th reply |
| `Sweep.RunPointsStops` | impydance.py:126-129 | on failure the trace ends right after the `fetch?` of the first point whose reply does not decode, and that reply's error is raised |
| `Sweep.FrequencySweep` | impydance.py:110-134 | a bad frequency list or key raises with an empty trace; a bad voltage raises after `FUNC:IMP` alone; with valid arguments the trace starts `FUNC:IMP`, `VOLT`; success implies every check passed, the full trace, and one row per frequency in order |
| `Sweep.AmplitudeSweep` | impydance.py:157-181 | a bad frequency raises with an empty trace; a bad key raises after `FREQ` alone; bad voltages raise after `FREQ`, `FUNC:IMP`; success implies every check passed, the full trace, and one row per amplitude in order |
| `Sweep.FrequencySweepPolls` | impydance.py:112-134 | with valid arguments the frequency sweep returns rows exactly when every reply decodes, row i being frequency i with its decoded pair; otherwise it stops after the first bad reply with its error |
| `Sweep.AmplitudeSweepPolls` | impydance.py:157-181 | the same success and failure shape for the amplitude sweep after `FREQ` and `FUNC:IMP` |
| `Sweep.RxSweepsFail` | impydance.py:110-171 | with key "RX" (any case) and otherwise valid arguments, both sweeps raise the label lookup's error after partly configuring the meter and before any point |
| `Sweep.SteadyMeterFrequencySweep` | impydance.py:126-134 | a meter that always answers `a,b` makes a valid frequency sweep return, for each frequency in order, that frequency with the decoded pair |
| `Log.SaveData` | impydance.py:241-252 | the timestamp line comes first; the call raises exactly when a header is due and the key has no labels, leaving only the timestamp; otherwise it writes the header for "freq"/"amplitude" only, then one line per row in order, then a blank line, giving `len(data)+3` or `+2` chunks |
| `Log.HeaderLineIsLine` | impydance.py:244-249 | the header written for a labelled key is one line |
| `Log.DataLineIsLine` | impydance.py:251 | each data row is written as one line |
| `Log.SaveDataWritesLines` | impydance.py:241-252 | every chunk `save_data` appends is one whole line |
| `Log.AppendTwice` | impydance.py:241-252 | appending two sweeps' blocks to a file of whole lines reads back as the old lines, then the first block, then the second |
| `Log.DataLineFields` | impydance.py:251 | a data row splits on tabs into the padded swept value and the two formatted measurements |
| `Config.ParseInts` | impydance.py:308-309 | the list converts exactly when every piece is an integer, and then holds each piece's value in order |
| `Config.ParseFloats` | impydance.py:311-312 | the list converts exactly when every piece is a number, and then holds each piece's value in order |
| `Config.ReadLineEffect` | impydance.py:305-314 | a line stops the scan exactly when its key is a keyword and it lacks a value or that value does not convert; otherwise only the named field changes, to the line's stripped or converted value |
| `Config.ReadLinesSnoc` | impydance.py:304-314 | scanning one more line continues from the result of the shorter scan |
| `Config.ReadConfigSucceedsIff` | impydance.py:302-322 | `read_config` returns exactly when every line is readable; a field that never appears is no error |
| `Config.LastOccurrenceWins` | impydance.py:302-314 | each returned field is the value of the last line naming it, or the initial empty value when none does |
| `Config.CommentIgnored` | impydance.py:305-314 | a line starting with '#' leaves the configuration unchanged |
| `Config.CommentsFirst` | impydance.py:304-314 | comment lines at the head of a file do not change the scan's result |
| `Config.KeyValueLine` | impydance.py:305-306 | a `key = value` line splits at its '=' into that key and the text after it |
| `Config.ParseJoinedInts` | impydance.py:308-309 | `int()` over the pieces of a ", "-joined list of integers, with whitespace around it, gives the list back |
| `Config.WriteConfig` | impydance.py:266-268 | a file is produced exactly when a non-empty device was chosen |
| `Config.PreambleIsComments` | impydance.py:269-273 | the five preamble chunks are whole lines starting with '#' |
| `Config.ReadDeviceLine` | impydance.py:305-306 | the `device = d` line is one line and the scan sets the device to d |
| `Config.FreqLineParts` | impydance.py:275-277 | the `freq` line is one line whose key is `freq` and whose value is the joined list |
| `Config.ReadFreqLine` | impydance.py:307-309 | the scan reads the frequency list back from the `freq` line |
| `Config.ReadVoltageLine` | impydance.py:310-312 | the scan reads a plainly printed voltage back from the `voltage` line as a one-element list |
| `Config.ReadKeyLine` | impydance.py:313-314 | the `measurement = k` line is one line and the scan sets the key to k |
| `Config.ReadBody` | impydance.py:274-279 | the four keyword lines, scanned from the empty configuration, set all four fields |
| `Config.ConfigLinesSplit` | impydance.py:269-279 | `readlines()` over the file written for a trimmed device name without '=' or a line break gives back exactly the chunks written |
| `Config.WriteThenRead` | impydance.py:269-314 | reading back the file written for a trimmed device name without '=' or a line break ('\n' or '\r') gives that device, the default frequency list, the default voltage as a one-element list and the default key, so every field is set |

## Left out

- `find_device`, `connect_device`, `query_device`: VISA resource handling, `input()` prompts and identification printing. `WriteConfig` takes the device choice as a parameter.
- `parse_args` and `main`: command-line plumbing. It picks `V[0]` or `freqs[0]` and repeats a sweep five times in batch mode.
- The console tables printed inside both sweeps and the advice `read_config` prints: output only. `Config.Complete` names the condition under which that advice is printed.
- Floating-point behaviour: `float(text)`, `str(float)`, `"{:1.8e}"` and the padding of a float. These are the abstract functions of `Numbers.Floats`. The round trip assumes only that the default voltage prints as one plain token that converts back (`Numbers.ShowsPlainly`). NaN and infinity are not modelled.
- `datetime.now()` is a parameter (`timestamp`). Opening files is not modelled: the written text is the concatenation of the chunks, and appending is concatenation.
- Timeouts and communication failures: these live in the VISA library. The instrument is a total function and always replies.
- `int()` on text with underscores or non-ASCII digits, and the interpreter's limit on the number of digits: Python 3.11 and later, and the 3.7–3.10 security releases, make `int(text)` and `str(n)` raise `ValueError` beyond 4300 digits. `ParseInt` accepts only optional surrounding whitespace, an optional sign and ASCII digits, of any length. The limit depends on the interpreter version, which the source does not fix. No value the program itself writes comes near it.
- Config.ReadConfigSucceedsIff: a `freq` line holding an integer of more than 4300 digits counts as readable, while a recent Python interpreter raises at impydance.py:308-309. Config.LastOccurrenceWins and Config.ParseInts share this limit on what they promise.
- `readlines()` universal-newline translation of `\r\n` and `\r`: `Text.SplitLines` splits after `\n` only. This is why the round trip excludes '\r' from the device name and from the printed voltage.
- `str.upper()` beyond ASCII letters and U+017F: Python also maps, for instance, U+0131 to 'I' and 'ß' to "SS". None of these can spell one of the twenty codes, so `measurements_available` is modelled exactly, but `Text.Upper` is not Python's `upper()` in general. This is why `Capabilities.UpperIsCaseVariant` is stated for the codes only.
- The default arguments: `limits=[1, 5E5]` of `frequencies_available` (impydance.py:183) is fixed into `Capabilities.MinFrequency` and `MaxFrequency`, and is never passed otherwise. The sweeps' defaults (impydance.py:89-90, 136-137) are not modelled as defaults: every call passes all arguments, as `main` does. The default values themselves are `Capabilities.FreqQLogRange`, `VLinRange`, `DefaultFrequency`, `DefaultVoltage` and `DefaultKey`.
- Config.WriteThenRead: the round trip is stated for device names with no surrounding whitespace, no '=' and no line break. For other names the source promises nothing either: `strip()`, the split at '=' or the line split changes them.
- Config.ReadVoltageLine: stated only for a voltage whose printed form converts back exactly. The float conversions are abstract.
