/** `save_data`: the block of lines appended to the log file after a sweep.
    The clock reading and the float formatting are parameters; appending to
    the file is concatenation. */
module Log {
  import opened Results
  import opened Text
  import opened Numbers
  import opened Capabilities
  import opened Sweep

  /** `"{}".format(value)` for the swept value of a row. */
  function ShowAxis(fl: Floats, a: Axis): string {
    match a
    case Hz(f) => ShowInt(f)
    case Volts(v) => fl.show(v)
  }

  function TimestampLine(timestamp: string): string {
    "# Timestamp: " + timestamp + "\n"
  }

  /** `"# {:6s}\t{:8s}\t{:8s}\n"` with the axis label and the two column labels. */
  function HeaderLine(axisLabel: string, labels: Labels): string {
    "# " + PadRight(axisLabel, 6) + "\t" + PadRight(labels.primary, 8) + "\t" + PadRight(labels.secondary, 8) + "\n"
  }

  /** `"{:<8}\t{:1.8e}\t{:1.8e}\n"` for one row. */
  function DataLine(fl: Floats, s: Sample): string {
    PadRight(ShowAxis(fl, s.axis), 8) + "\t" + fl.exp8(s.primary) + "\t" + fl.exp8(s.secondary) + "\n"
  }

  function DataLines(fl: Floats, data: seq<Sample>): (r: seq<string>)
    ensures |r| == |data| && forall i :: 0 <= i < |data| ==> r[i] == DataLine(fl, data[i])
  {
    seq(|data|, i requires 0 <= i < |data| => DataLine(fl, data[i]))
  }

  /** The first header column for the two sweep kinds `save_data` knows;
      any other `f_or_a` writes no header at all. */
  function AxisLabel(fOrA: string): Option<string> {
    if fOrA == "freq" then Some("Freq [Hz]")
    else if fOrA == "amplitude" then Some("Ampl. [V]")
    else None
  }

  /** The lines written, in order, and whether `save_data` returned or raised
      `KeyError`, which carries the upper-cased key. */
  datatype LogOutcome = LogOutcome(written: seq<string>, result: Result<(), string>)

  /** `save_data(data, fn, f_or_a, key)` at clock reading `timestamp`. The
      timestamp is written before the labels are looked up, so a key without
      labels leaves that one line behind. */
  function SaveData(fl: Floats, data: seq<Sample>, fOrA: string, key: string, timestamp: string): (o: LogOutcome)
    ensures o.written != [] && o.written[0] == TimestampLine(timestamp)
    ensures o.result.Failure? <==> AxisLabel(fOrA).Some? && ResultHeader(key).None?
    ensures o.result.Failure? ==> o.written == [TimestampLine(timestamp)] && o.result.error == Upper(key)
    ensures o.result.Success? ==>
      && |o.written| == |data| + (if AxisLabel(fOrA).Some? then 3 else 2)
      && o.written[|o.written| - 1] == "\n"
      && o.written[|o.written| - 1 - |data|..|o.written| - 1] == DataLines(fl, data)
    ensures o.result.Success? && AxisLabel(fOrA).Some? ==>
      o.written[1] == HeaderLine(AxisLabel(fOrA).value, ResultHeader(key).value)
  {
    var first := [TimestampLine(timestamp)];
    match AxisLabel(fOrA)
    case None => LogOutcome(first + DataLines(fl, data) + ["\n"], Success(()))
    case Some(axis) =>
      match ResultHeader(key)
      case None => LogOutcome(first, Failure(Upper(key)))
      case Some(labels) =>
        LogOutcome(first + [HeaderLine(axis, labels)] + DataLines(fl, data) + ["\n"], Success(()))
  }

  /** The floating-point formats produce one-line text. */
  ghost predicate SingleLineFloats(fl: Floats) {
    && (forall x :: '\n' !in fl.show(x))
    && (forall x :: '\n' !in fl.exp8(x))
  }

  /** No column label spans two lines. */
  lemma LabelsSingleLine()
    ensures forall k :: k in Headers ==> '\n' !in Headers[k].primary && '\n' !in Headers[k].secondary
  {
    LabelsInColumns();
    assert forall s :: s in PrimaryLabels ==> '\n' !in s;
    assert forall s :: s in SecondaryLabels ==> '\n' !in s;
  }

  lemma PadRightNoNewline(s: string, n: nat)
    requires '\n' !in s
    ensures '\n' !in PadRight(s, n)
  {
    var r := PadRight(s, n);
    forall i | 0 <= i < |r| ensures r[i] != '\n' {
      if i < |s| { assert r[i] == r[..|s|][i]; }
    }
  }

  lemma DataLineIsLine(fl: Floats, d: Sample)
    requires SingleLineFloats(fl)
    ensures IsLine(DataLine(fl, d))
  {
    var a := ShowAxis(fl, d.axis);
    assert '\n' !in a by {
      if d.axis.Hz? {
        assert forall j :: 0 <= j < |a| ==> IsDigit(a[j]) || a[j] == '-';
      }
    }
    PadRightNoNewline(a, 8);
    LineOf(PadRight(a, 8) + "\t" + fl.exp8(d.primary) + "\t" + fl.exp8(d.secondary));
  }

  lemma HeaderLineIsLine(axisLabel: string, key: string)
    requires '\n' !in axisLabel && ResultHeader(key).Some?
    ensures IsLine(HeaderLine(axisLabel, ResultHeader(key).value))
  {
    var labels := ResultHeader(key).value;
    LabelsSingleLine();
    PadRightNoNewline(axisLabel, 6);
    PadRightNoNewline(labels.primary, 8);
    PadRightNoNewline(labels.secondary, 8);
    LineOf("# " + PadRight(axisLabel, 6) + "\t" + PadRight(labels.primary, 8) + "\t" + PadRight(labels.secondary, 8));
  }

  /** Every chunk `save_data` writes is one whole line. */
  lemma SaveDataWritesLines(fl: Floats, data: seq<Sample>, fOrA: string, key: string, timestamp: string)
    requires SingleLineFloats(fl) && '\n' !in timestamp
    ensures var o := SaveData(fl, data, fOrA, key, timestamp);
      forall i :: 0 <= i < |o.written| ==> IsLine(o.written[i])
  {
    LineOf("# Timestamp: " + timestamp);
    assert IsLine("\n");
    var lines := DataLines(fl, data);
    forall i | 0 <= i < |lines| ensures IsLine(lines[i]) {
      DataLineIsLine(fl, data[i]);
    }
    if AxisLabel(fOrA).Some? && ResultHeader(key).Some? {
      HeaderLineIsLine(AxisLabel(fOrA).value, key);
    }
  }

  /** Appending blocks to a log made of whole lines keeps the earlier lines and
      adds each block's lines after them, in order: reading the file back with
      `readlines()` gives the earlier lines, then the first block, then the second. */
  lemma AppendTwice(fl: Floats, earlier: seq<string>,
                    data1: seq<Sample>, data2: seq<Sample>, fOrA: string, key: string, ts1: string, ts2: string)
    requires SingleLineFloats(fl) && '\n' !in ts1 && '\n' !in ts2
    requires forall i :: 0 <= i < |earlier| ==> IsLine(earlier[i])
    ensures var b1 := SaveData(fl, data1, fOrA, key, ts1); var b2 := SaveData(fl, data2, fOrA, key, ts2);
      SplitLines(Concat(earlier) + Concat(b1.written) + Concat(b2.written)) == earlier + b1.written + b2.written
  {
    SaveDataWritesLines(fl, data1, fOrA, key, ts1);
    SaveDataWritesLines(fl, data2, fOrA, key, ts2);
    var b1 := SaveData(fl, data1, fOrA, key, ts1);
    var b2 := SaveData(fl, data2, fOrA, key, ts2);
    var all := earlier + b1.written + b2.written;
    forall i | 0 <= i < |all| ensures IsLine(all[i]) {
      if i < |earlier| {
        assert all[i] == earlier[i];
      } else if i < |earlier| + |b1.written| {
        assert all[i] == b1.written[i - |earlier|];
      } else {
        assert all[i] == b2.written[i - |earlier| - |b1.written|];
      }
    }
    ConcatAppend(earlier, b1.written);
    ConcatAppend(earlier + b1.written, b2.written);
    SplitLinesConcat(all);
  }

  /** A data line splits on tabs into the padded swept value and the two
      formatted measurements, so each row can be read back field by field. */
  lemma DataLineFields(fl: Floats, s: Sample)
    requires '\t' !in fl.exp8(s.primary) && '\t' !in fl.exp8(s.secondary)
    requires '\t' !in ShowAxis(fl, s.axis)
    ensures var line := DataLine(fl, s);
      Split(line[..|line| - 1], '\t') == [PadRight(ShowAxis(fl, s.axis), 8), fl.exp8(s.primary), fl.exp8(s.secondary)]
  {
    var a := PadRight(ShowAxis(fl, s.axis), 8);
    var p := fl.exp8(s.primary);
    var q := fl.exp8(s.secondary);
    assert '\t' !in a by {
      var sa := ShowAxis(fl, s.axis);
      forall i | 0 <= i < |a| ensures a[i] != '\t' {
        if i < |sa| { assert a[i] == a[..|sa|][i]; }
      }
    }
    var line := DataLine(fl, s);
    assert line[..|line| - 1] == a + ['\t'] + (p + ['\t'] + q);
    SplitAt(a, '\t', p + ['\t'] + q);
    SplitAt(p, '\t', q);
    SplitNone(q, '\t');
  }
}
