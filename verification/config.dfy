/** The configuration file: the text `write_config` writes and the scan
    `read_config` performs over the lines of a file. */
module Config {
  import opened Results
  import opened Text
  import opened Numbers
  import opened Capabilities

  /** What `read_config` returns: `device, freqs, V, key`. */
  datatype Config = Config(device: string, freqs: seq<int>, volts: seq<real>, key: string)

  /** The values `read_config` starts from and keeps for keys it never sees. */
  const Unset: Config := Config("", [], [], "")

  /** The exceptions `read_config` can raise while scanning. */
  datatype ConfigError =
    | NoValue(line: string)    // IndexError: a recognised key with no '=' after it
    | BadInt(text: string)     // ValueError from int(text)
    | BadFloat(text: string)   // ValueError from float(text)

  /** `line.split("=")[0].strip()` */
  function KeyOf(line: string): string {
    Strip(Split(line, '=')[0])
  }

  /** `line.split("=")[1]`, or None where Python raises `IndexError`. */
  function ValueOf(line: string): Option<string> {
    var parts := Split(line, '=');
    if |parts| >= 2 then Some(parts[1]) else None
  }

  /** `[int(x) for x in pieces]`, raising at the first piece that is not an integer. */
  function ParseInts(pieces: seq<string>): (r: Result<seq<int>, ConfigError>)
    ensures r.Success? <==> forall i :: 0 <= i < |pieces| ==> ParseInt(pieces[i]).Some?
    ensures r.Success? ==> |r.value| == |pieces| && forall i :: 0 <= i < |pieces| ==> ParseInt(pieces[i]) == Some(r.value[i])
    decreases |pieces|
  {
    if pieces == [] then Success([])
    else
      match ParseInt(pieces[0])
      case None => Failure(BadInt(pieces[0]))
      case Some(n) =>
        match ParseInts(pieces[1..])
        case Failure(e) => Failure(e)
        case Success(ns) => Success([n] + ns)
  }

  /** `[float(x) for x in pieces]`, raising at the first piece that is not a number. */
  function ParseFloats(fl: Floats, pieces: seq<string>): (r: Result<seq<real>, ConfigError>)
    ensures r.Success? <==> forall i :: 0 <= i < |pieces| ==> ParseFloat(fl, pieces[i]).Some?
    ensures r.Success? ==> |r.value| == |pieces| && forall i :: 0 <= i < |pieces| ==> ParseFloat(fl, pieces[i]) == Some(r.value[i])
    decreases |pieces|
  {
    if pieces == [] then Success([])
    else
      match ParseFloat(fl, pieces[0])
      case None => Failure(BadFloat(pieces[0]))
      case Some(x) =>
        match ParseFloats(fl, pieces[1..])
        case Failure(e) => Failure(e)
        case Success(xs) => Success([x] + xs)
  }

  /** One pass of the loop in `read_config`: a line whose key is one of the
      four keywords replaces that field; every other line changes nothing. */
  function ReadLine(fl: Floats, cfg: Config, line: string): Result<Config, ConfigError> {
    var k := KeyOf(line);
    if k != "device" && k != "freq" && k != "voltage" && k != "measurement" then Success(cfg)
    else
      match ValueOf(line)
      case None => Failure(NoValue(line))
      case Some(v) =>
        if k == "device" then Success(cfg.(device := Strip(v)))
        else if k == "freq" then
          match ParseInts(Split(v, ','))
          case Failure(e) => Failure(e)
          case Success(fs) => Success(cfg.(freqs := fs))
        else if k == "voltage" then
          match ParseFloats(fl, Split(v, ','))
          case Failure(e) => Failure(e)
          case Success(vs) => Success(cfg.(volts := vs))
        else Success(cfg.(key := Strip(v)))
  }

  function ReadLines(fl: Floats, cfg: Config, lines: seq<string>): Result<Config, ConfigError>
    decreases |lines|
  {
    if lines == [] then Success(cfg)
    else
      match ReadLine(fl, cfg, lines[0])
      case Failure(e) => Failure(e)
      case Success(next) => ReadLines(fl, next, lines[1..])
  }

  /** `read_config(fn)` over the lines `readlines()` returned. */
  function ReadConfig(fl: Floats, lines: seq<string>): Result<Config, ConfigError> {
    ReadLines(fl, Unset, lines)
  }

  /** The condition under which `read_config` prints its "Could not parse"
      advice. It still returns the values it has: a missing field is not an error. */
  predicate Complete(cfg: Config) {
    cfg.device != "" && cfg.freqs != [] && cfg.volts != [] && cfg.key != ""
  }

  predicate IsKeyword(k: string) {
    k == "device" || k == "freq" || k == "voltage" || k == "measurement"
  }

  /** A line the scan gets past without raising: either not a keyword line, or
      one with an '=' whose value converts for the numeric keys. */
  predicate LineReadable(fl: Floats, line: string) {
    var k := KeyOf(line);
    !IsKeyword(k) ||
    (&& ValueOf(line).Some?
     && (k == "freq" ==> ParseInts(Split(ValueOf(line).value, ',')).Success?)
     && (k == "voltage" ==> ParseFloats(fl, Split(ValueOf(line).value, ',')).Success?))
  }

  /** The index of the last line whose key is `k`, or -1. */
  function LastWith(lines: seq<string>, k: string): (j: int)
    ensures -1 <= j < |lines|
    ensures j >= 0 ==> KeyOf(lines[j]) == k
    ensures forall i :: j < i < |lines| ==> KeyOf(lines[i]) != k
    decreases |lines|
  {
    if lines == [] then -1
    else if KeyOf(lines[|lines| - 1]) == k then |lines| - 1
    else LastWith(lines[..|lines| - 1], k)
  }

  /** The scan raises on a line exactly when that line is not readable, and
      otherwise changes only the field the line names. */
  lemma ReadLineEffect(fl: Floats, cfg: Config, line: string)
    ensures ReadLine(fl, cfg, line).Success? <==> LineReadable(fl, line)
    ensures var r := ReadLine(fl, cfg, line); var k := KeyOf(line);
      r.Success? ==>
        && r.value.device == (if k == "device" then Strip(ValueOf(line).value) else cfg.device)
        && r.value.freqs == (if k == "freq" then ParseInts(Split(ValueOf(line).value, ',')).value else cfg.freqs)
        && r.value.volts == (if k == "voltage" then ParseFloats(fl, Split(ValueOf(line).value, ',')).value else cfg.volts)
        && r.value.key == (if k == "measurement" then Strip(ValueOf(line).value) else cfg.key)
  {
  }

  /** Scanning one more line continues from where the shorter scan stopped. */
  lemma {:induction false} ReadLinesSnoc(fl: Floats, cfg: Config, lines: seq<string>, line: string)
    ensures ReadLines(fl, cfg, lines + [line]) ==
      match ReadLines(fl, cfg, lines)
      case Failure(e) => Failure(e)
      case Success(c) => ReadLine(fl, c, line)
    decreases |lines|
  {
    if lines == [] {
      assert lines + [line] == [line];
    } else {
      assert (lines + [line])[1..] == lines[1..] + [line];
      match ReadLine(fl, cfg, lines[0])
      case Failure(e) =>
      case Success(next) => ReadLinesSnoc(fl, next, lines[1..], line);
    }
  }

  /** `read_config` raises exactly when some line is not readable: fields that
      never appear are not an error. */
  lemma {:induction false} ReadConfigSucceedsIff(fl: Floats, lines: seq<string>)
    ensures ReadConfig(fl, lines).Success? <==> forall i :: 0 <= i < |lines| ==> LineReadable(fl, lines[i])
    decreases |lines|
  {
    if lines != [] {
      var init := lines[..|lines| - 1];
      var last := lines[|lines| - 1];
      assert lines == init + [last];
      ReadLinesSnoc(fl, Unset, init, last);
      ReadConfigSucceedsIff(fl, init);
      if ReadConfig(fl, init).Success? {
        ReadLineEffect(fl, ReadConfig(fl, init).value, last);
      }
    }
  }

  /** The field value a configuration gets from the last line naming it,
      given as the reference for what `read_config` returns. */
  function LastDevice(lines: seq<string>): string {
    var j := LastWith(lines, "device");
    if j >= 0 && ValueOf(lines[j]).Some? then Strip(ValueOf(lines[j]).value) else ""
  }

  function LastKey(lines: seq<string>): string {
    var j := LastWith(lines, "measurement");
    if j >= 0 && ValueOf(lines[j]).Some? then Strip(ValueOf(lines[j]).value) else ""
  }

  function LastFreqs(lines: seq<string>): seq<int> {
    var j := LastWith(lines, "freq");
    if j >= 0 && ValueOf(lines[j]).Some? then
      match ParseInts(Split(ValueOf(lines[j]).value, ','))
      case Success(fs) => fs
      case Failure(_) => []
    else []
  }

  function LastVolts(fl: Floats, lines: seq<string>): seq<real> {
    var j := LastWith(lines, "voltage");
    if j >= 0 && ValueOf(lines[j]).Some? then
      match ParseFloats(fl, Split(ValueOf(lines[j]).value, ','))
      case Success(vs) => vs
      case Failure(_) => []
    else []
  }

  /** When `read_config` returns, each field holds the value of the last line
      naming it, and the starting empty value when no line does. */
  lemma {:induction false} LastOccurrenceWins(fl: Floats, lines: seq<string>)
    ensures ReadConfig(fl, lines).Success? ==>
      ReadConfig(fl, lines).value == Config(LastDevice(lines), LastFreqs(lines), LastVolts(fl, lines), LastKey(lines))
    decreases |lines|
  {
    if lines != [] && ReadConfig(fl, lines).Success? {
      var init := lines[..|lines| - 1];
      var last := lines[|lines| - 1];
      assert lines == init + [last];
      ReadLinesSnoc(fl, Unset, init, last);
      LastOccurrenceWins(fl, init);
      ReadLineEffect(fl, ReadConfig(fl, init).value, last);
      ReadConfigSucceedsIff(fl, lines);
      assert LineReadable(fl, lines[|lines| - 1]);
    }
  }

  /** A line that starts with '#' is ignored, whatever follows it. */
  lemma CommentIgnored(fl: Floats, cfg: Config, line: string)
    requires line != [] && line[0] == '#'
    ensures ReadLine(fl, cfg, line) == Success(cfg)
  {
    var first := Split(line, '=')[0];
    assert first != [] && first[0] == '#';
    StripKeepsFirst(first);
  }

  /** The comment lines at the top of every file `write_config` writes.
      Each is given as two halves and its newline: the verifier checks that a
      short literal holds no newline cheaply, but a whole line of this length
      makes the `IsLine` proofs below fail or run out of resource. */
  const Preamble: seq<string> := [
    "# Auto-generated configuration" + " file for a frequency sweep." + "\n",
    "# Frequencies are provided in" + " Hz. Feel free to change, but" + "\n",
    "# respect the range (1 Hz - 500" + " kHz) of the equipment. AC" + "\n",
    "# voltage can be varied between" + " 50 mV and 2 V. Do not change" + "\n",
    "# the device name" + " or the keywords." + "\n"]

  function ShowInts(xs: seq<int>): (r: seq<string>)
    ensures |r| == |xs| && forall i :: 0 <= i < |xs| ==> r[i] == ShowInt(xs[i])
  {
    seq(|xs|, i requires 0 <= i < |xs| => ShowInt(xs[i]))
  }

  /** The lines `write_config` writes for a chosen device: the preamble, then
      `device`, `freq`, `voltage` and `measurement` from the defaults. */
  function ConfigLines(fl: Floats, device: string): seq<string> {
    Preamble + [DeviceLine(device), FreqLine(FreqQLogRange), VoltageLine(fl, DefaultVoltage), KeyLine(DefaultKey)]
  }

  function DeviceLine(d: string): string { "device = " + d + "\n" }
  function FreqLine(xs: seq<int>): string { "freq = " + Join(ShowInts(xs), ", ") + "\n" }
  function VoltageLine(fl: Floats, v: real): string { "voltage = " + fl.show(v) + "\n" }
  function KeyLine(k: string): string { "measurement = " + k + "\n" }

  /** `write_config(fn)` given the device `find_device()` chose: no file when
      the choice was to quit (None) or empty, else the file's text. */
  function WriteConfig(fl: Floats, choice: Option<string>): (text: Option<string>)
    ensures text.Some? <==> choice.Some? && choice.value != ""
  {
    if choice.Some? && choice.value != "" then Some(Concat(ConfigLines(fl, choice.value))) else None
  }

  lemma SpaceIsNotSeparator(w: string)
    requires AllSpace(w)
    ensures ',' !in w && '=' !in w
  {
    forall i | 0 <= i < |w| ensures w[i] != ',' && w[i] != '=' {
      assert IsSpace(w[i]);
    }
  }

  /** A `key = value` line splits at its '=' into the key and the rest. */
  lemma KeyValueLine(k: string, v: string)
    requires Trimmed(k) && '=' !in k && '=' !in v
    ensures KeyOf(k + " = " + v) == k
    ensures ValueOf(k + " = " + v) == Some(" " + v)
  {
    assert k + " = " + v == (k + " ") + ['='] + (" " + v);
    SplitAt(k + " ", '=', " " + v);
    SplitNone(" " + v, '=');
    StripPadded("", k, " ");
    assert "" + k + " " == k + " ";
  }

  /** `int()` over the pieces of a ", "-joined list of integers, with whitespace
      around it, gives the list back. */
  lemma {:induction false} ParseJoinedInts(w: string, xs: seq<int>, tail: string)
    requires AllSpace(w) && AllSpace(tail) && |xs| >= 1
    ensures ParseInts(Split(w + Join(ShowInts(xs), ", ") + tail, ',')) == Success(xs)
    decreases |xs|
  {
    SpaceIsNotSeparator(w);
    SpaceIsNotSeparator(tail);
    var head := ShowInt(xs[0]);
    assert ',' !in head by {
      assert forall j :: 0 <= j < |head| ==> IsDigit(head[j]) || head[j] == '-';
    }
    ParseShowInt(w, xs[0], tail);
    if |xs| == 1 {
      assert Join(ShowInts(xs), ", ") == head;
      SplitNone(w + head + tail, ',');
      var pieces := [w + head + tail];
      assert pieces[1..] == [];
      assert ParseInts(pieces) == Success([xs[0]] + []);
      assert [xs[0]] + [] == xs;
    } else {
      var rest := xs[1..];
      assert ShowInts(xs)[1..] == ShowInts(rest);
      var j := Join(ShowInts(rest), ", ");
      assert w + Join(ShowInts(xs), ", ") + tail == (w + head) + [','] + (" " + j + tail);
      SplitAt(w + head, ',', " " + j + tail);
      ParseShowInt(w, xs[0], "");
      assert w + head + "" == w + head;
      ParseJoinedInts(" ", rest, tail);
      assert [xs[0]] + rest == xs;
    }
  }

  /** Comment lines in front of a file do not change what the scan returns. */
  lemma {:induction false} CommentsFirst(fl: Floats, cfg: Config, xs: seq<string>, ys: seq<string>)
    requires forall i :: 0 <= i < |xs| ==> xs[i] != [] && xs[i][0] == '#'
    ensures ReadLines(fl, cfg, xs + ys) == ReadLines(fl, cfg, ys)
    decreases |xs|
  {
    if xs == [] {
      assert xs + ys == ys;
    } else {
      CommentIgnored(fl, cfg, xs[0]);
      assert (xs + ys)[0] == xs[0];
      assert (xs + ys)[1..] == xs[1..] + ys;
      assert ReadLines(fl, cfg, xs + ys) == ReadLines(fl, cfg, xs[1..] + ys);
      CommentsFirst(fl, cfg, xs[1..], ys);
    }
  }

  /** A line assembled from two newline-free halves. */
  lemma LineOfHalves(a: string, b: string)
    requires '\n' !in a && '\n' !in b
    ensures IsLine(a + b + "\n")
  {
    LineOf(a + b);
  }

  lemma Preamble0() ensures IsLine(Preamble[0]) {
    LineOfHalves("# Auto-generated configuration", " file for a frequency sweep.");
  }
  lemma Preamble1() ensures IsLine(Preamble[1]) {
    LineOfHalves("# Frequencies are provided in", " Hz. Feel free to change, but");
  }
  lemma Preamble2() ensures IsLine(Preamble[2]) {
    LineOfHalves("# respect the range (1 Hz - 500", " kHz) of the equipment. AC");
  }
  lemma Preamble3() ensures IsLine(Preamble[3]) {
    LineOfHalves("# voltage can be varied between", " 50 mV and 2 V. Do not change");
  }
  lemma Preamble4() ensures IsLine(Preamble[4]) {
    LineOfHalves("# the device name", " or the keywords.");
  }

  /** The preamble is five comment lines. */
  lemma PreambleIsComments()
    ensures forall i :: 0 <= i < |Preamble| ==> IsLine(Preamble[i]) && Preamble[i][0] == '#'
  {
    Preamble0(); Preamble1(); Preamble2(); Preamble3(); Preamble4();
  }

  /** A character that is neither a digit, '-', ',' nor ' ' does not occur in
      a ", "-joined list of integers. */
  lemma ShownIntsAvoid(xs: seq<int>, c: char)
    requires !IsDigit(c) && c != '-' && c != ',' && c != ' '
    ensures c !in Join(ShowInts(xs), ", ")
  {
    var shown := ShowInts(xs);
    forall i | 0 <= i < |shown| ensures c !in shown[i] {
      assert forall j :: 0 <= j < |shown[i]| ==> IsDigit(shown[i][j]) || shown[i][j] == '-';
    }
    JoinAvoids(shown, ", ", c);
  }

  /** The `device` line is one line, and the scan takes the name from it. */
  lemma ReadDeviceLine(fl: Floats, cfg: Config, d: string)
    requires Trimmed(d) && '=' !in d && '\n' !in d
    ensures IsLine(DeviceLine(d))
    ensures ReadLine(fl, cfg, DeviceLine(d)) == Success(cfg.(device := d))
  {
    LineOf("device = " + d);
    assert DeviceLine(d) == "device" + " = " + (d + "\n");
    KeyValueLine("device", d + "\n");
    StripPadded(" ", d, "\n");
    assert " " + (d + "\n") == " " + d + "\n";
  }

  /** The `freq` line is one line whose key is `freq` and whose value is the
      ", "-joined list behind a space. */
  lemma FreqLineParts(xs: seq<int>)
    ensures IsLine(FreqLine(xs))
    ensures KeyOf(FreqLine(xs)) == "freq"
    ensures ValueOf(FreqLine(xs)) == Some(" " + Join(ShowInts(xs), ", ") + "\n")
  {
    var shown := Join(ShowInts(xs), ", ");
    ShownIntsAvoid(xs, '\n');
    ShownIntsAvoid(xs, '=');
    LineOf("freq = " + shown);
    assert FreqLine(xs) == "freq" + " = " + (shown + "\n");
    KeyValueLine("freq", shown + "\n");
    assert " " + (shown + "\n") == " " + shown + "\n";
  }

  /** The `freq` line is one line, and the scan reads the list back from it. */
  lemma ReadFreqLine(fl: Floats, cfg: Config, xs: seq<int>)
    requires |xs| >= 1
    ensures IsLine(FreqLine(xs))
    ensures ReadLine(fl, cfg, FreqLine(xs)) == Success(cfg.(freqs := xs))
  {
    FreqLineParts(xs);
    ParseJoinedInts(" ", xs, "\n");
  }

  /** The `voltage` line is one line, and the scan reads it as the one-element
      list of that voltage. */
  lemma ReadVoltageLine(fl: Floats, cfg: Config, v: real)
    requires ShowsPlainly(fl, v)
    ensures IsLine(VoltageLine(fl, v))
    ensures ReadLine(fl, cfg, VoltageLine(fl, v)) == Success(cfg.(volts := [v]))
  {
    var volt := fl.show(v);
    LineOf("voltage = " + volt);
    assert VoltageLine(fl, v) == "voltage" + " = " + (volt + "\n");
    KeyValueLine("voltage", volt + "\n");
    assert " " + (volt + "\n") == " " + volt + "\n";
    SplitNone(" " + volt + "\n", ',');
    StripPadded(" ", volt, "\n");
    var pieces := [" " + volt + "\n"];
    assert ParseFloat(fl, pieces[0]) == Some(v);
    assert pieces[1..] == [];
    assert ParseFloats(fl, pieces[1..]) == Success([]);
    assert [v] + [] == [v];
    assert ParseFloats(fl, pieces) == Success([v]);
  }

  /** The `measurement` line is one line, and the scan takes the key from it. */
  lemma ReadKeyLine(fl: Floats, cfg: Config, k: string)
    requires Trimmed(k) && '=' !in k && '\n' !in k
    ensures IsLine(KeyLine(k))
    ensures ReadLine(fl, cfg, KeyLine(k)) == Success(cfg.(key := k))
  {
    LineOf("measurement = " + k);
    assert KeyLine(k) == "measurement" + " = " + (k + "\n");
    KeyValueLine("measurement", k + "\n");
    StripPadded(" ", k, "\n");
    assert " " + (k + "\n") == " " + k + "\n";
  }

  lemma DefaultKeyPlain()
    ensures Trimmed(DefaultKey) && '=' !in DefaultKey && '\n' !in DefaultKey
  {
  }

  /** The four keyword lines, scanned from the empty configuration, set all
      four fields. */
  lemma ReadBody(fl: Floats, d: string, xs: seq<int>, v: real, k: string)
    requires Trimmed(d) && '=' !in d && '\n' !in d
    requires |xs| >= 1
    requires ShowsPlainly(fl, v)
    requires Trimmed(k) && '=' !in k && '\n' !in k
    ensures forall i :: 0 <= i < 4 ==> IsLine([DeviceLine(d), FreqLine(xs), VoltageLine(fl, v), KeyLine(k)][i])
    ensures ReadLines(fl, Unset, [DeviceLine(d), FreqLine(xs), VoltageLine(fl, v), KeyLine(k)]) == Success(Config(d, xs, [v], k))
  {
    var l1, l2, l3, l4 := DeviceLine(d), FreqLine(xs), VoltageLine(fl, v), KeyLine(k);
    var c1 := Unset.(device := d);
    var c2 := c1.(freqs := xs);
    var c3 := c2.(volts := [v]);
    var c4 := c3.(key := k);
    ReadDeviceLine(fl, Unset, d);
    ReadFreqLine(fl, c1, xs);
    ReadVoltageLine(fl, c2, v);
    ReadKeyLine(fl, c3, k);
    var body := [l1, l2, l3, l4];
    assert body[1..] == [l2, l3, l4];
    assert [l2, l3, l4][1..] == [l3, l4];
    assert [l3, l4][1..] == [l4];
    assert [l4][1..] == [];
    assert ReadLines(fl, c4, []) == Success(c4);
    assert ReadLines(fl, c3, [l4]) == Success(c4);
    assert ReadLines(fl, c2, [l3, l4]) == Success(c4);
    assert ReadLines(fl, c1, [l2, l3, l4]) == Success(c4);
  }

  /** The file `write_config` writes splits back into the lines it wrote. */
  lemma ConfigLinesSplit(fl: Floats, d: string)
    requires Trimmed(d) && '=' !in d && '\n' !in d && '\r' !in d
    requires ShowsPlainly(fl, DefaultVoltage)
    ensures SplitLines(Concat(ConfigLines(fl, d))) == ConfigLines(fl, d)
  {
    var body := [DeviceLine(d), FreqLine(FreqQLogRange), VoltageLine(fl, DefaultVoltage), KeyLine(DefaultKey)];
    DefaultKeyPlain();
    ReadBody(fl, d, FreqQLogRange, DefaultVoltage, DefaultKey);
    var lines := Preamble + body;
    PreambleIsComments();
    forall i | 0 <= i < |lines| ensures IsLine(lines[i]) {
      if i < |Preamble| {
        assert lines[i] == Preamble[i];
      } else {
        assert lines[i] == body[i - |Preamble|];
      }
    }
    SplitLinesConcat(lines);
  }

  /** Round trip: the file `write_config` writes for a device name that has
      no surrounding whitespace, no '=' and no line break ('\n' or '\r', both
      of which `readlines()` splits at in text mode) reads back as that
      device with the default frequencies, the default voltage as a one-element
      list and the default key, so every field is set. */
  lemma WriteThenRead(fl: Floats, d: string)
    requires Trimmed(d) && '=' !in d && '\n' !in d && '\r' !in d
    requires ShowsPlainly(fl, DefaultVoltage)
    ensures WriteConfig(fl, Some(d)).Some?
    ensures var cfg := Config(d, FreqQLogRange, [DefaultVoltage], DefaultKey);
      ReadConfig(fl, SplitLines(WriteConfig(fl, Some(d)).value)) == Success(cfg) && Complete(cfg)
  {
    var body := [DeviceLine(d), FreqLine(FreqQLogRange), VoltageLine(fl, DefaultVoltage), KeyLine(DefaultKey)];
    DefaultKeyPlain();
    ReadBody(fl, d, FreqQLogRange, DefaultVoltage, DefaultKey);
    ConfigLinesSplit(fl, d);
    PreambleIsComments();
    CommentsFirst(fl, Unset, Preamble, body);
  }
}
