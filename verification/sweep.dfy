/** `frequency_sweep` and `amplitude_sweep` as functions of their arguments
    and of an instrument stub. The outcome records every command string
    written to or queried from the meter, in order, and either the measured
    rows or the exception that ended the sweep. */
module Sweep {
  import opened Results
  import opened Text
  import opened Numbers
  import opened Capabilities

  /** One exchange with the meter: `vi.write(text)` or `vi.query(text)`. */
  datatype Command = Write(text: string) | Query(text: string)

  /** The meter's reply to a query, given every command sent so far (the
      query itself last). */
  type Instrument = seq<Command> -> string

  /** The swept value of a row: a frequency in Hz or an amplitude in V. */
  datatype Axis = Hz(hz: int) | Volts(volts: real)

  /** One row of the returned data: `[value, float(result[0]), float(result[1])]`. */
  datatype Sample = Sample(axis: Axis, primary: real, secondary: real)

  /** The exceptions a sweep can raise. */
  datatype SweepError =
    | FrequencyOutOfRange              // "Requested frequencies/frequency may be out of range."
    | MeasurementUnavailable           // "Requested measurement is not available."
    | VoltageOutOfRange                // "Requested voltage(s) out of range."
    | NoHeader(key: string)            // KeyError from result_header, carrying the upper-cased key
    | BadNumber(field: string)         // ValueError from float(field)
    | MissingField(reply: string)      // IndexError: the reply has no second field

  datatype SweepOutcome = SweepOutcome(trace: seq<Command>, result: Result<seq<Sample>, SweepError>)

  const Fetch: Command := Query("fetch?")

  function FuncCommand(key: string): Command {
    Write("FUNC:IMP " + key)
  }

  function VoltCommand(fl: Floats, v: real): Command {
    Write("VOLT " + fl.show(v) + " V")
  }

  function FreqCommand(f: int): Command {
    Write("FREQ " + ShowInt(f) + "Hz")
  }

  /** The command that moves the meter to a sweep point. */
  function SetCommand(fl: Floats, p: Axis): Command {
    match p
    case Hz(f) => FreqCommand(f)
    case Volts(v) => VoltCommand(fl, v)
  }

  /** `result = reply.split(",")[:2]` then `float(result[0])`, `float(result[1])`:
      only the first two fields are read, and the first is converted before
      the second is looked up. */
  function DecodeReply(fl: Floats, reply: string): (r: Result<(real, real), SweepError>)
    ensures r.Success? <==>
      && |Split(reply, ',')| >= 2
      && ParseFloat(fl, Split(reply, ',')[0]).Some?
      && ParseFloat(fl, Split(reply, ',')[1]).Some?
    ensures r.Success? ==>
      && Some(r.value.0) == ParseFloat(fl, Split(reply, ',')[0])
      && Some(r.value.1) == ParseFloat(fl, Split(reply, ',')[1])
  {
    var fields := Split(reply, ',');
    var kept := if |fields| < 2 then fields else fields[..2];
    match ParseFloat(fl, kept[0])
    case None => Failure(BadNumber(kept[0]))
    case Some(a) =>
      if |kept| < 2 then Failure(MissingField(reply))
      else
        match ParseFloat(fl, kept[1])
        case None => Failure(BadNumber(kept[1]))
        case Some(b) => Success((a, b))
  }

  /** Fields after the second one never influence the decoded pair. */
  lemma DecodeIgnoresExtraFields(fl: Floats, a: string, b: string, extra: string)
    requires ',' !in a && ',' !in b
    ensures DecodeReply(fl, a + "," + b + "," + extra) == DecodeReply(fl, a + "," + b)
  {
    SplitAt(a, ',', b + "," + extra);
    assert a + "," + b + "," + extra == a + [','] + (b + "," + extra);
    SplitAt(b, ',', extra);
    assert b + "," + extra == b + [','] + extra;
    SplitAt(a, ',', b);
    assert a + "," + b == a + [','] + b;
    SplitNone(b, ',');
  }

  /** A reply without a comma never decodes. */
  lemma DecodeNeedsTwoFields(fl: Floats, reply: string)
    requires ',' !in reply
    ensures DecodeReply(fl, reply).Failure?
  {
    SplitNone(reply, ',');
  }

  /** The commands of one sweep point: set the value, then fetch. */
  function PointTrace(fl: Floats, p: Axis): seq<Command> {
    [SetCommand(fl, p), Fetch]
  }

  /** The commands for a list of sweep points when none fails. */
  function PointsTrace(fl: Floats, ps: seq<Axis>): (t: seq<Command>)
    ensures |t| == 2 * |ps|
    decreases |ps|
  {
    if ps == [] then [] else PointTrace(fl, ps[0]) + PointsTrace(fl, ps[1..])
  }

  /** The loop body of both sweeps, run over the remaining points after the
      commands `sent`. */
  function RunPoints(inst: Instrument, fl: Floats, sent: seq<Command>, ps: seq<Axis>): (o: SweepOutcome)
    ensures |sent| <= |o.trace| && o.trace[..|sent|] == sent
    ensures o.result.Success? ==> o.trace == sent + PointsTrace(fl, ps)
    ensures o.result.Success? ==>
      |o.result.value| == |ps| && forall i :: 0 <= i < |ps| ==> o.result.value[i].axis == ps[i]
    decreases |ps|
  {
    if ps == [] then SweepOutcome(sent, Success([]))
    else
      var t := sent + PointTrace(fl, ps[0]);
      match DecodeReply(fl, inst(t))
      case Failure(e) => SweepOutcome(t, Failure(e))
      case Success(pair) =>
        var rest := RunPoints(inst, fl, t, ps[1..]);
        match rest.result
        case Failure(e) => SweepOutcome(rest.trace, Failure(e))
        case Success(rows) => SweepOutcome(rest.trace, Success([Sample(ps[0], pair.0, pair.1)] + rows))
  }

  /** The reply to the `i`-th fetch, when the points before it all succeeded:
      the instrument is asked after `sent` and the first `i + 1` points' commands. */
  function ReplyAt(inst: Instrument, fl: Floats, sent: seq<Command>, ps: seq<Axis>, i: nat): string
    requires i < |ps|
  {
    inst(sent + PointsTrace(fl, ps[..i + 1]))
  }

  predicate PointOk(inst: Instrument, fl: Floats, sent: seq<Command>, ps: seq<Axis>, i: nat)
    requires i < |ps|
  {
    DecodeReply(fl, ReplyAt(inst, fl, sent, ps, i)).Success?
  }

  /** The first point at or after `from` whose reply does not decode, or `|ps|`. */
  function FirstFailure(inst: Instrument, fl: Floats, sent: seq<Command>, ps: seq<Axis>, from: nat): (k: nat)
    requires from <= |ps|
    ensures from <= k <= |ps|
    ensures forall i :: from <= i < k ==> PointOk(inst, fl, sent, ps, i)
    ensures k < |ps| ==> !PointOk(inst, fl, sent, ps, k)
    decreases |ps| - from
  {
    if from == |ps| then from
    else if !PointOk(inst, fl, sent, ps, from) then from
    else FirstFailure(inst, fl, sent, ps, from + 1)
  }

  lemma {:induction false} PointsTraceAppend(fl: Floats, xs: seq<Axis>, ys: seq<Axis>)
    ensures PointsTrace(fl, xs + ys) == PointsTrace(fl, xs) + PointsTrace(fl, ys)
    decreases |xs|
  {
    if xs == [] {
      assert xs + ys == ys;
    } else {
      assert (xs + ys)[1..] == xs[1..] + ys;
      PointsTraceAppend(fl, xs[1..], ys);
    }
  }

  /** After the first point has been polled, the remaining replies are the
      original ones shifted by one. */
  lemma ReplyShift(inst: Instrument, fl: Floats, sent: seq<Command>, ps: seq<Axis>, i: nat)
    requires i + 1 < |ps|
    ensures ReplyAt(inst, fl, sent, ps, i + 1)
         == ReplyAt(inst, fl, sent + PointTrace(fl, ps[0]), ps[1..], i)
  {
    assert ps[..i + 2] == [ps[0]] + ps[1..][..i + 1];
    PointsTraceAppend(fl, [ps[0]], ps[1..][..i + 1]);
    assert PointsTrace(fl, [ps[0]]) == PointTrace(fl, ps[0]);
    assert sent + PointsTrace(fl, ps[..i + 2])
        == (sent + PointTrace(fl, ps[0])) + PointsTrace(fl, ps[1..][..i + 1]);
  }

  /** The replies seen by the loop after its first point are the original
      replies shifted by one. */
  lemma ShiftAll(inst: Instrument, fl: Floats, sent: seq<Command>, ps: seq<Axis>)
    requires ps != []
    ensures ReplyAt(inst, fl, sent, ps, 0) == inst(sent + PointTrace(fl, ps[0]))
    ensures forall i :: 0 <= i < |ps| - 1 ==>
      ReplyAt(inst, fl, sent, ps, i + 1) == ReplyAt(inst, fl, sent + PointTrace(fl, ps[0]), ps[1..], i)
  {
    assert ps[..1] == [ps[0]];
    assert PointsTrace(fl, [ps[0]]) == PointTrace(fl, ps[0]);
    forall i | 0 <= i < |ps| - 1
      ensures ReplyAt(inst, fl, sent, ps, i + 1) == ReplyAt(inst, fl, sent + PointTrace(fl, ps[0]), ps[1..], i)
    {
      ReplyShift(inst, fl, sent, ps, i);
    }
  }

  /** The polling loop returns rows exactly when every reply decodes. */
  lemma {:induction false} RunPointsSucceedsIff(inst: Instrument, fl: Floats, sent: seq<Command>, ps: seq<Axis>)
    ensures RunPoints(inst, fl, sent, ps).result.Success?
        <==> forall i :: 0 <= i < |ps| ==> PointOk(inst, fl, sent, ps, i)
    decreases |ps|
  {
    if ps != [] {
      var t := sent + PointTrace(fl, ps[0]);
      ShiftAll(inst, fl, sent, ps);
      if PointOk(inst, fl, sent, ps, 0) {
        RunPointsSucceedsIff(inst, fl, t, ps[1..]);
        if forall i :: 0 <= i < |ps| - 1 ==> PointOk(inst, fl, t, ps[1..], i) {
          forall i | 0 <= i < |ps| ensures PointOk(inst, fl, sent, ps, i) {
            if i > 0 { assert PointOk(inst, fl, t, ps[1..], i - 1); }
          }
        } else {
          var j :| 0 <= j < |ps| - 1 && !PointOk(inst, fl, t, ps[1..], j);
          assert !PointOk(inst, fl, sent, ps, j + 1);
        }
      }
    }
  }

  /** On success, row `i` holds point `i` and the decoded reply to the `i`-th fetch. */
  lemma {:induction false} RunPointsRows(inst: Instrument, fl: Floats, sent: seq<Command>, ps: seq<Axis>)
    ensures var o := RunPoints(inst, fl, sent, ps);
      o.result.Success? ==> forall i :: 0 <= i < |ps| ==>
        var d := DecodeReply(fl, ReplyAt(inst, fl, sent, ps, i));
        d.Success? && o.result.value[i] == Sample(ps[i], d.value.0, d.value.1)
    decreases |ps|
  {
    var o := RunPoints(inst, fl, sent, ps);
    if ps != [] && o.result.Success? {
      var t := sent + PointTrace(fl, ps[0]);
      ShiftAll(inst, fl, sent, ps);
      RunPointsRows(inst, fl, t, ps[1..]);
      var rest := RunPoints(inst, fl, t, ps[1..]);
      assert o.result.value[1..] == rest.result.value;
      forall i | 0 <= i < |ps|
        ensures var d := DecodeReply(fl, ReplyAt(inst, fl, sent, ps, i));
          d.Success? && o.result.value[i] == Sample(ps[i], d.value.0, d.value.1)
      {
        if i > 0 {
          assert o.result.value[i] == rest.result.value[i - 1];
        }
      }
    }
  }

  /** An index before which every reply decodes and at which one does not
      (or the end) is the first failure. */
  lemma {:induction false} FirstFailureIs(inst: Instrument, fl: Floats, sent: seq<Command>, ps: seq<Axis>, from: nat, j: nat)
    requires from <= j <= |ps|
    requires forall i :: from <= i < j ==> PointOk(inst, fl, sent, ps, i)
    requires j < |ps| ==> !PointOk(inst, fl, sent, ps, j)
    ensures FirstFailure(inst, fl, sent, ps, from) == j
    decreases j - from
  {
    if from < j {
      FirstFailureIs(inst, fl, sent, ps, from + 1, j);
    }
  }

  /** Once the first point succeeds, the first failure is one further on
      than the first failure of the remaining points. */
  lemma FirstFailureShift(inst: Instrument, fl: Floats, sent: seq<Command>, ps: seq<Axis>)
    requires ps != [] && PointOk(inst, fl, sent, ps, 0)
    ensures FirstFailure(inst, fl, sent, ps, 0)
         == 1 + FirstFailure(inst, fl, sent + PointTrace(fl, ps[0]), ps[1..], 0)
  {
    var t := sent + PointTrace(fl, ps[0]);
    var rest := ps[1..];
    ShiftAll(inst, fl, sent, ps);
    var k' := FirstFailure(inst, fl, t, rest, 0);
    forall i | 0 <= i < k' + 1 ensures PointOk(inst, fl, sent, ps, i) {
      if i > 0 {
        assert PointOk(inst, fl, t, rest, i - 1);
      }
    }
    if k' < |rest| {
      assert !PointOk(inst, fl, t, rest, k');
    }
    FirstFailureIs(inst, fl, sent, ps, 0, k' + 1);
  }

  /** The commands of the first point followed by those of the next `k + 1`. */
  lemma TraceShift(fl: Floats, sent: seq<Command>, ps: seq<Axis>, k: nat)
    requires k + 1 < |ps|
    ensures sent + PointsTrace(fl, ps[..k + 2])
         == (sent + PointTrace(fl, ps[0])) + PointsTrace(fl, ps[1..][..k + 1])
  {
    assert ps[..k + 2] == [ps[0]] + ps[1..][..k + 1];
    PointsTraceAppend(fl, [ps[0]], ps[1..][..k + 1]);
    assert PointsTrace(fl, [ps[0]]) == PointTrace(fl, ps[0]);
  }

  /** On failure, the loop stops right after the fetch of the first point
      whose reply does not decode, raising that reply's error. */
  lemma {:induction false} RunPointsStops(inst: Instrument, fl: Floats, sent: seq<Command>, ps: seq<Axis>)
    ensures var o := RunPoints(inst, fl, sent, ps);
      o.result.Failure? ==>
        var k := FirstFailure(inst, fl, sent, ps, 0);
        && k < |ps|
        && o.trace == sent + PointsTrace(fl, ps[..k + 1])
        && o.result.error == DecodeReply(fl, ReplyAt(inst, fl, sent, ps, k)).error
    decreases |ps|
  {
    var o := RunPoints(inst, fl, sent, ps);
    if ps != [] && o.result.Failure? {
      var t := sent + PointTrace(fl, ps[0]);
      var rest := ps[1..];
      ShiftAll(inst, fl, sent, ps);
      if !PointOk(inst, fl, sent, ps, 0) {
        assert ps[..1] == [ps[0]];
        assert PointsTrace(fl, [ps[0]]) == PointTrace(fl, ps[0]);
      } else {
        RunPointsStops(inst, fl, t, rest);
        FirstFailureShift(inst, fl, sent, ps);
        var k' := FirstFailure(inst, fl, t, rest, 0);
        TraceShift(fl, sent, ps, k');
      }
    }
  }

  function HzPoints(fs: seq<int>): (ps: seq<Axis>)
    ensures |ps| == |fs| && forall i :: 0 <= i < |fs| ==> ps[i] == Hz(fs[i])
  {
    seq(|fs|, i requires 0 <= i < |fs| => Hz(fs[i]))
  }

  function VoltPoints(vs: seq<real>): (ps: seq<Axis>)
    ensures |ps| == |vs| && forall i :: 0 <= i < |vs| ==> ps[i] == Volts(vs[i])
  {
    seq(|vs|, i requires 0 <= i < |vs| => Volts(vs[i]))
  }

  /** `frequency_sweep(vi, freqs, V, key)`. The frequencies and the key are
      checked before anything is sent, but `FUNC:IMP` is already written when
      the voltage is checked, and `VOLT` when the label lookup fails. */
  function FrequencySweep(inst: Instrument, fl: Floats, freqs: seq<int>, v: real, key: string): (o: SweepOutcome)
    ensures o.trace == [] <==> !FrequenciesAvailable(freqs) || !MeasurementsAvailable(key)
    ensures !FrequenciesAvailable(freqs) ==> o.result == Failure(FrequencyOutOfRange)
    ensures FrequenciesAvailable(freqs) && !MeasurementsAvailable(key) ==>
      o.result == Failure(MeasurementUnavailable)
    ensures o.trace != [] ==> o.trace[0] == FuncCommand(key)
    ensures FrequenciesAvailable(freqs) && MeasurementsAvailable(key) && !VoltageAvailable(v) ==>
      o == SweepOutcome([FuncCommand(key)], Failure(VoltageOutOfRange))
    ensures FrequenciesAvailable(freqs) && MeasurementsAvailable(key) && VoltageAvailable(v) ==>
      |o.trace| >= 2 && o.trace[..2] == [FuncCommand(key), VoltCommand(fl, v)]
    ensures o.result.Success? ==>
      && FrequenciesAvailable(freqs) && VoltageAvailable(v) && ResultHeader(key).Some?
      && o.trace == [FuncCommand(key), VoltCommand(fl, v)] + PointsTrace(fl, HzPoints(freqs))
      && |o.result.value| == |freqs|
      && forall i :: 0 <= i < |freqs| ==> o.result.value[i].axis == Hz(freqs[i])
  {
    if !FrequenciesAvailable(freqs) then SweepOutcome([], Failure(FrequencyOutOfRange))
    else if !MeasurementsAvailable(key) then SweepOutcome([], Failure(MeasurementUnavailable))
    else
      var t1 := [FuncCommand(key)];
      if !VoltageAvailable(v) then SweepOutcome(t1, Failure(VoltageOutOfRange))
      else
        var t2 := t1 + [VoltCommand(fl, v)];
        if ResultHeader(key).None? then SweepOutcome(t2, Failure(NoHeader(Upper(key))))
        else RunPoints(inst, fl, t2, HzPoints(freqs))
  }

  /** `amplitude_sweep(vi, V, freq, key)`. `FREQ` is written as soon as the
      frequency passes, `FUNC:IMP` as soon as the key passes, and only then are
      the voltages checked; the label lookup comes after that. */
  function AmplitudeSweep(inst: Instrument, fl: Floats, vs: seq<real>, freq: int, key: string): (o: SweepOutcome)
    ensures o.trace == [] <==> !FrequenciesAvailable([freq])
    ensures !FrequenciesAvailable([freq]) ==> o.result == Failure(FrequencyOutOfRange)
    ensures o.trace != [] ==> o.trace[0] == FreqCommand(freq)
    ensures FrequenciesAvailable([freq]) && !MeasurementsAvailable(key) ==>
      o == SweepOutcome([FreqCommand(freq)], Failure(MeasurementUnavailable))
    ensures FrequenciesAvailable([freq]) && MeasurementsAvailable(key) && !VoltagesAvailable(vs) ==>
      o == SweepOutcome([FreqCommand(freq), FuncCommand(key)], Failure(VoltageOutOfRange))
    ensures o.result.Success? ==>
      && MinFrequency <= freq <= MaxFrequency && VoltagesAvailable(vs) && ResultHeader(key).Some?
      && o.trace == [FreqCommand(freq), FuncCommand(key)] + PointsTrace(fl, VoltPoints(vs))
      && |o.result.value| == |vs|
      && forall i :: 0 <= i < |vs| ==> o.result.value[i].axis == Volts(vs[i])
  {
    if !FrequenciesAvailable([freq]) then SweepOutcome([], Failure(FrequencyOutOfRange))
    else
      var t1 := [FreqCommand(freq)];
      if !MeasurementsAvailable(key) then SweepOutcome(t1, Failure(MeasurementUnavailable))
      else
        var t2 := t1 + [FuncCommand(key)];
        if !VoltagesAvailable(vs) then SweepOutcome(t2, Failure(VoltageOutOfRange))
        else if ResultHeader(key).None? then SweepOutcome(t2, Failure(NoHeader(Upper(key))))
        else RunPoints(inst, fl, t2, VoltPoints(vs))
  }

  /** With valid arguments, `frequency_sweep` configures the meter with
      `FUNC:IMP` and `VOLT`, then polls each frequency in order; it returns one
      row per frequency exactly when every reply decodes, and otherwise stops
      right after the first bad reply with that reply's error. */
  lemma FrequencySweepPolls(inst: Instrument, fl: Floats, freqs: seq<int>, v: real, key: string)
    requires FrequenciesAvailable(freqs) && VoltageAvailable(v) && ResultHeader(key).Some?
    ensures var o := FrequencySweep(inst, fl, freqs, v, key);
      var sent := [FuncCommand(key), VoltCommand(fl, v)];
      var ps := HzPoints(freqs);
      && (o.result.Success? <==> forall i :: 0 <= i < |freqs| ==> PointOk(inst, fl, sent, ps, i))
      && (o.result.Success? ==> forall i :: 0 <= i < |freqs| ==>
            var d := DecodeReply(fl, ReplyAt(inst, fl, sent, ps, i));
            d.Success? && o.result.value[i] == Sample(Hz(freqs[i]), d.value.0, d.value.1))
      && (o.result.Failure? ==>
            var k := FirstFailure(inst, fl, sent, ps, 0);
            && k < |freqs|
            && o.trace == sent + PointsTrace(fl, ps[..k + 1])
            && o.result.error == DecodeReply(fl, ReplyAt(inst, fl, sent, ps, k)).error)
  {
    var sent := [FuncCommand(key), VoltCommand(fl, v)];
    assert FrequencySweep(inst, fl, freqs, v, key) == RunPoints(inst, fl, sent, HzPoints(freqs)) by {
      HeaderDefinedIff(key);
    }
    RunPointsSucceedsIff(inst, fl, sent, HzPoints(freqs));
    RunPointsRows(inst, fl, sent, HzPoints(freqs));
    RunPointsStops(inst, fl, sent, HzPoints(freqs));
  }

  /** With valid arguments, `amplitude_sweep` sets `FREQ` and `FUNC:IMP`, then
      polls each amplitude in order, with the same success and failure shape. */
  lemma AmplitudeSweepPolls(inst: Instrument, fl: Floats, vs: seq<real>, freq: int, key: string)
    requires MinFrequency <= freq <= MaxFrequency && VoltagesAvailable(vs) && ResultHeader(key).Some?
    ensures var o := AmplitudeSweep(inst, fl, vs, freq, key);
      var sent := [FreqCommand(freq), FuncCommand(key)];
      var ps := VoltPoints(vs);
      && (o.result.Success? <==> forall i :: 0 <= i < |vs| ==> PointOk(inst, fl, sent, ps, i))
      && (o.result.Success? ==> forall i :: 0 <= i < |vs| ==>
            var d := DecodeReply(fl, ReplyAt(inst, fl, sent, ps, i));
            d.Success? && o.result.value[i] == Sample(Volts(vs[i]), d.value.0, d.value.1))
      && (o.result.Failure? ==>
            var k := FirstFailure(inst, fl, sent, ps, 0);
            && k < |vs|
            && o.trace == sent + PointsTrace(fl, ps[..k + 1])
            && o.result.error == DecodeReply(fl, ReplyAt(inst, fl, sent, ps, k)).error)
  {
    var sent := [FreqCommand(freq), FuncCommand(key)];
    assert AmplitudeSweep(inst, fl, vs, freq, key) == RunPoints(inst, fl, sent, VoltPoints(vs)) by {
      HeaderDefinedIff(key);
      assert FrequenciesAvailable([freq]);
      assert MeasurementsAvailable(key);
      assert [FreqCommand(freq)] + [FuncCommand(key)] == sent;
    }
    RunPointsSucceedsIff(inst, fl, sent, VoltPoints(vs));
    RunPointsRows(inst, fl, sent, VoltPoints(vs));
    RunPointsStops(inst, fl, sent, VoltPoints(vs));
  }

  /** "RX" passes `measurements_available` but has no labels: with otherwise
      valid arguments, both sweeps configure the meter partly and then raise
      `KeyError` for "RX" before the first point. */
  lemma RxSweepsFail(inst: Instrument, fl: Floats, freqs: seq<int>, vs: seq<real>, v: real, freq: int, key: string)
    requires Upper(key) == "RX"
    requires FrequenciesAvailable(freqs) && VoltageAvailable(v)
    requires MinFrequency <= freq <= MaxFrequency && VoltagesAvailable(vs)
    ensures FrequencySweep(inst, fl, freqs, v, key)
         == SweepOutcome([FuncCommand(key), VoltCommand(fl, v)], Failure(NoHeader("RX")))
    ensures AmplitudeSweep(inst, fl, vs, freq, key)
         == SweepOutcome([FreqCommand(freq), FuncCommand(key)], Failure(NoHeader("RX")))
  {
    HeaderDefinedIff(key);
    assert "RX" == Codes[14];
  }

  /** A reply `a,b` whose two fields convert decodes to that pair. */
  lemma DecodePair(fl: Floats, a: string, b: string, x: real, y: real)
    requires ',' !in a && ',' !in b
    requires ParseFloat(fl, a) == Some(x) && ParseFloat(fl, b) == Some(y)
    ensures DecodeReply(fl, a + "," + b) == Success((x, y))
  {
    assert a + "," + b == a + [','] + b;
    SplitAt(a, ',', b);
    SplitNone(b, ',');
  }

  /** A meter that answers every fetch with the same reply `a,b` makes
      `frequency_sweep` return, for valid arguments, one row per frequency in
      order, each holding that pair. */
  lemma SteadyMeterFrequencySweep(inst: Instrument, fl: Floats, freqs: seq<int>, v: real, key: string,
                                  a: string, b: string, x: real, y: real)
    requires forall t :: inst(t) == a + "," + b
    requires ',' !in a && ',' !in b
    requires ParseFloat(fl, a) == Some(x) && ParseFloat(fl, b) == Some(y)
    requires FrequenciesAvailable(freqs) && VoltageAvailable(v) && ResultHeader(key).Some?
    ensures FrequencySweep(inst, fl, freqs, v, key).result.Success?
    ensures var rows := FrequencySweep(inst, fl, freqs, v, key).result.value;
      |rows| == |freqs| && forall i :: 0 <= i < |freqs| ==> rows[i] == Sample(Hz(freqs[i]), x, y)
  {
    DecodePair(fl, a, b, x, y);
    FrequencySweepPolls(inst, fl, freqs, v, key);
    var sent := [FuncCommand(key), VoltCommand(fl, v)];
    var ps := HzPoints(freqs);
    forall i | 0 <= i < |freqs| ensures PointOk(inst, fl, sent, ps, i) {
      assert ReplyAt(inst, fl, sent, ps, i) == a + "," + b;
    }
  }
}
