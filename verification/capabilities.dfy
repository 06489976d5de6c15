/** The BK894 measurement functions the driver accepts, the column labels
    it prints for each, the range checks on frequencies and voltages, and
    the process-wide defaults. */
module Capabilities {
  import opened Results
  import opened Text

  /** `FREQ_QLOG_RANGE`: the default frequency list, in Hz. */
  const FreqQLogRange: seq<int> :=
    [100, 200, 500, 1000, 2000, 5000, 10000, 20000, 50000, 100000, 200000, 500000]

  /** `V_LIN_RANGE`: the default amplitude list, in V. */
  const VLinRange: seq<real> := [0.2, 0.4, 0.6, 0.8, 1.0, 1.2, 1.4, 1.6, 1.8, 2.0]

  const DefaultFrequency: int := 1000
  const DefaultVoltage: real := 0.5
  const DefaultKey: string := "ZTD"

  /** Frequency limits in Hz, both inclusive (`limits=[1, 5E5]`). */
  const MinFrequency: int := 1
  const MaxFrequency: int := 500000

  /** The twenty measurement codes `measurements_available` accepts, in source order. */
  const Codes: seq<string> :=
    ["CPD", "CPQ", "CPG", "CPRP", "CSD", "CSQ", "CSRS",
     "LPQ", "LPD", "LPG", "LPRP", "LSD", "LSQ", "LSRS",
     "RX", "ZTD", "ZTR", "GB", "YTD", "YTR"]

  /** The pair of column labels printed for a measurement. */
  datatype Labels = Labels(primary: string, secondary: string)

  /** The table inside `result_header`. It has nineteen entries: "RX" is missing. */
  const Headers: map<string, Labels> := map[
    "CPD" := Labels("Cp [F]", "Dissip. [-]"),
    "CPQ" := Labels("Cp [F]", "Quality [-]"),
    "CPG" := Labels("Cp [F]", "Cond. [S]"),
    "CPRP" := Labels("Cp [F]", "Resis. [Ohm]"),
    "CSD" := Labels("Cp [F]", "Dissip. [-]"),
    "CSQ" := Labels("Cp [F]", "Quality [-]"),
    "CSRS" := Labels("Cp [F]", "Resis. [Ohm]"),
    "LPD" := Labels("Lp [H]", "Dissip. [-]"),
    "LPQ" := Labels("Lp [H]", "Quality [-]"),
    "LPG" := Labels("Lp [H]", "Cond. [S]"),
    "LPRP" := Labels("Lp [H]", "Resis. [Ohm]"),
    "LSD" := Labels("Lp [H]", "Dissip. [-]"),
    "LSQ" := Labels("Lp [H]", "Quality [-]"),
    "LSRS" := Labels("Lp [H]", "Resis. [Ohm]"),
    "ZTD" := Labels("Z [Ohm]", "Theta [Deg]"),
    "ZTR" := Labels("Z [Ohm]", "Theta [Rad]"),
    "GB" := Labels("Z [Ohm]", "Theta [Deg]"),
    "YTD" := Labels("Z [Ohm]", "Theta [Deg]"),
    "YTR" := Labels("Z [Ohm]", "Theta [Deg]")]

  /** The labels the table uses in its first and second columns. */
  const PrimaryLabels: set<string> := {"Cp [F]", "Lp [H]", "Z [Ohm]"}
  const SecondaryLabels: set<string> :=
    {"Dissip. [-]", "Quality [-]", "Cond. [S]", "Resis. [Ohm]", "Theta [Deg]", "Theta [Rad]"}

  lemma LabelsInColumns()
    ensures forall k :: k in Headers ==> Headers[k].primary in PrimaryLabels && Headers[k].secondary in SecondaryLabels
  {
  }

  /** First pass of `frequencies_available`: every value reaches the lower limit. */
  function AllAtLeast(fs: seq<int>, lo: int): (r: bool)
    ensures r <==> forall i :: 0 <= i < |fs| ==> lo <= fs[i]
    decreases |fs|
  {
    fs == [] || (fs[0] >= lo && AllAtLeast(fs[1..], lo))
  }

  /** Second pass of `frequencies_available`: no value exceeds the upper limit. */
  function AllAtMost(fs: seq<int>, hi: int): (r: bool)
    ensures r <==> forall i :: 0 <= i < |fs| ==> fs[i] <= hi
    decreases |fs|
  {
    fs == [] || (fs[0] <= hi && AllAtMost(fs[1..], hi))
  }

  /** `frequencies_available(freqs)`: true exactly when every frequency lies in
      the closed interval [1, 500000] Hz; vacuously true for no frequencies. */
  function FrequenciesAvailable(fs: seq<int>): (r: bool)
    ensures r <==> forall i :: 0 <= i < |fs| ==> MinFrequency <= fs[i] <= MaxFrequency
  {
    AllAtLeast(fs, MinFrequency) && AllAtMost(fs, MaxFrequency)
  }

  /** The amplitude check written inline in both sweeps: `0.0 < v <= 2.0`. */
  predicate VoltageAvailable(v: real) {
    0.0 < v <= 2.0
  }

  /** `all([0.0 < v <= 2.0 for v in V])` in `amplitude_sweep`. */
  function VoltagesAvailable(vs: seq<real>): (r: bool)
    ensures r <==> forall i :: 0 <= i < |vs| ==> VoltageAvailable(vs[i])
    decreases |vs|
  {
    vs == [] || (VoltageAvailable(vs[0]) && VoltagesAvailable(vs[1..]))
  }

  /** `measurements_available(key)`: the upper-cased key is one of the codes. */
  function MeasurementsAvailable(key: string): bool {
    Upper(key) in Codes
  }

  /** `result_header(key)`: the labels of the upper-cased key; None where
      Python raises `KeyError`. Among the keys `measurements_available`
      accepts, exactly those that upper-case to "RX" have no labels. */
  function ResultHeader(key: string): (r: Option<Labels>)
    ensures r.Some? <==> MeasurementsAvailable(key) && Upper(key) != "RX"
    ensures r.Some? ==> r.value == Headers[Upper(key)]
  {
    HeaderKeys();
    if Upper(key) in Headers then Some(Headers[Upper(key)]) else None
  }

  /** A code is a non-empty string of upper-case ASCII letters. */
  predicate UpperWord(c: string) {
    c != [] && forall i :: 0 <= i < |c| ==> 'A' <= c[i] <= 'Z'
  }

  /** `k` spells `c` letter by letter up to case: each character is the
      upper-case letter itself, its lower-case form, or U+017F for 'S'. */
  predicate CaseVariant(k: string, c: string) {
    |k| == |c| &&
    forall i :: 0 <= i < |k| ==>
      k[i] == c[i] || k[i] == LowerChar(c[i]) || (c[i] == 'S' && k[i] == '\U{017F}')
  }

  function LowerChar(c: char): char {
    if 'A' <= c <= 'Z' then (c as int + 32) as char else c
  }

  lemma UpperCharIs(x: char, c: char)
    requires 'A' <= c <= 'Z'
    ensures UpperChar(x) == c <==> x == c || x == LowerChar(c) || (c == 'S' && x == '\U{017F}')
  {
  }

  /** For a measurement code, `k.upper()` gives the code exactly when `k` is a
      case variant of it. */
  lemma UpperIsCaseVariant(k: string, c: string)
    requires c in Codes
    ensures Upper(k) == c <==> CaseVariant(k, c)
  {
    CodesAreUpperWords();
    assert UpperWord(c);
    if CaseVariant(k, c) {
      forall i | 0 <= i < |k| ensures Upper(k)[i] == c[i] {
        UpperCharIs(k[i], c[i]);
      }
    }
    if Upper(k) == c {
      forall i | 0 <= i < |k|
        ensures k[i] == c[i] || k[i] == LowerChar(c[i]) || (c[i] == 'S' && k[i] == '\U{017F}')
      {
        UpperCharIs(k[i], c[i]);
      }
    }
  }

  lemma CodesAreUpperWords()
    ensures forall j :: 0 <= j < |Codes| ==> UpperWord(Codes[j])
  {
  }

  /** A key is available exactly when it spells one of the twenty codes in any
      mix of upper and lower case. */
  lemma AvailableIffCaseVariant(key: string)
    ensures MeasurementsAvailable(key) <==> exists j :: 0 <= j < |Codes| && CaseVariant(key, Codes[j])
  {
    forall j | 0 <= j < |Codes| ensures Upper(key) == Codes[j] <==> CaseVariant(key, Codes[j]) {
      UpperIsCaseVariant(key, Codes[j]);
    }
  }

  /** The label table covers every accepted code except "RX", and nothing else. */
  lemma HeaderKeys()
    ensures forall j :: 0 <= j < |Codes| ==> (Codes[j] in Headers <==> Codes[j] != "RX")
    ensures forall k :: k in Headers ==> k in Codes
  {
  }

  /** `result_header` answers exactly for the available keys other than "RX"
      (in any case); for "RX" validation passes but the lookup raises. */
  lemma HeaderDefinedIff(key: string)
    ensures ResultHeader(key).Some? <==> MeasurementsAvailable(key) && Upper(key) != "RX"
  {
    HeaderKeys();
  }

  /** The defaults the command line falls back on pass every range check a
      sweep makes. */
  lemma DefaultsAvailable()
    ensures FrequenciesAvailable(FreqQLogRange) && FrequenciesAvailable([DefaultFrequency])
    ensures VoltagesAvailable(VLinRange) && VoltageAvailable(DefaultVoltage)
  {
  }

  /** The default key is accepted and prints as impedance and phase in degrees. */
  lemma DefaultKeyHeader()
    ensures MeasurementsAvailable(DefaultKey)
    ensures ResultHeader(DefaultKey) == Some(Labels("Z [Ohm]", "Theta [Deg]"))
  {
    assert Upper(DefaultKey) == "ZTD";
    assert "ZTD" == Codes[15];
    assert Headers["ZTD"] == Labels("Z [Ohm]", "Theta [Deg]");
  }
}
