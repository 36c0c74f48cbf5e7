/** The per-device record that the stages after device matching share: the
    Python dictionary `matched[folder][device]` with its 'data' sweeps,
    'Used files', the three measurement settings written from the area
    entries, the reader's metadata, and the 'Parameters' and 'H-index' that
    the parameter extraction adds. Names are the keys of
    JV_plotter_GUI/settings.py's `parameter_dict`. */
module Records {
  import opened Wrappers
  import opened Dicts
  import opened Frames
  import DF = DeviceFilter

  /** A metadata value ('encoding', 'measurement device', 'unit'). */
  datatype Attr = Num(x: real) | Text(s: string)

  /** 'Used files': one file name or pair before merging, the de-duplicated
      list of the members' values after it. */
  datatype UsedFiles = One(file: DF.Used) | Many(files: seq<DF.Used>)

  /** A number that IEEE arithmetic may have left infinite or NaN. */
  datatype Value = Finite(x: real) | NonFinite

  /** One direction's figures of merit, keyed by their display names. */
  type Params = Dict<string, real>

  /** `None` in a field stands for a key the dictionary does not hold. */
  datatype Record = Record(
    data: Dict<string, Frame>,
    used: Option<UsedFiles>,
    area: Option<real>,
    light: Option<real>,
    distance: Option<real>,
    meta: Dict<string, Attr>,
    parameters: Option<Dict<string, Params>>,
    hIndex: Option<Value>)

  /** `matched`: folder name to device name to record. */
  type Folders = Dict<string, Dict<string, Record>>

  const AREA := "Active area (cm²)"
  const LIGHT := "Light intensity (W/cm²)"
  const DISTANCE := "Distance to light source (mm)"

  const EFFICIENCY := "Efficiency (%)"
  const JSC := "Short-circuit current density (mA/cm²)"
  const VOC := "Open circuit voltage (V)"
  const FILL_FACTOR := "Fill factor"
  const PMAX := "Maximum power (W)"
  const VMPP := "Voltage at MPP (V)"
  const JMPP := "Current density at MPP (mA/cm²)"
  const RS := "Series resistance, Rs (ohm)"
  const RSH := "Shunt resistance, Rsh (ohm)"
  const H_INDEX := "H-index"

  /** `parameter_dict` of JV_plotter_GUI/settings.py, entries 1 to 16. */
  const ParameterDict: seq<string> := [
    "Label", "Scan direction", EFFICIENCY, JSC, VOC, FILL_FACTOR, PMAX, VMPP, JMPP, RS, RSH,
    H_INDEX, AREA, LIGHT, DISTANCE, "Device order"]

  /** Entries 3 to 11: the metrics stored per sweep direction. */
  const MetricNames: seq<string> := ParameterDict[2..11]

  /** The record of a matched device before any later stage touched it. */
  function FromDevice(d: DF.Device): (r: Record)
    ensures r.data == d.data && r.used == Some(One(d.used))
    ensures r.area.None? && r.parameters.None? && r.hIndex.None?
  {
    Record(d.data, Some(One(d.used)), None, None, None, [], None, None)
  }

  /** `sum(values) / len(values)`. */
  function Sum(s: seq<real>): real
  {
    if s == [] then 0.0 else Sum(s[..|s| - 1]) + s[|s| - 1]
  }

  function Mean(s: seq<real>): real
    requires |s| > 0
  {
    Sum(s) / |s| as real
  }

  lemma MeanOfTwo(a: real, b: real)
    ensures Mean([a, b]) == (a + b) / 2.0
  {
    assert [a, b][..1] == [a];
    assert [a][..0] == [];
    assert Sum([a]) == a;
    assert Sum([a, b]) == a + b;
  }
}
