/** One measurement block of a W2CAD file as the converter holds it
    (the `W2CADMeasurement` dataclass), and the table from the `%KEY` of a
    tagged line to the field it sets (`w2cad_measurement_dictionary`). */
module W2CadMeasurement {
  import opened Wrappers

  /** The header attributes a tagged line can set. `Spd` is the one the
      dataclass does not declare: `setattr` creates it on the instance the
      first time a `%SPD` line is read. */
  datatype Field =
    | Date | Version | DetectorType | BeamType | DataType | WedgeName
    | WedgeDirection | Axis | Points | Step | Ssd | Spd | FieldSize | Depth

  /** A measurement. `spd` is None while the instance has no `SPD`
      attribute; `dataLine` holds the sample texts in the order read, axes
      still in W2CAD order. */
  datatype Measurement = Measurement(
    number: nat,
    energy: string,
    date: string,
    version: string,
    detectorType: string,
    beamType: string,
    dataType: string,
    wedgeName: string,
    wedgeDirection: string,
    axis: string,
    points: string,
    step: string,
    ssd: string,
    spd: Option<string>,
    fieldSize: string,
    depth: string,
    dataLine: seq<string>)

  /** `W2CADMeasurement(measurement_count, energy)`: every other field at its
      declared default ("0" for the wedge name and the depth, "" otherwise). */
  function NewMeasurement(number: nat, energy: string): (m: Measurement)
    ensures m.number == number && m.energy == energy && m.dataLine == []
    ensures m.wedgeName == "0" && m.depth == "0" && m.spd == None
    ensures forall f :: f !in {WedgeName, Spd, Depth} ==> GetField(m, f) == Some("")
  {
    Measurement(number, energy, "", "", "", "", "", "0", "", "", "", "", "", None, "", "0", [])
  }

  /** `w2cad_measurement_dictionary`: the key of a tagged line to the
      attribute it names. */
  const Dictionary: map<string, Field> := map[
    "%DATE" := Date,
    "%VERSION" := Version,
    "%DETY" := DetectorType,
    "%BMTY" := BeamType,
    "%TYPE" := DataType,
    "%WDGL" := WedgeName,
    "%WDGD" := WedgeDirection,
    "%AXIS" := Axis,
    "%PNTS" := Points,
    "%STEP" := Step,
    "%SSD" := Ssd,
    "%SPD" := Spd,
    "%FLSZ" := FieldSize,
    "%DPTH" := Depth
  ]

  /** `getattr(m, name)`, None for an attribute the instance lacks. */
  function GetField(m: Measurement, f: Field): Option<string> {
    match f
    case Date => Some(m.date)
    case Version => Some(m.version)
    case DetectorType => Some(m.detectorType)
    case BeamType => Some(m.beamType)
    case DataType => Some(m.dataType)
    case WedgeName => Some(m.wedgeName)
    case WedgeDirection => Some(m.wedgeDirection)
    case Axis => Some(m.axis)
    case Points => Some(m.points)
    case Step => Some(m.step)
    case Ssd => Some(m.ssd)
    case Spd => m.spd
    case FieldSize => Some(m.fieldSize)
    case Depth => Some(m.depth)
  }

  /** `setattr(m, name, value)`: the named field becomes `value`; every other
      field, the number, the energy and the samples are as they were. */
  function SetField(m: Measurement, f: Field, value: string): (m': Measurement)
    ensures GetField(m', f) == Some(value)
    ensures forall g :: g != f ==> GetField(m', g) == GetField(m, g)
    ensures m'.number == m.number && m'.energy == m.energy && m'.dataLine == m.dataLine
  {
    match f
    case Date => m.(date := value)
    case Version => m.(version := value)
    case DetectorType => m.(detectorType := value)
    case BeamType => m.(beamType := value)
    case DataType => m.(dataType := value)
    case WedgeName => m.(wedgeName := value)
    case WedgeDirection => m.(wedgeDirection := value)
    case Axis => m.(axis := value)
    case Points => m.(points := value)
    case Step => m.(step := value)
    case Ssd => m.(ssd := value)
    case Spd => m.(spd := Some(value))
    case FieldSize => m.(fieldSize := value)
    case Depth => m.(depth := value)
  }

  /** Every key of the dictionary is a '%' tag, so no marker line and no
      sample line is ever taken for a tagged line. */
  lemma DictionaryKeysAreTags()
    ensures forall k <- Dictionary :: |k| > 1 && k[0] == '%'
  {
  }
}
