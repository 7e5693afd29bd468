/** The depth sensor of dbus-dcp-tank: decoding of the calibration registers
    read once at start-up, and conversion of the raw level register into a
    fill percentage and a remaining volume. The Modbus transport is not
    modelled: every register read is an input, either a failure or the
    16-bit value the sensor returned. */
module DepthSensor {
  import opened Wrappers

  /** A 16-bit holding register value. */
  type Word = x: int | 0 <= x < 0x1_0000

  /** Outcome of one `read_holding_registers` call for a single register. */
  datatype RegisterRead = Failed | Ok(value: Word)

  /** Register value the sensor uses for "no valid reading". */
  const NoDataSentinel: Word := 65534

  /** Fixed geometry of the tank: depth in metres, cross-section in m². */
  const DefaultTankDepth: real := 5.0
  const DefaultTankArea: real := 1.0

  // ---------------------------------------------------------------------
  // Calibration tables
  // ---------------------------------------------------------------------

  /** Measurement unit register (0x0002) codes and their names. */
  const UnitTable: map<Word, string> := map[
    0x0000 := "MPa",
    0x0001 := "kPa",
    0x0002 := "Pa",
    0x0003 := "bar",
    0x0004 := "mbar",
    0x0005 := "kg/cm\U{00B2}",
    0x0006 := "psi",
    0x0007 := "mH\U{2082}O",
    0x0008 := "mmH\U{2082}O",
    0x0009 := "\U{00B0}C",
    0x000A := "cmH\U{2082}O"
  ]

  const UnknownUnit: string := "Unknown Unit"

  /** Scaling factor register (0x0003) codes and the factor each selects. */
  const ScalingTable: map<Word, real> := map[
    0x0000 := 1.0,
    0x0001 := 0.1,
    0x0002 := 0.01,
    0x0003 := 0.001
  ]

  /** 10 to the power n, the reference for the scaling table: code n means
      "the register counts in units of 10^-n". */
  function Pow10(n: nat): real
  {
    if n == 0 then 1.0 else 10.0 * Pow10(n - 1)
  }

  /** Unit name for a unit code, with the "Unknown Unit" fallback. */
  function UnitName(code: Word): (name: string)
    ensures code <= 0x000A <==> name != UnknownUnit
    ensures code <= 0x000A ==> name == UnitTable[code]
  {
    if code in UnitTable then UnitTable[code] else UnknownUnit
  }

  /** Reverse lookup of a unit name; partner of UnitName. */
  function UnitCode(name: string): (code: Option<Word>)
  {
    if exists c: Word | c <= 0x000A :: UnitTable[c] == name
    then Some(var c: Word :| c <= 0x000A && UnitTable[c] == name; c)
    else None
  }

  /** Scaling factor for a scaling code, with the fallback 1. */
  function ScalingFactor(code: Word): (sf: real)
    ensures 0.0 < sf <= 1.0
    ensures code <= 3 ==> sf * Pow10(code) == 1.0
    ensures code > 3 ==> sf == 1.0
  {
    if code in ScalingTable then ScalingTable[code] else 1.0
  }

  // ---------------------------------------------------------------------
  // Start-up calibration (DepthSensor.__init__)
  // ---------------------------------------------------------------------

  /** What start-up learns: the unit name (a local of the constructor that is
      never used) and the scaling factor attribute, which is absent unless
      every read it depends on succeeded. */
  datatype Calibration = Calibration(unit: Option<string>, scalingFactor: Option<real>)

  /** The sensor object after construction. */
  datatype Sensor = Sensor(tankDepth: real, tankArea: real, scalingFactor: Option<real>)

  /** The register reads of the constructor: the unit register is read only
      after a successful connect, the scaling register only after a
      successful unit read; an input for a read that is not made is
      ignored. */
  function Calibrate(connected: bool, unitRead: RegisterRead, scalingRead: RegisterRead): (c: Calibration)
    ensures c.unit.Some? <==> connected && unitRead.Ok?
    ensures c.unit.Some? ==> c.unit.value == UnitName(unitRead.value)
    ensures c.scalingFactor.Some? <==> connected && unitRead.Ok? && scalingRead.Ok?
    ensures c.scalingFactor.Some? ==> c.scalingFactor.value == ScalingFactor(scalingRead.value)
  {
    if !connected then Calibration(None, None)
    else match unitRead
      case Failed => Calibration(None, None)
      case Ok(unitValue) =>
        var currentUnit := UnitName(unitValue);
        match scalingRead
        case Failed => Calibration(Some(currentUnit), None)
        case Ok(scalingValue) => Calibration(Some(currentUnit), Some(ScalingFactor(scalingValue)))
  }

  /** DepthSensor.__init__: fixed geometry plus the calibrated factor. */
  function NewSensor(connected: bool, unitRead: RegisterRead, scalingRead: RegisterRead): (s: Sensor)
    ensures s.tankDepth == DefaultTankDepth && s.tankArea == DefaultTankArea
    ensures s.scalingFactor == Calibrate(connected, unitRead, scalingRead).scalingFactor
  {
    Sensor(DefaultTankDepth, DefaultTankArea, Calibrate(connected, unitRead, scalingRead).scalingFactor)
  }

  // ---------------------------------------------------------------------
  // Level conversion (DepthSensor.get_level)
  // ---------------------------------------------------------------------

  /** Result of get_level: `None` for the sentinel, the pair (percentage,
      remaining volume) with error flag False, or the error triple
      (-1, -1, True). */
  datatype LevelResult = NoData | Reading(pct: real, rem: real) | ReadError

  /** The scaling factor is used only for a successful, non-sentinel read;
      with the attribute missing that path raises. */
  predicate CanConvert(s: Sensor, read: RegisterRead)
  {
    s.tankDepth != 0.0 && (read.Ok? && read.value != NoDataSentinel ==> s.scalingFactor.Some?)
  }

  function GetLevel(s: Sensor, read: RegisterRead): (r: LevelResult)
    requires CanConvert(s, read)
    ensures r.ReadError? <==> read.Failed?
    ensures r.NoData? <==> read == Ok(NoDataSentinel)
    ensures r.Reading? ==> r.pct * s.tankDepth == read.value as real * s.scalingFactor.value * 100.0
    ensures r.Reading? ==> r.rem == s.tankArea * (s.tankDepth - read.value as real * s.scalingFactor.value)
  {
    match read
    case Failed => ReadError
    case Ok(rawValue) =>
      if rawValue == NoDataSentinel then NoData
      else
        var level := rawValue as real * s.scalingFactor.value;
        var levelPercentage := (level / s.tankDepth) * 100.0;
        var totalVolume := s.tankArea * s.tankDepth;
        var currentVolume := level * s.tankArea;
        var remainingVolume := totalVolume - currentVolume;
        Reading(levelPercentage, remainingVolume * 1.0)
  }

  // ---------------------------------------------------------------------
  // Properties
  // ---------------------------------------------------------------------

  /** Every unit code in the table is recovered from its name: the table
      has no two codes with the same name. */
  lemma UnitNameRoundTrip(code: Word)
    requires code <= 0x000A
    ensures UnitCode(UnitName(code)) == Some(code)
  {
  }

  /** An unknown name has no code. */
  lemma UnknownUnitHasNoCode()
    ensures UnitCode(UnknownUnit) == None
  {
  }

  /** The four scaling codes mean 1, 0.1, 0.01 and 0.001. */
  lemma ScalingCodes()
    ensures ScalingFactor(0) == 1.0 && ScalingFactor(1) == 0.1
    ensures ScalingFactor(2) == 0.01 && ScalingFactor(3) == 0.001
  {
  }

  /** A calibrated factor is always one of the table's values (the
      fallback 1 among them). */
  lemma CalibratedFactorInTable(connected: bool, unitRead: RegisterRead, scalingRead: RegisterRead)
    ensures var sf := NewSensor(connected, unitRead, scalingRead).scalingFactor;
      sf.Some? ==> sf.value in {1.0, 0.1, 0.01, 0.001}
  {
  }

  /** The remaining volume is the part of the full volume that the fill
      percentage leaves: rem = area * depth * (1 - pct / 100). */
  lemma RemainingFromPercent(s: Sensor, read: RegisterRead)
    requires CanConvert(s, read)
    ensures var r := GetLevel(s, read);
      r.Reading? ==> r.rem == s.tankArea * s.tankDepth * (1.0 - r.pct / 100.0)
  {
    var r := GetLevel(s, read);
    if r.Reading? {
      var level := read.value as real * s.scalingFactor.value;
      assert r.pct == level / s.tankDepth * 100.0;
      calc {
        s.tankArea * s.tankDepth * (1.0 - r.pct / 100.0);
        s.tankArea * s.tankDepth * (1.0 - level / s.tankDepth);
        s.tankArea * (s.tankDepth - s.tankDepth * (level / s.tankDepth));
        { assert s.tankDepth * (level / s.tankDepth) == level; }
        s.tankArea * (s.tankDepth - level);
      }
    }
  }

  /** The level rises with the raw register and the remaining volume falls
      (positive factor, depth and area). */
  lemma LevelMonotone(s: Sensor, raw1: Word, raw2: Word)
    requires s.tankDepth > 0.0 && s.tankArea > 0.0
    requires s.scalingFactor.Some? && s.scalingFactor.value > 0.0
    requires raw1 != NoDataSentinel && raw2 != NoDataSentinel && raw1 <= raw2
    ensures var r1, r2 := GetLevel(s, Ok(raw1)), GetLevel(s, Ok(raw2));
      r1.Reading? && r2.Reading? && r1.pct <= r2.pct && r1.rem >= r2.rem
  {
    var sf := s.scalingFactor.value;
    var r1, r2 := GetLevel(s, Ok(raw1)), GetLevel(s, Ok(raw2));
    var l1, l2 := raw1 as real * sf, raw2 as real * sf;
    assert l1 <= l2 by {
      assert l2 - l1 == (raw2 - raw1) as real * sf;
    }
    assert r1.pct <= r2.pct by {
      assert r2.pct - r1.pct == (l2 - l1) / s.tankDepth * 100.0;
    }
    assert r1.rem >= r2.rem by {
      assert r1.rem - r2.rem == s.tankArea * (l2 - l1);
    }
  }

  /** An empty tank: raw 0 gives 0 % and the full volume, 5.0 m³ with the
      fixed geometry. */
  lemma EmptyTank(connected: bool, unitRead: RegisterRead, scalingRead: RegisterRead)
    requires NewSensor(connected, unitRead, scalingRead).scalingFactor.Some?
    ensures GetLevel(NewSensor(connected, unitRead, scalingRead), Ok(0)) == Reading(0.0, 5.0)
  {
  }

  /** Raw 100 with factor 0.01 (code 2) is a level of 1 m: 20 % and 4 m³
      left; raw 500 with the same factor is the full depth of 5 m. */
  lemma WorkedExample()
    ensures GetLevel(NewSensor(true, Ok(0x0007), Ok(2)), Ok(100)) == Reading(20.0, 4.0)
    ensures GetLevel(NewSensor(true, Ok(0x0007), Ok(2)), Ok(500)) == Reading(100.0, 0.0)
  {
  }

  /** With the fixed geometry a reading lies on the line rem = 5 - pct / 20
      and, since the calibrated factor is positive, has pct >= 0. */
  lemma DefaultReadingOnLine(connected: bool, unitRead: RegisterRead, scalingRead: RegisterRead,
                                               read: RegisterRead)
    requires CanConvert(NewSensor(connected, unitRead, scalingRead), read)
    ensures var r := GetLevel(NewSensor(connected, unitRead, scalingRead), read);
      r.Reading? ==> OnDefaultLine(r.pct, r.rem)
  {
    var s := NewSensor(connected, unitRead, scalingRead);
    if GetLevel(s, read).Reading? {
      CalibratedFactorInTable(connected, unitRead, scalingRead);
      RemainingFromPercent(s, read);
    }
  }

  /** The readings the fixed-geometry sensor can produce. */
  predicate OnDefaultLine(pct: real, rem: real)
  {
    pct >= 0.0 && rem == DefaultTankArea * DefaultTankDepth * (1.0 - pct / 100.0)
  }
}
