/** The records the telemetry hook passes around, and the three-band severity
    classification every view of a CO2 reading uses.
 */
module Sensors {

  datatype Option<T> = None | Some(value: T)

  /** Where a reading comes from: `REAL` for the ESP32 feed and its simulated
      companion, `DUMMY` for the filler sensors. */
  datatype Kind = Real | Dummy

  /** A wall-clock instant (`new Date()`), kept opaque. */
  datatype Instant = Instant(epochMillis: int)

  /** One sensor's reading; `co2` is in ppm. */
  datatype Sensor = Sensor(id: string, co2: int, kind: Kind, lastUpdate: Instant, zone: string)

  datatype Snapshot = Snapshot(timestamp: Instant, sensors: seq<Sensor>)

  /** One chart sample: the formatted time, the rounded mean of the snapshot,
      and the two REAL series. */
  datatype HistoryPoint = HistoryPoint(time: string, avg: int, s1: int, s2: int)

  /** The display zones, assigned to sensors by position. */
  const Zones: seq<string> := ["Downtown", "Industrial", "Residential North", "Commercial", "University", "Parklands", "Harbor"]

  datatype Severity = Normal | Warning | Critical

  /** Severity order: Normal below Warning below Critical. */
  function Rank(s: Severity): nat {
    match s
    case Normal => 0
    case Warning => 1
    case Critical => 2
  }

  const WarningFrom := 420
  const CriticalAbove := 480

  /** Below 420 ppm is normal, 420..480 inclusive is a warning, above 480 is critical. */
  function Classify(co2: int): Severity {
    if co2 < WarningFrom then Normal
    else if co2 <= CriticalAbove then Warning
    else Critical
  }

  /** The hook's warning filter `co2 >= 420 && co2 <= 480`. */
  predicate IsWarningReading(s: Sensor) {
    s.co2 >= 420 && s.co2 <= 480
  }

  /** The hook's critical filter `co2 > 480`, shared by the alerts and the count. */
  predicate IsCriticalReading(s: Sensor) {
    s.co2 > 480
  }

  /** The hook's literal filters pick out exactly the Warning and Critical bands. */
  lemma FiltersMatchBands(s: Sensor)
    ensures IsWarningReading(s) <==> Classify(s.co2) == Warning
    ensures IsCriticalReading(s) <==> Classify(s.co2) == Critical
    ensures !IsWarningReading(s) && !IsCriticalReading(s) <==> Classify(s.co2) == Normal
  {
  }

  /** A higher reading never has a lower severity. */
  lemma ClassifyMonotone(a: int, b: int)
    requires a <= b
    ensures Rank(Classify(a)) <= Rank(Classify(b))
  {
  }

  /** The boundary readings: 420 and 480 are both warnings. */
  lemma ClassifyBoundaries()
    ensures Classify(419) == Normal && Classify(420) == Warning
    ensures Classify(480) == Warning && Classify(481) == Critical
  {
  }
}
