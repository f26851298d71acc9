/** Assembly of one tick's seven-sensor snapshot: S1 carries the ESP32
    reading, S2 the walk, S3..S7 the fillers, each zoned by position.
 */
module Composer {
  import opened Numerals
  import opened Sensors

  const SensorCount := 7
  const FillerCount := 5

  /** The sensor ids by position: the two REAL sensors are named after their
      source, the fillers are `S${i + 3}` for filler `i`. */
  const SensorIds: seq<string> := ["S1 (ESP32)", "S2 (SIM)", "S3", "S4", "S5", "S6", "S7"]

  /** The filler ids are the template `S${k + 3}` for filler `k`. */
  lemma FillerIdsFollowTemplate(k: nat)
    requires k < FillerCount
    ensures SensorIds[k + 2] == "S" + DecimalText(k + 3)
  {
  }

  /** Within a snapshot the ids are pairwise distinct. */
  lemma SensorIdsDistinct(i: nat, j: nat)
    requires i < SensorCount && j < SensorCount && i != j
    ensures SensorIds[i] != SensorIds[j]
  {
  }

  /** A filler id reads back as its sensor's 1-based number. */
  lemma FillerIdNumber(i: nat)
    requires 2 <= i < SensorCount
    ensures SensorIds[i][0] == 'S' && AllDigits(SensorIds[i][1..])
    ensures DecimalValue(SensorIds[i][1..]) == i + 1
  {
    FillerIdsFollowTemplate(i - 2);
    assert SensorIds[i][1..] == DecimalText(i + 1);
    DecimalRoundTrip(i + 1);
  }

  /** The shape every snapshot the tick builds has. */
  predicate WellFormed(snap: Snapshot) {
    && |snap.sensors| == SensorCount
    && (forall i :: 0 <= i < SensorCount ==> snap.sensors[i].id == SensorIds[i])
    && (forall i :: 0 <= i < SensorCount ==> snap.sensors[i].zone == Zones[i])
    && (forall i :: 0 <= i < SensorCount ==> (snap.sensors[i].kind == Real <==> i < 2))
  }

  /** The snapshot for one tick; all readings share the tick's instant. */
  function Compose(esp32: int, companion: int, fillers: seq<int>, now: Instant): (snap: Snapshot)
    requires |fillers| == FillerCount
    ensures WellFormed(snap)
    ensures snap.sensors[0].co2 == esp32 && snap.sensors[1].co2 == companion
    ensures forall k :: 0 <= k < FillerCount ==> snap.sensors[k + 2].co2 == fillers[k]
    ensures snap.timestamp == now
    ensures forall i :: 0 <= i < SensorCount ==> snap.sensors[i].lastUpdate == now
  {
    Snapshot(now, [Sensor(SensorIds[0], esp32, Real, now, Zones[0]),
                   Sensor(SensorIds[1], companion, Real, now, Zones[1]),
                   Filler(0, fillers[0], now),
                   Filler(1, fillers[1], now),
                   Filler(2, fillers[2], now),
                   Filler(3, fillers[3], now),
                   Filler(4, fillers[4], now)])
  }

  /** The `k`-th filler sensor (0-based), sitting at position `k + 2`. */
  function Filler(k: nat, co2: int, now: Instant): Sensor
    requires k < FillerCount
  {
    Sensor(SensorIds[k + 2], co2, Dummy, now, Zones[k + 2])
  }
}
