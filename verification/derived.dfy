/** What the hook derives from a snapshot: the rounded mean, the warning and
    critical counts, and one alert message per critical sensor.
 */
module Derived {
  import opened JsMath
  import opened Numerals
  import opened Sensors
  import opened Filtering

  /** `sensors.reduce((s, x) => s + x.co2, 0)`. */
  function Sum(sensors: seq<Sensor>): int {
    if sensors == [] then 0 else Sum(sensors[..|sensors| - 1]) + sensors[|sensors| - 1].co2
  }

  lemma SumPrefixStep(sensors: seq<Sensor>, k: nat)
    requires k < |sensors|
    ensures Sum(sensors[..k + 1]) == Sum(sensors[..k]) + sensors[k].co2
  {
    assert sensors[..k + 1][..k] == sensors[..k];
  }

  /** `Math.round(sum / sensors.length)`. */
  function Mean(sensors: seq<Sensor>): (m: int)
    requires |sensors| > 0
    ensures Sum(sensors) as real / |sensors| as real - 0.5 < m as real <= Sum(sensors) as real / |sensors| as real + 0.5
  {
    Round(Sum(sensors) as real / |sensors| as real)
  }

  /** Every reading within [lo, hi] puts the sum within [lo * n, hi * n]. */
  lemma {:induction false} SumBounds(sensors: seq<Sensor>, lo: int, hi: int)
    requires forall i :: 0 <= i < |sensors| ==> lo <= sensors[i].co2 <= hi
    ensures lo * |sensors| <= Sum(sensors) <= hi * |sensors|
  {
    if sensors != [] {
      var front := sensors[..|sensors| - 1];
      assert forall i :: 0 <= i < |front| ==> front[i] == sensors[i];
      SumBounds(front, lo, hi);
      assert lo * |sensors| == lo * |front| + lo;
      assert hi * |sensors| == hi * |front| + hi;
    }
  }

  /** The rounded mean lies between any lower and upper bound of the readings,
      in particular between the smallest and the largest reading. */
  lemma MeanBetween(sensors: seq<Sensor>, lo: int, hi: int)
    requires |sensors| > 0
    requires forall i :: 0 <= i < |sensors| ==> lo <= sensors[i].co2 <= hi
    ensures lo <= Mean(sensors) <= hi
  {
    SumBounds(sensors, lo, hi);
    var n := |sensors| as real;
    assert lo as real * n <= Sum(sensors) as real <= hi as real * n;
    QuotientBetween(Sum(sensors) as real, n, lo as real, hi as real);
    RoundWithin(Sum(sensors) as real / n, lo, hi);
  }

  lemma QuotientBetween(a: real, n: real, lo: real, hi: real)
    requires n > 0.0 && lo * n <= a <= hi * n
    ensures lo <= a / n <= hi
  {
  }

  /** `avgCO2`: the rounded mean of the current snapshot, 0 before the first. */
  function AvgCO2(data: Option<Snapshot>): (avg: int)
    requires data.Some? ==> |data.value.sensors| > 0
    ensures data.None? ==> avg == 0
    ensures data.Some? ==> avg == Mean(data.value.sensors)
    ensures data.Some? ==> MinCo2(data.value.sensors) <= avg <= MaxCo2(data.value.sensors)
  {
    match data
    case None => 0
    case Some(snap) =>
      MeanBetween(snap.sensors, MinCo2(snap.sensors), MaxCo2(snap.sensors));
      Mean(snap.sensors)
  }

  /** The smallest reading, and it is one of them. */
  function MinCo2(sensors: seq<Sensor>): (m: int)
    requires |sensors| > 0
    ensures forall i :: 0 <= i < |sensors| ==> m <= sensors[i].co2
    ensures exists i :: 0 <= i < |sensors| && sensors[i].co2 == m
  {
    if |sensors| == 1 then sensors[0].co2
    else
      var m' := MinCo2(sensors[1..]);
      assert forall i :: 1 <= i < |sensors| ==> sensors[1..][i - 1] == sensors[i];
      if sensors[0].co2 <= m' then sensors[0].co2 else m'
  }

  /** The largest reading, and it is one of them. */
  function MaxCo2(sensors: seq<Sensor>): (m: int)
    requires |sensors| > 0
    ensures forall i :: 0 <= i < |sensors| ==> sensors[i].co2 <= m
    ensures exists i :: 0 <= i < |sensors| && sensors[i].co2 == m
  {
    if |sensors| == 1 then sensors[0].co2
    else
      var m' := MaxCo2(sensors[1..]);
      assert forall i :: 1 <= i < |sensors| ==> sensors[1..][i - 1] == sensors[i];
      if sensors[0].co2 >= m' then sensors[0].co2 else m'
  }

  /** The sensors the hook lists as critical (`co2 > 480`), in sensor order. */
  function CriticalSensors(sensors: seq<Sensor>): seq<Sensor> {
    Filter(sensors, IsCriticalReading)
  }

  /** `warningCount`: readings with `co2 >= 420 && co2 <= 480`, 0 before the
      first snapshot. */
  function WarningCount(data: Option<Snapshot>): (n: nat)
    ensures data.None? ==> n == 0
    ensures data.Some? ==> n <= |data.value.sensors|
  {
    match data
    case None => 0
    case Some(snap) => |Filter(snap.sensors, IsWarningReading)|
  }

  /** `criticalCount`: readings with `co2 > 480`, 0 before the first snapshot. */
  function CriticalCount(data: Option<Snapshot>): (n: nat)
    ensures data.None? ==> n == 0
    ensures data.Some? ==> n <= |data.value.sensors|
  {
    match data
    case None => 0
    case Some(snap) => |CriticalSensors(snap.sensors)|
  }

  /** Membership in one severity band, as a filter predicate. */
  function HasSeverity(band: Severity): Sensor -> bool {
    (s: Sensor) => Classify(s.co2) == band
  }

  /** How many readings `Classify` puts into `band`. */
  function BandCount(sensors: seq<Sensor>, band: Severity): nat {
    |Filter(sensors, HasSeverity(band))|
  }

  /** The three bands partition the readings: every reading is counted in
      exactly one of them. */
  lemma {:induction false} BandsPartition(sensors: seq<Sensor>)
    ensures BandCount(sensors, Normal) + BandCount(sensors, Warning) + BandCount(sensors, Critical) == |sensors|
  {
    if sensors != [] {
      BandsPartition(sensors[..|sensors| - 1]);
    }
  }

  /** The hook's two counts are the Warning and Critical band counts; with
      the Normal band they add up to the number of sensors, and before the
      first snapshot both are 0. */
  lemma CountsAreBands(data: Option<Snapshot>)
    ensures data.None? ==> WarningCount(data) == 0 && CriticalCount(data) == 0
    ensures data.Some? ==> WarningCount(data) == BandCount(data.value.sensors, Warning)
    ensures data.Some? ==> CriticalCount(data) == BandCount(data.value.sensors, Critical)
    ensures data.Some? ==>
      BandCount(data.value.sensors, Normal) + WarningCount(data) + CriticalCount(data) == |data.value.sensors|
  {
    if data.Some? {
      var s := data.value.sensors;
      forall i | 0 <= i < |s|
        ensures IsWarningReading(s[i]) == HasSeverity(Warning)(s[i])
        ensures IsCriticalReading(s[i]) == HasSeverity(Critical)(s[i])
      {
        FiltersMatchBands(s[i]);
      }
      FilterAgree(s, IsWarningReading, HasSeverity(Warning));
      FilterAgree(s, IsCriticalReading, HasSeverity(Critical));
      BandsPartition(s);
    }
  }

  /** The end of every alert message. */
  const CriticalSuffix := " ppm \U{2014} CRITICAL"

  /** `${id} (${zone}): ${co2} ppm — CRITICAL`: the message starts with the
      sensor's id, its zone in parentheses and a colon, then the reading as a
      decimal integer without leading zeros, and ends with the CRITICAL suffix. */
  function AlertText(s: Sensor): (msg: string)
    ensures |msg| > |s.id| + |s.zone| + 5 + |CriticalSuffix|
    ensures msg[..|s.id|] == s.id
    ensures msg[|s.id|..|s.id| + 2] == " (" && msg[|s.id| + 2..|s.id| + 2 + |s.zone|] == s.zone
    ensures msg[|s.id| + 2 + |s.zone|..|s.id| + 5 + |s.zone|] == "): "
    ensures msg[|msg| - |CriticalSuffix|..] == CriticalSuffix
    ensures var figure := msg[|s.id| + 5 + |s.zone|..|msg| - |CriticalSuffix|];
            IsIntText(figure) && IntValue(figure) == s.co2
    ensures var figure := msg[|s.id| + 5 + |s.zone|..|msg| - |CriticalSuffix|];
            (figure[0] != '0' || |figure| == 1) && (figure[0] == '-' ==> figure[1] != '0')
  {
    var figure := IntText(s.co2);
    MessageParts(s.id, s.zone, figure);
    s.id + " (" + s.zone + "): " + figure + CriticalSuffix
  }

  /** Where the id, the zone, the figure and the suffix sit in a message. */
  lemma MessageParts(id: string, zone: string, figure: string)
    ensures var msg := id + " (" + zone + "): " + figure + CriticalSuffix;
            && |msg| == |id| + |zone| + 5 + |figure| + |CriticalSuffix|
            && msg[..|id|] == id
            && msg[|id|..|id| + 2] == " (" && msg[|id| + 2..|id| + 2 + |zone|] == zone
            && msg[|id| + 2 + |zone|..|id| + 5 + |zone|] == "): "
            && msg[|msg| - |CriticalSuffix|..] == CriticalSuffix
            && msg[|id| + 5 + |zone|..|msg| - |CriticalSuffix|] == figure
  {
    var msg := id + " (" + zone + "): " + figure + CriticalSuffix;
    assert msg[|id| + 5 + |zone|..|msg| - |CriticalSuffix|] == figure;
  }

  /** `alerts`: one message per critical sensor, in sensor order. Alert `k`
      is the message for the sensor at the `k`-th position above 480 ppm. */
  function DeriveAlerts(sensors: seq<Sensor>): (alerts: seq<string>)
    ensures |alerts| == |Positions(sensors, IsCriticalReading)|
    ensures forall k :: 0 <= k < |alerts| ==>
              alerts[k] == AlertText(sensors[Positions(sensors, IsCriticalReading)[k]])
  {
    var crit := CriticalSensors(sensors);
    FilterAtPositions(sensors, IsCriticalReading);
    seq(|crit|, k requires 0 <= k < |crit| => AlertText(crit[k]))
  }

  /** The alerts name exactly the critical sensors, in order: there are as
      many as the Critical band counts, every sensor above 480 ppm has its
      message among them, every message is about a sensor above 480 ppm, and
      their order is the sensors' order. */
  lemma AlertsMatchCritical(sensors: seq<Sensor>)
    ensures |DeriveAlerts(sensors)| == BandCount(sensors, Critical)
    ensures forall i :: 0 <= i < |sensors| && sensors[i].co2 > 480 ==>
      AlertText(sensors[i]) in DeriveAlerts(sensors)
    ensures forall m :: m in DeriveAlerts(sensors) ==>
      exists i :: 0 <= i < |sensors| && sensors[i].co2 > 480 && m == AlertText(sensors[i])
    ensures forall k, l :: 0 <= k < l < |DeriveAlerts(sensors)| ==>
      Positions(sensors, IsCriticalReading)[k] < Positions(sensors, IsCriticalReading)[l]
  {
    assert |DeriveAlerts(sensors)| == BandCount(sensors, Critical) by {
      FilterAtPositions(sensors, IsCriticalReading);
      CountsAreBands(Some(Snapshot(Instant(0), sensors)));
    }
  }
}
