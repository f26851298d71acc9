/** One poll tick of the sensor hook as a pure state transition, and the
    invariants every reachable state keeps.
 */
module Poll {
  import opened JsMath
  import opened Sensors
  import Adapter
  import Generator
  import Composer
  import History
  import Derived
  import Filtering

  /** The hook's state: the walk's previous S2 value (the ref), the latest
      snapshot, the chart history and the alert messages. */
  datatype State = State(prevS2: int, data: Option<Snapshot>, history: seq<HistoryPoint>, alerts: seq<string>)

  /** The `Math.random()` results of one tick, in call order: the walk's draw,
      then one per filler. */
  datatype RawDraws = RawDraws(walk: Unit, fillers: seq<Unit>)
  type Draws = d: RawDraws | |d.fillers| == Composer.FillerCount
    witness RawDraws(0.0, [0.0, 0.0, 0.0, 0.0, 0.0])

  /** Everything a tick consumes from the outside world: the backend reply,
      the random draws, the clock and the formatted time label. */
  datatype TickInput = TickInput(reply: Adapter.Reply, draws: Draws, now: Instant, timeLabel: string)

  /** Before the first tick: the walk starts at 395, nothing else is known. */
  function Init(): State {
    State(Generator.InitialCompanion, None, [], [])
  }

  /** The filler readings of one tick, one per draw, each within [350, 520]. */
  function FillerValues(fillers: seq<Unit>): (vs: seq<int>)
    ensures |vs| == |fillers|
    ensures forall k :: 0 <= k < |vs| ==> vs[k] == Generator.NextFiller(fillers[k])
    ensures forall k :: 0 <= k < |vs| ==> Generator.InBand(vs[k])
  {
    seq(|fillers|, k requires 0 <= k < |fillers| => Generator.NextFiller(fillers[k]))
  }

  /** The fillers are independent: filler `k` depends on draw `k` alone, so
      two ticks whose `k`-th draws agree show the same `k`-th filler whatever
      the other draws were. */
  lemma FillerUsesOwnDraw(a: seq<Unit>, b: seq<Unit>, k: nat)
    requires |a| == |b| && k < |a| && a[k] == b[k]
    ensures FillerValues(a)[k] == FillerValues(b)[k]
  {
  }

  /** `fetchData`: S1 from the reply, S2 by the walk, S3..S7 from the draws;
      the snapshot replaces the previous one, its mean and the two REAL values
      are appended to the history, and the alerts are recomputed. */
  function Tick(st: State, input: TickInput): State {
    var esp32 := Adapter.ExternalReading(input.reply);
    var r2 := Generator.NextCompanion(st.prevS2, input.draws.walk);
    var snap := Composer.Compose(esp32, r2, FillerValues(input.draws.fillers), input.now);
    var point := HistoryPoint(input.timeLabel, Derived.Mean(snap.sensors), esp32, r2);
    State(r2, Some(snap), History.Append(st.history, point), Derived.DeriveAlerts(snap.sensors))
  }

  /** What a tick produces: a well-formed snapshot whose S1 is the adapter's
      value, whose S2 is the walk's step from the previous value (kept as the
      next previous value, within [350, 520]) and whose fillers come from
      their draws; a history extended by the point carrying S1, S2 and the
      same mean as `avgCO2`; and as many alerts as `criticalCount`. */
  lemma TickFacts(st: State, input: TickInput)
    ensures Tick(st, input).data.Some? && Composer.WellFormed(Tick(st, input).data.value)
    ensures Tick(st, input).prevS2 == Tick(st, input).data.value.sensors[1].co2
    ensures Tick(st, input).prevS2 == Generator.NextCompanion(st.prevS2, input.draws.walk)
    ensures Generator.InBand(Tick(st, input).prevS2)
    ensures Tick(st, input).data.value.sensors[0].co2 == Adapter.ExternalReading(input.reply)
    ensures forall i :: 2 <= i < Composer.SensorCount ==>
              Tick(st, input).data.value.sensors[i].co2 == Generator.NextFiller(input.draws.fillers[i - 2])
    ensures Tick(st, input).history == History.Append(st.history, NewPoint(st, input))
    ensures Tick(st, input).alerts == Derived.DeriveAlerts(Tick(st, input).data.value.sensors)
    ensures |Tick(st, input).alerts| == Derived.CriticalCount(Tick(st, input).data)
  {
    TickSnapshot(st, input);
    TickRecords(st, input);
    var fills := FillerValues(input.draws.fillers);
    var snap := Tick(st, input).data.value;
    forall i | 2 <= i < Composer.SensorCount
      ensures snap.sensors[i].co2 == Generator.NextFiller(input.draws.fillers[i - 2])
    {
      assert snap.sensors[(i - 2) + 2].co2 == fills[i - 2];
    }
  }

  /** The snapshot a tick composes, from the adapter's value, the walk's
      step and the fillers. */
  lemma TickSnapshot(st: State, input: TickInput)
    ensures Tick(st, input).prevS2 == Generator.NextCompanion(st.prevS2, input.draws.walk)
    ensures Tick(st, input).data == Some(Composer.Compose(Adapter.ExternalReading(input.reply),
              Tick(st, input).prevS2, FillerValues(input.draws.fillers), input.now))
  {
  }

  /** The history and alerts part of `TickFacts`. */
  lemma TickRecords(st: State, input: TickInput)
    ensures Tick(st, input).data.Some?
    ensures Tick(st, input).history == History.Append(st.history, NewPoint(st, input))
    ensures Tick(st, input).alerts == Derived.DeriveAlerts(Tick(st, input).data.value.sensors)
    ensures |Tick(st, input).alerts| == Derived.CriticalCount(Tick(st, input).data)
  {
    var snap := Tick(st, input).data.value;
    assert Derived.Mean(snap.sensors) == Derived.AvgCO2(Some(snap));
    Filtering.FilterAtPositions(snap.sensors, IsCriticalReading);
  }

  /** The point a tick charts: its time label, the snapshot's `avgCO2`, and
      the S1 and S2 readings. */
  function NewPoint(st: State, input: TickInput): HistoryPoint {
    var r := Tick(st, input);
    HistoryPoint(input.timeLabel, Derived.AvgCO2(r.data), r.data.value.sensors[0].co2, r.prevS2)
  }

  /** Ticks applied in order. */
  function Run(st: State, inputs: seq<TickInput>): State
    decreases |inputs|
  {
    if inputs == [] then st else Run(Tick(st, inputs[0]), inputs[1..])
  }

  /** What holds of the hook's state at every moment. */
  predicate Valid(st: State) {
    && Generator.InBand(st.prevS2)
    && |st.history| <= History.Capacity
    && (forall pt :: pt in st.history ==> Generator.InBand(pt.s2))
    && (st.data.None? ==> st.history == [] && st.alerts == [])
    && (st.data.Some? ==>
          && Composer.WellFormed(st.data.value)
          && st.data.value.sensors[1].co2 == st.prevS2
          && |st.history| > 0
          && History.Last(st.history).s1 == st.data.value.sensors[0].co2
          && History.Last(st.history).s2 == st.prevS2
          && History.Last(st.history).avg == Derived.AvgCO2(st.data)
          && st.alerts == Derived.DeriveAlerts(st.data.value.sensors)
          && |st.alerts| == Derived.CriticalCount(st.data))
  }

  lemma InitValid()
    ensures Valid(Init())
  {
  }

  /** A tick keeps the state valid. */
  lemma TickValid(st: State, input: TickInput)
    requires Valid(st)
    ensures Valid(Tick(st, input))
  {
    TickFacts(st, input);
    History.AppendShape(st.history, NewPoint(st, input));
  }

  /** Over any number of ticks from the start the state stays valid: the
      history never exceeds 50 points, S2 and every charted S2 stay within
      [350, 520], and the alerts are always the CRITICAL messages for the current
      snapshot. */
  lemma {:induction false} RunValid(st: State, inputs: seq<TickInput>)
    requires Valid(st)
    ensures Valid(Run(st, inputs))
    decreases |inputs|
  {
    if inputs != [] {
      TickValid(st, inputs[0]);
      RunValid(Tick(st, inputs[0]), inputs[1..]);
    }
  }

  /** The history after a run holds the last min(|old| + n, 50) points. */
  lemma {:induction false} RunHistory(st: State, inputs: seq<TickInput>)
    requires |st.history| <= History.Capacity
    ensures |Run(st, inputs).history| == History.MinNat(|st.history| + |inputs|, History.Capacity)
    decreases |inputs|
  {
    if inputs != [] {
      var next := Tick(st, inputs[0]);
      TickHistoryLength(st, inputs[0]);
      RunHistory(next, inputs[1..]);
      RunStep(st, inputs);
      History.MinNatStep(|st.history|, |inputs| - 1, History.Capacity);
    }
  }

  /** One tick adds one point to the history, up to 50. */
  lemma TickHistoryLength(st: State, input: TickInput)
    ensures |Tick(st, input).history| == History.MinNat(|st.history| + 1, History.Capacity)
  {
    TickFacts(st, input);
    History.AppendShape(st.history, NewPoint(st, input));
  }

  /** The walk draws of a run of ticks, in order. */
  function WalkDraws(inputs: seq<TickInput>): (us: seq<Unit>)
    ensures |us| == |inputs|
    ensures forall k :: 0 <= k < |inputs| ==> us[k] == inputs[k].draws.walk
  {
    if inputs == [] then [] else [inputs[0].draws.walk] + WalkDraws(inputs[1..])
  }

  /** Unfolding one tick of a run. */
  lemma RunStep(st: State, inputs: seq<TickInput>)
    requires |inputs| > 0
    ensures Run(st, inputs) == Run(Tick(st, inputs[0]), inputs[1..])
  {
  }

  /** Across ticks S2 follows the random walk: after a run, S2 is the last
      value of the walk driven by the ticks' walk draws from the starting
      previous value. */
  lemma {:induction false} RunFollowsWalk(st: State, inputs: seq<TickInput>)
    requires |inputs| > 0
    ensures Run(st, inputs).prevS2 == History.Last(Generator.Walk(st.prevS2, WalkDraws(inputs)))
    decreases |inputs|
  {
    var st1 := Tick(st, inputs[0]);
    var us := WalkDraws(inputs);
    TickFacts(st, inputs[0]);
    assert st1.prevS2 == Generator.NextCompanion(st.prevS2, us[0]);
    RunStep(st, inputs);
    Generator.WalkLastStep(st.prevS2, us);
    if |inputs| == 1 {
      assert inputs[1..] == [];
      assert Run(st1, inputs[1..]) == st1;
    } else {
      assert us[1..] == WalkDraws(inputs[1..]);
      RunFollowsWalk(st1, inputs[1..]);
    }
  }
}

/** Worked scenarios of the poll tick on concrete inputs. */
module PollScenarios {
  import opened JsMath
  import opened Sensors
  import opened Poll
  import Adapter
  import Generator
  import Derived
  import Filtering
  import Composer
  import Numerals

  /** The relay reports 550; the walk moves S2 from 395 to 400; the fillers
      come out as 360, 500, 490, 350 and 480. The mean is 447, three sensors
      are critical (550, 500, 490), one is a warning (480), the three alerts
      name S1, S4 and S5 in that order, and the first history point is
      (447, 550, 400). */
  lemma EndToEnd(input: TickInput)
    requires input.reply == Adapter.JsonObject(Adapter.Num(550))
    requires input.draws.walk == 0.96
    requires input.draws.fillers == [10.0 / 170.0, 150.0 / 170.0, 140.0 / 170.0, 0.0, 130.0 / 170.0]
    ensures var r := Tick(Init(), input);
            && r.prevS2 == 400
            && Derived.AvgCO2(r.data) == 447
            && Derived.CriticalCount(r.data) == 3
            && Derived.WarningCount(r.data) == 1
            && r.alerts == ["S1 (ESP32) (Downtown): 550 ppm \U{2014} CRITICAL",
                            "S4 (Commercial): 500 ppm \U{2014} CRITICAL",
                            "S5 (University): 490 ppm \U{2014} CRITICAL"]
            && r.history == [HistoryPoint(input.timeLabel, 447, 550, 400)]
  {
    var fillers := input.draws.fillers;
    assert Adapter.ExternalReading(input.reply) == 550;
    assert Generator.NextCompanion(395, 0.96) == 400;
    assert Generator.NextFiller(fillers[0]) == 360;
    assert Generator.NextFiller(fillers[1]) == 500;
    assert Generator.NextFiller(fillers[2]) == 490;
    assert Generator.NextFiller(fillers[3]) == 350;
    assert Generator.NextFiller(fillers[4]) == 480;
    TickFacts(Init(), input);
    var r := Tick(Init(), input);
    var s := r.data.value.sensors;
    assert s[0].co2 == 550 && s[1].co2 == 400;
    assert s[2].co2 == 360 && s[3].co2 == 500 && s[4].co2 == 490;
    assert s[5].co2 == 350 && s[6].co2 == 480;
    ScenarioFigures(s);
    assert s[0].id == Composer.SensorIds[0] && s[0].zone == Zones[0];
    assert s[3].id == Composer.SensorIds[3] && s[3].zone == Zones[3];
    assert s[4].id == Composer.SensorIds[4] && s[4].zone == Zones[4];
    ScenarioAlerts(s);
  }

  /** The scenario's alerts: S1, S4 and S5, each spelled as line 58 writes it. */
  lemma ScenarioAlerts(s: seq<Sensor>)
    requires |s| == 7
    requires s[0].co2 == 550 && s[1].co2 == 400 && s[2].co2 == 360 && s[3].co2 == 500
    requires s[4].co2 == 490 && s[5].co2 == 350 && s[6].co2 == 480
    requires s[0].id == "S1 (ESP32)" && s[3].id == "S4" && s[4].id == "S5"
    requires s[0].zone == "Downtown" && s[3].zone == "Commercial" && s[4].zone == "University"
    ensures Derived.DeriveAlerts(s) == ["S1 (ESP32) (Downtown): 550 ppm \U{2014} CRITICAL",
                                        "S4 (Commercial): 500 ppm \U{2014} CRITICAL",
                                        "S5 (University): 490 ppm \U{2014} CRITICAL"]
  {
    ScenarioCriticalSensors(s);
    ThreeAlerts(s, s[0], s[3], s[4]);
    ScenarioFigureText(550);
    ScenarioFigureText(500);
    ScenarioFigureText(490);
    SpellS1Alert();
    SpellS4Alert();
    SpellS5Alert();
    ScenarioAlertText(s[0], "S1 (ESP32)", "Downtown", "550", "S1 (ESP32) (Downtown): 550 ppm \U{2014} CRITICAL");
    ScenarioAlertText(s[3], "S4", "Commercial", "500", "S4 (Commercial): 500 ppm \U{2014} CRITICAL");
    ScenarioAlertText(s[4], "S5", "University", "490", "S5 (University): 490 ppm \U{2014} CRITICAL");
  }

  /** Three critical sensors give three alerts, in their order. */
  lemma ThreeAlerts(s: seq<Sensor>, a: Sensor, b: Sensor, c: Sensor)
    requires Derived.CriticalSensors(s) == [a, b, c]
    ensures Derived.DeriveAlerts(s) == [Derived.AlertText(a), Derived.AlertText(b), Derived.AlertText(c)]
  {
    var alerts := Derived.DeriveAlerts(s);
    AlertAt(s, 0);
    AlertAt(s, 1);
    AlertAt(s, 2);
    ThreeElements(alerts, Derived.AlertText(a), Derived.AlertText(b), Derived.AlertText(c));
  }

  lemma ThreeElements<T>(xs: seq<T>, a: T, b: T, c: T)
    requires |xs| == 3 && xs[0] == a && xs[1] == b && xs[2] == c
    ensures xs == [a, b, c]
  {
  }

  /** Alert `k` is the message of the `k`-th critical sensor. */
  lemma AlertAt(s: seq<Sensor>, k: nat)
    requires k < |Derived.CriticalSensors(s)|
    ensures |Derived.DeriveAlerts(s)| == |Derived.CriticalSensors(s)|
    ensures Derived.DeriveAlerts(s)[k] == Derived.AlertText(Derived.CriticalSensors(s)[k])
  {
  }

  /** The parts of each message put together give its literal text. */
  lemma SpellS1Alert()
    ensures "S1 (ESP32)" + " (" + "Downtown" + "): " + "550" + Derived.CriticalSuffix
            == "S1 (ESP32) (Downtown): 550 ppm \U{2014} CRITICAL"
  {
  }

  lemma SpellS4Alert()
    ensures "S4" + " (" + "Commercial" + "): " + "500" + Derived.CriticalSuffix
            == "S4 (Commercial): 500 ppm \U{2014} CRITICAL"
  {
  }

  lemma SpellS5Alert()
    ensures "S5" + " (" + "University" + "): " + "490" + Derived.CriticalSuffix
            == "S5 (University): 490 ppm \U{2014} CRITICAL"
  {
  }

  /** One scenario alert, spelled out. */
  lemma ScenarioAlertText(s: Sensor, id: string, zone: string, figure: string, text: string)
    requires s.id == id && s.zone == zone && Numerals.IntText(s.co2) == figure
    requires text == id + " (" + zone + "): " + figure + Derived.CriticalSuffix
    ensures Derived.AlertText(s) == text
  {
  }

  lemma ScenarioCriticalSensors(s: seq<Sensor>)
    requires |s| == 7
    requires s[0].co2 == 550 && s[1].co2 == 400 && s[2].co2 == 360 && s[3].co2 == 500
    requires s[4].co2 == 490 && s[5].co2 == 350 && s[6].co2 == 480
    ensures Derived.CriticalSensors(s) == [s[0], s[3], s[4]]
  {
    var p := IsCriticalReading;
    ScenarioCriticalPrefix(s);
    Filtering.FilterPrefixStep(s, p, 5);
    Filtering.FilterPrefixStep(s, p, 6);
    assert s[..7] == s;
  }

  lemma ScenarioCriticalPrefix(s: seq<Sensor>)
    requires |s| == 7
    requires s[0].co2 == 550 && s[1].co2 == 400 && s[2].co2 == 360 && s[3].co2 == 500
    requires s[4].co2 == 490
    ensures Filtering.Filter(s[..5], IsCriticalReading) == [s[0], s[3], s[4]]
  {
    var p := IsCriticalReading;
    ScenarioCriticalHead(s);
    Filtering.FilterPrefixStep(s, p, 3);
    Filtering.FilterPrefixStep(s, p, 4);
  }

  lemma ScenarioCriticalHead(s: seq<Sensor>)
    requires |s| == 7
    requires s[0].co2 == 550 && s[1].co2 == 400 && s[2].co2 == 360
    ensures Filtering.Filter(s[..3], IsCriticalReading) == [s[0]]
  {
    var p := IsCriticalReading;
    assert s[..0] == [];
    Filtering.FilterPrefixStep(s, p, 0);
    Filtering.FilterPrefixStep(s, p, 1);
    Filtering.FilterPrefixStep(s, p, 2);
  }

  /** The three-digit readings of the scenario are written digit by digit. */
  lemma ScenarioFigureText(n: nat)
    requires n == 550 || n == 500 || n == 490
    ensures n == 550 ==> Numerals.IntText(n) == "550"
    ensures n == 500 ==> Numerals.IntText(n) == "500"
    ensures n == 490 ==> Numerals.IntText(n) == "490"
  {
    assert Numerals.DecimalText(n / 100) == [Numerals.DigitChar(n / 100)];
    assert Numerals.DecimalText(n / 10) == [Numerals.DigitChar(n / 100), Numerals.DigitChar(n / 10 % 10)];
  }

  /** The figures of the scenario snapshot, from its seven readings. */
  lemma ScenarioFigures(s: seq<Sensor>)
    requires |s| == 7
    requires s[0].co2 == 550 && s[1].co2 == 400 && s[2].co2 == 360 && s[3].co2 == 500
    requires s[4].co2 == 490 && s[5].co2 == 350 && s[6].co2 == 480
    ensures Derived.Mean(s) == 447
    ensures |Filtering.Filter(s, IsCriticalReading)| == 3
    ensures |Filtering.Filter(s, IsWarningReading)| == 1
  {
    ScenarioMean(s);
    ScenarioCritical(s);
    ScenarioWarning(s);
  }

  lemma ScenarioMean(s: seq<Sensor>)
    requires |s| == 7
    requires s[0].co2 == 550 && s[1].co2 == 400 && s[2].co2 == 360 && s[3].co2 == 500
    requires s[4].co2 == 490 && s[5].co2 == 350 && s[6].co2 == 480
    ensures Derived.Mean(s) == 447
  {
    assert s[..0] == [];
    Derived.SumPrefixStep(s, 0);
    Derived.SumPrefixStep(s, 1);
    Derived.SumPrefixStep(s, 2);
    Derived.SumPrefixStep(s, 3);
    Derived.SumPrefixStep(s, 4);
    Derived.SumPrefixStep(s, 5);
    Derived.SumPrefixStep(s, 6);
    assert s[..7] == s;
    assert Derived.Sum(s) == 3130;
    assert 3130.0 / 7.0 + 0.5 == 3133.5 / 7.0;
  }

  lemma ScenarioCritical(s: seq<Sensor>)
    requires |s| == 7
    requires s[0].co2 == 550 && s[1].co2 == 400 && s[2].co2 == 360 && s[3].co2 == 500
    requires s[4].co2 == 490 && s[5].co2 == 350 && s[6].co2 == 480
    ensures |Filtering.Filter(s, IsCriticalReading)| == 3
  {
    assert s[..0] == [];
    Filtering.CountPrefixStep(s, IsCriticalReading, 0);
    Filtering.CountPrefixStep(s, IsCriticalReading, 1);
    Filtering.CountPrefixStep(s, IsCriticalReading, 2);
    Filtering.CountPrefixStep(s, IsCriticalReading, 3);
    Filtering.CountPrefixStep(s, IsCriticalReading, 4);
    Filtering.CountPrefixStep(s, IsCriticalReading, 5);
    Filtering.CountPrefixStep(s, IsCriticalReading, 6);
    assert s[..7] == s;
    Filtering.FilterLength(s, IsCriticalReading);
  }

  lemma ScenarioWarning(s: seq<Sensor>)
    requires |s| == 7
    requires s[0].co2 == 550 && s[1].co2 == 400 && s[2].co2 == 360 && s[3].co2 == 500
    requires s[4].co2 == 490 && s[5].co2 == 350 && s[6].co2 == 480
    ensures |Filtering.Filter(s, IsWarningReading)| == 1
  {
    assert s[..0] == [];
    Filtering.CountPrefixStep(s, IsWarningReading, 0);
    Filtering.CountPrefixStep(s, IsWarningReading, 1);
    Filtering.CountPrefixStep(s, IsWarningReading, 2);
    Filtering.CountPrefixStep(s, IsWarningReading, 3);
    Filtering.CountPrefixStep(s, IsWarningReading, 4);
    Filtering.CountPrefixStep(s, IsWarningReading, 5);
    Filtering.CountPrefixStep(s, IsWarningReading, 6);
    assert s[..7] == s;
    Filtering.FilterLength(s, IsWarningReading);
  }
}
