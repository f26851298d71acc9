/** How two pages colour CO2 figures, compared with the hook's severity bands. */
module Views {
  import opened Sensors

  /** The three status tones the pages use. */
  datatype Tone = Success | Caution | Destructive

  /** The tone a severity band is shown in. */
  function BandTone(band: Severity): Tone {
    match band
    case Normal => Success
    case Warning => Caution
    case Critical => Destructive
  }

  /** The Dashboard's "Avg CO2 Level" card as written: destructive above 480,
      warning above 420, success otherwise. */
  function DashboardAvgToneAsWritten(avg: int): Tone {
    if avg > 480 then Destructive else if avg > 420 then Caution else Success
  }

  /** At exactly 420 ppm the card shows success although the hook counts a
      reading of 420 among the warnings. */
  lemma DashboardAvgToneDiverges()
    ensures DashboardAvgToneAsWritten(420) == Success
    ensures Classify(420) == Warning
    ensures IsWarningReading(Sensor("S1 (ESP32)", 420, Real, Instant(0), "Downtown"))
  {
  }

  /** 420 is the only reading on which the card and the bands disagree. */
  lemma DashboardAvgToneOnlyDivergesAt420(avg: int)
    ensures DashboardAvgToneAsWritten(avg) != BandTone(Classify(avg)) <==> avg == 420
  {
  }

  /** The card's tone with the hook's own bands: success exactly below 420,
      warning exactly on the hook's warning filter, destructive exactly on
      its critical filter. */
  function DashboardAvgTone(avg: int): (t: Tone)
    ensures t == Success <==> avg < 420
    ensures t == Caution <==> avg >= 420 && avg <= 480
    ensures t == Destructive <==> avg > 480
  {
    BandTone(Classify(avg))
  }

  /** The status class of a forecast on the Emission Analysis page. */
  function ForecastStatus(value: int): Tone {
    if value < 420 then Success else if value <= 480 then Caution else Destructive
  }

  /** The forecast page uses exactly the hook's bands. */
  lemma ForecastStatusMatchesBands(value: int)
    ensures ForecastStatus(value) == BandTone(Classify(value))
    ensures ForecastStatus(value) == DashboardAvgTone(value)
  {
  }
}
