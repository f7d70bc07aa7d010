/**
 The tyre-strategy decision for one forecast row: a track-temperature
 estimate, a three-way track condition, and the tyre (and colour) that follow.
 */
module Strategy {
  import opened Forecast

  datatype Condition = Dry | Damp | Wet
  datatype Tyre = Soft | MedHard | SlicksInter | InterWet
  datatype Colour = Green | Orange | Red

  /** The decision for one row: the condition and tyre that appear in the
      table, the colour the program computes alongside them (and never
      displays), and the unrounded track-temperature estimate. */
  datatype Advice = Advice(cond: Condition, tyre: Tyre, colour: Colour, trackTemp: real)

  /** Precipitation strictly below this (but non-zero) is damp; at or above it, wet. */
  const DampLimit: real := 0.2
  /** A dry track colder than this calls for the soft compound. */
  const SoftLimit: real := 15.0

  function TyreLabel(t: Tyre): string {
    match t
    case Soft => "SOFT"
    case MedHard => "MED/HARD"
    case SlicksInter => "SLICKS/INTER"
    case InterWet => "INTER/WET"
  }

  function Max(a: real, b: real): real {
    if a >= b then a else b
  }

  /** Wind cools the track by a tenth of a degree per km/h. */
  function WindCooling(r: Row): real {
    r.windSpd * 0.1
  }

  /** On a rainless row the sun heats the track by up to 10 degrees, less the
      mean low/mid cloud cover; any precipitation turns the term to -2. */
  function SunHeating(r: Row): real {
    if r.precip == 0.0 then (100.0 - (r.low + r.mid) / 2.0) / 10.0 else -2.0
  }

  /** Estimated track temperature. Negative sun heating is clamped to zero,
      so the estimate never drops below air temperature minus wind cooling,
      and on any row with precipitation it is exactly that. */
  function TrackTemp(r: Row): (t: real)
    ensures t >= r.temp - WindCooling(r)
    ensures r.precip != 0.0 ==> t == r.temp - WindCooling(r)
  {
    r.temp + Max(0.0, SunHeating(r)) - WindCooling(r)
  }

  /** The three precipitation bands. */
  predicate DryBand(precip: real) { precip == 0.0 }
  predicate DampBand(precip: real) { precip != 0.0 && precip < DampLimit }
  predicate WetBand(precip: real) { precip >= DampLimit }

  /** The track condition: exactly zero precipitation is dry, anything else
      below the damp limit (negative readings included) is damp, the rest wet. */
  function Classify(precip: real): (c: Condition)
    ensures c == Dry <==> DryBand(precip)
    ensures c == Damp <==> DampBand(precip)
    ensures c == Wet <==> WetBand(precip)
  {
    if precip == 0.0 then Dry
    else if precip < DampLimit then Damp
    else Wet
  }

  /** The strategy for one forecast row. */
  function GetStrategy(r: Row): (a: Advice)
    ensures a.trackTemp == TrackTemp(r)
    ensures a.cond == Classify(r.precip)
    ensures a.tyre == Soft <==> r.precip == 0.0 && a.trackTemp < SoftLimit
    ensures a.tyre == MedHard <==> r.precip == 0.0 && a.trackTemp >= SoftLimit
    ensures a.tyre == SlicksInter <==> r.precip != 0.0 && r.precip < DampLimit
    ensures a.tyre == InterWet <==> r.precip >= DampLimit
    ensures a.colour == Green <==> r.precip == 0.0
    ensures a.colour == Orange <==> a.tyre == SlicksInter
    ensures a.colour == Red <==> a.tyre == InterWet
  {
    var trackTemp := TrackTemp(r);
    var cond := Classify(r.precip);
    match cond
    case Dry => Advice(Dry, if trackTemp < SoftLimit then Soft else MedHard, Green, trackTemp)
    case Damp => Advice(Damp, SlicksInter, Orange, trackTemp)
    case Wet => Advice(Wet, InterWet, Red, trackTemp)
  }

  /** The condition a tyre choice is made for. */
  function TyreCondition(t: Tyre): Condition {
    match t
    case Soft => Dry
    case MedHard => Dry
    case SlicksInter => Damp
    case InterWet => Wet
  }

  /** The colour the program assigns to a condition. */
  function ConditionColour(c: Condition): Colour {
    match c
    case Dry => Green
    case Damp => Orange
    case Wet => Red
  }

  /** The tyre alone determines the condition and the colour of a row. */
  lemma TyreDeterminesConditionAndColour(r: Row)
    ensures TyreCondition(GetStrategy(r).tyre) == GetStrategy(r).cond
    ensures ConditionColour(GetStrategy(r).cond) == GetStrategy(r).colour
  {
  }

  /** Every precipitation value lies in exactly one band, and the condition
      is the one named after that band. The coverage and exclusion clauses
      are facts about the bands alone; the last three tie them to Classify. */
  lemma ConditionIsTotalSplit(precip: real)
    ensures DryBand(precip) || DampBand(precip) || WetBand(precip)
    ensures !(DryBand(precip) && DampBand(precip))
    ensures !(DryBand(precip) && WetBand(precip))
    ensures !(DampBand(precip) && WetBand(precip))
    ensures (Classify(precip) == Dry) == DryBand(precip)
    ensures (Classify(precip) == Damp) == DampBand(precip)
    ensures (Classify(precip) == Wet) == WetBand(precip)
  {
  }

  /** A negative reading is not rejected: it is classified damp. */
  lemma NegativePrecipIsDamp(r: Row)
    requires r.precip < 0.0
    ensures GetStrategy(r).cond == Damp
    ensures GetStrategy(r).tyre == SlicksInter && GetStrategy(r).colour == Orange
  {
  }

  /** Severity of a condition, dry < damp < wet. */
  function Severity(c: Condition): nat {
    match c
    case Dry => 0
    case Damp => 1
    case Wet => 2
  }

  /** For non-negative readings, more rain never gives a drier condition. */
  lemma ClassifyMonotone(p: real, q: real)
    requires 0.0 <= p <= q
    ensures Severity(Classify(p)) <= Severity(Classify(q))
  {
  }

  /** Without the non-negativity premise monotonicity fails: a negative
      reading is damp while zero is dry. */
  lemma ClassifyNotMonotoneBelowZero()
    ensures Severity(Classify(-1.0)) > Severity(Classify(0.0))
  {
  }

  /** More wind never raises the estimate. */
  lemma TrackTempNonIncreasingInWind(r: Row, w1: real, w2: real)
    requires w1 <= w2
    ensures TrackTemp(r.(windSpd := w2)) <= TrackTemp(r.(windSpd := w1))
  {
  }

  /** Warmer air never lowers the estimate. */
  lemma TrackTempNonDecreasingInAir(r: Row, t1: real, t2: real)
    requires t1 <= t2
    ensures TrackTemp(r.(temp := t1)) <= TrackTemp(r.(temp := t2))
  {
  }

  /** More low/mid cloud never raises the estimate (on a row with
      precipitation cloud has no effect at all). */
  lemma TrackTempNonIncreasingInCloud(r: Row, c1: real, c2: real)
    requires c1 <= c2
    ensures TrackTemp(r.(low := c2)) <= TrackTemp(r.(low := c1))
    ensures TrackTemp(r.(mid := c2)) <= TrackTemp(r.(mid := c1))
  {
  }

  /** With cloud cover in its 0..100 percent range, sun heating on a dry row
      lies between 0 and 10 degrees, so the estimate exceeds air temperature
      minus wind cooling by at most 10. */
  lemma DryTrackTempBounds(r: Row)
    requires r.precip == 0.0
    requires 0.0 <= r.low <= 100.0 && 0.0 <= r.mid <= 100.0
    ensures r.temp - WindCooling(r) <= TrackTemp(r) <= r.temp - WindCooling(r) + 10.0
    ensures TrackTemp(r) == r.temp + SunHeating(r) - WindCooling(r)
  {
  }

  /** Clear sky on a dry row: the soft compound is chosen exactly when air
      temperature plus the full 10 degrees of sun, less wind cooling, is
      below 15. */
  lemma ClearSkySoftThreshold(r: Row)
    requires r.precip == 0.0 && r.low == 0.0 && r.mid == 0.0
    ensures GetStrategy(r).tyre == Soft <==> r.temp + 10.0 - r.windSpd * 0.1 < SoftLimit
  {
  }
}
