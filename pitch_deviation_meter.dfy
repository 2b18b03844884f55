/**
 * The cents meter: the current deviation is clamped to one semitone around
 * the note (-50 to +50 cents) and drawn as a position from 0% to 100%, over a
 * fixed row of labelled markers.
 */
module PitchDeviationMeter {

  const MinCents: real := -50.0
  const MaxCents: real := 50.0
  const Range: real := MaxCents - MinCents

  datatype Marker = Marker(value: real, caption: string)

  datatype Align = AlignLeft | AlignRight | AlignCenter

  datatype LineColor = GreenLine | GrayLine

  /** The seven markers of the meter, flat to sharp. */
  const Markers: seq<Marker> := [
    Marker(-50.0, "b(flat)"),
    Marker(-12.0, "-12¢"),
    Marker(-5.0, "-5¢ (*)"),
    Marker(0.0, "0¢"),
    Marker(5.0, "+5¢ (*)"),
    Marker(12.0, "+12¢ (**)"),
    Marker(50.0, "#(sharp)")
  ]

  /** `Math.max(minCents, Math.min(maxCents, cents))`. */
  function ClampCents(cents: real): (c: real)
    ensures MinCents <= c <= MaxCents
    ensures MinCents <= cents <= MaxCents ==> c == cents
    ensures cents < MinCents ==> c == MinCents
    ensures cents > MaxCents ==> c == MaxCents
  {
    var upper := if MaxCents <= cents then MaxCents else cents;
    if MinCents >= upper then MinCents else upper
  }

  /** `((value - minCents) / range) * 100`: the percentage from the left edge. */
  function PositionOf(value: real): real
  {
    ((value - MinCents) / Range) * 100.0
  }

  /** Where the indicator is drawn for a deviation of `cents`. */
  function IndicatorPosition(cents: real): (p: real)
    ensures 0.0 <= p <= 100.0
  {
    PositionOf(ClampCents(cents))
  }

  /** The markers the guard `markerPos < 0 || markerPos > 100` lets through, in order. */
  function VisibleMarkers(markers: seq<Marker>): (shown: seq<Marker>)
    ensures |shown| <= |markers|
    ensures forall m :: m in shown ==> m in markers && 0.0 <= PositionOf(m.value) <= 100.0
  {
    if markers == [] then []
    else
      var pos := PositionOf(markers[0].value);
      var rest := VisibleMarkers(markers[1..]);
      if pos < 0.0 || pos > 100.0 then rest else [markers[0]] + rest
  }

  /** The label of the -50 marker is aligned left, that of +50 right, every other centred. */
  function LabelAlign(value: real): (a: Align)
    ensures a == AlignLeft <==> value == MinCents
    ensures a == AlignRight <==> value == MaxCents
  {
    if value == MinCents then AlignLeft else if value == MaxCents then AlignRight else AlignCenter
  }

  /** The vertical line of a marker: green at 0 cents, grey elsewhere. */
  function MarkerLine(value: real): (c: LineColor)
    ensures c == GreenLine <==> value == 0.0
  {
    if value == 0.0 then GreenLine else GrayLine
  }

  // ----- Properties -----

  /** Clamping twice is clamping once. */
  lemma ClampIdempotent(cents: real)
    ensures ClampCents(ClampCents(cents)) == ClampCents(cents)
  {
  }

  /** The meter's landmarks: -50 at the left edge, 0 in the middle, +50 at the right edge. */
  lemma IndicatorLandmarks()
    ensures IndicatorPosition(-50.0) == 0.0
    ensures IndicatorPosition(0.0) == 50.0
    ensures IndicatorPosition(50.0) == 100.0
    ensures IndicatorPosition(-80.0) == 0.0 && IndicatorPosition(80.0) == 100.0
  {
  }

  /** A larger deviation never moves the indicator to the left. */
  lemma IndicatorMonotone(a: real, b: real)
    requires a <= b
    ensures IndicatorPosition(a) <= IndicatorPosition(b)
  {
  }

  /** Inside the meter's range the position is the affine map 50 + cents. */
  lemma IndicatorAffine(cents: real)
    requires MinCents <= cents <= MaxCents
    ensures IndicatorPosition(cents) == 50.0 + cents
  {
  }

  lemma PositionAffine(value: real)
    ensures PositionOf(value) == value + 50.0
  {
  }

  /** Every marker value lies within [-50, 50]. */
  lemma MarkersInRange()
    ensures forall i :: 0 <= i < |Markers| ==> MinCents <= Markers[i].value <= MaxCents
  {
  }

  lemma {:induction false} NoneFiltered(markers: seq<Marker>)
    requires forall i :: 0 <= i < |markers| ==> MinCents <= markers[i].value <= MaxCents
    ensures VisibleMarkers(markers) == markers
  {
    if markers != [] {
      PositionAffine(markers[0].value);
      assert forall i :: 0 <= i < |markers| - 1 ==> markers[1..][i] == markers[i + 1];
      NoneFiltered(markers[1..]);
    }
  }

  /** So the guard never filters out a marker: all seven are drawn, in order. */
  lemma AllMarkersShown()
    ensures VisibleMarkers(Markers) == Markers
  {
    MarkersInRange();
    NoneFiltered(Markers);
  }

  /** The first marker's label is aligned left, the last one's right, and the five between are centred. */
  lemma MarkerAlignments()
    ensures LabelAlign(Markers[0].value) == AlignLeft
    ensures LabelAlign(Markers[|Markers| - 1].value) == AlignRight
    ensures forall i :: 0 < i < |Markers| - 1 ==> LabelAlign(Markers[i].value) == AlignCenter
  {
  }

  /** Of the seven marker lines only the centre one, the fourth, is green. */
  lemma OnlyCentreLineGreen()
    ensures forall i :: 0 <= i < |Markers| ==> (MarkerLine(Markers[i].value) == GreenLine <==> i == 3)
  {
  }
}
