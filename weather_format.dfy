/** The display helpers of src/services/firebaseWeatherService.ts: unit
    conversions, the 16-point compass and the cloud-cover label. Readings
    are modelled as exact reals; Math.round is "nearest integer, halves up". */
module WeatherFormat {
  import opened Wrappers

  /** Math.round: the integer nearest to x, a tie going to the larger one. */
  function Round(x: real): (r: int)
    ensures r as real - 0.5 <= x < r as real + 0.5
  {
    (x + 0.5).Floor
  }

  /** Rounding never reverses the order of two readings. */
  lemma RoundMonotone(x: real, y: real)
    requires x <= y
    ensures Round(x) <= Round(y)
  {
  }

  /** The integer nearest to a given real is unique. */
  lemma RoundUnique(x: real, n: int)
    requires n as real - 0.5 <= x < n as real + 0.5
    ensures Round(x) == n
  {
  }

  /** celsiusToFahrenheit: the whole degree Fahrenheit nearest to c. */
  function CelsiusToFahrenheit(celsius: real): (f: int)
    ensures f as real - 0.5 <= celsius * 9.0 / 5.0 + 32.0 < f as real + 0.5
  {
    Round(celsius * 9.0 / 5.0 + 32.0)
  }

  lemma CelsiusToFahrenheitExamples()
    ensures CelsiusToFahrenheit(0.0) == 32
    ensures CelsiusToFahrenheit(100.0) == 212
    ensures CelsiusToFahrenheit(-40.0) == -40
    ensures CelsiusToFahrenheit(37.0) == 99
    ensures CelsiusToFahrenheit(-17.5) == 1
  {
    RoundUnique(32.0, 32);
    RoundUnique(212.0, 212);
    RoundUnique(-40.0, -40);
    RoundUnique(98.6, 99);
    RoundUnique(0.5, 1);
  }

  /** A warmer reading never shows as colder. */
  lemma CelsiusToFahrenheitMonotone(c1: real, c2: real)
    requires c1 <= c2
    ensures CelsiusToFahrenheit(c1) <= CelsiusToFahrenheit(c2)
  {
    RoundMonotone(c1 * 9.0 / 5.0 + 32.0, c2 * 9.0 / 5.0 + 32.0);
  }

  /** msToMph: the whole mile per hour nearest to ms * 2.237. */
  function MsToMph(ms: real): (mph: int)
    ensures mph as real - 0.5 <= ms * 2.237 < mph as real + 0.5
  {
    Round(ms * 2.237)
  }

  /** A faster wind never shows as slower. */
  lemma MsToMphMonotone(ms1: real, ms2: real)
    requires ms1 <= ms2
    ensures MsToMph(ms1) <= MsToMph(ms2)
  {
    RoundMonotone(ms1 * 2.237, ms2 * 2.237);
  }

  lemma MsToMphExamples()
    ensures MsToMph(0.0) == 0
    ensures MsToMph(10.0) == 22
    ensures MsToMph(1.0) == 2
  {
    RoundUnique(0.0, 0);
    RoundUnique(22.37, 22);
    RoundUnique(2.237, 2);
  }

  const Directions: seq<string> :=
    ["N", "NNE", "NE", "ENE", "E", "ESE", "SE", "SSE",
     "S", "SSW", "SW", "WSW", "W", "WNW", "NW", "NNW"]

  /** JavaScript's `%`: the remainder takes the sign of the dividend. */
  function JsRemainder(a: int, b: int): (r: int)
    requires b > 0
    ensures -b < r < b
    ensures a >= 0 ==> r == a % b
    ensures a < 0 ==> r == -((-a) % b)
  {
    if a >= 0 then a % b else -((-a) % b)
  }

  /** The index degreesToCardinal computes, which is negative for some
      negative bearings. */
  function CardinalIndex(degrees: real): (i: int)
    ensures -16 < i < 16
  {
    JsRemainder(Round(degrees / 22.5), 16)
  }

  /** degreesToCardinal: the compass point of a bearing. Indexing the table
      with a negative number yields undefined, modelled as None. */
  function DegreesToCardinal(degrees: real): (r: Option<string>)
    ensures r.Some? <==> CardinalIndex(degrees) >= 0
    ensures r.Some? ==> r.value == Directions[CardinalIndex(degrees)]
  {
    var index := CardinalIndex(degrees);
    if 0 <= index then Some(Directions[index]) else None
  }

  /** The arc of compass point k on turn t: 22.5 degrees wide, centred on
      22.5 * (16 t + k), closed below and open above. */
  predicate InArc(degrees: real, turn: int, k: nat) {
    var centre := (16 * turn + k) as real * 22.5;
    centre - 11.25 <= degrees < centre + 11.25
  }

  /** Every bearing inside point k's arc, on any turn that is not below
      zero, is named by point k. */
  lemma ArcNamesPoint(degrees: real, turn: nat, k: nat)
    requires k < 16
    requires InArc(degrees, turn, k)
    ensures DegreesToCardinal(degrees) == Some(Directions[k])
  {
    var j := 16 * turn + k;
    RoundUnique(degrees / 22.5, j);
    assert j % 16 == k;
  }

  /** Every bearing of zero or more lies in the arc of the point it is
      named by: the 16 arcs cover the circle, turn after turn. */
  lemma PointContainsBearing(degrees: real)
    requires degrees >= 0.0
    ensures CardinalIndex(degrees) >= 0
    ensures InArc(degrees, Round(degrees / 22.5) / 16, CardinalIndex(degrees))
  {
    var j := Round(degrees / 22.5);
    var t, k := j / 16, j % 16;
    assert j == 16 * t + k;
  }

  lemma CardinalExamples()
    ensures DegreesToCardinal(0.0) == Some("N")
    ensures DegreesToCardinal(360.0) == Some("N")
    ensures DegreesToCardinal(11.2) == Some("N")
    ensures DegreesToCardinal(11.25) == Some("NNE")
    ensures DegreesToCardinal(348.8) == Some("N")
    ensures DegreesToCardinal(90.0) == Some("E")
    ensures DegreesToCardinal(-5.0) == Some("N")
    ensures DegreesToCardinal(-30.0) == None
    ensures DegreesToCardinal(-360.0) == Some("N")
  {
    ArcNamesPoint(0.0, 0, 0);
    ArcNamesPoint(360.0, 1, 0);
    ArcNamesPoint(11.2, 0, 0);
    ArcNamesPoint(11.25, 0, 1);
    ArcNamesPoint(348.8, 1, 0);
    ArcNamesPoint(90.0, 0, 4);
    RoundUnique(-5.0 / 22.5, 0);
    RoundUnique(-30.0 / 22.5, -1);
    RoundUnique(-360.0 / 22.5, -16);
  }

  const CloudLabels: seq<string> :=
    ["Clear", "Mostly Clear", "Partly Cloudy", "Mostly Cloudy", "Overcast"]

  /** The inclusive upper bound of each label but the last. */
  const CloudUpperBounds: seq<real> := [10.0, 30.0, 60.0, 90.0]

  /** How many of the bounds lie strictly below c. */
  function CountBelow(bounds: seq<real>, c: real): (n: nat)
    ensures n <= |bounds|
  {
    if bounds == [] then 0 else (if bounds[0] < c then 1 else 0) + CountBelow(bounds[1..], c)
  }

  predicate Ascending(bounds: seq<real>) {
    forall i, j :: 0 <= i < j < |bounds| ==> bounds[i] < bounds[j]
  }

  /** In ascending bounds, exactly the first CountBelow(bounds, c) lie below c. */
  lemma {:induction false} CountBelowSplits(bounds: seq<real>, c: real)
    requires Ascending(bounds)
    ensures forall i :: 0 <= i < CountBelow(bounds, c) ==> bounds[i] < c
    ensures forall i :: CountBelow(bounds, c) <= i < |bounds| ==> c <= bounds[i]
  {
    if bounds != [] {
      var rest := bounds[1..];
      assert Ascending(rest);
      CountBelowSplits(rest, c);
      if bounds[0] < c {
        forall i | 1 <= i < CountBelow(bounds, c) ensures bounds[i] < c {
          assert bounds[i] == rest[i - 1];
        }
      }
    }
  }

  /** A larger cover passes at least as many bounds. */
  lemma {:induction false} CountBelowMonotone(bounds: seq<real>, c1: real, c2: real)
    requires c1 <= c2
    ensures CountBelow(bounds, c1) <= CountBelow(bounds, c2)
  {
    if bounds != [] {
      CountBelowMonotone(bounds[1..], c1, c2);
    }
  }

  /** The band of a cloud cover: the number of thresholds it exceeds. */
  function CloudBand(cloudCover: real): (k: nat)
    ensures k < |CloudLabels|
    ensures k < |CloudUpperBounds| ==> cloudCover <= CloudUpperBounds[k]
    ensures k > 0 ==> CloudUpperBounds[k - 1] < cloudCover
  {
    CountBelowSplits(CloudUpperBounds, cloudCover);
    CountBelow(CloudUpperBounds, cloudCover)
  }

  /** getCloudCondition: the label of the first threshold the cover does not
      exceed, each threshold belonging to the label below it. */
  function GetCloudCondition(cloudCover: real): (condition: string)
    ensures condition == CloudLabels[CloudBand(cloudCover)]
  {
    if cloudCover <= 10.0 then "Clear"
    else if cloudCover <= 30.0 then "Mostly Clear"
    else if cloudCover <= 60.0 then "Partly Cloudy"
    else if cloudCover <= 90.0 then "Mostly Cloudy"
    else "Overcast"
  }

  /** More cloud never gives a clearer label. */
  lemma CloudConditionMonotone(c1: real, c2: real)
    requires c1 <= c2
    ensures CloudBand(c1) <= CloudBand(c2)
    ensures GetCloudCondition(c1) == CloudLabels[CloudBand(c1)]
    ensures GetCloudCondition(c2) == CloudLabels[CloudBand(c2)]
  {
    CountBelowMonotone(CloudUpperBounds, c1, c2);
  }

  lemma CloudConditionExamples()
    ensures GetCloudCondition(10.0) == "Clear"
    ensures GetCloudCondition(11.0) == "Mostly Clear"
    ensures GetCloudCondition(30.0) == "Mostly Clear"
    ensures GetCloudCondition(60.0) == "Partly Cloudy"
    ensures GetCloudCondition(90.0) == "Mostly Cloudy"
    ensures GetCloudCondition(91.0) == "Overcast"
  {
  }
}
