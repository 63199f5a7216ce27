/**
 * The six AQI bands the gauge and the map markers colour by. Both components
 * hold their own copy of the threshold chain; both are modelled as written
 * and proved equal to one band index.
 */
module AqiBands {

  /** Inclusive upper bounds of the first five bands. */
  const UpperBounds: seq<real> := [50.0, 100.0, 150.0, 200.0, 300.0]

  const Colors: seq<string> := ["#009966", "#ffde33", "#ff9933", "#cc0033", "#660099", "#7e0023"]

  const Levels: seq<string> := ["良好", "中等", "对敏感人群不健康", "不健康", "非常不健康", "危险"]

  /** How many of the bounds lie strictly below `aqi`. */
  function CountBelow(bounds: seq<real>, aqi: real): (n: nat)
    ensures n <= |bounds|
  {
    if bounds == [] then 0 else (if bounds[0] < aqi then 1 else 0) + CountBelow(bounds[1..], aqi)
  }

  /** The band of `aqi`, from 0 (best) to 5 (worst): the number of exceeded upper bounds. */
  function Band(aqi: real): (b: nat)
    ensures b < |Colors| && b < |Levels|
  {
    CountBelow(UpperBounds, aqi)
  }

  lemma {:induction false} CountBelowMonotone(bounds: seq<real>, a: real, b: real)
    requires a <= b
    ensures CountBelow(bounds, a) <= CountBelow(bounds, b)
  {
    if bounds != [] {
      CountBelowMonotone(bounds[1..], a, b);
    }
  }

  /** A higher AQI never falls in a better band. */
  lemma BandMonotone(a: real, b: real)
    requires a <= b
    ensures Band(a) <= Band(b)
  {
    CountBelowMonotone(UpperBounds, a, b);
  }

  /** Band `i` holds exactly the values above bound `i - 1` and at most bound `i`. */
  lemma BandIff(aqi: real, i: nat)
    requires i < 6
    ensures Band(aqi) == i <==>
      (i == 0 || UpperBounds[i - 1] < aqi) && (i == 5 || aqi <= UpperBounds[i])
  {
    var c4 := CountBelow([300.0], aqi);
    var c3 := CountBelow([200.0, 300.0], aqi);
    var c2 := CountBelow([150.0, 200.0, 300.0], aqi);
    var c1 := CountBelow([100.0, 150.0, 200.0, 300.0], aqi);
    assert [300.0][1..] == [];
    assert c4 == if 300.0 < aqi then 1 else 0;
    assert [200.0, 300.0][1..] == [300.0];
    assert c3 == (if 200.0 < aqi then 1 else 0) + c4;
    assert [150.0, 200.0, 300.0][1..] == [200.0, 300.0];
    assert c2 == (if 150.0 < aqi then 1 else 0) + c3;
    assert [100.0, 150.0, 200.0, 300.0][1..] == [150.0, 200.0, 300.0];
    assert c1 == (if 100.0 < aqi then 1 else 0) + c2;
    assert UpperBounds[1..] == [100.0, 150.0, 200.0, 300.0];
    assert Band(aqi) == (if 50.0 < aqi then 1 else 0) + c1;
  }

  /** Upper bounds are inclusive: each bound is in its band and the next integer is in the next band. */
  lemma InclusiveBounds()
    ensures forall i :: 0 <= i < |UpperBounds| ==>
      Band(UpperBounds[i]) == i && Band(UpperBounds[i] + 1.0) == i + 1
  {
    forall i | 0 <= i < |UpperBounds|
      ensures Band(UpperBounds[i]) == i && Band(UpperBounds[i] + 1.0) == i + 1
    {
      BandIff(UpperBounds[i], i);
      BandIff(UpperBounds[i] + 1.0, i + 1);
    }
  }

  /** `getAqiColor` in the gauge. */
  function GetAqiColor(aqi: real): string {
    if aqi <= 50.0 then "#009966"
    else if aqi <= 100.0 then "#ffde33"
    else if aqi <= 150.0 then "#ff9933"
    else if aqi <= 200.0 then "#cc0033"
    else if aqi <= 300.0 then "#660099"
    else "#7e0023"
  }

  /** `getAqiLevel` in the gauge. */
  function GetAqiLevel(aqi: real): string {
    if aqi <= 50.0 then "良好"
    else if aqi <= 100.0 then "中等"
    else if aqi <= 150.0 then "对敏感人群不健康"
    else if aqi <= 200.0 then "不健康"
    else if aqi <= 300.0 then "非常不健康"
    else "危险"
  }

  /** `colorByAqi` in the map. */
  function ColorByAqi(aqi: real): string {
    if aqi <= 50.0 then "#009966"
    else if aqi <= 100.0 then "#ffde33"
    else if aqi <= 150.0 then "#ff9933"
    else if aqi <= 200.0 then "#cc0033"
    else if aqi <= 300.0 then "#660099"
    else "#7e0023"
  }

  /** The gauge's colour and level are the colour and level of the value's band. */
  lemma GaugeFollowsBand(aqi: real)
    ensures GetAqiColor(aqi) == Colors[Band(aqi)]
    ensures GetAqiLevel(aqi) == Levels[Band(aqi)]
  {
    var i := Band(aqi);
    BandIff(aqi, i);
  }

  /** The map marker's colour is the colour of the value's band, hence the gauge's colour. */
  lemma MapFollowsBand(aqi: real)
    ensures ColorByAqi(aqi) == Colors[Band(aqi)]
    ensures ColorByAqi(aqi) == GetAqiColor(aqi)
  {
    var i := Band(aqi);
    BandIff(aqi, i);
    GaugeFollowsBand(aqi);
  }

  /** Colours and levels are six distinct values each, so each names its band. */
  lemma BandNamesDistinct()
    ensures |Colors| == 6 && |Levels| == 6
    ensures forall i, j :: 0 <= i < j < 6 ==> Colors[i] != Colors[j] && Levels[i] != Levels[j]
  {
  }

  /**
   * The gauge's colour and level always agree on the band: whenever two
   * values get the same colour they get the same level, and conversely.
   */
  lemma ColorAndLevelAgree(a: real, b: real)
    ensures GetAqiColor(a) == GetAqiColor(b) <==> GetAqiLevel(a) == GetAqiLevel(b)
    ensures GetAqiColor(a) in Colors && GetAqiLevel(a) in Levels
    ensures a > 300.0 ==> GetAqiColor(a) == "#7e0023" && GetAqiLevel(a) == "危险" && ColorByAqi(a) == "#7e0023"
  {
    GaugeFollowsBand(a);
    GaugeFollowsBand(b);
    MapFollowsBand(a);
    BandNamesDistinct();
    BandIff(a, 5);
  }

  /** The gauge's fill, `Math.min(aqi / 500 * 100, 100)`. */
  function Percentage(aqi: real): (p: real)
    ensures p <= 100.0
    ensures p == 100.0 <==> aqi >= 500.0
    ensures aqi < 500.0 ==> p * 5.0 == aqi
  {
    var scaled := aqi / 500.0 * 100.0;
    if scaled <= 100.0 then scaled else 100.0
  }
}
