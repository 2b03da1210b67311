/**
 * The match-statistics page (app/backend/frontend/match-stats/page.tsx):
 * twenty-five random impact zones drawn on a court, a five-axis radar chart
 * and three tip cards that flip on click.
 */
module MatchStats {

  /** The outcome a zone is coloured by. */
  datatype ZoneType = Winner | Error | Neutral

  /** One ball impact, in court-relative coordinates. */
  datatype ImpactZone = ImpactZone(id: int, x: real, y: real, intensity: real, kind: ZoneType)

  /** Zones generated on mount. */
  const ZoneCount := 25

  /**
   * The random draws behind one zone, in the order the code makes them. The
   * second type draw is only consulted when the first one is at most 0.7.
   */
  datatype ZoneRolls = ZoneRolls(x: real, y: real, intensity: real, kind: real, errorKind: real)

  predicate IsUnit(r: real) {
    0.0 <= r < 1.0
  }

  predicate ValidRolls(z: ZoneRolls) {
    IsUnit(z.x) && IsUnit(z.y) && IsUnit(z.intensity) && IsUnit(z.kind) && IsUnit(z.errorKind)
  }

  /** `Math.random() > 0.7 ? "winner" : Math.random() > 0.8 ? "error" : "neutral"` */
  function KindOf(kind: real, errorKind: real): (r: ZoneType)
    ensures r == Winner <==> kind > 0.7
    ensures r == Error <==> kind <= 0.7 && errorKind > 0.8
  {
    if kind > 0.7 then Winner else if errorKind > 0.8 then Error else Neutral
  }

  /** `Math.random() * 0.8 + 0.1`: keeps a zone off the court's edges. */
  function InsetCoordinate(roll: real): (r: real)
    requires IsUnit(roll)
    ensures 0.1 <= r < 0.9
  {
    roll * 0.8 + 0.1
  }

  /** A zone is well placed: its coordinates lie inside the inset court and its intensity in [0, 1). */
  predicate WellPlaced(z: ImpactZone) {
    0.1 <= z.x < 0.9 && 0.1 <= z.y < 0.9 && IsUnit(z.intensity)
  }

  /** The zone built from its draws. */
  function MakeZone(id: int, z: ZoneRolls): (r: ImpactZone)
    requires ValidRolls(z)
    ensures r.id == id && WellPlaced(r)
    ensures r.kind == KindOf(z.kind, z.errorKind)
  {
    ImpactZone(id, InsetCoordinate(z.x), InsetCoordinate(z.y), z.intensity, KindOf(z.kind, z.errorKind))
  }

  /** The mount effect's loop: one zone per index, ids in order. */
  method GenerateZones(rolls: seq<ZoneRolls>) returns (zones: seq<ImpactZone>)
    requires |rolls| == ZoneCount
    requires forall i :: 0 <= i < |rolls| ==> ValidRolls(rolls[i])
    ensures |zones| == ZoneCount
    ensures forall i :: 0 <= i < |zones| ==> zones[i].id == i && WellPlaced(zones[i])
    ensures forall i :: 0 <= i < |zones| ==> zones[i].kind == KindOf(rolls[i].kind, rolls[i].errorKind)
  {
    zones := [];
    var i := 0;
    while i < ZoneCount
      invariant 0 <= i <= ZoneCount && |zones| == i
      invariant forall k :: 0 <= k < i ==> zones[k] == MakeZone(k, rolls[k])
    {
      zones := zones + [MakeZone(i, rolls[i])];
      i := i + 1;
    }
  }

  /** A canvas position in pixels. */
  datatype Pixel = Pixel(x: real, y: real)

  /** `20 + zone.x * (width - 40)`, likewise for y: the court outline has a 20-pixel margin. */
  function ZoneCentre(z: ImpactZone, width: real, height: real): Pixel {
    Pixel(20.0 + z.x * (width - 40.0), 20.0 + z.y * (height - 40.0))
  }

  /** On any canvas at least 40 pixels each way, a well-placed zone's centre lies inside the court outline. */
  lemma ZoneCentreInsideCourt(z: ImpactZone, width: real, height: real)
    requires WellPlaced(z) && width >= 40.0 && height >= 40.0
    ensures 20.0 <= ZoneCentre(z, width, height).x <= width - 20.0
    ensures 20.0 <= ZoneCentre(z, width, height).y <= height - 20.0
  {
    var w, h := width - 40.0, height - 40.0;
    Scaled(z.x, w);
    Scaled(z.y, h);
    assert ZoneCentre(z, width, height) == Pixel(20.0 + z.x * w, 20.0 + z.y * h);
  }

  /** A fraction of a non-negative length is no longer than the length. */
  lemma Scaled(f: real, len: real)
    requires 0.0 <= f <= 1.0 && len >= 0.0
    ensures 0.0 <= f * len <= len
  {
  }

  /** `4 + intensity * 8` */
  function Radius(intensity: real): (r: real)
    requires IsUnit(intensity)
    ensures 4.0 <= r < 12.0
  {
    4.0 + intensity * 8.0
  }

  /** `0.3 + intensity * 0.7` */
  function Alpha(intensity: real): (r: real)
    requires IsUnit(intensity)
    ensures 0.3 <= r < 1.0
  {
    0.3 + intensity * 0.7
  }

  /** `Math.floor(100 + intensity * 155)`: a valid colour channel. */
  function GreenIntensity(intensity: real): (r: int)
    requires IsUnit(intensity)
    ensures 100 <= r <= 254
    ensures (r as real) <= 100.0 + intensity * 155.0 < (r as real) + 1.0
  {
    (100.0 + intensity * 155.0).Floor
  }

  /** The inner colour stop of a zone's gradient, as an RGBA quadruple. */
  datatype Rgba = Rgba(red: int, green: int, blue: int, alpha: real)

  function ZoneColour(z: ImpactZone): (r: Rgba)
    requires IsUnit(z.intensity)
    ensures r.alpha == Alpha(z.intensity)
    ensures r.red == 239 <==> z.kind == Error
    ensures z.kind != Error ==> r.green == GreenIntensity(z.intensity) && r.red == 34 && r.blue == 84
  {
    match z.kind
    case Winner => Rgba(34, GreenIntensity(z.intensity), 84, Alpha(z.intensity))
    case Error => Rgba(239, 68, 68, Alpha(z.intensity))
    case Neutral => Rgba(34, GreenIntensity(z.intensity), 84, Alpha(z.intensity))
  }

  /** Winner and neutral zones take the same branch colours: only errors stand out. */
  lemma WinnerDrawnLikeNeutral(z: ImpactZone)
    requires IsUnit(z.intensity)
    ensures ZoneColour(z.(kind := Winner)) == ZoneColour(z.(kind := Neutral))
  {
  }

  /** The five radar axes, in drawing order. */
  datatype Axis = Power | Accuracy | Consistency | Speed | Spin

  const Axes: seq<Axis> := [Power, Accuracy, Consistency, Speed, Spin]

  datatype RadarData = RadarData(power: real, accuracy: real, consistency: real, speed: real, spin: real) {
    function Value(a: Axis): real {
      match a
      case Power => power
      case Accuracy => accuracy
      case Consistency => consistency
      case Speed => speed
      case Spin => spin
    }
  }

  /** The initial `radarData`. */
  const InitialRadar: RadarData := RadarData(0.85, 0.72, 0.91, 0.68, 0.79)

  /** `dataPoints`: the values read off the record field by field. */
  function DataPoints(d: RadarData): seq<real> {
    [d.power, d.accuracy, d.consistency, d.speed, d.spin]
  }

  /** `labels` */
  const Labels: seq<string> := ["Power", "Accuracy", "Consistency", "Speed", "Spin"]

  function AxisLabel(a: Axis): string {
    match a
    case Power => "Power"
    case Accuracy => "Accuracy"
    case Consistency => "Consistency"
    case Speed => "Speed"
    case Spin => "Spin"
  }

  /**
   * Values and labels are drawn at the same angle for the same index, so
   * each value appears under its own label, and every axis is drawn once.
   */
  lemma LabelsMatchValues(d: RadarData)
    ensures |DataPoints(d)| == |Labels| == |Axes|
    ensures forall i :: 0 <= i < |Axes| ==> DataPoints(d)[i] == d.Value(Axes[i]) && Labels[i] == AxisLabel(Axes[i])
    ensures forall a: Axis :: a in Axes
  {
    forall a: Axis ensures a in Axes {
      match a
      case Power => assert Axes[0] == a;
      case Accuracy => assert Axes[1] == a;
      case Consistency => assert Axes[2] == a;
      case Speed => assert Axes[3] == a;
      case Spin => assert Axes[4] == a;
    }
  }

  /** A radar whose values are all fractions draws its polygon inside the outer pentagon. */
  lemma RadarWithinChart(d: RadarData, radius: real)
    requires radius >= 0.0
    requires forall a: Axis :: 0.0 <= d.Value(a) <= 1.0
    ensures forall i :: 0 <= i < |DataPoints(d)| ==> 0.0 <= radius * DataPoints(d)[i] <= radius
  {
    LabelsMatchValues(d);
    forall i | 0 <= i < |DataPoints(d)|
      ensures 0.0 <= radius * DataPoints(d)[i] <= radius
    {
      Scaled(d.Value(Axes[i]), radius);
    }
  }

  /** Every initial value is a fraction, so the initial polygon stays inside the outer pentagon. */
  lemma InitialRadarWithinChart(radius: real)
    requires radius >= 0.0
    ensures forall i :: 0 <= i < |DataPoints(InitialRadar)| ==>
              0.0 <= radius * DataPoints(InitialRadar)[i] <= radius
  {
    RadarWithinChart(InitialRadar, radius);
  }

  /** A flip card; the icon is not modelled. */
  datatype TipCard = TipCard(id: string, title: string, description: string, tip: string, isFlipped: bool)

  /** The initial `tipCards`, all face up. */
  const InitialCards: seq<TipCard> := [
    TipCard("accuracy", "Accuracy", "72% court precision",
            "Focus on follow-through to improve shot placement consistency", false),
    TipCard("power", "Power", "Average 89 km/h",
            "Engage your core rotation for 15% more power generation", false),
    TipCard("consistency", "Consistency", "91% rally success",
            "Maintain this excellent rhythm with regular practice sessions", false)
  ]

  /** `handleCardFlip`: every card with the clicked id turns over; nothing else changes. */
  function FlipCard(cards: seq<TipCard>, id: string): (r: seq<TipCard>)
    ensures |r| == |cards|
    ensures forall i :: 0 <= i < |r| ==> r[i].(isFlipped := cards[i].isFlipped) == cards[i]
    ensures forall i :: 0 <= i < |r| ==> (r[i].isFlipped != cards[i].isFlipped <==> cards[i].id == id)
  {
    seq(|cards|, i requires 0 <= i < |cards| =>
      if cards[i].id == id then cards[i].(isFlipped := !cards[i].isFlipped) else cards[i])
  }

  /** Clicking a card twice puts it back. */
  lemma FlipTwiceRestores(cards: seq<TipCard>, id: string)
    ensures FlipCard(FlipCard(cards, id), id) == cards
  {
  }

  /** Clicking two cards gives the same result in either order. */
  lemma FlipsCommute(cards: seq<TipCard>, a: string, b: string)
    ensures FlipCard(FlipCard(cards, a), b) == FlipCard(FlipCard(cards, b), a)
  {
  }

  /** A click on an id no card carries changes nothing. */
  lemma FlipUnknownIdIsNoOp(cards: seq<TipCard>, id: string)
    requires forall i :: 0 <= i < |cards| ==> cards[i].id != id
    ensures FlipCard(cards, id) == cards
  {
  }

  /** Card ids are distinct, so clicking one card turns over that card alone. */
  lemma ClickFlipsOneCard(k: nat)
    requires k < |InitialCards|
    ensures FlipCard(InitialCards, InitialCards[k].id)[k].isFlipped
    ensures forall i :: 0 <= i < |InitialCards| && i != k ==> !FlipCard(InitialCards, InitialCards[k].id)[i].isFlipped
  {
  }
}
