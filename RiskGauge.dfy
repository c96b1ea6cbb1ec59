/**
 * The half-pie risk gauge (components/RiskGauge.tsx): a three-band colour
 * policy on the score, and a two-segment split of 100 between the risk
 * part and the remaining "safe" part.
 */
module RiskGauge {

  const Green := "#10b981"
  const Amber := "#f59e0b"
  const Red := "#ef4444"

  /** The three risk bands of the colour policy, ordered low to high. */
  datatype Band = Low | Medium | High

  function Rank(b: Band): nat
  {
    match b
    case Low => 0
    case Medium => 1
    case High => 2
  }

  /** Reference definition of the policy: below 30 low, 30 to 69 medium, 70 and up high. */
  function BandOf(score: int): Band
  {
    if score <= 29 then Low else if score >= 70 then High else Medium
  }

  function BandColour(b: Band): string
  {
    match b
    case Low => Green
    case Medium => Amber
    case High => Red
  }

  /** `getColor`: the if-chain of the source, first match wins. */
  function GetColor(val: int): (r: string)
    ensures r == BandColour(BandOf(val))
    ensures r == Green || r == Amber || r == Red
  {
    if val < 30 then Green
    else if val < 70 then Amber
    else Red
  }

  /** The colour identifies the band: the three colours are pairwise distinct. */
  lemma ColourDeterminesBand(a: int, b: int)
    ensures GetColor(a) == GetColor(b) <==> BandOf(a) == BandOf(b)
  {
    assert Green[1] == '1' && Amber[1] == 'f' && Red[1] == 'e';
  }

  /** A higher score never lands in a lower band. */
  lemma BandMonotone(a: int, b: int)
    requires a <= b
    ensures Rank(BandOf(a)) <= Rank(BandOf(b))
  {
  }

  /** The band boundaries: 29 and 30, 69 and 70 are where the colour changes. */
  lemma BandBoundaries()
    ensures GetColor(29) == Green && GetColor(30) == Amber
    ensures GetColor(69) == Amber && GetColor(70) == Red
  {
  }

  /** One entry of the chart's `data` array. */
  datatype Segment = Segment(name: string, value: int)

  /** The chart's data: the score, then what is left of 100. */
  function Segments(score: int): (r: seq<Segment>)
    ensures |r| == 2 && r[0].name == "Risk" && r[1].name == "Safe"
    ensures r[0].value == score
    ensures r[0].value + r[1].value == 100
    ensures 0 <= score <= 100 ==> 0 <= r[0].value && 0 <= r[1].value
  {
    [Segment("Risk", score), Segment("Safe", 100 - score)]
  }

  /** What the gauge shows: the two segments, the arc fill and the numeric caption. */
  datatype GaugeView = GaugeView(data: seq<Segment>, arcFill: string, trackFill: string,
                                 caption: int, captionColour: string)

  const Track := "#1e293b"

  function Gauge(score: int): (g: GaugeView)
    ensures g.arcFill == g.captionColour == BandColour(BandOf(score))
    ensures g.caption == score && g.data == Segments(score)
    ensures g.trackFill != g.arcFill
  {
    GaugeView(Segments(score), GetColor(score), Track, score, GetColor(score))
  }
}
