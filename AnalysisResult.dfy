/**
 * The verdict panel (components/AnalysisResult.tsx) as a view record: the
 * status banner with its icon and style classes, the risk gauge, the list
 * of red flags (with a notice when there are none), the free-text
 * rationale and the list of recommended actions.
 */
module AnalysisResult {
  import opened Wrappers
  import opened Types
  import RiskGauge

  datatype Glyph = ShieldCheck | AlertTriangle | ShieldAlert | ChevronRight

  /** The colour family of an icon. */
  datatype Tone = Emerald | Amber | Red | Indigo

  datatype Icon = Icon(glyph: Glyph, tone: Tone)

  /** `StatusIcon`: one icon per decided verdict, none for `Pending`. */
  function StatusIcon(s: DetectionStatus): (r: Option<Icon>)
    ensures r.None? <==> s == Pending
    ensures r.Some? ==> r.value.glyph != ChevronRight
  {
    match s
    case Safe => Some(Icon(ShieldCheck, Emerald))
    case Suspicious => Some(Icon(AlertTriangle, Amber))
    case Malicious => Some(Icon(ShieldAlert, Red))
    case Pending => None
  }

  /** `statusColors`: the banner's style classes, total over the four statuses. */
  function StatusColors(s: DetectionStatus): string
  {
    match s
    case Safe => "bg-emerald-500/10 text-emerald-400 border-emerald-500/20"
    case Suspicious => "bg-amber-500/10 text-amber-400 border-amber-500/20"
    case Malicious => "bg-red-500/10 text-red-400 border-red-500/20"
    case Pending => ""
  }

  /**
   * The icon and the banner agree: a status has an icon exactly when its
   * banner is styled, and only `Pending` has neither.
   */
  lemma IconMatchesBanner(s: DetectionStatus)
    ensures StatusIcon(s).Some? <==> |StatusColors(s)| > 0
    ensures StatusIcon(s).None? <==> s == Pending
  {
  }

  /** Distinct decided verdicts get distinct icons. */
  lemma StatusIconInjective(s: DetectionStatus, t: DetectionStatus)
    requires StatusIcon(s).Some? && StatusIcon(s) == StatusIcon(t)
    ensures s == t
  {
  }

  /** One rendered list row: an item with its marker icon, or a notice in place of items. */
  datatype Row = Item(marker: Icon, text: string) | Notice(text: string)

  const RedFlagMarker := Icon(AlertTriangle, Amber)
  const ActionMarker := Icon(ChevronRight, Indigo)
  const NoRedFlags := "No significant red flags detected."

  /** `texts.map(...)`: one item row per string, in order. */
  function Items(marker: Icon, texts: seq<string>): (r: seq<Row>)
    ensures |r| == |texts|
    ensures forall i :: 0 <= i < |r| ==> r[i] == Item(marker, texts[i])
  {
    if texts == [] then [] else [Item(marker, texts[0])] + Items(marker, texts[1..])
  }

  /** The texts of the item rows of a list, in order; notices are skipped. */
  function ItemTexts(rows: seq<Row>): seq<string>
  {
    if rows == [] then []
    else if rows[0].Item? then [rows[0].text] + ItemTexts(rows[1..])
    else ItemTexts(rows[1..])
  }

  /** How many notice rows a list holds. */
  function NoticeCount(rows: seq<Row>): nat
  {
    if rows == [] then 0 else (if rows[0].Notice? then 1 else 0) + NoticeCount(rows[1..])
  }

  lemma {:induction false} ItemTextsAppend(a: seq<Row>, b: seq<Row>)
    ensures ItemTexts(a + b) == ItemTexts(a) + ItemTexts(b)
    ensures NoticeCount(a + b) == NoticeCount(a) + NoticeCount(b)
  {
    if a != [] {
      assert (a + b)[1..] == a[1..] + b;
      ItemTextsAppend(a[1..], b);
    } else {
      assert a + b == b;
    }
  }

  /** Every string shows up exactly once as an item, in input order, and no notice is added. */
  lemma {:induction false} ItemsRoundTrip(marker: Icon, texts: seq<string>)
    ensures ItemTexts(Items(marker, texts)) == texts
    ensures NoticeCount(Items(marker, texts)) == 0
  {
    if texts != [] {
      var r := Items(marker, texts);
      assert r[1..] == Items(marker, texts[1..]);
      ItemsRoundTrip(marker, texts[1..]);
    }
  }

  /** The "Critical Red Flags" list: the flags, then a notice when there are none. */
  function RedFlagRows(flags: seq<string>): (r: seq<Row>)
    ensures |r| == |flags| + (if flags == [] then 1 else 0)
    ensures forall i :: 0 <= i < |flags| ==> r[i] == Item(RedFlagMarker, flags[i])
    ensures flags == [] ==> r == [Notice(NoRedFlags)]
  {
    Items(RedFlagMarker, flags) + (if |flags| == 0 then [Notice(NoRedFlags)] else [])
  }

  /** The "Recommended Actions" list: the recommendations, with no notice when empty. */
  function ActionRows(recommendations: seq<string>): (r: seq<Row>)
    ensures |r| == |recommendations|
    ensures forall i :: 0 <= i < |r| ==> r[i] == Item(ActionMarker, recommendations[i])
  {
    Items(ActionMarker, recommendations)
  }

  /** Each red flag appears once, in order, and the notice appears iff there are no flags. */
  lemma RedFlagRowsSpec(flags: seq<string>)
    ensures ItemTexts(RedFlagRows(flags)) == flags
    ensures NoticeCount(RedFlagRows(flags)) == (if flags == [] then 1 else 0)
    ensures NoticeCount(RedFlagRows(flags)) > 0 <==> flags == []
  {
    var tail := if |flags| == 0 then [Notice(NoRedFlags)] else [];
    ItemTextsAppend(Items(RedFlagMarker, flags), tail);
    ItemsRoundTrip(RedFlagMarker, flags);
    assert tail == [] || tail[1..] == [];
  }

  /** Each recommendation appears once, in order; an empty list shows nothing at all. */
  lemma ActionRowsSpec(recommendations: seq<string>)
    ensures ItemTexts(ActionRows(recommendations)) == recommendations
    ensures NoticeCount(ActionRows(recommendations)) == 0
    ensures recommendations == [] <==> ActionRows(recommendations) == []
  {
    ItemsRoundTrip(ActionMarker, recommendations);
  }

  /** Everything the panel shows for one verdict. */
  datatype ResultView = ResultView(
    bannerClasses: string,
    icon: Option<Icon>,
    heading: string,
    gauge: RiskGauge.GaugeView,
    redFlags: seq<Row>,
    semanticAnalysis: string,
    actions: seq<Row>)

  function Render(a: PhishingAnalysis): ResultView
  {
    ResultView(StatusColors(a.status), StatusIcon(a.status),
               "Detection Result: " + StatusName(a.status),
               RiskGauge.Gauge(a.riskScore), RedFlagRows(a.redFlags),
               a.semanticAnalysis, ActionRows(a.recommendations))
  }

  /**
   * The panel loses nothing of the verdict: the status can be read back from
   * the heading, the score from the gauge, and both lists item by item.
   */
  lemma RenderShowsVerdict(a: PhishingAnalysis)
    ensures var v := Render(a);
      ParseStatus(v.heading[|"Detection Result: "|..]) == Some(a.status) &&
      v.gauge.caption == a.riskScore &&
      v.gauge.arcFill == RiskGauge.GetColor(a.riskScore) &&
      ItemTexts(v.redFlags) == a.redFlags &&
      ItemTexts(v.actions) == a.recommendations &&
      v.semanticAnalysis == a.semanticAnalysis
  {
    var v := Render(a);
    assert v.heading[|"Detection Result: "|..] == StatusName(a.status);
    StatusNameRoundTrip(a.status);
    RedFlagRowsSpec(a.redFlags);
    ActionRowsSpec(a.recommendations);
  }
}
