/**
 * What App.tsx shows for a given state: the dot on the history button,
 * the form and its submit button, the explanatory info box, and the right
 * pane (history list, verdict panel, scanning spinner or placeholder).
 */
module AppView {
  import opened Wrappers
  import opened Types
  import opened AppLogic
  import AnalysisResult

  /** The colour of the small status badge on each history row. */
  function BadgeTone(s: DetectionStatus): AnalysisResult.Tone
  {
    if s == Safe then AnalysisResult.Emerald
    else if s == Suspicious then AnalysisResult.Amber
    else AnalysisResult.Red
  }

  function BadgeClasses(t: AnalysisResult.Tone): string
  {
    match t
    case Emerald => "bg-emerald-500/20 text-emerald-400"
    case Amber => "bg-amber-500/20 text-amber-400"
    case _ => "bg-red-500/20 text-red-400"
  }

  /**
   * The badge of a decided verdict has the colour of the verdict panel's
   * icon; `Pending`, which has no icon and an unstyled banner there, falls
   * through to the red badge of `Malicious`.
   */
  lemma BadgeMatchesIcon(s: DetectionStatus)
    ensures s != Pending ==>
      AnalysisResult.StatusIcon(s).Some? && AnalysisResult.StatusIcon(s).value.tone == BadgeTone(s)
    ensures BadgeTone(s) == BadgeTone(Malicious) <==> s == Malicious || s == Pending
    ensures s == Pending ==> AnalysisResult.StatusIcon(s) == None && BadgeTone(s) == AnalysisResult.Red
  {
  }

  /** One row of the history list. */
  datatype HistoryRow = HistoryRow(badge: string, status: string, title: string, score: int)

  function RowOf(e: EmailCheckHistory): HistoryRow
  {
    HistoryRow(BadgeClasses(BadgeTone(e.analysis.status)), StatusName(e.analysis.status),
               e.subject, e.analysis.riskScore)
  }

  /** `history.map(...)`: one row per entry, newest first as stored. */
  function HistoryRows(history: seq<EmailCheckHistory>): (r: seq<HistoryRow>)
    ensures |r| == |history|
    ensures forall i :: 0 <= i < |r| ==> r[i] == RowOf(history[i])
  {
    if history == [] then [] else [RowOf(history[0])] + HistoryRows(history[1..])
  }

  /** The right-hand pane. */
  datatype SidePane =
    | HistoryList(rows: seq<HistoryRow>)
    | NoHistoryYet
    | Report(view: AnalysisResult.ResultView)
    | Scanning
    | ReadyForInput

  datatype Screen = Screen(
    historyDot: bool,
    formShown: bool,
    submitEnabled: bool,
    submitLabel: string,
    infoBox: bool,
    side: SidePane)

  /** The submit button is enabled only when idle with a non-blank body. */
  predicate SubmitEnabled(isAnalyzing: bool, body: string)
  {
    !isAnalyzing && !IsBlank(body)
  }

  function Render(body: string, isAnalyzing: bool, currentResult: Option<PhishingAnalysis>,
                  history: seq<EmailCheckHistory>, showHistory: bool): Screen
  {
    Screen(
      |history| > 0,
      !showHistory,
      SubmitEnabled(isAnalyzing, body),
      if isAnalyzing then "Analyzing Metadata..." else "Run AI Forensics",
      currentResult.None? && !isAnalyzing,
      if showHistory then
        (if |history| == 0 then NoHistoryYet else HistoryList(HistoryRows(history)))
      else if currentResult.Some? then Report(AnalysisResult.Render(currentResult.value))
      else if isAnalyzing then Scanning
      else ReadyForInput)
  }

  /**
   * The dot on the history button is lit exactly when there is something to
   * list, and the open history pane lists every entry, in stored order.
   */
  lemma HistoryPaneAgreesWithDot(body: string, isAnalyzing: bool, currentResult: Option<PhishingAnalysis>,
                                 history: seq<EmailCheckHistory>)
    ensures var v := Render(body, isAnalyzing, currentResult, history, true);
      (v.historyDot <==> v.side.HistoryList?) &&
      (v.side.HistoryList? ==>
         |v.side.rows| == |history| &&
         forall i :: 0 <= i < |history| ==> v.side.rows[i].title == history[i].subject)
  {
  }

  /**
   * With the history closed, the right pane shows exactly one of the report,
   * the spinner and the placeholder, and the info box appears exactly
   * alongside the placeholder; with it open, the info box is never beside a
   * report or the spinner.
   */
  lemma ExactlyOneMainView(body: string, isAnalyzing: bool, currentResult: Option<PhishingAnalysis>,
                           history: seq<EmailCheckHistory>, showHistory: bool)
    ensures var v := Render(body, isAnalyzing, currentResult, history, showHistory);
      (v.infoBox ==> !v.side.Report? && !v.side.Scanning?) &&
      (!showHistory ==>
        (v.side.Report? || v.side.Scanning? || v.side.ReadyForInput?) &&
        (v.infoBox <==> v.side.ReadyForInput?) &&
        (v.side.Report? <==> currentResult.Some?))
  {
  }

  /** An enabled submit button never sits beside the spinner, and its label says it is idle. */
  lemma EnabledMeansIdle(body: string, isAnalyzing: bool, currentResult: Option<PhishingAnalysis>,
                         history: seq<EmailCheckHistory>, showHistory: bool)
    ensures var v := Render(body, isAnalyzing, currentResult, history, showHistory);
      v.submitEnabled ==>
        !v.side.Scanning? && v.submitLabel == "Run AI Forensics" &&
        exists i :: 0 <= i < |body| && !IsWhitespace(body[i])
  {
    BlankIffAllWhitespace(body);
  }
}
