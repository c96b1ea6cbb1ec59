/**
 * The App component's state (App.tsx) as an object: the six state fields,
 * the storage slot the history is written through to, and one method per
 * event. The asynchronous `handleAnalyze` is split at its `await`:
 * `BeginAnalyze` is the part before the external call and returns the
 * request sent; `CompleteAnalyze` is the part after it and takes the call's
 * outcome, plus the clock readings, as parameters.
 */
module AppState {
  import opened Wrappers
  import opened Types
  import opened AppLogic
  import opened AppView
  import AnalysisResult

  /** The subject and body a submission sends to the analysis service. */
  datatype Request = Request(subject: string, body: string)

  /** How the awaited external call ended. */
  datatype Outcome = Succeeded(result: PhishingAnalysis) | Failed

  class PhishGuardApp {
    var subject: string
    var body: string
    var isAnalyzing: bool
    var currentResult: Option<PhishingAnalysis>
    var history: seq<EmailCheckHistory>
    var showHistory: bool
    /** The `phishguard_history` slot of local storage. */
    var storage: Slot
    /**
     * The subject and body the awaited submission was made with: the
     * handler's closure keeps them, whatever is typed meanwhile.
     */
    var inFlight: Option<Request>

    /** The slot mirrors the history, and a request is awaited exactly while analyzing. */
    ghost predicate Valid()
      reads this
    {
      storage == Save(history) && (isAnalyzing <==> inFlight.Some?)
    }

    /** What the component renders for the current state. */
    function View(): Screen
      reads this
    {
      Render(body, isAnalyzing, currentResult, history, showHistory)
    }

    /** Mounting: initial state, then the load effect and the write-through effect. */
    constructor (stored: Slot)
      ensures Valid()
      ensures subject == [] && body == [] && !isAnalyzing && currentResult == None && !showHistory
      ensures history == LoadHistory(stored)
    {
      subject, body := [], [];
      isAnalyzing, currentResult := false, None;
      history, showHistory := [], false;
      storage, inFlight := stored, None;
      new;
      match stored {
        case Saved(entries) => history := entries;
        case _ =>
      }
      storage := Save(history);
    }

    /** Typing in the subject field. */
    method SetSubject(s: string)
      requires Valid()
      modifies this`subject
      ensures Valid() && subject == s
    {
      subject := s;
    }

    /** Typing in the body field. */
    method SetBody(s: string)
      requires Valid()
      modifies this`body
      ensures Valid() && body == s
    {
      body := s;
    }

    /**
     * Submitting the form. Nothing happens while an analysis is in flight
     * (the button is disabled) or when the body is blank (the handler
     * returns); otherwise the analysis begins and the request is sent.
     */
    method BeginAnalyze() returns (sent: Option<Request>)
      requires Valid()
      modifies this`isAnalyzing, this`currentResult, this`inFlight
      ensures Valid()
      ensures sent.Some? <==> old(SubmitEnabled(isAnalyzing, body))
      ensures sent.Some? ==>
        sent == Some(Request(subject, body)) && inFlight == sent &&
        isAnalyzing && currentResult == None
      ensures sent.Some? ==>
        !View().submitEnabled && !View().infoBox && (!showHistory ==> View().side == Scanning)
      ensures sent.None? ==>
        isAnalyzing == old(isAnalyzing) && currentResult == old(currentResult) &&
        inFlight == old(inFlight)
    {
      if isAnalyzing {
        return None;
      }
      if IsBlank(body) {
        return None;
      }
      isAnalyzing := true;
      currentResult := None;
      inFlight := Some(Request(subject, body));
      sent := inFlight;
    }

    /**
     * The awaited call settles. On success the result is shown and a new
     * entry, titled from the submitted subject and body, is put at the head
     * of the current history, cut to 20; on failure nothing but the
     * analyzing flag changes. Either way the analysis is over.
     */
    method CompleteAnalyze(outcome: Outcome, id: string, timestamp: int)
      requires Valid() && isAnalyzing
      modifies this`isAnalyzing, this`currentResult, this`history, this`storage, this`inFlight
      ensures Valid() && !isAnalyzing && inFlight == None
      ensures outcome.Succeeded? ==>
        currentResult == Some(outcome.result) &&
        history == Push(NewEntry(id, timestamp, old(inFlight).value.subject,
                                 old(inFlight).value.body, outcome.result), old(history))
      ensures outcome.Failed? ==>
        currentResult == old(currentResult) && history == old(history) && storage == old(storage)
      ensures View().submitEnabled <==> !IsBlank(body)
      ensures outcome.Succeeded? && !showHistory ==>
        View().side == Report(AnalysisResult.Render(outcome.result)) && !View().infoBox
    {
      var request := inFlight.value;
      match outcome {
        case Succeeded(result) =>
          currentResult := Some(result);
          var entry := NewEntry(id, timestamp, request.subject, request.body, result);
          history := Push(entry, history);
          storage := Save(history);
        case Failed =>
      }
      isAnalyzing := false;
      inFlight := None;
    }

    /** The clear-all button: the slot is removed, then rewritten with the empty list. */
    method ClearHistory()
      requires Valid()
      modifies this`history, this`storage
      ensures Valid() && history == [] && LoadHistory(storage) == []
      ensures !View().historyDot && (showHistory ==> View().side == NoHistoryYet)
    {
      history := [];
      storage := Missing;
      storage := Save(history);
    }

    /** Picking a past entry shows its verdict and closes the history pane. */
    method SelectHistoryItem(item: EmailCheckHistory)
      requires Valid()
      modifies this`currentResult, this`showHistory
      ensures Valid() && currentResult == Some(item.analysis) && !showHistory
      ensures View().side == Report(AnalysisResult.Render(item.analysis)) && !View().infoBox
    {
      currentResult := Some(item.analysis);
      showHistory := false;
    }

    /** The history button flips between the form and the history pane. */
    method ToggleHistory()
      requires Valid()
      modifies this`showHistory
      ensures Valid() && showHistory == !old(showHistory)
    {
      showHistory := !showHistory;
    }
  }

  /** Reloading the page brings back the same history, in the same order. */
  method Reload(app: PhishGuardApp) returns (next: PhishGuardApp)
    requires app.Valid()
    ensures next.Valid() && next.history == app.history && next.currentResult == None
  {
    SaveLoadRoundTrip(app.history);
    next := new PhishGuardApp(app.storage);
  }

  /** A blank body is never sent, and nothing is recorded. */
  method BlankSubmission(stored: Slot, subject: string, blank: string)
    returns (sent: Option<Request>, history: seq<EmailCheckHistory>)
    requires AllWhitespace(blank)
    ensures sent == None && history == LoadHistory(stored)
  {
    var app := new PhishGuardApp(stored);
    app.SetSubject(subject);
    app.SetBody(blank);
    BlankIffAllWhitespace(blank);
    sent := app.BeginAnalyze();
    history := app.history;
  }

  /** A call that fails right after submission leaves no result and no new entry. */
  method FailedSubmission(stored: Slot, subject: string, body: string)
    returns (sent: Option<Request>, shown: Option<PhishingAnalysis>, history: seq<EmailCheckHistory>)
    requires !AllWhitespace(body)
    ensures sent == Some(Request(subject, body))
    ensures shown == None && history == LoadHistory(stored)
  {
    var app := new PhishGuardApp(stored);
    app.SetSubject(subject);
    app.SetBody(body);
    BlankIffAllWhitespace(body);
    sent := app.BeginAnalyze();
    app.CompleteAnalyze(Failed, "", 0);
    shown, history := app.currentResult, app.history;
  }

  /**
   * A successful analysis is shown and heads the history under the subject
   * typed when it was submitted (or the body's opening when that was
   * empty), even if the subject field is edited while the call is awaited.
   */
  method SuccessfulSubmission(stored: Slot, subject: string, body: string, result: PhishingAnalysis,
                              id: string, timestamp: int)
    returns (shown: Option<PhishingAnalysis>, history: seq<EmailCheckHistory>)
    requires !AllWhitespace(body)
    ensures shown == Some(result)
    ensures |history| == Min(|LoadHistory(stored)| + 1, Cap)
    ensures history[0] == EmailCheckHistory(id, timestamp, EntryTitle(subject, body), result)
    ensures history[1..] == LoadHistory(stored)[..|history| - 1]
  {
    var app := new PhishGuardApp(stored);
    app.SetSubject(subject);
    app.SetBody(body);
    BlankIffAllWhitespace(body);
    var sent := app.BeginAnalyze();
    app.SetSubject("");
    app.CompleteAnalyze(Succeeded(result), id, timestamp);
    shown, history := app.currentResult, app.history;
  }
}
