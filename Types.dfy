/**
 * The records exchanged between the form, the external analysis service,
 * the result panel and the history cache (types.ts).
 */
module Types {
  import opened Wrappers

  /** The four verdicts; in the source a union of string literals. */
  datatype DetectionStatus = Safe | Suspicious | Malicious | Pending

  /**
   * One verdict as the external service returns it. Scores are JavaScript
   * numbers that the application never checks; they are modelled as `int`.
   */
  datatype PhishingAnalysis = PhishingAnalysis(
    riskScore: int,
    status: DetectionStatus,
    redFlags: seq<string>,
    semanticAnalysis: string,
    recommendations: seq<string>,
    classicModelScore: Option<int>)

  /** A persisted history record pairing a past verdict with its title. */
  datatype EmailCheckHistory = EmailCheckHistory(
    id: string,
    timestamp: int,
    subject: string,
    analysis: PhishingAnalysis)

  /** The literal by which a status is written (and displayed). */
  function StatusName(s: DetectionStatus): string
  {
    match s
    case Safe => "Safe"
    case Suspicious => "Suspicious"
    case Malicious => "Malicious"
    case Pending => "Pending"
  }

  /** Reads a status literal back; anything outside the union is rejected. */
  function ParseStatus(t: string): (r: Option<DetectionStatus>)
    ensures r.Some? ==> StatusName(r.value) == t
  {
    if t == "Safe" then Some(Safe)
    else if t == "Suspicious" then Some(Suspicious)
    else if t == "Malicious" then Some(Malicious)
    else if t == "Pending" then Some(Pending)
    else None
  }

  /** Every status survives being written as its literal and read back. */
  lemma StatusNameRoundTrip(s: DetectionStatus)
    ensures ParseStatus(StatusName(s)) == Some(s)
  {
  }

  /** A string is accepted as a status exactly when it is one of the four literals. */
  lemma ParseStatusExact(t: string)
    ensures ParseStatus(t).Some? <==> exists s :: StatusName(s) == t
  {
    if exists s :: StatusName(s) == t {
      var s :| StatusName(s) == t;
      StatusNameRoundTrip(s);
    }
  }
}
