/**
 * The closing paragraph that every cron job's summary e-mail shares: the
 * error the job's cursor or fan-out finished with, if any.
 */
module SummaryMail {
  import opened Wrappers
  import opened Js

  /** The paragraph naming the error the job failed with; empty exactly when the error is falsy. */
  function ErrorParagraph(error: Option<string>): (p: string)
    ensures p != "" <==> Truthy(error)
  {
    if Truthy(error) then "<p>Error finishing cursor: " + error.value + "</p>" else ""
  }
}
