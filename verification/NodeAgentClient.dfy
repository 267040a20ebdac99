/** The worker's HTTP client: one request is retried up to `max` times. */
module NodeAgentClient {
  import opened Wrappers
  import opened Agent

  /** What one attempt gives the client. */
  datatype Outcome =
    | Arrived(answer: Answer)
    | Transient            // httpx.ConnectError or httpx.ReadTimeout
    | OtherError           // an httpx error the retry loop does not catch

  datatype Verdict = Again | Return(answer: Answer) | Raise

  const MAX_RETRIES: nat := 3

  /** What the loop body does with the outcome of attempt number `attempt`. */
  function Decide(attempt: nat, max: nat, outcome: Outcome): Verdict {
    match outcome
    case Transient => if attempt + 1 < max then Again else Raise
    case OtherError => Raise
    case Arrived(answer) => if answer.code >= 500 && attempt + 1 < max then Again else Return(answer)
  }
}
