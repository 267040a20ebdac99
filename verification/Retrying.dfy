/** The client's retry loop, over whatever outcomes the transport produces. */
module Retrying {
  import opened Wrappers
  import opened Agent
  import opened NodeAgentClient

  /** How the loop ends without an answer: with the error of that attempt, one the loop does not
      catch, or the assertion behind the loop. */
  datatype Raised = Transport(attempt: nat) | Uncaught(attempt: nat) | AssertionFailed

  function Pow2(n: nat): (p: nat)
    ensures p >= 1
  {
    if n == 0 then 1 else 2 * Pow2(n - 1)
  }

  /** An outcome that ends the loop at once. */
  predicate Settles(outcome: Outcome) {
    outcome.OtherError? || (outcome.Arrived? && outcome.answer.code < 500)
  }

  /** What an attempt means as the last one. */
  function Final(outcome: Outcome, attempt: nat): Result<Answer, Raised> {
    match outcome
    case Arrived(answer) => Ok(answer)
    case Transient => Err(Transport(attempt))
    case OtherError => Err(Uncaught(attempt))
  }

  /** The attempt that decides: the first that settles, or else the last of the `max`. */
  predicate Decisive(outcomes: seq<Outcome>, max: nat, attempt: nat)
    requires max <= |outcomes|
  {
    && attempt < max
    && (forall i :: 0 <= i < attempt ==> !Settles(outcomes[i]))
    && (Settles(outcomes[attempt]) || attempt == max - 1)
  }

  /** The transport: one outcome for each request, whatever the network makes of it. */
  class Wire {
    const outcomes: seq<Outcome>
    var sent: nat

    constructor (outcomes: seq<Outcome>)
      ensures this.outcomes == outcomes && sent == 0
    {
      this.outcomes := outcomes;
      sent := 0;
    }

    method Request() returns (outcome: Outcome)
      requires sent < |outcomes|
      modifies this
      ensures outcome == outcomes[old(sent)] && sent == old(sent) + 1
    {
      outcome := outcomes[sent];
      sent := sent + 1;
    }
  }

  class Client {
    const wire: Wire
    const maxRetries: nat
    var slept: nat       // in half seconds

    constructor (wire: Wire, maxRetries: nat)
      ensures this.wire == wire && this.maxRetries == maxRetries && slept == 0
    {
      this.wire := wire;
      this.maxRetries := maxRetries;
      slept := 0;
    }

    method Sleep(halfSeconds: nat)
      modifies this
      ensures slept == old(slept) + halfSeconds
    {
      slept := slept + halfSeconds;
    }

    /** At most `maxRetries` requests; the result is that of the deciding attempt; the back-off
        stays below half of 2^maxRetries seconds; the assertion fails only without any attempt. */
    method Retry() returns (result: Result<Answer, Raised>)
      requires wire.sent == 0 && slept == 0 && maxRetries <= |wire.outcomes|
      modifies this, wire
      ensures wire.sent <= maxRetries
      ensures result == Err(AssertionFailed) <==> maxRetries == 0
      ensures maxRetries > 0 ==>
        && wire.sent > 0
        && Decisive(wire.outcomes, maxRetries, wire.sent - 1)
        && result == Final(wire.outcomes[wire.sent - 1], wire.sent - 1)
      // it goes on after a failed connect, a read timeout or a 5xx, and after nothing else
      ensures forall i :: 0 <= i < wire.sent - 1 ==>
        wire.outcomes[i] == Transient || (wire.outcomes[i].Arrived? && wire.outcomes[i].answer.code >= 500)
      ensures 0 < wire.sent < maxRetries ==>
        var last := wire.outcomes[wire.sent - 1]; last == OtherError || (last.Arrived? && last.answer.code < 500)
      ensures forall answer ::
        result == Ok(answer) <==> wire.sent > 0 && wire.outcomes[wire.sent - 1] == Arrived(answer)
      // 1, 2, 4, ... half seconds, one pause for each attempt it went on from
      ensures maxRetries > 0 ==>
        slept == Pow2(if wire.outcomes[wire.sent - 1] == Transient then wire.sent else wire.sent - 1) - 1
      ensures maxRetries == 3 ==>
        slept == if wire.sent == 1 then 0 else if wire.sent == 2 then 1
                 else if wire.outcomes[2] == Transient then 7 else 3
      ensures slept <= Pow2(maxRetries) - 1
    {
      var lastExc: Option<nat> := None;
      var attempt := 0;
      while attempt < maxRetries
        invariant attempt <= maxRetries && wire.sent == attempt
        invariant forall i :: 0 <= i < attempt ==> !Settles(wire.outcomes[i])
        invariant attempt > 0 && wire.outcomes[attempt - 1].Transient? ==> lastExc == Some(attempt - 1)
        invariant attempt == 0 ==> lastExc.None?
        invariant attempt == maxRetries && attempt > 0 ==> wire.outcomes[attempt - 1].Transient?
        invariant slept == Pow2(attempt) - 1
        decreases maxRetries - attempt
      {
        var outcome := wire.Request();
        match outcome {
          case Transient =>
            lastExc := Some(attempt);
            Sleep(Pow2(attempt));
          case OtherError =>
            SleepGrows(attempt, maxRetries);
            return Err(Uncaught(attempt));
          case Arrived(response) =>
            if response.code >= 500 && attempt < maxRetries - 1 {
              Sleep(Pow2(attempt));
            } else {
              SleepGrows(attempt, maxRetries);
              return Ok(response);
            }
        }
        attempt := attempt + 1;
      }
      if lastExc.None? { return Err(AssertionFailed); }
      return Err(Transport(lastExc.value));
    }
  }

  lemma {:induction false} SleepGrows(m: nat, n: nat)
    requires m <= n
    ensures Pow2(m) <= Pow2(n)
    decreases n
  {
    if m < n {
      SleepGrows(m, n - 1);
    }
  }

  // ----- the step machine's attempts are the iterations of this loop

  /** Where a job's attempts, decided one at a time, come to an end. */
  function Follow(outcomes: seq<Outcome>, max: nat, attempt: nat): (nat, Verdict)
    requires attempt < max <= |outcomes|
    decreases max - attempt
  {
    var verdict := Decide(attempt, max, outcomes[attempt]);
    if verdict.Again? && attempt + 1 < max then Follow(outcomes, max, attempt + 1) else (attempt, verdict)
  }

  /** One decision per attempt ends at the same attempt and with the same result as the loop. */
  lemma {:induction false} FollowIsRetry(outcomes: seq<Outcome>, max: nat, attempt: nat)
    requires attempt < max <= |outcomes|
    requires forall i :: 0 <= i < attempt ==> !Settles(outcomes[i])
    ensures var (last, verdict) := Follow(outcomes, max, attempt);
      && attempt <= last && Decisive(outcomes, max, last)
      && verdict == match Final(outcomes[last], last) { case Ok(answer) => Return(answer) case Err(_) => Raise }
    decreases max - attempt
  {
    var verdict := Decide(attempt, max, outcomes[attempt]);
    if verdict.Again? {
      FollowIsRetry(outcomes, max, attempt + 1);
    }
  }

  /** So the machine's attempts and the loop of `Client.Retry` agree on where they end and on what
      they give, whatever the outcomes. */
  lemma MachineIsLoop(outcomes: seq<Outcome>, max: nat, last: nat)
    requires max <= |outcomes| && Decisive(outcomes, max, last)
    ensures Follow(outcomes, max, 0) ==
      (last, match Final(outcomes[last], last) { case Ok(answer) => Return(answer) case Err(_) => Raise })
  {
    FollowIsRetry(outcomes, max, 0);
  }
}
