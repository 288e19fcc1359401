/** The owner's model run: bounded attempts, repaired only after errors that allow it. */
module GradingAttempts {
  import opened Wrappers

  datatype Code = OutputInvalid | EvidenceFailed | ModelUnavailable | RateLimited | OtherCode(name: string)

  datatype Fault = Fault(code: Code, retryable: bool)

  /** What one request to the model, with its normalisation, comes to. */
  datatype Outcome = Usable(answer: string) | Faulty(fault: Fault)

  /** repair is the error code the last request was asked to repair, if any. */
  datatype Graded = Graded(answer: string, attempts: nat, repair: Option<Code>, priorCodes: seq<Code>)

  predicate Repairable(f: Fault) {
    match f.code
    case OutputInvalid => true
    case EvidenceFailed => true
    case ModelUnavailable => f.retryable
    case RateLimited => f.retryable
    case OtherCode(_) => false
  }

  /** Attempt k ends the run: it is usable, not repairable, or the last one allowed. */
  predicate Ends(script: nat -> Outcome, maxRetries: nat, k: nat) {
    script(k).Usable? || !Repairable(script(k).fault) || k >= maxRetries
  }

  /** The attempt at which the run stops. */
  function StopsAt(script: nat -> Outcome, maxRetries: nat, k: nat): nat
    requires k <= maxRetries
    decreases maxRetries - k
  {
    if Ends(script, maxRetries, k) then k else StopsAt(script, maxRetries, k + 1)
  }

  /** Codes of the first k attempts, which all failed. */
  function Codes(script: nat -> Outcome, k: nat): seq<Code>
    requires forall i :: 0 <= i < k ==> script(i).Faulty?
  {
    seq(k, i requires 0 <= i < k => script(i).fault.code)
  }

  method GradeUncached(script: nat -> Outcome, maxRetries: nat) returns (r: Result<Graded, Fault>)
    ensures var k := StopsAt(script, maxRetries, 0);
      && (forall i :: 0 <= i < k ==> script(i).Faulty?)
      && r == match script(k)
              case Usable(answer) =>
                Success(Graded(answer, k + 1, if k > 0 then Some(Codes(script, k)[k - 1]) else None, Codes(script, k)))
              case Faulty(fault) => Failure(fault)
  {
    var priorCodes: seq<Code> := [];
    var attempt := 0;
    while attempt <= maxRetries
      invariant attempt <= maxRetries && StopsAt(script, maxRetries, attempt) == StopsAt(script, maxRetries, 0)
      invariant forall i :: 0 <= i < attempt ==> script(i).Faulty?
      invariant priorCodes == Codes(script, attempt)
      decreases maxRetries - attempt
    {
      var repair := if priorCodes == [] then None else Some(priorCodes[|priorCodes| - 1]);
      match script(attempt) {
        case Usable(answer) => return Success(Graded(answer, attempt + 1, repair, priorCodes));
        case Faulty(fault) =>
          priorCodes := priorCodes + [fault.code];
          if attempt >= maxRetries || !Repairable(fault) {
            return Failure(fault);
          }
      }
      attempt := attempt + 1;
    }
  }

  /** The stop is the one attempt that ends the run while none before it did; it is within the retry limit. */
  lemma {:induction false} StopsAtFirstEnd(script: nat -> Outcome, maxRetries: nat, from: nat, k: nat)
    requires from <= maxRetries && from <= k
    ensures from <= StopsAt(script, maxRetries, from) <= maxRetries
    ensures k == StopsAt(script, maxRetries, from) <==>
      Ends(script, maxRetries, k) && forall i :: from <= i < k ==> !Ends(script, maxRetries, i)
    decreases maxRetries - from
  {
    hide Repairable;
    if !Ends(script, maxRetries, from) {
      if k > from {
        StopsAtFirstEnd(script, maxRetries, from + 1, k);
      } else {
        StopsAtFirstEnd(script, maxRetries, from + 1, from + 1);
      }
    }
  }
}
