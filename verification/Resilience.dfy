/** The retry loop of a resilience policy. */
module Resilience {
  import opened Text

  /** Why one attempt failed: an HTTP status, no response, a cancellation, or the policy itself (timeout,
      open circuit). */
  datatype Failure = Status(code: nat) | Network | Canceled | PolicyRejected

  datatype Result = Success | Failed(failure: Failure)

  /** A transient failure that retries act on: a configured status, or no response at all. */
  predicate Retriable(failure: Failure, statusCodes: set<nat>) {
    match failure
    case Status(code) => code in statusCodes
    case Network => true
    case Canceled => false
    case PolicyRejected => false
  }

  const RETRIED_METHODS := {"GET", "HEAD", "OPTIONS", "QUERY", "PUT", "DELETE"}

  function UpperChar(c: char): char {
    if 'a' <= c <= 'z' then c - 'a' + 'A' else c
  }

  function Upper(s: string): string {
    if s == "" then "" else [UpperChar(s[0])] + Upper(s[1..])
  }

  /** The call's own choice, else whether its method is idempotent (section 9.2.2 of RFC 9110) or QUERY. */
  predicate MayRetry(method_: Option<string>, retry: Option<bool>) {
    if retry.Some? then retry.value
    else Upper(if method_.Some? then method_.value else "GET") in RETRIED_METHODS
  }

  /** How many attempts one execution may make. */
  function Budget(count: nat, mayRetry: bool): nat {
    (if mayRetry then count else 0) + 1
  }

  /** Whether attempt number `attempt` is followed by another one. */
  predicate GoesOn(result: Result, attempt: nat, budget: nat, statusCodes: set<nat>) {
    result.Failed? && attempt + 1 < budget && Retriable(result.failure, statusCodes)
  }

  /** An attempt is followed by another exactly when one is left and it failed without a response, or with a
      configured status. */
  lemma GoesOnIff(result: Result, attempt: nat, budget: nat, statusCodes: set<nat>)
    ensures GoesOn(result, attempt, budget, statusCodes) <==>
      attempt + 1 < budget
      && (result == Failed(Network) || exists code :: code in statusCodes && result == Failed(Status(code)))
  {
  }

  predicate SameLetter(a: char, b: char) {
    a == b || ('a' <= a <= 'z' && b == a - 'a' + 'A')
  }

  /** The method is this one, in whatever case. */
  predicate IsMethod(method_: string, name: string) {
    |method_| == |name| && forall i :: 0 <= i < |name| ==> SameLetter(method_[i], name[i])
  }

  lemma {:induction false} UpperIff(s: string, name: string)
    requires forall i :: 0 <= i < |name| ==> 'A' <= name[i] <= 'Z'
    ensures Upper(s) == name <==> IsMethod(s, name)
  {
    if s != "" && name != "" {
      UpperIff(s[1..], name[1..]);
      if IsMethod(s, name) {
        assert IsMethod(s[1..], name[1..]);
      }
      assert name == [name[0]] + name[1..];
      if Upper(s) == name {
        assert Upper(s)[0] == UpperChar(s[0]) && Upper(s)[1..] == Upper(s[1..]);
        forall i | 0 <= i < |name| ensures SameLetter(s[i], name[i]) {
          if i > 0 {
            assert s[1..][i - 1] == s[i] && name[1..][i - 1] == name[i];
          }
        }
      }
    }
  }

  /** Retried by default is what names one of six methods, whatever its case, or none; the call's own choice wins. */
  lemma MayRetryIff(method_: Option<string>, retry: Option<bool>)
    ensures MayRetry(method_, retry) <==>
      match retry
      case Some(choice) => choice
      case None =>
        || method_.None?
        || IsMethod(method_.value, "GET") || IsMethod(method_.value, "HEAD") || IsMethod(method_.value, "OPTIONS")
        || IsMethod(method_.value, "QUERY") || IsMethod(method_.value, "PUT") || IsMethod(method_.value, "DELETE")
  {
    UpperIff("GET", "GET");
    if method_.Some? {
      UpperIff(method_.value, "GET");
      UpperIff(method_.value, "HEAD");
      UpperIff(method_.value, "OPTIONS");
      UpperIff(method_.value, "QUERY");
      UpperIff(method_.value, "PUT");
      UpperIff(method_.value, "DELETE");
    }
  }

  /** The last attempt made, from `attempt` on, when the `n`-th ends as `outcome(n)`. */
  function LastAttempt(outcome: nat -> Result, attempt: nat, budget: nat, statusCodes: set<nat>): nat
    decreases budget - attempt
  {
    if GoesOn(outcome(attempt), attempt, budget, statusCodes)
    then LastAttempt(outcome, attempt + 1, budget, statusCodes)
    else attempt
  }

  /** Retrying stops at the first attempt that succeeds, cannot be retried, or uses up the budget. */
  lemma {:induction false} LastAttemptIsFirstToStop(
    outcome: nat -> Result, attempt: nat, budget: nat, statusCodes: set<nat>)
    requires attempt < budget
    ensures var last := LastAttempt(outcome, attempt, budget, statusCodes);
      && attempt <= last < budget
      && !GoesOn(outcome(last), last, budget, statusCodes)
      && forall n :: attempt <= n < last ==> GoesOn(outcome(n), n, budget, statusCodes)
    decreases budget - attempt
  {
    if GoesOn(outcome(attempt), attempt, budget, statusCodes) {
      LastAttemptIsFirstToStop(outcome, attempt + 1, budget, statusCodes);
    }
  }

  /** One execution under the policy. `aborted(n)` says whether the caller had given up before attempt `n`. */
  method Execute(outcome: nat -> Result, aborted: nat -> bool, count: nat, mayRetry: bool, statusCodes: set<nat>)
    returns (result: Result, attempts: nat)
    ensures attempts <= Budget(count, mayRetry)
    ensures (forall n :: !aborted(n)) ==>
      var last := LastAttempt(outcome, 0, Budget(count, mayRetry), statusCodes);
      attempts == last + 1 && result == outcome(last)
    ensures forall n :: 0 <= n < attempts ==> !aborted(n)
    ensures forall n :: 0 <= n < attempts - 1 ==> GoesOn(outcome(n), n, Budget(count, mayRetry), statusCodes)
  {
    var maxRetries := if mayRetry then count else 0;
    attempts := 0;
    while true
      invariant attempts <= maxRetries
      invariant LastAttempt(outcome, 0, maxRetries + 1, statusCodes)
        == LastAttempt(outcome, attempts, maxRetries + 1, statusCodes)
      invariant forall n :: 0 <= n < attempts ==> !aborted(n) && GoesOn(outcome(n), n, maxRetries + 1, statusCodes)
      decreases maxRetries - attempts
    {
      if aborted(attempts) {
        return Failed(Canceled), attempts;
      }
      result := outcome(attempts);
      if result.Success? || attempts >= maxRetries || !Retriable(result.failure, statusCodes) {
        attempts := attempts + 1;
        return;
      }
      attempts := attempts + 1;
    }
  }
}
