/**
 * The retry policy wrapped around both calls to the model (form detection and batch
 * extraction): up to three attempts, a sleep of 2 s and then 4 s before a retry, and a
 * retry only for an error that looks transient. Anything else is raised at once, and
 * so is a transient error on the last attempt.
 *
 * The model calls themselves are an input: `call(a)` is what attempt `a` would do.
 * The sleeps are returned rather than slept.
 */
module Retry {
  import opened Text

  const MaxRetries: nat := 3
  const FirstDelay: nat := 2

  /** What one call to the model did: it answered, or it raised an exception with this text. */
  datatype Outcome = Answered | Raised(message: string)

  /**
   * How the loop ended: the number of calls made, the sleeps taken between them, and
   * whether an answer came back (if not, the last exception propagates).
   */
  datatype Attempts = Attempts(calls: nat, sleeps: seq<nat>, answered: bool)

  /** The detection call retries when the error text mentions `503` or `429`. */
  predicate DetectTransient(message: string)
  {
    Contains(message, "503") || Contains(message, "429")
  }

  /** The extraction call also retries when the lower-cased error text mentions `overloaded`. */
  predicate ExtractTransient(message: string)
  {
    Contains(message, "503") || Contains(message, "429") || Contains(Lower(message), "overloaded")
  }

  /** The loop from attempt `attempt` on, with `delay` the next sleep. */
  function RetryFrom(call: nat -> Outcome, transient: string -> bool, attempt: nat, delay: nat): (r: Attempts)
    requires attempt < MaxRetries
    ensures attempt + 1 <= r.calls <= MaxRetries
    ensures |r.sleeps| == r.calls - 1 - attempt
    ensures forall k :: 0 <= k < |r.sleeps| ==> r.sleeps[k] == delay * Pow2(k)
    ensures r.answered <==> call(r.calls - 1) == Answered
    ensures forall a :: attempt <= a < r.calls - 1 ==> call(a).Raised? && transient(call(a).message)
    ensures !r.answered ==> r.calls == MaxRetries || !transient(call(r.calls - 1).message)
    decreases MaxRetries - attempt
  {
    match call(attempt)
    case Answered => Attempts(attempt + 1, [], true)
    case Raised(message) =>
      if transient(message) && attempt < MaxRetries - 1 then
        var rest := RetryFrom(call, transient, attempt + 1, delay * 2);
        var sleeps := [delay] + rest.sleeps;
        assert forall k :: 1 <= k < |sleeps| ==> sleeps[k] == rest.sleeps[k - 1] == delay * 2 * Pow2(k - 1);
        Attempts(rest.calls, sleeps, rest.answered)
      else
        Attempts(attempt + 1, [], false)
  }

  function Pow2(k: nat): (p: nat)
    ensures p >= 1
  {
    if k == 0 then 1 else 2 * Pow2(k - 1)
  }

  /** `for attempt in range(max_retries)` with `retry_delay = 2` doubling after each sleep. */
  function RetryLoop(call: nat -> Outcome, transient: string -> bool): (r: Attempts)
    ensures 1 <= r.calls <= MaxRetries
    ensures r.sleeps == [2, 4][..r.calls - 1]
    ensures r.answered <==> call(r.calls - 1) == Answered
    ensures forall a :: 0 <= a < r.calls - 1 ==> call(a).Raised? && transient(call(a).message)
    ensures !r.answered ==> r.calls == MaxRetries || !transient(call(r.calls - 1).message)
  {
    var r := RetryFrom(call, transient, 0, FirstDelay);
    assert |r.sleeps| <= 2;
    assert forall k :: 0 <= k < |r.sleeps| ==> r.sleeps[k] == [2, 4][k] by {
      assert Pow2(1) == 2;
    }
    r
  }

  /** The detection loop. */
  function DetectAttempts(call: nat -> Outcome): (r: Attempts)
    ensures 1 <= r.calls <= MaxRetries && r.sleeps == [2, 4][..r.calls - 1]
    ensures r.answered <==> call(r.calls - 1) == Answered
    ensures forall a :: 0 <= a < r.calls - 1 ==>
      call(a).Raised? && (Contains(call(a).message, "503") || Contains(call(a).message, "429"))
  {
    RetryLoop(call, DetectTransient)
  }

  /** The extraction loop. */
  function ExtractAttempts(call: nat -> Outcome): (r: Attempts)
    ensures 1 <= r.calls <= MaxRetries && r.sleeps == [2, 4][..r.calls - 1]
    ensures r.answered <==> call(r.calls - 1) == Answered
    ensures forall a :: 0 <= a < r.calls - 1 ==>
      call(a).Raised? && (Contains(call(a).message, "503") || Contains(call(a).message, "429") ||
                          Contains(Lower(call(a).message), "overloaded"))
  {
    RetryLoop(call, ExtractTransient)
  }

  /**
   * The loop is determined by the first attempt that answers or fails for good: when
   * attempt `k` answers after `k` transient failures, exactly `k + 1` calls are made
   * with the first `k` sleeps.
   */
  lemma RetryRecovers(call: nat -> Outcome, transient: string -> bool, k: nat)
    requires k < MaxRetries && call(k) == Answered
    requires forall a :: 0 <= a < k ==> call(a).Raised? && transient(call(a).message)
    ensures RetryLoop(call, transient) == Attempts(k + 1, [2, 4][..k], true)
  {
    var r := RetryLoop(call, transient);
    assert !(r.calls - 1 < k);
    assert !(r.calls - 1 > k);
  }

  /** A failure that is not transient is raised after the one call, with no sleep. */
  lemma RetryGivesUp(call: nat -> Outcome, transient: string -> bool)
    requires call(0).Raised? && !transient(call(0).message)
    ensures RetryLoop(call, transient) == Attempts(1, [], false)
  {
    var r := RetryLoop(call, transient);
    assert !(r.calls > 1);
  }

  /**
   * A policy that retries on more errors never makes fewer calls, and where the
   * narrower one gets an answer the wider one gets the same answer the same way.
   */
  lemma {:induction false} RetryFromMonotone(call: nat -> Outcome, narrow: string -> bool, wide: string -> bool, attempt: nat, delay: nat)
    requires attempt < MaxRetries
    requires forall m :: narrow(m) ==> wide(m)
    ensures RetryFrom(call, narrow, attempt, delay).calls <= RetryFrom(call, wide, attempt, delay).calls
    ensures RetryFrom(call, narrow, attempt, delay).answered ==>
      RetryFrom(call, wide, attempt, delay) == RetryFrom(call, narrow, attempt, delay)
    decreases MaxRetries - attempt
  {
    if call(attempt).Raised? && attempt < MaxRetries - 1 {
      if narrow(call(attempt).message) {
        RetryFromMonotone(call, narrow, wide, attempt + 1, delay * 2);
      }
    }
  }

  /** Extraction retries on every error detection retries on, and on `overloaded` besides. */
  lemma ExtractRetriesAtLeastAsLong(call: nat -> Outcome)
    ensures DetectAttempts(call).calls <= ExtractAttempts(call).calls
    ensures DetectAttempts(call).answered ==> ExtractAttempts(call) == DetectAttempts(call)
  {
    RetryFromMonotone(call, DetectTransient, ExtractTransient, 0, FirstDelay);
  }

  /** An "overloaded" error ends detection at once but is retried by extraction. */
  lemma OverloadedOnlyRetriedByExtraction(call: nat -> Outcome)
    requires call(0) == Raised("Model Overloaded") && call(1) == Answered
    ensures DetectAttempts(call) == Attempts(1, [], false)
    ensures ExtractAttempts(call) == Attempts(2, [2], true)
  {
    OverloadedMessage("Model Overloaded");
    RetryGivesUp(call, DetectTransient);
    RetryRecovers(call, ExtractTransient, 1);
  }

  /** "Model Overloaded" is transient for extraction only. */
  lemma OverloadedMessage(m: string)
    requires m == "Model Overloaded"
    ensures !DetectTransient(m) && ExtractTransient(m)
  {
    OverloadedLower(m);
    NoDigits(m);
  }

  lemma OverloadedLower(m: string)
    requires m == "Model Overloaded"
    ensures Contains(Lower(m), "overloaded")
  {
    assert Lower(m) == "model overloaded";
    assert OccursAt(Lower(m), "overloaded", 6);
    ContainsAt(Lower(m), "overloaded", 6);
  }

  /** A message without the digits 5 and 4 names neither status code. */
  lemma NoDigits(m: string)
    requires forall i :: 0 <= i < |m| ==> m[i] != '5' && m[i] != '4'
    ensures !Contains(m, "503") && !Contains(m, "429")
  {
    forall i | 0 <= i <= |m| - 3 ensures !OccursAt(m, "503", i) && !OccursAt(m, "429", i) {
      assert m[i..i + 3][0] == m[i];
    }
  }
}
