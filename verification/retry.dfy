/** The bounded retry loop main.py wraps around each Spotify call:

      for _ in range(MAX_RETRIES):
          try: <call>
          except (ConnectError, ReadTimeout): continue
          break
      else: <skip this item>

    An external call is given as an oracle `call` from the attempt number to
    what that attempt did. */
module Retry {

  /** `MAX_RETRIES` in main.py. */
  const MAX_RETRIES: nat := 5

  /** What one attempt of an external call did. */
  datatype Attempt<R> =
    | ConnectError             // httpx ConnectError: caught, the loop retries
    | ReadTimeout              // httpx ReadTimeout: caught, the loop retries
    | OtherException           // any other exception: not caught, it leaves the loop
    | Returned(response: R)    // a response arrived, whatever its status code

  predicate Retryable<R>(a: Attempt<R>) {
    a.ConnectError? || a.ReadTimeout?
  }

  /** How the loop ended. */
  datatype Retried<R> =
    | Settled(response: R)     // `break` after a response
    | Raised                   // an uncaught exception propagates to the caller
    | Exhausted                // the `else` branch: every attempt failed, the item is skipped

  /** The outcome of a non-retryable attempt. */
  function Conclusion<R>(a: Attempt<R>): (r: Retried<R>)
    requires !Retryable(a)
    ensures r.Settled? <==> a.Returned?
    ensures r.Settled? ==> r.response == a.response
    ensures !r.Exhausted?
  {
    if a.Returned? then Settled(a.response) else Raised
  }

  /** The outcome of the loop when it reaches attempt `k`. */
  function OutcomeFrom<R>(call: nat -> Attempt<R>, k: nat): Retried<R>
    requires k <= MAX_RETRIES
    decreases MAX_RETRIES - k
  {
    if k == MAX_RETRIES then Exhausted
    else if Retryable(call(k)) then OutcomeFrom(call, k + 1)
    else Conclusion(call(k))
  }

  /** How many attempts the loop makes once it reaches attempt `k`. */
  function AttemptsFrom<R>(call: nat -> Attempt<R>, k: nat): nat
    requires k <= MAX_RETRIES
    decreases MAX_RETRIES - k
  {
    if k == MAX_RETRIES then 0
    else if Retryable(call(k)) then 1 + AttemptsFrom(call, k + 1)
    else 1
  }

  /** The outcome of the whole loop. */
  function Outcome<R>(call: nat -> Attempt<R>): Retried<R> {
    OutcomeFrom(call, 0)
  }

  /** The number of attempts the whole loop makes. */
  function AttemptsMade<R>(call: nat -> Attempt<R>): nat {
    AttemptsFrom(call, 0)
  }

  /** The loop makes between one and `MAX_RETRIES` attempts; every attempt
      but the last raised a retryable error; the last one decides the
      outcome, unless it was the fifth and also retryable. */
  lemma {:induction false} AttemptsMadeSpec<R>(call: nat -> Attempt<R>)
    ensures 1 <= AttemptsMade(call) <= MAX_RETRIES
    ensures forall k :: 0 <= k < AttemptsMade(call) - 1 ==> Retryable(call(k))
    ensures Outcome(call).Exhausted? <==>
              AttemptsMade(call) == MAX_RETRIES && Retryable(call(MAX_RETRIES - 1))
    ensures !Outcome(call).Exhausted? ==>
              !Retryable(call(AttemptsMade(call) - 1)) &&
              Outcome(call) == Conclusion(call(AttemptsMade(call) - 1))
  {
    AttemptsFromSpec(call, 0);
  }

  lemma {:induction false} AttemptsFromSpec<R>(call: nat -> Attempt<R>, k: nat)
    requires k < MAX_RETRIES
    ensures 1 <= AttemptsFrom(call, k) <= MAX_RETRIES - k
    ensures forall j :: k <= j < k + AttemptsFrom(call, k) - 1 ==> Retryable(call(j))
    ensures OutcomeFrom(call, k).Exhausted? <==>
              k + AttemptsFrom(call, k) == MAX_RETRIES && Retryable(call(MAX_RETRIES - 1))
    ensures !OutcomeFrom(call, k).Exhausted? ==>
              !Retryable(call(k + AttemptsFrom(call, k) - 1)) &&
              OutcomeFrom(call, k) == Conclusion(call(k + AttemptsFrom(call, k) - 1))
    decreases MAX_RETRIES - k
  {
    if Retryable(call(k)) && k + 1 < MAX_RETRIES {
      AttemptsFromSpec(call, k + 1);
    }
  }

  /** The items skipped are exactly those whose every attempt raised a
      connect error or a read timeout. */
  lemma {:induction false} ExhaustedIffAllRetryable<R>(call: nat -> Attempt<R>)
    ensures Outcome(call).Exhausted? <==> forall k :: 0 <= k < MAX_RETRIES ==> Retryable(call(k))
  {
    AttemptsMadeSpec(call);
    if !Outcome(call).Exhausted? {
      assert !Retryable(call(AttemptsMade(call) - 1));
    }
  }

  /** A response ends the loop whatever its status code: if the first `j`
      attempts raised retryable errors and attempt `j` returned, the loop
      settles on that response after `j + 1` attempts. */
  lemma {:induction false} ResponseSettles<R>(call: nat -> Attempt<R>, j: nat)
    requires j < MAX_RETRIES && call(j).Returned?
    requires forall k :: 0 <= k < j ==> Retryable(call(k))
    ensures Outcome(call) == Settled(call(j).response)
    ensures AttemptsMade(call) == j + 1
  {
    ResponseSettlesFrom(call, 0, j);
  }

  lemma {:induction false} ResponseSettlesFrom<R>(call: nat -> Attempt<R>, k: nat, j: nat)
    requires k <= j < MAX_RETRIES && call(j).Returned?
    requires forall i :: k <= i < j ==> Retryable(call(i))
    ensures OutcomeFrom(call, k) == Settled(call(j).response)
    ensures AttemptsFrom(call, k) == j + 1 - k
    decreases j - k
  {
    if k < j {
      ResponseSettlesFrom(call, k + 1, j);
    }
  }

  /** Runs the loop: returns how it ended and how many attempts it made. */
  method WithRetries<R>(call: nat -> Attempt<R>) returns (result: Retried<R>, attempts: nat)
    ensures result == Outcome(call) && attempts == AttemptsMade(call)
    ensures 1 <= attempts <= MAX_RETRIES
    ensures forall k :: 0 <= k < attempts - 1 ==> Retryable(call(k))
    ensures result.Exhausted? ==> attempts == MAX_RETRIES && Retryable(call(attempts - 1))
    ensures !result.Exhausted? ==> !Retryable(call(attempts - 1)) && result == Conclusion(call(attempts - 1))
  {
    attempts := 0;
    while attempts < MAX_RETRIES
      invariant attempts <= MAX_RETRIES
      invariant forall k :: 0 <= k < attempts ==> Retryable(call(k))
      invariant OutcomeFrom(call, attempts) == Outcome(call)
      invariant attempts + AttemptsFrom(call, attempts) == AttemptsMade(call)
    {
      var a := call(attempts);
      attempts := attempts + 1;
      if !Retryable(a) {
        result := Conclusion(a);
        return;
      }
    }
    result := Exhausted;
  }
}
