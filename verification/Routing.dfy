/** Ordered model routes: stay on the route that answered last, fall back in rotation. */
module Routing {
  import opened Wrappers
  import opened Texts
  import opened InvestigationModels

  datatype Reply = Answer(response: ProviderResponse) | Failure(code: Text, retryable: bool)

  /** Any behaviour of the providers: the reply to the n-th request ever sent, sent to this model. */
  type Provider = (nat, Text) -> Reply

  /** The routes from `start` on, then those before it. */
  function Rotation(n: nat, start: nat): seq<nat>
    requires start <= n
  {
    seq(n - start, i requires 0 <= i < n - start => start + i) + seq(start, i requires 0 <= i < start => i)
  }

  function Route(n: nat, start: nat, k: nat): (r: nat)
    requires start < n && k < n
    ensures r < n
  {
    if start + k < n then start + k else start + k - n
  }

  /** The rotation begins at `start` and visits every route exactly once. */
  lemma RotationVisitsEachOnce(n: nat, start: nat)
    requires start < n
    ensures |Rotation(n, start)| == n && Route(n, start, 0) == start
    ensures forall k | 0 <= k < n :: Rotation(n, start)[k] == Route(n, start, k)
    ensures forall r: nat | r < n :: r in Rotation(n, start)
    ensures forall j, k | 0 <= j < k < n :: Rotation(n, start)[j] != Rotation(n, start)[k]
  {
    forall r: nat | r < n ensures r in Rotation(n, start) {
      assert Rotation(n, start)[if r >= start then r - start else n - start + r] == r;
    }
  }

  method Ordered(n: nat, start: nat) returns (ordered: seq<nat>)
    requires start < n
    ensures |ordered| == n && forall k | 0 <= k < n :: ordered[k] == Route(n, start, k)
  {
    ordered := Rotation(n, start);
    RotationVisitsEachOnce(n, start);
  }

  function AttemptOn(model: Text, reply: Reply): ModelAttempt {
    match reply
    case Answer(a) => ModelAttempt(model, Success, None, a.usage.prompt, a.usage.completion)
    case Failure(code, retryable) =>
      ModelAttempt(model, if retryable then RetryableError else FatalError, Some(code), 0, 0)
  }

  /** What an attempt says of the model that was asked and of its reply. */
  predicate Records(a: ModelAttempt, model: Text, reply: Reply) {
    && a.model == model
    && (a.status == Success <==> reply.Answer?)
    && (a.status == RetryableError <==> Retryable(reply))
    && (reply.Answer? ==> a.prompt == reply.response.usage.prompt && a.completion == reply.response.usage.completion)
    && (reply.Failure? ==> a.prompt == a.completion == 0)
    && a.code == if reply.Failure? then Some(reply.code) else None
  }

  function FailuresIn(attempts: seq<ModelAttempt>): nat {
    if attempts == [] then 0
    else FailuresIn(attempts[..|attempts| - 1]) + if attempts[|attempts| - 1].status == Success then 0 else 1
  }

  /** The routes from turn `k` on, after the log `log`; `error` is the last failure. */
  datatype Outcome = Outcome(log: seq<ModelAttempt>, failures: nat, preferred: nat, result: Result<ProviderResponse, Text>)

  function Fallback(provider: Provider, models: seq<Text>, maxFailures: nat, start: nat,
                    log: seq<ModelAttempt>, failures: nat, error: Text, k: nat): Outcome
    requires start < |models| && k <= |models|
    decreases |models| - k
  {
    if k == |models| then Outcome(log, failures, start, Err(error))
    else
      var route := Route(|models|, start, k);
      var reply := provider(|log|, models[route]);
      var log' := log + [AttemptOn(models[route], reply)];
      match reply
      case Answer(a) => Outcome(log', failures, route, Ok(a))
      case Failure(code, retryable) =>
        if failures + 1 > maxFailures || !retryable then Outcome(log', failures + 1, start, Err(code))
        else Fallback(provider, models, maxFailures, start, log', failures + 1, code, k + 1)
  }

  // ---- what a call does -------------------------------------------------------------

  /** The model that is asked in turn `k`, and what it replies when `before` attempts were made
      before the call. */
  function ReplyIn(provider: Provider, models: seq<Text>, before: nat, start: nat, k: nat): Reply
    requires start < |models| && k < |models|
  {
    provider(before + k, models[Route(|models|, start, k)])
  }

  predicate Retryable(r: Reply) { r.Failure? && r.retryable }

  /** The turn that decides, from turn `k` on: the first that answers, fails for good, spends the
      failure budget or asks the last route. */
  function Deciding(provider: Provider, models: seq<Text>, maxFailures: nat, start: nat, before: nat, failures: nat, k: nat): (d: nat)
    requires start < |models| && k < |models|
    ensures k <= d < |models|
    ensures forall j | k <= j < d :: Retryable(ReplyIn(provider, models, before, start, j))
    ensures k < d ==> failures + (d - k) <= maxFailures
    decreases |models| - k
  {
    if Retryable(ReplyIn(provider, models, before, start, k)) && failures + 1 <= maxFailures && k + 1 < |models|
    then Deciding(provider, models, maxFailures, start, before, failures + 1, k + 1)
    else k
  }

  /** The deciding turn's reply is the result; every turn before it counts as one failure. */
  lemma {:induction false} DecidingTurnDecides(provider: Provider, models: seq<Text>, maxFailures: nat, start: nat,
                                               log: seq<ModelAttempt>, failures: nat, error: Text, k: nat)
    requires start < |models| && k < |models| && k <= |log|
    ensures var o := Fallback(provider, models, maxFailures, start, log, failures, error, k);
            var d := Deciding(provider, models, maxFailures, start, |log| - k, failures, k);
            match ReplyIn(provider, models, |log| - k, start, d)
            case Answer(a) =>
              o.result == Ok(a) && o.failures == failures + (d - k) && o.preferred == Route(|models|, start, d)
            case Failure(code, retryable) =>
              && o.result == Err(code) && o.failures == failures + (d - k) + 1 && o.preferred == start
              && (!retryable || o.failures > maxFailures || d == |models| - 1)
    decreases |models| - k
  {
    var reply := ReplyIn(provider, models, |log| - k, start, k);
    if Retryable(reply) && failures + 1 <= maxFailures && k + 1 < |models| {
      var log' := log + [AttemptOn(models[Route(|models|, start, k)], reply)];
      DecidingTurnDecides(provider, models, maxFailures, start, log', failures + 1, reply.code, k + 1);
    }
  }

  /** Every turn up to the deciding one is logged, in order, behind what was logged before: which
      model was asked, whether it answered, failed or failed for good, and at what cost. */
  lemma {:induction false} EveryTurnIsLogged(provider: Provider, models: seq<Text>, maxFailures: nat, start: nat,
                                             log: seq<ModelAttempt>, failures: nat, error: Text, k: nat)
    requires start < |models| && k < |models| && k <= |log|
    ensures var o := Fallback(provider, models, maxFailures, start, log, failures, error, k);
            var before := |log| - k;
            var d := Deciding(provider, models, maxFailures, start, before, failures, k);
            && |o.log| == before + d + 1 && log <= o.log
            && forall j | k <= j <= d ::
                 Records(o.log[before + j], models[Route(|models|, start, j)], ReplyIn(provider, models, before, start, j))
    decreases |models| - k
  {
    var reply := ReplyIn(provider, models, |log| - k, start, k);
    if Retryable(reply) && failures + 1 <= maxFailures && k + 1 < |models| {
      var log' := log + [AttemptOn(models[Route(|models|, start, k)], reply)];
      EveryTurnIsLogged(provider, models, maxFailures, start, log', failures + 1, reply.code, k + 1);
    }
  }

  lemma OneMoreFailure(log: seq<ModelAttempt>, a: ModelAttempt)
    ensures FailuresIn(log + [a]) == FailuresIn(log) + if a.status == Success then 0 else 1
  {
    assert (log + [a])[..|log|] == log;
  }

  lemma {:induction false} FailuresCounted(provider: Provider, models: seq<Text>, maxFailures: nat, start: nat,
                                           log: seq<ModelAttempt>, failures: nat, error: Text, k: nat)
    requires start < |models| && k <= |models| && failures == FailuresIn(log)
    ensures var o := Fallback(provider, models, maxFailures, start, log, failures, error, k);
            o.failures == FailuresIn(o.log) && o.preferred < |models|
    decreases |models| - k
  {
    if k < |models| {
      var route := Route(|models|, start, k);
      var reply := provider(|log|, models[route]);
      OneMoreFailure(log, AttemptOn(models[route], reply));
      if Retryable(reply) && failures + 1 <= maxFailures {
        FailuresCounted(provider, models, maxFailures, start, log + [AttemptOn(models[route], reply)], failures + 1, reply.code, k + 1);
      }
    }
  }

  class ModelRouter {
    const models: seq<Text>
    const maxFailures: nat
    var attempts: seq<ModelAttempt>
    var failures: nat
    var preferred: nat

    constructor (models: seq<Text>, maxFailures: nat)
      requires models != []
      ensures Valid() && this.models == models && this.maxFailures == maxFailures
      ensures attempts == [] && failures == 0 && preferred == 0
    {
      this.models, this.maxFailures := models, maxFailures;
      attempts, failures, preferred := [], 0, 0;
    }

    ghost predicate Valid()
      reads this
    {
      preferred < |models| && failures == FailuresIn(attempts)
    }

    /** One call changes the router as `Fallback` says. */
    method Complete(provider: Provider) returns (r: Result<ProviderResponse, Text>)
      requires Valid()
      modifies this
      ensures Valid()
      ensures Outcome(attempts, failures, preferred, r)
              == Fallback(provider, models, maxFailures, old(preferred), old(attempts), old(failures), "no_models", 0)
    {
      var ordered := Ordered(|models|, preferred);
      var error := "no_models";
      FailuresCounted(provider, models, maxFailures, preferred, attempts, failures, error, 0);
      for turn := 0 to |ordered|
        invariant preferred == old(preferred)
        invariant Fallback(provider, models, maxFailures, preferred, attempts, failures, error, turn)
                  == Fallback(provider, models, maxFailures, old(preferred), old(attempts), old(failures), "no_models", 0)
      {
        var model := models[ordered[turn]];
        var reply := provider(|attempts|, model);
        attempts := attempts + [AttemptOn(model, reply)];
        match reply {
          case Answer(a) =>
            preferred := ordered[turn];
            return Ok(a);
          case Failure(code, retryable) =>
            failures := failures + 1;
            error := code;
            if failures > maxFailures {
              break;
            }
            if !retryable {
              return Err(code);
            }
        }
      }
      return Err(error);
    }
  }
}
