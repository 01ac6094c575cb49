/** The bounded retry loop shared by the four fetch procedures.

    Attempt number `retry` (counted from 0) of a loop of `maxRetries` attempts sees
    `outcomes[retry]`. A timeout or a transport error ends the loop only on the
    last attempt; otherwise it falls through to the pause and the next attempt. An
    HTTP status other than 200 always falls through. An HTTP 200 reply is handed to
    the endpoint, which accepts it (result returned and payload cached), rejects it
    (result returned at once) or lets it fall through. A pause of one second
    follows every attempt that falls through, except the last one. */
module Retry {
  import opened JsonValues
  import opened Cache

  /** What one request attempt produced: a timeout, another transport error with
      its text, or a response with its HTTP status and decoded body. */
  datatype Outcome<E> = Timeout | NetErr(detail: string) | Status(code: int, envelope: E)

  /** How an endpoint treats the body of an HTTP 200 reply. */
  datatype Verdict<R> = Accept(result: R, payload: Json) | Reject(result: R) | Again

  /** How a loop ended: its result, how many requests and pauses it made, and the
      payload it cached, if any. */
  datatype Run<R> = Run(result: R, attempts: nat, sleeps: nat, stored: Option<Json>)

  /** The endpoint-specific parts of a fetch procedure: its verdict on a 200 body
      and its results for a final timeout, a final transport error and exhaustion. */
  datatype Endpoint<!E, R> = Endpoint(verdict: E -> Verdict<R>, onTimeout: R, onNetErr: string -> R, exhausted: R)

  /** The loop from attempt `retry` on, when no earlier attempt ended it. */
  function RunFrom<E, R>(ep: Endpoint<E, R>, outcomes: seq<Outcome<E>>, retry: nat, maxRetries: nat): (run: Run<R>)
    requires retry <= maxRetries <= |outcomes|
    ensures retry <= run.attempts <= maxRetries
    decreases maxRetries - retry
  {
    if retry == maxRetries then
      Run(ep.exhausted, maxRetries, if maxRetries == 0 then 0 else maxRetries - 1, None)
    else
      match outcomes[retry]
      case Timeout =>
        if retry == maxRetries - 1 then Run(ep.onTimeout, retry + 1, retry, None)
        else RunFrom(ep, outcomes, retry + 1, maxRetries)
      case NetErr(detail) =>
        if retry == maxRetries - 1 then Run(ep.onNetErr(detail), retry + 1, retry, None)
        else RunFrom(ep, outcomes, retry + 1, maxRetries)
      case Status(code, envelope) =>
        if code != 200 then RunFrom(ep, outcomes, retry + 1, maxRetries)
        else
          match ep.verdict(envelope)
          case Accept(r, payload) => Run(r, retry + 1, retry, Some(payload))
          case Reject(r) => Run(r, retry + 1, retry, None)
          case Again => RunFrom(ep, outcomes, retry + 1, maxRetries)
  }

  /** Attempt `retry` of `maxRetries` ends the loop. */
  predicate Stops<E, R>(ep: Endpoint<E, R>, o: Outcome<E>, retry: nat, maxRetries: nat) {
    match o
    case Timeout => retry + 1 == maxRetries
    case NetErr(_) => retry + 1 == maxRetries
    case Status(code, envelope) => code == 200 && !ep.verdict(envelope).Again?
  }

  /** How the loop ends when attempt `retry` is the first that stops it. */
  function StopAt<E, R>(ep: Endpoint<E, R>, o: Outcome<E>, retry: nat, maxRetries: nat): Run<R>
    requires Stops(ep, o, retry, maxRetries)
  {
    match o
    case Timeout => Run(ep.onTimeout, retry + 1, retry, None)
    case NetErr(detail) => Run(ep.onNetErr(detail), retry + 1, retry, None)
    case Status(_, envelope) =>
      match ep.verdict(envelope)
      case Accept(r, payload) => Run(r, retry + 1, retry, Some(payload))
      case Reject(r) => Run(r, retry + 1, retry, None)
  }

  /** The first attempt that stops the loop decides its result; no later attempt is made. */
  lemma {:induction false} RunFirstStop<E, R>(ep: Endpoint<E, R>, outcomes: seq<Outcome<E>>, retry: nat, i: nat, maxRetries: nat)
    requires retry <= i < maxRetries <= |outcomes|
    requires forall j :: retry <= j < i ==> !Stops(ep, outcomes[j], j, maxRetries)
    requires Stops(ep, outcomes[i], i, maxRetries)
    ensures RunFrom(ep, outcomes, retry, maxRetries) == StopAt(ep, outcomes[i], i, maxRetries)
    decreases i - retry
  {
    if retry < i {
      assert !Stops(ep, outcomes[retry], retry, maxRetries);
      RunFirstStop(ep, outcomes, retry + 1, i, maxRetries);
    }
  }

  /** When no attempt stops the loop, all `maxRetries` attempts are made and the
      exhaustion result is returned. */
  lemma {:induction false} RunNoStop<E, R>(ep: Endpoint<E, R>, outcomes: seq<Outcome<E>>, retry: nat, maxRetries: nat)
    requires retry <= maxRetries <= |outcomes|
    requires forall j :: retry <= j < maxRetries ==> !Stops(ep, outcomes[j], j, maxRetries)
    ensures RunFrom(ep, outcomes, retry, maxRetries)
            == Run(ep.exhausted, maxRetries, if maxRetries == 0 then 0 else maxRetries - 1, None)
    decreases maxRetries - retry
  {
    if retry < maxRetries {
      assert !Stops(ep, outcomes[retry], retry, maxRetries);
      RunNoStop(ep, outcomes, retry + 1, maxRetries);
    }
  }

  /** At most `maxRetries` requests; exactly one pause between two consecutive
      requests and none after the last, so at most `maxRetries - 1` pauses. */
  lemma {:induction false} RunBounds<E, R>(ep: Endpoint<E, R>, outcomes: seq<Outcome<E>>, retry: nat, maxRetries: nat)
    requires retry <= maxRetries <= |outcomes|
    ensures var run := RunFrom(ep, outcomes, retry, maxRetries);
            && retry <= run.attempts <= maxRetries
            && (retry < maxRetries ==> retry < run.attempts)
            && (maxRetries == 0 ==> run.attempts == 0 && run.sleeps == 0)
            && (maxRetries > 0 ==> run.sleeps + 1 == run.attempts)
    decreases maxRetries - retry
  {
    if retry < maxRetries {
      match outcomes[retry]
      case Timeout =>
        if retry != maxRetries - 1 { RunBounds(ep, outcomes, retry + 1, maxRetries); }
      case NetErr(_) =>
        if retry != maxRetries - 1 { RunBounds(ep, outcomes, retry + 1, maxRetries); }
      case Status(code, envelope) =>
        if code != 200 || ep.verdict(envelope).Again? { RunBounds(ep, outcomes, retry + 1, maxRetries); }
    }
  }

  /** The result comes from the last attempt made: a payload is cached only when that
      attempt got a 200 reply the endpoint accepted with that result and payload;
      otherwise all attempts were used up, or the last one timed out, failed with
      a transport error, or got a 200 reply the endpoint rejected. */
  lemma {:induction false} RunOrigin<E, R>(ep: Endpoint<E, R>, outcomes: seq<Outcome<E>>, retry: nat, maxRetries: nat)
    requires retry <= maxRetries <= |outcomes|
    ensures var run := RunFrom(ep, outcomes, retry, maxRetries);
            && (run.stored.Some? ==>
                  && retry < run.attempts
                  && outcomes[run.attempts - 1].Status? && outcomes[run.attempts - 1].code == 200
                  && ep.verdict(outcomes[run.attempts - 1].envelope) == Accept(run.result, run.stored.value))
            && (run.stored.None? ==>
                  || (run.attempts == maxRetries && run.result == ep.exhausted)
                  || (retry < run.attempts && outcomes[run.attempts - 1] == Timeout && run.result == ep.onTimeout)
                  || (retry < run.attempts && outcomes[run.attempts - 1].NetErr?
                      && run.result == ep.onNetErr(outcomes[run.attempts - 1].detail))
                  || (retry < run.attempts && outcomes[run.attempts - 1].Status? && outcomes[run.attempts - 1].code == 200
                      && ep.verdict(outcomes[run.attempts - 1].envelope) == Reject(run.result)))
    decreases maxRetries - retry
  {
    if retry < maxRetries {
      match outcomes[retry]
      case Timeout =>
        if retry != maxRetries - 1 { RunOrigin(ep, outcomes, retry + 1, maxRetries); }
      case NetErr(d) =>
        if retry != maxRetries - 1 { RunOrigin(ep, outcomes, retry + 1, maxRetries); }
      case Status(code, envelope) =>
        if code != 200 || ep.verdict(envelope).Again? { RunOrigin(ep, outcomes, retry + 1, maxRetries); }
    }
  }

  /** A service that always times out gets exactly `maxRetries` requests, and the
      timeout result comes only after the last of them. */
  lemma AllTimeouts<E, R>(ep: Endpoint<E, R>, outcomes: seq<Outcome<E>>, maxRetries: nat)
    requires 0 < maxRetries <= |outcomes|
    requires forall j :: 0 <= j < maxRetries ==> outcomes[j] == Timeout
    ensures RunFrom(ep, outcomes, 0, maxRetries) == Run(ep.onTimeout, maxRetries, maxRetries - 1, None)
  {
    RunFirstStop(ep, outcomes, 0, maxRetries - 1, maxRetries);
  }

  /** Transport failures before an accepted reply do not show in the result. */
  lemma RecoversAfterFailures<E, R>(ep: Endpoint<E, R>, outcomes: seq<Outcome<E>>, i: nat, maxRetries: nat,
                                    r: R, payload: Json)
    requires i < maxRetries <= |outcomes|
    requires forall j :: 0 <= j < i ==> outcomes[j].Timeout? || outcomes[j].NetErr?
    requires outcomes[i].Status? && outcomes[i].code == 200 && ep.verdict(outcomes[i].envelope) == Accept(r, payload)
    ensures RunFrom(ep, outcomes, 0, maxRetries) == Run(r, i + 1, i, Some(payload))
  {
    RunFirstStop(ep, outcomes, 0, i, maxRetries);
  }

  /** A status other than 200 on every attempt ends in the exhaustion result after
      all `maxRetries` requests. */
  lemma PersistentHttpError<E, R>(ep: Endpoint<E, R>, outcomes: seq<Outcome<E>>, maxRetries: nat)
    requires maxRetries <= |outcomes|
    requires forall j :: 0 <= j < maxRetries ==> outcomes[j].Status? && outcomes[j].code != 200
    ensures RunFrom(ep, outcomes, 0, maxRetries)
            == Run(ep.exhausted, maxRetries, if maxRetries == 0 then 0 else maxRetries - 1, None)
  {
    RunNoStop(ep, outcomes, 0, maxRetries);
  }

  /** The attempt loop: requests, pauses and caches as described above. */
  method FetchWithRetries<E, R>(cache: CacheManager, key: string, cacheType: string, ep: Endpoint<E, R>,
                                outcomes: seq<Outcome<E>>, maxRetries: nat, now: int)
    returns (run: Run<R>)
    requires maxRetries <= |outcomes|
    modifies cache
    ensures run == RunFrom(ep, outcomes, 0, maxRetries)
    ensures cache.files == Store(old(cache.files), key, cacheType, run.stored, now)
  {
    var sleeps := 0;
    var retry := 0;
    while retry < maxRetries
      invariant retry <= maxRetries
      invariant sleeps == if retry == maxRetries && retry > 0 then retry - 1 else retry
      invariant RunFrom(ep, outcomes, retry, maxRetries) == RunFrom(ep, outcomes, 0, maxRetries)
      invariant cache.files == old(cache.files)
      decreases maxRetries - retry
    {
      match outcomes[retry] {
        case Timeout =>
          if retry == maxRetries - 1 {
            return Run(ep.onTimeout, retry + 1, sleeps, None);
          }
        case NetErr(detail) =>
          if retry == maxRetries - 1 {
            return Run(ep.onNetErr(detail), retry + 1, sleeps, None);
          }
        case Status(code, envelope) =>
          if code == 200 {
            match ep.verdict(envelope) {
              case Accept(r, payload) =>
                cache.SaveToCache(key, payload, cacheType, now);
                return Run(r, retry + 1, sleeps, Some(payload));
              case Reject(r) =>
                return Run(r, retry + 1, sleeps, None);
              case Again =>
            }
          }
      }
      if retry < maxRetries - 1 {
        sleeps := sleeps + 1;
      }
      retry := retry + 1;
    }
    run := Run(ep.exhausted, retry, sleeps, None);
  }
}
