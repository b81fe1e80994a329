/**
  The retrying transport over the circuit-breaker transport: how many calls one request makes, when
  it stops, which response it returns, and what becomes of every response body.
 */
module Retry {
  /** What the network answers to one call; the response body of attempt n is known by n. */
  datatype Wire = WireError | WireResponse(status: int)

  /** Whether the breaker lets a call through. */
  datatype Gate = Pass | OpenState | TooManyRequests

  /**
    Everything one attempt can meet: a cancelled context, a request body that cannot be rewound,
    the breaker's gate, a context cancelled behind the gate, and the network.
   */
  datatype Attempt = Attempt(cancelled: bool, rewindFails: bool, gate: Gate, cancelledInside: bool, wire: Wire)

  /** `maxRetries` counts attempts and is positive; `breaker` says whether the base is the breaker transport. */
  datatype Config = Config(maxRetries: nat, retryable: set<int>, breaker: bool)

  datatype Base = BaseError(open: bool) | BaseResponse(status: int)
  datatype Reply = Failure | Response(body: nat, status: int)

  const SERVER_ERROR := 500

  // ---------------------------------------------------------------- what an attempt amounts to

  predicate ReachesBase(t: Attempt) {
    !t.cancelled && !t.rewindFails
  }

  predicate ReachesWire(cfg: Config, t: Attempt) {
    ReachesBase(t) && (cfg.breaker ==> t.gate == Pass && !t.cancelledInside)
  }

  function BaseAnswer(cfg: Config, t: Attempt): Base {
    if cfg.breaker && t.gate == OpenState then BaseError(true)
    else if cfg.breaker && (t.gate == TooManyRequests || t.cancelledInside) then BaseError(false)
    else match t.wire
      case WireError => BaseError(false)
      case WireResponse(status) => BaseResponse(status)
  }

  /** An attempt after which no other is made, whatever attempts are left. */
  predicate Decides(cfg: Config, t: Attempt) {
    || !ReachesBase(t)
    || match BaseAnswer(cfg, t)
       case BaseError(open) => open
       case BaseResponse(status) => status !in cfg.retryable
  }

  /** The number of the last attempt made: the first that decides, or the last one allowed. */
  function LastAttempt(cfg: Config, tries: nat -> Attempt, n: nat): (last: nat)
    requires n < cfg.maxRetries
    ensures n <= last < cfg.maxRetries
    decreases cfg.maxRetries - n
  {
    if Decides(cfg, tries(n)) || n == cfg.maxRetries - 1 then n else LastAttempt(cfg, tries, n + 1)
  }

  lemma {:induction false} LastAttemptIs(cfg: Config, tries: nat -> Attempt, n: nat)
    requires n < cfg.maxRetries
    ensures forall k: nat :: n <= k < LastAttempt(cfg, tries, n) ==> !Decides(cfg, tries(k))
    ensures Decides(cfg, tries(LastAttempt(cfg, tries, n))) || LastAttempt(cfg, tries, n) == cfg.maxRetries - 1
    decreases cfg.maxRetries - n
  {
    if !Decides(cfg, tries(n)) && n < cfg.maxRetries - 1 { LastAttemptIs(cfg, tries, n + 1); }
  }

  /** How many of the first n attempts reach the network. */
  function WireCalls(cfg: Config, tries: nat -> Attempt, n: nat): nat {
    if n == 0 then 0 else WireCalls(cfg, tries, n - 1) + if ReachesWire(cfg, tries(n - 1)) then 1 else 0
  }

  /** What the request is answered with. */
  function Answered(cfg: Config, tries: nat -> Attempt): Reply
    requires cfg.maxRetries > 0
  {
    var last := LastAttempt(cfg, tries, 0);
    if !ReachesBase(tries(last)) then Failure
    else match BaseAnswer(cfg, tries(last))
      case BaseError(_) => Failure
      case BaseResponse(status) => Response(last, status)
  }

  // ---------------------------------------------------------------- the two RoundTrip methods

  /** The breaker closes the body of a server error, but still hands the response on. */
  method BreakerRoundTrip(cfg: Config, t: Attempt, n: nat, open: set<nat>) returns (answer: Base, open': set<nat>)
    requires ReachesBase(t) && n !in open
    ensures answer == BaseAnswer(cfg, t)
    ensures forall status :: answer == BaseResponse(status) <==> OnWire(cfg, t) && t.wire == WireResponse(status)
    ensures answer == BaseError(true) <==> cfg.breaker && t.gate == OpenState
    ensures open' == open + if answer.BaseResponse? && !(cfg.breaker && answer.status >= 500) then {n} else {}
  {
    open' := open;
    if cfg.breaker {
      if t.gate == OpenState {
        return BaseError(true), open';
      }
      if t.gate == TooManyRequests || t.cancelledInside {
        return BaseError(false), open';
      }
    }
    match t.wire {
      case WireError =>
        answer := BaseError(false);
      case WireResponse(status) =>
        open' := open' + {n};
        if cfg.breaker && status >= SERVER_ERROR {
          open' := open' - {n};
        }
        answer := BaseResponse(status);
    }
  }

  /**
    retryTransport.RoundTrip: the attempt loop with lastResp and lastErr.  Attempts stop at the
    first that decides and number at most maxRetries; the reply is the last attempt's response, if
    it got one; of all bodies obtained at most the returned one is open, and it is open unless the
    breaker already closed it.
   */
  method RoundTrip(cfg: Config, tries: nat -> Attempt)
    returns (reply: Reply, calls: nat, wireCalls: nat, open: set<nat>)
    requires cfg.maxRetries > 0
    ensures var last := LastAttempt(cfg, tries, 0);
            && calls == last + (if tries(last).cancelled || tries(last).rewindFails then 0 else 1)
            && wireCalls == WireCalls(cfg, tries, last + 1)
            && reply == Answered(cfg, tries)
    ensures open == if reply.Response? && !(cfg.breaker && reply.status >= 500) then {reply.body} else {}
  {
    var lastResp: Reply := Failure;
    var lastErr := false;
    var n := 0;
    calls, wireCalls, open := 0, 0, {};
    while true
      invariant n < cfg.maxRetries && calls == n
      invariant LastAttempt(cfg, tries, 0) == LastAttempt(cfg, tries, n)
      invariant wireCalls == WireCalls(cfg, tries, n)
      invariant lastResp.Response? ==> !lastErr
      invariant open ==
        if lastResp.Response? && !(cfg.breaker && lastResp.status >= SERVER_ERROR) then {lastResp.body} else {}
      invariant lastResp.Response? ==> lastResp.body < n
      decreases cfg.maxRetries - n
    {
      var t := tries(n);
      if lastResp.Response? {
        open := open - {lastResp.body};
        lastResp := Failure;
      }
      if t.cancelled || t.rewindFails {
        break;
      }
      var answer;
      answer, open := BreakerRoundTrip(cfg, t, n, open);
      calls := calls + 1;
      wireCalls := wireCalls + if ReachesWire(cfg, t) then 1 else 0;
      lastErr := answer.BaseError?;
      if answer.BaseResponse? {
        lastResp := Response(n, answer.status);
        if answer.status !in cfg.retryable {
          break;
        }
      } else if answer.open {
        break;
      }
      if n == cfg.maxRetries - 1 {
        break;
      }
      n := n + 1;
    }
    if !lastErr && lastResp.Response? {
      return lastResp, calls, wireCalls, open;
    }
    reply := Failure;
  }

  // ---------------------------------------------------------------- when attempts stop, and with what

  /** The network is called: nothing on the way to it refuses. */
  ghost predicate OnWire(cfg: Config, t: Attempt) {
    !t.cancelled && !t.rewindFails && (cfg.breaker ==> t.gate == Pass && !t.cancelledInside)
  }

  /**
    Another attempt follows, if any is left: after an error of the network, too many requests at the
    breaker, a cancellation that only the breaker saw, or a response with a retryable status.
   */
  ghost predicate GoesOn(cfg: Config, t: Attempt) {
    && !t.cancelled && !t.rewindFails && !(cfg.breaker && t.gate == OpenState)
    && (OnWire(cfg, t) && t.wire.WireResponse? ==> t.wire.status in cfg.retryable)
  }

  /** The last attempt is the first after which none follows, or the last one allowed. */
  lemma LastAttemptIff(cfg: Config, tries: nat -> Attempt, n: nat)
    requires n < cfg.maxRetries
    ensures n == LastAttempt(cfg, tries, 0) <==>
            (forall k: nat :: k < n ==> GoesOn(cfg, tries(k))) && (n == cfg.maxRetries - 1 || !GoesOn(cfg, tries(n)))
  {
    var last := LastAttempt(cfg, tries, 0);
    LastAttemptIs(cfg, tries, 0);
    forall k: nat ensures Decides(cfg, tries(k)) <==> !GoesOn(cfg, tries(k)) {
      DecidesIff(cfg, tries(k));
    }
  }

  lemma DecidesIff(cfg: Config, t: Attempt)
    ensures Decides(cfg, t) <==> !GoesOn(cfg, t)
  {
  }

  /** The response returned is the network's to the last attempt; without one the request fails. */
  lemma AnsweredIff(cfg: Config, tries: nat -> Attempt, n: nat, status: int)
    requires cfg.maxRetries > 0
    ensures Answered(cfg, tries) == Response(n, status) <==>
            n == LastAttempt(cfg, tries, 0) && OnWire(cfg, tries(n)) && tries(n).wire == WireResponse(status)
  {
  }

  /** A response that need not be retried is returned as soon as it comes. */
  lemma GoodResponseReturned(cfg: Config, tries: nat -> Attempt, n: nat, status: int)
    requires n < cfg.maxRetries && forall k: nat :: k < n ==> GoesOn(cfg, tries(k))
    requires OnWire(cfg, tries(n)) && tries(n).wire == WireResponse(status) && status !in cfg.retryable
    ensures LastAttempt(cfg, tries, 0) == n && Answered(cfg, tries) == Response(n, status)
  {
    LastAttemptIff(cfg, tries, n);
    AnsweredIff(cfg, tries, n, status);
  }

  /** The calls of the network are the attempts that nothing on the way refuses. */
  lemma {:induction false} WireCallsAre(cfg: Config, tries: nat -> Attempt, n: nat)
    ensures WireCalls(cfg, tries, n) == |set k: nat | k < n && OnWire(cfg, tries(k))|
  {
    if n > 0 {
      WireCallsAre(cfg, tries, n - 1);
      var before := set k: nat | k < n - 1 && OnWire(cfg, tries(k));
      assert (set k: nat | k < n && OnWire(cfg, tries(k))) ==
             before + if OnWire(cfg, tries(n - 1)) then {n - 1} else {};
    }
  }

  // ---------------------------------------------------------------- what follows for every request

  /** The network is called at most once an attempt, hence at most maxRetries times. */
  lemma {:induction false} WireCallsBounded(cfg: Config, tries: nat -> Attempt, n: nat)
    ensures WireCalls(cfg, tries, n) <= n
  {
    if n > 0 { WireCallsBounded(cfg, tries, n - 1); }
  }

  /** A cancelled context stays cancelled, wherever it was seen first. */
  ghost predicate CancellationLasts(tries: nat -> Attempt) {
    forall i: nat, j: nat :: i < j && (tries(i).cancelled || tries(i).cancelledInside) ==> tries(j).cancelled
  }

  /** The attempt sees the context cancelled, before or behind the breaker's gate, or the breaker open. */
  predicate Refused(cfg: Config, t: Attempt) {
    t.cancelled || (cfg.breaker && (t.gate == OpenState || t.cancelledInside))
  }

  /**
    Once an attempt sees the context cancelled or the breaker open, neither it nor any later attempt
    reaches the network; it is the last, or, when only the breaker saw the cancellation, the last but one.
   */
  lemma NothingAfterRefusal(cfg: Config, tries: nat -> Attempt, k: nat)
    requires k < cfg.maxRetries && Refused(cfg, tries(k))
    requires Decides(cfg, tries(k)) || CancellationLasts(tries)
    ensures LastAttempt(cfg, tries, 0) <= if Decides(cfg, tries(k)) then k else k + 1
    ensures WireCalls(cfg, tries, LastAttempt(cfg, tries, 0) + 1) <= WireCalls(cfg, tries, k)
    ensures WireCalls(cfg, tries, k) <= k
  {
    var last := LastAttempt(cfg, tries, 0);
    LastAttemptIs(cfg, tries, 0);
    WireCallsBounded(cfg, tries, k);
    assert !ReachesWire(cfg, tries(k)) && WireCalls(cfg, tries, k + 1) == WireCalls(cfg, tries, k);
    if last < k {
      WireCallsMonotone(cfg, tries, last + 1, k);
    } else if last > k {
      assert Decides(cfg, tries(k + 1));
      assert WireCalls(cfg, tries, k + 2) == WireCalls(cfg, tries, k + 1);
    }
  }

  lemma {:induction false} WireCallsMonotone(cfg: Config, tries: nat -> Attempt, m: nat, n: nat)
    requires m <= n
    ensures WireCalls(cfg, tries, m) <= WireCalls(cfg, tries, n)
  {
    if m < n { WireCallsMonotone(cfg, tries, m, n - 1); }
  }

  /** A failing request has used every attempt, or met a cancellation, a lost body or an open breaker. */
  lemma FailureMeans(cfg: Config, tries: nat -> Attempt)
    requires cfg.maxRetries > 0
    ensures var last := LastAttempt(cfg, tries, 0);
            ReachesBase(tries(last)) && BaseAnswer(cfg, tries(last)) == BaseError(false) ==> last == cfg.maxRetries - 1
    ensures forall k: nat :: k < LastAttempt(cfg, tries, 0) ==>
              ReachesBase(tries(k)) && match BaseAnswer(cfg, tries(k))
                                       case BaseError(open) => !open
                                       case BaseResponse(status) => status in cfg.retryable
  {
    LastAttemptIs(cfg, tries, 0);
  }
}
