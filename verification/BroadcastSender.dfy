/**
 Sending one broadcast message: waiting for a permit of the shared rate gate
 until a deadline, and repeating a send only after Telegram refused it.
 */
module BroadcastSender {
  import opened Wrappers

  const MAX_PERMIT_WAIT_MS := 5_000
  const MAX_SEND_ATTEMPTS := 3

  /** The gate's answer to one call, which may fail outright. */
  datatype Permit = Granted | Denied(retryAfterMs: int) | GateDown

  /** What a delivery came to; flood control may say how long to wait. */
  datatype Delivery = Delivered | Flood(retryAfterMs: Option<nat>) | OtherError

  /** One delivery: the gate call that permitted it, what it came to, and the
      cooldown shared with the other senders. */
  datatype Attempt = Attempt(permit: nat, outcome: Delivery, shared: Option<nat>)

  datatype Outcome = Done | Thrown | RetryPage(retryAfterMs: nat)

  function Sum(waits: seq<nat>): nat { if waits == [] then 0 else Sum(waits[..|waits| - 1]) + waits[|waits| - 1] }

  lemma SumAppend(waits: seq<nat>, ms: nat)
    ensures Sum(waits + [ms]) == Sum(waits) + ms
  {
  }

  /** The waiting loop.  `gate` answers its calls in order, each after some
      latency; the waits together never exceed the limit. */
  method Acquire(gate: nat -> Permit, latency: nat -> nat, call: nat, start: nat)
    returns (failure: Option<Outcome>, next: nat, now: nat, waits: seq<nat>)
    ensures call < next && now >= start
    ensures Sum(waits) <= MAX_PERMIT_WAIT_MS
    ensures forall k :: call <= k < next - 1 ==> gate(k).Denied?
    ensures failure.None? <==> gate(next - 1).Granted?
    ensures failure.Some? ==> failure.value.RetryPage? && failure.value.retryAfterMs >= 1
  {
    var deadline := start + MAX_PERMIT_WAIT_MS;
    next, now, waits := call, start, [];
    while true
      invariant call <= next && start <= now
      invariant Sum(waits) <= now - start && (waits != [] ==> now <= deadline)
      invariant forall k :: call <= k < next ==> gate(k).Denied?
      decreases deadline - now
    {
      var permit := gate(next);
      now := now + latency(next);
      next := next + 1;
      match permit {
        case Granted => return None, next, now, waits;
        case GateDown => return Some(RetryPage(5_000)), next, now, waits;
        case Denied(ms) =>
          var delay := if ms > 1 then ms else 1;
          if now + delay > deadline { return Some(RetryPage(delay)), next, now, waits; }
          SumAppend(waits, delay);
          waits := waits + [delay];
          now := now + delay;
      }
    }
  }

  function Cooldown(retryAfterMs: Option<nat>): nat {
    (match retryAfterMs case Some(ms) => if ms > 0 then ms else 1_000 case None => 1_000) + 100
  }

  /** Every delivery has a permit of its own, and each but the last was refused
      by flood control and its cooldown shared before the next one. */
  ghost predicate Careful(attempts: seq<Attempt>, gate: nat -> Permit) {
    && (forall k :: 0 <= k < |attempts| ==> gate(attempts[k].permit).Granted?)
    && (forall j, k :: 0 <= j < k < |attempts| ==> attempts[j].permit < attempts[k].permit)
    && (forall k :: 0 <= k < |attempts| - 1 ==> Refused(attempts[k]))
  }

  predicate Refused(a: Attempt) { a.outcome.Flood? && a.shared == Some(Cooldown(a.outcome.retryAfterMs)) }

  lemma OneMore(attempts: seq<Attempt>, gate: nat -> Permit, a: Attempt)
    requires Careful(attempts, gate) && gate(a.permit).Granted?
    requires forall k :: 0 <= k < |attempts| ==> Refused(attempts[k]) && attempts[k].permit < a.permit
    ensures Careful(attempts + [a], gate)
  {
  }

  /** Main result: at most three deliveries are made, each with a permit of its
      own, and a message that may have reached the recipient is not sent again:
      every delivery but the last was refused by flood control. */
  method Send(gate: nat -> Permit, latency: nat -> nat, deliver: nat -> Delivery, deferWorks: nat -> bool, start: nat)
    returns (r: Outcome, attempts: seq<Attempt>)
    ensures Careful(attempts, gate) && |attempts| <= MAX_SEND_ATTEMPTS
    ensures r == Done <==> attempts != [] && attempts[|attempts| - 1].outcome.Delivered?
    ensures r == Thrown <==> attempts != [] && attempts[|attempts| - 1].outcome.OtherError?
    ensures r.RetryPage? ==> r.retryAfterMs >= 1
  {
    attempts := [];
    var call: nat, now: nat := 0, start;
    for attempt := 0 to MAX_SEND_ATTEMPTS
      invariant |attempts| == attempt && Careful(attempts, gate)
      invariant forall k :: 0 <= k < |attempts| ==> Refused(attempts[k]) && attempts[k].permit < call
    {
      var failure, next, later, waits := Acquire(gate, latency, call, now);
      call, now := next, later;
      if failure.Some? { return failure.value, attempts; }
      var outcome := deliver(attempt);
      ghost var shared := if outcome.Flood? && deferWorks(attempt) then Some(Cooldown(outcome.retryAfterMs)) else None;
      OneMore(attempts, gate, Attempt(call - 1, outcome, shared));
      match outcome {
        case Delivered => return Done, attempts + [Attempt(call - 1, outcome, None)];
        case OtherError => return Thrown, attempts + [Attempt(call - 1, outcome, None)];
        case Flood(ms) =>
          var delay := Cooldown(ms);
          if !deferWorks(attempt) { return RetryPage(delay), attempts + [Attempt(call - 1, outcome, None)]; }
          attempts := attempts + [Attempt(call - 1, outcome, Some(delay))];
          if delay > MAX_PERMIT_WAIT_MS || attempt == MAX_SEND_ATTEMPTS - 1 { return RetryPage(delay), attempts; }
      }
    }
    r := RetryPage(5_000);
  }
}
