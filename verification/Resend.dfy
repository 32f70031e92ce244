/** The loop that repeats a request for a work connection. Times are in milliseconds. */
module Resend {
  import opened Numbers

  datatype Outcome = SendFailed | Deadline | Gone

  /**
   What the loop meets: whether the n-th send succeeds and how long it takes, and whether the user still
   waits afterwards.
   */
  datatype World = World(sent: nat -> bool, cost: nat -> nat, waiting: nat -> bool)

  /** The shortest pause between requests. */
  function Interval(configured: nat): (i: nat)
    ensures i == configured || (configured == 0 && i == 1)
    ensures i > 0
  {
    Max(configured, 1)
  }

  /** Request times that are an interval apart and before the deadline. */
  predicate Spaced(times: seq<nat>, interval: nat, deadline: nat) {
    && (times != [] ==> times[0] == 0)
    && (forall i | 0 < i < |times| :: times[i] >= times[i - 1] + interval)
    && (forall i | 0 <= i < |times| :: times[i] < deadline)
  }

  /** The same, but for a last one that may be at the deadline; so there are not many. */
  predicate Bounded(times: seq<nat>, interval: nat, deadline: nat)
    requires interval > 0
  {
    && times != [] && times[0] == 0
    && (forall i | 0 < i < |times| :: times[i] >= times[i - 1] + interval || times[i] >= deadline)
    && (forall i | 0 <= i < |times| - 1 :: times[i] < deadline)
    && |times| <= (deadline + interval - 1) / interval + 1
  }

  /** Each request comes one interval after the one before it has been sent, or at the deadline. */
  predicate Paced(times: seq<nat>, w: World, interval: nat, deadline: nat) {
    forall i | 0 < i < |times| :: times[i] == Min(times[i - 1] + w.cost(i - 1) + interval, deadline)
  }

  lemma OneMoreRequest(times: seq<nat>, now: nat, interval: nat, deadline: nat)
    requires interval > 0 && Spaced(times, interval, deadline)
    requires if times == [] then now == 0 else now >= times[|times| - 1] + interval || now >= deadline
    ensures Bounded(times + [now], interval, deadline)
    ensures now < deadline ==> Spaced(times + [now], interval, deadline)
  {
    SpacedTimes(times + [now], interval, deadline);
  }

  /**
   Requests are repeated until one cannot be sent, the user no longer waits, or the deadline has
   passed. Two requests are at least one interval apart, but for a last one at the deadline.
   */
  method RequestUntilAnswered(configured: nat, w: World) returns (times: seq<nat>, outcome: Outcome)
    ensures Bounded(times, Interval(configured), 10_000)
    ensures forall i | 0 <= i < |times| - 1 :: w.sent(i) && w.waiting(i)
    ensures Paced(times, w, Interval(configured), 10_000)
    ensures outcome == SendFailed <==> !w.sent(|times| - 1)
    ensures outcome == Deadline <==>
              w.sent(|times| - 1) && times[|times| - 1] + w.cost(|times| - 1) >= 10_000
    ensures outcome == Gone ==> !w.waiting(|times| - 1)
  {
    hide Bounded, Spaced, Paced;
    var interval := Interval(configured);
    var deadline, now, n := WORK_CONN_TIMEOUT, 0, 0;
    times := [];
    NoRequestYet(w, interval, deadline);
    while true
      invariant n == |times| && Spaced(times, interval, deadline)
      invariant if times == [] then now == 0 else now >= times[|times| - 1] + interval || now >= deadline
      invariant Paced(times + [now], w, interval, deadline)
      invariant forall i | 0 <= i < n :: w.sent(i) && w.waiting(i)
      decreases if n == 0 then 1 else 0, if deadline >= now then deadline - now else 0
    {
      OneMoreRequest(times, now, interval, deadline);
      times := times + [now];
      if !w.sent(n) {
        return times, SendFailed;
      }
      now := now + w.cost(n);
      if now >= deadline {
        return times, Deadline;
      }
      assert Spaced(times, interval, deadline);
      NextPause(times, w, interval, deadline);
      now := now + Min(interval, deadline - now);
      if !w.waiting(n) {
        return times, Gone;
      }
      n := n + 1;
    }
  }

  lemma NoRequestYet(w: World, interval: nat, deadline: nat)
    ensures Spaced([], interval, deadline) && Paced([] + [0], w, interval, deadline)
  {
  }

  lemma NextPause(times: seq<nat>, w: World, interval: nat, deadline: nat)
    requires times != [] && Paced(times, w, interval, deadline)
    ensures Paced(times + [Min(times[|times| - 1] + w.cost(|times| - 1) + interval, deadline)], w, interval, deadline)
  {
  }

  /** Times before the deadline that are an interval apart, and one more, are at most this many. */
  lemma SpacedTimes(times: seq<nat>, interval: nat, deadline: nat)
    requires interval > 0 && times != []
    requires forall i | 0 < i < |times| - 1 :: times[i] >= times[i - 1] + interval
    requires |times| > 1 ==> times[|times| - 2] < deadline
    ensures |times| <= (deadline + interval - 1) / interval + 1
  {
    if |times| > 1 {
      LastIsLate(times[..|times| - 1], interval);
      Quotient(|times| - 2, interval, deadline);
    }
  }

  lemma {:induction false} LastIsLate(times: seq<nat>, interval: nat)
    requires times != [] && forall i | 0 < i < |times| :: times[i] >= times[i - 1] + interval
    ensures times[|times| - 1] >= (|times| - 1) * interval
  {
    if |times| > 1 {
      LastIsLate(times[..|times| - 1], interval);
    }
  }

  lemma Quotient(k: nat, interval: nat, deadline: nat)
    requires interval > 0 && k * interval < deadline
    ensures k + 1 <= (deadline + interval - 1) / interval
  {
    assert (k + 1) * interval == k * interval + interval;
  }
}
