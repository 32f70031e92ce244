/**
 The client's retries: proxies whose registration was refused are submitted again with growing
 delays, and a lost control connection is re-established with growing delays.

 What the server answers and when the client is told to stop are parameters; delays are in seconds.
 */
module Retry {
  import opened Numbers
  import opened Wrappers

  type Name = nat

  datatype Answer = Registered | Refused | ConnLost

  datatype Try = Try(round: nat, name: Name, answer: Answer)

  datatype End = Done | Exhausted | Stopped | Disconnected

  /** Everything a retry loop did: completed sleeps, submissions, what is left and why it ended. */
  datatype Log = Log(sleeps: seq<nat>, tries: seq<Try>, left: seq<Name>, end: End)

  datatype Policy = Policy(initial: nat, max: nat, rounds: nat)

  const RETRYABLE := Policy(2, 30, 8)
  const PERSISTENT := Policy(30, 30, 20)

  // ------------------------------------------------------------------ the loop

  /** One round over the pending proxies, cut short when the connection is lost. */
  function TryAll(ps: seq<Name>, round: nat, answer: (nat, Name) -> Answer): (seq<Try>, seq<Name>, bool) {
    if ps == [] then ([], [], false)
    else
      var a := answer(round, ps[0]);
      if a == ConnLost then ([Try(round, ps[0], a)], ps, true)
      else
        var (ts, still, lost) := TryAll(ps[1..], round, answer);
        ([Try(round, ps[0], a)] + ts, (if a == Registered then [] else [ps[0]]) + still, lost)
  }

  function Rounds(ps: seq<Name>, round: nat, delay: nat, p: Policy, answer: (nat, Name) -> Answer,
                  stopped: nat -> bool): Log
    requires round <= p.rounds
    decreases p.rounds - round
  {
    if round == p.rounds then Log([], [], ps, Exhausted)
    else if stopped(round) then Log([], [], ps, Stopped)
    else
      var (ts, still, lost) := TryAll(ps, round, answer);
      if lost then Log([delay], ts, still, Disconnected)
      else if still == [] then Log([delay], ts, [], Done)
      else
        var rest := Rounds(still, round + 1, Min(delay * 2, p.max), p, answer, stopped);
        Log([delay] + rest.sleeps, ts + rest.tries, rest.left, rest.end)
  }

  function Retried(ps: seq<Name>, p: Policy, answer: (nat, Name) -> Answer, stopped: nat -> bool): Log {
    if ps == [] then Log([], [], [], Done) else Rounds(ps, 0, p.initial, p, answer, stopped)
  }

  method TryRound(ps: seq<Name>, round: nat, answer: (nat, Name) -> Answer)
    returns (tries: seq<Try>, still: seq<Name>, lost: bool)
    ensures (tries, still, lost) == TryAll(ps, round, answer)
  {
    tries, still := [], [];
    var k := 0;
    assert ps[0..] == ps;
    while k < |ps|
      invariant k <= |ps|
      invariant
        var all, rest := TryAll(ps, round, answer), TryAll(ps[k..], round, answer);
        all.0 == tries + rest.0 && all.1 == still + rest.1 && all.2 == rest.2
    {
      var a := answer(round, ps[k]);
      assert ps[k..][0] == ps[k] && ps[k..][1..] == ps[k + 1..];
      tries := tries + [Try(round, ps[k], a)];
      if a == ConnLost {
        return tries, still + ps[k..], true;
      }
      if a != Registered {
        still := still + [ps[k]];
      }
      k := k + 1;
    }
    assert ps[k..] == [] && tries + [] == tries && still + [] == still;
    return tries, still, false;
  }

  method RetryLoop(ps: seq<Name>, p: Policy, answer: (nat, Name) -> Answer, stopped: nat -> bool) returns (log: Log)
    ensures log == Retried(ps, p, answer, stopped)
  {
    if ps == [] {
      return Log([], [], [], Done);
    }
    hide TryAll;
    ghost var all := Rounds(ps, 0, p.initial, p, answer, stopped);
    var pending, delay, sleeps, tries := ps, p.initial, [], [];
    for round := 0 to p.rounds
      invariant
        var rest := Rounds(pending, round, delay, p, answer, stopped);
        sleeps + rest.sleeps == all.sleeps && tries + rest.tries == all.tries && rest.left == all.left
          && rest.end == all.end
    {
      if stopped(round) {
        return Log(sleeps, tries, pending, Stopped);
      }
      sleeps := sleeps + [delay];
      delay := Min(delay * 2, p.max);
      var ts, still, lost := TryRound(pending, round, answer);
      tries := tries + ts;
      if lost {
        return Log(sleeps, tries, still, Disconnected);
      }
      pending := still;
      if pending == [] {
        return Log(sleeps, tries, [], Done);
      }
    }
    return Log(sleeps, tries, pending, Exhausted);
  }

  // ------------------------------------------------------------------ who is tried, who is left

  /** The client's configuration refuses two proxies of one name. */
  predicate Distinct(ps: seq<Name>) {
    forall i, j | 0 <= i < j < |ps| :: ps[i] != ps[j]
  }

  predicate Succeeded(ts: seq<Try>, n: Name) {
    exists i | 0 <= i < |ts| :: ts[i].name == n && ts[i].answer == Registered
  }

  /** The proxies that have not been registered, in their original order. */
  function Unregistered(ps: seq<Name>, ts: seq<Try>): seq<Name> {
    if ps == [] then [] else (if Succeeded(ts, ps[0]) then [] else [ps[0]]) + Unregistered(ps[1..], ts)
  }

  predicate Among(ts: seq<Try>, ps: seq<Name>) {
    forall i | 0 <= i < |ts| :: ts[i].name in ps
  }

  lemma {:induction false} UnregisteredSame(ps: seq<Name>, ts: seq<Try>, us: seq<Try>)
    requires forall i | 0 <= i < |ps| :: Succeeded(ts, ps[i]) <==> Succeeded(us, ps[i])
    ensures Unregistered(ps, ts) == Unregistered(ps, us)
  {
    if ps != [] {
      UnregisteredSame(ps[1..], ts, us);
    }
  }

  lemma SucceededCons(t: Try, ts: seq<Try>, n: Name)
    ensures Succeeded([t] + ts, n) <==> (t.name == n && t.answer == Registered) || Succeeded(ts, n)
  {
    if Succeeded(ts, n) {
      var i :| 0 <= i < |ts| && ts[i].name == n && ts[i].answer == Registered;
      assert ([t] + ts)[i + 1] == ts[i];
    }
    if t.name == n && t.answer == Registered {
      assert ([t] + ts)[0] == t;
    }
  }

  lemma SucceededAppend(ts: seq<Try>, us: seq<Try>, n: Name)
    ensures Succeeded(ts + us, n) <==> Succeeded(ts, n) || Succeeded(us, n)
  {
    if Succeeded(ts, n) {
      var i :| 0 <= i < |ts| && ts[i].name == n && ts[i].answer == Registered;
      assert (ts + us)[i] == ts[i];
    }
    if Succeeded(us, n) {
      var i :| 0 <= i < |us| && us[i].name == n && us[i].answer == Registered;
      assert (ts + us)[|ts| + i] == us[i];
    }
  }

  /** A round leaves exactly what it did not register, and tries nothing twice. */
  lemma {:induction false} RoundPartitions(ps: seq<Name>, round: nat, answer: (nat, Name) -> Answer)
    requires Distinct(ps)
    ensures
      var (ts, still, lost) := TryAll(ps, round, answer);
      && Among(ts, ps) && still == Unregistered(ps, ts)
      && (forall i, j | 0 <= i < j < |ts| :: ts[i].name != ts[j].name)
      && (!lost ==> |ts| == |ps| && forall i | 0 <= i < |ts| :: ts[i].name == ps[i])
  {
    if ps != [] {
      var a := answer(round, ps[0]);
      var t := Try(round, ps[0], a);
      if a == ConnLost {
        NothingRegistered(ps, t);
      } else {
        RoundPartitions(ps[1..], round, answer);
        var (ts, still, lost) := TryAll(ps[1..], round, answer);
        forall n ensures Succeeded([t] + ts, n) <==> (t.name == n && a == Registered) || Succeeded(ts, n) {
          SucceededCons(t, ts, n);
        }
        UnregisteredSame(ps[1..], [t] + ts, ts);
        assert !Succeeded(ts, ps[0]);
      }
    }
  }

  lemma {:induction false} NothingRegistered(ps: seq<Name>, t: Try)
    requires t.answer != Registered
    ensures Unregistered(ps, [t]) == ps
  {
    if ps != [] {
      NothingRegistered(ps[1..], t);
    }
  }

  lemma {:induction false} UnregisteredTwice(ps: seq<Name>, ts: seq<Try>, us: seq<Try>)
    ensures Unregistered(Unregistered(ps, ts), us) == Unregistered(ps, ts + us)
  {
    if ps != [] {
      SucceededAppend(ts, us, ps[0]);
      UnregisteredTwice(ps[1..], ts, us);
      if Succeeded(ts, ps[0]) {
        assert Unregistered(ps, ts) == Unregistered(ps[1..], ts);
        assert Unregistered(ps, ts + us) == Unregistered(ps[1..], ts + us);
      } else {
        assert ([ps[0]] + Unregistered(ps[1..], ts))[1..] == Unregistered(ps[1..], ts);
      }
    }
  }

  lemma {:induction false} UnregisteredIn(ps: seq<Name>, ts: seq<Try>)
    ensures forall n :: n in Unregistered(ps, ts) <==> n in ps && !Succeeded(ts, n)
    ensures Distinct(ps) ==> Distinct(Unregistered(ps, ts))
  {
    if ps != [] {
      UnregisteredIn(ps[1..], ts);
    }
  }

  /**
   After every end of the loop, what is left and what was registered partition the list in order, and
   a proxy that was registered is never submitted again.
   */
  lemma {:induction false} RetriesPartition(ps: seq<Name>, round: nat, delay: nat, p: Policy,
                                            answer: (nat, Name) -> Answer, stopped: nat -> bool)
    requires Distinct(ps) && round <= p.rounds
    ensures
      var log := Rounds(ps, round, delay, p, answer, stopped);
      && log.left == Unregistered(ps, log.tries) && Among(log.tries, ps)
      && (forall i, j | 0 <= i < j < |log.tries| && log.tries[i].name == log.tries[j].name ::
           log.tries[i].answer != Registered)
    decreases p.rounds - round
  {
    if round == p.rounds || stopped(round) {
      NoTries(ps);
    } else {
      RoundPartitions(ps, round, answer);
      var (ts, still, lost) := TryAll(ps, round, answer);
      UnregisteredIn(ps, ts);
      if !lost && still != [] {
        RetriesPartition(still, round + 1, Min(delay * 2, p.max), p, answer, stopped);
        var rest := Rounds(still, round + 1, Min(delay * 2, p.max), p, answer, stopped);
        UnregisteredTwice(ps, ts, rest.tries);
        NoneAgain(ts, rest.tries, still);
      }
    }
  }

  lemma {:induction false} NoTries(ps: seq<Name>)
    ensures Unregistered(ps, []) == ps
  {
    if ps != [] {
      NoTries(ps[1..]);
    }
  }

  lemma NoneAgain(ts: seq<Try>, us: seq<Try>, still: seq<Name>)
    requires forall i, j | 0 <= i < j < |ts| :: ts[i].name != ts[j].name
    requires forall i, j | 0 <= i < j < |us| && us[i].name == us[j].name :: us[i].answer != Registered
    requires Among(us, still) && forall n | n in still :: !Succeeded(ts, n)
    ensures
      var all := ts + us;
      forall i, j | 0 <= i < j < |all| && all[i].name == all[j].name :: all[i].answer != Registered
  {
    var all := ts + us;
    forall i, j | 0 <= i < j < |all| && all[i].name == all[j].name ensures all[i].answer != Registered {
      if i < |ts| && j >= |ts| {
        assert us[j - |ts|].name in still;
      } else if i >= |ts| {
        assert us[i - |ts|].name == us[j - |ts|].name;
      }
    }
  }

  /** The main statement about one retry loop. */
  lemma RetryKeepsThePartition(ps: seq<Name>, p: Policy, answer: (nat, Name) -> Answer, stopped: nat -> bool)
    requires Distinct(ps)
    ensures
      var log := Retried(ps, p, answer, stopped);
      && log.left == Unregistered(ps, log.tries)
      && (forall n :: n in ps <==> n in log.left || Succeeded(log.tries, n))
      && (forall i, j | 0 <= i < j < |log.tries| && log.tries[i].name == log.tries[j].name ::
           log.tries[i].answer != Registered)
  {
    if ps != [] {
      RetriesPartition(ps, 0, p.initial, p, answer, stopped);
      var log := Retried(ps, p, answer, stopped);
      UnregisteredIn(ps, log.tries);
    }
  }

  // ------------------------------------------------------------------ what every round does, and why the loop ends

  /** The tries of the rounds from `lo` to before `hi`, in order. */
  function Within(ts: seq<Try>, lo: nat, hi: nat): seq<Try> {
    if ts == [] then [] else (if lo <= ts[0].round < hi then [ts[0]] else []) + Within(ts[1..], lo, hi)
  }

  /** One round over `ps`: every proxy once, in order, as it is answered; up to a lost connection if there is one. */
  predicate OneRound(ps: seq<Name>, k: nat, answer: (nat, Name) -> Answer, ts: seq<Try>) {
    && |ts| <= |ps|
    && (forall i | 0 <= i < |ts| :: ts[i] == Try(k, ps[i], answer(k, ps[i])))
    && (forall i | 0 <= i < |ts| - 1 :: ts[i].answer != ConnLost)
    && (|ts| < |ps| ==> Broken(ts))
  }

  predicate Broken(ts: seq<Try>) {
    ts != [] && ts[|ts| - 1].answer == ConnLost
  }

  /** In order of rounds, all from `first` to before `after`, and none after a lost connection. */
  predicate Orderly(ts: seq<Try>, first: nat, after: nat) {
    && (forall i | 0 <= i < |ts| :: first <= ts[i].round < after)
    && (forall i, j | 0 <= i < j < |ts| :: ts[i].round <= ts[j].round)
    && (forall i | 0 <= i < |ts| - 1 :: ts[i].answer != ConnLost)
  }

  /** Round `k` is over what was not registered before it. */
  predicate RoundOk(ps: seq<Name>, k: nat, answer: (nat, Name) -> Answer, stopped: nat -> bool, ts: seq<Try>) {
    var pending := Unregistered(ps, Within(ts, 0, k));
    !stopped(k) && pending != [] && OneRound(pending, k, answer, Within(ts, k, k + 1))
  }

  predicate Ending(ps: seq<Name>, after: nat, p: Policy, stopped: nat -> bool, log: Log) {
    && after <= p.rounds && log.left == Unregistered(ps, log.tries)
    && (log.end == Done <==> log.left == [])
    && (log.end == Disconnected <==> Broken(log.tries))
    && (log.end == Stopped <==> log.left != [] && !Broken(log.tries) && after < p.rounds && stopped(after))
    && (log.end == Exhausted <==> log.left != [] && !Broken(log.tries) && after == p.rounds)
  }

  /** What a loop that begins with round `first` does, said without running it. */
  ghost predicate Faithful(ps: seq<Name>, first: nat, p: Policy, answer: (nat, Name) -> Answer, stopped: nat -> bool,
                           log: Log)
  {
    var after := first + |log.sleeps|;
    && Orderly(log.tries, first, after)
    && (forall k | first <= k < after :: RoundOk(ps, k, answer, stopped, log.tries))
    && Ending(ps, after, p, stopped, log)
  }

  lemma {:induction false} TryAllIsOneRound(ps: seq<Name>, round: nat, answer: (nat, Name) -> Answer)
    ensures
      var (ts, still, lost) := TryAll(ps, round, answer);
      OneRound(ps, round, answer, ts) && (lost <==> Broken(ts)) && (lost ==> still != [])
  {
    if ps != [] && answer(round, ps[0]) != ConnLost {
      TryAllIsOneRound(ps[1..], round, answer);
    }
  }

  lemma {:induction false} WithinAppend(ts: seq<Try>, us: seq<Try>, lo: nat, hi: nat)
    ensures Within(ts + us, lo, hi) == Within(ts, lo, hi) + Within(us, lo, hi)
  {
    if ts == [] {
      assert ts + us == us;
    } else {
      assert (ts + us)[1..] == ts[1..] + us;
      WithinAppend(ts[1..], us, lo, hi);
    }
  }

  lemma {:induction false} WithinAll(ts: seq<Try>, lo: nat, hi: nat)
    ensures (forall i | 0 <= i < |ts| :: lo <= ts[i].round < hi) ==> Within(ts, lo, hi) == ts
    ensures (forall i | 0 <= i < |ts| :: !(lo <= ts[i].round < hi)) ==> Within(ts, lo, hi) == []
  {
    if ts != [] {
      WithinAll(ts[1..], lo, hi);
    }
  }

  /** The rounds of a longer log are its first round and those of the rest. */
  lemma RoundsOf(ts: seq<Try>, us: seq<Try>, first: nat, k: nat)
    requires forall i | 0 <= i < |ts| :: ts[i].round == first
    requires forall i | 0 <= i < |us| :: us[i].round > first
    requires k >= first
    ensures k == first ==> Within(ts + us, 0, k) == [] && Within(ts + us, k, k + 1) == ts
    ensures k > first ==> Within(ts + us, 0, k) == ts + Within(us, 0, k)
    ensures k > first ==> Within(ts + us, k, k + 1) == Within(us, k, k + 1)
  {
    WithinAppend(ts, us, 0, k);
    WithinAppend(ts, us, k, k + 1);
    WithinAll(ts, 0, k);
    WithinAll(us, 0, k);
    WithinAll(ts, k, k + 1);
    WithinAll(us, k, k + 1);
  }

  lemma LongerIsOrderly(ps: seq<Name>, first: nat, after: nat, answer: (nat, Name) -> Answer,
                        ts: seq<Try>, us: seq<Try>)
    requires OneRound(ps, first, answer, ts) && !Broken(ts) && Orderly(us, first + 1, after) && first < after
    ensures Orderly(ts + us, first, after) && (Broken(ts + us) <==> Broken(us))
  {
    var all := ts + us;
    forall i | 0 <= i < |all| ensures first <= all[i].round < after { }
    if us == [] {
      assert all == ts;
    }
  }

  lemma RoundsGoOn(ps: seq<Name>, first: nat, k: nat, after: nat, answer: (nat, Name) -> Answer, stopped: nat -> bool,
                   ts: seq<Try>, us: seq<Try>)
    requires ps != [] && !stopped(first) && OneRound(ps, first, answer, ts) && Orderly(us, first + 1, after)
    requires first <= k && (k > first ==> RoundOk(Unregistered(ps, ts), k, answer, stopped, us))
    ensures RoundOk(ps, k, answer, stopped, ts + us)
  {
    RoundsOf(ts, us, first, k);
    hide OneRound, Orderly;
    if k == first {
      NoTries(ps);
    } else {
      UnregisteredTwice(ps, ts, Within(us, 0, k));
    }
  }

  lemma LongerIsFaithful(ps: seq<Name>, first: nat, p: Policy, answer: (nat, Name) -> Answer, stopped: nat -> bool,
                         delay: nat, ts: seq<Try>, still: seq<Name>, rest: Log)
    requires ps != [] && first < p.rounds && !stopped(first) && OneRound(ps, first, answer, ts) && !Broken(ts)
    requires still == Unregistered(ps, ts) && Faithful(still, first + 1, p, answer, stopped, rest)
    ensures Faithful(ps, first, p, answer, stopped, Log([delay] + rest.sleeps, ts + rest.tries, rest.left, rest.end))
  {
    hide OneRound, Orderly, RoundOk, Broken, Within;
    var log := Log([delay] + rest.sleeps, ts + rest.tries, rest.left, rest.end);
    var after := first + |log.sleeps|;
    LongerIsOrderly(ps, first, after, answer, ts, rest.tries);
    forall k | first <= k < after ensures RoundOk(ps, k, answer, stopped, log.tries) {
      RoundsGoOn(ps, first, k, after, answer, stopped, ts, rest.tries);
    }
    UnregisteredTwice(ps, ts, rest.tries);
  }

  lemma OneRoundIsFaithful(ps: seq<Name>, first: nat, p: Policy, answer: (nat, Name) -> Answer, stopped: nat -> bool,
                           delay: nat, ts: seq<Try>, still: seq<Name>)
    requires ps != [] && first < p.rounds && !stopped(first) && OneRound(ps, first, answer, ts)
    requires still == Unregistered(ps, ts) && (Broken(ts) ==> still != []) && (!Broken(ts) ==> still == [])
    ensures Faithful(ps, first, p, answer, stopped, Log([delay], ts, still, if Broken(ts) then Disconnected else Done))
  {
    hide OneRound, Orderly, RoundOk, Broken, Unregistered, Within;
    OneRoundIsOrderly(ps, first, answer, ts);
    assert ts + [] == ts;
    NothingIsOrderly(first + 1);
    RoundsGoOn(ps, first, first, first + 1, answer, stopped, ts, []);
  }

  lemma OneRoundIsOrderly(ps: seq<Name>, first: nat, answer: (nat, Name) -> Answer, ts: seq<Try>)
    requires OneRound(ps, first, answer, ts)
    ensures Orderly(ts, first, first + 1)
  {
  }

  lemma NothingIsOrderly(first: nat)
    ensures Orderly([], first, first)
  {
  }

  lemma NoRoundIsFaithful(ps: seq<Name>, first: nat, p: Policy, answer: (nat, Name) -> Answer, stopped: nat -> bool)
    requires ps != [] && first <= p.rounds && (first < p.rounds ==> stopped(first))
    ensures Faithful(ps, first, p, answer, stopped, Log([], [], ps, if first == p.rounds then Exhausted else Stopped))
  {
    NoTries(ps);
    NothingIsOrderly(first);
    hide Orderly, RoundOk;
  }

  lemma {:induction false} RoundsAreFaithful(ps: seq<Name>, first: nat, delay: nat, p: Policy,
                                             answer: (nat, Name) -> Answer, stopped: nat -> bool)
    requires Distinct(ps) && ps != [] && first <= p.rounds
    ensures Faithful(ps, first, p, answer, stopped, Rounds(ps, first, delay, p, answer, stopped))
    decreases p.rounds - first
  {
    hide Faithful, OneRound, Broken, TryAll;
    if first == p.rounds || stopped(first) {
      NoRoundIsFaithful(ps, first, p, answer, stopped);
    } else {
      TryAllIsOneRound(ps, first, answer);
      RoundPartitions(ps, first, answer);
      var (ts, still, lost) := TryAll(ps, first, answer);
      if lost || still == [] {
        OneRoundIsFaithful(ps, first, p, answer, stopped, delay, ts, still);
      } else {
        UnregisteredIn(ps, ts);
        var d := Min(delay * 2, p.max);
        RoundsAreFaithful(still, first + 1, d, p, answer, stopped);
        var rest := Rounds(still, first + 1, d, p, answer, stopped);
        LongerIsFaithful(ps, first, p, answer, stopped, delay, ts, still, rest);
      }
    }
  }

  /**
   What a retry loop does. In every round it begins it submits exactly the proxies not registered before,
   in order, up to a lost connection, and records the answers; no round begins when it is told to stop or
   nothing is pending. It is done exactly when nothing is left, disconnected exactly when the last answer
   is a lost connection, stopped exactly when it was told to before a round it had left, and exhausted
   exactly when all its rounds are used up.
   */
  lemma RetryExactly(ps: seq<Name>, p: Policy, answer: (nat, Name) -> Answer, stopped: nat -> bool)
    requires Distinct(ps)
    ensures
      var log := Retried(ps, p, answer, stopped);
      var n := |log.sleeps|;
      && n <= p.rounds
      && Orderly(log.tries, 0, n)
      && (forall k | 0 <= k < n :: RoundOk(ps, k, answer, stopped, log.tries))
      && (log.end == Done <==> log.left == [])
      && (log.end == Disconnected <==> log.tries != [] && log.tries[|log.tries| - 1].answer == ConnLost)
      && (log.end == Stopped ==> n < p.rounds && stopped(n))
      && (log.end == Exhausted ==> n == p.rounds)
      && (log.left != [] && !Broken(log.tries) && n < p.rounds ==> log.end == Stopped)
  {
    hide Rounds, OneRound, Orderly, Within, RoundOk, Unregistered;
    var log := Retried(ps, p, answer, stopped);
    if ps != [] {
      RoundsAreFaithful(ps, 0, p.initial, p, answer, stopped);
      RetriedIsRounds(ps, p, answer, stopped);
      hide Retried;
    } else {
      NothingIsOrderly(0);
    }
  }

  /** The two policies, by numbers: a loop that gives up has used 8 rounds, or 20. */
  lemma GivingUpTakesAllRounds(ps: seq<Name>, answer: (nat, Name) -> Answer, stopped: nat -> bool)
    requires Distinct(ps)
    ensures
      var log := Retried(ps, RETRYABLE, answer, stopped);
      log.end == Exhausted ==> |log.sleeps| == 8
    ensures
      var log := Retried(ps, PERSISTENT, answer, stopped);
      log.end == Exhausted ==> |log.sleeps| == 20
  {
    hide Retried;
    RetryExactly(ps, RETRYABLE, answer, stopped);
    RetryExactly(ps, PERSISTENT, answer, stopped);
  }

  // ------------------------------------------------------------------ delays

  function Pow2(n: nat): nat {
    if n == 0 then 1 else 2 * Pow2(n - 1)
  }

  /** The delay before round `k`, counted from 0: doubled every round, and capped from the second on. */
  function Delay(p: Policy, k: nat): nat {
    if k == 0 then p.initial else Min(Delay(p, k - 1) * 2, p.max)
  }

  lemma {:induction false} DelayIsCappedPower(p: Policy, k: nat)
    ensures k > 0 || p.initial <= p.max <==> Delay(p, k) == Min(p.initial * Pow2(k), p.max)
  {
    if k > 0 {
      DelayIsCappedPower(p, k - 1);
      PowAtLeastOne(k - 1);
      var d := p.initial * Pow2(k - 1);
      assert p.initial * Pow2(k) == 2 * d;
    }
  }

  lemma PowAtLeastOne(n: nat)
    ensures Pow2(n) >= 1
  {
  }

  lemma {:induction false} SleepsAreDelays(ps: seq<Name>, round: nat, delay: nat, p: Policy,
                                           answer: (nat, Name) -> Answer, stopped: nat -> bool)
    requires round <= p.rounds && delay == Delay(p, round)
    ensures
      var log := Rounds(ps, round, delay, p, answer, stopped);
      |log.sleeps| <= p.rounds - round && forall k | 0 <= k < |log.sleeps| :: log.sleeps[k] == Delay(p, round + k)
    decreases p.rounds - round
  {
    if round < p.rounds && !stopped(round) {
      var (ts, still, lost) := TryAll(ps, round, answer);
      if !lost && still != [] {
        SleepsAreDelays(still, round + 1, Min(delay * 2, p.max), p, answer, stopped);
        var rest := Rounds(still, round + 1, Min(delay * 2, p.max), p, answer, stopped);
        forall k | 0 <= k < 1 + |rest.sleeps| ensures ([delay] + rest.sleeps)[k] == Delay(p, round + k) {
          if k > 0 {
            assert rest.sleeps[k - 1] == Delay(p, round + 1 + (k - 1));
          }
        }
      }
    }
  }

  function Sum(xs: seq<nat>): nat {
    if xs == [] then 0 else Sum(xs[..|xs| - 1]) + xs[|xs| - 1]
  }

  function TotalDelay(p: Policy, n: nat): nat {
    if n == 0 then 0 else TotalDelay(p, n - 1) + Delay(p, n - 1)
  }

  lemma {:induction false} SumOfDelays(p: Policy, xs: seq<nat>)
    requires forall k | 0 <= k < |xs| :: xs[k] == Delay(p, k)
    ensures Sum(xs) == TotalDelay(p, |xs|)
  {
    if xs != [] {
      SumOfDelays(p, xs[..|xs| - 1]);
    }
  }

  lemma {:induction false} TotalGrows(p: Policy, m: nat, n: nat)
    requires m <= n
    ensures TotalDelay(p, m) <= TotalDelay(p, n)
  {
    if m < n {
      TotalGrows(p, m, n - 1);
    }
  }

  /** Round after round sleeps 2, 4, 8, 16, 30, 30, 30, 30 seconds: 150 in all. */
  lemma RetryTimeIsBounded(ps: seq<Name>, answer: (nat, Name) -> Answer, stopped: nat -> bool)
    ensures
      var sleeps := Retried(ps, RETRYABLE, answer, stopped).sleeps;
      |sleeps| <= 8 && Sum(sleeps) <= 150 && (|sleeps| == 8 ==> Sum(sleeps) == 150)
  {
    if ps != [] {
      SleepsAreDelays(ps, 0, RETRYABLE.initial, RETRYABLE, answer, stopped);
      hide Retried, Rounds, Sum, TotalDelay, Delay;
      var sleeps := Rounds(ps, 0, RETRYABLE.initial, RETRYABLE, answer, stopped).sleeps;
      SumOfDelays(RETRYABLE, sleeps);
      TotalGrows(RETRYABLE, |sleeps|, 8);
      ShortTotal();
      assert Retried(ps, RETRYABLE, answer, stopped).sleeps == sleeps by {
        RetriedIsRounds(ps, RETRYABLE, answer, stopped);
      }
    } else {
      assert Retried(ps, RETRYABLE, answer, stopped).sleeps == [];
    }
  }

  /** The long list: 30 seconds before every round, 600 in all. */
  lemma PersistentRetryTimeIsBounded(ps: seq<Name>, answer: (nat, Name) -> Answer, stopped: nat -> bool)
    ensures
      var sleeps := Retried(ps, PERSISTENT, answer, stopped).sleeps;
      |sleeps| <= 20 && Sum(sleeps) == 30 * |sleeps|
  {
    if ps != [] {
      SleepsAreDelays(ps, 0, PERSISTENT.initial, PERSISTENT, answer, stopped);
      hide Retried, Rounds, Sum, TotalDelay, Delay;
      var sleeps := Rounds(ps, 0, PERSISTENT.initial, PERSISTENT, answer, stopped).sleeps;
      SumOfDelays(PERSISTENT, sleeps);
      LongTotal(|sleeps|);
      assert Retried(ps, PERSISTENT, answer, stopped).sleeps == sleeps by {
        RetriedIsRounds(ps, PERSISTENT, answer, stopped);
      }
    } else {
      assert Retried(ps, PERSISTENT, answer, stopped).sleeps == [];
    }
  }

  lemma RetriedIsRounds(ps: seq<Name>, p: Policy, answer: (nat, Name) -> Answer, stopped: nat -> bool)
    requires ps != []
    ensures Retried(ps, p, answer, stopped) == Rounds(ps, 0, p.initial, p, answer, stopped)
  {
    hide Rounds;
  }

  lemma ShortTotal()
    ensures TotalDelay(RETRYABLE, 8) == 150
  {
    var p := RETRYABLE;
    assert Delay(p, 0) == 2 && Delay(p, 1) == 4;
    assert Delay(p, 2) == 8;
    assert Delay(p, 3) == 16;
    assert Delay(p, 4) == 30;
    assert Delay(p, 5) == 30;
    assert Delay(p, 6) == 30;
    assert Delay(p, 7) == 30;
    assert TotalDelay(p, 4) == 30;
    assert TotalDelay(p, 6) == 90;
  }

  lemma {:induction false} LongTotal(n: nat)
    ensures TotalDelay(PERSISTENT, n) == 30 * n && Delay(PERSISTENT, n) == 30
  {
    if n > 0 {
      LongTotal(n - 1);
    }
  }

  // ------------------------------------------------------------------ reconnecting

  const RECONNECT_BACKOFF_INITIAL: nat := 1
  const RECONNECT_BACKOFF_MAX: nat := 30
  const MIN_STABLE_CONNECTION_SECS: nat := 60

  /** How one connection attempt ended: refused for good, a control session that lasted, or an error. */
  datatype Attempt = Fatal | Closed(connected: bool, lived: nat) | Failed

  /** Only a session that was established and lasted a minute counts as stable. */
  predicate Stable(a: Attempt) {
    a.Closed? && a.connected && a.lived >= MIN_STABLE_CONNECTION_SECS
  }

  /** How many attempts in a row, up to this one, have been unstable since the last stable one or the start. */
  function Streak(attempts: seq<Attempt>, i: nat): nat
    requires i < |attempts|
  {
    if Stable(attempts[i]) || i == 0 then 0 else Streak(attempts, i - 1) + 1
  }

  /** The streak goes back to the last session that was established and lasted a minute, or to the first attempt. */
  lemma {:induction false} StreakIsSinceStable(attempts: seq<Attempt>, i: nat)
    requires i < |attempts|
    ensures
      var n := Streak(attempts, i);
      && n <= i
      && (n < i ==> attempts[i - n].Closed? && attempts[i - n].connected && attempts[i - n].lived >= 60)
      && (forall k | i - n < k <= i ::
            !(attempts[k].Closed? && attempts[k].connected && attempts[k].lived >= 60))
  {
    if i > 0 && !Stable(attempts[i]) {
      StreakIsSinceStable(attempts, i - 1);
    }
  }

  /**
   The reconnect loop over a history of attempts: the wait after each is two to the power of the
   unstable streak, at most 30 seconds.
   */
  method Reconnect(attempts: seq<Attempt>) returns (waits: seq<nat>, fatal: bool)
    ensures fatal <==> Fatal in attempts
    ensures |waits| <= |attempts| && (!fatal ==> |waits| == |attempts|)
    ensures fatal ==> |waits| < |attempts| && attempts[|waits|] == Fatal
    ensures forall i | 0 <= i < |waits| :: waits[i] == Min(Pow2(Streak(attempts, i)), 30)
  {
    hide Pow2;
    waits := [];
    var backoff := RECONNECT_BACKOFF_INITIAL;
    for i := 0 to |attempts|
      invariant |waits| == i && forall k | 0 <= k < i :: attempts[k] != Fatal
      invariant backoff == if i == 0 then 1 else Min(Pow2(Streak(attempts, i - 1) + 1), 30)
      invariant forall k | 0 <= k < i :: waits[k] == Min(Pow2(Streak(attempts, k)), 30)
    {
      NextBackoff(Streak(attempts, i));
      match attempts[i] {
        case Fatal => return waits, true;
        case Closed(connected, lived) =>
          if connected && lived >= MIN_STABLE_CONNECTION_SECS {
            backoff := RECONNECT_BACKOFF_INITIAL;
          }
        case Failed =>
      }
      waits := waits + [backoff];
      backoff := Min(backoff * 2, RECONNECT_BACKOFF_MAX);
    }
    return waits, false;
  }

  lemma NextBackoff(n: nat)
    ensures Pow2(0) == 1 && Min(Min(Pow2(n), 30) * 2, 30) == Min(Pow2(n + 1), 30)
  {
    PowAtLeastOne(n);
  }
}
