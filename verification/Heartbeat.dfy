/**
 The heartbeat watchdog that both ends of a control connection run: send a timestamp every
 `interval`, wait up to `timeout` for it to come back, and give the connection up when it does not.

 One clock in milliseconds serves for sending times and deadlines. The watchdog acts promptly: time
 does not pass while it has something to do.
 */
module Heartbeat {
  import opened Numbers
  import opened Wrappers

  datatype Config = Config(interval: nat, timeout: nat)

  /** What the configuration check demands. */
  predicate Valid(c: Config) {
    0 < c.timeout < c.interval
  }

  datatype Phase = Idle | Waiting(ts: nat, deadline: nat) | Dead

  /**
   `pongTs` is the last timestamp that came back. `notes` are notifications not taken yet: one may
   have woken the waiting round, another be stored, so there are at most two. `sent` are the
   timestamps sent so far, `heard` is when the newest of them last came back: both are history.
   */
  datatype State = State(now: nat, phase: Phase, nextTick: nat, pongTs: nat, notes: nat, sent: seq<nat>, heard: nat)

  datatype Event =
    | Elapsed(d: nat)
    | Ticked
    | SendFailed
    | Answered
    | NoteTaken
    | TimedOut
    | Echoed(ts: nat)

  function Init(c: Config): State {
    State(0, Idle, c.interval, 0, 0, [], 0)
  }

  /** The watchdog has a step to take now. */
  predicate Due(s: State) {
    match s.phase
    case Idle => s.now >= s.nextTick
    case Waiting(ts, deadline) => s.pongTs >= ts || s.notes > 0 || s.now >= deadline
    case Dead => false
  }

  predicate Enabled(s: State, e: Event) {
    match e
    case Elapsed(d) =>
      && !Due(s)
      && (s.phase.Idle? ==> s.now + d <= s.nextTick) && (s.phase.Waiting? ==> s.now + d <= s.phase.deadline)
    case Ticked => s.phase.Idle? && s.now >= s.nextTick
    case SendFailed => s.phase.Idle? && s.now >= s.nextTick
    case Answered => s.phase.Waiting? && s.pongTs >= s.phase.ts
    case NoteTaken => s.phase.Waiting? && s.notes > 0
    case TimedOut => s.phase.Waiting? && s.pongTs < s.phase.ts && s.now >= s.phase.deadline
    case Echoed(ts) => !s.phase.Dead? && ts in s.sent
  }

  function Apply(c: Config, s: State, e: Event): State
    requires Enabled(s, e)
  {
    match e
    case Elapsed(d) => s.(now := s.now + d)
    case Ticked => s.(phase := Waiting(s.now, s.now + c.timeout), nextTick := s.nextTick + c.interval,
         sent := s.sent + [s.now])
    case SendFailed => s.(phase := Dead)
    case Answered => s.(phase := Idle)
    case NoteTaken => s.(notes := s.notes - 1)
    case TimedOut => s.(phase := Dead)
    case Echoed(ts) =>
      s.(pongTs := ts, notes := Min(s.notes + 1, 2), heard := if ts == s.sent[|s.sent| - 1] then s.now else s.heard)
  }

  function Run(c: Config, s: State, es: seq<Event>): Option<State>
    decreases |es|
  {
    if es == [] then Some(s)
    else if Enabled(s, es[0]) then Run(c, Apply(c, s, es[0]), es[1..])
    else None
  }

  ghost predicate Reachable(c: Config, s: State) {
    exists es :: Run(c, Init(c), es) == Some(s)
  }

  // ------------------------------------------------------------------ a silent peer

  /**
   The newest heartbeat was sent when it says; a round in progress began one interval after the last
   answer at the latest.
   */
  ghost predicate Inv(c: Config, s: State) {
    && (forall i, j | 0 <= i < j < |s.sent| :: s.sent[i] < s.sent[j])
    && (forall i | 0 <= i < |s.sent| :: 0 < s.sent[i] <= s.now && s.sent[i] + c.interval <= s.nextTick)
    && (s.pongTs == 0 || s.pongTs in s.sent)
    && s.heard <= s.now && c.interval <= s.nextTick
    && match s.phase
       case Idle => s.now <= s.nextTick <= s.heard + c.interval
       case Waiting(ts, deadline) =>
         && s.sent != [] && s.sent[|s.sent| - 1] == ts && deadline == ts + c.timeout && s.now <= deadline
         && s.nextTick == ts + c.interval && ts <= s.heard + c.interval
         && (s.pongTs >= ts ==> s.heard >= ts)
       case Dead => true
  }

  lemma TickKeepsInv(c: Config, s: State)
    requires Valid(c) && Inv(c, s) && Enabled(s, Ticked)
    ensures Inv(c, Apply(c, s, Ticked))
  {
  }

  lemma EchoKeepsInv(c: Config, s: State, ts: nat)
    requires Valid(c) && Inv(c, s) && Enabled(s, Echoed(ts))
    ensures Inv(c, Apply(c, s, Echoed(ts)))
  {
  }

  lemma StepKeepsInv(c: Config, s: State, e: Event)
    requires Valid(c) && Inv(c, s) && Enabled(s, e)
    ensures Inv(c, Apply(c, s, e))
  {
    match e
    case Ticked => TickKeepsInv(c, s);
    case Echoed(ts) => EchoKeepsInv(c, s, ts);
    case _ =>
  }

  lemma {:induction false} RunKeepsInv(c: Config, s: State, es: seq<Event>)
    requires Valid(c) && Inv(c, s) && Run(c, s, es).Some?
    ensures Inv(c, Run(c, s, es).value)
    decreases |es|
  {
    hide Inv, Enabled, Apply;
    if es != [] {
      StepKeepsInv(c, s, es[0]);
      RunKeepsInv(c, Apply(c, s, es[0]), es[1..]);
    }
  }

  lemma ReachableInv(c: Config, s: State)
    requires Valid(c) && Reachable(c, s)
    ensures Inv(c, s)
  {
    hide Enabled, Apply;
    var es :| Run(c, Init(c), es) == Some(s);
    assert Inv(c, Init(c));
    hide Inv;
    RunKeepsInv(c, Init(c), es);
  }

  /**
   A connection that is not given up has been answered recently: on every run, whatever timestamps
   the peer repeats and whatever notes are left over, it is dead once `interval + timeout` have passed
   since a heartbeat was last answered while it was the newest one.
   */
  lemma SilenceIsNoticed(c: Config, s: State)
    requires Valid(c) && Reachable(c, s) && !s.phase.Dead?
    ensures s.now <= s.heard + c.interval + c.timeout
  {
    ReachableInv(c, s);
  }

  /** The watchdog never gets stuck: time can pass or it has a step to take, until it is dead. */
  lemma AlwaysMoves(c: Config, s: State)
    requires Valid(c) && Reachable(c, s) && !s.phase.Dead?
    ensures exists e :: Enabled(s, e) && (e == Elapsed(1) || (!e.Elapsed? && !e.Echoed?))
  {
    ReachableInv(c, s);
    match s.phase
    case Idle =>
      if s.now >= s.nextTick { assert Enabled(s, Ticked); } else { assert Enabled(s, Elapsed(1)); }
    case Waiting(ts, deadline) =>
      if s.pongTs >= ts { assert Enabled(s, Answered); }
      else if s.notes > 0 { assert Enabled(s, NoteTaken); }
      else if s.now >= deadline { assert Enabled(s, TimedOut); }
      else { assert Enabled(s, Elapsed(1)); }
  }

  // ------------------------------------------------------------------ a peer that answers

  /**
   Runs with a peer that echoes every heartbeat after at most `delay`, and sends that do not fail. It
   may echo as often as it likes, but no echo goes back behind the one before it. `owed` is the
   heartbeat it has not echoed yet.
   */
  function ForwardRun(c: Config, delay: nat, s: State, owed: Option<nat>, es: seq<Event>): Option<State>
    decreases |es|
  {
    if es == [] then Some(s)
    else if !Enabled(s, es[0]) then None
    else
      var t := Apply(c, s, es[0]);
      match es[0]
      case Elapsed(d) =>
        if owed.Some? && s.now + d > owed.value + delay then None else ForwardRun(c, delay, t, owed, es[1..])
      case Ticked => ForwardRun(c, delay, t, Some(s.now), es[1..])
      case SendFailed => None
      case Echoed(ts) =>
        if ts < s.pongTs then None else ForwardRun(c, delay, t, if owed == Some(ts) then None else owed, es[1..])
      case _ => ForwardRun(c, delay, t, owed, es[1..])
  }

  /** The round in progress is answered, or will be before its deadline. */
  ghost predicate Served(c: Config, delay: nat, s: State, owed: Option<nat>) {
    && !s.phase.Dead?
    && (s.phase.Idle? ==> owed.None?)
    && (s.phase.Waiting? ==>
          if owed.Some? then owed.value == s.phase.ts && s.pongTs < s.phase.ts
            && s.now <= s.phase.ts + delay < s.phase.deadline
          else s.pongTs == s.phase.ts)
  }

  function Owed(s: State, owed: Option<nat>, e: Event): Option<nat> {
    if e.Ticked? then Some(s.now) else if e.Echoed? && owed == Some(e.ts) then None else owed
  }

  lemma ForwardStep(c: Config, delay: nat, s: State, owed: Option<nat>, e: Event)
    requires Valid(c) && delay < c.timeout && Inv(c, s) && Served(c, delay, s, owed) && Enabled(s, e) && !e.SendFailed?
    requires e.Elapsed? && owed.Some? ==> s.now + e.d <= owed.value + delay
    requires e.Echoed? ==> e.ts >= s.pongTs
    ensures Served(c, delay, Apply(c, s, e), Owed(s, owed, e))
  {
  }

  lemma {:induction false} ForwardStaysAlive(c: Config, delay: nat, s: State, owed: Option<nat>, es: seq<Event>)
    requires Valid(c) && delay < c.timeout && Inv(c, s) && Served(c, delay, s, owed)
    requires ForwardRun(c, delay, s, owed, es).Some?
    ensures !ForwardRun(c, delay, s, owed, es).value.phase.Dead?
    decreases |es|
  {
    hide Inv, Apply, Enabled;
    if es == [] {
      ServedIsAlive(c, delay, s, owed);
    } else {
      hide Served;
      var e := es[0];
      StepKeepsInv(c, s, e);
      ForwardStep(c, delay, s, owed, e);
      ForwardStaysAlive(c, delay, Apply(c, s, e), Owed(s, owed, e), es[1..]);
    }
  }

  lemma ServedIsAlive(c: Config, delay: nat, s: State, owed: Option<nat>)
    requires Served(c, delay, s, owed)
    ensures !s.phase.Dead?
  {
  }

  /**
   With a peer that echoes every heartbeat within the timeout and never goes back, the connection is
   never declared dead, on any run, with any repeats and any notes left over.
   */
  lemma NeverFalselyDead(c: Config, delay: nat, es: seq<Event>)
    requires Valid(c) && delay < c.timeout && ForwardRun(c, delay, Init(c), None, es).Some?
    ensures !ForwardRun(c, delay, Init(c), None, es).value.phase.Dead?
  {
    ForwardStaysAlive(c, delay, Init(c), None, es);
  }

  // ------------------------------------------------------------------ what kills an answered round

  /** The round goes on or ends; the next heartbeat is not yet sent. */
  predicate WithinRound(es: seq<Event>) {
    forall i | 0 <= i < |es| :: es[i] != Ticked && es[i] != SendFailed
  }

  /** The round is answered, or already over. */
  predicate Settled(s: State) {
    s.phase.Idle? || (s.phase.Waiting? && s.pongTs >= s.phase.ts)
  }

  predicate Backward(e: Event, sent: seq<nat>, ts: nat) {
    e.Echoed? && e.ts in sent && e.ts < ts
  }

  /** A round whose heartbeat has been echoed times out only after an echo of an older heartbeat. */
  lemma {:induction false} OnlyBackwardEchoKills(c: Config, s: State, ts: nat, es: seq<Event>)
    requires Settled(s) && (s.phase.Waiting? ==> s.phase.ts == ts)
    requires WithinRound(es) && Run(c, s, es).Some? && Run(c, s, es).value.phase.Dead?
    ensures exists i | 0 <= i < |es| :: Backward(es[i], s.sent, ts)
    decreases |es|
  {
    if es != [] && !Backward(es[0], s.sent, ts) {
      OnlyBackwardEchoKills(c, Apply(c, s, es[0]), ts, es[1..]);
      var i :| 0 <= i < |es[1..]| && Backward(es[1..][i], s.sent, ts);
      assert es[i + 1] == es[1..][i];
    }
  }

  /** The round takes its notes, waits for its deadline and gives up. */
  lemma {:induction false} GivesUp(c: Config, s: State) returns (es: seq<Event>)
    requires s.phase.Waiting? && s.pongTs < s.phase.ts && s.now <= s.phase.deadline
    ensures WithinRound(es) && Run(c, s, es).Some? && Run(c, s, es).value.phase.Dead?
    decreases s.notes, s.phase.deadline - s.now
  {
    if s.notes > 0 {
      var more := GivesUp(c, Apply(c, s, NoteTaken));
      es := [NoteTaken] + more;
      RunCons(c, s, NoteTaken, more);
    } else if s.now < s.phase.deadline {
      var e := Elapsed(s.phase.deadline - s.now);
      var more := GivesUp(c, Apply(c, s, e));
      es := [e] + more;
      RunCons(c, s, e, more);
    } else {
      es := [TimedOut];
      RunCons(c, s, TimedOut, []);
      assert [TimedOut] + [] == [TimedOut];
    }
  }

  lemma RunCons(c: Config, s: State, e: Event, es: seq<Event>)
    requires Enabled(s, e)
    ensures Run(c, s, [e] + es) == Run(c, Apply(c, s, e), es)
  {
    assert ([e] + es)[1..] == es;
  }

  /** One echo of any older heartbeat is enough. */
  lemma BackwardEchoKills(c: Config, s: State, older: nat) returns (es: seq<Event>)
    requires Valid(c) && Reachable(c, s) && s.phase.Waiting? && older in s.sent && older < s.phase.ts
    ensures WithinRound(es) && Run(c, s, es).Some? && Run(c, s, es).value.phase.Dead?
  {
    ReachableInv(c, s);
    var t := Apply(c, s, Echoed(older));
    var more := GivesUp(c, t);
    es := [Echoed(older)] + more;
    RunCons(c, s, Echoed(older), more);
  }

  /**
   Exactly when a round can be lost although its heartbeat has been echoed: the stored timestamp is
   overwritten, not maximised, so in every reachable state it can if and only if an older heartbeat
   was ever sent, for the peer to repeat.
   */
  lemma AnsweredRoundDiesExactly(c: Config, s: State)
    requires Valid(c) && Reachable(c, s) && s.phase.Waiting? && s.pongTs >= s.phase.ts
    ensures (exists es :: WithinRound(es) && Run(c, s, es).Some? && Run(c, s, es).value.phase.Dead?)
            <==> (exists older :: older in s.sent && older < s.phase.ts)
  {
    if es :| WithinRound(es) && Run(c, s, es).Some? && Run(c, s, es).value.phase.Dead? {
      OnlyBackwardEchoKills(c, s, s.phase.ts, es);
    }
    if older :| older in s.sent && older < s.phase.ts {
      var es := BackwardEchoKills(c, s, older);
    }
  }

  /** The peer answers two heartbeats at once, and then repeats the first answer before the watchdog looks. */
  function StaleEcho(c: Config): seq<Event> {
    [Elapsed(c.interval), Ticked, Echoed(c.interval), Answered,
     Elapsed(c.interval), Ticked, Echoed(2 * c.interval), Echoed(c.interval),
     NoteTaken, NoteTaken, Elapsed(c.timeout), TimedOut]
  }

  /** The shortest such run: a peer that has answered every heartbeat at once is declared dead. */
  lemma RepeatedEchoKills(c: Config)
    requires Valid(c)
    ensures
      var r := Run(c, Init(c), StaleEcho(c));
      r.Some? && r.value.phase.Dead? && r.value.heard == 2 * c.interval && r.value.now == 2 * c.interval + c.timeout
  {
    hide Run;
    var i, t, es := c.interval, c.timeout, StaleEcho(c);
    var s4 := State(i, Idle, 2 * i, i, 1, [i], i);
    var s8 := State(2 * i, Waiting(2 * i, 2 * i + t), 3 * i, i, 2, [i, 2 * i], 2 * i);
    FirstRound(c, es, s4);
    SecondRound(c, es, s4, s8);
    LastRound(c, es, s8);
    assert es[0..] == es;
  }

  lemma FirstRound(c: Config, es: seq<Event>, t: State)
    requires Valid(c) && es == StaleEcho(c)
             && t == State(c.interval, Idle, 2 * c.interval, c.interval, 1, [c.interval], c.interval)
    ensures Run(c, Init(c), es[0..]) == Run(c, t, es[4..])
  {
    hide Run;
    var i := c.interval;
    var mid := State(i, Waiting(i, i + c.timeout), 2 * i, 0, 0, [i], 0);
    RunTwo(c, Init(c), es, 0, mid);
    RunTwo(c, mid, es, 2, t);
  }

  lemma SecondRound(c: Config, es: seq<Event>, s: State, t: State)
    requires Valid(c) && es == StaleEcho(c)
             && s == State(c.interval, Idle, 2 * c.interval, c.interval, 1, [c.interval], c.interval)
    requires
      var i := c.interval;
      t == State(2 * i, Waiting(2 * i, 2 * i + c.timeout), 3 * i, i, 2, [i, 2 * i], 2 * i)
    ensures Run(c, s, es[4..]) == Run(c, t, es[8..])
  {
    hide Run;
    var i := c.interval;
    var mid := State(2 * i, Waiting(2 * i, 2 * i + c.timeout), 3 * i, i, 1, [i, 2 * i], i);
    RunTwo(c, s, es, 4, mid);
    RunTwo(c, mid, es, 6, t);
  }

  lemma LastRound(c: Config, es: seq<Event>, s: State)
    requires Valid(c) && es == StaleEcho(c)
    requires
      var i := c.interval;
      s == State(2 * i, Waiting(2 * i, 2 * i + c.timeout), 3 * i, i, 2, [i, 2 * i], 2 * i)
    ensures Run(c, s, es[8..]) == Some(s.(now := s.now + c.timeout, notes := 0, phase := Dead))
  {
    hide Run;
    var end := s.(now := s.now + c.timeout, notes := 0, phase := Dead);
    RunTwo(c, s, es, 8, s.(notes := 0));
    RunTwo(c, s.(notes := 0), es, 10, end);
    assert es[12..] == [];
    assert Run(c, end, []) == Some(end) by { RunNothing(c, end); }
  }

  lemma RunNothing(c: Config, s: State)
    ensures Run(c, s, []) == Some(s)
  {
  }

  lemma RunTwo(c: Config, s: State, es: seq<Event>, k: nat, t: State)
    requires k + 2 <= |es| && Enabled(s, es[k])
    requires Enabled(Apply(c, s, es[k]), es[k + 1]) && t == Apply(c, Apply(c, s, es[k]), es[k + 1])
    ensures Run(c, s, es[k..]) == Run(c, t, es[k + 2..])
  {
    assert es[k..][1..] == es[k + 1..] && es[k + 1..][1..] == es[k + 2..];
  }

  // ------------------------------------------------------------------ the wait for one answer

  /** An answer that comes in at this time; `seen` when the waiting round runs before the next one is stored. */
  datatype Arrival = Arrival(at: nat, ts: nat, seen: bool)

  /** The round looks at what is stored right after this answer: it is not overwritten at once by another. */
  predicate Looked(all: seq<Arrival>, i: nat)
    requires i < |all|
  {
    all[i].seen || i + 1 == |all| || all[i + 1].at != all[i].at
  }

  lemma {:induction false} RunAppend(c: Config, s: State, es: seq<Event>, fs: seq<Event>)
    requires Run(c, s, es).Some?
    ensures Run(c, s, es + fs) == Run(c, Run(c, s, es).value, fs)
    decreases |es|
  {
    hide Enabled, Apply;
    if es == [] {
      assert es + fs == fs;
    } else {
      RunAppend(c, Apply(c, s, es[0]), es[1..], fs);
      assert es + fs == [es[0]] + (es[1..] + fs);
      RunCons(c, s, es[0], es[1..] + fs);
    }
  }

  /** Some run of the watchdog and its environment leads from the one state to the other. */
  ghost predicate Leads(c: Config, s: State, t: State) {
    exists es :: Run(c, s, es) == Some(t)
  }

  lemma LeadsNowhere(c: Config, s: State)
    ensures Leads(c, s, s)
  {
    assert Run(c, s, []) == Some(s);
  }

  lemma LeadsOn(c: Config, s: State, t: State, u: State)
    requires Leads(c, s, t) && Leads(c, t, u)
    ensures Leads(c, s, u)
  {
    hide Run;
    var es, fs :| Run(c, s, es) == Some(t) && Run(c, t, fs) == Some(u);
    RunAppend(c, s, es, fs);
  }

  lemma LeadsStep(c: Config, s: State, t: State, e: Event)
    requires Leads(c, s, t) && Enabled(t, e)
    ensures Leads(c, s, Apply(c, t, e))
  {
    hide Leads, Run;
    assert Leads(c, t, Apply(c, t, e)) by { OneStep(c, t, e); }
    LeadsOn(c, s, t, Apply(c, t, e));
  }

  lemma OneStep(c: Config, t: State, e: Event)
    requires Enabled(t, e)
    ensures Leads(c, t, Apply(c, t, e))
  {
    RunCons(c, t, e, []);
    assert Run(c, Apply(c, t, e), []) == Some(Apply(c, t, e));
  }

  /** Answers come in order, and those that come before the deadline are echoes of what was sent. */
  ghost predicate Expected(incoming: seq<Arrival>, now: nat, sent: seq<nat>, deadline: nat) {
    && (forall i | 0 <= i < |incoming| ::
         now <= incoming[i].at && (incoming[i].at <= deadline ==> incoming[i].ts in sent))
    && (forall i, j | 0 <= i < j < |incoming| :: incoming[i].at <= incoming[j].at)
  }

  /** None of the first `n` answers that the round gets to see before `limit` is for this round. */
  ghost predicate NoneFor(ts: nat, all: seq<Arrival>, n: nat, limit: nat)
    requires n <= |all|
  {
    forall i | 0 <= i < n && Looked(all, i) && all[i].at < limit :: all[i].ts < ts
  }

  /** The round gets to see an answer for it, at `limit` at the latest. */
  ghost predicate SomeFor(ts: nat, all: seq<Arrival>, limit: nat) {
    exists i | 0 <= i < |all| :: Looked(all, i) && all[i].at <= limit && all[i].ts >= ts
  }

  /** `k` answers are stored before the round looks: of these it sees the last one only. */
  predicate OneBatch(incoming: seq<Arrival>, k: nat) {
    && 0 < k <= |incoming| && Looked(incoming, k - 1) && incoming[k - 1].at == incoming[0].at
    && forall i | 0 <= i < k - 1 :: !Looked(incoming, i)
  }

  lemma RestExpected(incoming: seq<Arrival>, now: nat, sent: seq<nat>, deadline: nat, k: nat, later: nat)
    requires Expected(incoming, now, sent, deadline) && k <= |incoming|
    requires later == now || (k < |incoming| ==> later <= incoming[k].at)
    ensures Expected(incoming[k..], later, sent, deadline)
  {
    assert forall i | 0 <= i < |incoming| - k :: incoming[k..][i] == incoming[k + i];
    assert forall i | k < i < |incoming| :: incoming[k].at <= incoming[i].at;
  }

  /** One more batch, when the answer seen before it was too old. */
  lemma NoneForBatch(ts: nat, all: seq<Arrival>, taken: nat, k: nat, limit: nat)
    requires taken <= |all| && OneBatch(all[taken..], k)
    requires NoneFor(ts, all, taken, limit)
    ensures taken + k <= |all| && NoneFor(ts, all, taken + k - 1, limit)
    ensures Looked(all, taken + k - 1) && all[taken + k - 1] == all[taken..][k - 1]
  {
    assert forall i | 0 <= i < k :: Looked(all[taken..], i) == Looked(all, taken + i);
    forall i | taken <= i < taken + k - 1 ensures !Looked(all, i) {
      assert Looked(all, i) == Looked(all[taken..], i - taken);
    }
  }

  lemma NoneForNext(ts: nat, all: seq<Arrival>, n: nat, limit: nat)
    requires n < |all| && NoneFor(ts, all, n, limit) && all[n].ts < ts
    ensures NoneFor(ts, all, n + 1, limit)
  {
  }

  /** At the deadline only answers are left that come too late. */
  lemma NoneForRest(ts: nat, all: seq<Arrival>, n: nat, sent: seq<nat>, limit: nat)
    requires n <= |all| && NoneFor(ts, all, n, limit) && Expected(all[n..], limit, sent, limit)
    ensures NoneFor(ts, all, |all|, limit)
  {
    assert forall i | n <= i < |all| :: all[n..][i - n] == all[i];
  }

  /**
   What a round knows while `rest` is still to come: it has seen the last answer before that, and found
   all others too old.
   */
  ghost predicate Progress(ts: nat, deadline: nat, first: nat, all: seq<Arrival>, rest: seq<Arrival>, pongTs: nat) {
    && |rest| <= |all| && rest == all[|all| - |rest|..]
    && var taken := |all| - |rest|;
      && NoneFor(ts, all, if taken == 0 then 0 else taken - 1, deadline)
      && if taken == 0 then pongTs == first
         else first < ts && Looked(all, taken - 1) && pongTs == all[taken - 1].ts && all[taken - 1].at <= deadline
  }

  lemma ProgressBatch(ts: nat, deadline: nat, first: nat, all: seq<Arrival>, rest: seq<Arrival>, pongTs: nat, k: nat)
    requires Progress(ts, deadline, first, all, rest, pongTs) && pongTs < ts
    requires OneBatch(rest, k) && rest[k - 1].at <= deadline
    ensures Progress(ts, deadline, first, all, rest[k..], rest[k - 1].ts)
  {
    var taken := |all| - |rest|;
    if taken > 0 {
      NoneForNext(ts, all, taken - 1, deadline);
    }
    NoneForBatch(ts, all, taken, k, deadline);
    assert all[taken..][k..] == all[taken + k..];
  }

  lemma ProgressAnswered(ts: nat, deadline: nat, first: nat, all: seq<Arrival>, rest: seq<Arrival>, pongTs: nat)
    requires Progress(ts, deadline, first, all, rest, pongTs) && pongTs >= ts
    ensures first >= ts || SomeFor(ts, all, deadline)
  {
  }

  lemma ProgressTimedOut(ts: nat, deadline: nat, first: nat, all: seq<Arrival>, rest: seq<Arrival>, pongTs: nat,
                         sent: seq<nat>)
    requires Progress(ts, deadline, first, all, rest, pongTs) && pongTs < ts && Expected(rest, deadline, sent, deadline)
    ensures first < ts && NoneFor(ts, all, |all|, deadline)
  {
    var taken := |all| - |rest|;
    if taken > 0 {
      NoneForNext(ts, all, taken - 1, deadline);
    }
    NoneForRest(ts, all, taken, sent, deadline);
  }

  lemma RoundEnds(c: Config, s: State, t: State)
    requires Leads(c, s, t) && t.phase.Waiting?
    ensures t.pongTs >= t.phase.ts ==> Leads(c, s, t.(phase := Idle))
    ensures t.pongTs < t.phase.ts && t.now >= t.phase.deadline ==> Leads(c, s, t.(phase := Dead))
  {
    hide Leads;
    if t.pongTs >= t.phase.ts {
      LeadsStep(c, s, t, Answered);
    } else if t.now >= t.phase.deadline {
      LeadsStep(c, s, t, TimedOut);
    }
  }

  class Watchdog {
    const config: Config
    var now: nat
    var nextTick: nat
    var pongTs: nat
    var notes: nat
    var incoming: seq<Arrival>

    ghost var sent: seq<nat>
    ghost var heard: nat

    ghost function View(phase: Phase): State
      reads this
    {
      State(now, phase, nextTick, pongTs, notes, sent, heard)
    }

    /** The control loop stores an answer, whatever it is, over the one before it. */
    method StoreAnswer(ghost phase: Phase)
      requires incoming != [] && incoming[0].ts in sent && !phase.Dead?
      modifies this
      ensures View(phase) == Apply(config, old(View(phase)), Echoed(old(incoming)[0].ts))
      ensures incoming == old(incoming)[1..] && notes > 0
    {
      pongTs := incoming[0].ts;
      notes := Min(notes + 1, 2);
      heard := if incoming[0].ts == sent[|sent| - 1] then now else heard;
      incoming := incoming[1..];
    }

    /** The control loop stores answers until the waiting round runs again. */
    method StoreBatch(ghost phase: Phase, ghost deadline: nat) returns (ghost k: nat)
      requires incoming != [] && incoming[0].at == now <= deadline && Expected(incoming, now, sent, deadline)
               && !phase.Dead?
      modifies this
      ensures OneBatch(old(incoming), k) && incoming == old(incoming)[k..] && pongTs == old(incoming)[k - 1].ts
      ensures notes > 0 && now == old(now) && sent == old(sent)
      ensures Leads(config, old(View(phase)), View(phase))
    {
      hide Leads;
      ghost var start, all := View(phase), incoming;
      k := 0;
      LeadsNowhere(config, start);
      var more := true;
      while more
        invariant k <= |all| && incoming == all[k..] && now == old(now) && sent == old(sent)
        invariant more ==> k < |all| && all[k].at == now && forall i | 0 <= i < k :: !Looked(all, i)
        invariant !more ==> OneBatch(all, k) && pongTs == all[k - 1].ts && notes > 0
        invariant Leads(config, start, View(phase))
        decreases |incoming|, more
      {
        ghost var t, e := View(phase), Echoed(incoming[0].ts);
        var seen := incoming[0].seen;
        StoreAnswer(phase);
        LeadsStep(config, start, t, e);
        k := k + 1;
        more := !seen && incoming != [] && incoming[0].at == now;
      }
    }

    /**
     A stored note is taken at once; otherwise the round sleeps until an answer wakes it or the deadline
     has come. Any number of answers may have been stored by the time it runs again.
     */
    method AwaitNotified(ghost ts: nat, deadline: nat) returns (notified: bool, ghost k: nat)
      requires Expected(incoming, now, sent, deadline) && now < deadline && pongTs < ts
      modifies this
      ensures Expected(incoming, now, sent, deadline) && old(now) <= now <= deadline && sent == old(sent)
      ensures Leads(config, old(View(Waiting(ts, deadline))), View(Waiting(ts, deadline)))
      ensures k <= |old(incoming)| && incoming == old(incoming)[k..]
      ensures k == 0 ==> pongTs == old(pongTs)
      ensures k > 0 ==>
                && notified && OneBatch(old(incoming), k)
                && pongTs == old(incoming)[k - 1].ts && now == old(incoming)[k - 1].at
      ensures notified && k == 0 ==> notes < old(notes) && now == old(now)
      ensures !notified ==> now == deadline
    {
      hide Leads;
      ghost var phase, start, all := Waiting(ts, deadline), View(Waiting(ts, deadline)), incoming;
      k := 0;
      LeadsNowhere(config, start);
      if notes > 0 {
        LeadsStep(config, start, start, NoteTaken);
        notes := notes - 1;
        return true, k;
      }
      var until := if incoming != [] && incoming[0].at <= deadline then incoming[0].at else deadline;
      LeadsStep(config, start, start, Elapsed(until - now));
      RestExpected(incoming, now, sent, deadline, 0, until);
      assert incoming[0..] == incoming;
      now := until;
      if incoming == [] || incoming[0].at > deadline {
        return false, k;
      }
      ghost var awake := View(phase);
      k := StoreBatch(phase, deadline);
      LeadsOn(config, start, awake, View(phase));
      RestExpected(all, now, sent, deadline, k, now);
      LeadsStep(config, start, View(phase), NoteTaken);
      notes := notes - 1;
      return true, k;
    }

    /**
     The inner loop of a round is a run of the watchdog. It times out only when neither the answer it
     has nor one that it gets to see before the deadline carries this round's timestamp or a later one,
     and is answered only by one it sees: what is overwritten before the round looks does not count.
     A left-over note only costs a turn of the loop.
     */
    method AwaitPong(ts: nat, deadline: nat) returns (timedOut: bool)
      requires Expected(incoming, now, sent, deadline) && now <= deadline
      modifies this
      ensures Leads(config, old(View(Waiting(ts, deadline))), View(if timedOut then Dead else Idle))
      ensures timedOut ==> now == deadline && old(pongTs) < ts && NoneFor(ts, old(incoming), |old(incoming)|, deadline)
      ensures !timedOut ==> pongTs >= ts && (old(pongTs) >= ts || SomeFor(ts, old(incoming), deadline))
    {
      assert Progress(ts, deadline, pongTs, incoming, incoming, pongTs);
      hide Leads, Enabled, Apply, Looked, OneBatch, NoneFor, SomeFor, Expected, Progress;
      ghost var phase, start, first, all := Waiting(ts, deadline), View(Waiting(ts, deadline)), pongTs, incoming;
      LeadsNowhere(config, start);
      while true
        invariant Expected(incoming, now, sent, deadline) && now <= deadline
        invariant Leads(config, start, View(phase))
        invariant Progress(ts, deadline, first, all, incoming, pongTs)
        decreases |incoming|, notes, if now < deadline then 1 else 0
      {
        if pongTs >= ts {
          RoundEnds(config, start, View(phase));
          ProgressAnswered(ts, deadline, first, all, incoming, pongTs);
          return false;
        }
        var remaining := if deadline >= now then deadline - now else 0;
        var notified := false;
        if remaining > 0 {
          ghost var k, was, rest, asleep := 0, pongTs, incoming, View(phase);
          notified, k := AwaitNotified(ts, deadline);
          LeadsOn(config, start, asleep, View(phase));
          if k > 0 {
            ProgressBatch(ts, deadline, first, all, rest, was, k);
          }
        }
        if !notified {
          RoundEnds(config, start, View(phase));
          ProgressTimedOut(ts, deadline, first, all, incoming, pongTs, sent);
          return true;
        }
      }
    }
  }
}
