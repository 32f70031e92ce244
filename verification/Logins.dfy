/**
 A login at lock granularity: the limit check is one critical section, the insertion into the
 registry another, and anything may happen in between, other logins included.

 `admitted` are the logins that have passed the check and are not yet inserted, `peak` is the
 largest number of them there has been at one time. Every run is a run of `Matching` with checks
 added, and insertions only by logins that have been checked.
 */
module Logins {
  import opened Wrappers
  import opened Numbers
  import opened ServerSections
  import M = Matching
  import Maps
  import R = RegistryRefinement
  import Registry

  datatype Gate = Gate(server: State, admitted: map<Sid, RunId>, peak: nat)

  datatype Event =
    | Checked(sid: Sid, run: RunId, ip: Ip)
    | Inserted(sid: Sid, ip: Ip, token: Token)
    | Other(e: M.Event)

  predicate IsSwap(e: M.Event) {
    e.ByTable? && e.ts.Swapped?
  }

  predicate Enabled(g: Gate, e: Event) {
    match e
    case Checked(sid, run, ip) =>
      sid !in g.server.rows && sid !in g.admitted && Registry.OverLimit(g.server, run, ip).None?
    case Inserted(sid, _, _) => sid in g.admitted && sid !in g.server.rows
    case Other(e) => !IsSwap(e) && M.Enabled(g.server, e)
  }

  function Apply(g: Gate, e: Event): Gate
    requires Enabled(g, e)
  {
    match e
    case Checked(sid, run, ip) =>
      var admitted := g.admitted[sid := run];
      g.(admitted := admitted, peak := Max(g.peak, |admitted|))
    case Inserted(sid, ip, token) =>
      g.(server := SwapSession(g.server, sid, Registry.NewRow(g.admitted[sid], ip, token)),
        admitted := g.admitted - {sid})
    case Other(e) => g.(server := M.Apply(g.server, e))
  }

  function Run(g: Gate, es: seq<Event>): Option<Gate>
    decreases |es|
  {
    if es == [] then Some(g)
    else if Enabled(g, es[0]) then Run(Apply(g, es[0]), es[1..])
    else None
  }

  function Init(maxActive: nat, maxSessions: nat, maxPerIp: nat): Gate {
    Gate(ServerSections.Init(maxActive, maxSessions, maxPerIp), map[], 0)
  }

  ghost predicate Reachable(g: Gate) {
    exists maxActive, maxSessions, maxPerIp, es :: Run(Init(maxActive, maxSessions, maxPerIp), es) == Some(g)
  }

  // ------------------------------------------------------------------ the limit

  /**
   An insertion keeps the limit exactly when its run id is taken or there is still room at that
   moment; that there was room at the check is neither here nor there.
   */
  lemma InsertionKeepsLimitExactly(s: State, sid: Sid, row: Session)
    requires |s.sessions| <= s.maxSessions
    ensures
      var t := SwapSession(s, sid, row);
      |t.sessions| <= t.maxSessions <==> row.runId in s.sessions || |s.sessions| < s.maxSessions
  {
    Maps.UpdateSize(s.sessions, row.runId, sid);
  }

  function RunIds(admitted: map<Sid, RunId>): set<RunId> {
    set sid | sid in admitted :: admitted[sid]
  }

  /** The run ids that are in the registry or about to be. */
  function Taken(g: Gate): set<RunId> {
    g.server.sessions.Keys + RunIds(g.admitted)
  }

  /** Logins under way at the same time, beyond the first, are what the limit can be exceeded by. */
  ghost predicate Bounded(g: Gate) {
    && |g.admitted| <= g.peak
    && (g.peak == 0 ==> Taken(g) == {})
    && (g.peak > 0 ==> |Taken(g)| <= g.server.maxSessions + g.peak - 1)
  }

  lemma Smaller<T>(a: set<T>, b: set<T>)
    requires a <= b
    ensures |a| <= |b|
  {
    assert b == a + (b - a);
  }

  lemma {:induction false} FewRunIds(admitted: map<Sid, RunId>)
    ensures |RunIds(admitted)| <= |admitted|
    decreases |admitted|
  {
    if admitted == map[] {
      assert RunIds(admitted) == {};
    } else {
      var sid :| sid in admitted;
      var rest := admitted - {sid};
      assert rest.Keys == admitted.Keys - {sid};
      FewRunIds(rest);
      forall r | r in RunIds(admitted) ensures r in RunIds(rest) + {admitted[sid]} {
        var o :| o in admitted && admitted[o] == r;
        assert o != sid ==> o in rest && rest[o] == r;
      }
      Smaller(RunIds(admitted), RunIds(rest) + {admitted[sid]});
      assert |RunIds(rest) + {admitted[sid]}| <= |RunIds(rest)| + 1;
    }
  }

  lemma CheckKeepsBounded(g: Gate, sid: Sid, run: RunId, ip: Ip)
    requires Bounded(g) && Enabled(g, Checked(sid, run, ip))
    ensures Bounded(Apply(g, Checked(sid, run, ip)))
  {
    var t := Apply(g, Checked(sid, run, ip));
    assert t.admitted.Keys == g.admitted.Keys + {sid};
    if run in g.server.sessions {
      ReconnectTakesNone(g, sid, run);
      Smaller(Taken(t), Taken(g));
      assert run in Taken(g);
    } else {
      FewRunIds(t.admitted);
      hide RunIds;
      assert |Taken(t)| <= |t.server.sessions.Keys| + |RunIds(t.admitted)|;
    }
  }

  /** The login of a run id that is registered takes no further one. */
  lemma ReconnectTakesNone(g: Gate, sid: Sid, run: RunId)
    requires run in g.server.sessions && sid !in g.admitted
    ensures Taken(g.(admitted := g.admitted[sid := run])) <= Taken(g)
  {
  }

  lemma InsertKeepsBounded(g: Gate, sid: Sid, ip: Ip, token: Token)
    requires Bounded(g) && Enabled(g, Inserted(sid, ip, token))
    ensures Bounded(Apply(g, Inserted(sid, ip, token)))
  {
    var t := Apply(g, Inserted(sid, ip, token));
    assert t.admitted.Keys == g.admitted.Keys - {sid};
    assert Taken(t) <= Taken(g);
    Smaller(Taken(t), Taken(g));
  }

  /** No other section adds a run id to the registry. */
  lemma OthersAddNone(s: State, e: M.Event)
    requires M.Enabled(s, e) && !IsSwap(e)
    ensures M.Apply(s, e).sessions.Keys <= s.sessions.Keys && M.Apply(s, e).maxSessions == s.maxSessions
  {
    hide M.ApplyUser, M.ApplyWork, M.ApplyTable, M.UserEnabled, M.WorkEnabled, M.TableEnabled;
    match e
    case ByUser(us) => Registry.UserStepUntouched(s, us);
    case ByWork(ws) => Registry.WorkStepUntouched(s, ws);
    case ByTable(ts) => TableAddsNone(s, ts);
  }

  lemma TableAddsNone(s: State, e: M.TableStep)
    requires M.TableEnabled(s, e) && !e.Swapped?
    ensures M.ApplyTable(s, e).sessions.Keys <= s.sessions.Keys && M.ApplyTable(s, e).maxSessions == s.maxSessions
  {
  }

  lemma StepKeepsBounded(g: Gate, e: Event)
    requires Bounded(g) && Enabled(g, e)
    ensures Bounded(Apply(g, e))
  {
    hide Bounded, M.Enabled, M.Apply;
    match e
    case Checked(sid, run, ip) => CheckKeepsBounded(g, sid, run, ip);
    case Inserted(sid, ip, token) => InsertKeepsBounded(g, sid, ip, token);
    case Other(e) =>
      OthersAddNone(g.server, e);
      FewerSessions(g, M.Apply(g.server, e));
  }

  lemma FewerSessions(g: Gate, s: State)
    requires Bounded(g) && s.sessions.Keys <= g.server.sessions.Keys && s.maxSessions == g.server.maxSessions
    ensures Bounded(g.(server := s))
  {
    assert Taken(g.(server := s)) <= Taken(g);
    Smaller(Taken(g.(server := s)), Taken(g));
  }

  lemma {:induction false} RunKeepsBounded(g: Gate, es: seq<Event>)
    requires Bounded(g) && Run(g, es).Some?
    ensures Bounded(Run(g, es).value)
    decreases |es|
  {
    hide Bounded, Enabled, Apply;
    if es != [] {
      StepKeepsBounded(g, es[0]);
      RunKeepsBounded(Apply(g, es[0]), es[1..]);
    }
  }

  /**
   On every interleaving the registry exceeds its limit by at most the number of logins that were
   between check and insertion at one time, less one; so never while logins come one at a time.
   */
  lemma OvershootIsBounded(g: Gate)
    requires Reachable(g)
    ensures |g.server.sessions| <= g.server.maxSessions + if g.peak == 0 then 0 else g.peak - 1
  {
    hide Enabled, Apply;
    var maxActive, maxSessions, maxPerIp, es :| Run(Init(maxActive, maxSessions, maxPerIp), es) == Some(g);
    assert Taken(Init(maxActive, maxSessions, maxPerIp)) == {};
    RunKeepsBounded(Init(maxActive, maxSessions, maxPerIp), es);
    Smaller(g.server.sessions.Keys, Taken(g));
  }

  // ------------------------------------------------------------------ these are runs of the server

  /** The sections of the server a run consists of; a check changes nothing there. */
  lemma {:induction false} RunIsServerRun(g: Gate, es: seq<Event>) returns (fs: seq<M.Event>)
    requires Run(g, es).Some?
    ensures M.Run(g.server, fs) == Some(Run(g, es).value.server)
    decreases |es|
  {
    hide M.Run, M.Enabled, M.Apply;
    if es == [] {
      fs := [];
      R.RunNothing(g.server);
    } else {
      var t := Apply(g, es[0]);
      fs := RunIsServerRun(t, es[1..]);
      match es[0]
      case Checked(_, _, _) =>
      case Inserted(sid, ip, token) =>
        var e := M.ByTable(M.Swapped(sid, Registry.NewRow(g.admitted[sid], ip, token)));
        InsertionIsSwap(g, sid, ip, token);
        R.RunCons(g.server, e, fs);
        fs := [e] + fs;
      case Other(e) =>
        R.RunCons(g.server, e, fs);
        fs := [e] + fs;
    }
  }

  lemma InsertionIsSwap(g: Gate, sid: Sid, ip: Ip, token: Token)
    requires Enabled(g, Inserted(sid, ip, token))
    ensures
      var e := M.ByTable(M.Swapped(sid, Registry.NewRow(g.admitted[sid], ip, token)));
      M.Enabled(g.server, e) && M.Apply(g.server, e) == Apply(g, Inserted(sid, ip, token)).server
  {
  }

  lemma ReachableServer(g: Gate)
    requires Reachable(g)
    ensures M.Reachable(g.server)
  {
    hide Run, M.Run;
    var maxActive, maxSessions, maxPerIp, es :| Run(Init(maxActive, maxSessions, maxPerIp), es) == Some(g);
    var fs := RunIsServerRun(Init(maxActive, maxSessions, maxPerIp), es);
  }

  // ------------------------------------------------------------------ the bound is reached

  /** Run id number `k`. */
  function Id(k: nat): RunId {
    seq(k, i => 'a')
  }

  function Ids(n: nat): set<RunId> {
    set k: nat | k < n :: Id(k)
  }

  /** Sessions 0 to k - 1 are registered, under their own run ids. */
  ghost predicate FilledTo(sessions: map<RunId, Sid>, rows: map<Sid, Session>, k: nat) {
    |sessions| == k && sessions.Keys == Ids(k) && forall sid | sid in rows :: sid < k
  }

  /** The next j logins have been admitted. */
  ghost predicate Waiting(admitted: map<Sid, RunId>, k: nat, j: nat) {
    && (forall sid :: sid in admitted <==> k <= sid < k + j) && |admitted| == j
    && (forall sid | sid in admitted :: admitted[sid] == Id(sid))
  }

  ghost predicate At(g: Gate, max: nat, perIp: nat, k: nat, j: nat) {
    && g.server.maxSessions == max && g.server.maxPerIp == perIp
    && FilledTo(g.server.sessions, g.server.rows, k) && Waiting(g.admitted, k, j)
  }

  lemma IdsDiffer(k: nat, n: nat)
    requires k <= n
    ensures Id(n) !in Ids(k)
  {
    assert |Id(n)| == n;
    forall i: nat | i < k ensures Id(i) != Id(n) {
      assert |Id(i)| == i;
    }
  }

  lemma FillOne(sessions: map<RunId, Sid>, rows: map<Sid, Session>, k: nat, row: Session)
    requires FilledTo(sessions, rows, k)
    ensures FilledTo(sessions[Id(k) := k], rows[k := row], k + 1)
  {
    IdsDiffer(k, k);
    hide Id;
    Maps.UpdateSize(sessions, Id(k), k);
    assert Ids(k + 1) == Ids(k) + {Id(k)};
    assert sessions[Id(k) := k].Keys == sessions.Keys + {Id(k)};
  }

  lemma WaitOne(admitted: map<Sid, RunId>, k: nat, j: nat)
    requires Waiting(admitted, k, j)
    ensures k + j !in admitted && Waiting(admitted[k + j := Id(k + j)], k, j + 1)
  {
    hide Id;
    Maps.UpdateSize(admitted, k + j, Id(k + j));
  }

  lemma TakeOne(admitted: map<Sid, RunId>, k: nat, j: nat)
    requires Waiting(admitted, k, j) && j > 0
    ensures k in admitted && admitted[k] == Id(k) && Waiting(admitted - {k}, k + 1, j - 1)
  {
    hide Id;
    assert k in admitted;
    assert (admitted - {k}).Keys == admitted.Keys - {k};
  }

  lemma FewFromIp(s: State, ip: Ip)
    ensures |Registry.FromIp(s, ip)| <= |s.sessions|
  {
    Smaller(Registry.FromIp(s, ip), s.sessions.Keys);
  }

  lemma AdmitOne(g: Gate, max: nat, perIp: nat, k: nat, j: nat) returns (t: Gate)
    requires Reachable(g) && At(g, max, perIp, k, j) && k < max && k < perIp
    ensures Reachable(t) && At(t, max, perIp, k, j + 1)
    ensures t.peak == Max(g.peak, j + 1)
  {
    hide Reachable, Id, Ids, Waiting, Registry.FromIp;
    var e := Checked(k + j, Id(k + j), 0);
    IdsDiffer(k, k + j);
    FewFromIp(g.server, 0);
    WaitOne(g.admitted, k, j);
    t := Apply(g, e);
    StepStaysReachable(g, e);
    assert |t.admitted| == j + 1 by { WaitingSize(t.admitted, k, j + 1); }
  }

  lemma WaitingSize(admitted: map<Sid, RunId>, k: nat, j: nat)
    requires Waiting(admitted, k, j)
    ensures |admitted| == j
  {
  }

  lemma InsertOne(g: Gate, max: nat, perIp: nat, k: nat, j: nat) returns (t: Gate)
    requires Reachable(g) && At(g, max, perIp, k, j) && j > 0
    ensures Reachable(t) && At(t, max, perIp, k + 1, j - 1) && t.peak == g.peak
  {
    hide Reachable, Id, Ids, Waiting;
    var e := Inserted(k, 0, "");
    TakeOne(g.admitted, k, j);
    assert Enabled(g, e);
    hide FilledTo;
    FillOne(g.server.sessions, g.server.rows, k, Registry.NewRow(Id(k), 0, ""));
    t := Apply(g, e);
    StepStaysReachable(g, e);
  }

  lemma StepStaysReachable(g: Gate, e: Event)
    requires Reachable(g) && Enabled(g, e)
    ensures Reachable(Apply(g, e))
  {
    hide Enabled, Apply;
    var maxActive, maxSessions, maxPerIp, es :| Run(Init(maxActive, maxSessions, maxPerIp), es) == Some(g);
    RunOneMore(Init(maxActive, maxSessions, maxPerIp), es, e);
  }

  lemma {:induction false} RunOneMore(g: Gate, es: seq<Event>, e: Event)
    requires Run(g, es).Some? && Enabled(Run(g, es).value, e)
    ensures Run(g, es + [e]) == Some(Apply(Run(g, es).value, e))
    decreases |es|
  {
    hide Enabled, Apply;
    if es == [] {
      assert es + [e] == [e] && [e][1..] == [];
    } else {
      RunOneMore(Apply(g, es[0]), es[1..], e);
      assert (es + [e])[1..] == es[1..] + [e];
    }
  }

  lemma {:induction false} AdmitMany(g: Gate, max: nat, perIp: nat, k: nat, n: nat) returns (t: Gate)
    requires Reachable(g) && At(g, max, perIp, k, 0) && k < max && k < perIp && g.peak <= 1
    ensures Reachable(t) && At(t, max, perIp, k, n) && t.peak == Max(g.peak, n)
    decreases n
  {
    hide Reachable, At;
    if n == 0 {
      t := g;
    } else {
      t := AdmitMany(g, max, perIp, k, n - 1);
      t := AdmitOne(t, max, perIp, k, n - 1);
    }
  }

  lemma {:induction false} InsertMany(g: Gate, max: nat, perIp: nat, k: nat, j: nat) returns (t: Gate)
    requires Reachable(g) && At(g, max, perIp, k, j)
    ensures Reachable(t) && At(t, max, perIp, k + j, 0) && t.peak == g.peak
    decreases j
  {
    hide Reachable, At;
    if j == 0 {
      t := g;
    } else {
      t := InsertOne(g, max, perIp, k, j);
      t := InsertMany(t, max, perIp, k + 1, j - 1);
    }
  }

  /** Logins one after the other fill the registry. */
  lemma {:induction false} Fill(max: nat, perIp: nat, k: nat) returns (t: Gate)
    requires k <= max && k <= perIp
    ensures Reachable(t) && At(t, max, perIp, k, 0) && t.peak <= 1
    decreases k
  {
    hide Reachable, At;
    if k == 0 {
      t := Init(0, max, perIp);
      InitAt(max, perIp);
    } else {
      t := Fill(max, perIp, k - 1);
      t := AdmitOne(t, max, perIp, k - 1, 0);
      t := InsertOne(t, max, perIp, k - 1, 1);
    }
  }

  lemma InitAt(max: nat, perIp: nat)
    ensures Reachable(Init(0, max, perIp)) && At(Init(0, max, perIp), max, perIp, 0, 0)
  {
    assert Run(Init(0, max, perIp), []) == Some(Init(0, max, perIp));
    assert Ids(0) == {};
  }

  /**
   The bound is exact: for every limit and every number of simultaneous logins there is a run, and
   one of the server alone, that ends with that many sessions less one above the limit.
   */
  lemma TwoPhaseLoginOvershoots(max: nat, logins: nat)
    requires max > 0 && logins > 0
    ensures exists g ::
      && Reachable(g) && M.Reachable(g.server) && g.peak == logins && g.server.maxSessions == max
      && |g.server.sessions| == max + logins - 1
  {
    hide Reachable, M.Reachable;
    var g := Fill(max, max, max - 1);
    g := AdmitMany(g, max, max, max - 1, logins);
    g := InsertMany(g, max, max, max - 1, logins);
    ReachableServer(g);
  }
}
