/**
 The control-plane steps of `Registry` are particular interleavings of the critical sections of
 `Matching`: each one is the section list of the corresponding function, run without interruption.
 So every state reachable with whole logins, registrations and teardowns is reachable section by
 section, and everything proved of all interleavings holds of it.
 */
module RegistryRefinement {
  import opened Wrappers
  import opened ServerSections
  import opened Registry
  import M = Matching

  function UnindexSections(row: Session): seq<M.Event> {
    [M.ByTable(M.ProxiesUnindexed(row.proxies.Keys))] + [M.ByTable(M.DomainsUnindexed(row.domains.Keys))]
  }

  function ForgetSections(row: Session, sid: Sid): seq<M.Event> {
    [M.ByTable(M.ProxiesDrained(sid))] + [M.ByTable(M.UdpRemoved(UdpNames(row)))] + [M.ByTable(M.DomainsCleared(sid))]
  }

  function DropSections(sid: Sid): seq<M.Event> {
    [M.ByWork(M.PoolsDrained(sid))] + [M.ByWork(M.PendingRetained(sid))]
  }

  function CleanupSections(row: Session, sid: Sid): seq<M.Event> {
    UnindexSections(row) + ForgetSections(row, sid) + DropSections(sid)
  }

  function IndexSections(ds: seq<Domain>, run: RunId, name: Name): seq<M.Event> {
    if ds == [] then [] else [M.ByTable(M.DomainIndexed(ds[0], run, name))] + IndexSections(ds[1..], run, name)
  }

  function StoreSections(sid: Sid, run: RunId, np: NewProxy): seq<M.Event> {
    [M.ByTable(M.ProxyAdded(sid, np.name, ProxyEntry(np.kind, np.port, LowerAll(np.domains))))]
    + [M.ByTable(M.ProxyIndexed(np.name, run))]
  }

  function EnterSections(s: State, sid: Sid, np: NewProxy): seq<M.Event>
    requires sid in s.rows
  {
    var run := s.rows[sid].runId;
    var ds := LowerAll(np.domains);
    (if np.kind == Udp then [M.ByTable(M.UdpAdded(np.name))] else [])
    + [M.ByTable(M.DomainsAdded(sid, ds, np.name))]
    + IndexSections(ds, run, np.name)
    + StoreSections(sid, run, np)
  }

  /** The sections a step consists of, in program order. */
  function Sections(s: State, e: Step): seq<M.Event>
    requires StepEnabled(s, e)
  {
    match e
    case LoginStep(sid, run, ip, token) =>
      if OverLimit(s, run, ip).Some? then []
      else
        [M.ByTable(M.Swapped(sid, NewRow(run, ip, token)))]
        + if run in s.sessions && s.sessions[run] in s.rows
          then CleanupSections(s.rows[s.sessions[run]], s.sessions[run]) else []
    case RegisterStep(sid, np, allowed, bind) =>
      if RegisterError(s, sid, np, allowed, bind).Some? then [] else EnterSections(s, sid, np)
    case TeardownStep(sid) => [M.ByTable(M.Unregistered(sid))] + CleanupSections(s.rows[sid], sid)
    case UserTraffic(us) => [M.ByUser(us)]
    case WorkTraffic(ws) => [M.ByWork(ws)]
  }

  // ------------------------------------------------------------------ runs compose

  lemma RunCons(s: State, e: M.Event, es: seq<M.Event>)
    requires M.Enabled(s, e)
    ensures M.Run(s, [e] + es) == M.Run(M.Apply(s, e), es)
  {
    assert ([e] + es)[1..] == es;
  }

  lemma {:induction false} RunAppend(s: State, es: seq<M.Event>, fs: seq<M.Event>)
    requires M.Run(s, es).Some?
    ensures M.Run(s, es + fs) == M.Run(M.Run(s, es).value, fs)
    decreases |es|
  {
    hide M.Enabled, M.Apply;
    if es == [] {
      assert es + fs == fs;
    } else {
      RunAppend(M.Apply(s, es[0]), es[1..], fs);
      assert es + fs == [es[0]] + (es[1..] + fs);
      RunCons(s, es[0], es[1..] + fs);
    }
  }

  lemma UnindexIsRun(s: State, row: Session)
    ensures M.Run(s, UnindexSections(row))
            == Some(UnindexDomains(UnindexProxies(s, row.proxies.Keys), row.domains.Keys))
  {
    hide M.Run, UnindexProxies, UnindexDomains;
    SingleIsRun(s, M.ByTable(M.ProxiesUnindexed(row.proxies.Keys)));
    RunThen(s, [M.ByTable(M.ProxiesUnindexed(row.proxies.Keys))], M.ByTable(M.DomainsUnindexed(row.domains.Keys)));
  }

  lemma ForgetIsRun(s: State, row: Session, sid: Sid)
    requires sid in s.rows
    ensures M.Run(s, ForgetSections(row, sid))
            == Some(ClearDomains(RemoveUdp(DrainProxies(s, sid), UdpNames(row)), sid))
  {
    hide M.Run, UdpNames;
    var e0, e1, e2 := M.ByTable(M.ProxiesDrained(sid)), M.ByTable(M.UdpRemoved(UdpNames(row))),
      M.ByTable(M.DomainsCleared(sid));
    SingleIsRun(s, e0);
    RunThen(s, [e0], e1);
    RunThen(s, [e0] + [e1], e2);
  }

  lemma DropIsRun(s: State, sid: Sid)
    requires sid in s.rows
    ensures M.Run(s, DropSections(sid)) == Some(Evict(DrainPools(s, sid), OfSession(DrainPools(s, sid), sid)))
  {
    hide M.Run, Evict, OfSession, DrainPools;
    SingleIsRun(s, M.ByWork(M.PoolsDrained(sid)));
    RunThen(s, [M.ByWork(M.PoolsDrained(sid))], M.ByWork(M.PendingRetained(sid)));
  }

  lemma RunThen(s: State, es: seq<M.Event>, e: M.Event)
    requires M.Run(s, es).Some? && M.Enabled(M.Run(s, es).value, e)
    ensures M.Run(s, es + [e]) == Some(M.Apply(M.Run(s, es).value, e))
  {
    hide M.Run, M.Enabled, M.Apply;
    RunAppend(s, es, [e]);
    SingleIsRun(M.Run(s, es).value, e);
  }

  lemma CleanupIsRun(s: State, sid: Sid)
    requires sid in s.rows
    ensures M.Run(s, CleanupSections(s.rows[sid], sid)) == Some(Cleanup(s, sid))
  {
    hide M.Run, M.Enabled, M.Apply, UnindexSections, ForgetSections, DropSections, OfSession, Evict, DrainPools,
      UdpNames;
    var row := s.rows[sid];
    var s1 := UnindexDomains(UnindexProxies(s, row.proxies.Keys), row.domains.Keys);
    var s2 := ClearDomains(RemoveUdp(DrainProxies(s1, sid), UdpNames(row)), sid);
    UnindexIsRun(s, row);
    ForgetIsRun(s1, row, sid);
    RunAppend(s, UnindexSections(row), ForgetSections(row, sid));
    DropIsRun(s2, sid);
    RunAppend(s, UnindexSections(row) + ForgetSections(row, sid), DropSections(sid));
  }

  lemma RunNothing(s: State)
    ensures M.Run(s, []) == Some(s)
  {
  }

  lemma {:induction false} IndexIsRun(s: State, ds: seq<Domain>, run: RunId, name: Name)
    ensures M.Run(s, IndexSections(ds, run, name)) == Some(IndexDomains(s, ds, run, name))
    decreases |ds|
  {
    if ds == [] {
      RunNothing(s);
    } else {
      hide M.Run;
      IndexIsRun(IndexDomain(s, ds[0], run, name), ds[1..], run, name);
      RunCons(s, M.ByTable(M.DomainIndexed(ds[0], run, name)), IndexSections(ds[1..], run, name));
    }
  }

  lemma StoreIsRun(s: State, sid: Sid, run: RunId, np: NewProxy)
    requires sid in s.rows
    ensures M.Run(s, StoreSections(sid, run, np))
         == Some(IndexProxy(AddProxy(s, sid, np.name, ProxyEntry(np.kind, np.port, LowerAll(np.domains))), np.name,
           run))
  {
    hide M.Run, LowerAll;
    var e := M.ByTable(M.ProxyAdded(sid, np.name, ProxyEntry(np.kind, np.port, LowerAll(np.domains))));
    SingleIsRun(s, e);
    RunThen(s, [e], M.ByTable(M.ProxyIndexed(np.name, run)));
  }

  lemma AnnounceIsRun(s: State, sid: Sid, np: NewProxy)
    requires sid in s.rows
    ensures
      var es := (if np.kind == Udp then [M.ByTable(M.UdpAdded(np.name))] else [])
                + [M.ByTable(M.DomainsAdded(sid, LowerAll(np.domains), np.name))];
      M.Run(s, es)
      == Some(AddDomains(if np.kind == Udp then AddUdp(s, np.name) else s, sid, LowerAll(np.domains), np.name))
  {
    hide M.Run, LowerAll;
    if np.kind == Udp {
      SingleIsRun(s, M.ByTable(M.UdpAdded(np.name)));
      RunThen(s, [M.ByTable(M.UdpAdded(np.name))], M.ByTable(M.DomainsAdded(sid, LowerAll(np.domains), np.name)));
    } else {
      SingleIsRun(s, M.ByTable(M.DomainsAdded(sid, LowerAll(np.domains), np.name)));
      assert [] + [M.ByTable(M.DomainsAdded(sid, LowerAll(np.domains), np.name))]
          == [M.ByTable(M.DomainsAdded(sid, LowerAll(np.domains), np.name))];
    }
  }

  /** The domains are entered in the session and in the index. */
  lemma DomainsAreRun(s: State, sid: Sid, np: NewProxy, ds: seq<Domain>, run: RunId)
    requires sid in s.rows && ds == LowerAll(np.domains)
    ensures
      var s1 := if np.kind == Udp then AddUdp(s, np.name) else s;
      M.Run(s, (if np.kind == Udp then [M.ByTable(M.UdpAdded(np.name))] else [])
               + [M.ByTable(M.DomainsAdded(sid, ds, np.name))] + IndexSections(ds, run, np.name))
      == Some(IndexDomains(AddDomains(s1, sid, ds, np.name), ds, run, np.name))
  {
    hide M.Run, LowerAll, IndexSections, IndexDomains;
    var s2 := AddDomains(if np.kind == Udp then AddUdp(s, np.name) else s, sid, ds, np.name);
    var es := (if np.kind == Udp then [M.ByTable(M.UdpAdded(np.name))] else [])
              + [M.ByTable(M.DomainsAdded(sid, ds, np.name))];
    AnnounceIsRun(s, sid, np);
    hide AddDomains, AddUdp;
    IndexIsRun(s2, ds, run, np.name);
    RunAppend(s, es, IndexSections(ds, run, np.name));
  }

  lemma EnterIsRun(s: State, sid: Sid, np: NewProxy)
    requires sid in s.rows
    ensures M.Run(s, EnterSections(s, sid, np)) == Some(Enter(s, sid, np))
  {
    hide M.Run, M.Enabled, M.Apply, LowerAll, Everywhere, IndexSections, StoreSections, IndexDomains;
    var run := s.rows[sid].runId;
    var ds := LowerAll(np.domains);
    var s2 := AddDomains(if np.kind == Udp then AddUdp(s, np.name) else s, sid, ds, np.name);
    assert sid in s2.rows;
    hide AddDomains, AddUdp, IndexProxy;
    IndexedRows(s2, ds, run, np.name);
    var s3 := IndexDomains(s2, ds, run, np.name);
    var es := (if np.kind == Udp then [M.ByTable(M.UdpAdded(np.name))] else [])
              + [M.ByTable(M.DomainsAdded(sid, ds, np.name))] + IndexSections(ds, run, np.name);
    DomainsAreRun(s, sid, np, ds, run);
    StoreIsRun(s3, sid, run, np);
    RunAppend(s, es, StoreSections(sid, run, np));
  }

  /** Each control-plane step is its own sections, one after the other. */
  lemma StepIsRun(s: State, e: Step)
    requires RegInv(s) && StepEnabled(s, e)
    ensures M.Run(s, Sections(s, e)) == Some(StepApply(s, e))
  {
    hide M.Run, Cleanup, Enter, EnterSections, CleanupSections, M.ApplyUser, M.ApplyWork, M.UserEnabled, M.WorkEnabled,
      DomainsInv, RowsInv, RetiredInv, ProxiesInv, RegisterError;
    match e
    case LoginStep(sid, run, ip, token) =>
      if OverLimit(s, run, ip).Some? {
        RunNothing(s);
      } else {
        var row := NewRow(run, ip, token);
        var t := SwapSession(s, sid, row);
        var rest := if run in s.sessions && s.sessions[run] in s.rows
          then CleanupSections(s.rows[s.sessions[run]], s.sessions[run]) else [];
        RunCons(s, M.ByTable(M.Swapped(sid, row)), rest);
        RunNothing(t);
        if run in s.sessions {
          assert s.sessions[run] != sid;
          CleanupIsRun(t, s.sessions[run]);
        }
      }
    case RegisterStep(sid, np, allowed, bind) =>
      if RegisterError(s, sid, np, allowed, bind).Some? { RunNothing(s); } else { EnterIsRun(s, sid, np); }
    case TeardownStep(sid) =>
      RunCons(s, M.ByTable(M.Unregistered(sid)), CleanupSections(s.rows[sid], sid));
      CleanupIsRun(Unregister(s, sid), sid);
    case UserTraffic(us) => SingleIsRun(s, M.ByUser(us));
    case WorkTraffic(ws) => SingleIsRun(s, M.ByWork(ws));
  }

  lemma SingleIsRun(s: State, e: M.Event)
    requires M.Enabled(s, e)
    ensures M.Run(s, [e]) == Some(M.Apply(s, e))
  {
    hide M.Run;
    assert [e] == [e] + [];
    RunCons(s, e, []);
    RunNothing(M.Apply(s, e));
  }

  lemma {:induction false} RunStepsIsRun(s: State, es: seq<Step>) returns (fs: seq<M.Event>)
    requires RegInv(s) && RunSteps(s, es).Some?
    ensures M.Run(s, fs) == RunSteps(s, es)
    decreases |es|
  {
    hide M.Run, StepApply, StepEnabled, RegInv, Sections;
    if es == [] {
      RunNothing(s);
      fs := [];
    } else {
      StepIsRun(s, es[0]);
      StepKeepsRegInv(s, es[0]);
      var rest := RunStepsIsRun(StepApply(s, es[0]), es[1..]);
      RunAppend(s, Sections(s, es[0]), rest);
      fs := Sections(s, es[0]) + rest;
    }
  }

  /** Every state of the atomic control plane is a state of some interleaving of sections. */
  lemma AtomicRunsAreInterleavings(s: State)
    requires Registry.Reachable(s)
    ensures M.Reachable(s)
  {
    hide M.Run, StepApply, StepEnabled;
    var maxActive, maxSessions, maxPerIp, es :| RunSteps(Init(maxActive, maxSessions, maxPerIp), es) == Some(s);
    var fs := RunStepsIsRun(Init(maxActive, maxSessions, maxPerIp), es);
  }
}
