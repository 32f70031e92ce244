/**
 The control plane with login, registration and teardown each as one step.

 The steps are compositions of the critical sections, so everything `Matching` proves still holds;
 what is added here is what the registry and the indexes promise about each other. A session that
 is not in the registry registers nothing; its teardown may still run late, and more than once.
 */
module Registry {
  import opened Wrappers
  import opened ServerSections
  import Maps
  import Matching

  datatype NewProxy = NewProxy(name: Name, kind: Kind, port: Option<nat>, domains: seq<Domain>)

  datatype ProxyError =
    | NameExists | PortOccupied | PortNotAllowed | DomainConflict | InvalidField | TooManyProxies | Internal

  datatype BindOutcome = Bound | AddrInUse | BindFailed

  datatype LoginError = GlobalLimit | PerIpLimit

  // ------------------------------------------------------------------ lookups

  predicate Registered(s: State, sid: Sid) {
    sid in s.rows && s.rows[sid].runId in s.sessions && s.sessions[s.rows[sid].runId] == sid
  }

  function SessionForDomain(s: State, domain: Domain): Option<(Sid, Name)> {
    if domain in s.domainIndex && s.domainIndex[domain].0 in s.sessions
    then Some((s.sessions[s.domainIndex[domain].0], s.domainIndex[domain].1)) else None
  }

  function LowerChar(c: char): char {
    if 'A' <= c <= 'Z' then ((c as int) + 32) as char else c
  }

  function Lower(d: Domain): Domain {
    seq(|d|, i requires 0 <= i < |d| => LowerChar(d[i]))
  }

  function LowerAll(ds: seq<Domain>): seq<Domain> {
    seq(|ds|, i requires 0 <= i < |ds| => Lower(ds[i]))
  }

  /** The vhost lookup: by domain, then the kind of the proxy found. */
  function Route(s: State, host: Domain, kind: Kind): Option<(Sid, Name)> {
    match SessionForDomain(s, Lower(host))
    case None => None
    case Some((sid, name)) =>
      if sid in s.rows && name in s.rows[sid].proxies && s.rows[sid].proxies[name].kind == kind
      then Some((sid, name)) else None
  }

  // ------------------------------------------------------------------ steps

  function UdpNames(row: Session): set<Name> {
    set n | n in row.proxies && row.proxies[n].kind == Udp
  }

  function Cleanup(s: State, sid: Sid): State
    requires sid in s.rows
  {
    var row := s.rows[sid];
    var s1 := UnindexDomains(UnindexProxies(s, row.proxies.Keys), row.domains.Keys);
    var s2 := RemoveUdp(DrainProxies(s1, sid), UdpNames(row));
    var s3 := DrainPools(ClearDomains(s2, sid), sid);
    Evict(s3, OfSession(s3, sid))
  }

  function FromIp(s: State, ip: Ip): set<RunId> {
    set r | r in s.sessions && s.sessions[r] in s.rows && s.rows[s.sessions[r]].ip == ip
  }

  /** The limit check of a login, as a read of the registry of its own. */
  function OverLimit(s: State, run: RunId, ip: Ip): Option<LoginError> {
    if run in s.sessions then None
    else if |s.sessions| >= s.maxSessions then Some(GlobalLimit)
    else if |FromIp(s, ip)| >= s.maxPerIp then Some(PerIpLimit)
    else None
  }

  function NewRow(run: RunId, ip: Ip, token: Token): Session {
    Session(run, ip, token, map[], map[], map[])
  }

  function Login(s: State, sid: Sid, run: RunId, ip: Ip, token: Token): Result<State, LoginError> {
    match OverLimit(s, run, ip)
    case Some(e) => Failure(e)
    case None =>
      var t := SwapSession(s, sid, NewRow(run, ip, token));
      Success(if run in s.sessions && s.sessions[run] in t.rows then Cleanup(t, s.sessions[run]) else t)
  }

  function Teardown(s: State, sid: Sid): State
    requires sid in s.rows
  {
    Cleanup(Unregister(s, sid), sid)
  }

  function IndexDomains(s: State, ds: seq<Domain>, run: RunId, name: Name): State
    decreases |ds|
  {
    if ds == [] then s else IndexDomains(IndexDomain(s, ds[0], run, name), ds[1..], run, name)
  }

  predicate Conflict(s: State, ds: seq<Domain>) {
    exists d | d in ds :: SessionForDomain(s, d).Some?
  }

  /** Every check of a registration, in the order they are made. */
  function RegisterError(s: State, sid: Sid, np: NewProxy, allowed: set<nat>, bind: BindOutcome): Option<ProxyError>
    requires sid in s.rows
  {
    var row := s.rows[sid];
    if |row.proxies| >= MAX_PROXIES_PER_SESSION then Some(TooManyProxies)
    else if np.name in row.proxies then Some(NameExists)
    else if np.kind in {Http, Https} && np.domains == [] then Some(InvalidField)
    else if Conflict(s, LowerAll(np.domains)) then Some(DomainConflict)
    else if np.kind in {Http, Https} then None
    else if np.port.None? then Some(InvalidField)
    else if np.port.value !in allowed then Some(PortNotAllowed)
    else match bind
      case Bound => None
      case AddrInUse => Some(PortOccupied)
      case BindFailed => Some(Internal)
  }

  function Enter(s: State, sid: Sid, np: NewProxy): State
    requires sid in s.rows
  {
    var run := s.rows[sid].runId;
    var ds := LowerAll(np.domains);
    var s1 := if np.kind == Udp then AddUdp(s, np.name) else s;
    var s2 := IndexDomains(AddDomains(s1, sid, ds, np.name), ds, run, np.name);
    IndexedRows(AddDomains(s1, sid, ds, np.name), ds, run, np.name);
    IndexProxy(AddProxy(s2, sid, np.name, ProxyEntry(np.kind, np.port, ds)), np.name, run)
  }

  function Register(s: State, sid: Sid, np: NewProxy, allowed: set<nat>, bind: BindOutcome): Result<State, ProxyError>
    requires sid in s.rows
  {
    match RegisterError(s, sid, np, allowed, bind)
    case Some(e) => Failure(e)
    case None => Success(Enter(s, sid, np))
  }

  function Everywhere(ds: seq<Domain>, run: RunId, name: Name): map<Domain, (RunId, Name)> {
    map d | d in ds :: (run, name)
  }

  /** Indexing a list of domains changes the domain index at exactly those domains. */
  lemma {:induction false} IndexedRows(s: State, ds: seq<Domain>, run: RunId, name: Name)
    ensures IndexDomains(s, ds, run, name) == s.(domainIndex := s.domainIndex + Everywhere(ds, run, name))
    decreases |ds|
  {
    EverywhereStep(s.domainIndex, ds, run, name);
    if ds != [] {
      hide Everywhere;
      IndexedRows(IndexDomain(s, ds[0], run, name), ds[1..], run, name);
    }
  }

  lemma EverywhereStep(index: map<Domain, (RunId, Name)>, ds: seq<Domain>, run: RunId, name: Name)
    ensures ds == [] ==> index + Everywhere(ds, run, name) == index
    ensures ds != [] ==>
      index[ds[0] := (run, name)] + Everywhere(ds[1..], run, name) == index + Everywhere(ds, run, name)
  {
    if ds != [] {
      assert forall d :: d in ds <==> d == ds[0] || d in ds[1..];
    }
  }

  // ------------------------------------------------------------------ invariant

  /** The registry maps a run id to a session of that run id. */
  ghost predicate RegistryInv(rows: map<Sid, Session>, sessions: map<RunId, Sid>) {
    forall r | r in sessions :: sessions[r] in rows && rows[sessions[r]].runId == r
  }

  /** The domain index and the domains of the registered sessions are the same relation. */
  ghost predicate DomainsInv(rows: map<Sid, Session>, sessions: map<RunId, Sid>, index: map<Domain, (RunId, Name)>) {
    && (forall d | d in index ::
          && index[d].0 in sessions && sessions[index[d].0] in rows
          && d in rows[sessions[index[d].0]].domains && rows[sessions[index[d].0]].domains[d] == index[d].1)
    && (forall r, d | r in sessions && sessions[r] in rows && d in rows[sessions[r]].domains ::
          d in index && index[d] == (r, rows[sessions[r]].domains[d]))
  }

  ghost predicate Listed(proxies: map<Name, ProxyEntry>, domains: map<Domain, Name>) {
    forall d | d in domains :: domains[d] in proxies && d in proxies[domains[d]].domains
  }

  ghost predicate Owning(proxies: map<Name, ProxyEntry>, domains: map<Domain, Name>) {
    forall n, d | n in proxies && d in proxies[n].domains :: d in domains && domains[d] == n
  }

  /** Inside a session, the domain table lists exactly the domains of its proxies. */
  ghost predicate RowOk(row: Session) {
    |row.proxies| <= MAX_PROXIES_PER_SESSION && Listed(row.proxies, row.domains) && Owning(row.proxies, row.domains)
  }

  ghost predicate RowsInv(rows: map<Sid, Session>) {
    forall sid | sid in rows :: RowOk(rows[sid])
  }

  /** A session that is not registered owns nothing any more. */
  ghost predicate RetiredInv(rows: map<Sid, Session>, sessions: map<RunId, Sid>) {
    forall sid | sid in rows && !(rows[sid].runId in sessions && sessions[rows[sid].runId] == sid) ::
      rows[sid].proxies == map[] && rows[sid].domains == map[]
  }

  /** A proxy index entry points to a registered session that has a proxy of that name. */
  ghost predicate ProxiesInv(rows: map<Sid, Session>, sessions: map<RunId, Sid>, index: map<Name, RunId>) {
    forall n | n in index ::
      index[n] in sessions && sessions[index[n]] in rows && n in rows[sessions[index[n]]].proxies
  }

  ghost predicate RegInv(s: State) {
    && RegistryInv(s.rows, s.sessions)
    && DomainsInv(s.rows, s.sessions, s.domainIndex)
    && RowsInv(s.rows)
    && RetiredInv(s.rows, s.sessions)
    && ProxiesInv(s.rows, s.sessions, s.proxyIndex)
    && |s.sessions| <= s.maxSessions
  }

  // ------------------------------------------------------------------ each step keeps it

  /** What a cleanup leaves behind, field by field. */
  lemma CleanupEffect(s: State, sid: Sid)
    requires sid in s.rows
    ensures
      var t := Cleanup(s, sid);
      && t.rows == s.rows[sid := Emptied(s.rows[sid])]
      && t.sessions == s.sessions
      && t.proxyIndex == s.proxyIndex - s.rows[sid].proxies.Keys
      && t.domainIndex == s.domainIndex - s.rows[sid].domains.Keys
      && t.udp == s.udp - UdpNames(s.rows[sid])
      && t.pending == s.pending - OfSession(s, sid)
      && t.maxSessions == s.maxSessions
  {
  }

  function Emptied(row: Session): Session {
    row.(proxies := map[], domains := map[], pools := map[])
  }

  /**
   `sessions'` is `sessions` after `sid` left it: its run id is free, or stays with whoever had it,
   or has gone to a session that owns nothing yet.
   */
  ghost predicate Left(rows: map<Sid, Session>, sessions: map<RunId, Sid>, sessions': map<RunId, Sid>, sid: Sid)
    requires sid in rows
  {
    var run := rows[sid].runId;
    && (forall r | r in sessions && r != run :: r in sessions' && sessions'[r] == sessions[r])
    && (forall r | r in sessions' && r != run :: r in sessions)
    && (run in sessions && sessions[run] != sid ==> run in sessions' && sessions'[run] == sessions[run])
    && (run in sessions' ==>
          && sessions'[run] in rows && sessions'[run] != sid && rows[sessions'[run]].runId == run
          && ((run in sessions && sessions[run] == sessions'[run])
              || (rows[sessions'[run]].domains == map[] && rows[sessions'[run]].proxies == map[])))
  }

  /** What the others own stays indexed. */
  lemma OthersStayIndexed(rows: map<Sid, Session>, sessions: map<RunId, Sid>, sessions': map<RunId, Sid>,
                          index: map<Domain, (RunId, Name)>, sid: Sid, r: RunId, d: Domain)
    requires sid in rows && RegistryInv(rows, sessions) && DomainsInv(rows, sessions, index)
    requires Left(rows, sessions, sessions', sid) && RetiredInv(rows, sessions)
    requires
      var rows' := rows[sid := Emptied(rows[sid])];
      r in sessions' && sessions'[r] in rows' && d in rows'[sessions'[r]].domains
    ensures
      var (rows', index') := (rows[sid := Emptied(rows[sid])], index - rows[sid].domains.Keys);
      d in index' && index'[d] == (r, rows'[sessions'[r]].domains[d])
  {
    assert sessions'[r] != sid && r in sessions && sessions[r] == sessions'[r];
    assert index[d] == (r, rows[sessions[r]].domains[d]);
    assert rows[sessions[r]].runId == r;
  }

  /** What stays indexed stays owned. */
  lemma IndexedStayOwned(rows: map<Sid, Session>, sessions: map<RunId, Sid>, sessions': map<RunId, Sid>,
                         index: map<Domain, (RunId, Name)>, sid: Sid, d: Domain)
    requires sid in rows && RegistryInv(rows, sessions) && DomainsInv(rows, sessions, index)
    requires Left(rows, sessions, sessions', sid) && RetiredInv(rows, sessions)
    requires d in index - rows[sid].domains.Keys
    ensures
      var (rows', owner) := (rows[sid := Emptied(rows[sid])], index[d]);
      && owner.0 in sessions' && sessions'[owner.0] in rows'
      && d in rows'[sessions'[owner.0]].domains && rows'[sessions'[owner.0]].domains[d] == owner.1
  {
    assert index[d].0 in sessions && d in rows[sessions[index[d].0]].domains;
  }

  lemma LeftDomains(rows: map<Sid, Session>, sessions: map<RunId, Sid>, sessions': map<RunId, Sid>,
                    index: map<Domain, (RunId, Name)>, sid: Sid)
    requires sid in rows && RegistryInv(rows, sessions) && DomainsInv(rows, sessions, index)
    requires Left(rows, sessions, sessions', sid) && RetiredInv(rows, sessions)
    ensures DomainsInv(rows[sid := Emptied(rows[sid])], sessions', index - rows[sid].domains.Keys)
  {
    hide RegistryInv, Left, RetiredInv, Emptied;
    var index' := index - rows[sid].domains.Keys;
    var rows' := rows[sid := Emptied(rows[sid])];
    forall d | d in index'
      ensures
        && index'[d].0 in sessions' && sessions'[index'[d].0] in rows'
        && d in rows'[sessions'[index'[d].0]].domains && rows'[sessions'[index'[d].0]].domains[d] == index'[d].1
    {
      IndexedStayOwned(rows, sessions, sessions', index, sid, d);
    }
    forall r, d | r in sessions' && sessions'[r] in rows' && d in rows'[sessions'[r]].domains
      ensures d in index' && index'[d] == (r, rows'[sessions'[r]].domains[d])
    {
      OthersStayIndexed(rows, sessions, sessions', index, sid, r, d);
    }
  }

  lemma LeftProxies(rows: map<Sid, Session>, sessions: map<RunId, Sid>, sessions': map<RunId, Sid>,
                    index: map<Name, RunId>, sid: Sid)
    requires sid in rows && RegistryInv(rows, sessions) && ProxiesInv(rows, sessions, index)
    requires Left(rows, sessions, sessions', sid)
    ensures ProxiesInv(rows[sid := Emptied(rows[sid])], sessions', index - rows[sid].proxies.Keys)
  {
  }

  lemma LeftRegistry(rows: map<Sid, Session>, sessions: map<RunId, Sid>, sessions': map<RunId, Sid>, sid: Sid)
    requires sid in rows && RegistryInv(rows, sessions) && Left(rows, sessions, sessions', sid)
    ensures RegistryInv(rows[sid := Emptied(rows[sid])], sessions')
  {
  }

  lemma LeftRetired(rows: map<Sid, Session>, sessions: map<RunId, Sid>, sessions': map<RunId, Sid>, sid: Sid)
    requires sid in rows && RetiredInv(rows, sessions) && Left(rows, sessions, sessions', sid)
    ensures RetiredInv(rows[sid := Emptied(rows[sid])], sessions')
  {
  }

  lemma LeftRows(rows: map<Sid, Session>, sid: Sid)
    requires sid in rows && RowsInv(rows)
    ensures RowsInv(rows[sid := Emptied(rows[sid])])
  {
  }

  /** Unregistering and cleaning up a session restores the invariant, whatever took its place. */
  lemma LeaveKeepsRegInv(s: State, t: State, sid: Sid)
    requires RegInv(s) && sid in s.rows && t == s.(sessions := t.sessions)
    requires Left(s.rows, s.sessions, t.sessions, sid) && |t.sessions| <= t.maxSessions
    ensures RegInv(Cleanup(t, sid))
  {
    hide Cleanup, RegistryInv, DomainsInv, RowsInv, RetiredInv, ProxiesInv, Left;
    CleanupEffect(t, sid);
    LeftDomains(s.rows, s.sessions, t.sessions, s.domainIndex, sid);
    LeftProxies(s.rows, s.sessions, t.sessions, s.proxyIndex, sid);
    LeftRegistry(s.rows, s.sessions, t.sessions, sid);
    LeftRetired(s.rows, s.sessions, t.sessions, sid);
    LeftRows(s.rows, sid);
  }

  lemma UnregisterLeaves(s: State, sid: Sid)
    requires RegistryInv(s.rows, s.sessions) && sid in s.rows
    ensures
      var t := Unregister(s, sid);
      t == s.(sessions := t.sessions) && Left(s.rows, s.sessions, t.sessions, sid) && |t.sessions| <= |s.sessions|
  {
    var t := Unregister(s, sid);
    var run := s.rows[sid].runId;
    if run in s.sessions && s.sessions[run] == sid {
      Maps.RemoveSize(s.sessions, run);
    }
  }

  lemma TeardownKeepsRegInv(s: State, sid: Sid)
    requires RegInv(s) && sid in s.rows
    ensures RegInv(Teardown(s, sid))
  {
    hide Cleanup, RegistryInv, DomainsInv, RowsInv, RetiredInv, ProxiesInv, Left, Unregister;
    UnregisterLeaves(s, sid);
    LeaveKeepsRegInv(s, Unregister(s, sid), sid);
  }

  lemma NewRowRegistry(rows: map<Sid, Session>, sessions: map<RunId, Sid>, sid: Sid, row: Session)
    requires sid !in rows && row.proxies == map[] && row.domains == map[]
    requires RegistryInv(rows, sessions) && RowsInv(rows) && RetiredInv(rows, sessions)
    ensures RegistryInv(rows[sid := row], sessions) && RowsInv(rows[sid := row])
            && RetiredInv(rows[sid := row], sessions)
  {
  }

  lemma NewRowIndexes(rows: map<Sid, Session>, sessions: map<RunId, Sid>, domains: map<Domain, (RunId, Name)>,
                      proxies: map<Name, RunId>, sid: Sid, row: Session)
    requires sid !in rows && RegistryInv(rows, sessions)
    requires DomainsInv(rows, sessions, domains) && ProxiesInv(rows, sessions, proxies)
    ensures DomainsInv(rows[sid := row], sessions, domains) && ProxiesInv(rows[sid := row], sessions, proxies)
  {
  }

  /** A new session that owns nothing, not registered yet. */
  lemma NewRowKeepsRegInv(s: State, sid: Sid, row: Session)
    requires RegInv(s) && sid !in s.rows && row.proxies == map[] && row.domains == map[]
    ensures RegInv(s.(rows := s.rows[sid := row]))
  {
    hide RegistryInv, DomainsInv, RowsInv, RetiredInv, ProxiesInv;
    NewRowRegistry(s.rows, s.sessions, sid, row);
    NewRowIndexes(s.rows, s.sessions, s.domainIndex, s.proxyIndex, sid, row);
  }

  lemma JoinRegistry(rows: map<Sid, Session>, sessions: map<RunId, Sid>, sid: Sid)
    requires sid in rows && rows[sid].runId !in sessions && RegistryInv(rows, sessions) && RetiredInv(rows, sessions)
    ensures RegistryInv(rows, sessions[rows[sid].runId := sid]) && RetiredInv(rows, sessions[rows[sid].runId := sid])
  {
  }

  lemma JoinIndexes(rows: map<Sid, Session>, sessions: map<RunId, Sid>, domains: map<Domain, (RunId, Name)>,
                    proxies: map<Name, RunId>, sid: Sid)
    requires sid in rows && rows[sid].runId !in sessions && RetiredInv(rows, sessions)
    requires DomainsInv(rows, sessions, domains) && ProxiesInv(rows, sessions, proxies)
    ensures DomainsInv(rows, sessions[rows[sid].runId := sid], domains)
    ensures ProxiesInv(rows, sessions[rows[sid].runId := sid], proxies)
  {
  }

  lemma JoinKeepsRegInv(s: State, sid: Sid)
    requires RegInv(s) && sid in s.rows && s.rows[sid].runId !in s.sessions && |s.sessions| < s.maxSessions
    ensures RegInv(s.(sessions := s.sessions[s.rows[sid].runId := sid]))
  {
    hide RegistryInv, DomainsInv, RowsInv, RetiredInv, ProxiesInv;
    JoinRegistry(s.rows, s.sessions, sid);
    JoinIndexes(s.rows, s.sessions, s.domainIndex, s.proxyIndex, sid);
    Maps.UpdateSize(s.sessions, s.rows[sid].runId, sid);
  }

  lemma ReplaceLeaves(s: State, sid: Sid)
    requires sid in s.rows && s.rows[sid].runId in s.sessions && s.sessions[s.rows[sid].runId] in s.rows
    requires s.rows[s.sessions[s.rows[sid].runId]].runId == s.rows[sid].runId
    requires s.rows[sid].proxies == map[] && s.rows[sid].domains == map[] && s.sessions[s.rows[sid].runId] != sid
    ensures
      var run := s.rows[sid].runId;
      Left(s.rows, s.sessions, s.sessions[run := sid], s.sessions[run]) && |s.sessions[run := sid]| == |s.sessions|
  {
    var run := s.rows[sid].runId;
    assert s.sessions[run := sid].Keys == s.sessions.Keys;
  }

  lemma LoginKeepsRegInv(s: State, sid: Sid, run: RunId, ip: Ip, token: Token)
    requires RegInv(s) && sid !in s.rows && Login(s, sid, run, ip, token).Success?
    ensures RegInv(Login(s, sid, run, ip, token).value)
    ensures Registered(Login(s, sid, run, ip, token).value, sid)
  {
    hide Cleanup, DomainsInv, RowsInv, RetiredInv, ProxiesInv, Left;
    var row := NewRow(run, ip, token);
    var n := s.(rows := s.rows[sid := row]);
    var t := n.(sessions := n.sessions[run := sid]);
    NewRowKeepsRegInv(s, sid, row);
    if run in s.sessions {
      ReplaceLeaves(n, sid);
      LeaveKeepsRegInv(n, t, s.sessions[run]);
      CleanupEffect(t, s.sessions[run]);
    } else {
      JoinKeepsRegInv(n, sid);
    }
  }

  // ------------------------------------------------------------------ registration

  function EnteredRow(row: Session, np: NewProxy): Session {
    var ds := LowerAll(np.domains);
    row.(proxies := row.proxies[np.name := ProxyEntry(np.kind, np.port, ds)],
         domains := row.domains + map d | d in ds :: np.name)
  }

  lemma EnterEffect(s: State, sid: Sid, np: NewProxy)
    requires sid in s.rows
    ensures
      var t := Enter(s, sid, np);
      var run := s.rows[sid].runId;
      && t.rows == s.rows[sid := EnteredRow(s.rows[sid], np)]
      && t.domainIndex == s.domainIndex + Everywhere(LowerAll(np.domains), run, np.name)
      && t.proxyIndex == s.proxyIndex[np.name := run]
      && t.sessions == s.sessions && t.maxSessions == s.maxSessions
  {
    hide Everywhere, LowerAll;
    var s1 := if np.kind == Udp then AddUdp(s, np.name) else s;
    IndexedRows(AddDomains(s1, sid, LowerAll(np.domains), np.name), LowerAll(np.domains), s.rows[sid].runId, np.name);
  }

  /** With the indexes in order, "no conflict" means that no session at all has any of the domains. */
  lemma NoConflictIsFree(s: State, ds: seq<Domain>)
    requires DomainsInv(s.rows, s.sessions, s.domainIndex) && !Conflict(s, ds)
    ensures forall d | d in ds :: d !in s.domainIndex
  {
    forall d | d in ds ensures d !in s.domainIndex {
      assert SessionForDomain(s, d).None?;
    }
  }

  lemma EnteredTables(proxies: map<Name, ProxyEntry>, domains: map<Domain, Name>, name: Name, entry: ProxyEntry)
    requires Listed(proxies, domains) && Owning(proxies, domains)
    requires name !in proxies && forall d | d in entry.domains :: d !in domains
    ensures Listed(proxies[name := entry], domains + map d | d in entry.domains :: name)
    ensures Owning(proxies[name := entry], domains + map d | d in entry.domains :: name)
    ensures |proxies[name := entry]| == |proxies| + 1
  {
    assert proxies[name := entry].Keys == proxies.Keys + {name};
  }

  lemma EnteredRowOk(row: Session, np: NewProxy)
    requires RowOk(row) && |row.proxies| < MAX_PROXIES_PER_SESSION && np.name !in row.proxies
    requires forall d | d in LowerAll(np.domains) :: d !in row.domains
    ensures RowOk(EnteredRow(row, np))
  {
    hide LowerAll, Listed, Owning;
    EnteredTables(row.proxies, row.domains, np.name, ProxyEntry(np.kind, np.port, LowerAll(np.domains)));
    assert EnteredRow(row, np).domains == row.domains + map d | d in LowerAll(np.domains) :: np.name;
  }

  lemma EnteredDomains(rows: map<Sid, Session>, sessions: map<RunId, Sid>, index: map<Domain, (RunId, Name)>,
                       sid: Sid, row: Session, ds: seq<Domain>, name: Name)
    requires sid in rows && row.runId == rows[sid].runId && row.runId in sessions && sessions[row.runId] == sid
    requires RegistryInv(rows, sessions) && DomainsInv(rows, sessions, index)
    requires row.domains == rows[sid].domains + map d | d in ds :: name
    requires forall d | d in ds :: d !in index
    ensures DomainsInv(rows[sid := row], sessions, index + Everywhere(ds, row.runId, name))
  {
    var rows' := rows[sid := row];
    var index' := index + Everywhere(ds, row.runId, name);
    forall d | d in index'
      ensures
        && index'[d].0 in sessions && sessions[index'[d].0] in rows'
        && d in rows'[sessions[index'[d].0]].domains && rows'[sessions[index'[d].0]].domains[d] == index'[d].1
    {
      assert d in ds || d in index;
    }
  }

  lemma EnteredProxies(s: State, sid: Sid, np: NewProxy)
    requires Registered(s, sid) && RegistryInv(s.rows, s.sessions) && RetiredInv(s.rows, s.sessions)
    requires ProxiesInv(s.rows, s.sessions, s.proxyIndex)
    ensures
      var rows' := s.rows[sid := EnteredRow(s.rows[sid], np)];
      && RegistryInv(rows', s.sessions) && RetiredInv(rows', s.sessions)
      && ProxiesInv(rows', s.sessions, s.proxyIndex[np.name := s.rows[sid].runId])
  {
    hide LowerAll;
  }

  lemma EnteredRowFields(row: Session, np: NewProxy)
    ensures EnteredRow(row, np).runId == row.runId
    ensures EnteredRow(row, np).domains == row.domains + map d | d in LowerAll(np.domains) :: np.name
  {
  }

  lemma EnteredRows(rows: map<Sid, Session>, sid: Sid, row: Session)
    requires RowsInv(rows) && RowOk(row)
    ensures RowsInv(rows[sid := row])
  {
  }

  lemma RegisterKeepsRegInv(s: State, sid: Sid, np: NewProxy, allowed: set<nat>, bind: BindOutcome)
    requires RegInv(s) && Registered(s, sid) && Register(s, sid, np, allowed, bind).Success?
    ensures RegInv(Register(s, sid, np, allowed, bind).value)
  {
    hide Enter, EnteredRow, LowerAll, RegistryInv, DomainsInv, RetiredInv, ProxiesInv, Conflict, RowOk;
    NoConflictIsFree(s, LowerAll(np.domains));
    RegisteredDomainsIndexed(s, sid);
    EnteredRowOk(s.rows[sid], np);
    EnteredRowFields(s.rows[sid], np);
    EnteredDomains(s.rows, s.sessions, s.domainIndex, sid, EnteredRow(s.rows[sid], np), LowerAll(np.domains), np.name);
    EnteredProxies(s, sid, np);
    EnteredRows(s.rows, sid, EnteredRow(s.rows[sid], np));
    EnterEffect(s, sid, np);
  }

  lemma RegisteredDomainsIndexed(s: State, sid: Sid)
    requires Registered(s, sid) && DomainsInv(s.rows, s.sessions, s.domainIndex)
    ensures forall d | d in s.rows[sid].domains :: d in s.domainIndex
  {
  }

  // ------------------------------------------------------------------ traffic does not disturb it

  ghost predicate SameRegistrations(rows: map<Sid, Session>, rows': map<Sid, Session>) {
    && rows'.Keys == rows.Keys
    && (forall sid | sid in rows ::
          && rows'[sid].runId == rows[sid].runId
          && rows'[sid].proxies == rows[sid].proxies && rows'[sid].domains == rows[sid].domains)
  }

  lemma FrameTables(rows: map<Sid, Session>, rows': map<Sid, Session>, sessions: map<RunId, Sid>)
    requires SameRegistrations(rows, rows')
    ensures RegistryInv(rows, sessions) ==> RegistryInv(rows', sessions)
    ensures RowsInv(rows) ==> RowsInv(rows')
    ensures RetiredInv(rows, sessions) ==> RetiredInv(rows', sessions)
  {
    hide Listed, Owning;
  }

  lemma FrameIndexes(rows: map<Sid, Session>, rows': map<Sid, Session>, sessions: map<RunId, Sid>,
                     domains: map<Domain, (RunId, Name)>, proxies: map<Name, RunId>)
    requires SameRegistrations(rows, rows')
    ensures DomainsInv(rows, sessions, domains) ==> DomainsInv(rows', sessions, domains)
    ensures ProxiesInv(rows, sessions, proxies) ==> ProxiesInv(rows', sessions, proxies)
  {
  }

  /** Nothing the registry invariant speaks of has changed. */
  ghost predicate Untouched(s: State, t: State) {
    && SameRegistrations(s.rows, t.rows) && t.sessions == s.sessions
    && t.domainIndex == s.domainIndex && t.proxyIndex == s.proxyIndex && t.maxSessions == s.maxSessions
  }

  lemma UntouchedKeepsRegInv(s: State, t: State)
    requires RegInv(s) && Untouched(s, t)
    ensures RegInv(t)
  {
    hide RegistryInv, RowsInv, RetiredInv, DomainsInv, ProxiesInv, SameRegistrations;
    FrameTables(s.rows, t.rows, s.sessions);
    FrameIndexes(s.rows, t.rows, s.sessions, s.domainIndex, s.proxyIndex);
  }

  lemma SameRegistrationsReflexive(rows: map<Sid, Session>)
    ensures SameRegistrations(rows, rows)
  {
  }

  lemma RowSameRegistrations(rows: map<Sid, Session>, sid: Sid, row: Session)
    requires sid in rows ==>
      row.runId == rows[sid].runId && row.proxies == rows[sid].proxies && row.domains == rows[sid].domains
    ensures sid in rows ==> SameRegistrations(rows, rows[sid := row])
  {
  }

  lemma SetPoolUntouched(s: State, sid: Sid, name: Name, pool: seq<Work>)
    requires sid in s.rows
    ensures Untouched(s, SetPool(s, sid, name, pool))
  {
    hide SameRegistrations;
    RowSameRegistrations(s.rows, sid, SetPool(s, sid, name, pool).rows[sid]);
  }

  lemma PopUntouched(s: State, u: User)
    requires u.sid in s.rows
    ensures Untouched(s, PopPooled(s, u))
  {
    hide SameRegistrations, Pool;
    var pool := Pool(s, u.sid, u.proxy);
    SameRegistrationsReflexive(s.rows);
    if pool != [] {
      SetPoolUntouched(s, u.sid, u.proxy, pool[..|pool| - 1]);
    }
  }

  lemma PushUntouched(s: State, w: Work, sid: Sid)
    requires sid in s.rows
    ensures Untouched(s, PushPooled(s, w, sid))
  {
    hide SameRegistrations, Pool, SetPool;
    var pool := Pool(s, sid, w.proxy);
    SetPoolUntouched(s, sid, w.proxy, if |pool| >= MAX_POOLED_WORK_CONNS_PER_PROXY then pool else pool + [w]);
  }

  lemma DrainUntouched(s: State, sid: Sid)
    requires sid in s.rows
    ensures Untouched(s, DrainPools(s, sid))
  {
    hide SameRegistrations;
    RowSameRegistrations(s.rows, sid, DrainPools(s, sid).rows[sid]);
  }

  lemma WorksUntouched(s: State, w: Work, sid: Sid, ids: set<nat>)
    ensures Untouched(s, RouteWork(s, w)) && Untouched(s, HandToUdp(s, w))
    ensures Untouched(s, Claim(s, w, sid)) && Untouched(s, Evict(s, ids))
  {
    hide SameRegistrations;
    SameRegistrationsReflexive(s.rows);
  }

  /** The sections on user streams do not touch the registry or the indexes. */
  lemma UserStepUntouched(s: State, e: Matching.UserStep)
    requires Matching.UserEnabled(s, e)
    ensures Untouched(s, Matching.ApplyUser(s, e))
  {
    hide SameRegistrations, PopPooled;
    if e.Popped? {
      PopUntouched(s, e.u);
    } else {
      SameRegistrationsReflexive(s.rows);
    }
  }

  lemma UserStepKeepsRegInv(s: State, e: Matching.UserStep)
    requires RegInv(s) && Matching.UserEnabled(s, e)
    ensures RegInv(Matching.ApplyUser(s, e))
  {
    hide RegInv, Untouched, Matching.ApplyUser, Matching.UserEnabled;
    UserStepUntouched(s, e);
    UntouchedKeepsRegInv(s, Matching.ApplyUser(s, e));
  }

  /** Nor do those on work streams. */
  lemma WorkStepUntouched(s: State, e: Matching.WorkStep)
    requires Matching.WorkEnabled(s, e)
    ensures Untouched(s, Matching.ApplyWork(s, e))
  {
    hide Untouched, RouteWork, HandToUdp, Claim, Evict, PushPooled, DrainPools, Expired, OfSession;
    match e {
      case Arrived(w) => WorksUntouched(s, w, 0, {});
      case ToUdp(w) => WorksUntouched(s, w, 0, {});
      case Pushed(w) => PushUntouched(s, w, s.works[w].sid);
      case Claimed(w) => WorksUntouched(s, w, s.works[w].sid, {});
      case Swept(timeout) => WorksUntouched(s, Work(0, "", 0, None), 0, Expired(s, timeout));
      case RequestFailed(id) => WorksUntouched(s, Work(0, "", 0, None), 0, {id});
      case PendingRetained(sid) => WorksUntouched(s, Work(0, "", 0, None), 0, OfSession(s, sid));
      case PoolsDrained(sid) => DrainUntouched(s, sid);
    }
  }

  lemma WorkStepKeepsRegInv(s: State, e: Matching.WorkStep)
    requires RegInv(s) && Matching.WorkEnabled(s, e)
    ensures RegInv(Matching.ApplyWork(s, e))
  {
    hide RegInv, Untouched, Matching.ApplyWork, Matching.WorkEnabled;
    WorkStepUntouched(s, e);
    UntouchedKeepsRegInv(s, Matching.ApplyWork(s, e));
  }

  // ------------------------------------------------------------------ whole runs

  datatype Step =
    | LoginStep(sid: Sid, run: RunId, ip: Ip, token: Token)
    | RegisterStep(sid: Sid, np: NewProxy, allowed: set<nat>, bind: BindOutcome)
    | TeardownStep(sid: Sid)
    | UserTraffic(us: Matching.UserStep)
    | WorkTraffic(ws: Matching.WorkStep)

  /** Session ids are new, and only a registered session registers proxies. */
  predicate StepEnabled(s: State, e: Step) {
    match e
    case LoginStep(sid, _, _, _) => sid !in s.rows
    case RegisterStep(sid, _, _, _) => Registered(s, sid)
    case TeardownStep(sid) => sid in s.rows
    case UserTraffic(us) => Matching.UserEnabled(s, us)
    case WorkTraffic(ws) => Matching.WorkEnabled(s, ws)
  }

  function StepApply(s: State, e: Step): State
    requires StepEnabled(s, e)
  {
    match e
    case LoginStep(sid, run, ip, token) =>
      (match Login(s, sid, run, ip, token) case Success(t) => t case Failure(_) => s)
    case RegisterStep(sid, np, allowed, bind) =>
      (match Register(s, sid, np, allowed, bind) case Success(t) => t case Failure(_) => s)
    case TeardownStep(sid) => Teardown(s, sid)
    case UserTraffic(us) => Matching.ApplyUser(s, us)
    case WorkTraffic(ws) => Matching.ApplyWork(s, ws)
  }

  lemma StepKeepsRegInv(s: State, e: Step)
    requires RegInv(s) && StepEnabled(s, e)
    ensures RegInv(StepApply(s, e))
  {
    hide RegInv, Login, Register, Teardown, Matching.ApplyUser, Matching.ApplyWork, Matching.UserEnabled,
      Matching.WorkEnabled;
    match e
    case LoginStep(sid, run, ip, token) =>
      if Login(s, sid, run, ip, token).Success? { LoginKeepsRegInv(s, sid, run, ip, token); }
    case RegisterStep(sid, np, allowed, bind) =>
      if Register(s, sid, np, allowed, bind).Success? { RegisterKeepsRegInv(s, sid, np, allowed, bind); }
    case TeardownStep(sid) => TeardownKeepsRegInv(s, sid);
    case UserTraffic(us) => UserStepKeepsRegInv(s, us);
    case WorkTraffic(ws) => WorkStepKeepsRegInv(s, ws);
  }

  function RunSteps(s: State, es: seq<Step>): Option<State>
    decreases |es|
  {
    if es == [] then Some(s)
    else if StepEnabled(s, es[0]) then RunSteps(StepApply(s, es[0]), es[1..])
    else None
  }

  lemma {:induction false} RunKeepsRegInv(s: State, es: seq<Step>)
    requires RegInv(s) && RunSteps(s, es).Some?
    ensures RegInv(RunSteps(s, es).value)
    decreases |es|
  {
    hide RegInv, StepApply, StepEnabled;
    if es != [] {
      StepKeepsRegInv(s, es[0]);
      RunKeepsRegInv(StepApply(s, es[0]), es[1..]);
    }
  }

  ghost predicate Reachable(s: State) {
    exists maxActive, maxSessions, maxPerIp, es :: RunSteps(Init(maxActive, maxSessions, maxPerIp), es) == Some(s)
  }

  lemma ReachableRegInv(s: State)
    requires Reachable(s)
    ensures RegInv(s)
  {
    hide StepApply, StepEnabled;
    var maxActive, maxSessions, maxPerIp, es :| RunSteps(Init(maxActive, maxSessions, maxPerIp), es) == Some(s);
    RunKeepsRegInv(Init(maxActive, maxSessions, maxPerIp), es);
  }

  // ------------------------------------------------------------------ what it means

  /** What a scan of all registered sessions would look for. */
  predicate Owns(s: State, sid: Sid, d: Domain, name: Name) {
    Registered(s, sid) && d in s.rows[sid].domains && s.rows[sid].domains[d] == name
  }

  /** The index lookup answers exactly what scanning every registered session would. */
  lemma IndexAgreesWithScan(s: State, d: Domain)
    requires Reachable(s)
    ensures forall sid: Sid, name :: SessionForDomain(s, d) == Some((sid, name)) <==> Owns(s, sid, d, name)
    ensures SessionForDomain(s, d).None? <==> !exists sid: Sid, name :: Owns(s, sid, d, name)
  {
    hide RowsInv, RetiredInv, ProxiesInv;
    ReachableRegInv(s);
    match SessionForDomain(s, d)
    case Some((sid, name)) => assert Owns(s, sid, d, name);
    case None =>
  }

  /** A registered session already has a proxy for this domain, whatever the case it was written in. */
  ghost predicate DomainOwned(s: State, d: Domain) {
    exists owner: Sid, name :: Owns(s, owner, Lower(d), name)
  }

  lemma ConflictIsOwnership(s: State, ds: seq<Domain>)
    requires Reachable(s)
    ensures Conflict(s, LowerAll(ds)) <==> exists i | 0 <= i < |ds| :: DomainOwned(s, ds[i])
  {
    hide Lower, Reachable, Owns, SessionForDomain;
    forall i | 0 <= i < |ds| ensures SessionForDomain(s, LowerAll(ds)[i]).Some? <==> DomainOwned(s, ds[i]) {
      IndexAgreesWithScan(s, Lower(ds[i]));
    }
    if exists i | 0 <= i < |ds| :: DomainOwned(s, ds[i]) {
      var i :| 0 <= i < |ds| && DomainOwned(s, ds[i]);
      assert LowerAll(ds)[i] in LowerAll(ds);
    }
  }

  predicate PortAllowed(np: NewProxy, allowed: set<nat>) {
    match np.port
    case Some(port) => port in allowed
    case None => false
  }

  /**
   What the outcome of a registration means: it is accepted exactly when the session has room and no
   proxy of that name, a vhost proxy names a domain, no registered session owns any of the domains,
   and a TCP or UDP proxy could bind an allowed port. A refusal names the first thing that is wrong.
   */
  lemma RegistrationAcceptedExactly(s: State, sid: Sid, np: NewProxy, allowed: set<nat>, bind: BindOutcome)
    requires Reachable(s) && sid in s.rows
    ensures Register(s, sid, np, allowed, bind).Success? <==>
            && |s.rows[sid].proxies| < 128 && np.name !in s.rows[sid].proxies
            && (np.kind in {Http, Https} ==> np.domains != [])
            && (forall i | 0 <= i < |np.domains| :: !DomainOwned(s, np.domains[i]))
            && (np.kind in {Tcp, Udp} ==> PortAllowed(np, allowed) && bind == Bound)
    ensures
      match Register(s, sid, np, allowed, bind)
      case Success(_) => true
      case Failure(TooManyProxies) => |s.rows[sid].proxies| >= 128
      case Failure(e) =>
        var taken := exists i | 0 <= i < |np.domains| :: DomainOwned(s, np.domains[i]);
        && |s.rows[sid].proxies| < 128
        && match e
           case NameExists => np.name in s.rows[sid].proxies
           case DomainConflict => np.name !in s.rows[sid].proxies && taken
           case InvalidField =>
             && np.name !in s.rows[sid].proxies
             && if np.kind in {Http, Https} then np.domains == [] else !taken && np.port.None?
           case PortNotAllowed =>
             && np.name !in s.rows[sid].proxies && !taken && np.kind in {Tcp, Udp}
             && np.port != None && !PortAllowed(np, allowed)
           case PortOccupied =>
             && np.name !in s.rows[sid].proxies && !taken && np.kind in {Tcp, Udp}
             && PortAllowed(np, allowed) && bind == AddrInUse
           case Internal =>
             && np.name !in s.rows[sid].proxies && !taken && np.kind in {Tcp, Udp}
             && PortAllowed(np, allowed) && bind == BindFailed
           case TooManyProxies => false
  {
    hide Reachable, Conflict, DomainOwned, Enter, LowerAll;
    ConflictIsOwnership(s, np.domains);
    assert np.kind.Tcp? || np.kind.Udp? || np.kind.Http? || np.kind.Https?;
  }

  /** No domain has two owners, across all registered sessions and all their proxies. */
  lemma DomainsHaveOneOwner(s: State, d: Domain, a: Sid, m: Name, b: Sid, n: Name)
    requires Reachable(s) && Registered(s, a) && Registered(s, b)
    requires m in s.rows[a].proxies && d in s.rows[a].proxies[m].domains
    requires n in s.rows[b].proxies && d in s.rows[b].proxies[n].domains
    ensures a == b && m == n
  {
    hide DomainsInv, RetiredInv, ProxiesInv, Reachable, Listed;
    ReachableRegInv(s);
    RowOwns(s.rows[a], m, d);
    RowOwns(s.rows[b], n, d);
    hide RowsInv, Owning;
    assert Owns(s, a, d, m) && Owns(s, b, d, n);
    IndexAgreesWithScan(s, d);
  }

  lemma RowOwns(row: Session, name: Name, d: Domain)
    requires Owning(row.proxies, row.domains) && name in row.proxies && d in row.proxies[name].domains
    ensures d in row.domains && row.domains[d] == name
  {
  }

  /** A session owns a domain through the proxy that lists it. */
  lemma OwnedIsListed(s: State, sid: Sid, d: Domain, name: Name)
    requires Reachable(s)
    ensures Owns(s, sid, d, name) <==>
            Registered(s, sid) && name in s.rows[sid].proxies && d in s.rows[sid].proxies[name].domains
  {
    hide DomainsInv, RetiredInv, ProxiesInv, Reachable, Owning;
    ReachableRegInv(s);
    if Registered(s, sid) && name in s.rows[sid].proxies && d in s.rows[sid].proxies[name].domains {
      RowOwns(s.rows[sid], name, d);
    }
  }

  /**
   A routed user lands on a registered session, on a proxy of the expected kind that lists the
   host; and it is routed whenever there is such a proxy.
   */
  lemma RouteLandsExactly(s: State, host: Domain, kind: Kind, sid: Sid, name: Name)
    requires Reachable(s)
    ensures Route(s, host, kind) == Some((sid, name)) <==>
            && Registered(s, sid) && name in s.rows[sid].proxies
            && s.rows[sid].proxies[name].kind == kind && Lower(host) in s.rows[sid].proxies[name].domains
  {
    hide Lower, Reachable, Owns, SessionForDomain;
    IndexAgreesWithScan(s, Lower(host));
    OwnedIsListed(s, sid, Lower(host), name);
  }

  /** The same letter, in upper or lower case, or the same character. Not used by the code. */
  predicate SameLetter(c: char, d: char) {
    || c == d
    || ('A' <= c <= 'Z' && 'a' <= d <= 'z' && c as int - 'A' as int == d as int - 'a' as int)
    || ('a' <= c <= 'z' && 'A' <= d <= 'Z' && c as int - 'a' as int == d as int - 'A' as int)
  }

  /** The same host, in whatever case it is written. Not used by the code. */
  predicate SameHost(a: Domain, b: Domain) {
    |a| == |b| && forall i | 0 <= i < |a| :: SameLetter(a[i], b[i])
  }

  lemma LowerCharExactly(c: char, d: char)
    ensures LowerChar(c) == LowerChar(d) <==> SameLetter(c, d)
  {
  }

  /** Two hosts are looked up alike exactly when they differ in case only. */
  lemma LowerIsSameHost(a: Domain, b: Domain)
    ensures Lower(a) == Lower(b) <==> SameHost(a, b)
  {
    hide LowerChar, SameLetter;
    if |a| == |b| {
      forall i | 0 <= i < |a| ensures Lower(a)[i] == Lower(b)[i] <==> SameLetter(a[i], b[i]) {
        LowerCharExactly(a[i], b[i]);
      }
      if SameHost(a, b) {
        assert Lower(a) == Lower(b);
      }
    }
  }

  /** Two hosts that differ in case only are routed alike, and are in conflict with the same registrations. */
  lemma RoutingIgnoresCase(s: State, a: Domain, b: Domain, kind: Kind)
    requires SameHost(a, b)
    ensures Route(s, a, kind) == Route(s, b, kind)
    ensures DomainOwned(s, a) <==> DomainOwned(s, b)
  {
    hide Lower, SameHost;
    LowerIsSameHost(a, b);
  }

  /** At most one session per run id, every one under its own run id, and never more than the limit. */
  lemma RegistryStaysBounded(s: State)
    requires Reachable(s)
    ensures forall a, b | Registered(s, a) && Registered(s, b) && s.rows[a].runId == s.rows[b].runId :: a == b
    ensures forall run | run in s.sessions :: Registered(s, s.sessions[run]) && s.rows[s.sessions[run]].runId == run
    ensures |s.sessions| <= s.maxSessions
    ensures forall sid | sid in s.rows :: |s.rows[sid].proxies| <= 128
  {
    hide DomainsInv, RetiredInv, ProxiesInv;
    ReachableRegInv(s);
    forall sid | sid in s.rows ensures |s.rows[sid].proxies| <= 128 {
      assert RowOk(s.rows[sid]);
    }
  }

  /**
   Reconnect safety. A session that has been replaced may still run its own unregistration and
   cleanup, at any later time: the registry, both indexes, the UDP table, the row of every other
   session and the pending users of every other session stay as they are.
   */
  lemma LateTeardownIsHarmless(s: State, sid: Sid)
    requires Reachable(s) && sid in s.rows && !Registered(s, sid)
    ensures
      var t := Teardown(s, sid);
      && t.sessions == s.sessions && t.proxyIndex == s.proxyIndex && t.domainIndex == s.domainIndex && t.udp == s.udp
      && (forall o | o in s.rows && o != sid :: t.rows[o] == s.rows[o])
      && (forall id | id in s.pending && s.pending[id].sid != sid :: id in t.pending && t.pending[id] == s.pending[id])
  {
    hide RegInv, Reachable, Cleanup, Unregister;
    ReachableRegInv(s);
    RetiredIsEmpty(s, sid);
    CleanupEffect(s, sid);
    assert s.rows[sid].proxies.Keys == {} && s.rows[sid].domains.Keys == {} && UdpNames(s.rows[sid]) == {};
    assert s.proxyIndex - {} == s.proxyIndex && s.domainIndex - {} == s.domainIndex && s.udp - {} == s.udp;
  }

  lemma RetiredIsEmpty(s: State, sid: Sid)
    requires RegInv(s) && sid in s.rows && !Registered(s, sid)
    ensures s.rows[sid].proxies == map[] && s.rows[sid].domains == map[] && Unregister(s, sid) == s
  {
    hide DomainsInv, RowsInv, ProxiesInv;
  }

  /** What a login under a run id that is taken does to the session it replaces: nothing of it is left. */
  lemma ReplacedSessionOwnsNothing(s: State, sid: Sid, run: RunId, ip: Ip, token: Token)
    requires Reachable(s) && sid !in s.rows && run in s.sessions
    ensures Login(s, sid, run, ip, token).Success?
    ensures
      var t := Login(s, sid, run, ip, token).value;
      var prev := s.sessions[run];
      && t.sessions == s.sessions[run := sid] && !Registered(t, prev)
      && prev in t.rows && t.rows[prev].proxies == map[] && t.rows[prev].domains == map[] && t.rows[prev].pools == map[]
      && (forall id | id in t.pending :: t.pending[id].sid != prev)
      && (forall d, name :: !Owns(t, prev, d, name))
  {
    hide DomainsInv, RowsInv, ProxiesInv, RetiredInv, Cleanup;
    ReachableRegInv(s);
    CleanupEffect(SwapSession(s, sid, NewRow(run, ip, token)), s.sessions[run]);
  }

  lemma EvictNothing(s: State)
    ensures Evict(s, {}) == s
  {
    assert Evict(s, {}).pending == s.pending && Evict(s, {}).users == s.users;
  }

  lemma UnindexNothing(s: State)
    ensures UnindexDomains(UnindexProxies(s, {}), {}) == s && RemoveUdp(s, {}) == s
  {
    assert s.proxyIndex - {} == s.proxyIndex && s.domainIndex - {} == s.domainIndex;
  }

  lemma EmptyNothing(s: State, sid: Sid)
    requires sid in s.rows && s.rows[sid] == Emptied(s.rows[sid])
    requires forall w | w in s.works :: s.works[w] != Pooled(sid)
    ensures DrainProxies(s, sid) == s && ClearDomains(s, sid) == s && DrainPools(s, sid) == s
  {
    assert s.rows[sid := s.rows[sid]] == s.rows;
    assert DrainPools(s, sid).works == s.works;
  }

  lemma CleanupOfEmptied(s: State, sid: Sid)
    requires sid in s.rows && s.rows[sid] == Emptied(s.rows[sid])
    requires OfSession(s, sid) == {} && forall w | w in s.works :: s.works[w] != Pooled(sid)
    ensures Cleanup(s, sid) == s
  {
    hide Evict, UnindexDomains, UnindexProxies, DrainProxies, RemoveUdp, ClearDomains, DrainPools, OfSession;
    assert s.rows[sid].proxies.Keys == {} && s.rows[sid].domains.Keys == {} && UdpNames(s.rows[sid]) == {};
    EvictNothing(s);
    UnindexNothing(s);
    EmptyNothing(s, sid);
  }

  lemma CleanupDropsPools(s: State, sid: Sid)
    requires sid in s.rows
    ensures OfSession(Cleanup(s, sid), sid) == {}
    ensures forall w | w in Cleanup(s, sid).works :: Cleanup(s, sid).works[w] != Pooled(sid)
  {
  }

  /** Running the cleanup of a session a second time changes nothing at all, whatever the state. */
  lemma CleanupIsIdempotent(s: State, sid: Sid)
    requires sid in s.rows
    ensures Cleanup(Cleanup(s, sid), sid) == Cleanup(s, sid)
  {
    hide Cleanup;
    CleanupEffect(s, sid);
    CleanupDropsPools(s, sid);
    CleanupOfEmptied(Cleanup(s, sid), sid);
  }

  // ------------------------------------------------------------------ the proxy index

  /** The proxy index never points to a session that is gone or that has no such proxy. */
  lemma ProxyIndexIsSound(s: State, name: Name)
    requires Reachable(s) && name in s.proxyIndex
    ensures
      SessionForProxy(s, name).Some? &&
      var sid := SessionForProxy(s, name).value;
      Registered(s, sid) && name in s.rows[sid].proxies
  {
    hide DomainsInv, RowsInv, RetiredInv;
    ReachableRegInv(s);
  }

  /** Every proxy of a registered session is indexed under that session's run id. */
  ghost predicate Findable(rows: map<Sid, Session>, sessions: map<RunId, Sid>, index: map<Name, RunId>) {
    forall r, name | r in sessions && sessions[r] in rows && name in rows[sessions[r]].proxies ::
      name in index && index[name] == r
  }

  /** Some other registered session already has a proxy of this name. */
  predicate NameTaken(rows: map<Sid, Session>, sessions: map<RunId, Sid>, run: RunId, name: Name) {
    exists r | r in sessions :: r != run && sessions[r] in rows && name in rows[sessions[r]].proxies
  }

  lemma EnteredFindable(rows: map<Sid, Session>, sessions: map<RunId, Sid>, index: map<Name, RunId>, sid: Sid,
                        row: Session, name: Name)
    requires RegistryInv(rows, sessions) && Findable(rows, sessions, index)
    requires sid in rows && row.runId == rows[sid].runId && row.runId in sessions && sessions[row.runId] == sid
    requires row.proxies.Keys == rows[sid].proxies.Keys + {name}
    ensures Findable(rows[sid := row], sessions, index[name := row.runId]) <==>
              !NameTaken(rows, sessions, row.runId, name)
  {
    var rows' := rows[sid := row];
    var index' := index[name := row.runId];
    if NameTaken(rows, sessions, row.runId, name) {
      var r :| r in sessions && r != row.runId && sessions[r] in rows && name in rows[sessions[r]].proxies;
      assert sessions[r] != sid;
      assert name in rows'[sessions[r]].proxies && index'[name] != r;
    }
  }

  /**
   Only a session's own names are checked at registration, so completeness of the proxy index is
   exactly the absence of a collision: a successful registration keeps every proxy findable if and
   only if no other registered session has a proxy of that name.
   */
  lemma RegistrationKeepsFindableIff(s: State, sid: Sid, np: NewProxy, allowed: set<nat>, bind: BindOutcome)
    requires Reachable(s) && Findable(s.rows, s.sessions, s.proxyIndex)
    requires Registered(s, sid) && Register(s, sid, np, allowed, bind).Success?
    ensures
      var t := Register(s, sid, np, allowed, bind).value;
      Findable(t.rows, t.sessions, t.proxyIndex) <==> !NameTaken(s.rows, s.sessions, s.rows[sid].runId, np.name)
  {
    hide DomainsInv, RowsInv, RetiredInv, ProxiesInv, RegistryInv, Enter, Reachable, LowerAll, Findable, NameTaken,
      RegisterError;
    ReachableRegInv(s);
    EnterEffect(s, sid, np);
    EnteredFindable(s.rows, s.sessions, s.proxyIndex, sid, EnteredRow(s.rows[sid], np), np.name);
  }

  lemma LeftFindable(rows: map<Sid, Session>, sessions: map<RunId, Sid>, sessions': map<RunId, Sid>,
                     index: map<Name, RunId>, sid: Sid)
    requires sid in rows && RegistryInv(rows, sessions) && RetiredInv(rows, sessions)
    requires Left(rows, sessions, sessions', sid) && Findable(rows, sessions, index)
    ensures Findable(rows[sid := Emptied(rows[sid])], sessions', index - rows[sid].proxies.Keys)
  {
    var rows' := rows[sid := Emptied(rows[sid])];
    forall r, name | r in sessions' && sessions'[r] in rows' && name in rows'[sessions'[r]].proxies
      ensures name in index && index[name] == r && name !in rows[sid].proxies
    {
      assert sessions'[r] != sid && r in sessions && sessions[r] == sessions'[r];
      assert rows[sessions[r]].runId == r;
    }
  }

  /** Teardowns and reconnects never lose a proxy of anybody else, as long as names do not collide. */
  lemma TeardownKeepsFindable(s: State, sid: Sid)
    requires Reachable(s) && Findable(s.rows, s.sessions, s.proxyIndex) && sid in s.rows
    ensures
      var t := Teardown(s, sid);
      Findable(t.rows, t.sessions, t.proxyIndex)
  {
    hide DomainsInv, RowsInv, RetiredInv, ProxiesInv, RegistryInv, Cleanup, Unregister, Reachable, Findable, Left;
    ReachableRegInv(s);
    UnregisterLeaves(s, sid);
    CleanupEffect(Unregister(s, sid), sid);
    LeftFindable(s.rows, s.sessions, Unregister(s, sid).sessions, s.proxyIndex, sid);
  }
}
