/**
 The locks of the server, the order in which its operations take them, and why no set of tasks can
 block each other for ever.

 Guards are lexically scoped and never held across an await, so an operation is a tree of scopes.
 */
module LockOrder {
  import opened Wrappers

  type Sid = nat
  type ProxyId = nat

  datatype Lock =
    | ProxyIndex
    | DomainIndex
    | Sessions
    | Pending
    | Udp
    | ProxyStats
    | LoginFailures
    | Proxies(sid: Sid)
    | ProxyDomains(sid: Sid)
    | Pools(sid: Sid)
    | UdpSessions(udp: ProxyId)
    | UdpPendingById(udp: ProxyId)
    | UdpPendingClient(udp: ProxyId)
    | PacketPool(udp: ProxyId)

  /** A lock may be taken while another is held only if it ranks strictly higher. */
  function Rank(l: Lock): nat {
    match l
    case ProxyIndex => 0
    case Sessions => 1
    case Proxies(_) => 2
    case Udp => 3
    case ProxyDomains(_) => 4
    case Pools(_) => 5
    case Pending => 6
    case _ => 7
  }

  const MAX_RANK: nat := 7

  // ------------------------------------------------------------------ programs

  /** `Brief` takes a lock and releases it with nothing else taken in between. */
  datatype Program = Skip | Brief(lock: Lock) | Then(first: Program, second: Program) | With(lock: Lock, body: Program)

  /** One after the other. */
  function InTurn(ps: seq<Program>): Program {
    if ps == [] then Skip else Then(ps[0], InTurn(ps[1..]))
  }

  function Times(p: Program, n: nat): Program {
    if n == 0 then Skip else Then(p, Times(p, n - 1))
  }

  predicate Ordered(p: Program, above: int) {
    match p
    case Skip => true
    case Brief(l) => Rank(l) > above
    case Then(a, b) => Ordered(a, above) && Ordered(b, above)
    case With(l, body) => Rank(l) > above && Ordered(body, Rank(l))
  }

  // ------------------------------------------------------------------ the operations of the server

  datatype Operation =
    | SessionForProxy(indexed: bool)
    | SessionForDomain(indexed: bool)
    | Gauges(sids: seq<Sid>, udps: seq<ProxyId>)
    | StatusJson(sids: seq<Sid>, udps: seq<ProxyId>)
    | Login(admitted: bool, replaced: Option<Sid>)
    | Teardown(sid: Sid)
    | Register(sid: Sid, domains: nat, isUdp: bool, stored: bool)
    | RouteAndDispatch(sid: Sid, pops: nat, hit: bool)
    | Dispatch(sid: Sid, pops: nat, hit: bool)
    | ResendCheck
    | SweepPending
    | PoolWorkConn(sid: Sid)
    | ClaimWorkConn(sid: Sid)
    | UdpWorkConn(udp: ProxyId, batches: nat, replies: nat)
    | UdpDatagram(udp: ProxyId, paired: bool, waiting: bool, limited: bool)
    | UdpRemovePending(udp: ProxyId)
    | UdpSweep(udp: ProxyId, expired: nat)

  function LookupProxy(indexed: bool): Program {
    With(ProxyIndex, if indexed then Brief(Sessions) else Skip)
  }

  function LookupDomain(indexed: bool): Program {
    Then(Brief(DomainIndex), if indexed then Brief(Sessions) else Skip)
  }

  function EachSession(sids: seq<Sid>): Program {
    if sids == [] then Skip
    else InTurn([Brief(Proxies(sids[0])), Brief(Pools(sids[0])), EachSession(sids[1..])])
  }

  function EachProxyTable(sids: seq<Sid>): Program {
    if sids == [] then Skip else Then(Brief(Proxies(sids[0])), EachProxyTable(sids[1..]))
  }

  function EachUdp(udps: seq<ProxyId>): Program {
    if udps == [] then Skip else Then(Brief(UdpSessions(udps[0])), EachUdp(udps[1..]))
  }

  /** The gauges: sessions are copied first; the UDP table is held while each proxy's sessions are counted. */
  function GaugesProgram(sids: seq<Sid>, udps: seq<ProxyId>): Program {
    InTurn([Brief(Sessions), EachSession(sids), Brief(Pending), With(Udp, EachUdp(udps))])
  }

  /** What `cleanup` does under the guard of the UDP table, which lives until the end of the function. */
  function CleanupTail(sid: Sid): Program {
    InTurn([Brief(ProxyDomains(sid)), Brief(Pools(sid)), Brief(Pending)])
  }

  function CleanupProgram(sid: Sid): Program {
    InTurn([With(Proxies(sid), Brief(ProxyDomains(sid))), Brief(ProxyStats), Brief(ProxyIndex), Brief(DomainIndex),
            Brief(Proxies(sid)), With(Udp, CleanupTail(sid))])
  }

  function RegisterProgram(sid: Sid, domains: nat, udp: bool, stored: bool): Program {
    InTurn([Brief(Proxies(sid)), Brief(Proxies(sid)), Times(LookupDomain(true), domains),
            if stored then EnterProgram(sid, domains, udp) else Skip])
  }

  function EnterProgram(sid: Sid, domains: nat, udp: bool): Program {
    InTurn([if udp then Brief(Udp) else Skip,
            if domains > 0 then Brief(ProxyDomains(sid)) else Skip,
            Times(Brief(DomainIndex), domains), Brief(Proxies(sid)), Brief(ProxyIndex)])
  }

  function DispatchProgram(sid: Sid, pops: nat, hit: bool): Program {
    InTurn([Brief(ProxyStats), Times(Brief(Pools(sid)), pops), if hit then Skip else Brief(Pending)])
  }

  function RemovePendingProgram(udp: ProxyId): Program {
    Then(Brief(UdpPendingById(udp)), Brief(UdpPendingClient(udp)))
  }

  function DatagramProgram(udp: ProxyId, paired: bool, waiting: bool, limited: bool): Program {
    if paired then InTurn([Brief(UdpSessions(udp)), Brief(PacketPool(udp))])
    else if waiting then
      InTurn([Brief(UdpSessions(udp)), Brief(UdpPendingClient(udp)), Brief(UdpPendingById(udp)),
        Brief(PacketPool(udp))])
    else if limited then InTurn([Brief(UdpSessions(udp)), Brief(UdpPendingClient(udp)), Brief(UdpPendingById(udp))])
    else
      InTurn([Brief(UdpSessions(udp)), Brief(UdpPendingClient(udp)), Brief(UdpPendingById(udp)), Brief(PacketPool(udp)),
              Brief(UdpPendingById(udp)), Brief(UdpPendingClient(udp))])
  }

  function UdpWorkProgram(udp: ProxyId, batches: nat, replies: nat): Program {
    InTurn([LookupProxy(true), Brief(Udp), Brief(Udp), RemovePendingProgram(udp), Brief(UdpSessions(udp)),
            Times(Then(Brief(UdpSessions(udp)), Brief(PacketPool(udp))), batches),
            Times(Brief(UdpSessions(udp)), replies), Brief(UdpSessions(udp))])
  }

  function LoginProgram(admitted: bool, replaced: Option<Sid>): Program {
    InTurn([Brief(LoginFailures), Brief(LoginFailures), Brief(Sessions), if admitted then Brief(Sessions) else Skip,
            if admitted && replaced.Some? then CleanupProgram(replaced.value) else Skip])
  }

  function ProgramOf(op: Operation): Program {
    match op
    case SessionForProxy(indexed) => LookupProxy(indexed)
    case SessionForDomain(indexed) => LookupDomain(indexed)
    case Gauges(sids, udps) => GaugesProgram(sids, udps)
    case StatusJson(sids, udps) =>
      InTurn([Brief(Sessions), EachProxyTable(sids), GaugesProgram(sids, udps), Brief(ProxyStats)])
    case Login(admitted, replaced) => LoginProgram(admitted, replaced)
    case Teardown(sid) => Then(Brief(Sessions), CleanupProgram(sid))
    case Register(sid, domains, udp, stored) => RegisterProgram(sid, domains, udp, stored)
    case RouteAndDispatch(sid, pops, hit) =>
      InTurn([LookupDomain(true), Brief(Proxies(sid)), DispatchProgram(sid, pops, hit)])
    case Dispatch(sid, pops, hit) => DispatchProgram(sid, pops, hit)
    case ResendCheck => Brief(Pending)
    case SweepPending => Brief(Pending)
    case PoolWorkConn(sid) => InTurn([LookupProxy(true), Brief(Udp), Brief(Pools(sid))])
    case ClaimWorkConn(sid) => InTurn([LookupProxy(true), Brief(Udp), Brief(Pending)])
    case UdpWorkConn(udp, batches, replies) => UdpWorkProgram(udp, batches, replies)
    case UdpDatagram(udp, paired, waiting, limited) => DatagramProgram(udp, paired, waiting, limited)
    case UdpRemovePending(udp) => RemovePendingProgram(udp)
    case UdpSweep(udp, expired) =>
      InTurn([Brief(UdpSessions(udp)), Brief(UdpPendingById(udp)), Times(RemovePendingProgram(udp), expired)])
  }

  // ------------------------------------------------------------------ every operation respects the rank

  predicate AllOrdered(ps: seq<Program>, above: int) {
    forall i | 0 <= i < |ps| :: Ordered(ps[i], above)
  }

  lemma {:induction false} InTurnOrdered(ps: seq<Program>, above: int)
    requires AllOrdered(ps, above)
    ensures Ordered(InTurn(ps), above)
  {
    if ps != [] {
      InTurnOrdered(ps[1..], above);
    }
  }

  lemma {:induction false} TimesOrdered(p: Program, n: nat, above: int)
    requires Ordered(p, above)
    ensures Ordered(Times(p, n), above)
  {
    if n > 0 {
      TimesOrdered(p, n - 1, above);
    }
  }

  lemma {:induction false} EachSessionOrdered(sids: seq<Sid>)
    ensures Ordered(EachSession(sids), -1) && Ordered(EachProxyTable(sids), -1)
  {
    if sids != [] {
      EachSessionOrdered(sids[1..]);
      InTurnOrdered([Brief(Proxies(sids[0])), Brief(Pools(sids[0])), EachSession(sids[1..])], -1);
    }
  }

  lemma {:induction false} EachUdpOrdered(udps: seq<ProxyId>)
    ensures Ordered(EachUdp(udps), Rank(Udp))
  {
    if udps != [] {
      EachUdpOrdered(udps[1..]);
    }
  }

  lemma GaugesOrdered(sids: seq<Sid>, udps: seq<ProxyId>)
    ensures Ordered(GaugesProgram(sids, udps), -1)
  {
    hide InTurn;
    EachSessionOrdered(sids);
    EachUdpOrdered(udps);
    InTurnOrdered([Brief(Sessions), EachSession(sids), Brief(Pending), With(Udp, EachUdp(udps))], -1);
  }

  lemma CleanupOrdered(sid: Sid)
    ensures Ordered(CleanupProgram(sid), -1)
  {
    hide InTurn;
    InTurnOrdered([Brief(ProxyDomains(sid)), Brief(Pools(sid)), Brief(Pending)], Rank(Udp));
    InTurnOrdered([With(Proxies(sid), Brief(ProxyDomains(sid))), Brief(ProxyStats), Brief(ProxyIndex),
      Brief(DomainIndex),
                   Brief(Proxies(sid)), With(Udp, CleanupTail(sid))], -1);
  }

  lemma RegisterOrdered(sid: Sid, domains: nat, udp: bool, stored: bool)
    ensures Ordered(RegisterProgram(sid, domains, udp, stored), -1)
  {
    TimesOrdered(LookupDomain(true), domains, -1);
    TimesOrdered(Brief(DomainIndex), domains, -1);
    hide Times, InTurn;
    InTurnOrdered([if udp then Brief(Udp) else Skip,
                   if domains > 0 then Brief(ProxyDomains(sid)) else Skip,
                   Times(Brief(DomainIndex), domains), Brief(Proxies(sid)), Brief(ProxyIndex)], -1);
    InTurnOrdered([Brief(Proxies(sid)), Brief(Proxies(sid)), Times(LookupDomain(true), domains),
                   if stored then EnterProgram(sid, domains, udp) else Skip], -1);
  }

  lemma DispatchOrdered(sid: Sid, pops: nat, hit: bool)
    ensures Ordered(DispatchProgram(sid, pops, hit), -1)
  {
    TimesOrdered(Brief(Pools(sid)), pops, -1);
    hide Times, InTurn;
    InTurnOrdered([Brief(ProxyStats), Times(Brief(Pools(sid)), pops), if hit then Skip else Brief(Pending)], -1);
  }

  lemma DatagramOrdered(udp: ProxyId, paired: bool, waiting: bool, limited: bool)
    ensures Ordered(DatagramProgram(udp, paired, waiting, limited), -1)
  {
    hide InTurn;
    var sessions, client, byId, pool :=
      Brief(UdpSessions(udp)), Brief(UdpPendingClient(udp)), Brief(UdpPendingById(udp)), Brief(PacketPool(udp));
    InTurnOrdered([sessions, pool], -1);
    InTurnOrdered([sessions, client, byId], -1);
    InTurnOrdered([sessions, client, byId, pool], -1);
    InTurnOrdered([sessions, client, byId, pool, byId, client], -1);
  }

  lemma UdpWorkOrdered(udp: ProxyId, batches: nat, replies: nat)
    ensures Ordered(UdpWorkProgram(udp, batches, replies), -1)
  {
    var pair := Then(Brief(UdpSessions(udp)), Brief(PacketPool(udp)));
    TimesOrdered(pair, batches, -1);
    TimesOrdered(Brief(UdpSessions(udp)), replies, -1);
    hide Times, InTurn;
    InTurnOrdered([LookupProxy(true), Brief(Udp), Brief(Udp), RemovePendingProgram(udp), Brief(UdpSessions(udp)),
                   Times(pair, batches), Times(Brief(UdpSessions(udp)), replies), Brief(UdpSessions(udp))], -1);
  }

  lemma LoginOrdered(admitted: bool, replaced: Option<Sid>)
    ensures Ordered(LoginProgram(admitted, replaced), -1)
  {
    hide InTurn;
    if replaced.Some? {
      CleanupOrdered(replaced.value);
    }
    hide CleanupProgram;
    InTurnOrdered([Brief(LoginFailures), Brief(LoginFailures), Brief(Sessions), if admitted then Brief(Sessions)
      else Skip,
                   if admitted && replaced.Some? then CleanupProgram(replaced.value) else Skip], -1);
  }

  /** No operation of the server ever takes a lock while it holds one of the same or a higher rank. */
  lemma OperationsAreOrdered(op: Operation)
    ensures Ordered(ProgramOf(op), -1)
  {
    hide InTurn, Times, CleanupProgram, RegisterProgram, DispatchProgram, DatagramProgram, UdpWorkProgram,
      LoginProgram, GaugesProgram;
    match op
    case Gauges(sids, udps) => GaugesOrdered(sids, udps);
    case StatusJson(sids, udps) =>
      GaugesOrdered(sids, udps);
      EachSessionOrdered(sids);
      InTurnOrdered([Brief(Sessions), EachProxyTable(sids), GaugesProgram(sids, udps), Brief(ProxyStats)], -1);
    case Login(admitted, replaced) => LoginOrdered(admitted, replaced);
    case Teardown(sid) => CleanupOrdered(sid);
    case Register(sid, domains, udp, stored) => RegisterOrdered(sid, domains, udp, stored);
    case RouteAndDispatch(sid, pops, hit) =>
      DispatchOrdered(sid, pops, hit);
      InTurnOrdered([LookupDomain(true), Brief(Proxies(sid)), DispatchProgram(sid, pops, hit)], -1);
    case Dispatch(sid, pops, hit) => DispatchOrdered(sid, pops, hit);
    case PoolWorkConn(sid) => InTurnOrdered([LookupProxy(true), Brief(Udp), Brief(Pools(sid))], -1);
    case ClaimWorkConn(sid) => InTurnOrdered([LookupProxy(true), Brief(Udp), Brief(Pending)], -1);
    case UdpWorkConn(udp, batches, replies) => UdpWorkOrdered(udp, batches, replies);
    case UdpDatagram(udp, paired, waiting, limited) => DatagramOrdered(udp, paired, waiting, limited);
    case UdpSweep(udp, expired) =>
      TimesOrdered(RemovePendingProgram(udp), expired, -1);
      InTurnOrdered([Brief(UdpSessions(udp)), Brief(UdpPendingById(udp)), Times(RemovePendingProgram(udp), expired)],
        -1);
    case _ =>
  }

  // ------------------------------------------------------------------ what is nested in what

  function Under(held: set<Lock>, l: Lock): set<(Lock, Lock)> {
    set h | h in held :: (h, l)
  }

  /** The pairs of a held lock and one taken under it. */
  function Nested(p: Program, held: set<Lock>): set<(Lock, Lock)> {
    match p
    case Skip => {}
    case Brief(l) => Under(held, l)
    case Then(a, b) => Nested(a, held) + Nested(b, held)
    case With(l, body) => Under(held, l) + Nested(body, held + {l})
  }

  /**
   The documented order names only `proxy_index` before `sessions`; the cleanup of a session also
   holds `proxies` over `proxy_domains`, and `udp` over `proxy_domains`, `pools` and `pending`.
   */
  lemma CleanupNestsUnderUdp(sid: Sid)
    ensures Nested(CleanupProgram(sid), {}) ==
            {(Proxies(sid), ProxyDomains(sid)), (Udp, ProxyDomains(sid)), (Udp, Pools(sid)), (Udp, Pending)}
  {
    hide InTurn;
    var tail := [Brief(ProxyDomains(sid)), Brief(Pools(sid)), Brief(Pending)];
    var all := [With(Proxies(sid), Brief(ProxyDomains(sid))), Brief(ProxyStats), Brief(ProxyIndex), Brief(DomainIndex),
                Brief(Proxies(sid)), With(Udp, CleanupTail(sid))];
    var under := {(Udp, ProxyDomains(sid)), (Udp, Pools(sid)), (Udp, Pending)};
    assert Nested(tail[0], {Udp}) + Nested(tail[1], {Udp}) + Nested(tail[2], {Udp}) == under;
    NestedPart(tail, 0, {Udp});
    NestedPart(tail, 1, {Udp});
    NestedPart(tail, 2, {Udp});
    NestedBound(tail, {Udp}, under);
    assert Nested(CleanupTail(sid), {Udp}) == under;
    assert Nested(all[5], {}) == under by { assert {} + {Udp} == {Udp}; }
    assert Nested(all[0], {}) == {(Proxies(sid), ProxyDomains(sid))};
    NestedPart(all, 0, {});
    NestedPart(all, 5, {});
    NestedBound(all, {}, under + {(Proxies(sid), ProxyDomains(sid))});
  }

  lemma {:induction false} NestedPart(ps: seq<Program>, i: nat, held: set<Lock>)
    requires i < |ps|
    ensures Nested(ps[i], held) <= Nested(InTurn(ps), held)
  {
    if i > 0 {
      NestedPart(ps[1..], i - 1, held);
    }
  }

  lemma {:induction false} NestedBound(ps: seq<Program>, held: set<Lock>, bound: set<(Lock, Lock)>)
    requires forall i | 0 <= i < |ps| :: Nested(ps[i], held) <= bound
    ensures Nested(InTurn(ps), held) <= bound
  {
    if ps != [] {
      NestedBound(ps[1..], held, bound);
    }
  }

  // ------------------------------------------------------------------ tasks

  datatype Act = Acquire(lock: Lock) | Release(lock: Lock)

  function Acts(p: Program): seq<Act> {
    match p
    case Skip => []
    case Brief(l) => [Acquire(l), Release(l)]
    case Then(a, b) => Acts(a) + Acts(b)
    case With(l, body) => [Acquire(l)] + Acts(body) + [Release(l)]
  }

  /** A task is what it has still to do and what it holds. */
  datatype Task = Task(rest: seq<Act>, held: set<Lock>)

  predicate Disciplined(rest: seq<Act>, held: set<Lock>) {
    if rest == [] then held == {}
    else
      match rest[0]
      case Acquire(l) => (forall h | h in held :: Rank(h) < Rank(l)) && Disciplined(rest[1..], held + {l})
      case Release(l) => l in held && Disciplined(rest[1..], held - {l})
  }

  lemma {:induction false} OrderedIsDisciplined(p: Program, above: int, held: set<Lock>, more: seq<Act>)
    requires Ordered(p, above) && (forall h | h in held :: Rank(h) <= above) && Disciplined(more, held)
    ensures Disciplined(Acts(p) + more, held)
    decreases p
  {
    hide Disciplined;
    match p
    case Skip => assert Acts(p) + more == more;
    case Brief(l) =>
      ReleaseIsDisciplined(l, held, more);
      assert [] + ([Release(l)] + more) == [Release(l)] + more;
      ScopeIsDisciplined(l, held, [], more);
      ScopeActs(l, [], more);
      assert [Acquire(l)] + [] + [Release(l)] == Acts(p);
    case Then(a, b) =>
      OrderedIsDisciplined(b, above, held, more);
      OrderedIsDisciplined(a, above, held, Acts(b) + more);
      assert Acts(a) + (Acts(b) + more) == Acts(p) + more;
    case With(l, body) =>
      ReleaseIsDisciplined(l, held, more);
      OrderedIsDisciplined(body, Rank(l), held + {l}, [Release(l)] + more);
      ScopeIsDisciplined(l, held, Acts(body), more);
      ScopeActs(l, Acts(body), more);
  }

  lemma ScopeActs(l: Lock, inner: seq<Act>, more: seq<Act>)
    ensures [Acquire(l)] + (inner + ([Release(l)] + more)) == [Acquire(l)] + inner + [Release(l)] + more
  {
  }

  lemma ReleaseIsDisciplined(l: Lock, held: set<Lock>, more: seq<Act>)
    requires l !in held && Disciplined(more, held)
    ensures Disciplined([Release(l)] + more, held + {l})
  {
    assert ([Release(l)] + more)[1..] == more && held + {l} - {l} == held;
  }

  lemma ScopeIsDisciplined(l: Lock, held: set<Lock>, inner: seq<Act>, more: seq<Act>)
    requires (forall h | h in held :: Rank(h) < Rank(l)) && Disciplined(inner + ([Release(l)] + more), held + {l})
    ensures Disciplined([Acquire(l)] + (inner + ([Release(l)] + more)), held)
  {
    var rest := inner + ([Release(l)] + more);
    assert ([Acquire(l)] + rest)[1..] == rest;
  }

  type System = seq<Task>

  predicate Free(ts: System, l: Lock) {
    forall i | 0 <= i < |ts| :: l !in ts[i].held
  }

  /** Task `i` has something to do and does not have to wait for it. */
  predicate CanMove(ts: System, i: nat) {
    i < |ts| && ts[i].rest != [] && (ts[i].rest[0].Acquire? ==> Free(ts, ts[i].rest[0].lock))
  }

  function Move(ts: System, i: nat): System
    requires CanMove(ts, i)
  {
    var t := ts[i];
    ts[i := Task(t.rest[1..], match t.rest[0] case Acquire(l) => t.held + {l} case Release(l) => t.held - {l})]
  }

  ghost predicate Inv(ts: System) {
    && (forall i | 0 <= i < |ts| :: Disciplined(ts[i].rest, ts[i].held))
    && (forall i, j | 0 <= i < j < |ts| :: ts[i].held !! ts[j].held)
  }

  lemma MoveKeepsInv(ts: System, i: nat)
    requires Inv(ts) && CanMove(ts, i)
    ensures Inv(Move(ts, i))
  {
    var us := Move(ts, i);
    assert Disciplined(us[i].rest, us[i].held);
  }

  predicate Finished(ts: System) {
    forall i | 0 <= i < |ts| :: ts[i].rest == []
  }

  /** Follow the chain of waiting from one task to the holder of what it waits for; ranks only grow. */
  lemma {:induction false} SomeoneMoves(ts: System, i: nat) returns (k: nat)
    requires Inv(ts) && i < |ts| && ts[i].rest != []
    ensures CanMove(ts, k)
    decreases if ts[i].rest[0].Acquire? then 1 + MAX_RANK - Rank(ts[i].rest[0].lock) else 0
  {
    if CanMove(ts, i) {
      k := i;
    } else {
      var l := ts[i].rest[0].lock;
      var j: nat :| j < |ts| && l in ts[j].held;
      assert ts[j].rest != [] by { assert Disciplined(ts[j].rest, ts[j].held); }
      k := SomeoneMoves(ts, j);
    }
  }

  function Run(ts: System, sched: seq<nat>): Option<System>
    decreases |sched|
  {
    if sched == [] then Some(ts)
    else if CanMove(ts, sched[0]) then Run(Move(ts, sched[0]), sched[1..])
    else None
  }

  /** One task for every list of operations, in order. */
  function Start(work: seq<seq<Operation>>): System {
    seq(|work|, i requires 0 <= i < |work| => Task(ActsOf(work[i]), {}))
  }

  function ActsOf(ops: seq<Operation>): seq<Act> {
    if ops == [] then [] else Acts(ProgramOf(ops[0])) + ActsOf(ops[1..])
  }

  lemma {:induction false} WorkIsDisciplined(ops: seq<Operation>)
    ensures Disciplined(ActsOf(ops), {})
  {
    if ops != [] {
      WorkIsDisciplined(ops[1..]);
      OperationsAreOrdered(ops[0]);
      OrderedIsDisciplined(ProgramOf(ops[0]), -1, {}, ActsOf(ops[1..]));
    }
  }

  lemma {:induction false} RunKeepsInv(ts: System, sched: seq<nat>)
    requires Inv(ts) && Run(ts, sched).Some?
    ensures Inv(Run(ts, sched).value)
    decreases |sched|
  {
    hide Inv;
    if sched != [] {
      MoveKeepsInv(ts, sched[0]);
      RunKeepsInv(Move(ts, sched[0]), sched[1..]);
    }
  }

  /**
   No deadlock: however many tasks run whatever operations of the server, and however their steps
   have interleaved so far, some task can move unless all have finished.
   */
  lemma NoDeadlock(work: seq<seq<Operation>>, sched: seq<nat>) returns (k: nat)
    requires Run(Start(work), sched).Some? && !Finished(Run(Start(work), sched).value)
    ensures CanMove(Run(Start(work), sched).value, k)
  {
    var ts := Run(Start(work), sched).value;
    forall i | 0 <= i < |work| ensures Disciplined(ActsOf(work[i]), {}) {
      WorkIsDisciplined(work[i]);
    }
    assert Inv(Start(work));
    RunKeepsInv(Start(work), sched);
    var i: nat :| i < |ts| && ts[i].rest != [];
    k := SomeoneMoves(ts, i);
  }

  function Remaining(ts: System): nat {
    if ts == [] then 0 else |ts[0].rest| + Remaining(ts[1..])
  }

  lemma {:induction false} RemainingUpdate(ts: System, i: nat, t: Task)
    requires i < |ts|
    ensures Remaining(ts[i := t]) == Remaining(ts) - |ts[i].rest| + |t.rest|
  {
    if i == 0 {
      assert ts[0 := t][1..] == ts[1..];
    } else {
      assert ts[i := t][1..] == ts[1..][i - 1 := t];
      RemainingUpdate(ts[1..], i - 1, t);
    }
  }

  lemma {:induction false} NothingRemains(ts: System)
    ensures Remaining(ts) == 0 <==> Finished(ts)
  {
    if ts != [] {
      NothingRemains(ts[1..]);
      assert Finished(ts) <==> ts[0].rest == [] && Finished(ts[1..]);
    }
  }

  /** ... so every schedule is finite, and one that cannot be extended has finished all work. */
  lemma {:induction false} EveryScheduleEnds(ts: System, sched: seq<nat>)
    requires Run(ts, sched).Some?
    ensures |sched| + Remaining(Run(ts, sched).value) == Remaining(ts)
    ensures |sched| == Remaining(ts) <==> Finished(Run(ts, sched).value)
    decreases |sched|
  {
    if sched == [] {
      NothingRemains(ts);
    } else {
      RemainingUpdate(ts, sched[0], Move(ts, sched[0])[sched[0]]);
      EveryScheduleEnds(Move(ts, sched[0]), sched[1..]);
    }
  }
}
