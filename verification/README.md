# rfrp: connection matching, UDP sessions and byte framing

rfrp is a reverse proxy: a client behind a NAT keeps one control connection to a public server, users connect
to the server, and every user is joined to a work connection that the client opens on request or has opened in
advance. This project models the server's matching core, the byte framing under it and the small stateful classes
around it, and proves what holds on every run, under every interleaving and for every cut of a byte stream.

`dafny verify dfyconfig.toml` checks the whole project.

## Layout

| files | what they model |
|---|---|
| `ServerSections`, `Matching` | the shared state of the server, one function per lock-protected section, and every interleaving of them |
| `Registry`, `RegistryRefinement` | login, registration and teardown as single steps; such runs are interleavings of `Matching` |
| `Logins` | the session limit when its check and the insertion are two sections |
| `Registrations` | what logins, registrations and teardowns leave in the tables; the table of UDP proxies |
| `ProxyNames` | two sessions with one proxy name |
| `Dispatch`, `DispatchRefinement`, `Server` | one whole dispatch, one whole work-connection arrival, and that they are interleavings of `Matching`; the state as a class updated in place |
| `UdpSections`, `UdpLedger` | a UDP proxy at lock granularity: tables, queues, and where every datagram is |
| `UdpTables`, `UdpProxy`, `UdpWorkConn` | the same with whole handlers as steps; the proxy as a class; a work connection end to end |
| `UdpLosses`, `UdpCutOff` | which steps lose a datagram, and which clients lose all of theirs |
| `Bytes`, `Streams`, `UdpFraming`, `ControlFraming` | byte streams cut in any way, the two frame formats, their writers and readers |
| `PooledStreams` | probing a pooled connection and replaying what the probe consumed |
| `LockOrder` | the lock scopes of the server's operations, and absence of deadlock |
| `Resend`, `PendingDeadlines`, `UdpDeadlines` | the resend loop, and how long entries live in the tables that a periodic sweep empties |
| `RateLimit`, `Counting`, `Heartbeat`, `Retry` | the request limiter, traffic counters, the watchdog, client retries |
| `Numbers`, `Maps`, `Wrappers` | small shared definitions |

## How it is built

The server's tasks share maps behind locks and run at the same time. `ServerSections` gives one function from state
to state for every block that runs under a lock (or as one atomic operation); `Matching` lets any enabled section
happen at any time, so its runs are all interleavings, including late teardowns of replaced sessions, stale work ids
and repeated requests. Properties that hold only when a login or a registration is not interrupted are proved in
`Registry`, where each of them is one step; `RegistryRefinement` and `DispatchRefinement` show that whole steps are
runs of `Matching`, so what holds on every interleaving holds of them. The UDP proxy is treated in the same two
granularities. The classes `Server.ServerState` and `UdpProxy.UdpProxy` update their fields in place as the source
does, and every method's postcondition says that the new state is the specified step of the old one, so the theorems
about those steps apply to them. The waiting loop of the watchdog (`Heartbeat.Watchdog`) is shown to be a run of the
watchdog's state machine.

Fields named as history (`users`, `works`, `issued`, `bridged`; `arrivals`, `fate`, `written`, `opener`;
`movedIn`, `movedOut`; `sent`, `heard`) record what has happened and decide nothing.

## What the code does not guarantee

Each of these is stated as a lemma together with the exact condition under which the code does meet the property.

- Every received datagram is delivered or counted as dropped: `UdpLosses.LostExactly`. On every interleaving a datagram
  goes uncounted if and only if it is missed (the receive loop looks for the sender of a pending entry that is gone) or
  discarded (the queue that holds it is dropped, by its work connection or with its pending entry, or the write of the
  batch it is in fails). `UdpLedger.MissedExactly` says in terms of the tables when the first happens: exactly when the
  removal of the entry has begun; `UdpLedger.TakeoverLosesUncounted` is such a run, with room in the queue. With
  uninterrupted handlers nothing is ever missed, and `UdpLosses.HandlersLoseExactly` gives the remaining causes: an entry
  that fails or is swept as too old (`UdpLosses.SweepLosesUncounted`), a work connection that ends, a write that fails.
- A client whose datagram was missed is served again later: `UdpCutOff.CutOffExactly`. A client loses every later
  datagram, on every continuation, if and only if it is mapped to a work id that nobody will clear and has no session
  and no work connection about to make one. `UdpCutOff.StuckExactly`: it gets into that map if and only if the entry of
  its new id is taken and cleared before the receive loop has mapped the client to it. That takes a work connection
  which names the id before it is asked for (`UdpCutOff.EarlyConnectionCutsOff`); with uninterrupted handlers it never
  happens (`UdpCutOff.HandlersStickNone`).
- The session limit: `Logins.InsertionKeepsLimitExactly`. It is checked in one section and the session inserted in
  another. An insertion keeps the limit if and only if the run id is registered or there is still room when it
  happens; `Logins.OvershootIsBounded` bounds the excess by the logins under way together less one, and
  `Logins.TwoPhaseLoginOvershoots` reaches that bound for every limit and every number of logins.
- Every registered proxy can be found by its name: `Registry.RegistrationKeepsFindableIff`. Names are only checked
  within a session, so a registration loses another session's proxy if and only if the names collide;
  `ProxyNames.CollisionLosesProxy` reaches such a state for any two clients, any name and any two ports.
- The table of UDP proxies holds exactly the UDP proxies of registered sessions: `Registrations.TeardownKeepsUdpExactly`
  and `LoginKeepsUdpExactly`. It is keyed by name alone, so a session that leaves takes another's entry out if and only
  if a registered session has a UDP proxy of the same name; `Registrations.UdpTableIsExact` holds on every run without
  such a pair.
- Whole datagrams before a malformed one are delivered: `UdpFraming.LossExactly`. For every limit of two or more (both
  callers use 32) the batch reader can lose datagrams if and only if a length above the limit follows at least one whole
  datagram; `UdpFraming.LosingCutLoses` gives the cut. It loses at most one less than it asks for
  (`UdpFraming.LossIsBounded`); the one-at-a-time reader loses none. `UdpFraming.OversizedLosesItsBatch` is the shortest
  input.
- A peer that has answered is not declared dead: `Heartbeat.AnsweredRoundDiesExactly`. The last echoed timestamp is
  overwritten rather than maximised, so an answered round can still be lost if and only if an older heartbeat exists to
  be echoed again, and it is lost only by such an echo (`Heartbeat.OnlyBackwardEchoKills`). A peer whose echoes never go
  back is safe (`Heartbeat.NeverFalselyDead`). `Heartbeat.RepeatedEchoKills` is the shortest run.
- `LockOrder.CleanupNestsUnderUdp`: the documentation of the shared state (`crates/rfrps/src/state.rs:3-17`) names
  `proxy_index` before `sessions` as the only nesting; the cleanup also nests `proxy_domains` under `proxies`, and
  `proxy_domains`, `pools` and `pending` under `udp`. The model follows the code.

## Model

| member | source | states |
|---|---|---|
| Matching.StepKeepsInv | crates/rfrps/src/listener.rs:265-387 | every section, in every state, keeps the invariant that ties users, work streams, pools, pending entries, ids and bridges together |
| Matching.MatchingSafety | crates/rfrps/src/work.rs:48-106 | on every interleaving a user is only bridged to a work stream that presented the token of the session the user was dispatched on and named its proxy; with a work id, the id had been issued for this user |
| Matching.BridgedAtMostOnce | crates/rfrps/src/work.rs:92-118 | no user stream and no work stream is ever bridged twice |
| Matching.UserInOnePlace | crates/rfrps/src/listener.rs:273-350 | an accepted user is in the pending table under exactly one id while it waits and under none otherwise, and is bridged exactly when the history says so |
| Matching.WorkInOnePlace | crates/rfrps/src/work.rs:72-118 | a pool holds exactly the authenticated streams recorded as pooled for it, each once, and none that was ever bridged |
| Matching.ActiveCountsLiveUsers | crates/rfrps/src/listener.rs:273-293 | the active counter is the number of live user streams and stays between 0 and the maximum |
| Matching.PoolsStayBounded | crates/rfrps/src/work.rs:73-90 | a pool never holds more than 32 streams, all with its session's token, its proxy and the reserved id |
| Matching.IdsAreNeverReused | crates/rfrps/src/state.rs:195-198 | a new work id is not 0, above every id issued before, and stays issued to its user on every continuation |
| Matching.RunIsLater | crates/rfrps/src/work.rs:92-118 | along every run issued ids and bridged pairs are only added, the id counter only grows, and sessions keep their token and run id |
| Dispatch.PopLiveTakesNewest | crates/rfrps/src/listener.rs:224-238 | the pop loop takes the newest stream that answers the probe, closes exactly the dead ones above it and leaves those below |
| Dispatch.DispatchOutcome | crates/rfrps/src/listener.rs:265-350 | a user is refused at the limit, bridged to the newest live pooled stream, or left waiting under an id nobody had |
| Dispatch.ClaimSucceedsExactly | crates/rfrps/src/work.rs:92-113 | an authenticated on-demand work connection takes the user of the id it names exactly when that entry has its session and its proxy, whatever the time: the two are bridged; otherwise it is closed and nothing else changes |
| Dispatch.PoolingSucceedsExactly | crates/rfrps/src/work.rs:72-90 | an authenticated pool connection joins its pool exactly when the pool holds fewer than 32 |
| Dispatch.StrangersAreClosed | crates/rfrps/src/work.rs:48-58 | a work connection whose proxy leads to no session, or whose token is not that session's, is closed and changes nothing else |
| Dispatch.WaitingUserIsServed | crates/rfrps/src/work.rs:92-118 | in every reachable state a waiting user is bridged by the first connection with its session's token, its proxy and its id, however long it has waited |
| Dispatch.DispatchedUserIsServed | crates/rfrps/src/listener.rs:298-350 | a dispatched user that finds no live pooled stream waits, and after any interleaving, while it still waits, is bridged by the first connection with the token its session had, its proxy and its id |
| Dispatch.UdpHandOverExactly | crates/rfrps/src/work.rs:60-70 | a UDP proxy is handed every authenticated on-demand connection and no pool connection |
| Registry.StepKeepsRegInv | crates/rfrps/src/control.rs:448-486 | login, registration, teardown and all traffic keep registry, indexes and session tables consistent |
| Registry.IndexAgreesWithScan | crates/rfrps/src/state.rs:251-260 | the domain index answers what searching the domains of every registered session would |
| Registry.DomainsHaveOneOwner | crates/rfrps/src/listener.rs:59-82 | no normalised domain is listed by two proxies of registered sessions |
| Registry.OwnedIsListed | crates/rfrps/src/listener.rs:141-164 | a session owns a domain through a proxy exactly when that proxy lists it |
| Registry.RouteLandsExactly | crates/rfrps/src/vhost.rs:158-189 | a host is routed to a session and proxy exactly when that session is registered and the proxy has the expected kind and lists the host |
| Registry.RoutingIgnoresCase | crates/rfrps/src/vhost.rs:165-167 | two hosts that differ only in the case of letters are routed alike and are taken alike when a proxy asks for them |
| Registry.LowerIsSameHost | crates/rfrps/src/vhost.rs:165-167 | two hosts are normalised to the same key if and only if they have one length and differ, place by place, at most in the case of a letter |
| Registry.RegistryStaysBounded | crates/rfrps/src/control.rs:119-168 | at most one session per run id, never more than the limit, at most 128 proxies each |
| Registry.LateTeardownIsHarmless | crates/rfrps/src/control.rs:415-423 | unregistering and cleaning up a replaced session leaves the registry, both indexes, the UDP table, all other sessions and their pending users as they are |
| Registry.ReplacedSessionOwnsNothing | crates/rfrps/src/control.rs:158-168 | after a login under a taken run id the replaced session has no proxy, domain or pool, and no entry of the shared tables is its |
| Registry.ProxyIndexIsSound | crates/rfrps/src/state.rs:225-231 | an indexed proxy belongs to a registered session that has it |
| Registry.RegistrationKeepsFindableIff | crates/rfrps/src/listener.rs:46-54 | a registration keeps every proxy findable if and only if no other registered session has a proxy of that name |
| ProxyNames.CollisionLosesProxy | crates/rfrps/src/listener.rs:46-54 | for any two run ids, any name and any two allowed ports: with each session on a port of its own, a reachable state in which every proxy can be found and an accepted registration loses one |
| Registry.TeardownKeepsFindable | crates/rfrps/src/control.rs:448-486 | a teardown loses nobody else's proxy |
| Logins.InsertionKeepsLimitExactly | crates/rfrps/src/control.rs:150-165 | an insertion keeps the session limit exactly when its run id is registered or there is room at that moment |
| Logins.OvershootIsBounded | crates/rfrps/src/control.rs:119-168 | on every interleaving of checks, insertions and all other sections, the registry exceeds its limit by at most the largest number of logins under way together, less one |
| Logins.TwoPhaseLoginOvershoots | crates/rfrps/src/control.rs:122-165 | for every limit and every number of logins a run reaches that bound, and its server state is reachable in `Matching` |
| Logins.ReachableServer | crates/rfrps/src/control.rs:119-168 | what is reached with separate checks is reached by server sections alone |
| RegistryRefinement.AtomicRunsAreInterleavings | crates/rfrps/src/control.rs:119-168 | every state reached with whole logins, registrations and teardowns is reached section by section |
| RegistryRefinement.StepIsRun | crates/rfrps/src/listener.rs:40-174 | each such step is its own sections in program order |
| DispatchRefinement.DispatchIsRun | crates/rfrps/src/listener.rs:265-350 | a dispatch is the uninterrupted run of its lock-sized sections, dead pooled streams included |
| DispatchRefinement.HandleWorkIsRun | crates/rfrps/src/work.rs:26-121 | so is the arrival of a work connection |
| DispatchRefinement.WholeStepsStayReachable | crates/rfrps/src/listener.rs:265-350 | both lead from reachable states to reachable states, where everything proved of all interleavings holds |
| Server.ServerState.DispatchUserConnection | crates/rfrps/src/listener.rs:265-350 | updates the state in place as the specified dispatch; accepted exactly below the limit |
| Server.ServerState.PopLivePooled | crates/rfrps/src/listener.rs:224-238 | the loop ends and leaves the state the specified pop leaves |
| Server.ServerState.SweepExpiredPending | crates/rfrps/src/listener.rs:391-410 | removing the expired entries one by one removes exactly them |
| Server.ServerState.HandleWorkConnection | crates/rfrps/src/work.rs:26-121 | authentication, UDP hand-over, pooling or claiming, as specified |
| Server.ServerState.ClaimPending | crates/rfrps/src/work.rs:92-113 | takes the entry of the right session and proxy, or nothing |
| Server.ServerState.CleanupSession | crates/rfrps/src/control.rs:448-486 | the whole cleanup in place is the specified one |
| Server.ServerState.HandleLogin | crates/rfrps/src/control.rs:119-168 | refused with the right error and no change, or swapped in with the old session cleaned up |
| Registry.RegistrationAcceptedExactly | crates/rfrps/src/listener.rs:46-140 | accepted exactly with room, a new name, a domain for a vhost proxy, no domain that any registered session owns, and an allowed port that could be bound; a refusal names the first of these that fails |
| Registrations.RegisterOutcome | crates/rfrps/src/listener.rs:139-174 | an accepted registration enters exactly the proxy asked for, its hosts in lower case, in the session, the name index and, for UDP, the UDP table |
| Registrations.RegisteredHostsRouteExactly | crates/rfrps/src/vhost.rs:158-189 | after a registration a host reaches the new proxy exactly when the registration lists it, in whatever case, and the kind is expected |
| Registrations.DomainOwnedExactly | crates/rfrps/src/listener.rs:59-82 | after a registration a host is taken exactly when it was before or the registration lists it, in whatever case |
| Registrations.LoginRefusedExactly | crates/rfrps/src/control.rs:119-140 | a login is refused exactly under a run id that is not registered, for the number of sessions first and for those of the same address second |
| Registrations.LoginOutcome | crates/rfrps/src/control.rs:142-168 | an accepted login leaves a registered session with the run id, address and token given and empty tables, and every session but the one replaced as it was |
| Registrations.TokenGuardsProxy | crates/rfrps/src/work.rs:48-58 | after a login with a token and the registration of a proxy, a work connection for it is authenticated for that session exactly with that token |
| Registrations.TeardownOutcome | crates/rfrps/src/control.rs:415-486 | exactly what a teardown removes from the registry, the indexes, the UDP table, the pending table and the pools, and that it removes nothing else |
| Registrations.TeardownKeepsUdpExactly | crates/rfrps/src/control.rs:448-486 | a teardown keeps the UDP table exact if and only if no other registered session has a UDP proxy of the same name |
| Registrations.LoginKeepsUdpExactly | crates/rfrps/src/control.rs:158-168 | so does a login that replaces a session; one under a new run id always does |
| Registrations.UdpTableIsExact | crates/rfrps/src/work.rs:60-70 | on every run without two registered sessions sharing a UDP name, a proxy name is in the UDP table exactly when a registered session has a UDP proxy of that name |
| Server.ServerState.RegisterProxy | crates/rfrps/src/listener.rs:40-174 | refused without a change, or entered in all four tables |
| Server.ServerState.RouteAndDispatch | crates/rfrps/src/vhost.rs:158-189 | dispatched on the routed session and proxy, or the state is unchanged |
| UdpLedger.StepKeepsInv | crates/rfrps/src/udp.rs:212-321 | every lock-sized step of the receive loop, the removals and the work connections keeps the ledger and the links between the tables |
| UdpLedger.DatagramInOnePlace | crates/rfrps/src/udp.rs:212-321 | on every interleaving each received datagram is in exactly one place, at most once, and it is the place its ledger entry names; a datagram in no container is in hand, dropped, missed under an id, or discarded with a named queue |
| UdpLedger.DropsAreCounted | crates/rfrps/src/udp.rs:238-280 | the drop counter is the number of dropped datagrams; at most 256 pending entries |
| UdpLedger.OutputFollowsArrivals | crates/rfrps/src/udp.rs:378-441 | what a work connection has written, and what is to follow, is an in-order subsequence without repetition of its client's datagrams, starting with the one that opened it |
| UdpLedger.FatesAreFinal | crates/rfrps/src/udp.rs:378-441 | a written, dropped, missed or discarded datagram stays so, and output is only appended to |
| UdpLedger.MissedExactly | crates/rfrps/src/udp.rs:251-269 | in every reachable state, fetching the sender for a waiting client misses, uncounted, exactly when the removal of its entry has begun |
| UdpLedger.TakeoverLosesUncounted | crates/rfrps/src/udp.rs:343-352 | a run with such a loss although the queue is waiting and has room |
| UdpLosses.LostExactly | crates/rfrps/src/udp.rs:212-352 | for every reachable state, step and datagram: the step makes it missed, discarded or dropped exactly under the stated conditions, and only dropping is counted |
| UdpLosses.LossesAreExplained | crates/rfrps/src/udp.rs:343-441 | in every reachable state a missed datagram was looked up under an id of its own client whose entry has been taken, a discarded one was in a queue of its own client that has ended |
| UdpLosses.HandlersLoseExactly | crates/rfrps/src/udp.rs:212-441 | for every whole handler: exactly which waiting datagrams it discards; it misses none, and a received one is queued or counted |
| UdpLosses.SweepLosesUncounted | crates/rfrps/src/udp.rs:330-339 | for every client, id and timeout a waiting datagram goes uncounted with its expired entry |
| UdpCutOff.StuckExactly | crates/rfrps/src/udp.rs:291-300 | on every interleaving a client gets stuck on an id exactly when the entry is taken and cleared between the two insertions, and then for good |
| UdpCutOff.CutOffExactly | crates/rfrps/src/udp.rs:250-300 | in every reachable state: all later datagrams of a client are missed on every continuation exactly when it is stuck, without session and without a work connection about to make one |
| UdpCutOff.CanBeServed | crates/rfrps/src/udp.rs:212-321 | for every other client, whatever the loop has in hand, some continuation queues or counts a later datagram |
| UdpCutOff.EarlyConnectionCutsOff | crates/rfrps/src/udp.rs:378-391 | for every client and id a run that cuts the client off |
| UdpCutOff.HandlersStickNone | crates/rfrps/src/udp.rs:212-352 | with whole handlers no client is ever stuck |
| UdpTables.HandlersAreInterleavings | crates/rfrps/src/udp.rs:212-352 | every state reached with whole handlers is reached by lock-sized steps |
| UdpTables.TablesAreInverse | crates/rfrps/src/udp.rs:251-300 | the pending tables are inverse to each other, at most 256 entries, one per client, none for a paired client |
| UdpTables.DatagramOutcome | crates/rfrps/src/udp.rs:212-321 | the queue of the session, else that of the pending entry, else a new entry: refused and counted only at 64 waiting or 256 pending, never lost uncounted, never sent to a closed queue |
| UdpTables.NoDatagramVanishes | crates/rfrps/src/udp.rs:212-321 | on every run of handlers a datagram is queued unless the place for it is full, and counted then |
| UdpTables.DiscardOneMore | crates/rfrps/src/udp.rs:330-339 | removing expired entries one by one, in any order, is removing them all |
| UdpProxy.UdpProxy.HandleDatagram | crates/rfrps/src/udp.rs:212-321 | in place, the specified handler |
| UdpProxy.UdpProxy.RemovePending | crates/rfrps/src/udp.rs:343-352 | removes the entry, and the client only while it is mapped to this id |
| UdpProxy.UdpProxy.Sweep | crates/rfrps/src/udp.rs:324-340 | in place, the specified sweep; nothing too old is left |
| UdpProxy.UdpProxy.AllocUdpPacket | crates/rfrps/src/udp.rs:61-69 | the packet holds the datagram whatever the recycled buffer held |
| UdpProxy.UdpProxy.RecyclePackets | crates/rfrps/src/udp.rs:72-83 | buffers go back in order while the pool has room for 256; the batch is empty either way |
| UdpProxy.UdpProxy.TakeBatch | crates/rfrps/src/udp.rs:405-409 | the oldest waiting datagrams leave the queue as the batch |
| UdpProxy.UdpProxy.FinishBatch | crates/rfrps/src/udp.rs:410-415 | written and recycled, or discarded |
| UdpProxy.UdpProxy.CloseWorkConnection | crates/rfrps/src/udp.rs:438-440 | the client's session entry and the queue go |
| UdpWorkConn.ServeBatch | crates/rfrps/src/udp.rs:403-415 | after every turn the stream has received exactly the framed datagrams recorded as written |
| UdpWorkConn.DatagramsArriveInOrder | crates/rfrps/src/udp.rs:378-441 | for every run, cut and limit the other end reads exactly what was written, in the order of the client's datagrams |
| Bytes.EncodeDecoded | crates/rfrp-common/src/util/udp.rs:107-107 | a decoded length encodes to the same four bytes |
| Bytes.DecodeEncoded | crates/rfrp-common/src/util/udp.rs:107-107 | an encoded length decodes to itself |
| UdpFraming.ParseWire | crates/rfrp-common/src/util/udp.rs:99-132 | what was framed parses back, whatever follows |
| UdpFraming.ParseExactly | crates/rfrp-common/src/util/udp.rs:35-65 | every byte string is frames of at most 65507 bytes and a rest that is empty, announces more, or is not a whole frame |
| UdpFraming.WireAppend | crates/rfrp-common/src/util/udp.rs:112-132 | the grouping into writes leaves no trace on the wire |
| UdpFraming.AppendUdpFrame | crates/rfrp-common/src/util/udp.rs:99-110 | appends a whole frame, or nothing for a datagram above 65507 bytes |
| UdpFraming.FrameLayout | crates/rfrp-common/src/util/udp.rs:99-110 | the length in four bytes, the most significant first, then the datagram |
| UdpFraming.WriteUdpFramesBuffered | crates/rfrp-common/src/util/udp.rs:116-132 | one write of all frames, or nothing at all when one datagram is too large |
| UdpFraming.BatchIsParse | crates/rfrp-common/src/util/udp.rs:154-197 | one call hands over what the bytes ahead start with and leaves all others ahead; an interrupted call loses nothing |
| UdpFraming.CallsAreParse | crates/rfrp-common/src/util/udp.rs:154-197 | any sequence of calls reads exactly the frames of the stream in order, ends as the stream does, and each call makes progress |
| UdpFraming.BatchingIsTransparent | crates/rfrp-common/src/util/udp.rs:99-197 | for every list, cut, limit and interruption the calls deliver exactly the list and then a clean end |
| UdpFraming.BatchAgainstSingle | crates/rfrp-common/src/util/udp.rs:35-197 | on any byte stream the batch reader's frames are a prefix of the single reader's, both end alike, equal unless a length is too large |
| UdpFraming.LossExactly | crates/rfrp-common/src/util/udp.rs:163-181 | for a fresh reader that always asks for the same number, two or more: a byte string is delivered in full under every cut exactly when no length above the limit follows a whole datagram; then also with varying limits |
| UdpFraming.LosingCutLoses | crates/rfrp-common/src/util/udp.rs:163-181 | for every other string a cut with which the last datagram before the bad length is lost |
| UdpFraming.LossIsBounded | crates/rfrp-common/src/util/udp.rs:163-181 | on every byte string, with every cut, fewer datagrams than one call asks for are lost, and only to a bad length |
| UdpFraming.OversizedLosesItsBatch | crates/rfrp-common/src/util/udp.rs:163-181 | the shortest input that loses a datagram |
| UdpFraming.UdpFrameBuf.ReadBatch | crates/rfrp-common/src/util/udp.rs:154-197 | the nested loops compute the specified call, interruptions included |
| UdpFraming.ReadUdpFrameInto | crates/rfrp-common/src/util/udp.rs:35-65 | one frame, clean end, truncation or bad length, with partial header reads |
| ControlFraming.RoundTripExactly | crates/rfrp-common/src/protocol/frame.rs:48-98 | an encoded frame decodes to itself exactly when its version is 2 |
| ControlFraming.ParseExactly | crates/rfrp-common/src/protocol/frame.rs:48-80 | every byte string is encoded frames of version 2 and a rest that is refused for its version, after that for a length above 16 MiB, or else is not a whole frame yet |
| ControlFraming.ParseIsStable | crates/rfrp-common/src/protocol/frame.rs:48-80 | what has been decoded does not change with what arrives later |
| ControlFraming.ChunkingIsInvisible | crates/rfrp-common/src/protocol/frame.rs:48-80 | for every byte string and cut, decoding piece by piece gives the frames and the error of decoding at once, with a bounded buffer |
| ControlFraming.FramesSurviveChunking | crates/rfrp-common/src/protocol/frame.rs:48-98 | every list of current frames comes out as it was, for every cut |
| ControlFraming.Decode | crates/rfrp-common/src/protocol/frame.rs:48-80 | consumes exactly the decoded frame; nothing on `None` or an error; after `None` the buffer is below a header and 16 MiB |
| ControlFraming.Encode | crates/rfrp-common/src/protocol/frame.rs:86-98 | appends the frame, or nothing when the payload is above 16 MiB |
| ControlFraming.FrameLayout | crates/rfrp-common/src/protocol/frame.rs:86-98 | where version, type, length and payload of an encoded frame are |
| ControlFraming.DecodeAll | crates/rfrp-common/src/protocol/frame.rs:48-80 | repeated decoding yields the one-shot meaning of the buffer |
| ControlFraming.ReadOneFrame | crates/rfrp-common/src/protocol/frame.rs:105-127 | the frame the codec would decode first, the rest left in the stream; errors as in the codec |
| PooledStreams.ProbeIsTransparent | crates/rfrps/src/listener.rs:243-261 | for every sequence of buffer sizes the probed stream yields the original bytes and ends as the original |
| PooledStreams.ProbeFindsTheDead | crates/rfrps/src/listener.rs:243-261 | a connection is dropped exactly when a read would end or fail at once |
| PooledStreams.PrependStream.PollRead | crates/rfrp-common/src/util/stream.rs:34-48 | the replayed bytes first, then the inner stream |
| PooledStreams.SessionPool.PopLivePooled | crates/rfrps/src/listener.rs:224-238 | ends, drops exactly the dead connections above the newest live one, and returns that one with all its bytes |
| LockOrder.OperationsAreOrdered | crates/rfrps/src/control.rs:448-486 | no operation takes a lock while holding one of the same or a higher rank |
| LockOrder.CleanupNestsUnderUdp | crates/rfrps/src/control.rs:451-485 | exactly which locks the cleanup nests |
| LockOrder.NoDeadlock | crates/rfrps/src/state.rs:3-17 | any number of tasks running any operations: after every interleaving some task can move until all have finished |
| LockOrder.EveryScheduleEnds | crates/rfrps/src/state.rs:3-17 | every schedule is finite and one that cannot be extended has finished all work |
| RateLimit.EvictionIsInvisible | crates/rfrp-common/src/util/ratelimit.rs:29-49 | the evicting table decides every history as one that never forgets |
| RateLimit.EvictsExactly | crates/rfrp-common/src/util/ratelimit.rs:29-49 | a new address takes exactly the expired entries out of a table of 4096 or more, and nothing out of a smaller one |
| RateLimit.AtMostTwiceMax | crates/rfrp-common/src/util/ratelimit.rs:29-49 | at most twice the limit per address in any closed interval of one window |
| RateLimit.RefusedOnlyWhenFull | crates/rfrp-common/src/util/ratelimit.rs:29-49 | a refusal means the limit was used up less than a window ago |
| RateLimit.RateLimiter.AllowRequest | crates/rfrp-common/src/util/ratelimit.rs:29-49 | table and answer are the specified ones |
| Counting.TrafficIsConserved | crates/rfrp-common/src/util/counting.rs:74-161 | between any two atomic additions, for all streams and for every proxy: counters plus what is counted and not yet added are the bytes moved and the open streams; no stream keeps 256 KiB to itself; the active counters are the open streams when no operation is under way |
| Counting.ExactWhenAllDropped | crates/rfrp-common/src/util/counting.rs:119-127 | when all streams are dropped and have made their additions the counters are exact and none is active |
| Counting.AdditionsAddUp | crates/rfrp-common/src/util/counting.rs:80-98 | an operation's additions can be made one by one and amount to its report |
| Counting.ReportedWithin32 | crates/rfrp-common/src/util/counting.rs:100-116 | once a second has passed a report follows within 32 operations |
| Counting.NoEarlyReport | crates/rfrp-common/src/util/counting.rs:100-116 | nothing is reported below 256 KiB as long as fewer than 32 operations were counted or no second has passed |
| Counting.ObjectIsStream | crates/rfrp-common/src/util/counting.rs:80-98 | what the object adds to the counters in one operation is what the stream of the joint system adds in its single additions, per proxy and in all |
| Counting.CountingStream.AfterRead | crates/rfrp-common/src/util/counting.rs:129-147 | bytes read are in the read counters or still held back as read, bytes written likewise, in the global counters and the proxy's |
| Counting.CountingStream.AfterWrite | crates/rfrp-common/src/util/counting.rs:149-166 | the same for bytes written |
| Counting.CountingStream.MaybeFlushNow | crates/rfrp-common/src/util/counting.rs:100-116 | thresholds and throttling as specified; what was held back as read goes to the read counters, as written to the write counters, global and extra alike |
| Counting.CountingStream.Drop | crates/rfrp-common/src/util/counting.rs:119-127 | all bytes held back are added to the counters of their direction, and both active counters go down by one |
| Heartbeat.SilenceIsNoticed | crates/rfrps/src/control.rs:248-301 | on every run a connection is dead once interval and timeout have passed since the newest heartbeat was last answered, whatever else is echoed |
| Heartbeat.NeverFalselyDead | crates/rfrpc/src/control.rs:104-154 | a peer that echoes every heartbeat within the timeout, as often as it likes but never going back to an older one, is never declared dead |
| Heartbeat.AlwaysMoves | crates/rfrpc/src/control.rs:104-154 | the watchdog can always wait or act until it is dead |
| Heartbeat.OnlyBackwardEchoKills | crates/rfrps/src/control.rs:365-373 | on every run an answered round is given up only after an echo of an older heartbeat |
| Heartbeat.BackwardEchoKills | crates/rfrps/src/control.rs:365-373 | from every reachable waiting state one echo of any older heartbeat has a continuation that gives the round up |
| Heartbeat.AnsweredRoundDiesExactly | crates/rfrps/src/control.rs:365-373 | an answered round can be lost exactly when an older heartbeat was ever sent |
| Heartbeat.RepeatedEchoKills | crates/rfrps/src/control.rs:365-373 | for every configuration, a peer that answers both heartbeats at once and repeats the first answer is declared dead |
| Heartbeat.Watchdog.AwaitPong | crates/rfrps/src/control.rs:279-294 | the loop is a run of the watchdog, through any number of answers stored before it looks; it times out only when every answer it sees before the deadline is too old, and is answered only by one it sees; a left-over note only costs a turn |
| Resend.RequestUntilAnswered | crates/rfrps/src/listener.rs:355-385 | the resend loop ends after at most ceil(10 s / interval) + 1 requests, spaced by the interval, and stops when a send fails or the user no longer waits |
| PendingDeadlines.NoUserWaitsTooLong | crates/rfrps/src/server.rs:172-194 | on every interleaving with a punctual sweep no user has waited 11 seconds |
| PendingDeadlines.WaitingEndsExactly | crates/rfrps/src/listener.rs:391-410 | an entry leaves the pending table exactly when claimed for its session and proxy, when its request fails, when its session ends, or when a sweep finds it past its timeout |
| PendingDeadlines.SweepsSpareTheYoung | crates/rfrps/src/server.rs:172-194 | a punctual sweep takes no entry younger than ten seconds |
| UdpDeadlines.EntriesStayYoung | crates/rfrps/src/udp.rs:171-172 | with punctual sweeps no session idles as long as its timeout and max(1 s, a quarter of it), and no pending entry is older than 10 s and that |
| UdpDeadlines.EntriesEndExactly | crates/rfrps/src/udp.rs:324-340 | for every handler: a session ends exactly with a work connection of its client or when swept as idle too long, a pending entry exactly when taken, failed or swept as too old |
| UdpDeadlines.SweepsSpareTheYoung | crates/rfrps/src/udp.rs:171-172 | a punctual sweep takes no session used within its timeout and no pending entry younger than ten seconds |
| UdpDeadlines.StampExactly | crates/rfrps/src/udp.rs:403-420 | for every handler: a session's last activity becomes the present exactly with a datagram of its client, a batch taken, a reply forwarded or its start |
| UdpDeadlines.StampIsLastUse | crates/rfrps/src/udp.rs:212-236 | on every run of handlers the last activity of a session is the time of the last of these |
| Retry.RetryKeepsThePartition | crates/rfrpc/src/client.rs:573-618 | registered and left-over proxies partition the list in order and a registered one is never submitted again |
| Retry.DelayIsCappedPower | crates/rfrpc/src/client.rs:585-592 | the delay of a round is the capped power of two, for the first round exactly when the initial delay is within the cap, as both callers' delays are (2 and 30 seconds under a cap of 30) |
| Retry.SleepsAreDelays | crates/rfrpc/src/client.rs:585-592 | the loop sleeps exactly those delays, one per round |
| Retry.RetryTimeIsBounded | crates/rfrpc/src/client.rs:550-559 | 8 rounds and 150 seconds at most |
| Retry.PersistentRetryTimeIsBounded | crates/rfrpc/src/client.rs:560-569 | 20 rounds of 30 seconds at most |
| Retry.RetryLoop | crates/rfrpc/src/client.rs:573-618 | the loop makes exactly the log of which the lemmas below speak |
| Retry.RetryExactly | crates/rfrpc/src/client.rs:573-618 | every completed round submits exactly the proxies not registered before it, in order, up to a lost connection; the loop ends as done exactly when none is left, as lost exactly after a lost connection, as stopped exactly when told so before a round, and otherwise only after all rounds |
| Retry.GivingUpTakesAllRounds | crates/rfrpc/src/client.rs:550-569 | a loop that gives up has gone through all of its 8, or 20, rounds |
| Retry.Reconnect | crates/rfrpc/src/client.rs:140-188 | the wait after an attempt is two to the power of the unstable streak, at most 30 seconds |
| Retry.StreakIsSinceStable | crates/rfrpc/src/client.rs:155-166 | the streak goes back to the last session that was established and lasted 60 seconds |

## Left out

- Sockets, TLS, keepalive, signals and the tokio scheduler: environment; a bind succeeds or fails, a read returns any piece, the end or an error, and any enabled step may come next.
- JSON payloads, configuration files and the HTTP head parser: libraries that are not part of this model.
- Dashboard, status and metrics pages, logging: presentation. `proxy_stats` appears only as a lock and as the extra counters of `Counting`.
- Login-failure window, token comparison in constant time, proxy error texts, field validation: they would only add easy members.
- Work ids and byte counters are unbounded; the 64-bit wrap-around is not modelled.
- Session objects are rows keyed by session id; sharing of one object by several tasks is modelled by that key, not by references.
- A pending entry always has its user stream; the source's `Option` there is never empty when the entry is in the table.
- Registry.RoutingIgnoresCase: domain names are lowered as ASCII; letters outside ASCII, which the source lowers too, are not covered.
- Whole-login and whole-registration steps (`Registry`) assume that a login and a registration are not interrupted and that a replaced session registers nothing more; `Matching` assumes neither. Whole-handler steps (`UdpTables`) assume the same of the handlers; `UdpLedger` does not.
- The per-address session limit is checked as in the source but no bound is claimed: a reconnect under the same run id may change the address.
- Not claimed, because the source does not keep it: that closing a UDP work connection removes only its own session entry, that the idle sweep ends a UDP work connection, that the limiter's table has a hard size, that `bytes_up` covers datagrams of pending sessions.
- Writes to a stream succeed as a whole or fail; a partial write that fails is a failed write.
- Queues of a UDP proxy are values named by the work id that made them; their sending halves are shared through that name.
- LockOrder.OperationsAreOrdered: operations are written with their longest path where an early return only leaves later scopes out.
- Resend.RequestUntilAnswered: the answers of the world are given per request, not derived from the server's state.
