/**
 Traffic counting. Each stream counts its bytes locally and adds them to the shared counters when
 enough have gathered, when enough time has passed, and at the latest when it is dropped.

 Byte counters are unbounded here. A stream's own fields are only touched by its own task; the shared
 counters are touched by one atomic addition at a time, and these are the steps of the whole system.
 */
module Counting {
  import opened Numbers
  import opened Wrappers

  const FLUSH_THRESHOLD: nat := 256 * 1024
  const FLUSH_INTERVAL: nat := 1000
  const TIME_CHECK_EVERY_OPS: nat := 32

  type Name = nat

  datatype Dir = Inbound | Outbound

  /** What a stream has counted and not yet reported; times are in milliseconds. */
  datatype Local = Local(read: nat, write: nat, lastFlush: nat, ops: nat)

  /** What one operation adds to the shared counters. */
  datatype Report = Report(read: nat, write: nat)

  function Flush(l: Local, now: nat): (Local, Report) {
    (Local(0, 0, now, 0), Report(l.read, l.write))
  }

  function MaybeFlush(l: Local, now: nat): (Local, Report) {
    if l.read == 0 && l.write == 0 then (l, Report(0, 0))
    else if l.read >= FLUSH_THRESHOLD || l.write >= FLUSH_THRESHOLD then Flush(l, now)
    else if l.ops + 1 < TIME_CHECK_EVERY_OPS then (l.(ops := l.ops + 1), Report(0, 0))
    else if Elapsed(now, l.lastFlush) >= FLUSH_INTERVAL then Flush(l, now)
    else (l.(ops := 0), Report(0, 0))
  }

  /** `n` bytes have moved in one direction; none when the stream is at its end. */
  function Move(l: Local, dir: Dir, n: nat, now: nat): (Local, Report) {
    MaybeFlush(if dir == Inbound then l.(read := l.read + n) else l.(write := l.write + n), now)
  }

  // ------------------------------------------------------------------ the objects

  class Counter {
    var value: int
  }

  datatype Values = Values(read: int, write: int, active: int)

  /** The counters after a report, and a change of the number of active streams. */
  function Bump(v: Values, r: Report, active: int): Values {
    Values(v.read + r.read, v.write + r.write, v.active + active)
  }

  function BumpExtra(v: Option<Values>, r: Report, active: int): Option<Values> {
    if v.Some? then Some(Bump(v.value, r, active)) else None
  }

  datatype ExtraCounters = ExtraCounters(read: Counter, write: Counter, active: Counter)

  class CountingStream {
    const read: Counter
    const write: Counter
    const active: Counter
    var extra: Option<ExtraCounters>
    var pendingRead: nat
    var pendingWrite: nat
    var lastFlush: nat
    var ops: nat

    ghost function View(): Local
      reads this
    {
      Local(pendingRead, pendingWrite, lastFlush, ops)
    }

    ghost function Counters(): set<Counter>
      reads this
    {
      {read, write, active} + if extra.Some? then {extra.value.read, extra.value.write, extra.value.active} else {}
    }

    /** No counter is used for two things. */
    ghost predicate Valid()
      reads this
    {
      && read != write && read != active && write != active
      && (extra.Some? ==>
            var e := extra.value;
            && e.read != e.write && e.read != e.active && e.write != e.active
            && {e.read, e.write, e.active} !! {read, write, active})
    }

    ghost function Global(): Values
      reads this, read, write, active
    {
      Values(read.value, write.value, active.value)
    }

    ghost function Extra(): Option<Values>
      reads this, Counters()
    {
      if extra.None? then None
      else Some(Values(extra.value.read.value, extra.value.write.value, extra.value.active.value))
    }

    constructor (read: Counter, write: Counter, active: Counter, now: nat)
      requires read != write && read != active && write != active
      ensures Valid() && View() == Local(0, 0, now, 0) && extra == None
      ensures this.read == read && this.write == write && this.active == active
    {
      this.read, this.write, this.active, extra := read, write, active, None;
      pendingRead, pendingWrite, lastFlush, ops := 0, 0, now, 0;
    }

    method WithExtra(e: ExtraCounters)
      requires Valid() && e.read != e.write && e.read != e.active && e.write != e.active
      requires {e.read, e.write, e.active} !! {read, write, active}
      modifies this, e.active
      ensures Valid() && extra == Some(e) && View() == old(View())
      ensures e.active.value == old(e.active.value) + 1 && Global() == old(Global())
    {
      e.active.value := e.active.value + 1;
      extra := Some(e);
    }

    method FlushNow(now: nat)
      requires Valid()
      modifies this, Counters()
      ensures Valid() && extra == old(extra)
      ensures
        var (l, r) := Flush(old(View()), now);
        View() == l && Global() == Bump(old(Global()), r, 0) && Extra() == BumpExtra(old(Extra()), r, 0)
      ensures pendingRead == 0 && pendingWrite == 0 && lastFlush == now && ops == 0
      ensures read.value + pendingRead == old(read.value + pendingRead)
      ensures write.value + pendingWrite == old(write.value + pendingWrite)
      ensures old(extra.Some?) ==>
                var e := old(extra.value);
                && e.read.value + pendingRead == old(e.read.value) + old(pendingRead)
                && e.write.value + pendingWrite == old(e.write.value) + old(pendingWrite)
                && e.active.value == old(e.active.value)
      ensures active.value == old(active.value)
    {
      if pendingRead > 0 {
        read.value := read.value + pendingRead;
        if extra.Some? {
          extra.value.read.value := extra.value.read.value + pendingRead;
        }
        pendingRead := 0;
      }
      if pendingWrite > 0 {
        write.value := write.value + pendingWrite;
        if extra.Some? {
          extra.value.write.value := extra.value.write.value + pendingWrite;
        }
        pendingWrite := 0;
      }
      lastFlush := now;
      ops := 0;
    }

    method MaybeFlushNow(now: nat)
      requires Valid()
      modifies this, Counters()
      ensures Valid() && extra == old(extra)
      ensures
        var (l, r) := MaybeFlush(old(View()), now);
        View() == l && Global() == Bump(old(Global()), r, 0) && Extra() == BumpExtra(old(Extra()), r, 0)
      ensures read.value + pendingRead == old(read.value + pendingRead)
      ensures write.value + pendingWrite == old(write.value + pendingWrite)
      ensures old(extra.Some?) ==>
                var e := old(extra.value);
                && e.read.value + pendingRead == old(e.read.value) + old(pendingRead)
                && e.write.value + pendingWrite == old(e.write.value) + old(pendingWrite)
                && e.active.value == old(e.active.value)
      ensures active.value == old(active.value)
    {
      if pendingRead == 0 && pendingWrite == 0 {
        return;
      }
      if pendingRead >= FLUSH_THRESHOLD || pendingWrite >= FLUSH_THRESHOLD {
        FlushNow(now);
        return;
      }
      ops := ops + 1;
      if ops >= TIME_CHECK_EVERY_OPS {
        ops := 0;
        if Elapsed(now, lastFlush) >= FLUSH_INTERVAL {
          FlushNow(now);
        }
      }
    }

    /** The inner stream has put `n` bytes into the reader's buffer. */
    method AfterRead(n: nat, now: nat)
      requires Valid()
      modifies this, Counters()
      ensures Valid() && extra == old(extra)
      ensures
        var (l, r) := Move(old(View()), Inbound, n, now);
        View() == l && Global() == Bump(old(Global()), r, 0) && Extra() == BumpExtra(old(Extra()), r, 0)
      ensures read.value + pendingRead == old(read.value + pendingRead) + n
      ensures write.value + pendingWrite == old(write.value + pendingWrite)
      ensures old(extra.Some?) ==>
                var e := old(extra.value);
                && e.read.value + pendingRead == old(e.read.value) + old(pendingRead) + n
                && e.write.value + pendingWrite == old(e.write.value) + old(pendingWrite)
                && e.active.value == old(e.active.value)
      ensures active.value == old(active.value)
    {
      pendingRead := pendingRead + n;
      MaybeFlushNow(now);
    }

    method AfterWrite(n: nat, now: nat)
      requires Valid()
      modifies this, Counters()
      ensures Valid() && extra == old(extra)
      ensures
        var (l, r) := Move(old(View()), Outbound, n, now);
        View() == l && Global() == Bump(old(Global()), r, 0) && Extra() == BumpExtra(old(Extra()), r, 0)
      ensures read.value + pendingRead == old(read.value + pendingRead)
      ensures write.value + pendingWrite == old(write.value + pendingWrite) + n
      ensures old(extra.Some?) ==>
                var e := old(extra.value);
                && e.read.value + pendingRead == old(e.read.value) + old(pendingRead)
                && e.write.value + pendingWrite == old(e.write.value) + old(pendingWrite) + n
                && e.active.value == old(e.active.value)
      ensures active.value == old(active.value)
    {
      pendingWrite := pendingWrite + n;
      MaybeFlushNow(now);
    }

    method Drop(now: nat)
      requires Valid()
      modifies this, Counters()
      ensures Valid() && extra == old(extra)
      ensures
        var (l, r) := Flush(old(View()), now);
        View() == l && Global() == Bump(old(Global()), r, -1) && Extra() == BumpExtra(old(Extra()), r, -1)
      ensures read.value == old(read.value + pendingRead) && write.value == old(write.value + pendingWrite)
      ensures active.value == old(active.value) - 1
      ensures old(extra.Some?) ==>
                var e := old(extra.value);
                && e.read.value == old(e.read.value) + old(pendingRead)
                && e.write.value == old(e.write.value) + old(pendingWrite)
                && e.active.value == old(e.active.value) - 1
    {
      FlushNow(now);
      active.value := active.value - 1;
      if extra.Some? {
        extra.value.active.value := extra.value.active.value - 1;
      }
    }
  }

  // ------------------------------------------------------------------ all streams together

  /** Byte counts and a number of active streams: a counter set, or an amount to add to one. */
  datatype Totals = Totals(read: nat, write: nat, active: int)

  /** The counters of all streams, or those of one proxy. */
  datatype Scope = Everyone | OfProxy(name: Name)

  /** One atomic addition to one counter set. */
  datatype Addition = Addition(dest: Scope, amount: Totals)

  /**
   A stream as part of the system. `todo` are the additions its current operation still has to make;
   `movedIn` and `movedOut` are the history of the bytes it has really carried.
   */
  datatype Stream = Stream(local: Local, proxy: Option<Name>, movedIn: nat, movedOut: nat, open: bool,
    todo: seq<Addition>)

  /** The global counters and those of every proxy. */
  datatype System = System(streams: seq<Stream>, global: Totals, proxies: map<Name, Totals>)

  datatype Op =
    | Opened(proxy: Option<Name>, at: nat)
    | Moved(i: nat, dir: Dir, n: nat, at: nat)
    | Dropped(i: nat, at: nat)
    | Added(i: nat)

  /** A stream belongs to one task: an operation begins when the additions of the one before are made. */
  predicate Enabled(s: System, op: Op) {
    match op
    case Opened(_, _) => true
    case Moved(i, _, _, _) => i < |s.streams| && s.streams[i].open && s.streams[i].todo == []
    case Dropped(i, _) => i < |s.streams| && s.streams[i].open && s.streams[i].todo == []
    case Added(i) => i < |s.streams| && s.streams[i].todo != []
  }

  /** An amount goes to the global counter and, for a stream with extra counters, to that of its proxy. */
  function Twice(proxy: Option<Name>, amount: Totals): seq<Addition> {
    [Addition(Everyone, amount)] + if proxy.Some? then [Addition(OfProxy(proxy.value), amount)] else []
  }

  /** A count of zero is not added. */
  function CountOf(proxy: Option<Name>, amount: Totals): seq<Addition> {
    if amount.read > 0 || amount.write > 0 then Twice(proxy, amount) else []
  }

  /** The additions of a report, in program order. */
  function Additions(proxy: Option<Name>, r: Report): seq<Addition> {
    CountOf(proxy, Totals(r.read, 0, 0)) + CountOf(proxy, Totals(0, r.write, 0))
  }

  function TotalsOf(s: System, name: Name): Totals {
    if name in s.proxies then s.proxies[name] else Totals(0, 0, 0)
  }

  function Plus(a: Totals, b: Totals): Totals {
    Totals(a.read + b.read, a.write + b.write, a.active + b.active)
  }

  function Make(s: System, a: Addition): System {
    match a.dest
    case Everyone => s.(global := Plus(s.global, a.amount))
    case OfProxy(name) => s.(proxies := s.proxies[name := Plus(TotalsOf(s, name), a.amount)])
  }

  function Opening(proxy: Option<Name>, at: nat): Stream {
    Stream(Local(0, 0, at, 0), proxy, 0, 0, true, Twice(proxy, Totals(0, 0, 1)))
  }

  function Moving(st: Stream, dir: Dir, n: nat, at: nat): Stream {
    var (l, r) := Move(st.local, dir, n, at);
    st.(local := l, todo := Additions(st.proxy, r),
        movedIn := if dir == Inbound then st.movedIn + n else st.movedIn,
        movedOut := if dir == Outbound then st.movedOut + n else st.movedOut)
  }

  function Dropping(st: Stream, at: nat): Stream {
    var (l, r) := Flush(st.local, at);
    st.(local := l, todo := Additions(st.proxy, r) + Twice(st.proxy, Totals(0, 0, -1)), open := false)
  }

  function Apply(s: System, op: Op): System
    requires Enabled(s, op)
  {
    match op
    case Opened(proxy, at) => s.(streams := s.streams + [Opening(proxy, at)])
    case Moved(i, dir, n, at) => s.(streams := s.streams[i := Moving(s.streams[i], dir, n, at)])
    case Dropped(i, at) => s.(streams := s.streams[i := Dropping(s.streams[i], at)])
    case Added(i) =>
      var st := s.streams[i];
      Make(s, st.todo[0]).(streams := s.streams[i := st.(todo := st.todo[1..])])
  }

  // ------------------------------------------------------------------ conservation

  predicate InScope(st: Stream, scope: Scope) {
    scope.Everyone? || st.proxy == Some(scope.name)
  }

  function CountedIn(s: System, scope: Scope): Totals {
    if scope.Everyone? then s.global else TotalsOf(s, scope.name)
  }

  function AmountFor(a: Addition, scope: Scope): Totals {
    if a.dest == scope then a.amount else Totals(0, 0, 0)
  }

  /** What is still to be added to these counters. */
  function Pending(todo: seq<Addition>, scope: Scope): Totals {
    if todo == [] then Totals(0, 0, 0)
    else Plus(Pending(todo[1..], scope), AmountFor(todo[0], scope))
  }

  /** What one stream holds back from these counters, and what it has moved and whether it is open. */
  function Held(st: Stream, scope: Scope): Totals {
    Plus(Pending(st.todo, scope), if InScope(st, scope) then Totals(st.local.read, st.local.write, 0)
      else Totals(0, 0, 0))
  }

  function Carried(st: Stream, scope: Scope): Totals {
    if InScope(st, scope) then Totals(st.movedIn, st.movedOut, if st.open then 1 else 0) else Totals(0, 0, 0)
  }

  function Sum(ts: seq<Totals>): Totals {
    if ts == [] then Totals(0, 0, 0) else Plus(Sum(ts[1..]), ts[0])
  }

  function HeldIn(streams: seq<Stream>, scope: Scope): seq<Totals> {
    seq(|streams|, i requires 0 <= i < |streams| => Held(streams[i], scope))
  }

  function CarriedIn(streams: seq<Stream>, scope: Scope): seq<Totals> {
    seq(|streams|, i requires 0 <= i < |streams| => Carried(streams[i], scope))
  }

  function SumHeld(streams: seq<Stream>, scope: Scope): Totals {
    Sum(HeldIn(streams, scope))
  }

  function SumCarried(streams: seq<Stream>, scope: Scope): Totals {
    Sum(CarriedIn(streams, scope))
  }

  /** Nothing is counted twice or lost: counted plus held back is what was moved, and open is what is active. */
  ghost predicate Conserved(s: System, scope: Scope) {
    Plus(CountedIn(s, scope), SumHeld(s.streams, scope)) == SumCarried(s.streams, scope)
  }

  predicate Bounded(st: Stream) {
    && st.local.read < FLUSH_THRESHOLD && st.local.write < FLUSH_THRESHOLD && st.local.ops < TIME_CHECK_EVERY_OPS
    && (!st.open ==> st.local.read == 0 && st.local.write == 0)
  }

  ghost predicate Inv(s: System) {
    && (forall scope :: Conserved(s, scope))
    && (forall i | 0 <= i < |s.streams| :: Bounded(s.streams[i]))
  }

  /** Replacing one summand changes the sum by the difference. */
  lemma {:induction false} SumUpdate(ts: seq<Totals>, i: nat, t: Totals)
    requires i < |ts|
    ensures Plus(Sum(ts[i := t]), ts[i]) == Plus(Sum(ts), t)
  {
    if i == 0 {
      assert ts[0 := t][1..] == ts[1..];
    } else {
      assert ts[i := t][1..] == ts[1..][i - 1 := t];
      SumUpdate(ts[1..], i - 1, t);
    }
  }

  lemma {:induction false} SumAppend(ts: seq<Totals>, t: Totals)
    ensures Sum(ts + [t]) == Plus(Sum(ts), t)
  {
    if ts == [] {
      assert ts + [t] == [t];
    } else {
      assert (ts + [t])[1..] == ts[1..] + [t];
      SumAppend(ts[1..], t);
    }
  }

  lemma {:induction false} SumZero(ts: seq<Totals>)
    requires forall i | 0 <= i < |ts| :: ts[i].active == 0
    ensures Sum(ts).active == 0
    ensures (forall i | 0 <= i < |ts| :: ts[i] == Totals(0, 0, 0)) ==> Sum(ts) == Totals(0, 0, 0)
  {
    if ts != [] {
      SumZero(ts[1..]);
    }
  }

  lemma {:induction false} PendingAppend(a: seq<Addition>, b: seq<Addition>, scope: Scope)
    ensures Pending(a + b, scope) == Plus(Pending(a, scope), Pending(b, scope))
  {
    if a == [] {
      assert a + b == b;
    } else {
      assert (a + b)[1..] == a[1..] + b;
      PendingAppend(a[1..], b, scope);
    }
  }

  lemma PendingOne(a: Addition, scope: Scope)
    ensures Pending([a], scope) == AmountFor(a, scope)
  {
    assert [a][1..] == [];
  }

  /** An amount reaches exactly the counters of the scopes its stream is in. */
  lemma TwicePending(st: Stream, amount: Totals, scope: Scope)
    ensures Pending(Twice(st.proxy, amount), scope) == if InScope(st, scope) then amount else Totals(0, 0, 0)
  {
    hide Pending;
    var one := Addition(Everyone, amount);
    PendingOne(one, scope);
    if st.proxy.Some? {
      var two := Addition(OfProxy(st.proxy.value), amount);
      PendingOne(two, scope);
      PendingAppend([one], [two], scope);
    } else {
      assert [one] + [] == [one];
    }
  }

  /** A count reaches those counters; a count of zero reaches none. */
  lemma CountPending(st: Stream, amount: Totals, scope: Scope)
    requires amount.active == 0
    ensures Pending(CountOf(st.proxy, amount), scope) == if InScope(st, scope) then amount else Totals(0, 0, 0)
  {
    hide Pending, Twice, InScope;
    TwicePending(st, amount, scope);
    NothingPending(scope);
  }

  lemma AdditionsPending(st: Stream, r: Report, scope: Scope)
    ensures Pending(Additions(st.proxy, r), scope) == if InScope(st, scope) then Totals(r.read, r.write, 0)
            else Totals(0, 0, 0)
  {
    hide Pending, CountOf, InScope;
    CountPending(st, Totals(r.read, 0, 0), scope);
    CountPending(st, Totals(0, r.write, 0), scope);
    PendingAppend(CountOf(st.proxy, Totals(r.read, 0, 0)), CountOf(st.proxy, Totals(0, r.write, 0)), scope);
  }

  lemma NothingPending(scope: Scope)
    ensures Pending([], scope) == Totals(0, 0, 0)
  {
  }

  /** A step that changes one stream conserves when the counters and this stream balance. */
  lemma ReplaceConserves(s: System, t: System, i: nat, st: Stream, scope: Scope)
    requires Conserved(s, scope) && i < |s.streams| && t.streams == s.streams[i := st]
    requires Plus(Plus(CountedIn(t, scope), Held(st, scope)), Carried(s.streams[i], scope))
          == Plus(Plus(CountedIn(s, scope), Held(s.streams[i], scope)), Carried(st, scope))
    ensures Conserved(t, scope)
  {
    hide Sum, CountedIn, Held, Carried;
    assert HeldIn(t.streams, scope) == HeldIn(s.streams, scope)[i := Held(st, scope)];
    assert CarriedIn(t.streams, scope) == CarriedIn(s.streams, scope)[i := Carried(st, scope)];
    SumUpdate(HeldIn(s.streams, scope), i, Held(st, scope));
    SumUpdate(CarriedIn(s.streams, scope), i, Carried(st, scope));
  }

  /** The sums with one more stream. */
  lemma AppendSums(streams: seq<Stream>, st: Stream, scope: Scope)
    ensures SumHeld(streams + [st], scope) == Plus(SumHeld(streams, scope), Held(st, scope))
    ensures SumCarried(streams + [st], scope) == Plus(SumCarried(streams, scope), Carried(st, scope))
  {
    hide Sum, Held, Carried;
    assert HeldIn(streams + [st], scope) == HeldIn(streams, scope) + [Held(st, scope)];
    assert CarriedIn(streams + [st], scope) == CarriedIn(streams, scope) + [Carried(st, scope)];
    SumAppend(HeldIn(streams, scope), Held(st, scope));
    SumAppend(CarriedIn(streams, scope), Carried(st, scope));
  }

  lemma OpenBalances(proxy: Option<Name>, at: nat, scope: Scope)
    ensures Held(Opening(proxy, at), scope) == Carried(Opening(proxy, at), scope)
  {
    hide Pending, Twice;
    TwicePending(Opening(proxy, at), Totals(0, 0, 1), scope);
  }

  lemma OpenConserves(s: System, proxy: Option<Name>, at: nat, scope: Scope)
    requires Conserved(s, scope)
    ensures Conserved(Apply(s, Opened(proxy, at)), scope)
  {
    hide Sum, SumHeld, SumCarried, Held, Carried, Opening;
    OpenBalances(proxy, at, scope);
    AppendSums(s.streams, Opening(proxy, at), scope);
  }

  /** A flush loses nothing: what was pending is still pending or is reported. */
  lemma FlushLosesNothing(l: Local, now: nat)
    ensures
      var (l', r) := MaybeFlush(l, now);
      l'.read + r.read == l.read && l'.write + r.write == l.write
  {
  }

  lemma MoveLosesNothing(l: Local, dir: Dir, n: nat, now: nat)
    ensures
      var (l', r) := Move(l, dir, n, now);
      && l'.read + r.read == l.read + (if dir == Inbound then n else 0)
      && l'.write + r.write == l.write + if dir == Outbound then n else 0
  {
    hide MaybeFlush;
    FlushLosesNothing(if dir == Inbound then l.(read := l.read + n) else l.(write := l.write + n), now);
  }

  lemma MovingFields(st: Stream, dir: Dir, n: nat, at: nat)
    ensures
      var (t, m) := (Moving(st, dir, n, at), Move(st.local, dir, n, at));
      && t.local == m.0 && t.todo == Additions(st.proxy, m.1) && t.proxy == st.proxy && t.open == st.open
      && t.movedIn == st.movedIn + (if dir == Inbound then n else 0)
      && t.movedOut == st.movedOut + if dir == Outbound then n else 0
  {
    hide Move, Additions;
  }

  lemma MoveBalances(st: Stream, dir: Dir, n: nat, at: nat, scope: Scope)
    requires st.todo == []
    ensures Plus(Held(Moving(st, dir, n, at), scope), Carried(st, scope))
            == Plus(Held(st, scope), Carried(Moving(st, dir, n, at), scope))
  {
    hide Pending, Additions, Move, Moving;
    var (l, r) := Move(st.local, dir, n, at);
    MoveLosesNothing(st.local, dir, n, at);
    MovingFields(st, dir, n, at);
    AdditionsPending(st, r, scope);
    NothingPending(scope);
    assert InScope(Moving(st, dir, n, at), scope) == InScope(st, scope);
  }

  lemma DropBalances(st: Stream, at: nat, scope: Scope)
    requires st.todo == [] && st.open
    ensures Plus(Held(Dropping(st, at), scope), Carried(st, scope))
            == Plus(Held(st, scope), Carried(Dropping(st, at), scope))
  {
    hide Pending, Additions, Twice;
    var r := Flush(st.local, at).1;
    PendingAppend(Additions(st.proxy, r), Twice(st.proxy, Totals(0, 0, -1)), scope);
    AdditionsPending(st, r, scope);
    TwicePending(st, Totals(0, 0, -1), scope);
    NothingPending(scope);
  }

  /** The addition that is made leaves what is pending and enters the counters. */
  lemma MakeCounts(s: System, a: Addition, scope: Scope)
    ensures CountedIn(Make(s, a), scope) == Plus(CountedIn(s, scope), AmountFor(a, scope))
  {
    if scope.Everyone? {
      assert CountedIn(s, scope) == s.global;
    } else if a.dest == scope {
      assert Make(s, a).proxies == s.proxies[scope.name := Plus(TotalsOf(s, scope.name), a.amount)];
    } else {
      assert TotalsOf(Make(s, a), scope.name) == TotalsOf(s, scope.name);
    }
  }

  lemma AddCounts(s: System, i: nat, scope: Scope)
    requires Enabled(s, Added(i))
    ensures
      var (t, st) := (Apply(s, Added(i)), s.streams[i]);
      && t.streams == s.streams[i := st.(todo := st.todo[1..])]
      && CountedIn(t, scope) == Plus(CountedIn(s, scope), AmountFor(st.todo[0], scope))
  {
    var st := s.streams[i];
    var added := Make(s, st.todo[0]);
    assert CountedIn(added.(streams := s.streams[i := st.(todo := st.todo[1..])]), scope) == CountedIn(added, scope);
    hide Make, CountedIn, Plus;
    MakeCounts(s, st.todo[0], scope);
  }

  lemma PendingNext(todo: seq<Addition>, scope: Scope)
    requires todo != []
    ensures Pending(todo, scope) == Plus(Pending(todo[1..], scope), AmountFor(todo[0], scope))
  {
  }

  /** What is added is no longer held back. */
  lemma HeldAfterAdding(st: Stream, scope: Scope)
    requires st.todo != []
    ensures Held(st, scope) == Plus(Held(st.(todo := st.todo[1..]), scope), AmountFor(st.todo[0], scope))
  {
    hide AmountFor, Pending;
    PendingNext(st.todo, scope);
    assert InScope(st.(todo := st.todo[1..]), scope) == InScope(st, scope);
  }

  /** An amount that leaves what one stream holds back and enters the counters. */
  lemma ShiftConserves(s: System, t: System, i: nat, st: Stream, amount: Totals, scope: Scope)
    requires Conserved(s, scope) && i < |s.streams| && t.streams == s.streams[i := st]
    requires Carried(st, scope) == Carried(s.streams[i], scope)
    requires Held(s.streams[i], scope) == Plus(Held(st, scope), amount)
    requires CountedIn(t, scope) == Plus(CountedIn(s, scope), amount)
    ensures Conserved(t, scope)
  {
    hide CountedIn, Held, Carried, Conserved;
    ReplaceConserves(s, t, i, st, scope);
  }

  lemma AddConserves(s: System, i: nat, scope: Scope)
    requires Conserved(s, scope) && Enabled(s, Added(i))
    ensures Conserved(Apply(s, Added(i)), scope)
  {
    var st := s.streams[i];
    var rest := st.(todo := st.todo[1..]);
    assert Carried(rest, scope) == Carried(st, scope) by { hide Apply, Held, CountedIn, Conserved; }
    hide Apply, CountedIn, Held, Carried, AmountFor, Conserved, Plus;
    AddCounts(s, i, scope);
    HeldAfterAdding(st, scope);
    ShiftConserves(s, Apply(s, Added(i)), i, rest, AmountFor(st.todo[0], scope), scope);
  }

  lemma StepConserves(s: System, op: Op, scope: Scope)
    requires Conserved(s, scope) && Enabled(s, op)
    ensures Conserved(Apply(s, op), scope)
  {
    hide Conserved, Held, Carried, Moving, Dropping, Make;
    match op
    case Opened(proxy, at) => OpenConserves(s, proxy, at, scope);
    case Moved(i, dir, n, at) =>
      MoveBalances(s.streams[i], dir, n, at, scope);
      ReplaceConserves(s, Apply(s, op), i, Moving(s.streams[i], dir, n, at), scope);
    case Dropped(i, at) =>
      DropBalances(s.streams[i], at, scope);
      ReplaceConserves(s, Apply(s, op), i, Dropping(s.streams[i], at), scope);
    case Added(i) => AddConserves(s, i, scope);
  }

  lemma StepKeepsInv(s: System, op: Op)
    requires Inv(s) && Enabled(s, op)
    ensures Inv(Apply(s, op))
  {
    hide Conserved, Apply, Enabled, Bounded;
    forall scope ensures Conserved(Apply(s, op), scope) {
      StepConserves(s, op, scope);
    }
    StepKeepsBounded(s, op);
  }

  lemma StepKeepsBounded(s: System, op: Op)
    requires Enabled(s, op) && forall i | 0 <= i < |s.streams| :: Bounded(s.streams[i])
    ensures forall i | 0 <= i < |Apply(s, op).streams| :: Bounded(Apply(s, op).streams[i])
  {
    hide Additions, Twice;
  }

  function Run(s: System, ops: seq<Op>): Option<System>
    decreases |ops|
  {
    if ops == [] then Some(s)
    else if Enabled(s, ops[0]) then Run(Apply(s, ops[0]), ops[1..])
    else None
  }

  function Init(): System {
    System([], Totals(0, 0, 0), map[])
  }

  lemma {:induction false} RunKeepsInv(s: System, ops: seq<Op>)
    requires Inv(s) && Run(s, ops).Some?
    ensures Inv(Run(s, ops).value)
    decreases |ops|
  {
    hide Inv, Apply, Enabled;
    if ops != [] {
      StepKeepsInv(s, ops[0]);
      RunKeepsInv(Apply(s, ops[0]), ops[1..]);
    }
  }

  ghost predicate Reachable(s: System) {
    exists ops :: Run(Init(), ops) == Some(s)
  }

  lemma EmptySums(scope: Scope)
    ensures SumHeld([], scope) == Totals(0, 0, 0) && SumCarried([], scope) == Totals(0, 0, 0)
  {
    hide Sum;
    EmptySum(HeldIn([], scope));
    EmptySum(CarriedIn([], scope));
  }

  lemma EmptySum(ts: seq<Totals>)
    requires |ts| == 0
    ensures Sum(ts) == Totals(0, 0, 0)
  {
  }

  lemma InitConserved(scope: Scope)
    ensures Conserved(Init(), scope)
  {
    hide SumHeld, SumCarried, Sum;
    EmptySums(scope);
  }

  lemma InitInv()
    ensures Inv(Init())
  {
    hide Conserved;
    forall scope ensures Conserved(Init(), scope) {
      InitConserved(scope);
    }
  }

  lemma ReachableInv(s: System)
    requires Reachable(s)
    ensures Inv(s)
  {
    hide Apply, Enabled, Inv;
    var ops :| Run(Init(), ops) == Some(s);
    InitInv();
    RunKeepsInv(Init(), ops);
  }

  /**
   Traffic is conserved between any two atomic additions, for all streams together and for those of
   every proxy: the counters, plus what streams have counted and not yet added, are the bytes moved
   and the streams open. No stream keeps 256 KiB to itself; when no operation is under way the active
   counters are the numbers of open streams.
   */
  lemma TrafficIsConserved(s: System, scope: Scope)
    requires Reachable(s)
    ensures Plus(CountedIn(s, scope), SumHeld(s.streams, scope)) == SumCarried(s.streams, scope)
    ensures forall i | 0 <= i < |s.streams| ::
              s.streams[i].local.read < 256 * 1024 && s.streams[i].local.write < 256 * 1024
    ensures AllQuiet(s) ==> CountedIn(s, scope).active == SumCarried(s.streams, scope).active
  {
    ReachableInv(s);
    hide SumHeld, SumCarried, Sum, Reachable, CountedIn;
    assert Conserved(s, scope);
    if AllQuiet(s) {
      HeldIsNotActive(s.streams, scope);
    }
  }

  /** No operation is under way. */
  predicate AllQuiet(s: System) {
    forall i | 0 <= i < |s.streams| :: s.streams[i].todo == []
  }

  lemma HeldIsNotActive(streams: seq<Stream>, scope: Scope)
    requires forall i | 0 <= i < |streams| :: streams[i].todo == []
    ensures SumHeld(streams, scope).active == 0
  {
    hide Sum;
    SumZero(HeldIn(streams, scope));
  }

  /** When every stream has been dropped, and has made its additions, the counters are exact. */
  lemma ExactWhenAllDropped(s: System, scope: Scope)
    requires Reachable(s) && AllQuiet(s) && forall i | 0 <= i < |s.streams| :: !s.streams[i].open
    ensures CountedIn(s, scope) == SumCarried(s.streams, scope) && CountedIn(s, scope).active == 0
  {
    ReachableInv(s);
    hide SumHeld, SumCarried, Sum, Bounded, Reachable, CountedIn;
    assert Conserved(s, scope);
    NothingHeld(s.streams, scope);
  }

  lemma NothingHeld(streams: seq<Stream>, scope: Scope)
    requires forall i | 0 <= i < |streams| :: Bounded(streams[i]) && !streams[i].open && streams[i].todo == []
    ensures SumHeld(streams, scope) == Totals(0, 0, 0) && SumCarried(streams, scope).active == 0
  {
    hide Sum;
    SumZero(HeldIn(streams, scope));
    SumZero(CarriedIn(streams, scope));
  }

  lemma RunCons(s: System, ops: seq<Op>)
    ensures ops == [] ==> Run(s, ops) == Some(s)
    ensures ops != [] && Enabled(s, ops[0]) ==> Run(s, ops) == Run(Apply(s, ops[0]), ops[1..])
  {
  }

  /** The additions of an operation can be made one after the other, and add up to what it reported. */
  lemma {:induction false} AdditionsAddUp(s: System, i: nat, scope: Scope) returns (ops: seq<Op>)
    requires i < |s.streams|
    ensures Run(s, ops).Some? && |ops| == |s.streams[i].todo|
    ensures
      var t := Run(s, ops).value;
      && t.streams == s.streams[i := s.streams[i].(todo := [])]
      && CountedIn(t, scope) == Plus(CountedIn(s, scope), Pending(s.streams[i].todo, scope))
    decreases |s.streams[i].todo|
  {
    hide Apply, CountedIn, AmountFor, Run;
    var st := s.streams[i];
    if st.todo == [] {
      ops := [];
      assert s.streams[i := st] == s.streams;
      RunCons(s, []);
    } else {
      AddCounts(s, i, scope);
      var t := Apply(s, Added(i));
      var more := AdditionsAddUp(t, i, scope);
      ops := [Added(i)] + more;
      assert ops[1..] == more;
      RunCons(s, ops);
    }
  }

  function AsValues(t: Totals): Values {
    Values(t.read, t.write, t.active)
  }

  /**
   An operation of a stream object is a step of the system followed by its additions: what the object's
   methods do to the counters in one go is what the additions come to.
   */
  lemma ObjectIsStream(s: System, i: nat, dir: Dir, n: nat, at: nat, scope: Scope) returns (ops: seq<Op>)
    requires Enabled(s, Moved(i, dir, n, at))
    ensures Run(s, ops).Some?
    ensures
      var (t, m) := (Run(s, ops).value, Move(s.streams[i].local, dir, n, at));
      && t.streams == s.streams[i := Moving(s.streams[i], dir, n, at).(todo := [])] && t.streams[i].local == m.0
      && AsValues(CountedIn(t, scope))
         == Bump(AsValues(CountedIn(s, scope)), if InScope(s.streams[i], scope) then m.1 else Report(0, 0), 0)
  {
    hide Run, Apply, Enabled, CountedIn, Move, Moving, Additions, Pending, InScope, Bump, AsValues, Plus;
    var op := Moved(i, dir, n, at);
    MoveApplied(s, i, dir, n, at, scope);
    var st, m := s.streams[i], Moving(s.streams[i], dir, n, at);
    var more := AdditionsAddUp(Apply(s, op), i, scope);
    MovingFields(st, dir, n, at);
    var r := Move(st.local, dir, n, at).1;
    AdditionsPending(st, r, scope);
    BumpIsPlus(CountedIn(s, scope), r, InScope(st, scope));
    ops := [op] + more;
    assert ops[1..] == more;
    RunCons(s, ops);
    assert s.streams[i := m][i := m.(todo := [])] == s.streams[i := m.(todo := [])];
  }

  lemma MoveApplied(s: System, i: nat, dir: Dir, n: nat, at: nat, scope: Scope)
    requires Enabled(s, Moved(i, dir, n, at))
    ensures i < |s.streams|
    ensures
      var t := Apply(s, Moved(i, dir, n, at));
      CountedIn(t, scope) == CountedIn(s, scope) && t.streams == s.streams[i := Moving(s.streams[i], dir, n, at)]
  {
    hide Moving;
  }

  lemma BumpIsPlus(c: Totals, r: Report, inside: bool)
    ensures AsValues(Plus(c, if inside then Totals(r.read, r.write, 0) else Totals(0, 0, 0)))
         == Bump(AsValues(c), if inside then r else Report(0, 0), 0)
  {
  }

  // ------------------------------------------------------------------ how late a report can be

  datatype Io = Io(dir: Dir, n: nat, at: nat)

  function LocalAfter(l: Local, ios: seq<Io>): Local
    decreases |ios|
  {
    if ios == [] then l else LocalAfter(Move(l, ios[0].dir, ios[0].n, ios[0].at).0, ios[1..])
  }

  /** Once a second has passed since the last report, at most 32 operations go by before the next. */
  lemma {:induction false} ReportedWithin32(l: Local, ios: seq<Io>) returns (k: nat)
    requires l.ops < 32 && |ios| >= 32 - l.ops
    requires forall i | 0 <= i < |ios| :: ios[i].n > 0 && ios[i].at >= l.lastFlush + 1000
    ensures 1 <= k <= 32 - l.ops && LocalAfter(l, ios[..k]) == Local(0, 0, ios[k - 1].at, 0)
    decreases |ios|
  {
    var l1 := Move(l, ios[0].dir, ios[0].n, ios[0].at).0;
    if l1 == Local(0, 0, ios[0].at, 0) {
      k := 1;
      assert ios[..1][1..] == [];
    } else {
      var j := ReportedWithin32(l1, ios[1..]);
      k := j + 1;
      assert ios[..k][1..] == ios[1..][..j];
    }
  }

  /** The bytes of these operations in one direction. */
  function Total(ios: seq<Io>, dir: Dir): nat {
    if ios == [] then 0 else (if ios[0].dir == dir then ios[0].n else 0) + Total(ios[1..], dir)
  }

  /** And nothing is reported before that, unless 256 KiB have gathered: the shared counters are left alone. */
  lemma {:induction false} NoEarlyReport(l: Local, ios: seq<Io>)
    requires l.ops + |ios| < 32 || forall i | 0 <= i < |ios| :: ios[i].at < l.lastFlush + 1000
    requires l.read + Total(ios, Inbound) < 256 * 1024 && l.write + Total(ios, Outbound) < 256 * 1024
    ensures
      var t := LocalAfter(l, ios);
      && t.read == l.read + Total(ios, Inbound) && t.write == l.write + Total(ios, Outbound)
      && t.lastFlush == l.lastFlush
    decreases |ios|
  {
    if ios != [] {
      var l1 := Move(l, ios[0].dir, ios[0].n, ios[0].at).0;
      NoEarlyReport(l1, ios[1..]);
    }
  }
}
