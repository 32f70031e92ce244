/**
 The request limiter: at most `max` requests per address and window, in a table that forgets expired
 entries when it is full. Times never decrease.
 */
module RateLimit {
  import opened Numbers

  type Ip = nat

  const MAX_ENTRIES: nat := 4096

  datatype Entry = Entry(count: nat, start: nat)

  datatype Request = Request(ip: Ip, now: nat)

  type Table = map<Ip, Entry>

  function Expired(t: Table, now: nat, window: nat): set<Ip> {
    set ip | ip in t && Elapsed(now, t[ip].start) >= window
  }

  /** The new entry of an address that has one, and whether the request is allowed. */
  function Again(e: Entry, now: nat, max: nat, window: nat): (Entry, bool) {
    if Elapsed(now, e.start) >= window then (Entry(1, now), true)
    else if e.count < max then (Entry(e.count + 1, e.start), true)
    else (e, false)
  }

  function Allow(t: Table, r: Request, max: nat, window: nat): (Table, bool) {
    if r.ip in t then
      var (e, ok) := Again(t[r.ip], r.now, max, window);
      (t[r.ip := e], ok)
    else
      var kept := if |t| >= MAX_ENTRIES then t - Expired(t, r.now, window) else t;
      (kept[r.ip := Entry(1, r.now)], true)
  }

  /** The same without eviction. */
  function AllowForever(t: Table, r: Request, max: nat, window: nat): (Table, bool) {
    if r.ip in t then Allow(t, r, max, window) else (t[r.ip := Entry(1, r.now)], true)
  }

  class RateLimiter {
    var inner: Table
    const max: nat
    const window: nat

    constructor (max: nat, window: nat)
      ensures inner == map[] && this.max == max && this.window == window
    {
      inner, this.max, this.window := map[], max, window;
    }

    method AllowRequest(ip: Ip, now: nat) returns (ok: bool)
      modifies this
      ensures (inner, ok) == Allow(old(inner), Request(ip, now), max, window)
    {
      if ip in inner {
        var e := inner[ip];
        if Elapsed(now, e.start) >= window {
          inner := inner[ip := Entry(1, now)];
          return true;
        } else if e.count < max {
          inner := inner[ip := e.(count := e.count + 1)];
          return true;
        }
        assert inner[ip := e] == inner;
        return false;
      }
      if |inner| >= MAX_ENTRIES {
        inner := inner - Expired(inner, now, window);
      }
      inner := inner[ip := Entry(1, now)];
      return true;
    }
  }

  /** A new address takes nothing out of a table with room, and out of a full one exactly what has expired. */
  lemma EvictsExactly(t: Table, r: Request, max: nat, window: nat, ip: Ip)
    requires r.ip !in t && ip != r.ip
    ensures
      var after := Allow(t, r, max, window).0;
      && (ip in after <==> ip in t && (|t| < 4096 || Elapsed(r.now, t[ip].start) < window))
      && (ip in after ==> after[ip] == t[ip])
  {
  }

  // ------------------------------------------------------------------ histories

  predicate Ordered(rs: seq<Request>) {
    forall i, j | 0 <= i < j < |rs| :: rs[i].now <= rs[j].now
  }

  function Decisions(t: Table, rs: seq<Request>, max: nat, window: nat): seq<bool>
    decreases |rs|
  {
    if rs == [] then []
    else
      var (u, ok) := Allow(t, rs[0], max, window);
      [ok] + Decisions(u, rs[1..], max, window)
  }

  function DecisionsForever(t: Table, rs: seq<Request>, max: nat, window: nat): seq<bool>
    decreases |rs|
  {
    if rs == [] then []
    else
      var (u, ok) := AllowForever(t, rs[0], max, window);
      [ok] + DecisionsForever(u, rs[1..], max, window)
  }

  /** `t` is `u` without some entries that had expired by `now`. */
  ghost predicate Forgot(t: Table, u: Table, now: nat, window: nat) {
    && (forall ip | ip in t :: ip in u && u[ip] == t[ip])
    && (forall ip | ip in u && ip !in t :: Elapsed(now, u[ip].start) >= window)
  }

  lemma ForgotStep(t: Table, u: Table, r: Request, max: nat, window: nat)
    requires Forgot(t, u, r.now, window)
    ensures
      var (t', ok) := Allow(t, r, max, window);
      var (u', ok') := AllowForever(u, r, max, window);
      ok == ok' && Forgot(t', u', r.now, window)
  {
  }

  lemma ForgotLater(t: Table, u: Table, now: nat, later: nat, window: nat)
    requires Forgot(t, u, now, window) && now <= later
    ensures Forgot(t, u, later, window)
  {
  }

  lemma {:induction false} SameDecisions(t: Table, u: Table, rs: seq<Request>, now: nat, max: nat, window: nat)
    requires Ordered(rs) && Forgot(t, u, now, window) && (rs != [] ==> now <= rs[0].now)
    ensures Decisions(t, rs, max, window) == DecisionsForever(u, rs, max, window)
    decreases |rs|
  {
    hide Forgot, Allow, AllowForever;
    if rs != [] {
      ForgotLater(t, u, now, rs[0].now, window);
      ForgotStep(t, u, rs[0], max, window);
      SameDecisions(Allow(t, rs[0], max, window).0, AllowForever(u, rs[0], max, window).0, rs[1..], rs[0].now, max,
        window);
    }
  }

  /** Eviction changes no decision: the table might as well remember every address for ever. */
  lemma EvictionIsInvisible(rs: seq<Request>, max: nat, window: nat)
    requires Ordered(rs)
    ensures Decisions(map[], rs, max, window) == DecisionsForever(map[], rs, max, window)
  {
    SameDecisions(map[], map[], rs, 0, max, window);
  }

  // ------------------------------------------------------------------ one address

  /** The times at which requests of this address were allowed. */
  function AllowedTimes(t: Table, rs: seq<Request>, ip: Ip, max: nat, window: nat): seq<nat>
    decreases |rs|
  {
    if rs == [] then []
    else
      var (u, ok) := Allow(t, rs[0], max, window);
      (if ok && rs[0].ip == ip then [rs[0].now] else []) + AllowedTimes(u, rs[1..], ip, max, window)
  }

  function TableAfter(t: Table, rs: seq<Request>, max: nat, window: nat): Table
    decreases |rs|
  {
    if rs == [] then t else TableAfter(Allow(t, rs[0], max, window).0, rs[1..], max, window)
  }

  function LastTime(rs: seq<Request>, now: nat): nat {
    if rs == [] then now else rs[|rs| - 1].now
  }

  /** How many of these times lie between `lo` and `hi`, both included. */
  function Count(ts: seq<nat>, lo: int, hi: int): nat {
    if ts == [] then 0
    else Count(ts[..|ts| - 1], lo, hi) + if lo <= ts[|ts| - 1] <= hi then 1 else 0
  }

  lemma CountAppend(ts: seq<nat>, x: nat, lo: int, hi: int)
    ensures Count(ts + [x], lo, hi) == Count(ts, lo, hi) + if lo <= x <= hi then 1 else 0
  {
    assert (ts + [x])[..|ts|] == ts;
  }

  lemma {:induction false} CountSplit(ts: seq<nat>, lo: int, mid: int, hi: int)
    requires lo <= mid <= hi + 1
    ensures Count(ts, lo, hi) == Count(ts, lo, mid - 1) + Count(ts, mid, hi)
  {
    if ts != [] {
      CountSplit(ts[..|ts| - 1], lo, mid, hi);
    }
  }

  lemma {:induction false} CountWider(ts: seq<nat>, lo: int, hi: int, lo': int, hi': int)
    requires lo' <= lo && hi <= hi'
    ensures Count(ts, lo, hi) <= Count(ts, lo', hi')
  {
    if ts != [] {
      CountWider(ts[..|ts| - 1], lo, hi, lo', hi');
    }
  }

  lemma {:induction false} CountNone(ts: seq<nat>, lo: int, hi: int)
    requires forall i | 0 <= i < |ts| :: !(lo <= ts[i] <= hi)
    ensures Count(ts, lo, hi) == 0
  {
    if ts != [] {
      CountNone(ts[..|ts| - 1], lo, hi);
    }
  }

  /** A limiter of `max` 0 still lets the first request of every window through. */
  function Limit(max: nat): nat {
    if max == 0 then 1 else max
  }

  function CountBefore(ts: seq<nat>, lo: int, end: int): nat {
    Count(ts, lo, end - 1)
  }

  /** How many lie in the closed interval of one window length from `lo`. */
  function CountWithin(ts: seq<nat>, lo: int, window: nat): nat {
    Count(ts, lo, lo + window)
  }

  /**
   What has been allowed so far to an address with this entry: `count` requests since `start`, none
   later than the window, at most `max` in the window before it, and at most `2 * max` in any window.
   */
  ghost predicate History(ts: seq<nat>, e: Entry, max: nat, window: nat) {
    && 0 < e.count <= Limit(max)
    && CountWithin(ts, e.start, window) == e.count
    && (forall i | 0 <= i < |ts| :: ts[i] < e.start + window)
    && (forall lo: int | lo + window >= e.start :: CountBefore(ts, lo, e.start) <= Limit(max))
    && (forall lo: int :: CountWithin(ts, lo, window) <= 2 * Limit(max))
  }

  lemma FirstAllowed(now: nat, max: nat, window: nat)
    requires window > 0
    ensures History([now], Entry(1, now), max, window)
  {
    assert [now] == [] + [now];
    CountAppend([], now, now, now + window);
    forall lo: int ensures CountBefore([now], lo, now) == 0 && CountWithin([now], lo, window) <= 1 {
      CountAppend([], now, lo, now - 1);
      CountAppend([], now, lo, lo + window);
    }
  }

  /** No more than `count` from `start` on, however far one looks. */
  lemma FromStart(ts: seq<nat>, e: Entry, max: nat, window: nat, lo: int, hi: int)
    requires History(ts, e, max, window) && lo >= e.start
    ensures Count(ts, lo, hi) <= e.count
  {
    var end := e.start + window;
    if hi <= end {
      CountWider(ts, lo, hi, e.start, end);
    } else {
      CountWider(ts, lo, hi, e.start, hi);
      CountSplit(ts, e.start, end + 1, hi);
      CountNone(ts, end + 1, hi);
    }
  }

  /** Another request inside the window. */
  lemma OneMoreAllowed(ts: seq<nat>, e: Entry, now: nat, max: nat, window: nat)
    requires History(ts, e, max, window) && e.start <= now < e.start + window && e.count < max
    ensures History(ts + [now], Entry(e.count + 1, e.start), max, window)
  {
    var us := ts + [now];
    CountAppend(ts, now, e.start, e.start + window);
    forall lo: int | lo + window >= e.start ensures CountBefore(us, lo, e.start) <= Limit(max) {
      CountAppend(ts, now, lo, e.start - 1);
      assert CountBefore(ts, lo, e.start) <= Limit(max);
    }
    forall lo: int ensures CountWithin(us, lo, window) <= 2 * Limit(max) {
      CountAppend(ts, now, lo, lo + window);
      if lo >= e.start {
        FromStart(ts, e, max, window, lo, lo + window);
      } else if lo + window >= e.start {
        CountSplit(ts, lo, e.start, lo + window);
        FromStart(ts, e, max, window, e.start, lo + window);
        assert CountBefore(ts, lo, e.start) <= Limit(max);
      } else {
        assert CountWithin(ts, lo, window) <= 2 * Limit(max);
      }
    }
  }

  /** The first request of the next window. */
  lemma NextWindow(ts: seq<nat>, e: Entry, now: nat, max: nat, window: nat)
    requires History(ts, e, max, window) && now >= e.start + window && window > 0
    ensures History(ts + [now], Entry(1, now), max, window)
  {
    var us := ts + [now];
    CountAppend(ts, now, now, now + window);
    CountNone(ts, now, now + window);
    forall lo: int | lo + window >= now ensures CountBefore(us, lo, now) <= Limit(max) {
      CountAppend(ts, now, lo, now - 1);
      FromStart(ts, e, max, window, lo, now - 1);
    }
    forall lo: int ensures CountWithin(us, lo, window) <= 2 * Limit(max) {
      CountAppend(ts, now, lo, lo + window);
      if lo + window >= now {
        FromStart(ts, e, max, window, lo, lo + window);
      } else {
        assert CountWithin(ts, lo, window) <= 2 * Limit(max);
      }
    }
  }

  /** What a table knows of an address, given what it has been allowed: an entry, or nothing that still matters. */
  ghost predicate Remembers(t: Table, ip: Ip, ts: seq<nat>, now: nat, max: nat, window: nat) {
    (forall i | 0 <= i < |ts| :: ts[i] <= now) &&
    if ip in t then t[ip].start <= now && History(ts, t[ip], max, window)
    else ts == [] || exists e: Entry :: History(ts, e, max, window) && e.start + window <= now
  }

  lemma RemembersLater(t: Table, ip: Ip, ts: seq<nat>, now: nat, later: nat, max: nat, window: nat)
    requires Remembers(t, ip, ts, now, max, window) && now <= later
    ensures Remembers(t, ip, ts, later, max, window)
  {
  }

  lemma RemembersStep(t: Table, r: Request, ip: Ip, ts: seq<nat>, max: nat, window: nat)
    requires Remembers(t, ip, ts, r.now, max, window) && window > 0
    ensures
      var (u, ok) := Allow(t, r, max, window);
      Remembers(u, ip, if ok && r.ip == ip then ts + [r.now] else ts, r.now, max, window)
  {
    hide History;
    var now := r.now;
    if r.ip == ip && ip in t {
      var e := t[ip];
      if Elapsed(now, e.start) >= window {
        NextWindow(ts, e, now, max, window);
      } else if e.count < max {
        OneMoreAllowed(ts, e, now, max, window);
      }
    } else if r.ip == ip {
      if ts == [] {
        FirstAllowed(now, max, window);
        assert ts + [now] == [now];
      } else {
        var e: Entry :| History(ts, e, max, window) && e.start + window <= now;
        NextWindow(ts, e, now, max, window);
      }
    }
  }

  lemma NoTimes(t: Table, ip: Ip, max: nat, window: nat)
    ensures AllowedTimes(t, [], ip, max, window) == []
  {
  }

  lemma TimesUnfold(t: Table, rs: seq<Request>, ip: Ip, ts: seq<nat>, max: nat, window: nat)
    requires rs != []
    ensures
      var (u, ok) := Allow(t, rs[0], max, window);
      var us := if ok && rs[0].ip == ip then ts + [rs[0].now] else ts;
      us + AllowedTimes(u, rs[1..], ip, max, window) == ts + AllowedTimes(t, rs, ip, max, window)
  {
    hide Allow;
  }

  lemma {:induction false} AllowedHistory(t: Table, rs: seq<Request>, ip: Ip, ts: seq<nat>, now: nat, max: nat,
                                          window: nat)
    requires Ordered(rs) && (rs != [] ==> now <= rs[0].now) && window > 0
    requires Remembers(t, ip, ts, now, max, window)
    ensures
      Remembers(TableAfter(t, rs, max, window), ip, ts + AllowedTimes(t, rs, ip, max, window), LastTime(rs, now), max,
        window)
    decreases |rs|
  {
    hide History, Allow, AllowedTimes;
    if rs == [] {
      NoTimes(t, ip, max, window);
      assert ts + [] == ts;
    } else {
      hide Remembers;
      var r := rs[0];
      RemembersLater(t, ip, ts, now, r.now, max, window);
      RemembersStep(t, r, ip, ts, max, window);
      var (u, ok) := Allow(t, r, max, window);
      var us := if ok && r.ip == ip then ts + [r.now] else ts;
      AllowedHistory(u, rs[1..], ip, us, r.now, max, window);
      TimesUnfold(t, rs, ip, ts, max, window);
    }
  }

  /**
   For every history of requests, every address and every closed interval of one window length: at
   most twice `max` requests of that address are allowed in it.
   */
  lemma AtMostTwiceMax(rs: seq<Request>, ip: Ip, max: nat, window: nat, lo: int)
    requires Ordered(rs) && window > 0
    ensures Count(AllowedTimes(map[], rs, ip, max, window), lo, lo + window) <= 2 * Limit(max)
  {
    AllowedHistory(map[], rs, ip, [], 0, max, window);
    var all := AllowedTimes(map[], rs, ip, max, window);
    assert [] + all == all;
    if all != [] {
      var e: Entry :| History(all, e, max, window);
      assert CountWithin(all, lo, window) <= 2 * Limit(max);
    }
  }

  /**
   After every history, a request is refused only when `max` requests of its address were allowed
   less than one window before it.
   */
  lemma RefusedOnlyWhenFull(rs: seq<Request>, r: Request, max: nat, window: nat)
    requires Ordered(rs) && LastTime(rs, 0) <= r.now && window > 0
    requires !Allow(TableAfter(map[], rs, max, window), r, max, window).1
    ensures Count(AllowedTimes(map[], rs, r.ip, max, window), r.now - window + 1, r.now) >= Limit(max)
  {
    AllowedHistory(map[], rs, r.ip, [], 0, max, window);
    var ts := AllowedTimes(map[], rs, r.ip, max, window);
    RemembersLater(TableAfter(map[], rs, max, window), r.ip, [] + ts, LastTime(rs, 0), r.now, max, window);
    assert [] + ts == ts;
    hide TableAfter, AllowedTimes, Remembers;
    RefusedByTable(TableAfter(map[], rs, max, window), r, ts, max, window);
  }

  lemma RefusedByTable(t: Table, r: Request, ts: seq<nat>, max: nat, window: nat)
    requires Remembers(t, r.ip, ts, r.now, max, window) && !Allow(t, r, max, window).1
    ensures Count(ts, r.now - window + 1, r.now) >= Limit(max)
  {
    var e := t[r.ip];
    assert CountWithin(ts, e.start, window) == e.count;
    CountWider(ts, e.start, e.start + window, r.now - window + 1, e.start + window);
    CountSplit(ts, r.now - window + 1, r.now + 1, e.start + window);
    CountNone(ts, r.now + 1, e.start + window);
  }

  /** With an empty window nothing is ever refused. */
  lemma ZeroWindowNeverBlocks(t: Table, r: Request, max: nat)
    ensures Allow(t, r, max, 0).1
  {
  }
}
