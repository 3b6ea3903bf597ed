/** The fixed-window request budget of `RateLimiter::allow`.

    Times are whole seconds of the monotonic clock. The code reads the clock
    before it takes the lock, so the sliding bound is stated for arrivals whose
    times do not decrease in lock order. `count` is a `u32` in a release build:
    it wraps, and the wrap is modelled. */
module RateLimiter {
  import opened Common

  const RATE_LIMIT := 600
  const RATE_WINDOW := 60
  const U32 := 0x1_0000_0000

  datatype Window = Window(started: int, count: nat)

  // `Instant::duration_since` saturates at zero when the clock read is older
  // than the window's start.
  function Elapsed(since: int, now: int): nat {
    if since <= now then now - since else 0
  }

  // What one request does to its tenant's entry.
  function Advance(entry: Option<Window>, now: int): Window {
    var w := if entry.Some? then entry.value else Window(now, 0);
    var w' := if Elapsed(w.started, now) >= RATE_WINDOW then Window(now, 0) else w;
    w'.(count := (w'.count + 1) % U32)
  }

  datatype Arrival<Tenant> = Arrival(tenant: Tenant, now: int)

  function Entry<Tenant>(windows: map<Tenant, Window>, tenant: Tenant): Option<Window> {
    if tenant in windows then Some(windows[tenant]) else None
  }

  class Limiter<Tenant(==)> {
    var windows: map<Tenant, Window>

    constructor ()
      ensures windows == map[]
    {
      windows := map[];
    }

    method Allow(tenant: Tenant, now: int) returns (allowed: bool)
      modifies this
      ensures windows == old(windows)[tenant := Advance(Entry(old(windows), tenant), now)]
      ensures allowed <==> windows[tenant].count <= RATE_LIMIT
    {
      if tenant !in windows {
        windows := windows[tenant := Window(now, 0)];
      }
      var w := windows[tenant];
      if Elapsed(w.started, now) >= RATE_WINDOW {
        w := Window(now, 0);
      }
      w := w.(count := (w.count + 1) % U32);
      windows := windows[tenant := w];
      allowed := w.count <= RATE_LIMIT;
    }

    // A whole run of requests, in lock order: one verdict per arrival.
    method Serve(arrivals: seq<Arrival<Tenant>>) returns (verdicts: seq<bool>)
      requires windows == map[]
      modifies this
      ensures |verdicts| == |arrivals|
      ensures windows == Windows(arrivals)
      ensures forall i :: 0 <= i < |arrivals| ==> verdicts[i] == Verdict(arrivals, i)
    {
      verdicts := [];
      for i := 0 to |arrivals|
        invariant |verdicts| == i
        invariant windows == Windows(arrivals[..i])
        invariant forall k :: 0 <= k < i ==> verdicts[k] == Verdict(arrivals, k)
      {
        var allowed := Allow(arrivals[i].tenant, arrivals[i].now);
        assert arrivals[..i + 1][..i] == arrivals[..i];
        verdicts := verdicts + [allowed];
      }
      assert arrivals[..|arrivals|] == arrivals;
    }
  }

  // The map after a run of arrivals, and the verdict the last one received.
  function Windows<Tenant(==)>(arrivals: seq<Arrival<Tenant>>): map<Tenant, Window> {
    if arrivals == [] then map[]
    else
      var before := Windows(arrivals[..|arrivals| - 1]);
      var a := arrivals[|arrivals| - 1];
      before[a.tenant := Advance(Entry(before, a.tenant), a.now)]
  }

  predicate Verdict<Tenant(==)>(arrivals: seq<Arrival<Tenant>>, i: nat)
    requires i < |arrivals|
  {
    var w := Entry(Windows(arrivals[..i + 1]), arrivals[i].tenant);
    w.Some? && w.value.count <= RATE_LIMIT
  }

  // ------------------------------------------------------------------
  // One tenant's verdicts depend on that tenant's arrivals only
  // ------------------------------------------------------------------

  // The times at which one tenant arrived.
  function TimesOf<Tenant(==)>(arrivals: seq<Arrival<Tenant>>, tenant: Tenant): seq<int> {
    if arrivals == [] then []
    else
      var a := arrivals[|arrivals| - 1];
      var before := TimesOf(arrivals[..|arrivals| - 1], tenant);
      if a.tenant == tenant then before + [a.now] else before
  }

  // The entry of a tenant seen alone, after arrivals at the given times.
  function Alone(times: seq<int>): Option<Window> {
    if times == [] then None
    else Some(Advance(Alone(times[..|times| - 1]), times[|times| - 1]))
  }

  // Whether the last of these arrivals is let through.
  predicate Admits(times: seq<int>)
    requires times != []
  {
    Alone(times).value.count <= RATE_LIMIT
  }

  // A request opens a window when there is none, or a full minute after the one
  // there is opened, and at no other time, a clock read too early included.
  lemma WindowOpens(times: seq<int>, now: int)
    ensures times == [] ==> Alone([now]) == Some(Window(now, 1))
    ensures times != [] ==>
      var before, after := Alone(times).value, Alone(times + [now]).value;
      if now - before.started >= 60 then after == Window(now, 1)
      else after == Window(before.started, (before.count + 1) % U32)
    ensures Admits(times + [now]) <==> Alone(times + [now]).value.count <= 600
  {
    AloneNext(times, now);
    AloneNext([], now);
    hide Alone;
  }

  lemma AloneNext(times: seq<int>, now: int)
    ensures Alone(times + [now]) == Some(Advance(Alone(times), now))
    ensures times != [] ==> Alone(times).Some?
    ensures times == [] ==> Alone(times).None? && times + [now] == [now]
  {
    hide Advance;
    assert (times + [now])[..|times|] == times;
  }

  lemma {:induction false} EntryIsAlone<Tenant>(arrivals: seq<Arrival<Tenant>>, tenant: Tenant)
    ensures Entry(Windows(arrivals), tenant) == Alone(TimesOf(arrivals, tenant))
  {
    if arrivals != [] {
      var before := arrivals[..|arrivals| - 1];
      EntryIsAlone(before, tenant);
      var a := arrivals[|arrivals| - 1];
      if a.tenant == tenant {
        assert TimesOf(arrivals, tenant)[..|TimesOf(before, tenant)|] == TimesOf(before, tenant);
      }
    }
  }

  lemma {:induction false} TenantsDoNotInterfere<Tenant>(arrivals: seq<Arrival<Tenant>>, i: nat)
    requires i < |arrivals|
    ensures TimesOf(arrivals[..i + 1], arrivals[i].tenant) != []
    ensures Verdict(arrivals, i) <==> Admits(TimesOf(arrivals[..i + 1], arrivals[i].tenant))
  {
    var prefix := arrivals[..i + 1];
    assert prefix[|prefix| - 1] == arrivals[i];
    EntryIsAlone(prefix, arrivals[i].tenant);
  }

  // ------------------------------------------------------------------
  // The sliding bound
  // ------------------------------------------------------------------

  predicate Nondecreasing(times: seq<int>) {
    forall i, j :: 0 <= i < j < |times| ==> times[i] <= times[j]
  }

  // No window ever sees as many as 2^32 - 1 further arrivals.
  predicate Sparse(times: seq<int>) {
    forall i, j :: 0 <= i && i + U32 - 1 <= j < |times| ==> times[i] + RATE_WINDOW <= times[j]
  }

  // How many of these arrivals were let through at a time in [lo, hi).
  function Admitted(times: seq<int>, lo: int, hi: int): nat {
    if times == [] then 0
    else
      Admitted(times[..|times| - 1], lo, hi)
      + if lo <= times[|times| - 1] < hi && Admits(times) then 1 else 0
  }

  lemma {:induction false} NothingBefore(times: seq<int>, lo: int, hi: int)
    requires forall k :: 0 <= k < |times| ==> times[k] < lo
    ensures Admitted(times, lo, hi) == 0
  {
    if times != [] {
      NothingBefore(times[..|times| - 1], lo, hi);
    }
  }

  // How many of these arrivals the window of the last one holds.
  function InWindow(times: seq<int>): nat
    requires times != []
  {
    var before := times[..|times| - 1];
    if before == [] || Elapsed(Alone(before).value.started, times[|times| - 1]) >= RATE_WINDOW then 1
    else InWindow(before) + 1
  }

  // A window opens at one of its own arrivals, holds everything since, and
  // counts it modulo 2^32.
  predicate OpensWith(times: seq<int>, w: Window, n: nat) {
    && 1 <= n <= |times|
    && w.count == n % U32
    && times[|times| - n] == w.started
    && w.started <= times[|times| - 1] < w.started + RATE_WINDOW
    && forall k :: 0 <= k < |times| - n ==> times[k] < w.started
  }

  lemma CountStep(n: nat)
    ensures (n % U32 + 1) % U32 == (n + 1) % U32
  {
  }

  lemma OpensOn(before: seq<int>, w: Window, n: nat, now: int)
    requires before != [] && OpensWith(before, w, n)
    requires before[|before| - 1] <= now < w.started + RATE_WINDOW
    ensures OpensWith(before + [now], Window(w.started, (n + 1) % U32), n + 1)
  {
    var times := before + [now];
    assert |times| - (n + 1) == |before| - n;
    assert forall k :: 0 <= k < |before| ==> times[k] == before[k];
  }

  lemma OpensAnew(before: seq<int>, now: int)
    requires before != [] && Nondecreasing(before) && before[|before| - 1] < now
    ensures OpensWith(before + [now], Window(now, 1), 1)
  {
    forall k | 0 <= k < |before|
      ensures (before + [now])[k] < now
    {
      assert before[k] <= before[|before| - 1];
    }
  }

  lemma OpensNext(before: seq<int>, w: Window, n: nat, now: int)
    requires before != [] && Nondecreasing(before) && before[|before| - 1] <= now && OpensWith(before, w, n)
    ensures OpensWith(before + [now], Advance(Some(w), now), if Elapsed(w.started, now) >= RATE_WINDOW then 1 else n + 1)
  {
    assert w.started <= before[|before| - 1] < w.started + RATE_WINDOW && w.count == n % U32;
    hide OpensWith, Nondecreasing;
    CountStep(n);
    if Elapsed(w.started, now) >= RATE_WINDOW {
      OpensAnew(before, now);
    } else {
      OpensOn(before, w, n, now);
    }
  }

  lemma {:induction false} OpenedWith(times: seq<int>)
    requires times != [] && Nondecreasing(times)
    ensures OpensWith(times, Alone(times).value, InWindow(times))
  {
    var before := times[..|times| - 1];
    if before != [] {
      OpenedWith(before);
      assert before + [times[|times| - 1]] == times && before[|before| - 1] == times[|times| - 2];
      OpensNext(before, Alone(before).value, InWindow(before), times[|times| - 1]);
    }
  }

  // Where windows are sparse the count is the arrivals themselves.
  predicate OpensAt(times: seq<int>, w: Window) {
    w.count < U32 && OpensWith(times, w, w.count)
  }

  lemma SparseApart(times: seq<int>, i: nat)
    requires Sparse(times) && i + U32 <= |times|
    ensures times[i] + RATE_WINDOW <= times[|times| - 1]
  {
  }

  lemma OpenedBy(times: seq<int>)
    requires times != [] && Nondecreasing(times) && Sparse(times)
    ensures OpensAt(times, Alone(times).value)
  {
    hide Sparse;
    OpenedWith(times);
    if InWindow(times) >= U32 {
      SparseApart(times, |times| - InWindow(times));
    }
  }

  // The induction behind the bound, while the run is still inside the interval.
  lemma {:induction false} Inside(times: seq<int>, lo: int)
    requires times != [] && Nondecreasing(times) && Sparse(times)
    requires times[|times| - 1] < lo + RATE_WINDOW
    ensures var w := Alone(times).value;
      Admitted(times, lo, lo + RATE_WINDOW)
      <= if w.started < lo then Min(w.count, RATE_LIMIT) - 1
         else RATE_LIMIT - 1 + Min(w.count, RATE_LIMIT)
  {
    var hi := lo + RATE_WINDOW;
    var before := times[..|times| - 1];
    var now := times[|times| - 1];
    OpenedBy(times);
    if before != [] {
      OpenedBy(before);
      Inside(before, lo);
      if now < lo {
        NothingBefore(times, lo, hi);
      }
    }
  }

  lemma {:induction false} SlidingBound(times: seq<int>, lo: int)
    requires Nondecreasing(times) && Sparse(times)
    ensures Admitted(times, lo, lo + RATE_WINDOW) <= 2 * RATE_LIMIT - 1
  {
    if times != [] {
      if times[|times| - 1] < lo + RATE_WINDOW {
        OpenedBy(times);
        Inside(times, lo);
      } else {
        SlidingBound(times[..|times| - 1], lo);
      }
    }
  }

  // How many of these arrivals came at a time in [lo, hi).
  function Arrived(times: seq<int>, lo: int, hi: int): nat {
    if times == [] then 0
    else Arrived(times[..|times| - 1], lo, hi) + if lo <= times[|times| - 1] < hi then 1 else 0
  }

  // What n arrivals of one window get: a full budget, and one request and a
  // full budget more each time the count wraps.
  function Windfall(n: nat): nat {
    n / U32 * (RATE_LIMIT + 1) + Min(n % U32, RATE_LIMIT)
  }

  lemma WindfallStep(n: nat)
    ensures Windfall(n + 1) == Windfall(n) + if (n + 1) % U32 <= RATE_LIMIT then 1 else 0
    ensures Windfall(0) == 0
    ensures Windfall(n) <= RATE_LIMIT <==> n < U32
    ensures n < U32 ==> Windfall(n) == Min(n, RATE_LIMIT)
    ensures Windfall(n) > 2 * RATE_LIMIT - 1 <==> n >= U32 + RATE_LIMIT - 1
  {
    assert (n + 1) / U32 == if (n + 1) % U32 == 0 then n / U32 + 1 else n / U32;
  }

  lemma {:induction false} NobodyBefore(times: seq<int>, lo: int, hi: int)
    requires forall k :: 0 <= k < |times| ==> times[k] < lo
    ensures Arrived(times, lo, hi) == 0
  {
    if times != [] {
      NobodyBefore(times[..|times| - 1], lo, hi);
    }
  }

  lemma {:induction false} WindowHolds(times: seq<int>)
    requires times != [] && Nondecreasing(times)
    ensures var w := Alone(times).value;
      && Arrived(times, w.started, w.started + RATE_WINDOW) == InWindow(times)
      && Admitted(times, w.started, w.started + RATE_WINDOW) == Windfall(InWindow(times))
  {
    hide Windfall;
    OpenedWith(times);
    var before := times[..|times| - 1];
    var w, n := Alone(times).value, InWindow(times);
    WindfallStep(n - 1);
    if n > 1 {
      WindowHolds(before);
    } else {
      WindfallStep(0);
      assert before == times[..|times| - n];
      NothingBefore(before, w.started, w.started + RATE_WINDOW);
      NobodyBefore(before, w.started, w.started + RATE_WINDOW);
    }
  }

  // Everything one window admits: of n arrivals the first of them up to the
  // limit, as long as the count has not wrapped. The window keeps to its limit
  // exactly then, and alone exceeds the bound of two windows exactly when the
  // wrap has let a second budget through.
  lemma WindowBudget(times: seq<int>)
    requires times != [] && Nondecreasing(times)
    ensures var w := Alone(times).value;
      var n, admitted := Arrived(times, w.started, w.started + RATE_WINDOW), Admitted(times, w.started, w.started + RATE_WINDOW);
      && admitted == Windfall(n)
      && (admitted <= RATE_LIMIT <==> n < U32)
      && (n < U32 ==> admitted == Min(n, RATE_LIMIT))
      && (admitted > 2 * RATE_LIMIT - 1 <==> n >= U32 + RATE_LIMIT - 1)
  {
    WindowHolds(times);
    WindfallStep(InWindow(times));
  }

  // How many requests of one tenant a whole run let through in [lo, hi).
  function Granted<Tenant(==)>(arrivals: seq<Arrival<Tenant>>, tenant: Tenant, lo: int, hi: int): nat {
    if arrivals == [] then 0
    else
      var last := |arrivals| - 1;
      Granted(arrivals[..last], tenant, lo, hi)
      + if arrivals[last].tenant == tenant && lo <= arrivals[last].now < hi && Verdict(arrivals, last)
        then 1 else 0
  }

  lemma {:induction false} GrantedAlone<Tenant>(arrivals: seq<Arrival<Tenant>>, tenant: Tenant, lo: int, hi: int)
    ensures Granted(arrivals, tenant, lo, hi) == Admitted(TimesOf(arrivals, tenant), lo, hi)
  {
    if arrivals != [] {
      var last := |arrivals| - 1;
      GrantedAlone(arrivals[..last], tenant, lo, hi);
      if arrivals[last].tenant == tenant {
        TenantsDoNotInterfere(arrivals, last);
        assert arrivals[..last + 1] == arrivals;
        var before := TimesOf(arrivals[..last], tenant);
        assert TimesOf(arrivals, tenant)[..|before|] == before;
      }
    }
  }

  // Whatever the other tenants send, one tenant never gets two full budgets
  // within one window's length.
  lemma TenantBudget<Tenant>(arrivals: seq<Arrival<Tenant>>, tenant: Tenant, lo: int)
    requires Nondecreasing(TimesOf(arrivals, tenant)) && Sparse(TimesOf(arrivals, tenant))
    ensures Granted(arrivals, tenant, lo, lo + RATE_WINDOW) <= 2 * RATE_LIMIT - 1
  {
    GrantedAlone(arrivals, tenant, lo, lo + RATE_WINDOW);
    SlidingBound(TimesOf(arrivals, tenant), lo);
  }

  // ------------------------------------------------------------------
  // The bound is tight, and needs each of its hypotheses
  // ------------------------------------------------------------------

  function Repeat(n: nat, t: int): (r: seq<int>)
    ensures |r| == n && forall k :: 0 <= k < n ==> r[k] == t
  {
    if n == 0 then [] else Repeat(n - 1, t) + [t]
  }

  lemma OneMore(times: seq<int>, now: int, lo: int, hi: int)
    ensures Alone(times + [now]) == Some(Advance(Alone(times), now))
    ensures Admitted(times + [now], lo, hi)
         == Admitted(times, lo, hi)
            + if lo <= now < hi && Advance(Alone(times), now).count <= RATE_LIMIT then 1 else 0
  {
    assert (times + [now])[..|times|] == times;
  }

  // One arrival at 0, the rest of the budget at 59, a full budget at 60.
  function Burst(n: nat): seq<int> {
    if n == 0 then [0]
    else Burst(n - 1) + [if n <= RATE_LIMIT - 1 then RATE_WINDOW - 1 else RATE_WINDOW]
  }

  // The window a burst of this length ends in.
  function BurstWindow(n: nat): Window {
    if n <= RATE_LIMIT - 1 then Window(0, n + 1) else Window(RATE_WINDOW, n - (RATE_LIMIT - 1))
  }

  predicate BurstSoFar(times: seq<int>, n: nat) {
    Alone(times) == Some(BurstWindow(n)) && Admitted(times, 1, 1 + RATE_WINDOW) == n
  }

  lemma BurstStart()
    ensures BurstSoFar([0], 0)
  {
    OneMore([], 0, 1, 1 + RATE_WINDOW);
    assert [] + [0] == [0];
  }

  lemma {:induction false} BurstCount(n: nat)
    requires n <= 2 * RATE_LIMIT - 1
    ensures BurstSoFar(Burst(n), n)
  {
    hide BurstSoFar;
    if n == 0 {
      BurstStart();
    } else {
      BurstCount(n - 1);
      BurstStep(Burst(n - 1), n);
    }
  }

  lemma BurstStep(times: seq<int>, n: nat)
    requires 1 <= n <= 2 * RATE_LIMIT - 1
    requires BurstSoFar(times, n - 1)
    ensures BurstSoFar(times + [if n <= RATE_LIMIT - 1 then RATE_WINDOW - 1 else RATE_WINDOW], n)
  {
    OneMore(times, if n <= RATE_LIMIT - 1 then RATE_WINDOW - 1 else RATE_WINDOW,
            1, 1 + RATE_WINDOW);
  }

  lemma {:induction false} BurstShape(n: nat)
    ensures |Burst(n)| == n + 1 && Nondecreasing(Burst(n))
    ensures forall k :: 0 <= k <= n ==> Burst(n)[k] <= if n <= RATE_LIMIT - 1 then RATE_WINDOW - 1 else RATE_WINDOW
  {
    if n > 0 {
      BurstShape(n - 1);
    }
  }

  lemma BoundIsTight()
    ensures var times := Burst(2 * RATE_LIMIT - 1);
      && Nondecreasing(times)
      && Sparse(times)
      && Admitted(times, 1, 1 + RATE_WINDOW) == 2 * RATE_LIMIT - 1
  {
    BurstShape(2 * RATE_LIMIT - 1);
    BurstCount(2 * RATE_LIMIT - 1);
  }

  // n requests at one instant, wrapping or not, are one window's arrivals.
  lemma {:induction false} SameInstant(n: nat)
    requires n > 0
    ensures Nondecreasing(Repeat(n, 0)) && Alone(Repeat(n, 0)).value.started == 0
    ensures Arrived(Repeat(n, 0), 0, RATE_WINDOW) == n
  {
    assert Repeat(n, 0)[..n - 1] == Repeat(n - 1, 0);
    if n > 1 {
      SameInstant(n - 1);
    }
  }

  lemma CrowdIsNotSparse(n: nat)
    requires n >= U32
    ensures !Sparse(Repeat(n, 0))
  {
    var times := Repeat(n, 0);
    assert times[0] + RATE_WINDOW > times[U32 - 1];
  }

  // With the wrap, requests in order but not sparse break the bound: a window
  // of any number of arrivals from 2^32 + 599 on.
  lemma WrapBreaksTheBound(n: nat)
    requires n >= U32 + RATE_LIMIT - 1
    ensures var times := Repeat(n, 0);
      Nondecreasing(times) && !Sparse(times) && Admitted(times, 0, RATE_WINDOW) > 2 * RATE_LIMIT - 1
  {
    hide Sparse, Windfall, Alone, Admitted, Arrived;
    SameInstant(n);
    WindowBudget(Repeat(n, 0));
    CrowdIsNotSparse(n);
  }

  // Two requests let in late: the clock of the last was read before the window
  // it is counted in opened, and its time lies with a full budget and more.
  lemma DisorderBreaksTheBound()
    ensures var times := Burst(2 * RATE_LIMIT - 1) + [2 * RATE_WINDOW] + [RATE_WINDOW];
      Sparse(times) && !Nondecreasing(times) && Admitted(times, 1, 1 + RATE_WINDOW) > 2 * RATE_LIMIT - 1
  {
    var burst := Burst(2 * RATE_LIMIT - 1);
    BurstShape(2 * RATE_LIMIT - 1);
    BurstCount(2 * RATE_LIMIT - 1);
    OneMore(burst, 2 * RATE_WINDOW, 1, 1 + RATE_WINDOW);
    OneMore(burst + [2 * RATE_WINDOW], RATE_WINDOW, 1, 1 + RATE_WINDOW);
    var times := burst + [2 * RATE_WINDOW] + [RATE_WINDOW];
    assert times[|burst|] > times[|burst| + 1];
  }
}
