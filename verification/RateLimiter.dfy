/** The fixed-window limiter of Activity revalidation, and what it admits over whole runs. */
module RateLimiter {
  import opened Common

  type Key = string

  datatype Window = Window(startedAt: int, count: nat)

  /** One admitted request, with the start of the window it was counted in. */
  datatype Admission = Admission(key: Key, at: int, start: int)

  datatype Limits = Limits(maxRequests: nat, windowMs: int)

  predicate Positive(l: Limits) { l.maxRequests > 0 && l.windowMs > 0 }

  datatype State = State(windows: map<Key, Window>, clock: int, admitted: seq<Admission>)

  datatype Request = Request(key: Key, at: int)

  function Limited(l: Limits, w: map<Key, Window>, r: Request): bool {
    r.key in w && r.at - w[r.key].startedAt < l.windowMs && w[r.key].count >= l.maxRequests
  }

  /** The window a request is counted in once it is admitted. */
  function NextWindow(l: Limits, w: map<Key, Window>, r: Request): Window {
    if r.key !in w || r.at - w[r.key].startedAt >= l.windowMs then Window(r.at, 1)
    else w[r.key].(count := w[r.key].count + 1)
  }

  function Step(l: Limits, s: State, r: Request): State {
    if Limited(l, s.windows, r) then s.(clock := r.at)
    else
      var next := NextWindow(l, s.windows, r);
      State(s.windows[r.key := next], r.at, s.admitted + [Admission(r.key, r.at, next.startedAt)])
  }

  function Run(l: Limits, s: State, rs: seq<Request>): State
    decreases |rs|
  {
    if rs == [] then s else Step(l, Run(l, s, rs[..|rs| - 1]), rs[|rs| - 1])
  }

  function ClockBefore(start: int, rs: seq<Request>, i: nat): int
    requires i <= |rs|
  {
    if i == 0 then start else rs[i - 1].at
  }

  /** The clock does not go backwards. */
  predicate Monotone(start: int, rs: seq<Request>) {
    forall i :: 0 <= i < |rs| ==> ClockBefore(start, rs, i) <= rs[i].at
  }

  // ---------------------------------------------------------------- counting

  /** Admissions of a key counted in the window that started at `start`, from time `from` on. */
  function InWindow(log: seq<Admission>, key: Key, start: int, from: int): nat {
    if log == [] then 0
    else
      var e := log[|log| - 1];
      InWindow(log[..|log| - 1], key, start, from) + if e.key == key && e.start == start && e.at >= from then 1 else 0
  }

  /** Admissions of a key in the half-open interval from `from` to `to`. */
  function InInterval(log: seq<Admission>, key: Key, from: int, to: int): nat {
    if log == [] then 0
    else
      var e := log[|log| - 1];
      InInterval(log[..|log| - 1], key, from, to) + if e.key == key && from <= e.at < to then 1 else 0
  }

  // ---------------------------------------------------------------- the invariant

  predicate EntryOk(l: Limits, s: State, e: Admission) {
    && e.start <= e.at < e.start + l.windowMs && e.at <= s.clock
    && e.key in s.windows
    && (e.start == s.windows[e.key].startedAt || e.start + l.windowMs <= s.windows[e.key].startedAt)
  }

  predicate Apart(l: Limits, e: Admission, f: Admission) {
    e.key == f.key ==> e.start == f.start || e.start + l.windowMs <= f.start || f.start + l.windowMs <= e.start
  }

  /** Every window was opened by an admission at its very start. */
  predicate Opened(log: seq<Admission>, e: Admission) { Admission(e.key, e.start, e.start) in log }

  ghost predicate LimiterOk(l: Limits, s: State) {
    && (forall e :: e in s.admitted ==> EntryOk(l, s, e))
    && (forall e :: e in s.admitted ==> Opened(s.admitted, e))
    && (forall e, f :: e in s.admitted && f in s.admitted ==> Apart(l, e, f))
    && (forall k :: k in s.windows ==>
          && s.windows[k].startedAt <= s.clock && 1 <= s.windows[k].count <= l.maxRequests
          && InWindow(s.admitted, k, s.windows[k].startedAt, s.windows[k].startedAt) == s.windows[k].count)
    && (forall k, start :: InWindow(s.admitted, k, start, start) <= l.maxRequests)
  }

  /** A window nobody was counted in has no admissions. */
  lemma {:induction false} NoneInWindow(log: seq<Admission>, key: Key, start: int, from: int)
    requires forall e :: e in log ==> !(e.key == key && e.start == start)
    ensures InWindow(log, key, start, from) == 0
    decreases |log|
  {
    if log != [] {
      assert log[|log| - 1] in log;
      NoneInWindow(log[..|log| - 1], key, start, from);
    }
  }

  lemma AdmittedLog(l: Limits, s: State, r: Request)
    requires !Limited(l, s.windows, r)
    ensures var s' := Step(l, s, r);
            && |s'.admitted| == |s.admitted| + 1 && s'.admitted[..|s.admitted|] == s.admitted
            && s'.admitted[|s.admitted|] == Admission(r.key, r.at, NextWindow(l, s.windows, r).startedAt)
  {
  }

  lemma StepCounts(l: Limits, s: State, r: Request)
    requires Positive(l) && LimiterOk(l, s) && s.clock <= r.at && !Limited(l, s.windows, r)
    ensures var s' := Step(l, s, r);
            && (forall k :: k in s'.windows ==>
                  && 1 <= s'.windows[k].count <= l.maxRequests
                  && InWindow(s'.admitted, k, s'.windows[k].startedAt, s'.windows[k].startedAt) == s'.windows[k].count)
            && (forall k, start :: InWindow(s'.admitted, k, start, start) <= l.maxRequests)
  {
    var s' := Step(l, s, r);
    AdmittedLog(l, s, r);
    var next := NextWindow(l, s.windows, r);
    if next.startedAt == r.at && next.count == 1 {
      forall e | e in s.admitted ensures !(e.key == r.key && e.start == r.at) {
        assert EntryOk(l, s, e);
      }
      NoneInWindow(s.admitted, r.key, r.at, r.at);
    }
    forall k, start ensures InWindow(s'.admitted, k, start, start) <= l.maxRequests {
      assert InWindow(s.admitted, k, start, start) <= l.maxRequests;
    }
  }

  lemma StepOk(l: Limits, s: State, r: Request)
    requires Positive(l) && LimiterOk(l, s) && s.clock <= r.at
    ensures LimiterOk(l, Step(l, s, r))
  {
    var s' := Step(l, s, r);
    if Limited(l, s.windows, r) {
      forall e | e in s'.admitted ensures EntryOk(l, s', e) {
        assert EntryOk(l, s, e);
      }
    } else {
      AdmittedLog(l, s, r);
      StepCounts(l, s, r);
      var entry := Admission(r.key, r.at, NextWindow(l, s.windows, r).startedAt);
      assert forall e :: e in s'.admitted <==> e in s.admitted || e == entry;
      forall e | e in s'.admitted ensures EntryOk(l, s', e) {
        if e in s.admitted {
          assert EntryOk(l, s, e);
        }
      }
      OpenerKept(l, s, r, entry);
      forall e, f | e in s'.admitted && f in s'.admitted ensures Apart(l, e, f) {
        if e in s.admitted {
          assert EntryOk(l, s, e);
        }
        if f in s.admitted {
          assert EntryOk(l, s, f);
        }
      }
    }
  }

  lemma OpenerKept(l: Limits, s: State, r: Request, entry: Admission)
    requires Positive(l) && LimiterOk(l, s) && !Limited(l, s.windows, r)
    requires entry == Admission(r.key, r.at, NextWindow(l, s.windows, r).startedAt)
    ensures forall e :: e in s.admitted + [entry] ==> Opened(s.admitted + [entry], e)
  {
    var log := s.admitted + [entry];
    assert entry in log;
    forall e | e in log ensures Opened(log, e) {
      if e in s.admitted {
        assert Opened(s.admitted, e);
      } else if entry.start != r.at || s.windows != s.windows[r.key := Window(r.at, 1)] {
        if r.key in s.windows && entry.start == s.windows[r.key].startedAt {
          CountedIsThere(s.admitted, r.key, entry.start, entry.start);
          var f :| f in s.admitted && f.key == r.key && f.start == entry.start;
          assert Opened(s.admitted, f);
        }
      }
    }
  }

  lemma {:induction false} CountedIsThere(log: seq<Admission>, key: Key, start: int, from: int)
    requires InWindow(log, key, start, from) > 0
    ensures exists f :: f in log && f.key == key && f.start == start
    decreases |log|
  {
    var e := log[|log| - 1];
    if e.key == key && e.start == start {
      assert e in log;
    } else {
      CountedIsThere(log[..|log| - 1], key, start, from);
    }
  }

  lemma {:induction false} ClockOf(l: Limits, s: State, rs: seq<Request>)
    ensures Run(l, s, rs).clock == ClockBefore(s.clock, rs, |rs|)
  {
  }

  lemma {:induction false} RunLimiterOk(l: Limits, start: int, rs: seq<Request>)
    requires Positive(l) && Monotone(start, rs)
    ensures LimiterOk(l, Run(l, State(map[], start, []), rs))
    decreases |rs|
  {
    var s0 := State(map[], start, []);
    if rs != [] {
      var before := rs[..|rs| - 1];
      forall i | 0 <= i < |before| ensures ClockBefore(start, before, i) <= before[i].at {
        assert ClockBefore(start, before, i) == ClockBefore(start, rs, i) <= rs[i].at;
      }
      RunLimiterOk(l, start, before);
      ClockOf(l, s0, before);
      assert ClockBefore(start, rs, |rs| - 1) == ClockBefore(start, before, |before|);
      StepOk(l, Run(l, s0, before), rs[|rs| - 1]);
    }
  }

  // ---------------------------------------------------------------- the bounds

  /** The admissions of an interval whose windows started at `a` or `b` are counted in those windows. */
  lemma {:induction false} TwoWindows(log: seq<Admission>, key: Key, from: int, to: int, a: int, b: int)
    requires forall e :: e in log && e.key == key && from <= e.at < to ==> e.start == a || e.start == b
    ensures InInterval(log, key, from, to) <= InWindow(log, key, a, from) + if a == b then 0 else InWindow(log, key, b, from)
    decreases |log|
  {
    if log != [] {
      assert log[|log| - 1] in log;
      TwoWindows(log[..|log| - 1], key, from, to, a, b);
    }
  }

  /** From later than its start, a window admits at least one request fewer: its opener is left out. */
  lemma {:induction false} WithoutOpener(log: seq<Admission>, key: Key, start: int, from: int)
    requires start < from && Admission(key, start, start) in log
    ensures InWindow(log, key, start, from) + 1 <= InWindow(log, key, start, start)
    decreases |log|
  {
    var e := log[|log| - 1];
    var rest := log[..|log| - 1];
    if e == Admission(key, start, start) {
      FewerFromLater(rest, key, start, from);
    } else {
      assert log == rest + [e];
      WithoutOpener(rest, key, start, from);
    }
  }

  lemma {:induction false} FewerFromLater(log: seq<Admission>, key: Key, start: int, from: int)
    requires start <= from
    ensures InWindow(log, key, start, from) <= InWindow(log, key, start, start)
    decreases |log|
  {
    if log != [] {
      FewerFromLater(log[..|log| - 1], key, start, from);
    }
  }

  lemma {:induction false} NoneInInterval(log: seq<Admission>, key: Key, from: int, to: int)
    requires forall e :: e in log ==> !(e.key == key && from <= e.at < to)
    ensures InInterval(log, key, from, to) == 0
    decreases |log|
  {
    if log != [] {
      assert log[|log| - 1] in log;
      NoneInInterval(log[..|log| - 1], key, from, to);
    }
  }

  predicate Hit(log: seq<Admission>, e: Admission, key: Key, from: int, to: int) { e in log && e.key == key && from <= e.at < to }

  lemma WindowFrom(l: Limits, s: State, e: Admission, from: int)
    requires LimiterOk(l, s) && e in s.admitted
    ensures InWindow(s.admitted, e.key, e.start, from) <= l.maxRequests
    ensures e.start < from ==> InWindow(s.admitted, e.key, e.start, from) <= l.maxRequests - 1
  {
    assert InWindow(s.admitted, e.key, e.start, e.start) <= l.maxRequests;
    if e.start < from {
      assert Opened(s.admitted, e);
      WithoutOpener(s.admitted, e.key, e.start, from);
    } else {
      EarlierFrom(s.admitted, e.key, e.start, from, l, s);
    }
  }

  /** Asking from before the window's start asks for all of it. */
  lemma {:induction false} EarlierFrom(log: seq<Admission>, key: Key, start: int, from: int, l: Limits, s: State)
    requires from <= start && forall e :: e in log ==> EntryOk(l, s, e)
    ensures InWindow(log, key, start, from) == InWindow(log, key, start, start)
    decreases |log|
  {
    if log != [] {
      assert EntryOk(l, s, log[|log| - 1]);
      EarlierFrom(log[..|log| - 1], key, start, from, l, s);
    }
  }

  /** Over every run with a clock that never goes back: each window admits at most the maximum, and any
      half-open interval of one window's length admits at most twice the maximum less one. */
  lemma LimiterBound(l: Limits, start: int, rs: seq<Request>, key: Key, from: int)
    requires Positive(l) && Monotone(start, rs)
    ensures var log := Run(l, State(map[], start, []), rs).admitted;
            && (forall w :: InWindow(log, key, w, w) <= l.maxRequests)
            && InInterval(log, key, from, from + l.windowMs) <= 2 * l.maxRequests - 1
  {
    RunLimiterOk(l, start, rs);
    IntervalBound(l, Run(l, State(map[], start, []), rs), key, from);
  }

  lemma IntervalBound(l: Limits, s: State, key: Key, from: int)
    requires Positive(l) && LimiterOk(l, s)
    ensures InInterval(s.admitted, key, from, from + l.windowMs) <= 2 * l.maxRequests - 1
  {
    var to := from + l.windowMs;
    if e :| Hit(s.admitted, e, key, from, to) {
      WindowFrom(l, s, e, from);
      if f :| Hit(s.admitted, f, key, from, to) && f.start != e.start {
        WindowFrom(l, s, f, from);
        assert EntryOk(l, s, e) && EntryOk(l, s, f) && Apart(l, e, f);
        forall g | g in s.admitted && g.key == key && from <= g.at < to ensures g.start == e.start || g.start == f.start {
          assert EntryOk(l, s, g) && Apart(l, g, e) && Apart(l, g, f);
        }
        TwoWindows(s.admitted, key, from, to, e.start, f.start);
      } else {
        forall g | g in s.admitted && g.key == key && from <= g.at < to ensures g.start == e.start {
          assert Hit(s.admitted, g, key, from, to);
        }
        TwoWindows(s.admitted, key, from, to, e.start, e.start);
      }
    } else {
      forall g | g in s.admitted ensures !(g.key == key && from <= g.at < to) {
        assert !Hit(s.admitted, g, key, from, to);
      }
      NoneInInterval(s.admitted, key, from, to);
    }
  }

  // ---------------------------------------------------------------- what is refused, exactly

  /** In terms of the log alone: some window of the key that covers this moment already counts the maximum. */
  ghost predicate WindowFull(l: Limits, s: State, r: Request) {
    exists e :: e in s.admitted && e.key == r.key && e.start <= r.at < e.start + l.windowMs
                && InWindow(s.admitted, r.key, e.start, e.start) == l.maxRequests
  }

  lemma {:induction false} CountedIsLogged(log: seq<Admission>, key: Key, start: int, from: int) returns (e: Admission)
    requires InWindow(log, key, start, from) > 0
    ensures e in log && e.key == key && e.start == start
    decreases |log|
  {
    e := log[|log| - 1];
    if !(e.key == key && e.start == start && e.at >= from) {
      e := CountedIsLogged(log[..|log| - 1], key, start, from);
    }
  }

  /** A request is refused exactly when its key's window is full, and an admitted one is counted in the
      window that covers it, or opens one. */
  lemma RefusedExactly(l: Limits, s: State, r: Request)
    requires Positive(l) && LimiterOk(l, s) && s.clock <= r.at
    ensures var s' := Step(l, s, r);
            && s'.clock == r.at
            && (s'.admitted == s.admitted <==> WindowFull(l, s, r))
            && (s'.admitted != s.admitted ==>
                  && |s'.admitted| == |s.admitted| + 1 && s'.admitted[..|s.admitted|] == s.admitted
                  && var a := s'.admitted[|s.admitted|];
                     && a.key == r.key && a.at == r.at && a.start <= r.at < a.start + l.windowMs
                     && (a.start == r.at || exists e :: e in s.admitted && e.key == r.key && e.start == a.start)
                     && ((forall e :: e in s.admitted && e.key == r.key ==> !(e.start <= r.at < e.start + l.windowMs)) ==> a.start == r.at))
  {
    if !Limited(l, s.windows, r) { AdmittedLog(l, s, r); }
    if r.key in s.windows {
      var w := s.windows[r.key];
      var e := CountedIsLogged(s.admitted, r.key, w.startedAt, w.startedAt);
      forall f | f in s.admitted && f.key == r.key && f.start <= r.at < f.start + l.windowMs ensures f.start == w.startedAt {
        assert EntryOk(l, s, f);
      }
    } else {
      forall f | f in s.admitted ensures f.key != r.key {
        assert EntryOk(l, s, f);
      }
    }
  }

  // ---------------------------------------------------------------- the bound is attained

  function Repeat(r: Request, n: nat): seq<Request> { seq(n, i => r) }

  function Copies(a: Admission, n: nat): seq<Admission> { seq(n, i => a) }

  lemma {:induction false} RunAppend(l: Limits, s: State, a: seq<Request>, b: seq<Request>)
    ensures Run(l, s, a + b) == Run(l, Run(l, s, a), b)
    decreases |b|
  {
    if b == [] {
      assert a + b == a;
    } else {
      assert (a + b)[..|a + b| - 1] == a + b[..|b| - 1];
      RunAppend(l, s, a, b[..|b| - 1]);
    }
  }

  /** Requests inside an open window are admitted while the count lasts. */
  lemma {:induction false} BurstAdmitted(l: Limits, s: State, r: Request, n: nat)
    requires r.key in s.windows && r.at - s.windows[r.key].startedAt < l.windowMs
    requires s.windows[r.key].count + n <= l.maxRequests
    ensures var s' := Run(l, s, Repeat(r, n));
            && s'.windows == s.windows[r.key := Window(s.windows[r.key].startedAt, s.windows[r.key].count + n)]
            && s'.admitted == s.admitted + Copies(Admission(r.key, r.at, s.windows[r.key].startedAt), n)
    decreases n
  {
    if n > 0 {
      BurstAdmitted(l, s, r, n - 1);
      assert Repeat(r, n)[..n - 1] == Repeat(r, n - 1);
      var a := Admission(r.key, r.at, s.windows[r.key].startedAt);
      assert Copies(a, n) == Copies(a, n - 1) + [a];
    }
  }

  lemma {:induction false} CopiesCount(log: seq<Admission>, a: Admission, n: nat, from: int, to: int)
    requires from <= a.at < to
    ensures InInterval(log + Copies(a, n), a.key, from, to) == InInterval(log, a.key, from, to) + n
    decreases n
  {
    var all := log + Copies(a, n);
    if n == 0 {
      assert all == log;
    } else {
      assert all[..|all| - 1] == log + Copies(a, n - 1);
      CopiesCount(log, a, n - 1, from, to);
    }
  }

  /** An opener, then a burst up to the maximum later in the same window. */
  function Burst(l: Limits, key: Key, opens: int, at: int): seq<Request>
    requires Positive(l)
  {
    [Request(key, opens)] + Repeat(Request(key, at), l.maxRequests - 1)
  }

  /** One burst at the very end of a window, the next one as soon as the next window opens. */
  function Bursts(l: Limits, key: Key): seq<Request>
    requires Positive(l)
  {
    Burst(l, key, 0, l.windowMs - 1) + Burst(l, key, l.windowMs, l.windowMs)
  }

  lemma BurstRun(l: Limits, s: State, key: Key, opens: int, at: int)
    requires Positive(l) && opens <= at < opens + l.windowMs
    requires key in s.windows ==> opens - s.windows[key].startedAt >= l.windowMs
    ensures var s' := Run(l, s, Burst(l, key, opens, at));
            && key in s'.windows && s'.windows[key] == Window(opens, l.maxRequests)
            && s'.admitted == s.admitted + [Admission(key, opens, opens)] + Copies(Admission(key, at, opens), l.maxRequests - 1)
  {
    var r := Request(key, opens);
    var s1 := Step(l, s, r);
    assert Run(l, s, [r]) == s1 by {
      assert [r][..0] == [];
    }
    RunAppend(l, s, [r], Repeat(Request(key, at), l.maxRequests - 1));
    BurstAdmitted(l, s1, Request(key, at), l.maxRequests - 1);
  }

  lemma BurstCount(log: seq<Admission>, key: Key, opens: int, at: int, n: nat, from: int, to: int)
    requires from <= at < to
    ensures InInterval(log + [Admission(key, opens, opens)] + Copies(Admission(key, at, opens), n), key, from, to)
            == InInterval(log, key, from, to) + n + if from <= opens < to then 1 else 0
  {
    var first := log + [Admission(key, opens, opens)];
    assert first[..|first| - 1] == log;
    CopiesCount(first, Admission(key, at, opens), n, from, to);
  }

  /** What a burst adds to an interval that contains it, with or without its opener. */
  lemma BurstAdds(l: Limits, s: State, key: Key, opens: int, at: int, from: int, to: int)
    requires Positive(l) && opens <= at < opens + l.windowMs && from <= at < to
    requires key in s.windows ==> opens - s.windows[key].startedAt >= l.windowMs
    ensures var s' := Run(l, s, Burst(l, key, opens, at));
            && key in s'.windows && s'.windows[key].startedAt == opens
            && InInterval(s'.admitted, key, from, to)
               == InInterval(s.admitted, key, from, to) + l.maxRequests - if from <= opens then 0 else 1
  {
    BurstRun(l, s, key, opens, at);
    BurstCount(s.admitted, key, opens, at, l.maxRequests - 1, from, to);
  }

  lemma BurstsMonotone(l: Limits, key: Key)
    requires Positive(l)
    ensures Monotone(0, Bursts(l, key))
  {
    var rs := Bursts(l, key);
    var n := l.maxRequests;
    forall i | 0 <= i < |rs|
      ensures rs[i].at == if i == 0 then 0 else if i < n then l.windowMs - 1 else l.windowMs
    {
      assert i < n ==> rs[i] == Burst(l, key, 0, l.windowMs - 1)[i];
      assert i >= n ==> rs[i] == Burst(l, key, l.windowMs, l.windowMs)[i - n];
    }
  }

  /** The first burst, at the end of its window. */
  lemma FirstBurst(l: Limits, key: Key) returns (s: State)
    requires l.maxRequests > 0 && l.windowMs >= 2
    ensures s == Run(l, State(map[], 0, []), Burst(l, key, 0, l.windowMs - 1))
    ensures key in s.windows && s.windows[key].startedAt == 0
    ensures InInterval(s.admitted, key, l.windowMs - 1, 2 * l.windowMs - 1) == l.maxRequests - 1
  {
    var s0 := State(map[], 0, []);
    s := Run(l, s0, Burst(l, key, 0, l.windowMs - 1));
    BurstAdds(l, s0, key, 0, l.windowMs - 1, l.windowMs - 1, 2 * l.windowMs - 1);
    assert InInterval(s0.admitted, key, l.windowMs - 1, 2 * l.windowMs - 1) == 0;
  }

  /** The next burst, as soon as the next window opens. */
  lemma SecondBurst(l: Limits, key: Key, s: State)
    requires l.maxRequests > 0 && l.windowMs >= 2 && key in s.windows && s.windows[key].startedAt == 0
    ensures InInterval(Run(l, s, Burst(l, key, l.windowMs, l.windowMs)).admitted, key, l.windowMs - 1, 2 * l.windowMs - 1)
            == InInterval(s.admitted, key, l.windowMs - 1, 2 * l.windowMs - 1) + l.maxRequests
  {
    BurstAdds(l, s, key, l.windowMs, l.windowMs, l.windowMs - 1, 2 * l.windowMs - 1);
  }

  lemma BurstsCount(l: Limits, key: Key)
    requires l.maxRequests > 0 && l.windowMs >= 2
    ensures InInterval(Run(l, State(map[], 0, []), Bursts(l, key)).admitted, key, l.windowMs - 1, 2 * l.windowMs - 1)
            == 2 * l.maxRequests - 1
  {
    var s := FirstBurst(l, key);
    SecondBurst(l, key, s);
    RunAppend(l, State(map[], 0, []), Burst(l, key, 0, l.windowMs - 1), Burst(l, key, l.windowMs, l.windowMs));
  }

  /** The bound cannot be lowered: for every maximum and every window of at least two units, this run
      admits twice the maximum less one within one window's length. */
  lemma BoundAttained(l: Limits, key: Key)
    requires l.maxRequests > 0 && l.windowMs >= 2
    ensures Monotone(0, Bursts(l, key))
    ensures InInterval(Run(l, State(map[], 0, []), Bursts(l, key)).admitted, key, l.windowMs - 1, 2 * l.windowMs - 1)
            == 2 * l.maxRequests - 1
  {
    BurstsMonotone(l, key);
    BurstsCount(l, key);
  }

  // ---------------------------------------------------------------- the service's own code

  class Limiter {
    const limits: Limits
    var windows: map<Key, Window>

    constructor (limits: Limits)
      ensures this.limits == limits && windows == map[]
    {
      this.limits := limits;
      windows := map[];
    }

    method RateLimited(principal: string, action: string, at: int) returns (limited: bool)
      modifies this
      ensures var r := Request(principal + "\n" + action, at);
              && limited == Limited(limits, old(windows), r)
              && windows == if limited then old(windows) else old(windows)[r.key := NextWindow(limits, old(windows), r)]
    {
      var key := principal + "\n" + action;
      if key !in windows || at - windows[key].startedAt >= limits.windowMs {
        windows := windows[key := Window(at, 1)];
        return false;
      }
      var current := windows[key];
      if current.count >= limits.maxRequests {
        return true;
      }
      windows := windows[key := current.(count := current.count + 1)];
      return false;
    }
  }
}
