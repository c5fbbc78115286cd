/**
  The per-account message throttle (exchange-core/rate_tracker.h): a tumbling window that restarts
  at the first message after it has run out.
 */
module RateLimit {
  datatype Config = Config(max: int, interval: int) {
    predicate Enabled() { max > 0 && interval > 0 }
  }

  datatype Entry = Entry(start: int, count: int)

  /** One account's window before and after a message, and whether it is let through. */
  function Check(cfg: Config, e: Entry, ts: int): (bool, Entry) {
    if ts >= e.start + cfg.interval then (true, Entry(ts, 1))
    else if e.count >= cfg.max then (false, e)
    else (true, Entry(e.start, e.count + 1))
  }

  class RateTracker {
    const cfg: Config
    const entries: array<Entry>

    constructor (cfg: Config, maxAccounts: nat)
      ensures this.cfg == cfg && fresh(entries) && entries.Length == maxAccounts
      ensures forall a :: 0 <= a < maxAccounts ==> entries[a] == Entry(0, 0)
    {
      this.cfg := cfg;
      entries := new Entry[maxAccounts](_ => Entry(0, 0));
    }

    /** check_and_increment: each account's traffic moves its own window and no other. */
    method CheckAndIncrement(account: nat, ts: int) returns (accepted: bool)
      modifies entries
      ensures !cfg.Enabled() || account == 0 ==> accepted && entries[..] == old(entries[..])
      ensures cfg.Enabled() && account != 0 && account >= entries.Length ==> !accepted && entries[..] == old(entries[..])
      ensures cfg.Enabled() && 0 < account < entries.Length ==>
        (accepted, entries[account]) == Check(cfg, old(entries[account]), ts) &&
        entries[..] == old(entries[..])[account := entries[account]]
    {
      if !cfg.Enabled() || account == 0 { return true; }
      if account >= entries.Length { return false; }
      var e := entries[account];
      var windowEnd := e.start + cfg.interval;
      if ts >= windowEnd {
        entries[account] := Entry(ts, 1);
        return true;
      }
      if e.count >= cfg.max { return false; }
      entries[account] := Entry(e.start, e.count + 1);
      return true;
    }

    /** reset. */
    method Reset()
      modifies entries
      ensures forall a :: 0 <= a < entries.Length ==> entries[a] == Entry(0, 0)
    {
      for i := 0 to entries.Length
        invariant forall a :: 0 <= a < i ==> entries[a] == Entry(0, 0)
      {
        entries[i] := Entry(0, 0);
      }
    }
  }

  // ---------------------------------------------------------------- one account's whole traffic

  /** The window after the messages at the times `ts`, and the times of those let through. */
  function After(cfg: Config, ts: seq<int>): (Entry, seq<int>) {
    if ts == [] then (Entry(0, 0), [])
    else
      var (e, acc) := After(cfg, ts[..|ts| - 1]);
      var t := ts[|ts| - 1];
      var (ok, e') := Check(cfg, e, t);
      (e', if ok then acc + [t] else acc)
  }

  function CountIn(ts: seq<int>, lo: int, hi: int): nat {
    if ts == [] then 0 else CountIn(ts[..|ts| - 1], lo, hi) + if lo <= ts[|ts| - 1] < hi then 1 else 0
  }

  /** Times that start at or after 0 and never go back. */
  ghost predicate Ordered(ts: seq<int>) {
    (forall i :: 0 <= i < |ts| ==> ts[i] >= 0) && forall i, j :: 0 <= i < j < |ts| ==> ts[i] <= ts[j]
  }

  lemma CountSnoc(ts: seq<int>, t: int, lo: int, hi: int)
    ensures CountIn(ts + [t], lo, hi) == CountIn(ts, lo, hi) + if lo <= t < hi then 1 else 0
  {
    assert (ts + [t])[..|ts|] == ts;
  }

  lemma {:induction false} CountSplit(ts: seq<int>, lo: int, mid: int, hi: int)
    requires lo <= mid <= hi
    ensures CountIn(ts, lo, hi) == CountIn(ts, lo, mid) + CountIn(ts, mid, hi)
  {
    if ts != [] { CountSplit(ts[..|ts| - 1], lo, mid, hi); }
  }

  lemma {:induction false} CountNone(ts: seq<int>, lo: int, hi: int)
    requires forall i :: 0 <= i < |ts| ==> !(lo <= ts[i] < hi)
    ensures CountIn(ts, lo, hi) == 0
  {
    if ts != [] { CountNone(ts[..|ts| - 1], lo, hi); }
  }

  /** A shorter stretch within a longer one. */
  lemma CountWithin(ts: seq<int>, lo: int, lo': int, hi': int, hi: int)
    requires lo <= lo' <= hi' <= hi
    ensures CountIn(ts, lo', hi') <= CountIn(ts, lo, hi)
  {
    CountSplit(ts, lo, lo', hi);
    CountSplit(ts, lo', hi', hi);
  }

  /** What holds between two messages: the current window counts exactly what was let through since
      it opened, at most `max`; everything let through is older than its end; and at most `max`
      were let through in the stretch of the same length just before it opened. */
  ghost predicate Windowed(cfg: Config, e: Entry, acc: seq<int>) {
    && e.start >= 0 && CountIn(acc, e.start, e.start + cfg.interval) == e.count <= cfg.max
    && (forall i :: 0 <= i < |acc| ==> 0 <= acc[i] < e.start + cfg.interval)
    && CountIn(acc, e.start - cfg.interval, e.start) <= cfg.max
  }

  /** How much was let through in the stretch of a window's length from a on. */
  function Stretch(cfg: Config, acc: seq<int>, a: int): nat { CountIn(acc, a, a + cfg.interval) }

  /** The window goes on. */
  lemma SameWindow(cfg: Config, e: Entry, acc: seq<int>, t: int, a: int)
    requires cfg.Enabled() && Windowed(cfg, e, acc) && e.start <= t < e.start + cfg.interval && e.count < cfg.max
    requires Stretch(cfg, acc, a) <= 2 * cfg.max
    ensures Windowed(cfg, Entry(e.start, e.count + 1), acc + [t]) && Stretch(cfg, acc + [t], a) <= 2 * cfg.max
  {
    hide CountIn;
    var L, S := cfg.interval, e.start;
    CountSnoc(acc, t, S, S + L);
    CountSnoc(acc, t, S - L, S);
    CountSnoc(acc, t, a, a + L);
    if a <= t < a + L {
      if a <= S { CountAcross(cfg, e, acc, a); } else { CountNewest(cfg, e, acc, a); }
    }
  }

  lemma CountAcross(cfg: Config, e: Entry, acc: seq<int>, a: int)
    requires cfg.Enabled() && Windowed(cfg, e, acc) && a <= e.start <= a + cfg.interval
    ensures Stretch(cfg, acc, a) <= cfg.max + e.count
  {
    hide CountIn;
    var L, S := cfg.interval, e.start;
    CountSplit(acc, a, S, a + L);
    CountWithin(acc, S - L, a, S, S);
    CountWithin(acc, S, S, a + L, S + L);
  }

  lemma CountNewest(cfg: Config, e: Entry, acc: seq<int>, a: int)
    requires cfg.Enabled() && Windowed(cfg, e, acc) && e.start < a < e.start + cfg.interval
    ensures Stretch(cfg, acc, a) <= e.count
  {
    hide CountIn;
    var L, S := cfg.interval, e.start;
    CountSplit(acc, a, S + L, a + L);
    CountNone(acc, S + L, a + L);
    CountWithin(acc, S, a, S + L, S + L);
  }

  /** A new window opens. */
  lemma NewWindow(cfg: Config, e: Entry, acc: seq<int>, t: int, a: int)
    requires cfg.Enabled() && Windowed(cfg, e, acc) && t >= e.start + cfg.interval && Stretch(cfg, acc, a) <= 2 * cfg.max
    ensures Windowed(cfg, Entry(t, 1), acc + [t]) && Stretch(cfg, acc + [t], a) <= 2 * cfg.max
  {
    hide CountIn;
    var L := cfg.interval;
    CountSnoc(acc, t, t, t + L);
    CountNone(acc, t, t + L);
    CountSnoc(acc, t, t - L, t);
    LastStretch(cfg, e, acc, t - L, t);
    CountSnoc(acc, t, a, a + L);
    if a <= t < a + L {
      CountSplit(acc, a, t, a + L);
      CountNone(acc, t, a + L);
      CountWithin(acc, t - L, a, t, t);
    }
  }

  /** From the opening of the window on, at most its count was let through. */
  lemma LastStretch(cfg: Config, e: Entry, acc: seq<int>, lo: int, hi: int)
    requires cfg.Enabled() && Windowed(cfg, e, acc) && e.start <= lo <= hi
    ensures CountIn(acc, lo, hi) <= e.count
  {
    var end := e.start + cfg.interval;
    if hi <= end {
      CountWithin(acc, e.start, lo, hi, end);
    } else if lo >= end {
      CountNone(acc, lo, hi);
    } else {
      CountSplit(acc, lo, end, hi);
      CountNone(acc, end, hi);
      CountWithin(acc, e.start, lo, end, end);
    }
  }

  /** All of a run. */
  lemma {:induction false} RunWindowed(cfg: Config, ts: seq<int>, a: int)
    requires cfg.Enabled() && Ordered(ts)
    ensures var (e, acc) := After(cfg, ts);
      && Windowed(cfg, e, acc) && Stretch(cfg, acc, a) <= 2 * cfg.max
      && (if ts == [] then e.start == 0 else e.start <= ts[|ts| - 1])
  {
    if ts != [] {
      var before := ts[..|ts| - 1];
      RunWindowed(cfg, before, a);
      var (e, acc) := After(cfg, before);
      var t := ts[|ts| - 1];
      if t >= e.start + cfg.interval {
        NewWindow(cfg, e, acc, t, a);
      } else if e.count < cfg.max {
        SameWindow(cfg, e, acc, t, a);
      }
    }
  }

  /** Whatever the traffic, at most `max` messages of a window are let through, and at most twice
      `max` in any stretch as long as a window, wherever it starts. */
  lemma RateBound(cfg: Config, ts: seq<int>, a: int)
    requires cfg.Enabled() && Ordered(ts)
    ensures var (e, acc) := After(cfg, ts);
      && CountIn(acc, e.start, e.start + cfg.interval) == e.count <= cfg.max
      && CountIn(acc, a, a + cfg.interval) <= 2 * cfg.max
  {
    RunWindowed(cfg, ts, a);
  }

  /** A message is turned away exactly when its window has let `max` through already. */
  lemma TurnedAway(cfg: Config, ts: seq<int>, t: int)
    requires cfg.Enabled() && Ordered(ts + [t])
    ensures var (e, acc) := After(cfg, ts);
      !Check(cfg, e, t).0 <==> t < e.start + cfg.interval && CountIn(acc, e.start, e.start + cfg.interval) == cfg.max
  {
    var all := ts + [t];
    assert Ordered(ts) by {
      assert forall i :: 0 <= i < |ts| ==> ts[i] == all[i];
    }
    RunWindowed(cfg, ts, 0);
  }

  function Times(n: nat, t: int): seq<int> { seq(n, i => t) }

  lemma {:induction false} CountTimes(n: nat, t: int, lo: int, hi: int)
    ensures CountIn(Times(n, t), lo, hi) == if lo <= t < hi then n else 0
  {
    if n > 0 {
      assert Times(n, t)[..n-1] == Times(n - 1, t);
      CountTimes(n - 1, t, lo, hi);
    }
  }

  lemma {:induction false} CountConcat(a: seq<int>, b: seq<int>, lo: int, hi: int)
    ensures CountIn(a + b, lo, hi) == CountIn(a, lo, hi) + CountIn(b, lo, hi)
  {
    if b == [] {
      assert a + b == a;
    } else {
      assert (a + b)[..|a + b| - 1] == a + b[..|b| - 1];
      CountConcat(a, b[..|b| - 1], lo, hi);
    }
  }

  /** n more messages at one time, in a window with room for them. */
  lemma {:induction false} Fills(cfg: Config, before: seq<int>, n: nat, t: int)
    requires var (e, acc) := After(cfg, before); e.start <= t < e.start + cfg.interval && e.count + n <= cfg.max
    ensures var (e, acc) := After(cfg, before);
      After(cfg, before + Times(n, t)) == (Entry(e.start, e.count + n), acc + Times(n, t))
  {
    var (e, acc) := After(cfg, before);
    if n == 0 {
      assert before + Times(n, t) == before && acc + Times(n, t) == acc;
    } else {
      Fills(cfg, before, n - 1, t);
      var all := before + Times(n, t);
      assert all[..|all| - 1] == before + Times(n - 1, t) && all[|all| - 1] == t;
      assert acc + Times(n - 1, t) + [t] == acc + Times(n, t);
    }
  }

  /** Twice is not an overestimate, whatever the limit: `max` messages at the end of one window and
      `max` at the start of the next are all let through. */
  lemma TwiceIsReached(cfg: Config)
    requires cfg.Enabled() && cfg.interval >= 2
    ensures var L := cfg.interval;
      var (e, acc) := After(cfg, Times(cfg.max, L - 1) + Times(cfg.max, L));
      CountIn(acc, L - 1, 2 * L - 1) == 2 * cfg.max
  {
    hide CountIn, After;
    var L, m := cfg.interval, cfg.max;
    TwoBursts(cfg);
    CountConcat(Times(m, L - 1), Times(m, L), L - 1, 2 * L - 1);
    CountTimes(m, L - 1, L - 1, 2 * L - 1);
    CountTimes(m, L, L - 1, 2 * L - 1);
  }

  lemma TwoBursts(cfg: Config)
    requires cfg.Enabled() && cfg.interval >= 2
    ensures var all := Times(cfg.max, cfg.interval - 1) + Times(cfg.max, cfg.interval);
      After(cfg, all) == (Entry(cfg.interval, cfg.max), all)
  {
    var L, m := cfg.interval, cfg.max;
    var first := Times(m, L - 1);
    FirstBurst(cfg);
    var all := first + [L];
    assert all[..|all| - 1] == first;
    Fills(cfg, all, m - 1, L);
    hide After;
    assert all + Times(m - 1, L) == first + Times(m, L);
  }

  lemma FirstBurst(cfg: Config)
    requires cfg.Enabled() && cfg.interval >= 2
    ensures After(cfg, Times(cfg.max, cfg.interval - 1)) == (Entry(0, cfg.max), Times(cfg.max, cfg.interval - 1))
  {
    var first := Times(cfg.max, cfg.interval - 1);
    Fills(cfg, [], cfg.max, cfg.interval - 1);
    hide After;
    assert [] + first == first;
  }
}
