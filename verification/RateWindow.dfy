/** The fixed-window automaton kept by the HTTP rate limiter for one (limit, key) pair.
    Time is a natural number of steady-clock nanoseconds; a fresh state starts at clock zero. */
module RateWindow {

  const MS: nat := 1_000_000

  datatype Config = Config(perPeriod: nat, periodMs: nat, sequential: bool)

  datatype KeyState = KeyState(count: nat, start: nat, tokens: set<nat>)

  const FRESH := KeyState(0, 0, {})

  /** `duration_cast<milliseconds>`: truncation toward zero. */
  function ToMs(ns: int): (ms: int)
    ensures ns >= 0 ==> ms * MS <= ns < (ms + 1) * MS
    ensures ns < 0 ==> ms <= 0
  {
    if ns >= 0 then ns / MS else -((-ns) / MS)
  }

  function PeriodNs(cfg: Config): nat {
    cfg.periodMs * MS
  }

  predicate Expired(cfg: Config, ks: KeyState, now: nat) {
    ToMs(now - ks.start) >= cfg.periodMs
  }

  predicate CheckKey(cfg: Config, ks: KeyState, now: nat) {
    cfg.perPeriod == 0 || Expired(cfg, ks, now) || ks.count < cfg.perPeriod
  }

  predicate SequentialBlocked(cfg: Config, ks: KeyState, token: nat) {
    cfg.sequential && token != 0 && ks.tokens != {} && token !in ks.tokens
  }

  predicate Passes(cfg: Config, ks: KeyState, token: nat, now: nat) {
    !SequentialBlocked(cfg, ks, token) && CheckKey(cfg, ks, now)
  }

  function UpdateKey(cfg: Config, ks: KeyState, now: nat): KeyState {
    if cfg.perPeriod == 0 then ks
    else if Expired(cfg, ks, now) then ks.(start := now, count := 1)
    else ks.(count := ks.count + 1)
  }

  function Commit(cfg: Config, ks: KeyState, token: nat, now: nat): KeyState {
    var armed := if cfg.sequential && token != 0 then ks.(tokens := ks.tokens + {token}) else ks;
    UpdateKey(cfg, armed, now)
  }

  // ----- The rate bound of one window automaton

  /** The automaton after commits at the given times, tokens aside. */
  function After(cfg: Config, times: seq<nat>): KeyState {
    if times == [] then FRESH
    else UpdateKey(cfg, After(cfg, times[..|times| - 1]), times[|times| - 1])
  }

  /** Every commit passed the count check at its time, and the clock never went back. */
  predicate Admissible(cfg: Config, times: seq<nat>) {
    times == [] ||
    var n := |times| - 1;
    && Admissible(cfg, times[..n])
    && CheckKey(cfg, After(cfg, times[..n]), times[n])
    && (n > 0 ==> times[n - 1] <= times[n])
  }

  /** The automaton right after commit `i`. */
  function At(cfg: Config, times: seq<nat>, i: nat): KeyState
    requires i < |times|
  {
    After(cfg, times[..i + 1])
  }

  /** `cur` is `prev` one commit fuller, or a new window a whole period later. */
  predicate Advances(cfg: Config, prev: KeyState, cur: KeyState, now: nat) {
    || (cur.start == prev.start && cur.count == prev.count + 1)
    || (cur.start == now && cur.count == 1 && now >= prev.start + PeriodNs(cfg))
  }

  lemma UpdateAdvances(cfg: Config, ks: KeyState, now: nat)
    requires cfg.perPeriod > 0 && ks.start <= now && CheckKey(cfg, ks, now)
    ensures Advances(cfg, ks, UpdateKey(cfg, ks, now), now)
    ensures UpdateKey(cfg, ks, now).start <= now && 1 <= UpdateKey(cfg, ks, now).count <= cfg.perPeriod
  {
  }

  /** Each commit of an admissible sequence passed the check and moved the automaton. */
  lemma {:induction false} CommitAt(cfg: Config, times: seq<nat>, i: nat)
    requires Admissible(cfg, times) && i < |times|
    ensures CheckKey(cfg, After(cfg, times[..i]), times[i]) && (i > 0 ==> times[i - 1] <= times[i])
    ensures At(cfg, times, i) == UpdateKey(cfg, After(cfg, times[..i]), times[i])
    decreases |times|
  {
    var n := |times| - 1;
    assert times[..i + 1][..i] == times[..i];
    if i < n {
      CommitAt(cfg, times[..n], i);
      assert times[..n][..i] == times[..i];
    } else {
      assert times[..i + 1] == times;
    }
  }

  /** One commit either stays in the window or opens a new one a whole period later. */
  lemma {:induction false} WindowStep(cfg: Config, times: seq<nat>, i: nat)
    requires cfg.perPeriod > 0 && Admissible(cfg, times) && i < |times|
    ensures At(cfg, times, i).start <= times[i]
    ensures 1 <= At(cfg, times, i).count <= cfg.perPeriod
    ensures i > 0 ==> times[i - 1] <= times[i]
    ensures i > 0 ==> Advances(cfg, At(cfg, times, i - 1), At(cfg, times, i), times[i])
    decreases i
  {
    CommitAt(cfg, times, i);
    if i == 0 {
      assert After(cfg, times[..i]) == FRESH;
    } else {
      WindowStep(cfg, times, i - 1);
    }
    UpdateAdvances(cfg, After(cfg, times[..i]), times[i]);
  }

  /** `d` commits later the window is either the same and `d` fuller, or a later one. */
  lemma {:induction false} SameOrLater(cfg: Config, times: seq<nat>, i: nat, d: nat)
    requires cfg.perPeriod > 0 && Admissible(cfg, times) && i + d < |times|
    ensures var a, b := At(cfg, times, i), At(cfg, times, i + d);
      || (b.start == a.start && b.count == a.count + d)
      || (b.start >= a.start + PeriodNs(cfg) && b.start >= times[i])
    ensures times[i] <= times[i + d]
    decreases d
  {
    if d == 0 {
    } else {
      SameOrLater(cfg, times, i, d - 1);
      WindowStep(cfg, times, i + d);
    }
  }

  /** `n * perPeriod` commits later the window starts at least `n` periods later. */
  lemma {:induction false} WindowsSpread(cfg: Config, times: seq<nat>, i: nat, n: nat, span: nat, gap: nat)
    requires cfg.perPeriod > 0 && Admissible(cfg, times) && i + span < |times|
    requires span == n * cfg.perPeriod && gap == n * PeriodNs(cfg)
    ensures At(cfg, times, i + span).start >= At(cfg, times, i).start + gap
    decreases n
  {
    if n == 0 {
    } else {
      MulStep(n, cfg.perPeriod);
      MulStep(n, PeriodNs(cfg));
      WindowsSpread(cfg, times, i, n - 1, span - cfg.perPeriod, gap - PeriodNs(cfg));
      OneWindowOn(cfg, times, i + (span - cfg.perPeriod));
    }
  }

  lemma MulStep(n: nat, x: nat)
    requires n > 0
    ensures n * x == (n - 1) * x + x && (n - 1) * x >= 0
  {
  }

  lemma OneWindowOn(cfg: Config, times: seq<nat>, i: nat)
    requires cfg.perPeriod > 0 && Admissible(cfg, times) && i + cfg.perPeriod < |times|
    ensures At(cfg, times, i + cfg.perPeriod).start >= At(cfg, times, i).start + PeriodNs(cfg)
    ensures At(cfg, times, i + cfg.perPeriod).start >= times[i]
  {
    SameOrLater(cfg, times, i, cfg.perPeriod);
    WindowStep(cfg, times, i);
    WindowStep(cfg, times, i + cfg.perPeriod);
  }

  /** Commits `(n + 1) * perPeriod` apart are at least `n` periods apart. */
  lemma CommitsSpread(cfg: Config, times: seq<nat>, i: nat, n: nat, span: nat, gap: nat)
    requires cfg.perPeriod > 0 && Admissible(cfg, times) && i + cfg.perPeriod + span < |times|
    requires span == n * cfg.perPeriod && gap == n * PeriodNs(cfg)
    ensures times[i + cfg.perPeriod + span] >= times[i] + gap
  {
    var k := i + cfg.perPeriod;
    OneWindowOn(cfg, times, i);
    WindowsSpread(cfg, times, k, n, span, gap);
    WindowStep(cfg, times, k + span);
  }

  /** The commits of `times` inside the half-open interval [from, to). */
  function Within(times: seq<nat>, from: nat, to: nat): set<nat> {
    set i: nat | i < |times| && from <= times[i] < to
  }

  lemma {:induction false} NarrowSetIsSmall(s: set<nat>, lo: nat, m: nat)
    requires forall i :: i in s ==> lo <= i < lo + m
    ensures |s| <= m
    decreases m
  {
    if m == 0 {
      assert s == {};
    } else {
      NarrowSetIsSmall(s - {lo + m - 1}, lo, m - 1);
      assert s <= (s - {lo + m - 1}) + {lo + m - 1};
    }
  }

  /** Any half-open interval of `n` periods holds at most `(n + 1) * perPeriod` commits. */
  lemma RateBound(cfg: Config, times: seq<nat>, from: nat, n: nat)
    requires cfg.perPeriod > 0 && Admissible(cfg, times)
    ensures |Within(times, from, from + n * PeriodNs(cfg))| <= (n + 1) * cfg.perPeriod
  {
    var span, gap := n * cfg.perPeriod, n * PeriodNs(cfg);
    MulStep(n + 1, cfg.perPeriod);
    NarrowWithin(cfg, times, from, n, span, gap);
  }

  lemma NarrowWithin(cfg: Config, times: seq<nat>, from: nat, n: nat, span: nat, gap: nat)
    requires cfg.perPeriod > 0 && Admissible(cfg, times) && span == n * cfg.perPeriod && gap == n * PeriodNs(cfg)
    ensures |Within(times, from, from + gap)| <= span + cfg.perPeriod
  {
    var s, m := Within(times, from, from + gap), span + cfg.perPeriod;
    if s != {} {
      var lo := LeastOf(s);
      forall i | i in s
        ensures lo <= i < lo + m
      {
        if i >= lo + m {
          CommitsSpread(cfg, times, lo, n, span, gap);
          SameOrLater(cfg, times, lo + m, i - (lo + m));
        }
      }
      NarrowSetIsSmall(s, lo, m);
    }
  }

  lemma {:induction false} LeastOf(s: set<nat>) returns (lo: nat)
    requires s != {}
    ensures lo in s && forall i :: i in s ==> lo <= i
    decreases |s|
  {
    lo :| lo in s;
    if s == {lo} {
    } else {
      var rest := s - {lo};
      assert s == rest + {lo};
      var least := LeastOf(rest);
      assert forall i :: i in s ==> i == lo || i in rest;
      if least < lo { lo := least; }
    }
  }
}
