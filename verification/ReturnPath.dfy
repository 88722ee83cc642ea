/** The Smart Return hysteresis of smart_return.go, tied to the raw history of probe
    outcomes. */
module ReturnPath {

  datatype Path = Direct | Tunnel

  datatype Control = Control(path: Path, failures: nat, successes: nat)

  const INITIAL := Control(Direct, 0, 0)

  /** One observation, with thresholds `n` (fail) and `m` (recover). */
  function Step(c: Control, n: nat, m: nat, ok: bool): Control
  {
    match c.path
    case Direct =>
      if ok then c.(failures := 0)
      else if c.failures + 1 >= n then Control(Tunnel, 0, 0)
      else c.(failures := c.failures + 1)
    case Tunnel =>
      if !ok then c.(successes := 0)
      else if c.successes + 1 >= m then Control(Direct, 0, 0)
      else c.(successes := c.successes + 1)
  }

  /** The controller after the history `h`. */
  function After(h: seq<bool>, n: nat, m: nat): Control
  {
    if h == [] then INITIAL else Step(After(h[..|h| - 1], n, m), n, m, h[|h| - 1])
  }

  class ReturnPathController {
    var path: Path
    var failures: nat
    var successes: nat
    const failThreshold: nat
    const recoverThreshold: nat
    ghost var history: seq<bool>

    ghost predicate Valid()
      reads this
    {
      Control(path, failures, successes) == After(history, failThreshold, recoverThreshold)
    }

    constructor (failThreshold: nat, recoverThreshold: nat)
      ensures Valid() && history == [] && path == Direct
      ensures this.failThreshold == failThreshold && this.recoverThreshold == recoverThreshold
    {
      this.path, this.failures, this.successes := Direct, 0, 0;
      this.failThreshold, this.recoverThreshold := failThreshold, recoverThreshold;
      this.history := [];
    }

    method Observe(ok: bool) returns (p: Path, changed: bool)
      requires Valid() && failThreshold >= 1 && recoverThreshold >= 1
      modifies this
      ensures Valid() && history == old(history) + [ok]
      ensures p == path && changed == (path != old(path))
      ensures path.Tunnel? <==> LatestRunFailed(history, failThreshold, recoverThreshold)
    {
      history := history + [ok];
      assert history[..|history| - 1] == old(history);
      LatestRunDecides(history, failThreshold, recoverThreshold);
      match path {
        case Direct =>
          if ok {
            failures := 0;
            return path, false;
          }
          failures := failures + 1;
          if failures >= failThreshold {
            path := Tunnel;
            failures := 0;
            successes := 0;
            return path, true;
          }
        case Tunnel =>
          if !ok {
            successes := 0;
            return path, false;
          }
          successes := successes + 1;
          if successes >= recoverThreshold {
            path := Direct;
            successes := 0;
            failures := 0;
            return path, true;
          }
      }
      return path, false;
    }
  }

  // ---------------------------------------------------------------------------
  // The path is a statement about the raw history

  /** The `n` observations before position `i` exist and all equal `v`. */
  ghost predicate RunEndsAt(h: seq<bool>, v: bool, n: nat, i: nat)
  {
    n <= i <= |h| && forall k :: i - n <= k < i ==> h[k] == v
  }

  /** The latest position that ends `n` straight failures or `m` straight successes
      exists and ends failures. */
  ghost predicate LatestRunFailed(h: seq<bool>, n: nat, m: nat)
  {
    exists i: nat ::
      && RunEndsAt(h, false, n, i)
      && forall j: nat :: i < j ==> !RunEndsAt(h, true, m, j)
  }

  /** How many observations at the end of the history equal `v`. */
  function Streak(h: seq<bool>, v: bool): (r: nat)
    ensures r <= |h| && RunEndsAt(h, v, r, |h|)
    ensures r < |h| ==> h[|h| - 1 - r] != v
  {
    if h == [] || h[|h| - 1] != v then 0 else
      var r := Streak(h[..|h| - 1], v);
      r + 1
  }

  /** The active counter is the length of the current streak. */
  lemma {:induction false} CounterIsStreak(h: seq<bool>, n: nat, m: nat)
    requires n >= 1 && m >= 1
    ensures var c := After(h, n, m);
      && (c.path.Direct? ==> c.failures == Streak(h, false) < n)
      && (c.path.Tunnel? ==> c.successes == Streak(h, true) < m)
  {
    if h != [] { CounterIsStreak(h[..|h| - 1], n, m); }
  }

  lemma RunsExtend(g: seq<bool>, b: bool, v: bool, n: nat, i: nat)
    requires i <= |g|
    ensures RunEndsAt(g + [b], v, n, i) <==> RunEndsAt(g, v, n, i)
  {
    forall k | 0 <= k < i ensures (g + [b])[k] == g[k] {}
  }

  lemma RunAtEnd(h: seq<bool>, v: bool, n: nat)
    ensures RunEndsAt(h, v, n, |h|) <==> Streak(h, v) >= n
  {
    var r := Streak(h, v);
    if n > r && n <= |h| { assert h[|h| - 1 - r] != v; }
  }

  /** Of runs that end before the last observation nothing changes. */
  lemma LatestRunPersists(g: seq<bool>, b: bool, n: nat, m: nat)
    requires n >= 1 && m >= 1 && Streak(g + [b], false) < n && Streak(g + [b], true) < m
    ensures LatestRunFailed(g + [b], n, m) <==> LatestRunFailed(g, n, m)
  {
    var h := g + [b];
    RunAtEnd(h, false, n);
    RunAtEnd(h, true, m);
    forall v: bool, l: nat, i: nat | i <= |g| ensures RunEndsAt(h, v, l, i) <==> RunEndsAt(g, v, l, i) {
      RunsExtend(g, b, v, l, i);
    }
    assert forall i: nat :: RunEndsAt(h, false, n, i) <==> RunEndsAt(g, false, n, i);
    assert forall j: nat :: RunEndsAt(h, true, m, j) <==> RunEndsAt(g, true, m, j);
  }

  lemma LatestRunEndsNow(h: seq<bool>, n: nat, m: nat)
    requires n >= 1 && m >= 1
    ensures Streak(h, false) >= n ==> LatestRunFailed(h, n, m)
    ensures Streak(h, true) >= m ==> !LatestRunFailed(h, n, m)
  {
    RunAtEnd(h, false, n);
    RunAtEnd(h, true, m);
    if Streak(h, true) >= m {
      forall i: nat | RunEndsAt(h, false, n, i) ensures exists j: nat :: i < j && RunEndsAt(h, true, m, j) {
        assert RunEndsAt(h, true, m, |h|) && h[|h| - 1];
      }
    }
  }

  /** The path is TUNNEL exactly when the latest run of `n` failures or `m` successes is
      one of failures. */
  lemma {:induction false} LatestRunDecides(h: seq<bool>, n: nat, m: nat)
    requires n >= 1 && m >= 1
    ensures After(h, n, m).path.Tunnel? <==> LatestRunFailed(h, n, m)
  {
    if h == [] {
      forall i: nat ensures !RunEndsAt(h, false, n, i) {}
    } else {
      var g, b := h[..|h| - 1], h[|h| - 1];
      assert h == g + [b];
      LatestRunDecides(g, n, m);
      CounterIsStreak(g, n, m);
      LatestRunEndsNow(h, n, m);
      if Streak(h, false) < n && Streak(h, true) < m { LatestRunPersists(g, b, n, m); }
    }
  }

  // ---------------------------------------------------------------------------
  // Flapping is bounded

  /** How often the path changed over the history. */
  function Switches(h: seq<bool>, n: nat, m: nat): nat
  {
    if h == [] then 0 else
      var g := h[..|h| - 1];
      Switches(g, n, m) + if After(g, n, m).path != After(h, n, m).path then 1 else 0
  }

  /** Observations that `s` switches cost at least: n for each odd one, m for each even one. */
  function Cost(s: nat, n: nat, m: nat): nat
  {
    if s == 0 then 0 else Cost(s - 1, n, m) + if s % 2 == 1 then n else m
  }

  lemma {:induction false} CostOfPairs(a: nat, n: nat, m: nat)
    ensures Cost(2 * a, n, m) == a * n + a * m
    ensures Cost(2 * a + 1, n, m) == (a + 1) * n + a * m
  {
    if a > 0 { CostOfPairs(a - 1, n, m); }
  }

  lemma CostIs(s: nat, n: nat, m: nat)
    ensures Cost(s, n, m) == (s + 1) / 2 * n + s / 2 * m
  {
    CostOfPairs(s / 2, n, m);
    if s % 2 == 0 { assert (s + 1) / 2 == s / 2 && s == 2 * (s / 2); }
    else { assert (s + 1) / 2 == s / 2 + 1 && s == 2 * (s / 2) + 1; }
  }

  lemma {:induction false} SwitchesCost(h: seq<bool>, n: nat, m: nat)
    requires n >= 1 && m >= 1
    ensures var c, s := After(h, n, m), Switches(h, n, m);
      && (c.path.Direct? <==> s % 2 == 0)
      && |h| >= Cost(s, n, m) + if c.path.Direct? then c.failures else c.successes
  {
    if h != [] {
      SwitchesCost(h[..|h| - 1], n, m);
      CounterIsStreak(h[..|h| - 1], n, m);
    }
  }

  /** s switches need at least ceil(s/2) * n + floor(s/2) * m observations. */
  lemma FlappingBound(h: seq<bool>, n: nat, m: nat)
    requires n >= 1 && m >= 1
    ensures var s := Switches(h, n, m);
      |h| >= (s + 1) / 2 * n + s / 2 * m
  {
    SwitchesCost(h, n, m);
    CostIs(Switches(h, n, m), n, m);
  }

  function Repeat(v: bool, k: nat): seq<bool>
  {
    seq(k, i => v)
  }

  lemma {:induction false} PushStreak(h: seq<bool>, k: nat, n: nat, m: nat)
    requires n >= 1 && m >= 1
    requires After(h, n, m) == Control(if Switches(h, n, m) % 2 == 0 then Direct else Tunnel, 0, 0)
    requires k <= if After(h, n, m).path.Direct? then n else m
    ensures var v, l := After(h, n, m).path.Tunnel?, if After(h, n, m).path.Direct? then n else m;
      var g := h + Repeat(v, k);
      if k < l then
        && Switches(g, n, m) == Switches(h, n, m)
        && After(g, n, m) == (if v then Control(Tunnel, 0, k) else Control(Direct, k, 0))
      else
        && Switches(g, n, m) == Switches(h, n, m) + 1
        && After(g, n, m) == Control(if v then Direct else Tunnel, 0, 0)
  {
    var v := After(h, n, m).path.Tunnel?;
    var g := h + Repeat(v, k);
    if k == 0 {
      assert g == h;
    } else {
      PushStreak(h, k - 1, n, m);
      assert g[..|g| - 1] == h + Repeat(v, k - 1);
      assert g[|g| - 1] == v;
    }
  }

  lemma {:induction false} CheapestSwitches(s: nat, n: nat, m: nat) returns (h: seq<bool>)
    requires n >= 1 && m >= 1
    ensures Switches(h, n, m) == s && |h| == Cost(s, n, m)
    ensures After(h, n, m) == Control(if s % 2 == 0 then Direct else Tunnel, 0, 0)
  {
    if s == 0 {
      h := [];
    } else {
      var g := CheapestSwitches(s - 1, n, m);
      var l := if s % 2 == 1 then n else m;
      PushStreak(g, l, n, m);
      h := g + Repeat(s % 2 == 0, l);
    }
  }

  /** ... and that many suffice, for every number of switches. */
  lemma FlappingBoundIsTight(s: nat, n: nat, m: nat)
    requires n >= 1 && m >= 1
    ensures exists h :: Switches(h, n, m) == s && |h| == (s + 1) / 2 * n + s / 2 * m
  {
    var h := CheapestSwitches(s, n, m);
    CostIs(s, n, m);
  }
}
