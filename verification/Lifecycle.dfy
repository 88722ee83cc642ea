/** A run of the daemon as far as the kernel sees it: start with its error paths, path
    switches by the monitor, stop. From main.go's run and direct_probe.go's monitor. */
module Lifecycle {
  import opened Messages
  import opened Kernel
  import opened Footprint
  import opened ReturnPath
  import opened Routing
  import opened Setup
  import opened SmartPolicy
  import opened Cleanup

  /** The kernel of a running Kharej that uses the transport bypass, over the base. */
  ghost predicate Installed(base: State, k: State, c: Config, path: Path)
  {
    && k.rules == (if c.mode.Full? then InsertRule(base.rules, RULE77)
      else InsertRule(InsertRule(base.rules, RULE77), RULE68))
    && k.Table(TRANSPORT) == [BypassRoute(c)]
    && k.Table(RETURN) == (if c.mode.Full? then [] else ReturnTable(c, path))
    && k.Table(MAIN) == MainUp(base.Table(MAIN), c)
    && (forall t: nat :: !OwnTable(t) && t != MAIN ==> k.Table(t) == base.Table(t))
    && LaidChain(base.chains, k.chains, MOut, OutputMarks(c))
  }

  /** The marking chain of such a host. */
  function OutputMarks(c: Config): seq<FwRule>
  {
    if c.mode.Full? then Clamps(c, c.ports) else ServiceMarks(c, c.ports)
  }

  predicate Bypassing(c: Config)
  {
    c.role.Kharej? && c.ports != [] && (c.mode.Full? || c.smart)
  }

  // ---------------------------------------------------------------------------
  // The properties that setup keeps

  /** `main` is the base's, with the route to Iran if the program adds it. */
  predicate MainKept(base: State, k: State, c: Config)
  {
    k.Table(MAIN) == base.Table(MAIN) || k.Table(MAIN) == MainUp(base.Table(MAIN), c)
  }

  ghost function Within(base: State, c: Config): State -> bool
  {
    k => Over(base, k, c.Span()) && MainKept(base, k, c)
  }

  /** ... and without a trace of the return policy. */
  ghost function WithinPlain(base: State, c: Config): State -> bool
  {
    k => Over(base, k, c.Span()) && MainKept(base, k, c) && RULE68 !in k.rules && k.Table(RETURN) == []
  }

  lemma MainAfter(k: State, cmd: Command, sc: Scope)
    requires Ours(cmd, sc) && Exec(k, cmd).Some?
    ensures var main := Exec(k, cmd).value.Table(MAIN);
      main == k.Table(MAIN) || (sc.adds && main == SetRoute(k.Table(MAIN), sc.route))
  {
    match cmd {
      case RouteAdd(t, r) => TablesApart(k, t, k.Table(t) + [r]);
      case RouteFlush(t) => TablesApart(k, t, []);
      case RouteReplace(t, r) => TablesApart(k, t, SetRoute(k.Table(t), r));
      case _ => assert Exec(k, cmd).value.tables == k.tables;
    }
  }

  lemma MainStays(base: State, k: State, cmd: Command, c: Config, sc: Scope)
    requires MainKept(base, k, c) && Ours(cmd, sc) && Exec(k, cmd).Some? && (sc == c.Span() || sc == ReturnSpan(c))
    ensures MainKept(base, Exec(k, cmd).value, c)
  {
    MainAfter(k, cmd, sc);
    SetRouteAgain(base.Table(MAIN), sc.route);
  }

  lemma TablesApart(k: State, t: nat, rs: seq<Route>)
    ensures k.WithTable(t, rs).Table(MAIN) == if t == MAIN then rs else k.Table(MAIN)
  {
  }

  lemma WithinClosed(base: State, c: Config, sc: Scope)
    requires sc == c.Span() || sc == ReturnSpan(c)
    ensures Closed(Within(base, c), sc)
  {
    forall k, cmd | Within(base, c)(k) && Ours(cmd, sc) && Exec(k, cmd).Some?
      ensures Within(base, c)(Exec(k, cmd).value) {
      OursStay(base, k, cmd, sc);
      MainStays(base, k, cmd, c, sc);
    }
  }

  lemma StaysPlain(k: State, cmd: Command, sc: Scope)
    requires RULE68 !in k.rules && k.Table(RETURN) == [] && Ours(cmd, sc) && !sc.ret && Exec(k, cmd).Some?
    ensures var k' := Exec(k, cmd).value; RULE68 !in k'.rules && k'.Table(RETURN) == []
  {
    var k' := Exec(k, cmd).value;
    if cmd.RuleAdd? {
      InsertOwn(k.rules, cmd.rule);
      assert RULE68 in k'.rules <==> RULE68 in multiset(k'.rules);
    } else if cmd.RuleDel? {
      RemovedMembers(k.rules, cmd.rule);
    }
  }

  lemma WithinPlainClosed(base: State, c: Config)
    ensures Closed(WithinPlain(base, c), c.Span())
  {
    forall k, cmd | WithinPlain(base, c)(k) && Ours(cmd, c.Span()) && Exec(k, cmd).Some?
      ensures WithinPlain(base, c)(Exec(k, cmd).value) {
      OursStay(base, k, cmd, c.Span());
      MainStays(base, k, cmd, c, c.Span());
      StaysPlain(k, cmd, c.Span());
    }
  }

  /** Without a trace of it there is no return policy to clean up. */
  lemma PlainAlready(base: State, k: State, c: Config)
    requires WithinPlain(base, c)(k)
    ensures SmartReturnCleaned(k) == k && Over(base, k, c.Span()) && MainKept(base, k, c)
  {
  }

  lemma RoutingAloneYields(base: State, k: State, c: Config)
    requires Clean(base) && Over(base, k, c.Span()) && SmartReturnCleaned(k) == k
    ensures RoutingCleaned(k, c) == Swept(base, k.Table(MAIN), c)
  {
    CleanupYields(base, k, c);
  }

  /** Wherever setup stopped, cleanup restores a base that fits. */
  lemma FittingRestored(base: State, k: State, c: Config)
    requires Clean(base) && c.Valid() && MainKept(base, k, c)
    ensures Fits(base.Table(MAIN), c) ==> Swept(base, k.Table(MAIN), c) == base
  {
    MainSurvivesIff(base.Table(MAIN), c);
    SweptIsClean(base, k.Table(MAIN), c);
  }

  lemma BaseIsPlain(base: State, c: Config)
    requires Clean(base)
    ensures Closed(WithinPlain(base, c), c.Span()) && WithinPlain(base, c)(base) && NotHooked(base, OWN_CHAINS)
      && Unused(base)
  {
    WithinPlainClosed(base, c);
    CleanIsOver(base, c.Span());
    forall h | h in OWN_CHAINS ensures Jump(Hsh(h)) !in base.chains[HookKey(h)] {
      assert OwnJump(Jump(Hsh(h)));
    }
  }

  // ---------------------------------------------------------------------------
  // What a successful start leaves behind

  /** The input chain before the carrier's rule. */
  function SetupInput(c: Config): seq<FwRule>
  {
    if c.ports == [] then [] else if c.role.Iran? then IranInput(c) else KharejInput(c, Services(c.ports))
  }

  /** The other own chains of a running host. */
  function SetupLayout(c: Config): Layout
  {
    if c.role.Iran? then IranLayout(c).(input := None)
    else KharejLayout(c).(input := None,
      mOut := Some(if c.mode.Full? then Clamps(c, c.ports) else if c.smart then ServiceMarks(c, c.ports) else []))
  }

  /** Iran's policy: data packets look into table 166. */
  ghost predicate DataPolicy(base: State, k: State, c: Config)
  {
    && k.rules == InsertRule(base.rules, RULE66)
    && k.Table(DATA) == [Route(Host(c.foreign), c.tun)]
    && (forall t: nat :: t != DATA ==> k.Table(t) == base.Table(t))
  }

  /** Everything that setup promises but the input chain. */
  ghost predicate Ready(base: State, k: State, c: Config)
  {
    && (c.ports != [] ==> Laid(base, k, SetupLayout(c)))
    && (c.role.Iran? && c.ports != [] ==> DataPolicy(base, k, c))
    && (Bypassing(c) ==> Installed(base, k, c, Direct))
    && (c.ports == [] || (c.role.Kharej? && !Bypassing(c)) ==>
      k.rules == base.rules && forall t: nat :: k.Table(t) == base.Table(t))
  }

  lemma ReadyMain(base: State, k: State, c: Config)
    requires Ready(base, k, c)
    ensures k.Table(MAIN) == MainUp(base.Table(MAIN), c)
  {
  }

  ghost predicate RoutingUp(base: State, k: State, c: Config)
  {
    if c.role.Iran? then IranUp(base, k, c) else KharejUp(base, k, c)
  }

  lemma LaidAt(before: State, k: State, m: Layout, h: Own)
    requires Laid(before, k, m) && m.At(h).Some?
    ensures LaidChain(before.chains, k.chains, h, m.At(h).value)
  {
  }

  /** Adding the return policy touches the marking chain alone. */
  lemma LaidMarked(base: State, k: State, k': State, c: Config)
    requires c.role.Kharej? && Laid(base, k, KharejLayout(c))
    requires if c.Switching() then PolicyMarked(k, k', c) else k' == k
    requires c.ports != []
    ensures Laid(base, k', SetupLayout(c))
  {
    var m := SetupLayout(c);
    forall h | m.At(h).Some? ensures LaidChain(base.chains, k'.chains, h, m.At(h).value) {
      LaidAt(base, k, KharejLayout(c), h);
      if h != MOut { KeysApart(h, MOut); }
      assert [] + ServiceMarks(c, c.ports) == ServiceMarks(c, c.ports);
    }
  }

  /** The input chain and its hook before the carrier's rule. */
  ghost predicate InputLaid(base: State, k: State, c: Config)
  {
    && InputOf(k) == SetupInput(c) && HookKey(In) in base.chains && HookKey(In) in k.chains
    && k.chains[HookKey(In)] == if c.ports == [] then base.chains[HookKey(In)]
      else [Jump(Hsh(In))] + base.chains[HookKey(In)]
  }

  /** The input chain of a running host, at the top of its hook. */
  ghost predicate InputReady(base: State, k: State, c: Config)
  {
    && CarrierAdmitted(k, c, SetupInput(c)) && HookKey(In) in base.chains && HookKey(In) in k.chains
    && var was, jump := base.chains[HookKey(In)], Jump(Hsh(In));
      k.chains[HookKey(In)] == [jump] + was || k.chains[HookKey(In)] == [jump] + ([jump] + was)
  }

  lemma InputAfterPolicy(base: State, k: State, k': State, c: Config)
    requires Clean(base) && (if c.ports == [] then k == base else RoutingUp(base, k, c))
    requires if c.Switching() then PolicyMarked(k, k', c) else k' == k
    ensures InputLaid(base, k', c)
  {
    if c.ports != [] {
      if c.role.Iran? { LaidAt(base, k, IranLayout(c), In); } else { LaidAt(base, k, KharejLayout(c), In); }
      KeysApart(In, MOut);
    }
  }

  lemma InputAfterFirewall(base: State, k: State, k': State, c: Config)
    requires Clean(base) && InputLaid(base, k, c) && InputHooked(k, k') && CarrierAdmitted(k', c, InputOf(k))
    ensures InputReady(base, k', c)
  {
    assert OwnJump(Jump(Hsh(In))) && Jump(Hsh(In)) !in base.chains[HookKey(In)];
  }

  /** Once the routing is up, adding the return policy completes the installation. */
  lemma Completed(base: State, k: State, k': State, c: Config)
    requires Clean(base) && Bypassing(c) && KharejUp(base, k, c)
    requires if c.Switching() then PolicyMarked(k, k', c) else k' == k
    ensures Installed(base, k', c, Direct)
  {
    assert forall t: nat :: !OwnTable(t) && t != MAIN ==> k'.Table(t) == k.Table(t);
    LaidMarked(base, k, k', c);
    LaidAt(base, k', SetupLayout(c), MOut);
  }

  lemma ReadyAfterPolicy(base: State, k: State, k': State, c: Config)
    requires Clean(base) && (if c.ports == [] then k == base else RoutingUp(base, k, c))
    requires if c.Switching() then PolicyMarked(k, k', c) else k' == k
    ensures Ready(base, k', c)
  {
    if c.ports == [] { return; }
    if c.role.Iran? {
      forall h | SetupLayout(c).At(h).Some? ensures LaidChain(base.chains, k'.chains, h, SetupLayout(c).At(h).value) {
        LaidAt(base, k, IranLayout(c), h);
      }
    } else {
      LaidMarked(base, k, k', c);
      if Bypassing(c) { Completed(base, k, k', c); }
    }
  }

  lemma ReadyAfterFirewall(base: State, k: State, k': State, c: Config)
    requires Ready(base, k, c) && OnlyInput(k, k')
    ensures Ready(base, k', c)
  {
    assert forall t: nat :: k'.Table(t) == k.Table(t);
    forall h | c.ports != [] && SetupLayout(c).At(h).Some?
      ensures LaidChain(base.chains, k'.chains, h, SetupLayout(c).At(h).value) {
      LaidAt(base, k, SetupLayout(c), h);
      KeysApart(h, In);
    }
    KeysApart(MOut, In);
  }

  // ---------------------------------------------------------------------------

  method CleanupAll(host: Kernel.Host, c: Config, ghost base: State)
    requires Clean(base) && Over(base, host.k, c.Span())
    modifies host
    ensures host.k == Swept(base, old(host.k).Table(MAIN), c) && host.faults == old(host.faults)
  {
    CleanupYields(base, host.k, c);
    CleanupSmartReturn(host);
    CleanupRouting(host, c);
  }

  /** setupRouting and its error path, which cleans up the routing alone. */
  method StartRouting(host: Kernel.Host, c: Config, ghost base: State) returns (ok: bool)
    requires Clean(base) && c.Valid() && host.k == base
    modifies host
    ensures host.Since(old(host.faults)) && (host.faults == old(host.faults) ==> ok)
    ensures !ok && Fits(base.Table(MAIN), c) ==> host.k == base
    ensures ok ==> WithinPlain(base, c)(host.k)
    ensures ok ==> if c.ports == [] then host.k == base else RoutingUp(base, host.k, c)
  {
    ghost var plain := WithinPlain(base, c);
    BaseIsPlain(base, c);
    ok := SetupRouting(host, c, plain);
    if !ok {
      PlainAlready(base, host.k, c);
      RoutingAloneYields(base, host.k, c);
      FittingRestored(base, host.k, c);
      CleanupRouting(host, c);
    }
  }

  method StartPolicy(host: Kernel.Host, c: Config, ghost base: State) returns (ok: bool)
    requires Clean(base) && c.Valid() && WithinPlain(base, c)(host.k)
    requires if c.ports == [] then host.k == base else RoutingUp(base, host.k, c)
    modifies host
    ensures host.Since(old(host.faults)) && (host.faults == old(host.faults) ==> ok)
    ensures !ok && Fits(base.Table(MAIN), c) ==> host.k == base
    ensures ok ==> Within(base, c)(host.k) && InputLaid(base, host.k, c) && Ready(base, host.k, c)
  {
    ghost var routed := host.k;
    WithinClosed(base, c, ReturnSpan(c));
    assert c.Switching() ==> OwnKey(MOut) in routed.chains by {
      if c.Switching() { LaidAt(base, routed, KharejLayout(c), MOut); }
    }
    ok := SetupSmartReturnPolicy(host, c, Within(base, c));
    if !ok {
      FittingRestored(base, host.k, c);
      CleanupAll(host, c, base);
    } else {
      ReadyAfterPolicy(base, routed, host.k, c);
      InputAfterPolicy(base, routed, host.k, c);
    }
  }

  method StartFirewall(host: Kernel.Host, c: Config, ghost base: State) returns (ok: bool)
    requires Clean(base) && c.Valid() && Within(base, c)(host.k)
    modifies host
    ensures host.Since(old(host.faults)) && (host.faults == old(host.faults) ==> ok)
    ensures !ok && Fits(base.Table(MAIN), c) ==> host.k == base
    ensures ok ==> Within(base, c)(host.k) && OnlyInput(old(host.k), host.k)
    ensures ok && Addressed(c) ==> CarrierAdmitted(host.k, c, InputOf(old(host.k))) && InputHooked(old(host.k), host.k)
  {
    WithinClosed(base, c, c.Span());
    assert HookKey(In) in host.k.chains;
    ok := SetupCarrierFirewall(host, c, Within(base, c));
    if !ok {
      FittingRestored(base, host.k, c);
      CleanupAll(host, c, base);
    }
  }

  /** main.go's run up to the carrier. It starts from whatever an earlier run left, even
      one that was killed, and sweeps that first; `tunReady` says how setupTun ended. A start
      fails only through a fault; where the main table fits, it then leaves nothing behind.
      One that succeeds leaves exactly the rules, tables and chains of the configuration. */
  method Start(host: Kernel.Host, c: Config, tunReady: bool, ghost base: State) returns (ok: bool)
    requires Clean(base) && c.Valid() && Over(base, host.k, c.Span())
    modifies host
    ensures host.Since(old(host.faults)) && (tunReady && host.faults == old(host.faults) ==> ok)
    ensures var b := Swept(base, old(host.k).Table(MAIN), c);
      && (!ok && Fits(b.Table(MAIN), c) ==> host.k == b)
      && (ok ==> Within(b, c)(host.k) && Ready(b, host.k, c))
      && (ok && Addressed(c) ==> InputReady(b, host.k, c))
  {
    ghost var b := Swept(base, host.k.Table(MAIN), c);
    SweptIsClean(base, host.k.Table(MAIN), c);
    CleanupAll(host, c, base);
    if !tunReady {
      return false;
    }
    ok := StartRouting(host, c, b);
    if !ok { return; }
    ok := StartPolicy(host, c, b);
    if !ok { return; }
    ghost var marked := host.k;
    ok := StartFirewall(host, c, b);
    if ok { ReadyAfterFirewall(b, marked, host.k, c); }
    if ok && Addressed(c) { InputAfterFirewall(b, marked, host.k, c); }
  }

  /** The path that a history of probe outcomes calls for. */
  ghost function PathFor(outcomes: seq<bool>, n: nat, m: nat): Path
  {
    if LatestRunFailed(outcomes, n, m) then Tunnel else Direct
  }

  /** The kernel is one of the two installations, inside the footprint. */
  ghost predicate Switched(base: State, k: State, c: Config, path: Path)
  {
    Installed(base, k, c, path) && Over(base, k, c.Span())
  }

  /** One path switch: the kernel has the new path exactly when the command had no fault. */
  method SwitchPath(host: Kernel.Host, c: Config, path: Path, fault: bool, ghost base: State, ghost was: Path)
    returns (ok: bool)
    requires c.Switching() && Switched(base, host.k, c, was)
    modifies host
    ensures Switched(base, host.k, c, if fault then was else path)
    ensures ok <==> path.Direct? || !fault
    ensures host.faults == old(host.faults) + if fault then 1 else 0
  {
    WithinClosed(base, c, ReturnSpan(c));
    ghost var before := host.k;
    assert before.Table(RETURN) == ReturnTable(c, was);
    ok := SetKharejReturnPath(host, c, path, fault, Within(base, c));
    assert forall t: nat :: t != RETURN ==> host.k.Table(t) == before.Table(t);
  }

  /** The kernel where the controller's history and the switches that worked led. */
  ghost predicate Following(base: State, k: State, c: Config, history: seq<bool>, works: seq<bool>, n: nat, m: nat)
  {
    |works| == |history| && Switched(base, k, c, KernelPath(history, works, n, m))
  }

  /** One probe round of the monitor, once its outcome is known; a switch it leads to has a
      fault unless it `works`. */
  method Round(host: Kernel.Host, c: Config, controller: ReturnPathController, outcome: bool, work: bool,
      ghost base: State, ghost works: seq<bool>)
    requires controller.Valid() && controller.failThreshold >= 1 && controller.recoverThreshold >= 1 && c.Switching()
    requires |works| == |controller.history|
    requires PathIn(base, host.k, c)
      == Some(KernelPath(controller.history, works, controller.failThreshold, controller.recoverThreshold))
    modifies host, controller
    ensures controller.Valid() && controller.history == old(controller.history) + [outcome]
    ensures host.faults >= old(host.faults)
    ensures PathIn(base, host.k, c)
      == Some(KernelPath(controller.history, works + [work], controller.failThreshold, controller.recoverThreshold))
  {
    ghost var h, n, m := controller.history, controller.failThreshold, controller.recoverThreshold;
    ghost var was := KernelPath(h, works, n, m);
    Extended(h, works, outcome, work, n, m);
    var path, changed := controller.Observe(outcome);
    Act(host, c, path, changed, work, base, was);
  }

  /** The path of the kernel, if it is one of the two installations. */
  ghost function PathIn(base: State, k: State, c: Config): Option<Path>
  {
    if Switched(base, k, c, Direct) then Some(Direct) else if Switched(base, k, c, Tunnel) then Some(Tunnel) else None
  }

  lemma PathInIs(base: State, k: State, c: Config, path: Path)
    requires c.Switching()
    ensures PathIn(base, k, c) == Some(path) <==> Switched(base, k, c, path)
  {
  }

  /** What the monitor does about the controller's answer. */
  method Act(host: Kernel.Host, c: Config, path: Path, changed: bool, work: bool, ghost base: State, ghost was: Path)
    requires c.Switching() && PathIn(base, host.k, c) == Some(was)
    modifies host
    ensures PathIn(base, host.k, c) == Some(if work && changed then path else was)
    ensures host.faults == old(host.faults) + if changed && !work then 1 else 0
  {
    if changed {
      PathInIs(base, host.k, c, was);
      var ok := SwitchPath(host, c, path, !work, base, was);
      PathInIs(base, host.k, c, if work then path else was);
    }
  }

  /** The path in the kernel after the outcomes, where `works[i]` says that the command of a
      switch at outcome `i` has no fault. A switch that failed is not tried again. */
  function KernelPath(outcomes: seq<bool>, works: seq<bool>, n: nat, m: nat): Path
    requires |works| == |outcomes|
  {
    if outcomes == [] then Direct else
      var last := |outcomes| - 1;
      if SwitchesAtEnd(outcomes, n, m) && works[last] then After(outcomes, n, m).path
      else KernelPath(outcomes[..last], works[..last], n, m)
  }

  predicate SwitchesAtEnd(outcomes: seq<bool>, n: nat, m: nat)
  {
    outcomes != [] && After(outcomes, n, m).path != After(outcomes[..|outcomes| - 1], n, m).path
  }

  /** How many switches failed since the last one that worked. */
  function FailedSwitches(outcomes: seq<bool>, works: seq<bool>, n: nat, m: nat): nat
    requires |works| == |outcomes|
  {
    if outcomes == [] then 0 else
      var last := |outcomes| - 1;
      var before := FailedSwitches(outcomes[..last], works[..last], n, m);
      if !SwitchesAtEnd(outcomes, n, m) then before else if works[last] then 0 else before + 1
  }

  /** Kernel and controller agree exactly when an even number of switches failed since the
      last one that worked: after a single failed switch the traffic stays on the path the
      probes spoke against until the next switch. */
  lemma {:induction false} KernelFollowsIff(outcomes: seq<bool>, works: seq<bool>, n: nat, m: nat)
    requires |works| == |outcomes|
    ensures KernelPath(outcomes, works, n, m) == After(outcomes, n, m).path <==>
      FailedSwitches(outcomes, works, n, m) % 2 == 0
    ensures (forall i :: 0 <= i < |works| ==> works[i]) ==> FailedSwitches(outcomes, works, n, m) == 0
  {
    if outcomes != [] {
      KernelFollowsIff(outcomes[..|outcomes| - 1], works[..|outcomes| - 1], n, m);
    }
  }

  lemma {:induction false} NeverSwitched(outcomes: seq<bool>, n: nat, m: nat)
    ensures KernelPath(outcomes, Repeat(false, |outcomes|), n, m) == Direct
  {
    if outcomes != [] {
      assert Repeat(false, |outcomes|)[..|outcomes| - 1] == Repeat(false, |outcomes| - 1);
      NeverSwitched(outcomes[..|outcomes| - 1], n, m);
    }
  }

  /** Kernel and controller do part: after exactly N failures whose one switch has a fault the
      controller says TUNNEL and the kernel still has DIRECT. */
  lemma Stranded(n: nat, m: nat)
    requires n >= 1 && m >= 1
    ensures var h, works := Repeat(false, n), Repeat(false, n);
      After(h, n, m).path == Tunnel && KernelPath(h, works, n, m) == Direct && FailedSwitches(h, works, n, m) % 2 == 1
  {
    PushStreak([], n, n, m);
    assert [] + Repeat(false, n) == Repeat(false, n);
    NeverSwitched(Repeat(false, n), n, m);
    KernelFollowsIff(Repeat(false, n), Repeat(false, n), n, m);
  }

  lemma Longer(xs: seq<bool>, i: nat)
    requires i < |xs|
    ensures xs[..i] + [xs[i]] == xs[..i + 1]
  {
  }

  lemma Whole(xs: seq<bool>)
    ensures xs[..0] == [] && xs[..|xs|] == xs
  {
  }

  /** The monitor over any sequence of probe outcomes and of faults: the kernel is always one
      of the two installations, and it has the path the outcomes call for exactly when an
      even number of switches failed since the last that worked. */
  method Monitor(host: Kernel.Host, c: Config, n: nat, m: nat, outcomes: seq<bool>, works: seq<bool>, fault: bool,
      ghost base: State)
    requires n >= 1 && m >= 1 && |works| == |outcomes|
    requires c.Switching() && Switched(base, host.k, c, Direct)
    modifies host
    ensures host.faults >= old(host.faults) && Following(base, host.k, c, outcomes, works, n, m)
    ensures KernelPath(outcomes, works, n, m) == PathFor(outcomes, n, m) <==>
      FailedSwitches(outcomes, works, n, m) % 2 == 0
  {
    var controller := new ReturnPathController(n, m);
    PathInIs(base, host.k, c, Direct);
    Act(host, c, Direct, true, !fault, base, Direct);
    var i := 0;
    Whole(outcomes);
    Whole(works);
    while i < |outcomes|
      invariant 0 <= i <= |outcomes| && host.faults >= old(host.faults)
      invariant fresh(controller) && controller.Valid() && controller.history == outcomes[..i]
      invariant controller.failThreshold == n && controller.recoverThreshold == m
      invariant PathIn(base, host.k, c) == Some(KernelPath(controller.history, works[..i], n, m))
    {
      Longer(outcomes, i);
      Longer(works, i);
      Round(host, c, controller, outcomes[i], works[i], base, works[..i]);
      i := i + 1;
    }
    MonitorEnds(base, host.k, c, outcomes, works, n, m);
  }

  lemma MonitorEnds(base: State, k: State, c: Config, outcomes: seq<bool>, works: seq<bool>, n: nat, m: nat)
    requires n >= 1 && m >= 1 && c.Switching() && |works| == |outcomes|
    requires PathIn(base, k, c) == Some(KernelPath(outcomes, works, n, m))
    ensures Following(base, k, c, outcomes, works, n, m)
    ensures KernelPath(outcomes, works, n, m) == PathFor(outcomes, n, m) <==>
      FailedSwitches(outcomes, works, n, m) % 2 == 0
  {
    PathInIs(base, k, c, KernelPath(outcomes, works, n, m));
    PathForIff(outcomes, works, n, m);
  }

  lemma PathForIff(outcomes: seq<bool>, works: seq<bool>, n: nat, m: nat)
    requires n >= 1 && m >= 1 && |works| == |outcomes|
    ensures KernelPath(outcomes, works, n, m) == PathFor(outcomes, n, m) <==>
      FailedSwitches(outcomes, works, n, m) % 2 == 0
  {
    LatestRunDecides(outcomes, n, m);
    KernelFollowsIff(outcomes, works, n, m);
  }

  lemma Extended(outcomes: seq<bool>, works: seq<bool>, o: bool, w: bool, n: nat, m: nat)
    requires |works| == |outcomes|
    ensures KernelPath(outcomes + [o], works + [w], n, m)
      == if w && After(outcomes + [o], n, m).path != After(outcomes, n, m).path then After(outcomes + [o], n, m).path
         else KernelPath(outcomes, works, n, m)
  {
    assert (outcomes + [o])[..|outcomes|] == outcomes && (works + [w])[..|outcomes|] == works;
  }

  /** A whole run: start, any path switches with any faults, stop. Where the main table fits,
      the kernel ends as the base, wherever a fault struck. A run that got going from the
      base ends as the base exactly when the main table fits. */
  method Run(host: Kernel.Host, c: Config, tunReady: bool, n: nat, m: nat, outcomes: seq<bool>, works: seq<bool>,
      ghost base: State)
    returns (ok: bool)
    requires n >= 1 && m >= 1 && |works| == |outcomes|
    requires Clean(base) && c.Valid() && Over(base, host.k, c.Span())
    modifies host
    ensures host.faults >= old(host.faults) && (tunReady && host.faults == old(host.faults) ==> ok)
    ensures tunReady && host.steady ==> ok
    ensures Fits(base.Table(MAIN), c) && MainKept(base, old(host.k), c) ==> host.k == base
    ensures ok && old(host.k) == base ==> (host.k == base <==> Fits(base.Table(MAIN), c))
  {
    ghost var main := host.k.Table(MAIN);
    ghost var b := Swept(base, main, c);
    SweptIsClean(base, main, c);
    if MainKept(base, host.k, c) { FittingRestored(base, host.k, c); }
    ok := Start(host, c, tunReady, base);
    if ok {
      Stay(host, c, n, m, outcomes, works, b);
      RunEnds(base, main, c);
    }
  }

  /** The run once it has started, and its end. */
  method Stay(host: Kernel.Host, c: Config, n: nat, m: nat, outcomes: seq<bool>, works: seq<bool>, ghost base: State)
    requires n >= 1 && m >= 1 && |works| == |outcomes|
    requires Clean(base) && Within(base, c)(host.k) && Ready(base, host.k, c)
    modifies host
    ensures host.faults >= old(host.faults)
    ensures host.k == Swept(base, MainUp(base.Table(MAIN), c), c)
  {
    ReadyMain(base, host.k, c);
    if c.Switching() {
      assert Bypassing(c) && Switched(base, host.k, c, Direct);
      var fault := host.Chance();
      Monitor(host, c, n, m, outcomes, works, fault, base);
    }
    CleanupAll(host, c, base);
  }

  /** What became of the main table over a run. */
  lemma RunEnds(base: State, main: seq<Route>, c: Config)
    requires Clean(base) && c.Valid()
    ensures var b := Swept(base, main, c);
      var end := Swept(b, MainUp(b.Table(MAIN), c), c);
      && (b == base && Fits(base.Table(MAIN), c) ==> end == base)
      && (main == base.Table(MAIN) ==> (end == base <==> Fits(base.Table(MAIN), c)))
  {
    var b := Swept(base, main, c);
    SweptIsClean(base, main, c);
    SweptTwice(base, main, MainUp(b.Table(MAIN), c), c);
    SweptIsClean(base, MainUp(b.Table(MAIN), c), c);
    MainSurvivesIff(base.Table(MAIN), c);
  }

  lemma SweptTwice(base: State, main: seq<Route>, again: seq<Route>, c: Config)
    requires Clean(base)
    ensures Swept(Swept(base, main, c), again, c) == Swept(base, again, c)
  {
  }

  /** A kernel with nothing but the operator's own host route to Iran. */
  function WithOperatorRoute(c: Config): State
  {
    State([], map[MAIN := [Route(Host(c.iran), c.pub)]], map h: Own | h in OWN_CHAINS :: HookKey(h) := [])
  }

  lemma OperatorRouteIsClean(c: Config)
    ensures Clean(WithOperatorRoute(c)) && HasDest(WithOperatorRoute(c).Table(MAIN), Host(c.iran))
    ensures c.Adds() && c.Valid() ==> !Fits(WithOperatorRoute(c).Table(MAIN), c)
    ensures !c.Adds() && c.pub != c.tun ==> Fits(WithOperatorRoute(c).Table(MAIN), c)
  {
    assert WithOperatorRoute(c).Table(MAIN)[0].dst == Host(c.iran);
    forall h: Own ensures HookKey(h) in WithOperatorRoute(c).chains { EveryOwn(h); }
  }

  /** The witness: on a steady host, where the run starts for certain, full mode loses that
      route, whatever the probes say; every other configuration keeps it. */
  method LoseOperatorRoute(c: Config, n: nat, m: nat, outcomes: seq<bool>, works: seq<bool>) returns (host: Kernel.Host)
    requires n >= 1 && m >= 1 && |works| == |outcomes| && c.Valid() && c.pub != c.tun
    ensures fresh(host) && host.steady
    ensures host.k == WithOperatorRoute(c) <==> !c.Adds()
  {
    OperatorRouteIsClean(c);
    CleanIsOver(WithOperatorRoute(c), c.Span());
    host := new Kernel.Host(WithOperatorRoute(c), true);
    var ok := Run(host, c, true, n, m, outcomes, works, WithOperatorRoute(c));
  }
}
