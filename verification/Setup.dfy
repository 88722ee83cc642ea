/** The setup programs of routing.go and carrier_firewall.go. Each keeps, wherever a command
    fails, every property that the program's own commands keep; on success it says what
    every chain, rule and table holds. */
module Setup {
  import opened Messages
  import opened Kernel
  import opened Footprint
  import opened Routing

  // ---------------------------------------------------------------------------
  // Contents of the own chains

  /** What each own chain holds, where that is known. */
  datatype Layout = Layout(
    mPre: Option<seq<FwRule>>, nPre: Option<seq<FwRule>>, nPost: Option<seq<FwRule>>, fwd: Option<seq<FwRule>>,
    mFwd: Option<seq<FwRule>>, input: Option<seq<FwRule>>, out: Option<seq<FwRule>>, mOut: Option<seq<FwRule>>)
  {
    function At(h: Own): Option<seq<FwRule>>
    {
      match h
      case MPre => mPre case NPre => nPre case NPost => nPost case Fwd => fwd
      case MFwd => mFwd case In => input case Out => out case MOut => mOut
    }

    function With(h: Own, fs: seq<FwRule>): Layout
    {
      match h
      case MPre => this.(mPre := Some(fs)) case NPre => this.(nPre := Some(fs))
      case NPost => this.(nPost := Some(fs)) case Fwd => this.(fwd := Some(fs))
      case MFwd => this.(mFwd := Some(fs)) case In => this.(input := Some(fs))
      case Out => this.(out := Some(fs)) case MOut => this.(mOut := Some(fs))
    }
  }

  const NOWHERE := Layout(None, None, None, None, None, None, None, None)

  /** Chain `h` holds `fs`, and its hook begins with a jump to it. */
  predicate LaidChain(before: map<ChainKey, seq<FwRule>>, chains: map<ChainKey, seq<FwRule>>, h: Own, fs: seq<FwRule>)
  {
    && OwnKey(h) in chains && chains[OwnKey(h)] == fs
    && HookKey(h) in before && HookKey(h) in chains && chains[HookKey(h)] == [Jump(Hsh(h))] + before[HookKey(h)]
  }

  ghost predicate Laid(before: State, k: State, m: Layout)
  {
    forall h :: m.At(h).Some? ==> LaidChain(before.chains, k.chains, h, m.At(h).value)
  }

  function Put(m: Layout, h: Own, fw: FwRule): Layout
  {
    if m.At(h).Some? then m.With(h, m.At(h).value + [fw]) else m
  }

  lemma KeysApart(h: Own, g: Own)
    requires h != g
    ensures OwnKey(h) != OwnKey(g) && HookKey(h) != HookKey(g)
  {
  }

  /** One more rule at the end of an own chain. */
  method Lay(host: Kernel.Host, h: Own, fw: FwRule, ghost inv: State -> bool, ghost sc: Scope, ghost before: State,
      ghost m: Layout)
    returns (ok: bool, ghost m': Layout)
    requires inv(host.k) && Closed(inv, sc) && fw.Do? && Laid(before, host.k, m)
    modifies host
    ensures inv(host.k) && OnlyChain(old(host.k), host.k, OwnKey(h)) && Laid(before, host.k, m')
      && host.Since(old(host.faults))
    ensures ok ==> m' == Put(m, h, fw)
    ensures host.faults == old(host.faults) && m.At(h).Some? ==> ok
  {
    ok := AppendTo(host, h, fw, inv, sc);
    m' := if ok then Put(m, h, fw) else m;
    forall g | m'.At(g).Some? ensures LaidChain(before.chains, host.k.chains, g, m'.At(g).value) {
      assert m.At(g).Some? ==> LaidChain(before.chains, old(host.k).chains, g, m.At(g).value);
      if g != h { KeysApart(g, h); }
    }
  }

  /** No jump leads to these chains. */
  ghost predicate NotHooked(k: State, hs: seq<Own>)
  {
    forall h :: h in hs ==> HookKey(h) in k.chains && Jump(Hsh(h)) !in k.chains[HookKey(h)]
  }

  function Empty(hs: seq<Own>): Layout
  {
    if hs == [] then NOWHERE else Empty(hs[..|hs| - 1]).With(hs[|hs| - 1], [])
  }

  lemma {:induction false} EmptyAt(hs: seq<Own>, h: Own)
    ensures Empty(hs).At(h) == if h in hs then Some([]) else None
  {
    if hs != [] {
      EmptyAt(hs[..|hs| - 1], h);
      assert hs == hs[..|hs| - 1] + [hs[|hs| - 1]];
    }
  }

  /** The chains `hs`, empty and hooked. */
  method ResetChains(host: Kernel.Host, hs: seq<Own>, ghost inv: State -> bool, ghost sc: Scope)
    returns (ok: bool, ghost m: Layout)
    requires inv(host.k) && Closed(inv, sc) && forall i, j :: 0 <= i < j < |hs| ==> hs[i] != hs[j]
    modifies host
    ensures inv(host.k) && host.k.rules == old(host.k.rules) && host.k.tables == old(host.k.tables)
      && host.Since(old(host.faults))
    ensures host.faults == old(host.faults) && NotHooked(old(host.k), hs) ==> ok
    ensures ok ==> Laid(old(host.k), host.k, m) && m == if NotHooked(old(host.k), hs) then Empty(hs) else NOWHERE
  {
    ghost var before := host.k;
    var i := 0;
    ok, m := true, NOWHERE;
    while i < |hs|
      invariant 0 <= i <= |hs| && ok && inv(host.k) && host.k.rules == before.rules && host.k.tables == before.tables
      invariant host.Since(old(host.faults))
      invariant NotHooked(before, hs) ==> Laid(before, host.k, Empty(hs[..i]))
      invariant NotHooked(before, hs) ==>
        forall j :: i <= j < |hs| ==>
          HookKey(hs[j]) in host.k.chains && host.k.chains[HookKey(hs[j])] == before.chains[HookKey(hs[j])]
    {
      ghost var k := host.k;
      ok := ResetChain(host, hs[i], inv, sc);
      if !ok { return; }
      ghost var h := hs[i];
      if NotHooked(before, hs) {
        assert h in hs;
        ghost var m' := Empty(hs[..i + 1]);
        forall g | m'.At(g).Some? ensures LaidChain(before.chains, host.k.chains, g, m'.At(g).value) {
          EmptyAt(hs[..i + 1], g);
          EmptyAt(hs[..i], g);
          if g != h {
            assert g in hs[..i];
            assert LaidChain(before.chains, k.chains, g, Empty(hs[..i]).At(g).value);
            KeysApart(g, h);
          }
        }
        forall j | i < j < |hs|
          ensures HookKey(hs[j]) in host.k.chains
          ensures host.k.chains[HookKey(hs[j])] == before.chains[HookKey(hs[j])]
        {
          KeysApart(hs[j], h);
        }
      }
      i := i + 1;
    }
    assert hs[..i] == hs;
    m := if NotHooked(before, hs) then Empty(hs) else NOWHERE;
  }

  /** The protocol and port pairs of the configured services, in order. */
  function Services(ports: seq<PortSpec>): seq<(Proto, nat)>
  {
    if ports == [] then [] else
      var p := ports[|ports| - 1];
      Services(ports[..|ports| - 1]) + Pairs(Protocols(p.protocol), p.port)
  }

  function Pairs(protos: seq<Proto>, port: nat): seq<(Proto, nat)>
  {
    seq(|protos|, i requires 0 <= i < |protos| => (protos[i], port))
  }

  /** What Iran's rules do for a service. */
  datatype Service = MarkData | Redirect | Admit

  function ServiceRule(c: Config, what: Service, proto: Proto, port: nat): FwRule
  {
    match what
    case MarkData => Do(Match(iif := c.pub, dst := c.publicIp, proto := Some(proto), dport := Some(port)),
      MarkAs(DATA_MARK))
    case Redirect => Do(Match(iif := c.pub, dst := c.publicIp, proto := Some(proto), dport := Some(port)),
      Dnat(c.foreign, port))
    case Admit =>
      Do(Match(iif := c.pub, oif := c.tun, dst := c.foreign, proto := Some(proto), dport := Some(port),
        ct := {New, Established}), Accept)
  }

  /** One rule of this kind for every service. */
  function PerService(c: Config, what: Service, ss: seq<(Proto, nat)>): seq<FwRule>
  {
    seq(|ss|, i requires 0 <= i < |ss| => ServiceRule(c, what, ss[i].0, ss[i].1))
  }

  lemma PerServiceSnoc(c: Config, what: Service, ss: seq<(Proto, nat)>, s: (Proto, nat))
    ensures PerService(c, what, ss + [s]) == PerService(c, what, ss) + [ServiceRule(c, what, s.0, s.1)]
  {
  }

  /** Where the loop over ports and protocols stands: `j` protocols of port `i` are done. */
  function Done(ports: seq<PortSpec>, i: nat, j: nat): seq<(Proto, nat)>
    requires i < |ports| && j <= |Protocols(ports[i].protocol)|
  {
    Services(ports[..i]) + Pairs(Protocols(ports[i].protocol)[..j], ports[i].port)
  }

  lemma DoneSteps(ports: seq<PortSpec>, i: nat)
    requires i < |ports|
    ensures Done(ports, i, 0) == Services(ports[..i])
    ensures Done(ports, i, |Protocols(ports[i].protocol)|) == Services(ports[..i + 1])
    ensures forall j :: 0 <= j < |Protocols(ports[i].protocol)| ==>
      Done(ports, i, j + 1) == Done(ports, i, j) + [(Protocols(ports[i].protocol)[j], ports[i].port)]
  {
    var protos := Protocols(ports[i].protocol);
    assert ports[..i + 1][..i] == ports[..i];
    assert protos[..|protos|] == protos;
  }

  // ---------------------------------------------------------------------------
  // Iran

  const IRAN_HOOKS: seq<Own> := [MPre, NPre, NPost, Fwd, MFwd, In]

  function IranInput(c: Config): seq<FwRule>
  {
    if c.smart then [ProbeRule(c)] else []
  }

  function ProbeRule(c: Config): FwRule
  {
    Do(Match(iif := c.pub, src := c.foreign, dst := c.iran, proto := Some(Udp), dport := Some(c.probePort)), Accept)
  }

  /** Replies forwarded from one device to the public one. */
  function ReplyRule(iif: Dev, oif: Dev): FwRule
  {
    Do(Match(iif := iif, oif := oif, ct := {Established, Related}), Accept)
  }

  function SnatRule(c: Config): FwRule
  {
    Do(Match(oif := c.tun, dst := c.foreign), Snat(c.iran))
  }

  /** Iran's chains once the services `ss` are done. */
  function IranServing(c: Config, ss: seq<(Proto, nat)>): Layout
  {
    Layout(Some(PerService(c, MarkData, ss)), Some(PerService(c, Redirect, ss)), Some([]),
      Some(PerService(c, Admit, ss)),
           Some([]), Some(IranInput(c)), None, None)
  }

  function IranClamp(c: Config): FwRule
  {
    if c.mode.Full? then Do(Match(oif := c.tun, mark := Some(DATA_MARK), proto := Some(Tcp), syn := true),
      ClampMss(c.mtu - 40))
    else Do(Match(iif := c.pub, oif := c.pub, src := c.foreign, proto := Some(Tcp), ct := {Established},
      syn := true), ClampMss(c.mtu - 40))
  }

  function ForwardRules(c: Config): seq<FwRule>
  {
    PerService(c, Admit, Services(c.ports)) + [ReplyRule(c.tun, c.pub), ReplyRule(c.pub, c.pub)]
  }

  function IranLayout(c: Config): Layout
  {
    var ss := Services(c.ports);
    Layout(Some(PerService(c, MarkData, ss)), Some(PerService(c, Redirect, ss)), Some([SnatRule(c)]),
           Some(ForwardRules(c)),
           Some([IranClamp(c)]), Some(IranInput(c)), None, None)
  }

  /** Iran's routing in place, over the kernel before. */
  ghost predicate IranUp(before: State, k: State, c: Config)
  {
    && k.rules == InsertRule(before.rules, RULE66)
    && k.Table(DATA) == before.Table(DATA) + [Route(Host(c.foreign), c.tun)]
    && (forall t: nat :: t != DATA ==> k.Table(t) == before.Table(t))
    && Laid(before, k, IranLayout(c))
  }

  lemma IranServingStarts(c: Config)
    ensures (if c.smart then Put(Empty(IRAN_HOOKS), In, ProbeRule(c)) else Empty(IRAN_HOOKS)) == IranServing(c, [])
  {
    EmptyAt(IRAN_HOOKS, MPre); EmptyAt(IRAN_HOOKS, NPre); EmptyAt(IRAN_HOOKS, NPost); EmptyAt(IRAN_HOOKS, Fwd);
    EmptyAt(IRAN_HOOKS, MFwd); EmptyAt(IRAN_HOOKS, In); EmptyAt(IRAN_HOOKS, Out); EmptyAt(IRAN_HOOKS, MOut);
    assert IRAN_HOOKS[0] == MPre && IRAN_HOOKS[1] == NPre && IRAN_HOOKS[2] == NPost;
    assert IRAN_HOOKS[3] == Fwd && IRAN_HOOKS[4] == MFwd && IRAN_HOOKS[5] == In;
    assert [] + [ProbeRule(c)] == [ProbeRule(c)];
    assert PerService(c, MarkData, []) == [] && PerService(c, Redirect, []) == [] && PerService(c, Admit, []) == [];
  }

  /** The three rules of one service. */
  method ServeIran(host: Kernel.Host, c: Config, proto: Proto, port: nat, ghost inv: State -> bool,
      ghost before: State, ghost m: Layout, ghost ss: seq<(Proto, nat)>)
    returns (ok: bool, ghost m': Layout)
    requires inv(host.k) && Closed(inv, c.Span()) && Laid(before, host.k, m)
    modifies host
    ensures inv(host.k) && host.k.rules == old(host.k.rules) && host.k.tables == old(host.k.tables)
      && Laid(before, host.k, m')
    ensures host.Since(old(host.faults))
    ensures ok && m == NOWHERE ==> m' == NOWHERE
    ensures ok && m == IranServing(c, ss) ==> m' == IranServing(c, ss + [(proto, port)])
    ensures host.faults == old(host.faults) && m == IranServing(c, ss) ==> ok
  {
    PerServiceSnoc(c, MarkData, ss, (proto, port));
    PerServiceSnoc(c, Redirect, ss, (proto, port));
    PerServiceSnoc(c, Admit, ss, (proto, port));
    ok, m' := Lay(host, MPre, ServiceRule(c, MarkData, proto, port), inv, c.Span(), before, m);
    if !ok { return; }
    ok, m' := Lay(host, NPre, ServiceRule(c, Redirect, proto, port), inv, c.Span(), before, m');
    if !ok { return; }
    ok, m' := Lay(host, Fwd, ServiceRule(c, Admit, proto, port), inv, c.Span(), before, m');
  }

  /** The loop over ports and protocols. */
  method ServeAllIran(host: Kernel.Host, c: Config, ghost inv: State -> bool, ghost before: State, ghost m: Layout)
    returns (ok: bool, ghost m': Layout)
    requires inv(host.k) && Closed(inv, c.Span()) && Laid(before, host.k, m)
      && (m == NOWHERE || m == IranServing(c, []))
    modifies host
    ensures inv(host.k) && host.k.rules == old(host.k.rules) && host.k.tables == old(host.k.tables)
      && Laid(before, host.k, m')
    ensures host.Since(old(host.faults))
    ensures ok ==> m' == if m == NOWHERE then NOWHERE else IranServing(c, Services(c.ports))
    ensures host.faults == old(host.faults) && m != NOWHERE ==> ok
  {
    var i := 0;
    ok, m' := true, m;
    while i < |c.ports|
      invariant 0 <= i <= |c.ports| && ok && host.Since(old(host.faults))
      invariant inv(host.k) && host.k.rules == old(host.k.rules) && host.k.tables == old(host.k.tables)
        && Laid(before, host.k, m')
      invariant m' == if m == NOWHERE then NOWHERE else IranServing(c, Services(c.ports[..i]))
    {
      var protos := Protocols(c.ports[i].protocol);
      var j := 0;
      DoneSteps(c.ports, i);
      while j < |protos|
        invariant 0 <= j <= |protos| && ok && host.Since(old(host.faults))
        invariant inv(host.k) && host.k.rules == old(host.k.rules) && host.k.tables == old(host.k.tables)
          && Laid(before, host.k, m')
        invariant m' == if m == NOWHERE then NOWHERE else IranServing(c, Done(c.ports, i, j))
      {
        ok, m' := ServeIran(host, c, protos[j], c.ports[i].port, inv, before, m', Done(c.ports, i, j));
        if !ok { return; }
        j := j + 1;
      }
      i := i + 1;
    }
    assert c.ports[..i] == c.ports;
  }

  /** The rules behind the services. */
  method FinishIran(host: Kernel.Host, c: Config, ghost inv: State -> bool, ghost before: State, ghost m: Layout)
    returns (ok: bool, ghost m': Layout)
    requires inv(host.k) && Closed(inv, c.Span()) && Laid(before, host.k, m)
    modifies host
    ensures inv(host.k) && host.k.rules == old(host.k.rules) && host.k.tables == old(host.k.tables)
      && Laid(before, host.k, m')
    ensures host.Since(old(host.faults))
    ensures ok && m == IranServing(c, Services(c.ports)) ==> m' == IranLayout(c)
    ensures host.faults == old(host.faults) && m == IranServing(c, Services(c.ports)) ==> ok
  {
    ok, m' := Lay(host, NPost, SnatRule(c), inv, c.Span(), before, m);
    if !ok { return; }
    ok, m' := Lay(host, Fwd, ReplyRule(c.tun, c.pub), inv, c.Span(), before, m');
    if !ok { return; }
    ok, m' := Lay(host, Fwd, ReplyRule(c.pub, c.pub), inv, c.Span(), before, m');
    if !ok { return; }
    ok, m' := Lay(host, MFwd, IranClamp(c), inv, c.Span(), before, m');
    IranFinished(c);
  }

  lemma IranFinished(c: Config)
    ensures Put(Put(Put(Put(IranServing(c, Services(c.ports)), NPost, SnatRule(c)), Fwd, ReplyRule(c.tun, c.pub)),
                    Fwd, ReplyRule(c.pub, c.pub)), MFwd, IranClamp(c)) == IranLayout(c)
  {
    assert [] + [SnatRule(c)] == [SnatRule(c)] && [] + [IranClamp(c)] == [IranClamp(c)];
    var fs := PerService(c, Admit, Services(c.ports));
    assert fs + [ReplyRule(c.tun, c.pub)] + [ReplyRule(c.pub, c.pub)]
        == fs + [ReplyRule(c.tun, c.pub), ReplyRule(c.pub, c.pub)];
  }

  /** The policy rule and the table of data packets. */
  method SetupDataPolicy(host: Kernel.Host, c: Config, ghost inv: State -> bool) returns (ok: bool)
    requires inv(host.k) && Closed(inv, c.Span())
    modifies host
    ensures inv(host.k) && host.k.chains == old(host.k.chains) && host.Since(old(host.faults))
    ensures ok ==> host.k.rules == InsertRule(old(host.k.rules), RULE66)
    ensures ok ==> host.k.Table(DATA) == old(host.k).Table(DATA) + [Route(Host(c.foreign), c.tun)]
    ensures ok ==> forall t: nat :: t != DATA ==> host.k.Table(t) == old(host.k).Table(t)
    ensures host.faults == old(host.faults) && RULE66 !in old(host.k).rules && old(host.k).Table(DATA) == [] ==> ok
  {
    ok := Try(host, RuleAdd(RULE66), inv, c.Span());
    if !ok { return; }
    ok := Try(host, RouteAdd(DATA, Route(Host(c.foreign), c.tun)), inv, c.Span());
  }

  /** The program's rules and tables are free. */
  ghost predicate Unused(k: State)
  {
    (forall r :: OwnRule(r) ==> r !in k.rules) && forall t :: OwnTable(t) ==> k.Table(t) == []
  }

  method SetupIranRouting(host: Kernel.Host, c: Config, ghost inv: State -> bool) returns (ok: bool)
    requires inv(host.k) && Closed(inv, c.Span())
    modifies host
    ensures inv(host.k) && host.Since(old(host.faults))
    ensures ok && NotHooked(old(host.k), IRAN_HOOKS) ==> IranUp(old(host.k), host.k, c)
    ensures host.faults == old(host.faults) && NotHooked(old(host.k), IRAN_HOOKS) && Unused(old(host.k)) ==> ok
  {
    ghost var before := host.k;
    ok := SetupDataPolicy(host, c, inv);
    if !ok { return; }
    ghost var routed := host.k;
    ghost var m;
    ok, m := ResetChains(host, IRAN_HOOKS, inv, c.Span());
    if !ok { return; }
    IranServingStarts(c);
    if c.smart {
      ok, m := Lay(host, In, ProbeRule(c), inv, c.Span(), routed, m);
      if !ok { return; }
    }
    ok, m := ServeAllIran(host, c, inv, routed, m);
    if !ok { return; }
    ok, m := FinishIran(host, c, inv, routed, m);
    assert forall t: nat :: host.k.Table(t) == routed.Table(t);
  }

  // ---------------------------------------------------------------------------
  // Kharej

  const KHAREJ_HOOKS: seq<Own> := [In, Out, MOut]

  method SetupTransportBypass(host: Kernel.Host, c: Config, ghost inv: State -> bool) returns (ok: bool)
    requires inv(host.k) && Closed(inv, c.Span())
    modifies host
    ensures inv(host.k) && host.k.chains == old(host.k.chains) && host.Since(old(host.faults))
    ensures ok ==> host.k.rules == InsertRule(old(host.k.rules), RULE77)
    ensures ok ==>
      host.k.Table(TRANSPORT)
        == old(host.k).Table(TRANSPORT) + [Route(Default, c.pub, via := c.gateway, src := c.publicIp)]
    ensures ok ==> forall t: nat :: t != TRANSPORT ==> host.k.Table(t) == old(host.k).Table(t)
    ensures host.faults == old(host.faults) && RULE77 !in old(host.k).rules && old(host.k).Table(TRANSPORT) == [] ==> ok
  {
    ok := Try(host, RuleAdd(RULE77), inv, c.Span());
    if !ok { return; }
    ok := Try(host, RouteAdd(TRANSPORT, BypassRoute(c)), inv, c.Span());
  }

  function AcceptRule(c: Config, proto: Proto, port: nat): FwRule
  {
    Do(Match(iif := c.tun, dst := c.foreign, proto := Some(proto), dport := Some(port),
      ct := {New, Established}), Accept)
  }

  function LockRule(c: Config, proto: Proto, port: nat): FwRule
  {
    Do(Match(iif := c.pub, dst := c.foreign, proto := Some(proto), dport := Some(port)), Drop)
  }

  /** Replies of Kharej to Iran, through `oif`. */
  function ReturnRule(c: Config, oif: Dev): FwRule
  {
    Do(Match(oif := oif, src := c.foreign, dst := c.iran, ct := {Established, Related}), Accept)
  }

  function ClampRule(c: Config, port: nat): FwRule
  {
    Do(Match(oif := c.tun, src := c.foreign, dst := c.iran, proto := Some(Tcp), sport := Some(port), syn := true),
      ClampMss(c.mtu - 40))
  }

  /** The default route of the carrier. */
  function BypassRoute(c: Config): Route
  {
    Route(Default, c.pub, via := c.gateway, src := c.publicIp)
  }

  /** A service is accepted from the tunnel and, where locked, dropped from outside. */
  function KharejInput(c: Config, ss: seq<(Proto, nat)>): seq<FwRule>
  {
    if ss == [] then [] else
      var proto, port := ss[|ss| - 1].0, ss[|ss| - 1].1;
      var accepting := KharejInput(c, ss[..|ss| - 1]) + [AcceptRule(c, proto, port)];
      if c.lock then accepting + [LockRule(c, proto, port)] else accepting
  }

  /** MSS clamps of full mode, for the ports that serve TCP. */
  function Clamps(c: Config, ports: seq<PortSpec>): seq<FwRule>
  {
    if ports == [] then [] else
      var p := ports[|ports| - 1];
      var front := Clamps(c, ports[..|ports| - 1]);
      if p.protocol.OnlyUdp? then front else front + [ClampRule(c, p.port)]
  }

  function KharejServing(input: seq<FwRule>, output: seq<FwRule>, marks: seq<FwRule>): Layout
  {
    Layout(None, None, None, None, None, Some(input), Some(output), Some(marks))
  }

  function KharejOutput(c: Config): seq<FwRule>
  {
    if c.mode.Full? then [ReturnRule(c, c.tun)]
    else if c.smart then [ReturnRule(c, c.pub), ReturnRule(c, c.tun)]
    else [ReturnRule(c, c.pub)]
  }

  function KharejLayout(c: Config): Layout
  {
    KharejServing(KharejInput(c, Services(c.ports)), KharejOutput(c), if c.mode.Full? then Clamps(c, c.ports) else [])
  }

  lemma KharejServingStarts()
    ensures Empty(KHAREJ_HOOKS) == KharejServing([], [], [])
  {
    EmptyAt(KHAREJ_HOOKS, MPre); EmptyAt(KHAREJ_HOOKS, NPre); EmptyAt(KHAREJ_HOOKS, NPost); EmptyAt(KHAREJ_HOOKS, Fwd);
    EmptyAt(KHAREJ_HOOKS, MFwd); EmptyAt(KHAREJ_HOOKS, In); EmptyAt(KHAREJ_HOOKS, Out); EmptyAt(KHAREJ_HOOKS, MOut);
    assert KHAREJ_HOOKS[0] == In && KHAREJ_HOOKS[1] == Out && KHAREJ_HOOKS[2] == MOut;
  }

  method ServeKharej(host: Kernel.Host, c: Config, proto: Proto, port: nat, ghost inv: State -> bool,
      ghost before: State, ghost m: Layout, ghost ss: seq<(Proto, nat)>)
    returns (ok: bool, ghost m': Layout)
    requires inv(host.k) && Closed(inv, c.Span()) && Laid(before, host.k, m)
    modifies host
    ensures inv(host.k) && host.k.rules == old(host.k.rules) && host.k.tables == old(host.k.tables)
      && Laid(before, host.k, m')
    ensures host.Since(old(host.faults))
    ensures ok && m == NOWHERE ==> m' == NOWHERE
    ensures ok && m == KharejServing(KharejInput(c, ss), [], []) ==>
      m' == KharejServing(KharejInput(c, ss + [(proto, port)]), [], [])
    ensures host.faults == old(host.faults) && m == KharejServing(KharejInput(c, ss), [], []) ==> ok
  {
    assert (ss + [(proto, port)])[..|ss|] == ss;
    ok, m' := Lay(host, In, AcceptRule(c, proto, port), inv, c.Span(), before, m);
    if !ok || !c.lock { return; }
    ok, m' := Lay(host, In, LockRule(c, proto, port), inv, c.Span(), before, m');
  }

  method ServeAllKharej(host: Kernel.Host, c: Config, ghost inv: State -> bool, ghost before: State, ghost m: Layout)
    returns (ok: bool, ghost m': Layout)
    requires inv(host.k) && Closed(inv, c.Span()) && Laid(before, host.k, m)
      && (m == NOWHERE || m == KharejServing([], [], []))
    modifies host
    ensures inv(host.k) && host.k.rules == old(host.k.rules) && host.k.tables == old(host.k.tables)
      && Laid(before, host.k, m')
    ensures host.Since(old(host.faults))
    ensures ok ==> m' == if m == NOWHERE then NOWHERE else KharejServing(KharejInput(c, Services(c.ports)), [], [])
    ensures host.faults == old(host.faults) && m != NOWHERE ==> ok
  {
    var i := 0;
    ok, m' := true, m;
    while i < |c.ports|
      invariant 0 <= i <= |c.ports| && ok && host.Since(old(host.faults))
      invariant inv(host.k) && host.k.rules == old(host.k.rules) && host.k.tables == old(host.k.tables)
        && Laid(before, host.k, m')
      invariant m' == if m == NOWHERE then NOWHERE else KharejServing(KharejInput(c, Services(c.ports[..i])), [], [])
    {
      ok, m' := ServePortKharej(host, c, i, inv, before, m');
      if !ok { return; }
      i := i + 1;
    }
    assert c.ports[..i] == c.ports;
  }

  method ServePortKharej(host: Kernel.Host, c: Config, i: nat, ghost inv: State -> bool, ghost before: State,
      ghost m: Layout)
    returns (ok: bool, ghost m': Layout)
    requires inv(host.k) && Closed(inv, c.Span()) && Laid(before, host.k, m) && i < |c.ports|
    requires m == NOWHERE || m == KharejServing(KharejInput(c, Services(c.ports[..i])), [], [])
    modifies host
    ensures inv(host.k) && host.k.rules == old(host.k.rules) && host.k.tables == old(host.k.tables)
      && Laid(before, host.k, m')
    ensures host.Since(old(host.faults))
    ensures ok ==> m' == if m == NOWHERE then NOWHERE
      else KharejServing(KharejInput(c, Services(c.ports[..i + 1])), [], [])
    ensures host.faults == old(host.faults) && m != NOWHERE ==> ok
  {
    var protos := Protocols(c.ports[i].protocol);
    var j := 0;
    ok, m' := true, m;
    DoneSteps(c.ports, i);
    while j < |protos|
      invariant 0 <= j <= |protos| && ok && host.Since(old(host.faults))
      invariant inv(host.k) && host.k.rules == old(host.k.rules) && host.k.tables == old(host.k.tables)
        && Laid(before, host.k, m')
      invariant m' == if m == NOWHERE then NOWHERE else KharejServing(KharejInput(c, Done(c.ports, i, j)), [], [])
    {
      ok, m' := ServeKharej(host, c, protos[j], c.ports[i].port, inv, before, m', Done(c.ports, i, j));
      if !ok { return; }
      j := j + 1;
    }
  }

  method ClampServices(host: Kernel.Host, c: Config, ghost inv: State -> bool, ghost before: State, ghost m: Layout,
      ghost input: seq<FwRule>, ghost output: seq<FwRule>)
    returns (ok: bool, ghost m': Layout)
    requires inv(host.k) && Closed(inv, c.Span()) && Laid(before, host.k, m)
      && (m == NOWHERE || m == KharejServing(input, output, []))
    modifies host
    ensures inv(host.k) && host.k.rules == old(host.k.rules) && host.k.tables == old(host.k.tables)
      && Laid(before, host.k, m')
    ensures host.Since(old(host.faults))
    ensures ok ==> m' == if m == NOWHERE then NOWHERE else KharejServing(input, output, Clamps(c, c.ports))
    ensures host.faults == old(host.faults) && m != NOWHERE ==> ok
  {
    var i := 0;
    ok, m' := true, m;
    while i < |c.ports|
      invariant 0 <= i <= |c.ports| && ok && host.Since(old(host.faults))
      invariant inv(host.k) && host.k.rules == old(host.k.rules) && host.k.tables == old(host.k.tables)
        && Laid(before, host.k, m')
      invariant m' == if m == NOWHERE then NOWHERE else KharejServing(input, output, Clamps(c, c.ports[..i]))
    {
      assert c.ports[..i + 1][..i] == c.ports[..i];
      if !c.ports[i].protocol.OnlyUdp? {
        ok, m' := Lay(host, MOut, ClampRule(c, c.ports[i].port), inv, c.Span(), before, m');
        if !ok { return; }
      }
      i := i + 1;
    }
    assert c.ports[..i] == c.ports;
  }

  /** The policy part of Kharej's routing, over the kernel before. */
  ghost predicate PolicyUp(before: State, k: State, c: Config)
  {
    && (if c.mode.Full? || c.smart then
          && k.rules == InsertRule(before.rules, RULE77)
          && k.Table(TRANSPORT) == before.Table(TRANSPORT) + [BypassRoute(c)]
        else k.rules == before.rules && k.Table(TRANSPORT) == before.Table(TRANSPORT))
    && (c.mode.Full? ==> k.Table(MAIN) == SetRoute(before.Table(MAIN), c.Span().route))
    && (forall t: nat :: t != TRANSPORT && (t != MAIN || c.mode.DirectReturn?) ==> k.Table(t) == before.Table(t))
  }

  /** Kharej's routing in place, over the kernel before. */
  ghost predicate KharejUp(before: State, k: State, c: Config)
  {
    PolicyUp(before, k, c) && Laid(before, k, KharejLayout(c))
  }

  method SetupKharejRouting(host: Kernel.Host, c: Config, ghost inv: State -> bool) returns (ok: bool)
    requires inv(host.k) && Closed(inv, c.Span()) && c.role.Kharej? && c.ports != []
    modifies host
    ensures inv(host.k) && host.Since(old(host.faults))
    ensures ok && NotHooked(old(host.k), KHAREJ_HOOKS) ==> KharejUp(old(host.k), host.k, c)
    ensures host.faults == old(host.faults) && NotHooked(old(host.k), KHAREJ_HOOKS) && Unused(old(host.k)) ==> ok
  {
    ghost var before := host.k;
    ghost var m;
    ok, m := ResetChains(host, KHAREJ_HOOKS, inv, c.Span());
    if !ok { return; }
    KharejServingStarts();
    ok, m := ServeAllKharej(host, c, inv, before, m);
    if !ok { return; }
    ghost var served := host.k;
    assert forall t: nat :: served.Table(t) == before.Table(t);
    if c.mode.DirectReturn? {
      ok, m := SetupDirectReturn(host, c, inv, before, m, KharejInput(c, Services(c.ports)));
    } else {
      ok, m := SetupFullTunnel(host, c, inv, before, m, KharejInput(c, Services(c.ports)));
    }
  }

  method SetupDirectReturn(host: Kernel.Host, c: Config, ghost inv: State -> bool, ghost before: State,
      ghost m: Layout, ghost input: seq<FwRule>)
    returns (ok: bool, ghost m': Layout)
    requires inv(host.k) && Closed(inv, c.Span()) && c.mode.DirectReturn? && Laid(before, host.k, m)
    modifies host
    ensures inv(host.k) && Laid(before, host.k, m') && host.Since(old(host.faults))
    ensures ok ==> PolicyUp(old(host.k), host.k, c)
    ensures ok && m == KharejServing(input, [], []) ==> m' == KharejServing(input, KharejOutput(c), [])
    ensures host.faults == old(host.faults) && m == KharejServing(input, [], []) && Unused(old(host.k)) ==> ok
  {
    ghost var served := host.k;
    ok, m' := Lay(host, Out, ReturnRule(c, c.pub), inv, c.Span(), before, m);
    ghost var accepting := host.k;
    assert [] + [ReturnRule(c, c.pub)] == [ReturnRule(c, c.pub)];
    assert [ReturnRule(c, c.pub)] + [ReturnRule(c, c.tun)]
        == [ReturnRule(c, c.pub), ReturnRule(c, c.tun)];
    assert forall t: nat :: accepting.Table(t) == served.Table(t);
    if !ok || !c.smart {
      return;
    }
    ok := SetupTransportBypass(host, c, inv);
    if !ok { return; }
    ghost var up := host.k;
    ok, m' := Lay(host, Out, ReturnRule(c, c.tun), inv, c.Span(), before, m');
    assert forall t: nat :: host.k.Table(t) == up.Table(t);
  }

  method SetupFullTunnel(host: Kernel.Host, c: Config, ghost inv: State -> bool, ghost before: State,
      ghost m: Layout, ghost input: seq<FwRule>)
    returns (ok: bool, ghost m': Layout)
    requires inv(host.k) && Closed(inv, c.Span()) && c.Adds()
    requires Laid(before, host.k, m) && (m == NOWHERE || m == KharejServing(input, [], []))
    modifies host
    ensures inv(host.k) && Laid(before, host.k, m') && host.Since(old(host.faults))
    ensures ok ==> PolicyUp(old(host.k), host.k, c)
    ensures ok && m == KharejServing(input, [], []) ==> m' == KharejServing(input, KharejOutput(c), Clamps(c, c.ports))
    ensures host.faults == old(host.faults) && m == KharejServing(input, [], []) && Unused(old(host.k)) ==> ok
  {
    ghost var served := host.k;
    m' := m;
    ok := SetupTransportBypass(host, c, inv);
    if !ok { return; }
    ghost var up := host.k;
    ok := Try(host, RouteReplace(MAIN, c.Span().route), inv, c.Span());
    if !ok { return; }
    ghost var routed := host.k;
    assert forall t: nat :: t != MAIN ==> routed.Table(t) == up.Table(t);
    ok, m' := Lay(host, Out, ReturnRule(c, c.tun), inv, c.Span(), before, m);
    if !ok { return; }
    assert [] + [ReturnRule(c, c.tun)] == [ReturnRule(c, c.tun)];
    ok, m' := ClampServices(host, c, inv, before, m', input, KharejOutput(c));
    assert forall t: nat :: host.k.Table(t) == routed.Table(t);
    assert forall t: nat :: t != TRANSPORT && t != MAIN ==> host.k.Table(t) == served.Table(t);
  }

  // ---------------------------------------------------------------------------
  // Both

  /** setupRouting; without service ports there is nothing to set up. */
  method SetupRouting(host: Kernel.Host, c: Config, ghost inv: State -> bool) returns (ok: bool)
    requires inv(host.k) && Closed(inv, c.Span())
    modifies host
    ensures inv(host.k) && host.Since(old(host.faults))
    ensures c.ports == [] ==> ok && host.k == old(host.k)
    ensures host.faults == old(host.faults) && NotHooked(old(host.k), OWN_CHAINS) && Unused(old(host.k)) ==> ok
    ensures ok && c.ports != [] && NotHooked(old(host.k), OWN_CHAINS) ==>
      if c.role.Iran? then IranUp(old(host.k), host.k, c) else KharejUp(old(host.k), host.k, c)
  {
    if c.ports == [] {
      return true;
    }
    assert IRAN_HOOKS == OWN_CHAINS[..6] && KHAREJ_HOOKS == OWN_CHAINS[5..];
    if c.role.Iran? {
      ok := SetupIranRouting(host, c, inv);
    } else {
      ok := SetupKharejRouting(host, c, inv);
    }
  }

  /** Only the input chain and its hook may differ. */
  ghost predicate OnlyInput(a: State, b: State)
  {
    && b.rules == a.rules && b.tables == a.tables
    && (forall key :: key in a.chains && key != OwnKey(In) && key != HookKey(In) ==>
      key in b.chains && b.chains[key] == a.chains[key])
  }

  function InputOf(k: State): seq<FwRule>
  {
    if OwnKey(In) in k.chains then k.chains[OwnKey(In)] else []
  }

  /** The carrier's rule is in the input chain, at the top unless it was among `rest`, and
      the hook begins with the jump to the chain. */
  ghost predicate CarrierAdmitted(k: State, c: Config, rest: seq<FwRule>)
  {
    && OwnKey(In) in k.chains
    && (k.chains[OwnKey(In)] == [CarrierRule(c)] + rest || (CarrierRule(c) in rest && k.chains[OwnKey(In)] == rest))
  }

  /** A jump to the input chain is in its hook, alone or before what was there. */
  ghost predicate InputHooked(before: State, k: State)
  {
    && HookKey(In) in before.chains && HookKey(In) in k.chains
    && var was, jump := before.chains[HookKey(In)], Jump(Hsh(In));
      k.chains[HookKey(In)] == [jump] + was || (jump in was && k.chains[HookKey(In)] == was)
  }

  /** The configuration names what the carrier rule needs. */
  predicate Addressed(c: Config)
  {
    c.pub != "" && c.publicIp != "" && CarrierSource(c) != ""
  }

  method SetupCarrierFirewall(host: Kernel.Host, c: Config, ghost inv: State -> bool) returns (ok: bool)
    requires inv(host.k) && Closed(inv, c.Span())
    modifies host
    ensures inv(host.k) && OnlyInput(old(host.k), host.k) && host.Since(old(host.faults))
    ensures !Addressed(c) ==> ok && host.k == old(host.k)
    ensures ok && Addressed(c) ==> CarrierAdmitted(host.k, c, InputOf(old(host.k))) && InputHooked(old(host.k), host.k)
    ensures host.faults == old(host.faults) && HookKey(In) in old(host.k).chains ==> ok
  {
    if !Addressed(c) {
      return true;
    }
    ok := HookInput(host, c, inv);
    if !ok { return; }
    var present := Try(host, Probe(OwnKey(In), CarrierRule(c)), inv, c.Span());
    if present {
      return true;
    }
    ok := Try(host, Insert(OwnKey(In), CarrierRule(c)), inv, c.Span());
  }

  /** The input chain, made and hooked unless it is. */
  method HookInput(host: Kernel.Host, c: Config, ghost inv: State -> bool) returns (ok: bool)
    requires inv(host.k) && Closed(inv, c.Span())
    modifies host
    ensures inv(host.k) && OnlyInput(old(host.k), host.k) && host.Since(old(host.faults))
    ensures InputOf(host.k) == InputOf(old(host.k))
    ensures ok ==> InputHooked(old(host.k), host.k)
    ensures host.faults == old(host.faults) ==> OwnKey(In) in host.k.chains
    ensures host.faults == old(host.faults) && HookKey(In) in old(host.k).chains ==> ok
  {
    var made := Try(host, ChainNew(OwnKey(In)), inv, c.Span());
    ok := Try(host, Probe(HookKey(In), Jump(Hsh(In))), inv, c.Span());
    if !ok {
      ok := Try(host, Insert(HookKey(In), Jump(Hsh(In))), inv, c.Span());
    }
  }

  /** The peer's address, as the carrier knows it. */
  function CarrierSource(c: Config): Ip
  {
    if c.role.Iran? then c.foreign else c.iran
  }

  /** Iran dials TCP, so it accepts replies only. */
  function CarrierRule(c: Config): FwRule
  {
    if c.carrier.Tcp? && c.role.Iran? then
      Do(Match(iif := c.pub, src := CarrierSource(c), dst := c.publicIp, proto := Some(Tcp),
        sport := Some(c.carrierPort), ct := {Established}), Accept)
    else
      Do(Match(iif := c.pub, src := CarrierSource(c), dst := c.publicIp, proto := Some(c.carrier),
        dport := Some(c.carrierPort)), Accept)
  }
}
