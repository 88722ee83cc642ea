/** Smart Return's routing policy on Kharej, from smart_policy.go, and the monitor of
    direct_probe.go that switches it. */
module SmartPolicy {
  import opened Messages
  import opened Kernel
  import opened Footprint
  import opened ReturnPath
  import opened Routing

  /** The scope of the return policy. */
  function ReturnSpan(c: Config): Scope
  {
    c.Span().(ret := true)
  }

  /** Table 168 while the path is `path`. */
  function ReturnTable(c: Config, path: Path): seq<Route>
  {
    if path.Tunnel? then [ReturnRoute(c)] else []
  }

  function ReturnRoute(c: Config): Route
  {
    Route(Host(c.iran), c.tun, mtu := c.mtu)
  }

  /** setKharejReturnPath does something: its own guard, which does not look at the ports. */
  predicate Returning(c: Config)
  {
    c.role.Kharej? && c.mode.DirectReturn? && c.smart
  }

  /** Only table 168 may differ. */
  ghost predicate OnlyReturnTable(a: State, b: State)
  {
    b.rules == a.rules && b.chains == a.chains && forall t: nat :: t != RETURN ==> b.Table(t) == a.Table(t)
  }

  /** setKharejReturnPath; `fault` is whether its command fails by itself. The new table is
      in place exactly when it does not. A flush that fails goes unnoticed: the result is
      success while the table stays as it was. */
  method SetKharejReturnPath(host: Kernel.Host, c: Config, path: Path, fault: bool, ghost inv: State -> bool)
    returns (ok: bool)
    requires inv(host.k) && Closed(inv, ReturnSpan(c))
    modifies host
    ensures inv(host.k) && OnlyReturnTable(old(host.k), host.k)
    ensures !Returning(c) ==> ok && host.k == old(host.k) && host.faults == old(host.faults)
    ensures Returning(c) ==> host.faults == old(host.faults) + if fault then 1 else 0
    ensures Returning(c) ==> (ok <==> path.Direct? || !fault)
    ensures Returning(c) && fault ==> host.k == old(host.k)
    ensures Returning(c) && !fault && (exists p :: old(host.k).Table(RETURN) == ReturnTable(c, p)) ==>
      host.k.Table(RETURN) == ReturnTable(c, path)
  {
    if !c.role.Kharej? || !c.mode.DirectReturn? || !c.smart {
      return true;
    }
    ok := true;
    match path {
      case Direct =>
        var flushed := host.Run(RouteFlush(RETURN), fault);
      case Tunnel =>
        ok := host.Run(RouteReplace(RETURN, ReturnRoute(c)), fault);
    }
  }

  // ---------------------------------------------------------------------------

  /** The rules for one service port and one protocol. */
  function MarkRules(c: Config, proto: Proto, port: nat): seq<FwRule>
  {
    [MarkRule(c, proto, port)] + if proto.Tcp? then [ClampMarked(c, port)] else []
  }

  /** Only packets without a mark: carrier and probe sockets have theirs. */
  function MarkRule(c: Config, proto: Proto, port: nat): FwRule
  {
    Do(Match(src := c.foreign, dst := c.iran, proto := Some(proto), sport := Some(port), mark := Some(0)),
      MarkAs(RETURN_MARK))
  }

  function ClampMarked(c: Config, port: nat): FwRule
  {
    Do(Match(src := c.foreign, dst := c.iran, proto := Some(Tcp), sport := Some(port), mark := Some(RETURN_MARK),
      syn := true), ClampMss(c.mtu - 40))
  }

  function PortMarks(c: Config, port: nat, protos: seq<Proto>): seq<FwRule>
  {
    if protos == [] then [] else PortMarks(c, port, protos[..|protos| - 1]) + MarkRules(c, protos[|protos| - 1], port)
  }

  /** The marking chain of Smart Return. */
  function ServiceMarks(c: Config, ports: seq<PortSpec>): seq<FwRule>
  {
    if ports == [] then [] else
      var p := ports[|ports| - 1];
      ServiceMarks(c, ports[..|ports| - 1]) + PortMarks(c, p.port, Protocols(p.protocol))
  }

  /** The marking chain has gained `fs` at its end, and nothing else differs. */
  ghost predicate Gained(a: State, b: State, fs: seq<FwRule>)
  {
    && OnlyChain(a, b, OwnKey(MOut))
    && (OwnKey(MOut) in a.chains ==> b.chains[OwnKey(MOut)] == a.chains[OwnKey(MOut)] + fs)
  }

  lemma GainedNothing(a: State)
    ensures Gained(a, a, [])
  {
    if OwnKey(MOut) in a.chains { assert a.chains[OwnKey(MOut)] + [] == a.chains[OwnKey(MOut)]; }
  }

  lemma GainedTwice(a: State, b: State, d: State, fs: seq<FwRule>, gs: seq<FwRule>)
    requires Gained(a, b, fs) && Gained(b, d, gs)
    ensures Gained(a, d, fs + gs)
  {
    if OwnKey(MOut) in a.chains {
      assert a.chains[OwnKey(MOut)] + fs + gs == a.chains[OwnKey(MOut)] + (fs + gs);
    }
  }

  method MarkService(host: Kernel.Host, c: Config, proto: Proto, port: nat, ghost inv: State -> bool) returns (ok: bool)
    requires inv(host.k) && Closed(inv, ReturnSpan(c))
    modifies host
    ensures inv(host.k) && OnlyChain(old(host.k), host.k, OwnKey(MOut)) && host.Since(old(host.faults))
    ensures host.faults == old(host.faults) && OwnKey(MOut) in old(host.k).chains ==> ok
    ensures ok ==> Gained(old(host.k), host.k, MarkRules(c, proto, port))
  {
    ghost var sc := ReturnSpan(c);
    ok := AppendTo(host, MOut, MarkRule(c, proto, port), inv, sc);
    if !ok || !proto.Tcp? { return; }
    ok := AppendTo(host, MOut, ClampMarked(c, port), inv, sc);
  }

  method MarkPort(host: Kernel.Host, c: Config, p: PortSpec, ghost inv: State -> bool) returns (ok: bool)
    requires inv(host.k) && Closed(inv, ReturnSpan(c))
    modifies host
    ensures inv(host.k) && OnlyChain(old(host.k), host.k, OwnKey(MOut)) && host.Since(old(host.faults))
    ensures host.faults == old(host.faults) && OwnKey(MOut) in old(host.k).chains ==> ok
    ensures ok ==> Gained(old(host.k), host.k, PortMarks(c, p.port, Protocols(p.protocol)))
  {
    var protos := Protocols(p.protocol);
    var j := 0;
    ok := true;
    GainedNothing(host.k);
    while j < |protos|
      invariant 0 <= j <= |protos| && ok && host.Since(old(host.faults))
      invariant inv(host.k) && Gained(old(host.k), host.k, PortMarks(c, p.port, protos[..j]))
    {
      ghost var k := host.k;
      ok := MarkService(host, c, protos[j], p.port, inv);
      if !ok { return; }
      assert protos[..j + 1][..j] == protos[..j];
      GainedTwice(old(host.k), k, host.k, PortMarks(c, p.port, protos[..j]), MarkRules(c, protos[j], p.port));
      j := j + 1;
    }
    assert protos[..j] == protos;
  }

  method MarkServices(host: Kernel.Host, c: Config, ghost inv: State -> bool) returns (ok: bool)
    requires inv(host.k) && Closed(inv, ReturnSpan(c))
    modifies host
    ensures inv(host.k) && OnlyChain(old(host.k), host.k, OwnKey(MOut)) && host.Since(old(host.faults))
    ensures host.faults == old(host.faults) && OwnKey(MOut) in old(host.k).chains ==> ok
    ensures ok ==> Gained(old(host.k), host.k, ServiceMarks(c, c.ports))
  {
    var i := 0;
    ok := true;
    GainedNothing(host.k);
    while i < |c.ports|
      invariant 0 <= i <= |c.ports| && ok && host.Since(old(host.faults))
      invariant inv(host.k) && Gained(old(host.k), host.k, ServiceMarks(c, c.ports[..i]))
    {
      ghost var k := host.k;
      ok := MarkPort(host, c, c.ports[i], inv);
      if !ok { return; }
      assert c.ports[..i + 1][..i] == c.ports[..i];
      GainedTwice(old(host.k), k, host.k, ServiceMarks(c, c.ports[..i]),
        PortMarks(c, c.ports[i].port, Protocols(c.ports[i].protocol)));
      i := i + 1;
    }
    assert c.ports[..i] == c.ports;
  }

  /** cleanupSmartReturnPolicy inside setup, where it may fail unnoticed. */
  method TryCleanup(host: Kernel.Host, c: Config, ghost inv: State -> bool)
    requires inv(host.k) && Closed(inv, ReturnSpan(c))
    modifies host
    ensures inv(host.k) && host.k.chains == old(host.k.chains) && host.Since(old(host.faults))
    ensures RULE68 !in old(host.k).rules ==> host.k.rules == old(host.k).rules
    ensures forall t: nat :: t != RETURN ==> host.k.Table(t) == old(host.k).Table(t)
    ensures old(host.k).Table(RETURN) == [] ==> host.k.Table(RETURN) == []
  {
    var dropped := Try(host, RuleDel(RULE68), inv, ReturnSpan(c));
    var flushed := Try(host, RouteFlush(RETURN), inv, ReturnSpan(c));
  }

  /** The return policy in place with the direct path, over the kernel before. */
  ghost predicate PolicyMarked(before: State, k: State, c: Config)
  {
    && k.rules == InsertRule(before.rules, RULE68)
    && (forall t: nat :: t != RETURN ==> k.Table(t) == before.Table(t))
    && k.Table(RETURN) == []
    && (forall key :: key in before.chains && key != OwnKey(MOut) ==>
      key in k.chains && k.chains[key] == before.chains[key])
    && (OwnKey(MOut) in before.chains ==>
          OwnKey(MOut) in k.chains && k.chains[OwnKey(MOut)] == before.chains[OwnKey(MOut)] + ServiceMarks(c, c.ports))
  }

  method SetupSmartReturnPolicy(host: Kernel.Host, c: Config, ghost inv: State -> bool) returns (ok: bool)
    requires inv(host.k) && Closed(inv, ReturnSpan(c))
    modifies host
    ensures inv(host.k) && host.Since(old(host.faults))
    ensures !c.Switching() ==> ok && host.k == old(host.k)
    ensures host.faults == old(host.faults) && RULE68 !in old(host.k).rules && OwnKey(MOut) in old(host.k).chains ==> ok
    ensures ok && c.Switching() && RULE68 !in old(host.k).rules && old(host.k).Table(RETURN) == [] ==>
      PolicyMarked(old(host.k), host.k, c)
  {
    if !c.Switching() {
      return true;
    }
    TryCleanup(host, c, inv);
    ghost var cleaned := host.k;
    ok := Try(host, RuleAdd(RULE68), inv, ReturnSpan(c));
    if !ok { return; }
    ok := MarkServices(host, c, inv);
    if !ok {
      TryCleanup(host, c, inv);
      return;
    }
    assert forall t: nat :: host.k.Table(t) == cleaned.Table(t);
    assert old(host.k).Table(RETURN) == [] ==> host.k.Table(RETURN) == ReturnTable(c, Direct);
    var fault := host.Chance();
    ok := SetKharejReturnPath(host, c, Direct, fault, inv);
  }
}
