/** Which device a packet leaves through: the firewall's hooks, then the policy rules in
    order, each falling through when its table has no route. */
module RoutePolicy {
  import opened Messages
  import opened Kernel
  import opened Footprint
  import opened ReturnPath
  import opened Routing
  import opened Setup
  import opened SmartPolicy
  import opened Lifecycle
  import opened Packets

  // ---------------------------------------------------------------------------
  // Lookup

  predicate Covers(d: Dest, ip: Ip)
  {
    match d case Default => true case Net(_, ips) => ip in ips case Host(h) => ip == h
  }

  function PrefixLength(d: Dest): nat
  {
    match d case Default => 0 case Net(len, _) => len case Host(_) => 32
  }

  /** The longest prefix that covers the address; of equal ones the first. */
  function Best(rs: seq<Route>, ip: Ip): (r: Option<Route>)
    ensures r.Some? ==> r.value in rs && Covers(r.value.dst, ip)
    ensures forall x :: x in rs && Covers(x.dst, ip) ==> r.Some? && PrefixLength(x.dst) <= PrefixLength(r.value.dst)
  {
    if rs == [] then None else
      var last := rs[|rs| - 1];
      var b := Best(rs[..|rs| - 1], ip);
      if Covers(last.dst, ip) && (b.None? || PrefixLength(last.dst) > PrefixLength(b.value.dst)) then Some(last) else b
  }

  predicate Applies(r: Rule, mark: nat)
  {
    r.mark.None? || r.mark.value == mark
  }

  /** The rule applies and its table routes the address. */
  predicate Decides(r: Rule, tables: map<nat, seq<Route>>, ip: Ip, mark: nat)
  {
    Applies(r, mark) && Best(RoutesOf(tables, r.table), ip).Some?
  }

  function Lookup(rules: seq<Rule>, tables: map<nat, seq<Route>>, ip: Ip, mark: nat): Option<Dev>
  {
    if rules == [] then None
    else if Decides(rules[0], tables, ip, mark) then Some(Best(RoutesOf(tables, rules[0].table), ip).value.dev)
    else Lookup(rules[1..], tables, ip, mark)
  }

  /** No rule ahead of a new one of this priority routes the address. */
  predicate Undecided(rs: seq<Rule>, tables: map<nat, seq<Route>>, ip: Ip, mark: nat, priority: nat)
  {
    rs == [] || rs[0].priority > priority
      || (!Decides(rs[0], tables, ip, mark) && Undecided(rs[1..], tables, ip, mark, priority))
  }

  /** What a new rule does to a lookup, exactly. */
  lemma {:induction false} InsertLookup(rs: seq<Rule>, r: Rule, tables: map<nat, seq<Route>>, ip: Ip, mark: nat)
    ensures Lookup(InsertRule(rs, r), tables, ip, mark)
      == if Decides(r, tables, ip, mark)
        && Undecided(rs, tables, ip, mark, r.priority) then Some(Best(RoutesOf(tables, r.table), ip).value.dev)
         else Lookup(rs, tables, ip, mark)
  {
    var xs := InsertRule(rs, r);
    if rs == [] || rs[0].priority > r.priority {
      assert xs[0] == r && xs[1..] == rs;
    } else {
      InsertLookup(rs[1..], r, tables, ip, mark);
      assert xs[0] == rs[0] && xs[1..] == InsertRule(rs[1..], r);
    }
  }

  lemma {:induction false} UndecidedInserted(rs: seq<Rule>, r: Rule, tables: map<nat, seq<Route>>, ip: Ip, mark: nat,
      priority: nat)
    requires r.priority > priority
    ensures Undecided(InsertRule(rs, r), tables, ip, mark, priority) == Undecided(rs, tables, ip, mark, priority)
  {
    var xs := InsertRule(rs, r);
    if rs == [] || rs[0].priority > r.priority {
      assert xs[0] == r;
    } else {
      UndecidedInserted(rs[1..], r, tables, ip, mark, priority);
      assert xs[0] == rs[0] && xs[1..] == InsertRule(rs[1..], r);
    }
  }

  /** Lookups depend only on the tables their rules name, and on marks only through them. */
  lemma {:induction false} SameLookup(rs: seq<Rule>, a: map<nat, seq<Route>>, b: map<nat, seq<Route>>, ip: Ip,
      m: nat, n: nat, priority: nat)
    requires forall r :: r in rs ==>
      Best(RoutesOf(a, r.table), ip) == Best(RoutesOf(b, r.table), ip) && (Applies(r, m) <==> Applies(r, n))
    ensures Lookup(rs, a, ip, m) == Lookup(rs, b, ip, n)
    ensures Undecided(rs, a, ip, m, priority) == Undecided(rs, b, ip, n, priority)
  {
    if rs != [] { SameLookup(rs[1..], a, b, ip, m, n, priority); }
  }

  lemma SingleRoute(r: Route, ip: Ip)
    ensures Best([r], ip) == if Covers(r.dst, ip) then Some(r) else None
  {
    assert [r][..0] == [];
  }

  // ---------------------------------------------------------------------------
  // Local output of Kharej

  /** A local packet after mangle OUTPUT. */
  function Sent(k: State, p: Packet, depth: nat): Option<Packet>
  {
    Through(k, Mangle, Output, p, depth)
  }

  function RouteOf(k: State, p: Packet, depth: nat): Option<Dev>
  {
    var q := Sent(k, p, depth);
    if q.None? then None else Lookup(k.rules, k.tables, q.value.dst, q.value.mark)
  }

  /** A configured service: this port with this protocol. */
  predicate Serves(ports: seq<PortSpec>, proto: Proto, port: nat)
  {
    exists i :: 0 <= i < |ports| && ports[i].port == port && proto in Protocols(ports[i].protocol)
  }

  lemma ServesFront(ports: seq<PortSpec>, proto: Proto, port: nat)
    requires ports != []
    ensures var last := ports[|ports| - 1];
      Serves(ports, proto, port) <==>
        Serves(ports[..|ports| - 1], proto, port) || (last.port == port && proto in Protocols(last.protocol))
  {
    var front, last := ports[..|ports| - 1], ports[|ports| - 1];
    assert forall i :: 0 <= i < |front| ==> front[i] == ports[i];
    if Serves(front, proto, port) {
      var i :| 0 <= i < |front| && front[i].port == port && proto in Protocols(front[i].protocol);
      assert ports[i] == front[i];
    }
    if Serves(ports, proto, port) && !(last.port == port && proto in Protocols(last.protocol)) {
      var i :| 0 <= i < |ports| && ports[i].port == port && proto in Protocols(ports[i].protocol);
      assert front[i] == ports[i];
    }
  }

  /** A packet from a configured service port of Kharej to Iran, not marked by its socket. */
  predicate IsService(c: Config, ports: seq<PortSpec>, p: Packet)
  {
    p.mark == 0 && p.src == c.foreign && p.dst == c.iran && Serves(ports, p.proto, p.sport)
  }

  /** A packet that the mark rule for this port and protocol picks. */
  predicate Picked(c: Config, proto: Proto, port: nat, p: Packet)
  {
    p.mark == 0 && p.src == c.foreign && p.dst == c.iran && p.sport == port && p.proto == proto
  }

  function Marked(p: Packet, picked: bool): Packet
  {
    if picked then p.(mark := RETURN_MARK) else p
  }

  lemma MarkedByRules(chains: Chains, c: Config, proto: Proto, port: nat, p: Packet, depth: nat)
    requires c.foreign != "" && c.iran != ""
    ensures Traverse(chains, Mangle, MarkRules(c, proto, port), p, depth) == Next(Marked(p, Picked(c, proto, port, p)))
  {
    var mark, clamp := MarkRule(c, proto, port), ClampMarked(c, port);
    TraverseOne(chains, Mangle, mark.when, mark.target, p, depth);
    assert Meets(p, mark.when) <==> Picked(c, proto, port, p);
    var q := Marked(p, Picked(c, proto, port, p));
    if proto.Tcp? {
      TraverseBoth(chains, Mangle, [mark], [clamp], p, depth);
      TraverseOne(chains, Mangle, clamp.when, clamp.target, q, depth);
    } else {
      assert MarkRules(c, proto, port) == [mark];
    }
  }

  lemma {:induction false} MarkedByPort(chains: Chains, c: Config, port: nat, protos: seq<Proto>, p: Packet, depth: nat)
    requires c.foreign != "" && c.iran != ""
    ensures Traverse(chains, Mangle, PortMarks(c, port, protos), p, depth)
      == Next(Marked(p, p.proto in protos && Picked(c, p.proto, port, p)))
  {
    if protos != [] {
      var front, last := protos[..|protos| - 1], protos[|protos| - 1];
      MarkedByPort(chains, c, port, front, p, depth);
      var q := Marked(p, p.proto in front && Picked(c, p.proto, port, p));
      TraverseBoth(chains, Mangle, PortMarks(c, port, front), MarkRules(c, last, port), p, depth);
      MarkedByRules(chains, c, last, port, q, depth);
      assert protos == front + [last];
    }
  }

  lemma {:induction false} MarkedByServices(chains: Chains, c: Config, ports: seq<PortSpec>, p: Packet, depth: nat)
    requires c.foreign != "" && c.iran != ""
    ensures Traverse(chains, Mangle, ServiceMarks(c, ports), p, depth) == Next(Marked(p, IsService(c, ports, p)))
  {
    if ports != [] {
      var front, last := ports[..|ports| - 1], ports[|ports| - 1];
      MarkedByServices(chains, c, front, p, depth);
      var q := Marked(p, IsService(c, front, p));
      TraverseBoth(chains, Mangle, ServiceMarks(c, front), PortMarks(c, last.port, Protocols(last.protocol)), p, depth);
      MarkedByPort(chains, c, last.port, Protocols(last.protocol), q, depth);
      ServesFront(ports, p.proto, p.sport);
    }
  }

  lemma {:induction false} ClampsMarkNothing(chains: Chains, c: Config, ports: seq<PortSpec>, p: Packet, depth: nat)
    ensures Traverse(chains, Mangle, Clamps(c, ports), p, depth) == Next(p)
  {
    if ports != [] {
      var front, last := ports[..|ports| - 1], ports[|ports| - 1];
      ClampsMarkNothing(chains, c, front, p, depth);
      var clamp := ClampRule(c, last.port);
      TraverseBoth(chains, Mangle, Clamps(c, front), [clamp], p, depth);
      TraverseOne(chains, Mangle, clamp.when, clamp.target, p, depth);
    }
  }

  /** What the operator's own setup must not do for the marks to mean anything: set or look
      at marks in local output, or route by the program's marks and tables. */
  ghost predicate Neutral(base: State)
  {
    && Clean(base) && HookIndifferent(base.chains, Mangle, Output)
    && (forall r :: r in base.rules ==> !OwnTable(r.table) && r.mark != Some(0) && r.mark != Some(RETURN_MARK))
  }

  /** The mark that Kharej's chain gives. */
  function FinalMark(c: Config, p: Packet): nat
  {
    if c.mode.DirectReturn? && IsService(c, c.ports, p) then RETURN_MARK else p.mark
  }

  lemma OwnChainMarks(chains: Chains, c: Config, p: Packet, depth: nat)
    requires c.foreign != "" && c.iran != ""
    ensures Traverse(chains, Mangle, OutputMarks(c), p, depth) == Next(p.(mark := FinalMark(c, p)))
  {
    if c.mode.Full? { ClampsMarkNothing(chains, c, c.ports, p, depth); }
      else { MarkedByServices(chains, c, c.ports, p, depth); }
  }

  /** Behind an own chain that lets a packet pass as `q`, the operator's rules go on with `q`
      as they would without the program. */
  lemma AfterOwnChain(base: State, k: State, h: Own, fs: seq<FwRule>, p: Packet, q: Packet, depth: nat)
    requires Clean(base) && ChainsOver(base.chains, k.chains) && LaidChain(base.chains, k.chains, h, fs) && depth >= 1
    requires Traverse(k.chains, TabOf(h), fs, p, depth - 1) == Next(q)
    ensures Through(k, TabOf(h), HookOf(h), p, depth) == Through(base, TabOf(h), HookOf(h), q, depth)
  {
    var rest := base.chains[HookKey(h)];
    JumpFirst(k.chains, h, rest, p, depth);
    TraverseKept(base.chains, k.chains, TabOf(h), rest, q, depth);
  }

  /** The operator's output rules treat a packet alike under every mark. */
  lemma BaseSent(base: State, p: Packet, m: nat, depth: nat)
    requires Neutral(base)
    ensures Sent(base, p, depth) == None || Sent(base, p, depth) == Some(p)
    ensures Sent(base, p.(mark := m), depth) == if Sent(base, p, depth).None? then None else Some(p.(mark := m))
  {
    MarkNotSeen(base.chains, Mangle, base.chains[HookKey(MOut)], p, m, depth);
  }

  /** Socket marks survive, exactly the service packets get the return mark, and the
      operator's rules drop what they dropped before. */
  lemma SentIs(base: State, k: State, c: Config, path: Path, p: Packet, depth: nat)
    requires Neutral(base) && Switched(base, k, c, path) && c.Valid() && c.ports != [] && depth >= 1
    ensures Sent(base, p, depth) == None || Sent(base, p, depth) == Some(p)
    ensures Sent(k, p, depth) == if Sent(base, p, depth).None? then None else Some(p.(mark := FinalMark(c, p)))
  {
    var q := p.(mark := FinalMark(c, p));
    OutputStep(base, k, c, p, q, depth);
    BaseSent(base, p, q.mark, depth);
  }

  lemma OutputStep(base: State, k: State, c: Config, p: Packet, q: Packet, depth: nat)
    requires Clean(base) && ChainsOver(base.chains, k.chains) && LaidChain(base.chains, k.chains, MOut, OutputMarks(c))
    requires c.foreign != "" && c.iran != "" && depth >= 1 && q == p.(mark := FinalMark(c, p))
    ensures Through(k, Mangle, Output, p, depth) == Through(base, Mangle, Output, q, depth)
  {
    OwnChainMarks(k.chains, c, p, depth - 1);
    AfterOwnChain(base, k, MOut, OutputMarks(c), p, q, depth);
  }

  // ---------------------------------------------------------------------------
  // Smart Return moves service traffic and nothing else

  /** The operator's rules see the operator's tables. */
  lemma DirectTables(base: State, k: State, c: Config, path: Path, ip: Ip, mark: nat, priority: nat)
    requires Neutral(base) && Installed(base, k, c, path) && c.mode.DirectReturn?
    ensures Lookup(base.rules, k.tables, ip, mark) == Lookup(base.rules, base.tables, ip, mark)
    ensures Undecided(base.rules, k.tables, ip, mark, priority)
      == Undecided(base.rules, base.tables, ip, mark, priority)
  {
    forall r | r in base.rules ensures RoutesOf(k.tables, r.table) == RoutesOf(base.tables, r.table) {
      assert k.Table(r.table) == base.Table(r.table);
    }
    SameLookup(base.rules, k.tables, base.tables, ip, mark, mark, priority);
  }

  /** The carrier's rule, in either mode. */
  lemma BypassLookup(base: State, k: State, c: Config, path: Path, ip: Ip, mark: nat)
    requires Installed(base, k, c, path)
    ensures Lookup(InsertRule(base.rules, RULE77), k.tables, ip, mark)
      == if mark == CARRIER_MARK && Undecided(base.rules, k.tables, ip, mark, 77) then Some(c.pub)
        else Lookup(base.rules, k.tables, ip, mark)
  {
    SingleRoute(BypassRoute(c), ip);
    assert RoutesOf(k.tables, TRANSPORT) == [BypassRoute(c)];
    InsertLookup(base.rules, RULE77, k.tables, ip, mark);
  }

  /** Route selection with Smart Return, exactly. */
  lemma SmartLookup(base: State, k: State, c: Config, path: Path, ip: Ip, mark: nat)
    requires Neutral(base) && Installed(base, k, c, path) && c.mode.DirectReturn?
    ensures Lookup(k.rules, k.tables, ip, mark)
      == if mark == RETURN_MARK && path.Tunnel? && ip == c.iran
        && Undecided(base.rules, base.tables, ip, mark, 68) then Some(c.tun)
         else if mark == CARRIER_MARK && Undecided(base.rules, base.tables, ip, mark, 77) then Some(c.pub)
         else Lookup(base.rules, base.tables, ip, mark)
  {
    SingleRoute(ReturnRoute(c), ip);
    assert RoutesOf(k.tables, RETURN) == ReturnTable(c, path);
    InsertLookup(InsertRule(base.rules, RULE77), RULE68, k.tables, ip, mark);
    UndecidedInserted(base.rules, RULE77, k.tables, ip, mark, 68);
    BypassLookup(base, k, c, path, ip, mark);
    DirectTables(base, k, c, path, ip, mark, 68);
    DirectTables(base, k, c, path, ip, mark, 77);
  }

  /** Unmarked and return-marked packets take the same way through the base. */
  lemma BaseServiceLookup(base: State, ip: Ip)
    requires Neutral(base)
    ensures Lookup(base.rules, base.tables, ip, RETURN_MARK) == Lookup(base.rules, base.tables, ip, 0)
  {
    SameLookup(base.rules, base.tables, base.tables, ip, RETURN_MARK, 0, 0);
  }

  /** With the direct path every packet but the carrier's goes where it went without the
      program. */
  lemma DirectIsTransparent(base: State, k: State, c: Config, p: Packet, depth: nat)
    requires Neutral(base) && Switched(base, k, c, Direct) && c.Switching() && c.Valid() && depth >= 1
      && p.mark != CARRIER_MARK
    ensures RouteOf(k, p, depth) == RouteOf(base, p, depth)
  {
    SentIs(base, k, c, Direct, p, depth);
    SmartLookup(base, k, c, Direct, p.dst, FinalMark(c, p));
    BaseServiceLookup(base, p.dst);
  }

  /** Traffic that the tunnel path diverts: services, and what already bears their mark. */
  predicate Diverted(c: Config, p: Packet)
  {
    IsService(c, c.ports, p) || (p.mark == RETURN_MARK && p.dst == c.iran)
  }

  /** With the tunnel path the diverted traffic enters the tunnel, unless the operator drops it
      or has an earlier rule for Iran; everything else goes as with the direct path. */
  lemma TunnelTakesService(base: State, k: State, c: Config, p: Packet, depth: nat)
    requires Neutral(base) && Switched(base, k, c, Tunnel) && c.Switching() && c.Valid() && depth >= 1
      && p.mark != CARRIER_MARK
    ensures RouteOf(k, p, depth)
      == if Diverted(c, p) && Sent(base, p, depth).Some?
        && Undecided(base.rules, base.tables, c.iran, RETURN_MARK, 68) then Some(c.tun)
         else RouteOf(base, p, depth)
  {
    SentIs(base, k, c, Tunnel, p, depth);
    SmartLookup(base, k, c, Tunnel, p.dst, FinalMark(c, p));
    BaseServiceLookup(base, p.dst);
  }

  /** A carrier or probe packet keeps its mark through all OUTPUT rules and leaves through the
      public interface, in every installed state, unless an operator's rule ahead of the
      program's routes or drops it: the tunnel never carries itself. */
  lemma NoRecursiveTunnelling(base: State, k: State, c: Config, path: Path, p: Packet, depth: nat)
    requires Neutral(base) && Switched(base, k, c, path) && Bypassing(c) && c.Valid() && depth >= 1
      && p.mark == CARRIER_MARK
    ensures Sent(k, p, depth) == Sent(base, p, depth) && (Sent(k, p, depth).Some? ==> Sent(k, p, depth) == Some(p))
    ensures RouteOf(k, p, depth)
      == if Sent(base, p, depth).None? then None
         else if Undecided(base.rules, k.tables, p.dst, CARRIER_MARK, 77) then Some(c.pub)
         else Lookup(base.rules, k.tables, p.dst, CARRIER_MARK)
  {
    SentIs(base, k, c, path, p, depth);
    BypassLookup(base, k, c, path, p.dst, CARRIER_MARK);
    if c.mode.DirectReturn? {
      InsertLookup(InsertRule(base.rules, RULE77), RULE68, k.tables, p.dst, CARRIER_MARK);
    }
  }

  /** For every packet: the two paths send it different ways exactly when it is service
      traffic, not dropped and not routed ahead by the operator, that the host would not
      send into the tunnel by itself. */
  lemma ServiceOnlySwitching(base: State, kd: State, kt: State, c: Config, p: Packet, depth: nat)
    requires Neutral(base) && c.Switching() && c.Valid() && depth >= 1
    requires Switched(base, kd, c, Direct) && Switched(base, kt, c, Tunnel)
    ensures RouteOf(kt, p, depth) != RouteOf(kd, p, depth) <==>
      && Diverted(c, p) && Sent(base, p, depth).Some? && Undecided(base.rules, base.tables, c.iran, RETURN_MARK, 68)
      && RouteOf(base, p, depth) != Some(c.tun)
    ensures p.mark != RETURN_MARK ==> (Diverted(c, p) <==> IsService(c, c.ports, p))
  {
    if p.mark == CARRIER_MARK {
      SentIs(base, kd, c, Direct, p, depth);
      SentIs(base, kt, c, Tunnel, p, depth);
      SmartLookup(base, kd, c, Direct, p.dst, CARRIER_MARK);
      SmartLookup(base, kt, c, Tunnel, p.dst, CARRIER_MARK);
    } else {
      DirectIsTransparent(base, kd, c, p, depth);
      TunnelTakesService(base, kt, c, p, depth);
    }
  }

  /** From probe outcomes to packets. After any outcomes and any faults of the switches, a
      service packet goes where the latest decisive run of probes says exactly when an even
      number of switches failed since the last that worked, or both ways are the same. */
  lemma OutcomesDecideRoute(base: State, k: State, c: Config, n: nat, m: nat, outcomes: seq<bool>, works: seq<bool>,
      p: Packet, depth: nat)
    requires n >= 1 && m >= 1 && |works| == |outcomes| && Following(base, k, c, outcomes, works, n, m)
    requires Neutral(base) && c.Switching() && c.Valid() && depth >= 1 && IsService(c, c.ports, p)
    requires Sent(base, p, depth).Some? && Undecided(base.rules, base.tables, c.iran, RETURN_MARK, 68)
    ensures RouteOf(k, p, depth) == (if LatestRunFailed(outcomes, n, m) then Some(c.tun) else RouteOf(base, p, depth))
      <==> FailedSwitches(outcomes, works, n, m) % 2 == 0 || RouteOf(base, p, depth) == Some(c.tun)
  {
    PathForIff(outcomes, works, n, m);
    if KernelPath(outcomes, works, n, m).Tunnel? {
      TunnelTakesService(base, k, c, p, depth);
    } else {
      DirectIsTransparent(base, k, c, p, depth);
    }
  }

  // ---------------------------------------------------------------------------
  // Full mode

  lemma {:induction false} BestApart(rs: seq<Route>, r: Route, ip: Ip)
    requires !Covers(r.dst, ip)
    ensures Best(SetRoute(rs, r), ip) == Best(rs, ip)
  {
    if rs == [] {
      SingleRoute(r, ip);
    } else {
      var front, last := rs[..|rs| - 1], rs[|rs| - 1];
      if HasDest(front, r.dst) {
        BestApart(front, r, ip);
        assert (SetRoute(front, r) + [last])[..|SetRoute(front, r)|] == SetRoute(front, r);
      } else if last.dst == r.dst {
        assert (front + [r])[..|front|] == front;
      } else {
        assert (rs + [r])[..|rs|] == rs;
      }
    }
  }

  /** No other route to the address is as long as a host route. */
  ghost predicate ShorterThanHost(rs: seq<Route>, ip: Ip)
  {
    forall x :: x in rs && Covers(x.dst, ip) ==> x.dst == Host(ip) || PrefixLength(x.dst) < 32
  }

  /** A host route wins over any shorter prefix. */
  lemma {:induction false} HostRouteWins(rs: seq<Route>, r: Route)
    requires r.dst.Host? && ShorterThanHost(rs, r.dst.ip)
    ensures Best(SetRoute(rs, r), r.dst.ip) == Some(r)
  {
    if rs == [] {
      SingleRoute(r, r.dst.ip);
    } else {
      var front, last := rs[..|rs| - 1], rs[|rs| - 1];
      assert last in rs && forall x :: x in front ==> x in rs;
      if HasDest(front, r.dst) {
        HostRouteWins(front, r);
        assert (SetRoute(front, r) + [last])[..|SetRoute(front, r)|] == SetRoute(front, r);
      } else {
        var xs := if last.dst == r.dst then front else rs;
        assert (xs + [r])[..|xs|] == xs;
        assert forall x :: x in front ==> x.dst != r.dst;
        assert Best(xs, r.dst.ip).Some? ==> PrefixLength(Best(xs, r.dst.ip).value.dst) < 32;
      }
    }
  }

  lemma FullTable(base: State, k: State, c: Config, path: Path, t: nat)
    requires Installed(base, k, c, path) && c.Adds() && !OwnTable(t)
    ensures RoutesOf(k.tables, t) == if t == MAIN then SetRoute(RoutesOf(base.tables, MAIN), c.Span().route)
      else RoutesOf(base.tables, t)
  {
    assert k.Table(t) == if t == MAIN then SetRoute(base.Table(MAIN), c.Span().route) else base.Table(t);
  }

  /** In full mode a packet sees the operator's rules over the program's tables. */
  lemma FullLookup(base: State, k: State, c: Config, path: Path, p: Packet, depth: nat)
    requires Neutral(base) && Switched(base, k, c, path) && c.Adds() && c.Valid() && depth >= 1
      && p.mark != CARRIER_MARK
    ensures RouteOf(k, p, depth) == if Sent(base, p, depth).None? then None
      else Lookup(base.rules, k.tables, p.dst, p.mark)
  {
    SentIs(base, k, c, path, p, depth);
    BypassLookup(base, k, c, path, p.dst, p.mark);
  }

  /** Full mode redirects traffic to Iran and nothing else. */
  lemma FullModeOnlyIran(base: State, k: State, c: Config, path: Path, p: Packet, depth: nat)
    requires Neutral(base) && Switched(base, k, c, path) && c.Adds() && c.Valid() && depth >= 1
    requires p.mark != CARRIER_MARK && p.dst != c.iran
    ensures RouteOf(k, p, depth) == RouteOf(base, p, depth)
  {
    FullLookup(base, k, c, path, p, depth);
    SentIs(base, k, c, path, p, depth);
    forall r | r in base.rules ensures Best(RoutesOf(k.tables, r.table), p.dst)
      == Best(RoutesOf(base.tables, r.table), p.dst) {
      FullTable(base, k, c, path, r.table);
      BestApart(RoutesOf(base.tables, MAIN), c.Span().route, p.dst);
    }
    SameLookup(base.rules, k.tables, base.tables, p.dst, p.mark, p.mark, 0);
  }

  /** None of the first `i` rules routes the address, nor would it through `main`. */
  ghost predicate SilentBefore(rs: seq<Rule>, tables: map<nat, seq<Route>>, ip: Ip, mark: nat, i: nat)
  {
    i < |rs| && forall j :: 0 <= j < i && Applies(rs[j], mark) ==>
      rs[j].table != MAIN && Best(RoutesOf(tables, rs[j].table), ip).None?
  }

  lemma {:induction false} LookupAt(rs: seq<Rule>, tables: map<nat, seq<Route>>, ip: Ip, mark: nat, i: nat)
    requires SilentBefore(rs, tables, ip, mark, i) && Decides(rs[i], tables, ip, mark)
    ensures Lookup(rs, tables, ip, mark) == Some(Best(RoutesOf(tables, rs[i].table), ip).value.dev)
  {
    if i > 0 {
      assert forall j :: 0 <= j < i ==> rs[1..][j] == rs[j + 1];
      LookupAt(rs[1..], tables, ip, mark, i - 1);
    }
  }

  lemma SilentStill(base: State, k: State, c: Config, path: Path, ip: Ip, mark: nat, i: nat)
    requires Neutral(base) && Installed(base, k, c, path) && c.Adds()
      && SilentBefore(base.rules, base.tables, ip, mark, i)
    ensures SilentBefore(base.rules, k.tables, ip, mark, i)
  {
    forall j | 0 <= j < i && Applies(base.rules[j], mark)
      ensures Best(RoutesOf(k.tables, base.rules[j].table), ip).None? {
      assert base.rules[j] in base.rules;
      FullTable(base, k, c, path, base.rules[j].table);
    }
  }

  lemma MainTakesIran(base: State, k: State, c: Config, path: Path)
    requires Installed(base, k, c, path) && c.Adds() && ShorterThanHost(RoutesOf(base.tables, MAIN), c.iran)
    ensures Best(RoutesOf(k.tables, MAIN), c.iran) == Some(c.Span().route)
  {
    FullTable(base, k, c, path, MAIN);
    HostRouteWins(RoutesOf(base.tables, MAIN), c.Span().route);
  }

  /** ... and it does redirect that, an operator's own host route included: where the
      operator's `main` rule (the `i`th) is the first to route Iran, packets to Iran enter
      the tunnel unless dropped. */
  lemma FullModeTakesIran(base: State, k: State, c: Config, path: Path, p: Packet, depth: nat, i: nat)
    requires Neutral(base) && Switched(base, k, c, path) && c.Adds() && c.Valid() && depth >= 1
    requires p.mark != CARRIER_MARK && p.dst == c.iran && Sent(base, p, depth).Some?
    requires SilentBefore(base.rules, base.tables, c.iran, p.mark, i) && base.rules[i].table == MAIN
      && Applies(base.rules[i], p.mark)
    requires ShorterThanHost(RoutesOf(base.tables, MAIN), c.iran)
    ensures RouteOf(k, p, depth) == Some(c.tun)
  {
    FullLookup(base, k, c, path, p, depth);
    SilentStill(base, k, c, path, c.iran, p.mark, i);
    MainTakesIran(base, k, c, path);
    LookupAt(base.rules, k.tables, c.iran, p.mark, i);
  }

  // ---------------------------------------------------------------------------
  // Iran forwards its services into the tunnel

  /** A packet from outside after mangle and nat PREROUTING. */
  function Received(k: State, p: Packet, depth: nat): Option<Packet>
  {
    var q := Through(k, Mangle, Prerouting, p, depth);
    if q.None? then None else Through(k, Nat, Prerouting, q.value, depth)
  }

  function InboundRoute(k: State, p: Packet, depth: nat): Option<Dev>
  {
    var q := Received(k, p, depth);
    if q.None? then None else Lookup(k.rules, k.tables, q.value.dst, q.value.mark)
  }

  lemma {:induction false} ServicesServe(ports: seq<PortSpec>, proto: Proto, port: nat)
    ensures (proto, port) in Services(ports) <==> Serves(ports, proto, port)
  {
    if ports != [] {
      var last := ports[|ports| - 1];
      ServicesServe(ports[..|ports| - 1], proto, port);
      PairsServe(Protocols(last.protocol), last.port, proto, port);
      ServesFront(ports, proto, port);
    }
  }

  lemma PairsServe(protos: seq<Proto>, at: nat, proto: Proto, port: nat)
    ensures (proto, port) in Pairs(protos, at) <==> proto in protos && port == at
  {
    if proto in protos && port == at {
      var i :| 0 <= i < |protos| && protos[i] == proto;
      assert Pairs(protos, at)[i] == (proto, port);
    }
  }

  /** The packet comes from outside, to Iran's address and one of these services. */
  predicate Targets(c: Config, ss: seq<(Proto, nat)>, p: Packet)
  {
    p.iif == c.pub && p.dst == c.publicIp && (p.proto, p.dport) in ss
  }

  lemma {:induction false} DataMarked(chains: Chains, c: Config, ss: seq<(Proto, nat)>, p: Packet, depth: nat)
    requires c.pub != "" && c.publicIp != ""
    ensures Traverse(chains, Mangle, PerService(c, MarkData, ss), p, depth)
      == Next(if Targets(c, ss, p) then p.(mark := DATA_MARK) else p)
  {
    if ss != [] {
      var front, last := ss[..|ss| - 1], ss[|ss| - 1];
      assert ss == front + [last];
      DataMarked(chains, c, front, p, depth);
      var q, f := if Targets(c, front, p) then p.(mark := DATA_MARK) else p, ServiceRule(c, MarkData, last.0, last.1);
      PerServiceSnoc(c, MarkData, front, last);
      TraverseBoth(chains, Mangle, PerService(c, MarkData, front), [f], p, depth);
      TraverseOne(chains, Mangle, f.when, f.target, q, depth);
    }
  }

  lemma {:induction false} Redirected(chains: Chains, c: Config, ss: seq<(Proto, nat)>, p: Packet, depth: nat)
    requires c.pub != "" && c.publicIp != ""
    ensures Traverse(chains, Nat, PerService(c, Redirect, ss), p, depth)
      == if Targets(c, ss, p) then Final(p.(dst := c.foreign)) else Next(p)
  {
    if ss != [] {
      var front, last := ss[..|ss| - 1], ss[|ss| - 1];
      assert ss == front + [last];
      Redirected(chains, c, front, p, depth);
      var f := ServiceRule(c, Redirect, last.0, last.1);
      PerServiceSnoc(c, Redirect, front, last);
      TraverseBoth(chains, Nat, PerService(c, Redirect, front), [f], p, depth);
      TraverseOne(chains, Nat, f.when, f.target, p, depth);
    }
  }

  /** What Iran's operator must not do: set or look at marks in mangle PREROUTING, set them in
      nat, or route by the program's tables. */
  ghost predicate InboundNeutral(base: State)
  {
    && Clean(base) && HookIndifferent(base.chains, Mangle, Prerouting) && HookUnmarking(base.chains, Nat, Prerouting)
    && (forall r :: r in base.rules ==> !OwnTable(r.table))
  }

  /** Route selection on Iran, exactly. */
  lemma DataLookup(base: State, k: State, c: Config, ip: Ip, mark: nat)
    requires InboundNeutral(base) && DataPolicy(base, k, c)
    ensures Lookup(k.rules, k.tables, ip, mark)
      == if mark == DATA_MARK && ip == c.foreign && Undecided(base.rules, base.tables, ip, mark, 66) then Some(c.tun)
         else Lookup(base.rules, base.tables, ip, mark)
  {
    SingleRoute(Route(Host(c.foreign), c.tun), ip);
    assert RoutesOf(k.tables, DATA) == [Route(Host(c.foreign), c.tun)];
    InsertLookup(base.rules, RULE66, k.tables, ip, mark);
    forall r | r in base.rules ensures RoutesOf(k.tables, r.table) == RoutesOf(base.tables, r.table) {
      assert k.Table(r.table) == base.Table(r.table);
    }
    SameLookup(base.rules, k.tables, base.tables, ip, mark, mark, 66);
  }

  ghost predicate IranRunning(base: State, k: State, c: Config)
  {
    c.role.Iran? && c.Valid() && c.ports != [] && Ready(base, k, c) && Over(base, k, c.Span())
  }

  /** The operator's mangle rules treat an inbound packet alike under every mark. */
  lemma BaseInbound(base: State, p: Packet, m: nat, depth: nat)
    requires InboundNeutral(base)
    ensures var v := Through(base, Mangle, Prerouting, p, depth); v == None || v == Some(p)
    ensures Through(base, Mangle, Prerouting, p.(mark := m), depth)
      == if Through(base, Mangle, Prerouting, p, depth).None? then None else Some(p.(mark := m))
  {
    MarkNotSeen(base.chains, Mangle, base.chains[HookKey(MPre)], p, m, depth);
  }

  /** Iran's two PREROUTING chains, in their hooks. */
  ghost predicate InboundLaid(base: State, k: State, c: Config)
  {
    && Clean(base) && ChainsOver(base.chains, k.chains) && c.pub != "" && c.publicIp != ""
    && LaidChain(base.chains, k.chains, MPre, PerService(c, MarkData, Services(c.ports)))
    && LaidChain(base.chains, k.chains, NPre, PerService(c, Redirect, Services(c.ports)))
  }

  lemma IranLaid(base: State, k: State, c: Config)
    requires Clean(base) && IranRunning(base, k, c)
    ensures InboundLaid(base, k, c)
  {
    LaidAt(base, k, SetupLayout(c), MPre);
    LaidAt(base, k, SetupLayout(c), NPre);
  }

  lemma MangleIn(base: State, k: State, c: Config, p: Packet, depth: nat)
    requires InboundNeutral(base) && InboundLaid(base, k, c) && depth >= 1
    ensures Through(k, Mangle, Prerouting, p, depth)
      == if Through(base, Mangle, Prerouting, p, depth).None? then None
         else Some(if Targets(c, Services(c.ports), p) then p.(mark := DATA_MARK) else p)
  {
    var q := if Targets(c, Services(c.ports), p) then p.(mark := DATA_MARK) else p;
    DataMarked(k.chains, c, Services(c.ports), p, depth - 1);
    AfterOwnChain(base, k, MPre, PerService(c, MarkData, Services(c.ports)), p, q, depth);
    BaseInbound(base, p, q.mark, depth);
  }

  lemma NatIn(base: State, k: State, c: Config, p: Packet, depth: nat)
    requires InboundLaid(base, k, c) && depth >= 1
    ensures Through(k, Nat, Prerouting, p, depth)
      == if Targets(c, Services(c.ports), p) then Some(p.(dst := c.foreign))
        else Through(base, Nat, Prerouting, p, depth)
  {
    var ss := Services(c.ports);
    Redirected(k.chains, c, ss, p, depth - 1);
    if Targets(c, ss, p) {
      JumpFirst(k.chains, NPre, base.chains[HookKey(NPre)], p, depth);
    } else {
      AfterOwnChain(base, k, NPre, PerService(c, Redirect, ss), p, p, depth);
    }
  }

  lemma NatKeepsMark(base: State, p: Packet, depth: nat)
    requires InboundNeutral(base)
    ensures var v := Through(base, Nat, Prerouting, p, depth); v.Some? ==> v.value.mark == p.mark
  {
    MarkStays(base.chains, Nat, base.chains[HookKey(NPre)], p, depth);
  }

  lemma ReceivedIs(base: State, k: State, c: Config, p: Packet, depth: nat)
    requires InboundNeutral(base) && IranRunning(base, k, c) && depth >= 1
    ensures Targets(c, Services(c.ports), p) ==>
      Received(k, p, depth) == if Through(base, Mangle, Prerouting, p, depth).None? then None
        else Some(p.(mark := DATA_MARK, dst := c.foreign))
    ensures !Targets(c, Services(c.ports), p) ==> Received(k, p, depth) == Received(base, p, depth)
    ensures Received(base, p, depth).Some? ==> Received(base, p, depth).value.mark == p.mark
  {
    IranLaid(base, k, c);
    MangleIn(base, k, c, p, depth);
    BaseInbound(base, p, p.mark, depth);
    NatIn(base, k, c, if Targets(c, Services(c.ports), p) then p.(mark := DATA_MARK) else p, depth);
    NatKeepsMark(base, p, depth);
  }

  /** On a running Iran host exactly the configured services are redirected to Kharej and enter
      the tunnel, unless the operator drops them or has an earlier rule; any other packet is
      received and routed as without the program. */
  lemma IranForwardsServices(base: State, k: State, c: Config, p: Packet, depth: nat)
    requires InboundNeutral(base) && IranRunning(base, k, c) && depth >= 1 && p.mark != DATA_MARK
    ensures InboundRoute(k, p, depth)
      == if p.iif == c.pub && p.dst == c.publicIp && Serves(c.ports, p.proto, p.dport) then
           if Through(base, Mangle, Prerouting, p, depth).None? then None
           else if Undecided(base.rules, base.tables, c.foreign, DATA_MARK, 66) then Some(c.tun)
           else Lookup(base.rules, base.tables, c.foreign, DATA_MARK)
         else InboundRoute(base, p, depth)
  {
    ServicesServe(c.ports, p.proto, p.dport);
    ReceivedIs(base, k, c, p, depth);
    if Targets(c, Services(c.ports), p) {
      DataLookup(base, k, c, c.foreign, DATA_MARK);
    } else {
      var q := Received(base, p, depth);
      if q.Some? { DataLookup(base, k, c, q.value.dst, q.value.mark); }
    }
  }

  // ---------------------------------------------------------------------------
  // ... through FORWARD and POSTROUTING

  /** A service packet on its way from outside into the tunnel. */
  predicate Admitted(c: Config, ss: seq<(Proto, nat)>, p: Packet)
  {
    && p.iif == c.pub && p.oif == c.tun && p.dst == c.foreign && (p.proto, p.dport) in ss
    && (p.ct.New? || p.ct.Established?)
  }

  /** A reply from the tunnel, or one turned round at the public interface. */
  predicate Replies(c: Config, p: Packet)
  {
    (p.iif == c.tun || p.iif == c.pub) && p.oif == c.pub && (p.ct.Established? || p.ct.Related?)
  }

  lemma {:induction false} AdmittedBy(chains: Chains, c: Config, ss: seq<(Proto, nat)>, p: Packet, depth: nat)
    requires c.pub != "" && c.tun != "" && c.foreign != ""
    ensures Traverse(chains, Filter, PerService(c, Admit, ss), p, depth) == if Admitted(c, ss, p) then Final(p)
      else Next(p)
  {
    if ss != [] {
      var front, last := ss[..|ss| - 1], ss[|ss| - 1];
      assert ss == front + [last];
      AdmittedBy(chains, c, front, p, depth);
      var f := ServiceRule(c, Admit, last.0, last.1);
      PerServiceSnoc(c, Admit, front, last);
      TraverseBoth(chains, Filter, PerService(c, Admit, front), [f], p, depth);
      TraverseOne(chains, Filter, f.when, f.target, p, depth);
    }
  }

  lemma RepliesPass(chains: Chains, c: Config, p: Packet, depth: nat)
    requires c.pub != "" && c.tun != ""
    ensures Traverse(chains, Filter, [ReplyRule(c.tun, c.pub), ReplyRule(c.pub, c.pub)], p, depth)
      == if Replies(c, p) then Final(p) else Next(p)
  {
    var f, g := ReplyRule(c.tun, c.pub), ReplyRule(c.pub, c.pub);
    TraverseOne(chains, Filter, f.when, f.target, p, depth);
    TraverseOne(chains, Filter, g.when, g.target, p, depth);
    TraverseBoth(chains, Filter, [f], [g], p, depth);
    assert [f] + [g] == [f, g];
  }

  /** An own chain in its hook that decides, or passes the packet on unchanged. */
  lemma OwnChainDecides(base: State, k: State, h: Own, fs: seq<FwRule>, p: Packet, depth: nat)
    requires Clean(base) && ChainsOver(base.chains, k.chains) && LaidChain(base.chains, k.chains, h, fs) && depth >= 1
    requires var v := Traverse(k.chains, TabOf(h), fs, p, depth - 1); v.Next? ==> v.p == p
    ensures Through(k, TabOf(h), HookOf(h), p, depth)
      == match Traverse(k.chains, TabOf(h), fs, p, depth - 1)
         case Next(_) => Through(base, TabOf(h), HookOf(h), p, depth)
         case Final(q) => Some(q)
         case Lost => None
  {
    JumpFirst(k.chains, h, base.chains[HookKey(h)], p, depth);
    if Traverse(k.chains, TabOf(h), fs, p, depth - 1).Next? { AfterOwnChain(base, k, h, fs, p, p, depth); }
  }

  /** What a running Iran host lets through: services into the tunnel and replies; for every
      other packet the operator's rules decide as without the program. What leaves for Kharej
      through the tunnel bears Iran's address. */
  lemma IranPassesServices(base: State, k: State, c: Config, p: Packet, depth: nat)
    requires Clean(base) && IranRunning(base, k, c) && c.tun != "" && depth >= 1
    ensures Through(k, Filter, Forward, p, depth)
      == if Admitted(c, Services(c.ports), p) || Replies(c, p) then Some(p)
        else Through(base, Filter, Forward, p, depth)
    ensures Through(k, Nat, Postrouting, p, depth)
      == if p.oif == c.tun && p.dst == c.foreign then Some(p.(src := c.iran))
        else Through(base, Nat, Postrouting, p, depth)
  {
    IranOutLaid(base, k, c);
    ForwardHook(base, k, c, p, depth);
    PostroutingHook(base, k, c, p, depth);
  }

  /** Iran's chains behind the routing decision, in their hooks. */
  ghost predicate OutboundLaid(base: State, k: State, c: Config)
  {
    && Clean(base) && ChainsOver(base.chains, k.chains) && c.pub != "" && c.tun != "" && c.foreign != ""
    && LaidChain(base.chains, k.chains, Fwd, ForwardRules(c))
    && LaidChain(base.chains, k.chains, NPost, [SnatRule(c)])
  }

  lemma IranOutLaid(base: State, k: State, c: Config)
    requires Clean(base) && ChainsOver(base.chains, k.chains) && c.pub != "" && c.tun != "" && c.foreign != ""
    requires c.role.Iran? && Laid(base, k, SetupLayout(c))
    ensures OutboundLaid(base, k, c)
  {
    LaidAt(base, k, SetupLayout(c), Fwd);
    LaidAt(base, k, SetupLayout(c), NPost);
  }

  lemma ForwardHook(base: State, k: State, c: Config, p: Packet, depth: nat)
    requires OutboundLaid(base, k, c) && depth >= 1
    ensures Through(k, Filter, Forward, p, depth)
      == if Admitted(c, Services(c.ports), p) || Replies(c, p) then Some(p)
        else Through(base, Filter, Forward, p, depth)
  {
    ForwardVerdict(k.chains, c, p, depth - 1);
    OwnChainDecides(base, k, Fwd, ForwardRules(c), p, depth);
  }

  lemma PostroutingHook(base: State, k: State, c: Config, p: Packet, depth: nat)
    requires OutboundLaid(base, k, c) && depth >= 1
    ensures Through(k, Nat, Postrouting, p, depth)
      == if p.oif == c.tun && p.dst == c.foreign then Some(p.(src := c.iran))
        else Through(base, Nat, Postrouting, p, depth)
  {
    TraverseOne(k.chains, Nat, SnatRule(c).when, SnatRule(c).target, p, depth - 1);
    OwnChainDecides(base, k, NPost, [SnatRule(c)], p, depth);
  }

  lemma ForwardVerdict(chains: Chains, c: Config, p: Packet, depth: nat)
    requires c.pub != "" && c.tun != "" && c.foreign != ""
    ensures Traverse(chains, Filter, ForwardRules(c), p, depth)
      == if Admitted(c, Services(c.ports), p) || Replies(c, p) then Final(p) else Next(p)
  {
    var replies := [ReplyRule(c.tun, c.pub), ReplyRule(c.pub, c.pub)];
    AdmittedBy(chains, c, Services(c.ports), p, depth);
    RepliesPass(chains, c, p, depth);
    TraverseBoth(chains, Filter, PerService(c, Admit, Services(c.ports)), replies, p, depth);
  }

  /** A new packet for a service, all the way: redirected, routed into the tunnel, let through,
      and sent to Kharej under Iran's address. */
  lemma IranCarriesService(base: State, k: State, c: Config, p: Packet, depth: nat)
    requires InboundNeutral(base) && IranRunning(base, k, c) && c.tun != "" && depth >= 1
    requires p.iif == c.pub && p.dst == c.publicIp && Serves(c.ports, p.proto, p.dport) && p.mark != DATA_MARK
    requires p.ct.New? || p.ct.Established?
    requires Through(base, Mangle, Prerouting, p, depth).Some?
    requires Undecided(base.rules, base.tables, c.foreign, DATA_MARK, 66)
    ensures var q := p.(mark := DATA_MARK, dst := c.foreign);
      && Received(k, p, depth) == Some(q) && InboundRoute(k, p, depth) == Some(c.tun)
      && var out := q.(oif := c.tun);
      && Through(k, Filter, Forward, out, depth) == Some(out)
      && Through(k, Nat, Postrouting, out, depth) == Some(out.(src := c.iran))
  {
    ServicesServe(c.ports, p.proto, p.dport);
    ReceivedIs(base, k, c, p, depth);
    IranForwardsServices(base, k, c, p, depth);
    IranPassesServices(base, k, c, p.(mark := DATA_MARK, dst := c.foreign, oif := c.tun), depth);
  }

  /** A reply of Kharej to Iran, on a path that the mode provides. */
  predicate Returns(c: Config, p: Packet)
  {
    && p.src == c.foreign && p.dst == c.iran && (p.ct.Established? || p.ct.Related?)
    && ((p.oif == c.pub && c.mode.DirectReturn?) || (p.oif == c.tun && (c.mode.Full? || c.smart)))
  }

  lemma ReturnsPass(chains: Chains, c: Config, p: Packet, depth: nat)
    requires c.pub != "" && c.tun != "" && c.foreign != "" && c.iran != ""
    ensures Traverse(chains, Filter, KharejOutput(c), p, depth) == if Returns(c, p) then Final(p) else Next(p)
  {
    var f, g := ReturnRule(c, c.pub), ReturnRule(c, c.tun);
    TraverseOne(chains, Filter, f.when, f.target, p, depth);
    TraverseOne(chains, Filter, g.when, g.target, p, depth);
    TraverseBoth(chains, Filter, [f], [g], p, depth);
    assert [f] + [g] == [f, g];
  }

  lemma OutputHook(base: State, k: State, c: Config, p: Packet, depth: nat)
    requires Clean(base) && ChainsOver(base.chains, k.chains) && LaidChain(base.chains, k.chains, Out, KharejOutput(c))
    requires c.pub != "" && c.tun != "" && c.foreign != "" && c.iran != "" && depth >= 1
    ensures Through(k, Filter, Output, p, depth)
      == if Returns(c, p) then Some(p) else Through(base, Filter, Output, p, depth)
  {
    ReturnsPass(k.chains, c, p, depth - 1);
    OwnChainDecides(base, k, Out, KharejOutput(c), p, depth);
  }

  /** Kharej's filter lets its replies to Iran out, through the tunnel where that is a path;
      for every other packet the operator's rules decide as without the program. */
  lemma KharejLetsRepliesOut(base: State, k: State, c: Config, p: Packet, depth: nat)
    requires Clean(base) && ChainsOver(base.chains, k.chains) && Ready(base, k, c) && depth >= 1
    requires c.role.Kharej? && c.Valid() && c.ports != [] && c.tun != ""
    ensures Through(k, Filter, Output, p, depth)
      == if Returns(c, p) then Some(p) else Through(base, Filter, Output, p, depth)
  {
    LaidAt(base, k, SetupLayout(c), Out);
    OutputHook(base, k, c, p, depth);
  }

  // ---------------------------------------------------------------------------
  // Kharej accepts its services from the tunnel and, locked, from nowhere else

  /** What the service rules of the input chain make of a packet. */
  function InputVerdict(c: Config, ss: seq<(Proto, nat)>, p: Packet): Verdict
  {
    if p.dst != c.foreign || (p.proto, p.dport) !in ss then Next(p)
    else if p.iif == c.tun && (p.ct.New? || p.ct.Established?) then Final(p)
    else if p.iif == c.pub && c.lock then Lost
    else Next(p)
  }

  ghost predicate DevicesApart(c: Config)
  {
    c.foreign != "" && c.pub != "" && c.tun != "" && c.pub != c.tun
  }

  lemma ServiceVerdict(chains: Chains, c: Config, proto: Proto, port: nat, p: Packet, depth: nat)
    requires DevicesApart(c)
    ensures var rules := if c.lock then [AcceptRule(c, proto, port), LockRule(c, proto, port)]
      else [AcceptRule(c, proto, port)];
      Traverse(chains, Filter, rules, p, depth) == InputVerdict(c, [(proto, port)], p)
  {
    var accept, lock := AcceptRule(c, proto, port), LockRule(c, proto, port);
    TraverseOne(chains, Filter, accept.when, accept.target, p, depth);
    TraverseOne(chains, Filter, lock.when, lock.target, p, depth);
    TraverseBoth(chains, Filter, [accept], [lock], p, depth);
    assert [accept] + [lock] == [accept, lock];
  }

  lemma {:induction false} ServicesVerdict(chains: Chains, c: Config, ss: seq<(Proto, nat)>, p: Packet, depth: nat)
    requires DevicesApart(c)
    ensures Traverse(chains, Filter, KharejInput(c, ss), p, depth) == InputVerdict(c, ss, p)
  {
    if ss != [] {
      var front, last := ss[..|ss| - 1], ss[|ss| - 1];
      assert ss == front + [last];
      ServicesVerdict(chains, c, front, p, depth);
      ServiceVerdict(chains, c, last.0, last.1, p, depth);
      var rules := if c.lock then [AcceptRule(c, last.0, last.1), LockRule(c, last.0, last.1)]
        else [AcceptRule(c, last.0, last.1)];
      TraverseBoth(chains, Filter, KharejInput(c, front), rules, p, depth);
      assert KharejInput(c, ss) == KharejInput(c, front) + rules;
    }
  }

  lemma {:induction false} ServiceInput(c: Config, ss: seq<(Proto, nat)>)
    ensures forall f :: f in KharejInput(c, ss) ==> f.Do? && (f.target.Drop? || f.when.iif == c.tun)
  {
    if ss != [] { ServiceInput(c, ss[..|ss| - 1]); }
  }

  lemma InputChainVerdict(base: State, k: State, c: Config, p: Packet, depth: nat)
    requires c.role.Kharej? && c.ports != [] && InputReady(base, k, c) && DevicesApart(c)
      && !Meets(p, CarrierRule(c).when)
    ensures OwnKey(In) in k.chains
      && Traverse(k.chains, Filter, k.chains[OwnKey(In)], p, depth) == InputVerdict(c, Services(c.ports), p)
  {
    var rest, f := KharejInput(c, Services(c.ports)), CarrierRule(c);
    ServiceInput(c, Services(c.ports));
    assert f !in rest;
    TraverseOne(k.chains, Filter, f.when, f.target, p, depth);
    TraverseBoth(k.chains, Filter, [f], rest, p, depth);
    ServicesVerdict(k.chains, c, Services(c.ports), p, depth);
  }

  /** On a running Kharej host a service is reached from the tunnel and, where ports are
      locked, not from the public interface; every other packet but the carrier's meets the
      operator's own input rules as without the program. */
  lemma KharejGuardsServices(base: State, k: State, c: Config, p: Packet, depth: nat)
    requires Clean(base) && ChainsOver(base.chains, k.chains) && InputReady(base, k, c) && depth >= 1
    requires c.role.Kharej? && c.ports != [] && DevicesApart(c) && !Meets(p, CarrierRule(c).when)
    ensures Through(k, Filter, Input, p, depth)
      == if p.dst == c.foreign && Serves(c.ports, p.proto, p.dport) && p.iif == c.tun
        && (p.ct.New? || p.ct.Established?) then Some(p)
         else if p.dst == c.foreign && Serves(c.ports, p.proto, p.dport) && p.iif == c.pub && c.lock then None
         else Through(base, Filter, Input, p, depth)
  {
    ServicesServe(c.ports, p.proto, p.dport);
    InputChainVerdict(base, k, c, p, depth - 1);
    InputHook(base, k, InputVerdict(c, Services(c.ports), p), p, depth);
    assert InputVerdict(c, Services(c.ports), p).Next? ==> InputVerdict(c, Services(c.ports), p).p == p;
  }

  /** Passing the chain twice, where the hook jumps to it twice, is passing it once. */
  lemma InputHook(base: State, k: State, v: Verdict, p: Packet, depth: nat)
    requires Clean(base) && ChainsOver(base.chains, k.chains) && depth >= 1 && OwnKey(In) in k.chains
      && HookKey(In) in k.chains
    requires var was, jump := base.chains[HookKey(In)], Jump(Hsh(In));
      k.chains[HookKey(In)] == [jump] + was || k.chains[HookKey(In)] == [jump] + ([jump] + was)
    requires Traverse(k.chains, Filter, k.chains[OwnKey(In)], p, depth - 1) == v && (v.Next? ==> v.p == p)
    ensures Traverse(k.chains, Filter, k.chains[HookKey(In)], p, depth)
      == if v.Next? then Traverse(base.chains, Filter, base.chains[HookKey(In)], p, depth) else v
  {
    var was := base.chains[HookKey(In)];
    JumpFirst(k.chains, In, was, p, depth);
    JumpFirst(k.chains, In, [Jump(Hsh(In))] + was, p, depth);
    TraverseKept(base.chains, k.chains, Filter, was, p, depth);
  }

  // ---------------------------------------------------------------------------
  // The peer's carrier, and on Iran its probes, come in

  /** A packet of the peer's carrier: to the carrier's port, or on Iran's TCP, which dials,
      back from it on an established connection. */
  predicate CarrierPacket(c: Config, p: Packet)
  {
    && p.iif == c.pub && p.dst == c.publicIp && p.proto == c.carrier
    && p.src == (if c.role.Iran? then c.foreign else c.iran)
    && if c.role.Iran? && c.carrier.Tcp? then p.sport == c.carrierPort && p.ct.Established?
       else p.dport == c.carrierPort
  }

  /** A direct probe from Kharej, where Smart Return is on. */
  predicate ProbePacket(c: Config, p: Packet)
  {
    && c.smart && c.ports != [] && p.iif == c.pub && p.src == c.foreign && p.dst == c.iran
    && p.proto == Udp && p.dport == c.probePort
  }

  lemma CarrierRulePicks(c: Config, p: Packet)
    requires Addressed(c)
    ensures Meets(p, CarrierRule(c).when) <==> CarrierPacket(c, p)
    ensures CarrierRule(c).target == Accept
  {
  }

  /** The carrier's rule before the rest, or among it, where nothing earlier drops. */
  lemma CarrierVerdict(chains: Chains, c: Config, rest: seq<FwRule>, p: Packet, depth: nat)
    requires Addressed(c)
    ensures Traverse(chains, Filter, [CarrierRule(c)] + rest, p, depth)
      == if CarrierPacket(c, p) then Final(p) else Traverse(chains, Filter, rest, p, depth)
  {
    var f := CarrierRule(c);
    CarrierRulePicks(c, p);
    TraverseOne(chains, Filter, f.when, f.target, p, depth);
    TraverseBoth(chains, Filter, [f], rest, p, depth);
  }

  lemma IranInputVerdict(chains: Chains, c: Config, p: Packet, depth: nat)
    requires c.pub != "" && c.foreign != "" && c.iran != "" && c.ports != []
    ensures Traverse(chains, Filter, IranInput(c), p, depth) == if ProbePacket(c, p) then Final(p) else Next(p)
  {
    var f := ProbeRule(c);
    TraverseOne(chains, Filter, f.when, f.target, p, depth);
  }

  /** On Iran exactly the carrier's packets and, with Smart Return, Kharej's probes are let in
      by the program; all others meet the operator's input rules as without it. */
  lemma IranGuardsInput(base: State, k: State, c: Config, p: Packet, depth: nat)
    requires Clean(base) && ChainsOver(base.chains, k.chains) && InputReady(base, k, c) && depth >= 1
    requires c.role.Iran? && c.Valid() && Addressed(c)
    ensures Through(k, Filter, Input, p, depth)
      == if CarrierPacket(c, p) || ProbePacket(c, p) then Some(p) else Through(base, Filter, Input, p, depth)
  {
    var rest := SetupInput(c);
    if c.ports != [] { IranInputVerdict(k.chains, c, p, depth - 1); }
    CarrierVerdict(k.chains, c, rest, p, depth - 1);
    if CarrierRule(c) in rest { CarrierRulePicks(c, p); }
    var v := if CarrierPacket(c, p) || ProbePacket(c, p) then Final(p) else Next(p);
    InputHook(base, k, v, p, depth);
  }

  /** On Kharej the carrier's packets are let in whatever else is locked. */
  lemma KharejAdmitsCarrier(base: State, k: State, c: Config, p: Packet, depth: nat)
    requires Clean(base) && ChainsOver(base.chains, k.chains) && InputReady(base, k, c) && depth >= 1
    requires c.role.Kharej? && Addressed(c) && (c.ports != [] ==> DevicesApart(c)) && CarrierPacket(c, p)
    ensures Through(k, Filter, Input, p, depth) == Some(p)
  {
    var rest := SetupInput(c);
    if c.ports != [] { ServiceInput(c, Services(c.ports)); }
    assert CarrierRule(c) !in rest;
    CarrierVerdict(k.chains, c, rest, p, depth - 1);
    InputHook(base, k, Final(p), p, depth);
  }
}
