/** The configuration, the chain programs that setup is made of, and the cleanup programs.
    Any setup command may fail; a cleanup command fails only if the kernel refuses it. */
module Routing {
  import opened Messages
  import opened Kernel
  import opened Footprint

  datatype Mode = Full | DirectReturn

  datatype Protocol = OnlyTcp | OnlyUdp | Both

  datatype PortSpec = PortSpec(port: nat, protocol: Protocol)

  datatype Config = Config(
    role: Role, mode: Mode, smart: bool, ports: seq<PortSpec>,
    iran: Ip, foreign: Ip, publicIp: Ip, gateway: Ip, pub: Dev, tun: Dev, mtu: nat,
    lock: bool, probePort: nat, carrier: Proto, carrierPort: nat)
  {
    function Span(): Scope
    {
      Scope(role.Kharej?, Adds(), false, Route(Host(iran), tun))
    }

    /** Full mode routes Iran into the tunnel through the main table. */
    predicate Adds()
    {
      role.Kharej? && mode.Full? && ports != []
    }

    /** Smart Return is at work: the guard of smart_policy.go. */
    predicate Switching()
    {
      smart && role.Kharej? && mode.DirectReturn? && ports != []
    }

    /** config.go demands the addresses once there are ports. */
    predicate Valid()
    {
      ports != [] ==> iran != "" && foreign != "" && publicIp != "" && pub != ""
    }
  }

  function Protocols(p: Protocol): (r: seq<Proto>)
    ensures 1 <= |r| <= 2
  {
    match p case OnlyTcp => [Tcp] case OnlyUdp => [Udp] case Both => [Tcp, Udp]
  }

  /** A property of kernels that every command of the program keeps. The setup methods
      below keep all such properties at once, wherever they stop. */
  ghost predicate Closed(inv: State -> bool, sc: Scope)
  {
    forall k, cmd :: inv(k) && Ours(cmd, sc) && Exec(k, cmd).Some? ==> inv(Exec(k, cmd).value)
  }

  /** Nothing but the rules of chain `key` differs. */
  ghost predicate OnlyChain(a: State, b: State, key: ChainKey)
  {
    && b.rules == a.rules && b.tables == a.tables && b.chains.Keys == a.chains.Keys
    && forall x :: x in a.chains && x != key ==> b.chains[x] == a.chains[x]
  }

  /** A command of the program; it may have a fault of its own. */
  method Try(host: Kernel.Host, cmd: Command, ghost inv: State -> bool, ghost sc: Scope) returns (ok: bool)
    requires inv(host.k) && Closed(inv, sc) && Ours(cmd, sc)
    modifies host
    ensures inv(host.k) && host.Since(old(host.faults))
    ensures ok <==> Exec(old(host.k), cmd).Some? && host.faults == old(host.faults)
    ensures host.k == if ok then Exec(old(host.k), cmd).value else old(host.k)
  {
    var fault := host.Chance();
    ok := host.Run(cmd, fault);
  }

  /** The outcome of a command that fails only if it must. */
  function Outcome(k: State, cmd: Command): State
  {
    var r := Exec(k, cmd);
    if r.Some? then r.value else k
  }

  method AppendTo(host: Kernel.Host, h: Own, fw: FwRule, ghost inv: State -> bool, ghost sc: Scope) returns (ok: bool)
    requires inv(host.k) && Closed(inv, sc) && fw.Do?
    modifies host
    ensures inv(host.k) && OnlyChain(old(host.k), host.k, OwnKey(h)) && host.Since(old(host.faults))
    ensures ok <==> OwnKey(h) in old(host.k).chains && host.faults == old(host.faults)
    ensures ok ==> host.k.chains[OwnKey(h)] == old(host.k).chains[OwnKey(h)] + [fw]
    ensures !ok ==> host.k == old(host.k)
  {
    ok := Try(host, Append(OwnKey(h), fw), inv, sc);
  }

  // ---------------------------------------------------------------------------
  // Chains

  /** resetChain: an own chain, empty, with a jump to it in its hook, at the top if there
      was none. When the look for the jump fails by itself a second one may be put there. */
  method ResetChain(host: Kernel.Host, h: Own, ghost inv: State -> bool, ghost sc: Scope) returns (ok: bool)
    requires inv(host.k) && Closed(inv, sc)
    modifies host
    ensures inv(host.k) && host.Since(old(host.faults))
    ensures host.k.rules == old(host.k.rules) && host.k.tables == old(host.k.tables)
    ensures forall x :: x in old(host.k).chains && x != OwnKey(h) && x != HookKey(h) ==>
      x in host.k.chains && host.k.chains[x] == old(host.k).chains[x]
    ensures ok ==> OwnKey(h) in host.k.chains && host.k.chains[OwnKey(h)] == []
    ensures ok ==> HookKey(h) in old(host.k).chains && HookKey(h) in host.k.chains
    ensures ok ==>
      var was, jump := old(host.k).chains[HookKey(h)], Jump(Hsh(h));
      host.k.chains[HookKey(h)] == [jump] + was || (jump in was && host.k.chains[HookKey(h)] == was)
    ensures host.faults == old(host.faults) && HookKey(h) in old(host.k).chains ==> ok
    ensures ok && host.faults == old(host.faults) && Jump(Hsh(h)) in old(host.k).chains[HookKey(h)] ==>
      host.k.chains[HookKey(h)] == old(host.k).chains[HookKey(h)]
  {
    var made := Try(host, ChainNew(OwnKey(h)), inv, sc);
    ok := Try(host, ChainFlush(OwnKey(h)), inv, sc);
    if !ok {
      return;
    }
    ok := Try(host, Probe(HookKey(h), Jump(Hsh(h))), inv, sc);
    if !ok {
      ok := Try(host, Insert(HookKey(h), Jump(Hsh(h))), inv, sc);
    }
  }

  function RemoveAll(fs: seq<FwRule>, f: FwRule): seq<FwRule>
  {
    if fs == [] then [] else (if fs[0] == f then [] else [fs[0]]) + RemoveAll(fs[1..], f)
  }

  /** The hook without any jump to own chain `h`. */
  function Unhooked(k: State, h: Own): State
  {
    if HookKey(h) in k.chains then k.WithChain(HookKey(h), RemoveAll(k.chains[HookKey(h)], Jump(Hsh(h)))) else k
  }

  function ChainDeleted(k: State, h: Own): State
  {
    Outcome(Outcome(Unhooked(k, h), ChainFlush(OwnKey(h))), ChainDelete(OwnKey(h)))
  }

  lemma {:induction false} RemoveFirstOfAll(fs: seq<FwRule>, f: FwRule)
    requires f in fs
    ensures RemoveAll(RemoveFirst(fs, f), f) == RemoveAll(fs, f)
    ensures |RemoveFirst(fs, f)| == |fs| - 1
  {
    if fs[0] != f {
      RemoveFirstOfAll(fs[1..], f);
      var ys := RemoveFirst(fs[1..], f);
      assert ([fs[0]] + ys)[1..] == ys;
    }
  }

  lemma {:induction false} RemoveAllAbsent(fs: seq<FwRule>, f: FwRule)
    requires f !in fs
    ensures RemoveAll(fs, f) == fs
  {
    if fs != [] { RemoveAllAbsent(fs[1..], f); }
  }

  lemma JumpDeleted(k: State, h: Own)
    requires HookKey(h) in k.chains && Jump(Hsh(h)) in k.chains[HookKey(h)]
    ensures var k' := Exec(k, Delete(HookKey(h), Jump(Hsh(h)))).value;
      Unhooked(k', h) == Unhooked(k, h) && HookKey(h) in k'.chains
        && |k'.chains[HookKey(h)]| == |k.chains[HookKey(h)]| - 1
  {
    RemoveFirstOfAll(k.chains[HookKey(h)], Jump(Hsh(h)));
  }

  lemma NoJumpLeft(k: State, h: Own)
    requires HookKey(h) in k.chains ==> Jump(Hsh(h)) !in k.chains[HookKey(h)]
    ensures Unhooked(k, h) == k
  {
    if HookKey(h) in k.chains { RemoveAllAbsent(k.chains[HookKey(h)], Jump(Hsh(h))); }
  }

  /** The loop of deleteChain: delete the jump until it is not found any more. */
  method Unhook(host: Kernel.Host, h: Own)
    modifies host
    ensures host.faults == old(host.faults)
    ensures host.k == Unhooked(old(host.k), h)
  {
    var key, jump := HookKey(h), Jump(Hsh(h));
    var present := host.Run(Probe(key, jump), false);
    while present
      invariant Unhooked(host.k, h) == Unhooked(old(host.k), h) && host.faults == old(host.faults)
      invariant present <==> key in host.k.chains && jump in host.k.chains[key]
      decreases if key in host.k.chains then |host.k.chains[key]| else 0
    {
      JumpDeleted(host.k, h);
      var ok := host.Run(Delete(key, jump), false);
      present := host.Run(Probe(key, jump), false);
    }
    NoJumpLeft(host.k, h);
  }

  /** deleteChain: every jump, then the chain. */
  method DeleteChain(host: Kernel.Host, h: Own)
    modifies host
    ensures host.faults == old(host.faults)
    ensures host.k == ChainDeleted(old(host.k), h)
  {
    Unhook(host, h);
    var flushed := host.Run(ChainFlush(OwnKey(h)), false);
    var deleted := host.Run(ChainDelete(OwnKey(h)), false);
  }

  // ---------------------------------------------------------------------------
  // Cleanup

  /** The own chains in the order cleanupRouting deletes them. */
  const OWN_CHAINS: seq<Own> := [MPre, NPre, NPost, Fwd, MFwd, In, Out, MOut]

  function ChainsDeleted(k: State, hs: seq<Own>): State
  {
    if hs == [] then k else ChainDeleted(ChainsDeleted(k, hs[..|hs| - 1]), hs[|hs| - 1])
  }

  /** An own rule and the table it points to. */
  function PolicyDropped(k: State, r: Rule): State
  {
    Outcome(Outcome(k, RuleDel(r)), RouteFlush(r.table))
  }

  function RouteDropped(k: State, c: Config): State
  {
    if c.role.Kharej? && c.iran != "" then Outcome(k, RouteDel(MAIN, Host(c.iran), c.tun)) else k
  }

  function RoutingCleaned(k: State, c: Config): State
  {
    RouteDropped(PolicyDropped(PolicyDropped(ChainsDeleted(k, OWN_CHAINS), RULE66), RULE77), c)
  }

  function SmartReturnCleaned(k: State): State
  {
    PolicyDropped(k, RULE68)
  }

  method CleanupRouting(host: Kernel.Host, c: Config)
    modifies host
    ensures host.faults == old(host.faults)
    ensures host.k == RoutingCleaned(old(host.k), c)
  {
    var i := 0;
    while i < |OWN_CHAINS|
      invariant 0 <= i <= |OWN_CHAINS|
      invariant host.k == ChainsDeleted(old(host.k), OWN_CHAINS[..i]) && host.faults == old(host.faults)
    {
      DeleteChain(host, OWN_CHAINS[i]);
      i := i + 1;
      assert OWN_CHAINS[..i][..i - 1] == OWN_CHAINS[..i - 1];
    }
    assert OWN_CHAINS[..i] == OWN_CHAINS;
    var ok := host.Run(RuleDel(RULE66), false);
    ok := host.Run(RouteFlush(DATA), false);
    ok := host.Run(RuleDel(RULE77), false);
    ok := host.Run(RouteFlush(TRANSPORT), false);
    if c.role.Kharej? && c.iran != "" {
      ok := host.Run(RouteDel(MAIN, Host(c.iran), c.tun), false);
    }
  }

  /** cleanupSmartReturnPolicy at the end of a run, where its commands succeed. */
  method CleanupSmartReturn(host: Kernel.Host)
    modifies host
    ensures host.faults == old(host.faults)
    ensures host.k == SmartReturnCleaned(old(host.k))
  {
    var ok := host.Run(RuleDel(RULE68), false);
    ok := host.Run(RouteFlush(RETURN), false);
  }
}
