/** How a packet passes the firewall: rules in order, jumps followed, the first accepting,
    dropping or rewriting verdict final. */
module Packets {
  import opened Messages
  import opened Kernel
  import opened Footprint

  datatype Packet = Packet(
    iif: Dev, oif: Dev, src: Ip, dst: Ip, proto: Proto, sport: nat, dport: nat, ct: CtState, syn: bool, mark: nat)

  predicate Meets(p: Packet, m: Match)
  {
    && (m.iif == "" || m.iif == p.iif) && (m.oif == "" || m.oif == p.oif)
    && (m.src == "" || m.src == p.src) && (m.dst == "" || m.dst == p.dst)
    && (m.proto.None? || m.proto.value == p.proto)
    && (m.sport.None? || m.sport.value == p.sport) && (m.dport.None? || m.dport.value == p.dport)
    && (m.ct == {} || p.ct in m.ct) && (m.mark.None? || m.mark.value == p.mark) && (m.syn ==> p.syn)
  }

  datatype Verdict = Next(p: Packet) | Final(p: Packet) | Lost

  function Obey(t: Target, p: Packet): Verdict
  {
    match t
    case Accept => Final(p)
    case Drop => Lost
    case MarkAs(m) => Next(p.(mark := m))
    case Dnat(to, port) => Final(p.(dst := to, dport := port))
    case Snat(source) => Final(p.(src := source))
    case ClampMss(_) => Next(p)
  }

  type Chains = map<ChainKey, seq<FwRule>>

  /** One rule of a chain in table `tab`; jumps nest at most `depth` deep. */
  function ByRule(chains: Chains, tab: Tab, f: FwRule, p: Packet, depth: nat): Verdict
    decreases depth, 0
  {
    match f
    case Jump(c) => if depth > 0 && !c.Builtin?
      && (tab, c) in chains then Traverse(chains, tab, chains[(tab, c)], p, depth - 1) else Next(p)
    case Do(when, target) => if Meets(p, when) then Obey(target, p) else Next(p)
    case Other(_) => Next(p)
  }

  /** The rules `fs` of a chain, in order. */
  function Traverse(chains: Chains, tab: Tab, fs: seq<FwRule>, p: Packet, depth: nat): Verdict
    decreases depth, |fs|
  {
    if fs == [] then Next(p) else
      var v := ByRule(chains, tab, fs[0], p, depth);
      if v.Next? then Traverse(chains, tab, fs[1..], v.p, depth) else v
  }

  /** The packet behind a hook of the kernel, if it is not dropped there. */
  function Through(k: State, tab: Tab, hook: Hook, p: Packet, depth: nat): Option<Packet>
  {
    if (tab, Builtin(hook)) !in k.chains then Some(p) else
      var v := Traverse(k.chains, tab, k.chains[(tab, Builtin(hook))], p, depth);
      if v.Lost? then None else Some(v.p)
  }

  /** What `fs` leave of a packet, handed on to `gs`. */
  function Then(v: Verdict, chains: Chains, tab: Tab, gs: seq<FwRule>, depth: nat): Verdict
  {
    if v.Next? then Traverse(chains, tab, gs, v.p, depth) else v
  }

  lemma {:induction false} TraverseBoth(chains: Chains, tab: Tab, fs: seq<FwRule>, gs: seq<FwRule>, p: Packet,
      depth: nat)
    ensures Traverse(chains, tab, fs + gs, p, depth)
      == Then(Traverse(chains, tab, fs, p, depth), chains, tab, gs, depth)
    decreases |fs|
  {
    if fs == [] {
      assert fs + gs == gs;
    } else {
      assert (fs + gs)[1..] == fs[1..] + gs && (fs + gs)[0] == fs[0];
      var v := ByRule(chains, tab, fs[0], p, depth);
      if v.Next? { TraverseBoth(chains, tab, fs[1..], gs, v.p, depth); }
    }
  }

  lemma TraverseOne(chains: Chains, tab: Tab, when: Match, target: Target, p: Packet, depth: nat)
    ensures Traverse(chains, tab, [Do(when, target)], p, depth) == if Meets(p, when) then Obey(target, p) else Next(p)
  {
    assert [Do(when, target)][1..] == [];
  }

  /** A hook that begins with the jump to an own chain: the chain, then the rest. */
  lemma JumpFirst(chains: Chains, h: Own, rest: seq<FwRule>, p: Packet, depth: nat)
    requires depth >= 1 && OwnKey(h) in chains
    ensures Traverse(chains, TabOf(h), [Jump(Hsh(h))] + rest, p, depth)
      == Then(Traverse(chains, TabOf(h), chains[OwnKey(h)], p, depth - 1), chains, TabOf(h), rest, depth)
  {
    var fs := [Jump(Hsh(h))] + rest;
    assert fs[0] == Jump(Hsh(h)) && fs[1..] == rest;
  }

  // ---------------------------------------------------------------------------
  // The operator's rules see the program's kernel as they see their own

  lemma UserChainKept(base: Chains, chains: Chains, key: ChainKey)
    requires ChainsOver(base, chains) && key.1.User?
    ensures key in chains <==> key in base
    ensures key in base ==> chains[key] == base[key]
  {
    if key in base {
      forall fw | fw in chains[key] ensures !OwnJump(fw) {
        assert OwnJump(fw) ==> key == HookKey(fw.chain.own);
      }
      WithoutNoJumps(chains[key]);
    }
  }

  lemma {:induction false} TraverseKept(base: Chains, chains: Chains, tab: Tab, fs: seq<FwRule>, p: Packet, depth: nat)
    requires ChainsOver(base, chains) && (forall f :: f in fs ==> !OwnJump(f))
    requires forall key, f :: key in base && f in base[key] ==> !OwnJump(f)
    ensures Traverse(chains, tab, fs, p, depth) == Traverse(base, tab, fs, p, depth)
    decreases depth, |fs|
  {
    if fs != [] {
      var f := fs[0];
      if f.Jump? && f.chain.User? {
        var key := (tab, f.chain);
        UserChainKept(base, chains, key);
        if depth > 0 && key in base { TraverseKept(base, chains, tab, base[key], p, depth - 1); }
      }
      assert f in fs && !OwnJump(f);
      var v := ByRule(base, tab, f, p, depth);
      assert ByRule(chains, tab, f, p, depth) == v;
      if v.Next? { TraverseKept(base, chains, tab, fs[1..], v.p, depth); }
    }
  }

  // ---------------------------------------------------------------------------
  // Rules that neither set nor look at marks

  predicate Indifferent(f: FwRule)
  {
    f.Do? ==> f.when.mark.None? && (f.target.Accept? || f.target.Drop? || f.target.ClampMss?)
  }

  /** The rules of the hook, and the operator's chains of its table, leave marks alone. */
  ghost predicate HookIndifferent(chains: Chains, tab: Tab, hook: Hook)
  {
    forall key, f ::
      key in chains && key.0 == tab && (key.1 == Builtin(hook) || !key.1.Builtin?) && f in chains[key] ==>
        Indifferent(f)
  }

  ghost predicate UsersIndifferent(chains: Chains, tab: Tab)
  {
    forall key, f :: key in chains && key.0 == tab && !key.1.Builtin? && f in chains[key] ==> Indifferent(f)
  }

  /** The same verdict `w` on the packet with another mark. */
  predicate SameVerdict(v: Verdict, w: Verdict, p: Packet, m: nat)
  {
    match v
    case Lost => w.Lost?
    case Next(q) => q == p && w == Next(p.(mark := m))
    case Final(q) => q == p && w == Final(p.(mark := m))
  }

  lemma {:induction false} MarkNotSeen(chains: Chains, tab: Tab, fs: seq<FwRule>, p: Packet, m: nat, depth: nat)
    requires UsersIndifferent(chains, tab) && forall f :: f in fs ==> Indifferent(f)
    ensures SameVerdict(Traverse(chains, tab, fs, p, depth), Traverse(chains, tab, fs, p.(mark := m), depth), p, m)
    decreases depth, |fs|
  {
    if fs != [] {
      var f := fs[0];
      assert f in fs && Indifferent(f);
      if f.Jump? && depth > 0 && !f.chain.Builtin? && (tab, f.chain) in chains {
        MarkNotSeen(chains, tab, chains[(tab, f.chain)], p, m, depth - 1);
      }
      assert f.Do? ==> (Meets(p, f.when) <==> Meets(p.(mark := m), f.when));
      assert SameVerdict(ByRule(chains, tab, f, p, depth), ByRule(chains, tab, f, p.(mark := m), depth), p, m);
      MarkNotSeen(chains, tab, fs[1..], p, m, depth);
    }
  }

  // ---------------------------------------------------------------------------
  // Rules that do not set marks

  predicate Unmarking(f: FwRule)
  {
    f.Do? ==> !f.target.MarkAs?
  }

  ghost predicate HookUnmarking(chains: Chains, tab: Tab, hook: Hook)
  {
    forall key, f ::
      key in chains && key.0 == tab && (key.1 == Builtin(hook) || !key.1.Builtin?) && f in chains[key] ==> Unmarking(f)
  }

  lemma {:induction false} MarkStays(chains: Chains, tab: Tab, fs: seq<FwRule>, p: Packet, depth: nat)
    requires forall key, f :: key in chains && key.0 == tab && !key.1.Builtin? && f in chains[key] ==> Unmarking(f)
    requires forall f :: f in fs ==> Unmarking(f)
    ensures var v := Traverse(chains, tab, fs, p, depth); v.Lost? || v.p.mark == p.mark
    decreases depth, |fs|
  {
    if fs != [] {
      var f := fs[0];
      assert f in fs && Unmarking(f);
      if f.Jump? && depth > 0 && !f.chain.Builtin? && (tab, f.chain) in chains {
        MarkStays(chains, tab, chains[(tab, f.chain)], p, depth - 1);
      }
      var v := ByRule(chains, tab, f, p, depth);
      if v.Next? { MarkStays(chains, tab, fs[1..], v.p, depth); }
    }
  }
}
