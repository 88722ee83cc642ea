/** What the program adds to a kernel, told apart from what was there. Every command of
    the setup programs stays inside this footprint, so cleanup can take it away whole. */
module Footprint {
  import opened Messages
  import opened Kernel

  const MAIN: nat := 254
  const DATA: nat := 166
  const TRANSPORT: nat := 167
  const RETURN: nat := 168

  const DATA_MARK: nat := 0x66
  const RETURN_MARK: nat := 0x68
  const CARRIER_MARK: nat := 0x77

  const RULE66 := Rule(66, Some(DATA_MARK), DATA)
  const RULE77 := Rule(77, Some(CARRIER_MARK), TRANSPORT)
  const RULE68 := Rule(68, Some(RETURN_MARK), RETURN)

  predicate OwnRule(r: Rule)
  {
    r == RULE66 || r == RULE77 || r == RULE68
  }

  predicate OwnTable(t: nat)
  {
    t == DATA || t == TRANSPORT || t == RETURN
  }

  predicate OwnJump(fw: FwRule)
  {
    fw.Jump? && fw.chain.Hsh?
  }

  function WithoutOwnRules(rs: seq<Rule>): seq<Rule>
  {
    if rs == [] then [] else (if OwnRule(rs[0]) then [] else [rs[0]]) + WithoutOwnRules(rs[1..])
  }

  function WithoutOwnJumps(fs: seq<FwRule>): seq<FwRule>
  {
    if fs == [] then [] else (if OwnJump(fs[0]) then [] else [fs[0]]) + WithoutOwnJumps(fs[1..])
  }

  /** What a program may touch: `main` may hold its route on Kharej, which adds it only
      where `adds`; the return policy is touched only where `ret`. */
  datatype Scope = Scope(kharej: bool, adds: bool, ret: bool, route: Route)

  /** A kernel without any object of the program. */
  ghost predicate Clean(k: State)
  {
    && (forall r :: r in k.rules ==> !OwnRule(r))
    && (forall t :: t in k.tables ==> k.tables[t] != [] && !OwnTable(t))
    && (forall h :: HookKey(h) in k.chains)
    && (forall key :: key in k.chains ==> !key.1.Hsh?)
    && (forall key, fw :: key in k.chains && fw in k.chains[key] ==> !OwnJump(fw))
  }

  ghost predicate RulesOver(base: seq<Rule>, rs: seq<Rule>)
  {
    WithoutOwnRules(rs) == base && forall r :: OwnRule(r) ==> multiset(rs)[r] <= 1
  }

  /** Tables of before are as they were; `main` may hold the route to Iran. */
  ghost predicate TablesOver(base: map<nat, seq<Route>>, tables: map<nat, seq<Route>>, sc: Scope)
  {
    && (forall t :: t in tables ==> tables[t] != [])
    && (forall t: nat :: !OwnTable(t) && t != MAIN ==> RoutesOf(tables, t) == RoutesOf(base, t))
    && (RoutesOf(tables, MAIN) == RoutesOf(base, MAIN)
      || (sc.kharej && RoutesOf(tables, MAIN) == SetRoute(RoutesOf(base, MAIN), sc.route)))
  }

  /** Chains of before are as they were but for jumps into own chains, each from its hook. */
  ghost predicate ChainsOver(base: map<ChainKey, seq<FwRule>>, chains: map<ChainKey, seq<FwRule>>)
  {
    && (forall key :: key in base <==> key in chains && !key.1.Hsh?)
    && (forall key :: key in base ==> WithoutOwnJumps(chains[key]) == base[key])
    && (forall key :: key in chains && key.1.Hsh? ==> key == OwnKey(key.1.own))
    && (forall key, fw :: key in chains && fw in chains[key] && OwnJump(fw) ==> key == HookKey(fw.chain.own))
  }

  ghost predicate Over(base: State, k: State, sc: Scope)
  {
    RulesOver(base.rules, k.rules) && TablesOver(base.tables, k.tables, sc) && ChainsOver(base.chains, k.chains)
  }

  /** The commands that the setup programs use. */
  predicate Ours(cmd: Command, sc: Scope)
  {
    match cmd
    case RuleAdd(r) => OwnRule(r) && (r == RULE68 ==> sc.ret)
    case RuleDel(r) => OwnRule(r) && (r == RULE68 ==> sc.ret)
    case RouteAdd(t, r) => OwnTable(t) && (t == RETURN ==> sc.ret)
    case RouteReplace(t, r) => (OwnTable(t) && (t == RETURN ==> sc.ret)) || (t == MAIN && sc.adds && r == sc.route)
    case RouteDel(_, _, _) => false
    case RouteFlush(t) => OwnTable(t) && (t == RETURN ==> sc.ret)
    case ChainNew(key) => key.1.Hsh? && key == OwnKey(key.1.own)
    case ChainFlush(key) => key.1.Hsh?
    case ChainDelete(key) => key.1.Hsh?
    case Insert(key, fw) => if OwnJump(fw) then key == HookKey(fw.chain.own) else key.1.Hsh?
    case Append(key, fw) => key.1.Hsh? && !OwnJump(fw)
    case Delete(key, fw) => OwnJump(fw) && key == HookKey(fw.chain.own)
    case Probe(key, fw) => true
  }

  // ---------------------------------------------------------------------------

  lemma {:induction false} WithoutNone(rs: seq<Rule>)
    requires forall r :: r in rs ==> !OwnRule(r)
    ensures WithoutOwnRules(rs) == rs
  {
    if rs != [] { WithoutNone(rs[1..]); }
  }

  lemma {:induction false} WithoutNoJumps(fs: seq<FwRule>)
    requires forall f :: f in fs ==> !OwnJump(f)
    ensures WithoutOwnJumps(fs) == fs
  {
    if fs != [] { WithoutNoJumps(fs[1..]); }
  }

  lemma {:induction false} InsertOwn(rs: seq<Rule>, r: Rule)
    ensures multiset(InsertRule(rs, r)) == multiset(rs) + multiset{r}
    ensures OwnRule(r) ==> WithoutOwnRules(InsertRule(rs, r)) == WithoutOwnRules(rs)
  {
    if rs == [] || rs[0].priority > r.priority {
      assert ([r] + rs)[1..] == rs;
    } else {
      InsertOwn(rs[1..], r);
      var ys := InsertRule(rs[1..], r);
      assert rs == [rs[0]] + rs[1..];
      assert ([rs[0]] + ys)[1..] == ys;
    }
  }

  lemma {:induction false} RemovedOnce<T>(xs: seq<T>, x: T)
    requires x in xs
    ensures multiset(RemoveFirst(xs, x)) == multiset(xs) - multiset{x}
  {
    assert xs == [xs[0]] + xs[1..];
    if xs[0] != x { RemovedOnce(xs[1..], x); }
  }

  lemma {:induction false} RemoveRule(rs: seq<Rule>, r: Rule)
    requires r in rs && OwnRule(r)
    ensures WithoutOwnRules(RemoveFirst(rs, r)) == WithoutOwnRules(rs)
  {
    if rs[0] != r {
      RemoveRule(rs[1..], r);
      var ys := RemoveFirst(rs[1..], r);
      assert ([rs[0]] + ys)[1..] == ys;
    }
  }

  lemma {:induction false} RemoveJump(fs: seq<FwRule>, f: FwRule)
    requires f in fs && OwnJump(f)
    ensures WithoutOwnJumps(RemoveFirst(fs, f)) == WithoutOwnJumps(fs)
  {
    if fs[0] != f {
      RemoveJump(fs[1..], f);
      var ys := RemoveFirst(fs[1..], f);
      assert ([fs[0]] + ys)[1..] == ys;
    }
  }

  lemma {:induction false} RemovedMembers<T>(xs: seq<T>, x: T)
    ensures forall y :: y in RemoveFirst(xs, x) ==> y in xs
  {
    if xs != [] && xs[0] != x { RemovedMembers(xs[1..], x); }
  }

  /** `ip route replace` of a destination that is not there adds it at the end. */
  lemma {:induction false} SetRouteFresh(rs: seq<Route>, r: Route)
    requires !HasDest(rs, r.dst)
    ensures SetRoute(rs, r) == rs + [r]
  {
    if rs != [] { assert rs[|rs| - 1].dst != r.dst; }
  }

  lemma HasDestSnoc(rs: seq<Route>, x: Route, d: Dest)
    ensures HasDest(rs + [x], d) <==> HasDest(rs, d) || x.dst == d
  {
    if HasDest(rs, d) {
      var i :| 0 <= i < |rs| && rs[i].dst == d;
      assert (rs + [x])[i].dst == d;
    }
    if x.dst == d { assert (rs + [x])[|rs|].dst == d; }
  }

  lemma HasViaSnoc(rs: seq<Route>, x: Route, d: Dest, dev: Dev)
    ensures HasVia(rs + [x], d, dev) <==> HasVia(rs, d, dev) || (x.dst == d && x.dev == dev)
  {
    if HasVia(rs, d, dev) {
      var i :| 0 <= i < |rs| && rs[i].dst == d && rs[i].dev == dev;
      assert (rs + [x])[i].dst == d;
    }
    if x.dst == d && x.dev == dev { assert (rs + [x])[|rs|].dst == d; }
  }

  /** A route replaced is there, and replacing it again changes nothing. */
  lemma {:induction false} SetRouteAgain(rs: seq<Route>, r: Route)
    ensures HasVia(SetRoute(rs, r), r.dst, r.dev) && HasDest(SetRoute(rs, r), r.dst)
    ensures SetRoute(SetRoute(rs, r), r) == SetRoute(rs, r)
    ensures |SetRoute(rs, r)| == |rs| + if HasDest(rs, r.dst) then 0 else 1
  {
    if rs == [] {
      assert [r][0].dst == r.dst && [r][..0] == [];
    } else {
      var front, last := rs[..|rs| - 1], rs[|rs| - 1];
      assert rs == front + [last];
      HasDestSnoc(front, last, r.dst);
      if HasDest(front, r.dst) {
        SetRouteAgain(front, r);
        HasDestSnoc(SetRoute(front, r), last, r.dst);
        HasViaSnoc(SetRoute(front, r), last, r.dst, r.dev);
        assert (SetRoute(front, r) + [last])[..|SetRoute(front, r)|] == SetRoute(front, r);
      } else {
        var xs := if last.dst == r.dst then front else rs;
        assert (xs + [r])[..|xs|] == xs;
        HasDestSnoc(xs, r, r.dst);
        HasViaSnoc(xs, r, r.dst, r.dev);
      }
    }
  }

  lemma {:induction false} RemovedVia(rs: seq<Route>, d: Dest, dev: Dev)
    ensures |RemoveVia(rs, d, dev)| == |rs| - if HasVia(rs, d, dev) then 1 else 0
    ensures !HasVia(rs, d, dev) ==> RemoveVia(rs, d, dev) == rs
  {
    if rs != [] {
      var front, last := rs[..|rs| - 1], rs[|rs| - 1];
      assert rs == front + [last];
      HasViaSnoc(front, last, d, dev);
      RemovedVia(front, d, dev);
    }
  }

  /** `ip route del` undoes `ip route replace` exactly when there was no route to that
      destination before. */
  lemma ReplaceUndoneIff(rs: seq<Route>, r: Route)
    ensures RemoveVia(SetRoute(rs, r), r.dst, r.dev) == rs <==> !HasDest(rs, r.dst)
  {
    SetRouteAgain(rs, r);
    RemovedVia(SetRoute(rs, r), r.dst, r.dev);
    if !HasDest(rs, r.dst) {
      SetRouteFresh(rs, r);
      assert !HasVia(rs, r.dst, r.dev);
      assert (rs + [r])[..|rs|] == rs;
    }
  }

  lemma RulesStay(base: State, k: State, cmd: Command, sc: Scope)
    requires RulesOver(base.rules, k.rules) && Ours(cmd, sc) && Exec(k, cmd).Some?
    ensures RulesOver(base.rules, Exec(k, cmd).value.rules)
  {
    if cmd.RuleAdd? {
      InsertOwn(k.rules, cmd.rule);
    } else if cmd.RuleDel? {
      RemoveRule(k.rules, cmd.rule);
      RemovedOnce(k.rules, cmd.rule);
    }
  }

  lemma TableSet(base: State, k: State, t: nat, rs: seq<Route>, sc: Scope)
    requires TablesOver(base.tables, k.tables, sc)
    requires OwnTable(t) || (t == MAIN
      && (rs == base.Table(MAIN) || (sc.kharej && rs == SetRoute(base.Table(MAIN), sc.route))))
    ensures TablesOver(base.tables, k.WithTable(t, rs).tables, sc)
  {
    var k' := k.WithTable(t, rs);
    assert forall u: nat :: u != t ==> k'.Table(u) == k.Table(u);
    assert k'.Table(t) == rs;
  }

  lemma TablesStay(base: State, k: State, cmd: Command, sc: Scope)
    requires TablesOver(base.tables, k.tables, sc) && Ours(cmd, sc) && Exec(k, cmd).Some? && (sc.adds ==> sc.kharej)
    ensures TablesOver(base.tables, Exec(k, cmd).value.tables, sc)
  {
    match cmd {
      case RouteAdd(t, r) => TableSet(base, k, t, k.Table(t) + [r], sc);
      case RouteFlush(t) => TableSet(base, k, t, [], sc);
      case RouteReplace(t, r) =>
        SetRouteAgain(base.Table(MAIN), sc.route);
        TableSet(base, k, t, SetRoute(k.Table(t), r), sc);
      case _ =>
    }
  }

  lemma ChainsStay(base: State, k: State, cmd: Command, sc: Scope)
    requires ChainsOver(base.chains, k.chains) && Ours(cmd, sc) && Exec(k, cmd).Some?
    ensures ChainsOver(base.chains, Exec(k, cmd).value.chains)
  {
    match cmd {
      case Insert(key, fw) =>
        assert ([fw] + k.chains[key])[1..] == k.chains[key];
      case Delete(key, fw) =>
        RemoveJump(k.chains[key], fw);
        RemovedMembers(k.chains[key], fw);
      case _ =>
    }
  }

  /** No command of the setup programs leaves the footprint. */
  lemma OursStay(base: State, k: State, cmd: Command, sc: Scope)
    requires Over(base, k, sc) && Ours(cmd, sc) && Exec(k, cmd).Some? && (sc.adds ==> sc.kharej)
    ensures Over(base, Exec(k, cmd).value, sc)
  {
    RulesStay(base, k, cmd, sc);
    TablesStay(base, k, cmd, sc);
    ChainsStay(base, k, cmd, sc);
  }

  // ---------------------------------------------------------------------------
  // Taking the footprint away

  /** Own chain `h` and every jump into it are gone. */
  predicate Gone(chains: map<ChainKey, seq<FwRule>>, h: Own)
  {
    OwnKey(h) !in chains && (HookKey(h) in chains ==> Jump(Hsh(h)) !in chains[HookKey(h)])
  }

  ghost predicate AllGone(chains: map<ChainKey, seq<FwRule>>)
  {
    forall h :: Gone(chains, h)
  }

  lemma ChainsRestored(base: State, k: State)
    requires ChainsOver(base.chains, k.chains) && AllGone(k.chains)
    ensures k.chains == base.chains
  {
    forall key | key in k.chains ensures key in base.chains && k.chains[key] == base.chains[key] {
      assert key.1.Hsh? ==> Gone(k.chains, key.1.own);
      forall fw | fw in k.chains[key] ensures !OwnJump(fw) {
        assert OwnJump(fw) ==> Gone(k.chains, fw.chain.own);
      }
      WithoutNoJumps(k.chains[key]);
    }
  }

  lemma CleanIsOver(base: State, sc: Scope)
    requires Clean(base)
    ensures Over(base, base, sc)
  {
    WithoutNone(base.rules);
    forall r | OwnRule(r) ensures multiset(base.rules)[r] == 0 {
      assert r !in base.rules;
    }
    forall key | key in base.chains ensures WithoutOwnJumps(base.chains[key]) == base.chains[key] {
      WithoutNoJumps(base.chains[key]);
    }
  }
}
