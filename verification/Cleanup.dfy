/** What cleanup yields, from any kernel over a clean base. */
module Cleanup {
  import opened Messages
  import opened Kernel
  import opened Footprint
  import opened Routing

  lemma {:induction false} RemoveAllJumps(fs: seq<FwRule>, f: FwRule)
    ensures OwnJump(f) ==> WithoutOwnJumps(RemoveAll(fs, f)) == WithoutOwnJumps(fs)
    ensures forall x :: x in RemoveAll(fs, f) <==> x in fs && x != f
  {
    if fs != [] {
      RemoveAllJumps(fs[1..], f);
      var ys := RemoveAll(fs[1..], f);
      assert fs == [fs[0]] + fs[1..];
      assert ([fs[0]] + ys)[1..] == ys;
      assert [] + ys == ys;
    }
  }

  lemma UnhookedOver(base: map<ChainKey, seq<FwRule>>, k: State, h: Own)
    requires ChainsOver(base, k.chains)
    ensures ChainsOver(base, Unhooked(k, h).chains)
    ensures forall key :: key in Unhooked(k, h).chains ==> Jump(Hsh(h)) !in Unhooked(k, h).chains[key]
    ensures forall g :: Gone(k.chains, g) ==> Gone(Unhooked(k, h).chains, g)
  {
    if HookKey(h) in k.chains {
      RemoveAllJumps(k.chains[HookKey(h)], Jump(Hsh(h)));
    }
  }

  /** Once no jump leads to it, flushing and deleting the chain succeed. */
  lemma DeletedAfterUnhook(k: State, h: Own)
    requires forall key :: key in k.chains ==> Jump(Hsh(h)) !in k.chains[key]
    ensures var k' := Outcome(Outcome(k, ChainFlush(OwnKey(h))), ChainDelete(OwnKey(h)));
      k' == k.(chains := k.chains - {OwnKey(h)})
  {
    var k1 := Outcome(k, ChainFlush(OwnKey(h)));
    assert forall key :: key in k1.chains ==> Jump(Hsh(h)) !in k1.chains[key];
    assert !Referenced(k1.chains, TabOf(h), Hsh(h));
  }

  lemma ChainDeletedGone(base: map<ChainKey, seq<FwRule>>, k: State, h: Own)
    requires ChainsOver(base, k.chains)
    ensures var k' := ChainDeleted(k, h);
      && ChainsOver(base, k'.chains) && k'.rules == k.rules && k'.tables == k.tables
      && Gone(k'.chains, h) && forall g :: Gone(k.chains, g) ==> Gone(k'.chains, g)
  {
    UnhookedOver(base, k, h);
    DeletedAfterUnhook(Unhooked(k, h), h);
  }

  lemma {:induction false} ChainsDeletedGone(base: map<ChainKey, seq<FwRule>>, k: State, hs: seq<Own>)
    requires ChainsOver(base, k.chains)
    ensures var k' := ChainsDeleted(k, hs);
      && ChainsOver(base, k'.chains) && k'.rules == k.rules && k'.tables == k.tables
      && forall h :: h in hs ==> Gone(k'.chains, h)
  {
    if hs != [] {
      var front := hs[..|hs| - 1];
      ChainsDeletedGone(base, k, front);
      ChainDeletedGone(base, ChainsDeleted(k, front), hs[|hs| - 1]);
    }
  }

  lemma RuleGone(base: seq<Rule>, k: State, r: Rule)
    requires RulesOver(base, k.rules) && OwnRule(r)
    ensures var k' := Outcome(k, RuleDel(r));
      && RulesOver(base, k'.rules) && r !in k'.rules && (forall x :: x in k'.rules ==> x in k.rules)
      && k'.tables == k.tables && k'.chains == k.chains
  {
    if r in k.rules {
      RemoveRule(k.rules, r);
      RemovedOnce(k.rules, r);
      RemovedMembers(k.rules, r);
      var rs := RemoveFirst(k.rules, r);
      assert multiset(rs)[r] == 0;
      assert r !in rs by { assert r in rs <==> r in multiset(rs); }
    }
  }

  lemma TableGone(base: State, k: State, t: nat, sc: Scope)
    requires TablesOver(base.tables, k.tables, sc) && OwnTable(t)
    ensures var k' := Outcome(k, RouteFlush(t));
      && TablesOver(base.tables, k'.tables, sc) && k'.Table(t) == []
        && (forall u: nat :: u != t ==> k'.Table(u) == k.Table(u))
      && k'.rules == k.rules && k'.chains == k.chains
  {
    TableSet(base, k, t, [], sc);
  }

  /** The main table after cleanup. */
  function MainCleaned(rs: seq<Route>, c: Config): seq<Route>
  {
    if c.role.Kharej? && c.iran != "" then RemoveVia(rs, Host(c.iran), c.tun) else rs
  }

  lemma RouteGone(k: State, c: Config)
    requires forall t :: t in k.tables ==> k.tables[t] != []
    ensures var k' := RouteDropped(k, c);
      && k'.Table(MAIN) == MainCleaned(k.Table(MAIN), c) && (forall u: nat :: u != MAIN ==> k'.Table(u) == k.Table(u))
      && (forall t :: t in k'.tables ==> k'.tables[t] != [])
      && k'.rules == k.rules && k'.chains == k.chains
  {
    RemovedVia(k.Table(MAIN), Host(c.iran), c.tun);
  }

  /** Rules and tables over the base, with these own rules and their tables gone. */
  ghost predicate PolicyOver(base: State, k: State, sc: Scope, main: seq<Route>, gone: set<Rule>)
  {
    && RulesOver(base.rules, k.rules) && TablesOver(base.tables, k.tables, sc) && k.Table(MAIN) == main
    && (forall r :: r in gone ==> r !in k.rules && k.Table(r.table) == [])
  }

  lemma PolicyGone(base: State, k: State, r: Rule, sc: Scope, main: seq<Route>, gone: set<Rule>)
    requires PolicyOver(base, k, sc, main, gone) && OwnRule(r)
    ensures PolicyOver(base, PolicyDropped(k, r), sc, main, gone + {r}) && PolicyDropped(k, r).chains == k.chains
  {
    var k1 := Outcome(k, RuleDel(r));
    RuleGone(base.rules, k, r);
    TableGone(base, k1, r.table, sc);
  }

  lemma SamePolicy(base: State, k: State, k': State, sc: Scope, main: seq<Route>, gone: set<Rule>)
    requires PolicyOver(base, k, sc, main, gone) && k'.rules == k.rules && k'.tables == k.tables
    ensures PolicyOver(base, k', sc, main, gone)
  {
  }

  lemma EveryOwn(h: Own)
    ensures h in OWN_CHAINS
  {
    var i := match h
      case MPre => 0 case NPre => 1 case NPost => 2 case Fwd => 3
      case MFwd => 4 case In => 5 case Out => 6 case MOut => 7;
    assert OWN_CHAINS[i] == h;
  }

  lemma ChainsCleaned(base: State, k: State, sc: Scope, main: seq<Route>, gone: set<Rule>)
    requires ChainsOver(base.chains, k.chains) && PolicyOver(base, k, sc, main, gone)
    ensures var k' := ChainsDeleted(k, OWN_CHAINS);
      ChainsOver(base.chains, k'.chains) && AllGone(k'.chains) && PolicyOver(base, k', sc, main, gone)
  {
    ChainsDeletedGone(base.chains, k, OWN_CHAINS);
    var k' := ChainsDeleted(k, OWN_CHAINS);
    SamePolicy(base, k, k', sc, main, gone);
    forall h ensures Gone(k'.chains, h) { EveryOwn(h); }
  }

  /** What is left of a base when the program and its cleanup are through with `main`. */
  function Swept(base: State, main: seq<Route>, c: Config): State
  {
    base.WithTable(MAIN, MainCleaned(main, c))
  }

  lemma SweptIsClean(base: State, main: seq<Route>, c: Config)
    requires Clean(base)
    ensures Clean(Swept(base, main, c)) && Swept(base, main, c).Table(MAIN) == MainCleaned(main, c)
    ensures Swept(base, main, c) == base <==> MainCleaned(main, c) == base.Table(MAIN)
  {
    if MainCleaned(main, c) == base.Table(MAIN) { assert Swept(base, main, c).tables == base.tables; }
  }

  lemma TablesSwept(base: State, k: State, c: Config)
    requires Clean(base) && TablesOver(base.tables, k.tables, c.Span()) && forall t :: OwnTable(t) ==> k.Table(t) == []
    ensures RouteDropped(k, c).tables == Swept(base, k.Table(MAIN), c).tables
  {
    var k', b := RouteDropped(k, c), Swept(base, k.Table(MAIN), c);
    RouteGone(k, c);
    SweptIsClean(base, k.Table(MAIN), c);
    forall t | t in k'.tables || t in b.tables ensures t in k'.tables && t in b.tables && k'.tables[t] == b.tables[t] {
      assert t != MAIN ==> b.Table(t) == base.Table(t) && k.Table(t) == base.Table(t);
      assert k'.Table(t) == b.Table(t);
    }
  }

  lemma RouteCleaned(base: State, k: State, c: Config, gone: set<Rule>)
    requires Clean(base) && PolicyOver(base, k, c.Span(), k.Table(MAIN), gone) && RULE68 in gone && RULE66 in gone
      && RULE77 in gone
    requires ChainsOver(base.chains, k.chains) && AllGone(k.chains)
    ensures RouteDropped(k, c) == Swept(base, k.Table(MAIN), c)
  {
    assert forall t :: OwnTable(t) ==> k.Table(t) == [];
    TablesSwept(base, k, c);
    RouteGone(k, c);
    WithoutNone(k.rules);
    ChainsRestored(base, k);
  }

  /** Cleanup takes the whole footprint away: from any kernel over a clean base it yields the
      base, but for what happened to the route to Iran in `main`. */
  lemma CleanupYields(base: State, k: State, c: Config)
    requires Clean(base) && Over(base, k, c.Span())
    ensures RoutingCleaned(SmartReturnCleaned(k), c) == Swept(base, k.Table(MAIN), c)
  {
    var sc, main := c.Span(), k.Table(MAIN);
    var k0 := SmartReturnCleaned(k);
    PolicyGone(base, k, RULE68, sc, main, {});
    ChainsCleaned(base, k0, sc, main, {} + {RULE68});
    var k1 := ChainsDeleted(k0, OWN_CHAINS);
    PolicyGone(base, k1, RULE66, sc, main, {} + {RULE68});
    var k2 := PolicyDropped(k1, RULE66);
    PolicyGone(base, k2, RULE77, sc, main, {} + {RULE68} + {RULE66});
    RouteCleaned(base, PolicyDropped(k2, RULE77), c, {} + {RULE68} + {RULE66} + {RULE77});
  }

  /** ... so it restores the base exactly when it restores `main`. */
  lemma CleanupRestoresIff(base: State, k: State, c: Config)
    requires Clean(base) && Over(base, k, c.Span())
    ensures RoutingCleaned(SmartReturnCleaned(k), c) == base <==> MainCleaned(k.Table(MAIN), c) == base.Table(MAIN)
  {
    CleanupYields(base, k, c);
    SweptIsClean(base, k.Table(MAIN), c);
  }

  // ---------------------------------------------------------------------------
  // Which main tables survive a run

  /** The operator's main table holds nothing that the program takes for its own: no route to
      Iran where full mode puts one, none through the tunnel device elsewhere on Kharej. */
  predicate Fits(main: seq<Route>, c: Config)
  {
    c.role.Kharej? && c.iran != "" ==>
      if c.Adds() then !HasDest(main, Host(c.iran)) else !HasVia(main, Host(c.iran), c.tun)
  }

  /** The main table while the program runs on the base table `main`. */
  function MainUp(main: seq<Route>, c: Config): seq<Route>
  {
    if c.Adds() then SetRoute(main, c.Span().route) else main
  }

  /** Cleanup before, setup, cleanup after: `main` comes back exactly when it fits. */
  lemma MainSurvivesIff(main: seq<Route>, c: Config)
    requires c.Valid()
    ensures MainCleaned(MainUp(MainCleaned(main, c), c), c) == main <==> Fits(main, c)
    ensures Fits(main, c) ==> MainCleaned(main, c) == main
  {
    if c.role.Kharej? && c.iran != "" {
      var d, r := Host(c.iran), c.Span().route;
      var once := MainCleaned(main, c);
      RemovedVia(main, d, c.tun);
      RemovedVia(once, d, c.tun);
      SetRouteAgain(once, r);
      RemovedVia(SetRoute(once, r), d, c.tun);
      ReplaceUndoneIff(once, r);
      assert HasVia(main, d, c.tun) ==> HasDest(main, d);
    }
  }
}
