/** The kernel state that routing.go and smart_policy.go program: policy rules, routing
    tables and firewall chains as data, each command as a partial function on it. */
module Kernel {
  import opened Messages

  type Ip = string
  type Dev = string

  datatype Proto = Tcp | Udp

  datatype Dest = Default | Net(len: nat, ips: set<Ip>) | Host(ip: Ip)

  datatype Route = Route(dst: Dest, dev: Dev, via: Ip := "", src: Ip := "", mtu: nat := 0)

  /** An `ip rule`: packets with the mark (or all) look into the table. */
  datatype Rule = Rule(priority: nat, mark: Option<nat>, table: nat)

  datatype Tab = Filter | Nat | Mangle

  datatype Hook = Prerouting | Input | Forward | Output | Postrouting

  /** The program's own chains. */
  datatype Own = MPre | NPre | NPost | Fwd | MFwd | In | Out | MOut

  datatype Chain = Builtin(hook: Hook) | Hsh(own: Own) | User(name: string)

  type ChainKey = (Tab, Chain)

  datatype CtState = New | Established | Related | Invalid

  /** The conditions of a firewall rule; an empty one holds of every packet. */
  datatype Match = Match(
    iif: Dev := "", oif: Dev := "", src: Ip := "", dst: Ip := "", proto: Option<Proto> := None,
    sport: Option<nat> := None, dport: Option<nat> := None, ct: set<CtState> := {}, mark: Option<nat> := None,
      syn: bool := false)

  datatype Target = Accept | Drop | MarkAs(mark: nat) | Dnat(to: Ip, port: nat) | Snat(source: Ip) | ClampMss(mss: int)

  datatype FwRule =
    | Jump(chain: Chain)
    | Do(when: Match, target: Target)
    | Other(text: string)   // an operator's rule without effect on marks, addresses and verdicts

  function RoutesOf(tables: map<nat, seq<Route>>, t: nat): seq<Route>
  {
    if t in tables then tables[t] else []
  }

  datatype State = State(rules: seq<Rule>, tables: map<nat, seq<Route>>, chains: map<ChainKey, seq<FwRule>>)
  {
    function Table(t: nat): seq<Route>
    {
      RoutesOf(tables, t)
    }

    /** An empty table and an absent one are the same thing. */
    function WithTable(t: nat, routes: seq<Route>): State
    {
      this.(tables := if routes == [] then tables - {t} else tables[t := routes])
    }

    function WithChain(key: ChainKey, rules: seq<FwRule>): State
    {
      this.(chains := chains[key := rules])
    }
  }

  function TabOf(h: Own): Tab
  {
    match h
    case MPre => Mangle case NPre => Nat case NPost => Nat case Fwd => Filter
    case MFwd => Mangle case In => Filter case Out => Filter case MOut => Mangle
  }

  function HookOf(h: Own): Hook
  {
    match h
    case MPre => Prerouting case NPre => Prerouting case NPost => Postrouting case Fwd => Forward
    case MFwd => Forward case In => Input case Out => Output case MOut => Output
  }

  function HookKey(h: Own): ChainKey
  {
    (TabOf(h), Builtin(HookOf(h)))
  }

  function OwnKey(h: Own): ChainKey
  {
    (TabOf(h), Hsh(h))
  }

  // ---------------------------------------------------------------------------
  // Sequences of rules

  /** By priority, behind those of equal priority. */
  function InsertRule(rs: seq<Rule>, r: Rule): seq<Rule>
  {
    if rs == [] || rs[0].priority > r.priority then [r] + rs else [rs[0]] + InsertRule(rs[1..], r)
  }

  /** Without the first occurrence. */
  function RemoveFirst<T(==)>(xs: seq<T>, x: T): seq<T>
  {
    if xs == [] then [] else if xs[0] == x then xs[1..] else [xs[0]] + RemoveFirst(xs[1..], x)
  }

  /** With `r` in the place of the first route to its destination, or at the end. */
  function SetRoute(rs: seq<Route>, r: Route): seq<Route>
  {
    if rs == [] then [r] else
      var front, last := rs[..|rs| - 1], rs[|rs| - 1];
      if HasDest(front, r.dst) then SetRoute(front, r) + [last]
      else if last.dst == r.dst then front + [r]
      else rs + [r]
  }

  /** Without the first route to `d` through `dev`. */
  function RemoveVia(rs: seq<Route>, d: Dest, dev: Dev): seq<Route>
  {
    if rs == [] then [] else
      var front, last := rs[..|rs| - 1], rs[|rs| - 1];
      if HasVia(front, d, dev) then RemoveVia(front, d, dev) + [last]
      else if last.dst == d && last.dev == dev then front
      else rs
  }

  predicate HasVia(rs: seq<Route>, d: Dest, dev: Dev)
  {
    exists i :: 0 <= i < |rs| && rs[i].dst == d && rs[i].dev == dev
  }

  predicate HasDest(rs: seq<Route>, d: Dest)
  {
    exists i :: 0 <= i < |rs| && rs[i].dst == d
  }

  predicate Referenced(chains: map<ChainKey, seq<FwRule>>, tab: Tab, c: Chain)
  {
    exists key :: key in chains && key.0 == tab && Jump(c) in chains[key]
  }

  // ---------------------------------------------------------------------------
  // Commands

  datatype Command =
    | RuleAdd(rule: Rule)
    | RuleDel(rule: Rule)
    | RouteAdd(table: nat, route: Route)
    | RouteReplace(table: nat, route: Route)
    | RouteDel(table: nat, dst: Dest, dev: Dev)
    | RouteFlush(table: nat)
    | ChainNew(key: ChainKey)          // iptables -N
    | ChainFlush(key: ChainKey)        // iptables -F
    | ChainDelete(key: ChainKey)       // iptables -X
    | Insert(key: ChainKey, fw: FwRule)   // iptables -I ... 1
    | Append(key: ChainKey, fw: FwRule)   // iptables -A
    | Delete(key: ChainKey, fw: FwRule)   // iptables -D
    | Probe(key: ChainKey, fw: FwRule)    // iptables -C

  /** A jump needs its target, in the same iptables table. */
  predicate Resolves(k: State, key: ChainKey, fw: FwRule)
  {
    fw.Jump? ==> (key.0, fw.chain) in k.chains
  }

  /** The new state, or None when the command exits with an error. */
  function Exec(k: State, cmd: Command): Option<State>
  {
    match cmd
    case RuleAdd(r) => if r in k.rules then None else Some(k.(rules := InsertRule(k.rules, r)))
    case RuleDel(r) => if r in k.rules then Some(k.(rules := RemoveFirst(k.rules, r))) else None
    case RouteAdd(t, r) => if HasDest(k.Table(t), r.dst) then None else Some(k.WithTable(t, k.Table(t) + [r]))
    case RouteReplace(t, r) => Some(k.WithTable(t, SetRoute(k.Table(t), r)))
    case RouteDel(t, d, dev) => if HasVia(k.Table(t), d,
      dev) then Some(k.WithTable(t, RemoveVia(k.Table(t), d, dev))) else None
    case RouteFlush(t) => Some(k.WithTable(t, []))
    case ChainNew(key) => if key in k.chains then None else Some(k.WithChain(key, []))
    case ChainFlush(key) => if key in k.chains then Some(k.WithChain(key, [])) else None
    case ChainDelete(key) =>
      if key in k.chains && k.chains[key] == []
        && !Referenced(k.chains, key.0, key.1) then Some(k.(chains := k.chains - {key})) else None
    case Insert(key, fw) => if key in k.chains
      && Resolves(k, key, fw) then Some(k.WithChain(key, [fw] + k.chains[key])) else None
    case Append(key, fw) => if key in k.chains
      && Resolves(k, key, fw) then Some(k.WithChain(key, k.chains[key] + [fw])) else None
    case Delete(key, fw) => if key in k.chains
      && fw in k.chains[key] then Some(k.WithChain(key, RemoveFirst(k.chains[key], fw))) else None
    case Probe(key, fw) => if key in k.chains && fw in k.chains[key] then Some(k) else None
  }

  class Host {
    var k: State
    const steady: bool      // no command fails for a reason of its own unless told to
    ghost var faults: nat   // commands that did

    constructor (k: State, steady: bool)
      ensures this.k == k && this.steady == steady && faults == 0
    {
      this.k, this.steady, this.faults := k, steady, 0;
    }

    /** Faults may have come up since there were `was`, but on a steady host none has. */
    ghost predicate Since(was: nat)
      reads this
    {
      faults >= was && (steady ==> faults == was)
    }

    /** Whether the next command has a fault, which nobody knows before. */
    method Chance() returns (fault: bool)
      ensures steady ==> !fault
    {
      fault := *;
      if steady {
        fault := false;
      }
    }

    /** Runs one command. It fails if the kernel refuses it or if it has a `fault` of its
        own, and then changes nothing. */
    method Run(cmd: Command, fault: bool) returns (ok: bool)
      modifies this
      ensures ok <==> Exec(old(k), cmd).Some? && !fault
      ensures k == if ok then Exec(old(k), cmd).value else old(k)
      ensures faults == old(faults) + if fault then 1 else 0
    {
      if fault {
        faults := faults + 1;
      }
      var r := Exec(k, cmd);
      if r.None? || fault {
        return false;
      }
      k := r.value;
      return true;
    }
  }
}
