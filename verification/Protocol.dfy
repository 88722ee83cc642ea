/** The two hosts, their goroutines and the network as one transition system.
    Every step is one atomic action of transport.go, direct_probe.go or smart_return.go.
    The network may deliver, at any time and any number of times, every datagram whose
    authenticator either verifies under nothing or was produced by one of the hosts:
    it drops, duplicates, reorders, recombines and injects. */
module Protocol {
  import opened Words
  import opened Messages
  import opened Replay
  import opened Endpoint

  /** Where a receive worker stands between two datagrams. */
  datatype Worker =
    | Idle
    | Loaded(sid: nat, kind: Kind, counter: uint64, box: Box)
    | Opened(sid: nat, kind: Kind, counter: uint64, plain: Bytes)
    | Passed(sid: nat, kind: Kind, counter: uint64, plain: Bytes)   // the replay window let it through
    | Created(sid: nat)                                             // server: recorded, not yet stored
    | Consumed(cn: Nonce, sn: Nonce, peer: Peer)                    // client: pending taken, not yet stored

  datatype Host = Host(
    st: State,
    workers: seq<Worker>,
    installed: set<nat>,   // the sessions ever passed to storeSession
    gated: nat,            // encrypted datagrams that reached an open session
    sends: nat)            // calls of sendEncrypted

  datatype SealRecord = SealRecord(role: Role, sid: nat, n: nat, key: Key, kind: Kind, plain: Bytes) {
    function Box(): Box
    {
      Seal(key, kind, WireCounter(n), plain)
    }
  }

  datatype System = System(
    iran: Host, kharej: Host,
    used: set<Nonce>,              // random values drawn so far
    macs: set<MacInput>,           // MACs put on the wire
    seals: seq<SealRecord>,        // AEAD seals, in order
    boxes: set<Box>,
    probes: set<ProbeNonce>,       // probe randoms drawn so far
    responses: seq<ProbeNonce>,    // probes Iran's responder verified and acknowledged
    round: Option<ProbeNonce>,     // the probe Kharej's monitor waits for
    results: seq<(ProbeNonce, bool)>)
  {
    function Of(r: Role): Host
    {
      if r.Iran? then iran else kharej
    }

    function With(r: Role, h: Host): System
    {
      if r.Iran? then this.(iran := h) else this.(kharej := h)
    }
  }

  function Init(iranWorkers: nat, kharejWorkers: nat): System
  {
    System(NewHost(iranWorkers), NewHost(kharejWorkers), {}, {}, [], {}, {}, [], None, [])
  }

  function NewHost(workers: nat): Host
  {
    Host(Fresh(true), seq(workers, i => Idle), {}, 0, 0)
  }

  datatype Action =
    | StartHandshake(cn: Nonce, ts: int)
    | StopHandshake(cn: Nonce)
    | Expire(sid: nat)
    | Send(role: Role, sid: nat, kind: Kind, plain: Bytes, ok: bool)
    | TakeEncrypted(role: Role, w: nat, peer: Peer, kind: Kind, counter: uint64, box: Box)
    | OpenBox(role: Role, w: nat)
    | CheckReplay(role: Role, w: nat)
    | DeliverPlain(role: Role, w: nat, now: int)
    | TakeHello(w: nat, peer: Peer, ts: int, cn: Nonce, tag: Tag, clock: int, now: int, sn: Nonce)
    | StoreHello(w: nat)
    | TakeAck(w: nat, peer: Peer, cn: Nonce, sn: Nonce, tag: Tag)
    | StoreAck(w: nat, now: int)
    | StartProbe(probe: ProbeNonce, ts: int)
    | Respond(sid: nat, ts: int, probe: ProbeNonce, tag: Tag, clock: int, ok: bool)
    | AwaitAck
    | GiveUp

  predicate TagAvailable(s: System, tag: Tag)
  {
    tag.Mac? ==> tag.input in s.macs
  }

  predicate BoxAvailable(s: System, box: Box)
  {
    box.Sealed? ==> box in s.boxes
  }

  predicate Enabled(s: System, a: Action)
  {
    match a
    case StartHandshake(cn, ts) => cn !in s.used
    case StopHandshake(cn) => true
    case Expire(sid) => true
    case Send(r, sid, kind, plain, ok) =>
      sid in s.Of(r).installed && sid < |s.Of(r).st.sessions| && !kind.DirectProbeAck?
    case TakeEncrypted(r, w, peer, kind, counter, box) =>
      w < |s.Of(r).workers| && s.Of(r).workers[w].Idle? && BoxAvailable(s, box)
    case OpenBox(r, w) =>
      w < |s.Of(r).workers| && s.Of(r).workers[w].Loaded? && s.Of(r).workers[w].sid < |s.Of(r).st.sessions|
    case CheckReplay(r, w) =>
      w < |s.Of(r).workers| && s.Of(r).workers[w].Opened? && s.Of(r).workers[w].sid < |s.Of(r).st.sessions|
    case DeliverPlain(r, w, now) =>
      w < |s.Of(r).workers| && s.Of(r).workers[w].Passed? && s.Of(r).workers[w].sid < |s.Of(r).st.sessions|
    case TakeHello(w, peer, ts, cn, tag, clock, now, sn) =>
      w < |s.kharej.workers| && s.kharej.workers[w].Idle? && TagAvailable(s, tag) && sn !in s.used
    case StoreHello(w) =>
      w < |s.kharej.workers| && s.kharej.workers[w].Created? && s.kharej.workers[w].sid < |s.kharej.st.sessions|
    case TakeAck(w, peer, cn, sn, tag) =>
      w < |s.iran.workers| && s.iran.workers[w].Idle? && TagAvailable(s, tag)
    case StoreAck(w, now) => w < |s.iran.workers| && s.iran.workers[w].Consumed?
    case StartProbe(probe, ts) => s.round.None? && s.kharej.st.current.Some? && probe !in s.probes
    case Respond(sid, ts, probe, tag, clock, ok) =>
      && sid in s.iran.installed && sid < |s.iran.st.sessions|
      && TagAvailable(s, tag) && tag == Mac(ProbeInput(ts, probe)) && Timely(clock, ts)
    case AwaitAck => s.round.Some? && s.kharej.st.probeAcks.Some? && s.kharej.st.probeAcks.value != []
    case GiveUp => s.round.Some?
  }

  function SetWorker(h: Host, w: nat, x: Worker): Host
    requires w < |h.workers|
  {
    h.(workers := h.workers[w := x])
  }

  /** The `n`th packet of a session, as it went out. */
  function Emitted(r: Role, sid: nat, n: nat, box: Box): SealRecord
    requires box.Sealed?
  {
    SealRecord(r, sid, n, box.key, box.kind, box.plain)
  }

  /** sendEncrypted on session `sid`: take a counter, seal, hand to the carrier. */
  function DoSend(s: System, r: Role, sid: nat, kind: Kind, plain: Bytes, ok: bool): System
    requires sid < |s.Of(r).st.sessions|
  {
    var h := s.Of(r);
    var out := SendEncrypted(h.st, sid, kind, plain, ok);
    s.With(r, h.(st := out.0, sends := h.sends + 1))
      .(seals := s.seals + [Emitted(r, sid, h.st.sessions[sid].sent + 1, out.1.box)], boxes := s.boxes + {out.1.box})
  }

  /** What a datagram on the wire lets everybody repeat. */
  function Authenticators(d: Datagram): set<MacInput>
  {
    if (d.Hello? || d.HelloAck?) && d.tag.Mac? then {d.tag.input} else {}
  }

  function DoTakeHello(s: System, a: Action): System
    requires a.TakeHello? && Enabled(s, a)
  {
    var h := s.kharej;
    if a.tag != Mac(HelloInput(a.ts, a.cn)) || !Timely(a.clock, a.ts) then s
    else
      var st1 := PurgeHellos(h.st, a.now);
      if a.cn in st1.hellos then
        var ack := st1.hellos[a.cn].ack;
        s.(kharej := h.(st := st1), macs := s.macs + Authenticators(ack))
      else
        s.(kharej := SetWorker(h, a.w, Created(|h.st.sessions|)).(st := RecordHello(st1, a.cn, a.sn, a.peer, a.now)),
           used := s.used + {a.sn})
  }

  function Apply(s: System, a: Action): System
    requires Enabled(s, a)
  {
    match a
    case StartHandshake(cn, ts) =>
      s.(iran := s.iran.(st := BeginHandshake(s.iran.st, cn)), used := s.used + {cn}, macs := s.macs
        + {HelloInput(ts, cn)})
    case StopHandshake(cn) => s.(iran := s.iran.(st := EndHandshake(s.iran.st, cn)))
    case Expire(sid) => s.(kharej := s.kharej.(st := ClearIf(s.kharej.st, sid)))
    case Send(r, sid, kind, plain, ok) => DoSend(s, r, sid, kind, plain, ok)
    case TakeEncrypted(r, w, peer, kind, counter, box) =>
      var h := s.Of(r);
      var g := Gate(h.st, peer);
      if g.None? then s
      else s.With(r, SetWorker(h, w, Loaded(g.value, kind, counter, box)).(gated := h.gated + 1))
    case OpenBox(r, w) =>
      var h := s.Of(r);
      var x := h.workers[w];
      var plain := Open(h.st.sessions[x.sid].rx, x.kind, x.counter, x.box);
      if plain.None? then s.With(r, SetWorker(h, w, Idle).(st := CountDecryptError(h.st)))
      else s.With(r, SetWorker(h, w, Opened(x.sid, x.kind, x.counter, plain.value)))
    case CheckReplay(r, w) =>
      var h := s.Of(r);
      var x := h.workers[w];
      if !Admits(h.st.sessions[x.sid].accepted, x.counter) then
        s.With(r, SetWorker(h, w, Idle).(st := CountReplayDrop(h.st)))
      else
        s.With(r, SetWorker(h, w, Passed(x.sid, x.kind, x.counter, x.plain)).(st :=
          AcceptCounter(h.st, x.sid, x.counter)))
    case DeliverPlain(r, w, now) =>
      var h := s.Of(r);
      var x := h.workers[w];
      s.With(r, SetWorker(h, w, Idle).(st := Deliver(h.st, x.sid, x.kind, x.counter, x.plain, now)))
    case TakeHello(_, _, _, _, _, _, _, _) => DoTakeHello(s, a)
    case StoreHello(w) =>
      var h := s.kharej;
      var sid := h.workers[w].sid;
      var k := h.st.sessions[sid].tx;
      s.(kharej := SetWorker(h, w, Idle).(st := StoreSession(h.st, sid), installed := h.installed + {sid}),
         macs := s.macs + Authenticators(MakeHelloAck(k.cn, k.sn)))
    case TakeAck(w, peer, cn, sn, tag) =>
      if tag != Mac(AckInput(cn, sn)) || !AckExpected(s.iran.st, cn) then s
      else s.(iran := SetWorker(s.iran, w, Consumed(cn, sn, peer)).(st := ConsumePending(s.iran.st)))
    case StoreAck(w, now) =>
      var h := s.iran;
      var x := h.workers[w];
      var sid := |h.st.sessions|;
      s.(iran := SetWorker(h, w, Idle).(
           st := StoreSession(AddSession(h.st, Derive(Iran, x.cn, x.sn, x.peer, now)), sid),
           installed := h.installed + {sid}))
    case StartProbe(probe, ts) =>
      s.(round := Some(probe), probes := s.probes + {probe}, macs := s.macs + {ProbeInput(ts, probe)})
    case Respond(sid, ts, probe, tag, clock, ok) =>
      DoSend(s, Iran, sid, DirectProbeAck, probe, ok).(responses := s.responses + [probe])
    case AwaitAck =>
      var ch := s.kharej.st.probeAcks.value;
      var s1 := s.(kharej := s.kharej.(st := s.kharej.st.(probeAcks := Some(ch[1..]))));
      if ch[0] == s.round.value then s1.(round := None, results := s.results + [(ch[0], true)]) else s1
    case GiveUp => s.(round := None, results := s.results + [(s.round.value, false)])
  }

  /** The state after a run, if every action was enabled when it was taken. */
  function Exec(s: System, run: seq<Action>): Option<System>
  {
    if run == [] then Some(s) else
      var before := Exec(s, run[..|run| - 1]);
      var a := run[|run| - 1];
      if before.Some? && Enabled(before.value, a) then Some(Apply(before.value, a)) else None
  }

  lemma ExecSnoc(s: System, run: seq<Action>, a: Action)
    requires Exec(s, run).Some? && Enabled(Exec(s, run).value, a)
    ensures Exec(s, run + [a]) == Some(Apply(Exec(s, run).value, a))
  {
    assert (run + [a])[..|run|] == run;
  }

  ghost predicate Reachable(iranWorkers: nat, kharejWorkers: nat, s: System)
  {
    exists run :: Exec(Init(iranWorkers, kharejWorkers), run) == Some(s)
  }
}
