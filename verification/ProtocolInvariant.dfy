/** What every step of the protocol keeps. */
module ProtocolInvariant {
  import opened Words
  import opened Messages
  import opened Replay
  import opened Endpoint
  import opened Protocol

  type Sessions = seq<SessionState>

  /** The random a host chose itself; it tells its sessions apart. */
  function Own(r: Role, k: Key): Nonce
  {
    if r.Iran? then k.cn else k.sn
  }

  predicate KeysMatch(r: Role, x: SessionState)
  {
    x.tx == TxKey(r, x.tx.cn, x.tx.sn) && x.rx == RxKey(r, x.tx.cn, x.tx.sn)
  }

  ghost predicate SessionsInv(r: Role, xs: Sessions, used: set<Nonce>)
  {
    && (forall sid :: 0 <= sid < |xs| ==> KeysMatch(r, xs[sid]) && Own(r, xs[sid].tx) in used)
    && (forall i, j :: 0 <= i < j < |xs| ==> Own(r, xs[i].tx) != Own(r, xs[j].tx))
  }

  predicate InstalledInv(xs: Sessions, current: Option<nat>, installed: set<nat>)
  {
    && (current.Some? ==> current.value in installed)
    && (forall sid :: sid in installed ==> sid < |xs|)
  }

  /** Iran derives at most one session for each client nonce, and only against an ack. */
  ghost predicate ClientInv(xs: Sessions, pending: Option<Nonce>, ws: seq<Worker>, used: set<Nonce>,
      macs: set<MacInput>)
  {
    && (pending.Some? ==> pending.value in used)
    && (forall sid :: 0 <= sid < |xs| ==>
      pending != Some(xs[sid].tx.cn) && AckInput(xs[sid].tx.cn, xs[sid].tx.sn) in macs)
    && (forall w :: 0 <= w < |ws| && ws[w].Consumed? ==>
          ws[w].cn in used && pending != Some(ws[w].cn) && AckInput(ws[w].cn, ws[w].sn) in macs)
    && (forall w, sid :: 0 <= w < |ws| && ws[w].Consumed? && 0 <= sid < |xs| ==> xs[sid].tx.cn != ws[w].cn)
    && (forall v, w :: 0 <= v < w < |ws| && ws[v].Consumed? && ws[w].Consumed? ==> ws[v].cn != ws[w].cn)
  }

  function Pending(st: State): Option<Nonce>
  {
    if st.pendingSet then Some(st.pending) else None
  }

  /** Some session was derived from (cn, sn). */
  ghost predicate HasPair(xs: Sessions, cn: Nonce, sn: Nonce)
  {
    exists sid :: 0 <= sid < |xs| && xs[sid].tx.cn == cn && xs[sid].tx.sn == sn
  }

  /** Kharej acknowledges only pairs it derived a session from. */
  ghost predicate AcksInv(xs: Sessions, macs: set<MacInput>)
  {
    forall cn, sn :: AckInput(cn, sn) in macs ==> HasPair(xs, cn, sn)
  }

  ghost predicate HellosInv(xs: Sessions, hellos: map<Nonce, HelloRecord>, ws: seq<Worker>)
  {
    && (forall cn :: cn in hellos ==>
          && hellos[cn].ack.HelloAck?
          && hellos[cn].ack == MakeHelloAck(cn, hellos[cn].ack.sn)
          && HasPair(xs, cn, hellos[cn].ack.sn))
    && (forall w :: 0 <= w < |ws| && ws[w].Created? ==> ws[w].sid < |xs|)
  }

  /** A box for this key, header and plaintext was really sealed. */
  predicate Authentic(boxes: set<Box>, key: Key, kind: Kind, counter: uint64, plain: Bytes)
  {
    Seal(key, kind, counter, plain) in boxes
  }

  predicate InWindow(xs: Sessions, sid: nat, counter: nat)
  {
    sid < |xs| && counter in xs[sid].accepted
  }

  predicate WorkerInv(xs: Sessions, x: Worker, boxes: set<Box>)
  {
    match x
    case Loaded(sid, kind, counter, box) => sid < |xs| && (box.Sealed? ==> box in boxes)
    case Opened(sid, kind, counter, plain) => sid < |xs| && Authentic(boxes, xs[sid].rx, kind, counter, plain)
    case Passed(sid, kind, counter, plain) => InWindow(xs, sid, counter)
      && Authentic(boxes, xs[sid].rx, kind, counter, plain)
    case _ => true
  }

  /** Two different copies of a packet never both get past the replay window. */
  ghost predicate TrafficInv(xs: Sessions, ws: seq<Worker>, tun: seq<Delivery>, boxes: set<Box>)
  {
    && (forall w :: 0 <= w < |ws| ==> WorkerInv(xs, ws[w], boxes))
    && (forall v, w :: 0 <= v < w < |ws| && ws[v].Passed? && ws[w].Passed? ==>
          ws[v].sid != ws[w].sid || ws[v].counter != ws[w].counter)
    && (forall i :: 0 <= i < |tun| ==>
          && InWindow(xs, tun[i].sid, tun[i].counter)
          && Authentic(boxes, xs[tun[i].sid].rx, Data, tun[i].counter, tun[i].plain))
    && (forall i, j :: 0 <= i < j < |tun| ==> tun[i].sid != tun[j].sid || tun[i].counter != tun[j].counter)
    && (forall i, w :: 0 <= i < |tun| && 0 <= w < |ws| && ws[w].Passed? ==>
          tun[i].sid != ws[w].sid || tun[i].counter != ws[w].counter)
  }

  function Of(r: Role, iran: Sessions, kharej: Sessions): Sessions
  {
    if r.Iran? then iran else kharej
  }

  predicate SealInv(x: SealRecord, boxes: set<Box>, xs: Sessions)
  {
    x.sid < |xs| && x.key == xs[x.sid].tx && 1 <= x.n <= xs[x.sid].sent && x.Box() in boxes
  }

  ghost predicate SealsInv(seals: seq<SealRecord>, boxes: set<Box>, iran: Sessions, kharej: Sessions)
  {
    && (forall i :: 0 <= i < |seals| ==> SealInv(seals[i], boxes, Of(seals[i].role, iran, kharej)))
    && SealsDistinct(seals)
    && (forall b :: b in boxes ==> exists i :: 0 <= i < |seals| && seals[i].Box() == b)
  }

  ghost predicate SealsDistinct(seals: seq<SealRecord>)
  {
    forall i, j :: 0 <= i < j < |seals| ==>
      seals[i].role != seals[j].role || seals[i].sid != seals[j].sid || seals[i].n != seals[j].n
  }

  ghost predicate SealedAt(seals: seq<SealRecord>, r: Role, sid: nat, n: nat)
  {
    exists i :: 0 <= i < |seals| && seals[i].role == r && seals[i].sid == sid && seals[i].n == n
  }

  /** Every value the send counter took was sealed under. */
  ghost predicate SealsComplete(seals: seq<SealRecord>, r: Role, xs: Sessions)
  {
    forall sid: nat, n: nat {:trigger SealedAt(seals, r, sid, n)} ::
      sid < |xs| && 1 <= n <= xs[sid].sent ==> SealedAt(seals, r, sid, n)
  }

  /** Acks in flight answer probes that Iran verified; probes come from the monitor. */
  ghost predicate AnswersInv(macs: set<MacInput>, probes: set<ProbeNonce>, responses: seq<ProbeNonce>,
                             round: Option<ProbeNonce>, acks: Option<seq<ProbeNonce>>, results: seq<(ProbeNonce, bool)>)
  {
    && (forall m :: m in macs && m.ProbeInput? ==> m.probe in probes)
    && (forall p :: p in responses ==> p in probes)
    && (round.Some? ==> round.value in probes)
    && (acks.Some? ==> forall p :: p in acks.value ==> p in responses)
    && (forall i :: 0 <= i < |results| && results[i].1 ==> results[i].0 in responses)
  }

  ghost predicate ProbesInv(s: System)
  {
    AnswersInv(s.macs, s.probes, s.responses, s.round, s.kharej.st.probeAcks, s.results)
  }

  ghost predicate ProbeSeals(seals: seq<SealRecord>, responses: seq<ProbeNonce>)
  {
    forall i :: 0 <= i < |seals| && seals[i].kind.DirectProbeAck? ==> seals[i].role.Iran? && seals[i].plain in responses
  }

  ghost predicate HostInv(r: Role, h: Host, used: set<Nonce>, boxes: set<Box>)
  {
    && SessionsInv(r, h.st.sessions, used)
    && InstalledInv(h.st.sessions, h.st.current, h.installed)
    && TrafficInv(h.st.sessions, h.workers, h.st.tun, boxes)
  }

  ghost predicate CoreInv(iran: Host, kharej: Host, used: set<Nonce>, macs: set<MacInput>, seals: seq<SealRecord>,
      boxes: set<Box>)
  {
    && HostInv(Iran, iran, used, boxes)
    && HostInv(Kharej, kharej, used, boxes)
    && ClientInv(iran.st.sessions, Pending(iran.st), iran.workers, used, macs)
    && AcksInv(kharej.st.sessions, macs)
    && HellosInv(kharej.st.sessions, kharej.st.hellos, kharej.workers)
    && SealsInv(seals, boxes, iran.st.sessions, kharej.st.sessions)
    && SealsComplete(seals, Iran, iran.st.sessions)
    && SealsComplete(seals, Kharej, kharej.st.sessions)
  }

  ghost predicate Core(s: System)
  {
    CoreInv(s.iran, s.kharej, s.used, s.macs, s.seals, s.boxes)
  }

  ghost predicate Inv(s: System)
  {
    Core(s) && ProbesInv(s) && ProbeSeals(s.seals, s.responses)
  }

  // ---------------------------------------------------------------------------
  // What survives a change of the sessions

  /** `ys` continues `xs`: keys kept, windows only grown, new sessions without sends. */
  ghost predicate Extends(xs: Sessions, ys: Sessions)
  {
    && |xs| <= |ys|
    && (forall i :: 0 <= i < |xs| ==>
          ys[i].tx == xs[i].tx && ys[i].rx == xs[i].rx && xs[i].accepted <= ys[i].accepted && xs[i].sent == ys[i].sent)
    && (forall i :: |xs| <= i < |ys| ==> ys[i].sent == 0)
  }

  /** Each worker stayed or dropped to a state that holds no packet. */
  ghost predicate Quieter(ws: seq<Worker>, us: seq<Worker>)
  {
    |us| == |ws| && forall w :: 0 <= w < |ws| ==> us[w] == ws[w] || us[w].Idle? || us[w].Created? || us[w].Consumed?
  }

  lemma TrafficFrame(xs: Sessions, ys: Sessions, ws: seq<Worker>, us: seq<Worker>, tun: seq<Delivery>,
      boxes: set<Box>, more: set<Box>)
    requires TrafficInv(xs, ws, tun, boxes) && Quieter(ws, us) && boxes <= more
    requires |xs| <= |ys| && forall i :: 0 <= i < |xs| ==> ys[i].rx == xs[i].rx && xs[i].accepted <= ys[i].accepted
    ensures TrafficInv(ys, us, tun, more)
  {
    forall w | 0 <= w < |us| ensures WorkerInv(ys, us[w], more) {
      assert WorkerInv(xs, ws[w], boxes);
    }
  }

  lemma SealsFrame(seals: seq<SealRecord>, boxes: set<Box>, i: Sessions, k: Sessions, i': Sessions, k': Sessions)
    requires SealsInv(seals, boxes, i, k) && Extends(i, i') && Extends(k, k')
    ensures SealsInv(seals, boxes, i', k')
  {
    forall j | 0 <= j < |seals| ensures SealInv(seals[j], boxes, Of(seals[j].role, i', k')) {
      assert SealInv(seals[j], boxes, Of(seals[j].role, i, k));
    }
  }

  lemma CompleteFrame(seals: seq<SealRecord>, r: Role, xs: Sessions, ys: Sessions)
    requires SealsComplete(seals, r, xs) && Extends(xs, ys)
    ensures SealsComplete(seals, r, ys)
  {
    forall sid: nat, n: nat | sid < |ys| && 1 <= n <= ys[sid].sent ensures SealedAt(seals, r, sid, n) {
      assert sid < |xs| && xs[sid].sent == ys[sid].sent;
    }
  }

  lemma AcksFrame(xs: Sessions, ys: Sessions, macs: set<MacInput>, macs': set<MacInput>)
    requires AcksInv(xs, macs)
    requires |xs| <= |ys| && forall i :: 0 <= i < |xs| ==> ys[i].tx == xs[i].tx
    requires forall m :: m in macs' - macs && m.AckInput? ==> HasPair(ys, m.cn, m.sn)
    ensures AcksInv(ys, macs')
  {
    forall cn, sn | AckInput(cn, sn) in macs' ensures HasPair(ys, cn, sn) {
      if AckInput(cn, sn) in macs { PairFrame(xs, ys, cn, sn); }
    }
  }

  lemma PairFrame(xs: Sessions, ys: Sessions, cn: Nonce, sn: Nonce)
    requires HasPair(xs, cn, sn)
    requires |xs| <= |ys| && forall i :: 0 <= i < |xs| ==> ys[i].tx == xs[i].tx
    ensures HasPair(ys, cn, sn)
  {
    var sid :| 0 <= sid < |xs| && xs[sid].tx.cn == cn && xs[sid].tx.sn == sn;
    assert ys[sid].tx == xs[sid].tx;
  }

  lemma HellosFrame(xs: Sessions, ys: Sessions, hs: map<Nonce, HelloRecord>, hs': map<Nonce, HelloRecord>,
      ws: seq<Worker>, us: seq<Worker>)
    requires HellosInv(xs, hs, ws)
    requires forall cn :: cn in hs' ==> cn in hs && hs'[cn] == hs[cn]
    requires |us| == |ws| && forall w :: 0 <= w < |us| && us[w].Created? ==> us[w] == ws[w]
    requires |xs| <= |ys| && forall i :: 0 <= i < |xs| ==> ys[i].tx == xs[i].tx
    ensures HellosInv(ys, hs', us)
  {
    forall cn | cn in hs' ensures HasPair(ys, cn, hs'[cn].ack.sn) {
      PairFrame(xs, ys, cn, hs'[cn].ack.sn);
    }
  }

  lemma ClientFrame(xs: Sessions, ys: Sessions, p: Option<Nonce>, p': Option<Nonce>, ws: seq<Worker>, us: seq<Worker>,
                    used: set<Nonce>, used': set<Nonce>, macs: set<MacInput>, macs': set<MacInput>)
    requires ClientInv(xs, p, ws, used, macs)
    requires |xs| == |ys| && forall i :: 0 <= i < |xs| ==> ys[i].tx == xs[i].tx
    requires |us| == |ws| && forall w :: 0 <= w < |us| && us[w].Consumed? ==> us[w] == ws[w]
    requires used <= used' && macs <= macs' && (p' == p || p' == None)
    ensures ClientInv(ys, p', us, used', macs')
  {
  }

  lemma SessionsFrame(r: Role, xs: Sessions, ys: Sessions, used: set<Nonce>, used': set<Nonce>)
    requires SessionsInv(r, xs, used) && used <= used'
    requires |xs| == |ys| && forall i :: 0 <= i < |xs| ==> ys[i].tx == xs[i].tx && ys[i].rx == xs[i].rx
    ensures SessionsInv(r, ys, used')
  {
  }

  // ---------------------------------------------------------------------------
  // Every step keeps the invariant

  lemma HandshakeKeeps(s: System, a: Action)
    requires Core(s) && Enabled(s, a) && (a.StartHandshake? || a.StopHandshake? || a.Expire?)
    ensures Core(Apply(s, a))
  {
    var s' := Apply(s, a);
    SessionsFrame(Iran, s.iran.st.sessions, s'.iran.st.sessions, s.used, s'.used);
    SessionsFrame(Kharej, s.kharej.st.sessions, s'.kharej.st.sessions, s.used, s'.used);
    AcksFrame(s.kharej.st.sessions, s'.kharej.st.sessions, s.macs, s'.macs);
    if a.StartHandshake? {
      ClientStarts(s.iran.st.sessions, Pending(s.iran.st), a.cn, s.iran.workers, s.used, s.macs, s'.macs);
    } else {
      ClientFrame(s.iran.st.sessions, s'.iran.st.sessions, Pending(s.iran.st), Pending(s'.iran.st),
                  s.iran.workers, s'.iran.workers, s.used, s'.used, s.macs, s'.macs);
    }
  }

  lemma ClientStarts(xs: Sessions, p: Option<Nonce>, cn: Nonce, ws: seq<Worker>, used: set<Nonce>,
      macs: set<MacInput>, macs': set<MacInput>)
    requires ClientInv(xs, p, ws, used, macs) && cn !in used && macs <= macs'
    requires forall sid :: 0 <= sid < |xs| ==> xs[sid].tx.cn in used
    ensures ClientInv(xs, Some(cn), ws, used + {cn}, macs')
  {
  }

  /** Session `rec.sid` went from `xs` to `ys` by taking the counter of `rec`. */
  predicate Sealing(xs: Sessions, ys: Sessions, rec: SealRecord)
  {
    && rec.sid < |xs| == |ys| && rec.key == xs[rec.sid].tx && rec.n == xs[rec.sid].sent + 1
    && ys == xs[rec.sid := ys[rec.sid]] && ys[rec.sid].tx == xs[rec.sid].tx && ys[rec.sid].sent == rec.n
  }

  lemma SealStays(x: SealRecord, boxes: set<Box>, xs: Sessions, ys: Sessions, rec: SealRecord)
    requires SealInv(x, boxes, xs) && (xs == ys || Sealing(xs, ys, rec))
    ensures SealInv(x, boxes + {rec.Box()}, ys)
    ensures Sealing(xs, ys, rec) ==> x.sid != rec.sid || x.n != rec.n
  {
  }

  lemma BoxesHaveSeals(seals: seq<SealRecord>, boxes: set<Box>, rec: SealRecord)
    requires forall b :: b in boxes ==> exists i :: 0 <= i < |seals| && seals[i].Box() == b
    ensures forall b :: b in boxes + {rec.Box()} ==>
      exists i :: 0 <= i < |seals + [rec]| && (seals + [rec])[i].Box() == b
  {
    var all := seals + [rec];
    forall b | b in boxes + {rec.Box()} ensures exists j :: 0 <= j < |all| && all[j].Box() == b {
      if b in boxes {
        var j :| 0 <= j < |seals| && seals[j].Box() == b;
        assert all[j] == seals[j];
      } else {
        assert all[|seals|].Box() == b;
      }
    }
  }

  /** A fresh counter of session `rec.sid` is sealed under. */
  lemma SealsAppend(seals: seq<SealRecord>, boxes: set<Box>, i: Sessions, k: Sessions, i': Sessions, k': Sessions,
      rec: SealRecord)
    requires SealsInv(seals, boxes, i, k) && Sealing(Of(rec.role, i, k), Of(rec.role, i', k'), rec)
    requires Of(Other(rec.role), i, k) == Of(Other(rec.role), i', k')
    ensures SealsInv(seals + [rec], boxes + {rec.Box()}, i', k')
  {
    var all, more := seals + [rec], boxes + {rec.Box()};
    BoxesHaveSeals(seals, boxes, rec);
    SealStaysDistinct(seals, boxes, i, k, i', k', rec);
    forall j | 0 <= j < |all| ensures SealInv(all[j], more, Of(all[j].role, i', k')) {
      if j < |seals| {
        assert all[j] == seals[j];
        SealStays(seals[j], boxes, Of(seals[j].role, i, k), Of(seals[j].role, i', k'), rec);
      }
    }
  }

  lemma SealStaysDistinct(seals: seq<SealRecord>, boxes: set<Box>, i: Sessions, k: Sessions, i': Sessions,
      k': Sessions, rec: SealRecord)
    requires SealsInv(seals, boxes, i, k) && Sealing(Of(rec.role, i, k), Of(rec.role, i', k'), rec)
    ensures SealsDistinct(seals + [rec])
  {
    forall j | 0 <= j < |seals| ensures seals[j].role != rec.role || seals[j].sid != rec.sid || seals[j].n != rec.n {
      assert SealInv(seals[j], boxes, Of(seals[j].role, i, k));
    }
  }

  lemma SendKeepsSeals(s: System, r: Role, sid: nat, kind: Kind, plain: Bytes, ok: bool)
    requires SealsInv(s.seals, s.boxes, s.iran.st.sessions, s.kharej.st.sessions) && sid < |s.Of(r).st.sessions|
    ensures var s' := DoSend(s, r, sid, kind, plain, ok);
      SealsInv(s'.seals, s'.boxes, s'.iran.st.sessions, s'.kharej.st.sessions)
  {
    var s' := DoSend(s, r, sid, kind, plain, ok);
    SealsAppend(s.seals, s.boxes, s.iran.st.sessions, s.kharej.st.sessions, s'.iran.st.sessions,
      s'.kharej.st.sessions, s'.seals[|s.seals|]);
  }

  lemma SendKeepsProbes(s: System, a: Action)
    requires ProbesInv(s) && ProbeSeals(s.seals, s.responses) && Enabled(s, a) && (a.Send? || a.Respond?)
    ensures var s' := Apply(s, a); ProbesInv(s') && ProbeSeals(s'.seals, s'.responses)
  {
    var s' := Apply(s, a);
    assert s'.kharej.st.probeAcks == s.kharej.st.probeAcks;
    if a.Respond? { assert a.tag.input.probe in s.probes; }
  }

  lemma SendKeepsComplete(s: System, r: Role, sid: nat, kind: Kind, plain: Bytes, ok: bool, q: Role)
    requires SealsComplete(s.seals, q, s.Of(q).st.sessions) && sid < |s.Of(r).st.sessions|
    ensures var s' := DoSend(s, r, sid, kind, plain, ok);
      SealsComplete(s'.seals, q, s'.Of(q).st.sessions)
  {
    var s' := DoSend(s, r, sid, kind, plain, ok);
    var xs, ys := s.Of(q).st.sessions, s'.Of(q).st.sessions;
    forall k: nat, n: nat | k < |ys| && 1 <= n <= ys[k].sent ensures SealedAt(s'.seals, q, k, n) {
      if n <= xs[k].sent {
        assert SealedAt(s.seals, q, k, n);
        var i :| 0 <= i < |s.seals| && s.seals[i].role == q && s.seals[i].sid == k && s.seals[i].n == n;
        assert s'.seals[i] == s.seals[i];
      } else {
        assert s'.seals[|s.seals|].n == n;
      }
    }
  }

  lemma SendKeepsHost(s: System, r: Role, sid: nat, kind: Kind, plain: Bytes, ok: bool, q: Role)
    requires HostInv(q, s.Of(q), s.used, s.boxes) && sid < |s.Of(r).st.sessions|
    ensures var s' := DoSend(s, r, sid, kind, plain, ok);
      HostInv(q, s'.Of(q), s'.used, s'.boxes)
  {
    var s' := DoSend(s, r, sid, kind, plain, ok);
    var h, h' := s.Of(q), s'.Of(q);
    SessionsFrame(q, h.st.sessions, h'.st.sessions, s.used, s'.used);
    TrafficFrame(h.st.sessions, h'.st.sessions, h.workers, h'.workers, h.st.tun, s.boxes, s'.boxes);
  }

  lemma SendKeepsHandshake(s: System, r: Role, sid: nat, kind: Kind, plain: Bytes, ok: bool)
    requires Core(s) && sid < |s.Of(r).st.sessions|
    ensures var s' := DoSend(s, r, sid, kind, plain, ok);
      && ClientInv(s'.iran.st.sessions, Pending(s'.iran.st), s'.iran.workers, s'.used, s'.macs)
      && AcksInv(s'.kharej.st.sessions, s'.macs)
      && HellosInv(s'.kharej.st.sessions, s'.kharej.st.hellos, s'.kharej.workers)
  {
    var s' := DoSend(s, r, sid, kind, plain, ok);
    AcksFrame(s.kharej.st.sessions, s'.kharej.st.sessions, s.macs, s'.macs);
    HellosFrame(s.kharej.st.sessions, s'.kharej.st.sessions, s.kharej.st.hellos, s'.kharej.st.hellos,
      s.kharej.workers, s'.kharej.workers);
    ClientFrame(s.iran.st.sessions, s'.iran.st.sessions, Pending(s.iran.st), Pending(s'.iran.st),
                s.iran.workers, s'.iran.workers, s.used, s'.used, s.macs, s'.macs);
  }

  lemma DoSendKeeps(s: System, r: Role, sid: nat, kind: Kind, plain: Bytes, ok: bool)
    requires Core(s) && sid < |s.Of(r).st.sessions|
    ensures Core(DoSend(s, r, sid, kind, plain, ok))
  {
    SendKeepsSeals(s, r, sid, kind, plain, ok);
    SendKeepsComplete(s, r, sid, kind, plain, ok, Iran);
    SendKeepsComplete(s, r, sid, kind, plain, ok, Kharej);
    SendKeepsHost(s, r, sid, kind, plain, ok, Iran);
    SendKeepsHost(s, r, sid, kind, plain, ok, Kharej);
    SendKeepsHandshake(s, r, sid, kind, plain, ok);
  }

  lemma SendKeeps(s: System, a: Action)
    requires Core(s) && Enabled(s, a) && (a.Send? || a.Respond?)
    ensures Core(Apply(s, a))
  {
    match a {
      case Send(r, sid, kind, plain, ok) => DoSendKeeps(s, r, sid, kind, plain, ok);
      case Respond(sid, _, probe, _, _, ok) => DoSendKeeps(s, Iran, sid, DirectProbeAck, probe, ok);
    }
  }

  /** A receive step changes one host, only in its traffic. */
  ghost predicate TrafficOnly(h: Host, h': Host)
  {
    && |h.st.sessions| == |h'.st.sessions| && Extends(h.st.sessions, h'.st.sessions)
    && h'.st.current == h.st.current && h'.installed == h.installed
    && h'.st.hellos == h.st.hellos && Pending(h'.st) == Pending(h.st)
    && |h'.workers| == |h.workers|
    && forall w :: 0 <= w < |h.workers| && (h'.workers[w].Created? || h'.workers[w].Consumed?) ==>
      h'.workers[w] == h.workers[w]
  }

  lemma ReceiveFrame(s: System, r: Role, h': Host)
    requires Core(s) && TrafficOnly(s.Of(r), h')
    requires TrafficInv(h'.st.sessions, h'.workers, h'.st.tun, s.boxes)
    ensures Core(s.With(r, h'))
  {
    var h, s' := s.Of(r), s.With(r, h');
    SessionsFrame(r, h.st.sessions, h'.st.sessions, s.used, s.used);
    SealsFrame(s.seals, s.boxes, s.iran.st.sessions, s.kharej.st.sessions, s'.iran.st.sessions, s'.kharej.st.sessions);
    CompleteFrame(s.seals, r, h.st.sessions, h'.st.sessions);
    if r.Iran? {
      ClientFrame(h.st.sessions, h'.st.sessions, Pending(h.st), Pending(h'.st), h.workers, h'.workers, s.used,
        s.used, s.macs, s.macs);
    } else {
      AcksFrame(h.st.sessions, h'.st.sessions, s.macs, s.macs);
      HellosFrame(h.st.sessions, h'.st.sessions, h.st.hellos, h'.st.hellos, h.workers, h'.workers);
    }
  }

  lemma TrafficLoads(xs: Sessions, ws: seq<Worker>, tun: seq<Delivery>, boxes: set<Box>, w: nat, x: Worker)
    requires TrafficInv(xs, ws, tun, boxes) && w < |ws| && !x.Passed? && WorkerInv(xs, x, boxes)
    ensures TrafficInv(xs, ws[w := x], tun, boxes)
  {
  }

  /** The counter enters the window and the worker goes on, alone with it. */
  lemma TrafficPasses(xs: Sessions, ys: Sessions, ws: seq<Worker>, tun: seq<Delivery>, boxes: set<Box>, w: nat)
    requires TrafficInv(xs, ws, tun, boxes) && w < |ws| && ws[w].Opened? && ws[w].sid < |xs|
    requires ws[w].counter as nat !in xs[ws[w].sid].accepted
    requires ys == xs[ws[w].sid := xs[ws[w].sid].(accepted := xs[ws[w].sid].accepted + {ws[w].counter as nat})]
    ensures TrafficInv(ys, ws[w := Passed(ws[w].sid, ws[w].kind, ws[w].counter, ws[w].plain)], tun, boxes)
  {
    var x := ws[w];
    var us := ws[w := Passed(x.sid, x.kind, x.counter, x.plain)];
    forall v | 0 <= v < |us| ensures WorkerInv(ys, us[v], boxes) {
      assert WorkerInv(xs, ws[v], boxes);
    }
    forall v | 0 <= v < |ws| && ws[v].Passed? ensures ws[v].sid != x.sid || ws[v].counter != x.counter {
      assert WorkerInv(xs, ws[v], boxes);
    }
    forall i | 0 <= i < |tun| ensures tun[i].sid != x.sid || tun[i].counter != x.counter {
      assert InWindow(xs, tun[i].sid, tun[i].counter);
    }
  }

  lemma TrafficDelivers(xs: Sessions, ws: seq<Worker>, tun: seq<Delivery>, boxes: set<Box>, w: nat)
    requires TrafficInv(xs, ws, tun, boxes) && w < |ws| && ws[w].Passed? && ws[w].kind.Data?
    ensures TrafficInv(xs, ws[w := Idle], tun + [Delivery(ws[w].sid, ws[w].counter, ws[w].plain)], boxes)
  {
    assert WorkerInv(xs, ws[w], boxes);
  }

  lemma TakeKeeps(s: System, r: Role, w: nat, peer: Peer, kind: Kind, counter: uint64, box: Box)
    requires Core(s) && Enabled(s, TakeEncrypted(r, w, peer, kind, counter, box))
    ensures Core(Apply(s, TakeEncrypted(r, w, peer, kind, counter, box)))
  {
    var h := s.Of(r);
    var g := Gate(h.st, peer);
    if g.Some? {
      var x := Loaded(g.value, kind, counter, box);
      TrafficLoads(h.st.sessions, h.workers, h.st.tun, s.boxes, w, x);
      ReceiveFrame(s, r, SetWorker(h, w, x).(gated := h.gated + 1));
    }
  }

  lemma OpenKeeps(s: System, r: Role, w: nat)
    requires Core(s) && Enabled(s, OpenBox(r, w))
    ensures Core(Apply(s, OpenBox(r, w)))
  {
    var h := s.Of(r);
    var x := h.workers[w];
    var xs := h.st.sessions;
    assert WorkerInv(xs, x, s.boxes);
    var plain := Open(xs[x.sid].rx, x.kind, x.counter, x.box);
    var y := if plain.None? then Idle else Opened(x.sid, x.kind, x.counter, plain.value);
    TrafficLoads(xs, h.workers, h.st.tun, s.boxes, w, y);
    var st' := if plain.None? then CountDecryptError(h.st) else h.st;
    ReceiveFrame(s, r, SetWorker(h, w, y).(st := st'));
  }

  lemma CheckTraffic(h: Host, h': Host, boxes: set<Box>, w: nat)
    requires TrafficInv(h.st.sessions, h.workers, h.st.tun, boxes)
    requires w < |h.workers| && h.workers[w].Opened? && h.workers[w].sid < |h.st.sessions|
    requires var x := h.workers[w];
      && x.counter as nat !in h.st.sessions[x.sid].accepted
      && h' == SetWorker(h, w, Passed(x.sid, x.kind, x.counter, x.plain)).(st := AcceptCounter(h.st, x.sid, x.counter))
    ensures TrafficInv(h'.st.sessions, h'.workers, h'.st.tun, boxes) && TrafficOnly(h, h')
  {
    TrafficPasses(h.st.sessions, h'.st.sessions, h.workers, h.st.tun, boxes, w);
  }

  lemma CheckKeeps(s: System, r: Role, w: nat)
    requires Core(s) && Enabled(s, CheckReplay(r, w))
    ensures Core(Apply(s, CheckReplay(r, w)))
  {
    var h := s.Of(r);
    var x := h.workers[w];
    if Admits(h.st.sessions[x.sid].accepted, x.counter) {
      var h' := SetWorker(h, w, Passed(x.sid, x.kind, x.counter, x.plain)).(st :=
        AcceptCounter(h.st, x.sid, x.counter));
      CheckTraffic(h, h', s.boxes, w);
      ReceiveFrame(s, r, h');
    } else {
      TrafficLoads(h.st.sessions, h.workers, h.st.tun, s.boxes, w, Idle);
      ReceiveFrame(s, r, SetWorker(h, w, Idle).(st := CountReplayDrop(h.st)));
    }
  }

  lemma DeliverTraffic(h: Host, h': Host, boxes: set<Box>, w: nat, now: int)
    requires TrafficInv(h.st.sessions, h.workers, h.st.tun, boxes)
    requires w < |h.workers| && h.workers[w].Passed? && h.workers[w].sid < |h.st.sessions|
    requires var x := h.workers[w];
      h' == SetWorker(h, w, Idle).(st := Deliver(h.st, x.sid, x.kind, x.counter, x.plain, now))
    ensures TrafficInv(h'.st.sessions, h'.workers, h'.st.tun, boxes) && TrafficOnly(h, h')
  {
    var x := h.workers[w];
    var xs, ys, ws := h.st.sessions, h'.st.sessions, h.workers;
    if x.kind.Data? && |x.plain| > 0 {
      TrafficDelivers(xs, ws, h.st.tun, boxes, w);
    } else {
      TrafficLoads(xs, ws, h.st.tun, boxes, w, Idle);
    }
    TrafficFrame(xs, ys, h'.workers, h'.workers, h'.st.tun, boxes, boxes);
  }

  lemma DeliverKeeps(s: System, r: Role, w: nat, now: int)
    requires Core(s) && Enabled(s, DeliverPlain(r, w, now))
    ensures Core(Apply(s, DeliverPlain(r, w, now)))
  {
    var h := s.Of(r);
    var x := h.workers[w];
    var h' := SetWorker(h, w, Idle).(st := Deliver(h.st, x.sid, x.kind, x.counter, x.plain, now));
    DeliverTraffic(h, h', s.boxes, w, now);
    ReceiveFrame(s, r, h');
  }

  // ---------------------------------------------------------------------------
  // Handshake steps

  lemma SessionsAppend(r: Role, xs: Sessions, x: SessionState, used: set<Nonce>, used': set<Nonce>)
    requires SessionsInv(r, xs, used) && used <= used'
    requires KeysMatch(r, x) && Own(r, x.tx) in used'
    requires forall sid :: 0 <= sid < |xs| ==> Own(r, xs[sid].tx) != Own(r, x.tx)
    ensures SessionsInv(r, xs + [x], used')
  {
  }

  /** Adding a session to one host disturbs neither seals nor traffic. */
  lemma AppendFrame(s: System, r: Role, x: SessionState, us: seq<Worker>)
    requires Core(s) && x.sent == 0 && Quieter(s.Of(r).workers, us)
    ensures var h := s.Of(r); var ys := h.st.sessions + [x];
      && TrafficInv(ys, us, h.st.tun, s.boxes)
      && SealsInv(s.seals, s.boxes, if r.Iran? then ys else s.iran.st.sessions, if r.Kharej? then ys
        else s.kharej.st.sessions)
      && SealsComplete(s.seals, r, ys)
  {
    var h := s.Of(r);
    var xs, ys := h.st.sessions, h.st.sessions + [x];
    TrafficFrame(xs, ys, h.workers, us, h.st.tun, s.boxes, s.boxes);
    SealsFrame(s.seals, s.boxes, s.iran.st.sessions, s.kharej.st.sessions,
               if r.Iran? then ys else s.iran.st.sessions, if r.Kharej? then ys else s.kharej.st.sessions);
    CompleteFrame(s.seals, r, xs, ys);
  }

  lemma HellosRecord(xs: Sessions, x: SessionState, hs: map<Nonce, HelloRecord>, ws: seq<Worker>, w: nat, cn: Nonce,
      rec: HelloRecord)
    requires HellosInv(xs, hs, ws) && w < |ws|
    requires rec.ack == MakeHelloAck(x.tx.cn, x.tx.sn) && cn == x.tx.cn
    ensures HellosInv(xs + [x], hs[cn := rec], ws[w := Created(|xs|)])
  {
    var ys := xs + [x];
    HellosFrame(xs, ys, hs, hs, ws, ws);
    assert ys[|xs|] == x;
    assert HasPair(ys, cn, x.tx.sn);
  }

  lemma PurgeFrame(xs: Sessions, hs: map<Nonce, HelloRecord>, ws: seq<Worker>, now: int)
    requires HellosInv(xs, hs, ws)
    ensures HellosInv(xs, Purge(hs, now), ws)
  {
    HellosFrame(xs, xs, hs, Purge(hs, now), ws, ws);
  }

  lemma RecordKeeps(s: System, a: Action)
    requires Core(s) && a.TakeHello? && Enabled(s, a)
    requires a.tag == Mac(HelloInput(a.ts, a.cn)) && Timely(a.clock, a.ts) && a.cn !in Purge(s.kharej.st.hellos, a.now)
    ensures Core(DoTakeHello(s, a))
  {
    var h, s' := s.kharej, DoTakeHello(s, a);
    var x := Derive(Kharej, a.cn, a.sn, a.peer, a.now);
    var xs := h.st.sessions;
    PurgeFrame(xs, h.st.hellos, h.workers, a.now);
    HellosRecord(xs, x, Purge(h.st.hellos, a.now), h.workers, a.w, a.cn, s'.kharej.st.hellos[a.cn]);
    SessionsAppend(Kharej, xs, x, s.used, s'.used);
    SessionsFrame(Iran, s.iran.st.sessions, s.iran.st.sessions, s.used, s'.used);
    AppendFrame(s, Kharej, x, s'.kharej.workers);
    AcksFrame(xs, xs + [x], s.macs, s.macs);
    ClientFrame(s.iran.st.sessions, s.iran.st.sessions, Pending(s.iran.st), Pending(s.iran.st),
                s.iran.workers, s.iran.workers, s.used, s'.used, s.macs, s.macs);
  }

  lemma TakeHelloKeeps(s: System, a: Action)
    requires Core(s) && a.TakeHello? && Enabled(s, a)
    ensures Core(DoTakeHello(s, a))
  {
    var h, s' := s.kharej, DoTakeHello(s, a);
    if a.tag == Mac(HelloInput(a.ts, a.cn)) && Timely(a.clock, a.ts) {
      if a.cn !in Purge(h.st.hellos, a.now) {
        RecordKeeps(s, a);
      } else {
        PurgeFrame(h.st.sessions, h.st.hellos, h.workers, a.now);
        AcksFrame(h.st.sessions, h.st.sessions, s.macs, s'.macs);
        ClientFrame(s.iran.st.sessions, s.iran.st.sessions, Pending(s.iran.st), Pending(s.iran.st),
                    s.iran.workers, s.iran.workers, s.used, s.used, s.macs, s'.macs);
      }
    }
  }

  lemma StoreHelloKeeps(s: System, w: nat)
    requires Core(s) && Enabled(s, StoreHello(w))
    ensures Core(Apply(s, StoreHello(w)))
  {
    var h, s' := s.kharej, Apply(s, StoreHello(w));
    var xs, sid := h.st.sessions, h.workers[w].sid;
    TrafficLoads(xs, h.workers, h.st.tun, s.boxes, w, Idle);
    HellosFrame(xs, xs, h.st.hellos, h.st.hellos, h.workers, s'.kharej.workers);
    assert HasPair(xs, xs[sid].tx.cn, xs[sid].tx.sn);
    AcksFrame(xs, xs, s.macs, s'.macs);
    ClientFrame(s.iran.st.sessions, s.iran.st.sessions, Pending(s.iran.st), Pending(s.iran.st),
                s.iran.workers, s.iran.workers, s.used, s.used, s.macs, s'.macs);
  }

  lemma ClientConsumes(xs: Sessions, ws: seq<Worker>, w: nat, cn: Nonce, sn: Nonce, peer: Peer, used: set<Nonce>,
      macs: set<MacInput>)
    requires ClientInv(xs, Some(cn), ws, used, macs) && w < |ws| && AckInput(cn, sn) in macs
    ensures ClientInv(xs, None, ws[w := Consumed(cn, sn, peer)], used, macs)
  {
  }

  lemma TakeAckKeeps(s: System, w: nat, peer: Peer, cn: Nonce, sn: Nonce, tag: Tag)
    requires Core(s) && Enabled(s, TakeAck(w, peer, cn, sn, tag))
    ensures Core(Apply(s, TakeAck(w, peer, cn, sn, tag)))
  {
    var h := s.iran;
    if tag == Mac(AckInput(cn, sn)) && AckExpected(h.st, cn) {
      ClientConsumes(h.st.sessions, h.workers, w, cn, sn, peer, s.used, s.macs);
      TrafficLoads(h.st.sessions, h.workers, h.st.tun, s.boxes, w, Consumed(cn, sn, peer));
    }
  }

  lemma ClientInstalls(xs: Sessions, x: SessionState, p: Option<Nonce>, ws: seq<Worker>, w: nat, used: set<Nonce>,
      macs: set<MacInput>)
    requires ClientInv(xs, p, ws, used, macs) && w < |ws| && ws[w].Consumed? && x.tx.cn == ws[w].cn
      && x.tx.sn == ws[w].sn
    ensures ClientInv(xs + [x], p, ws[w := Idle], used, macs)
  {
  }

  lemma StoreAckKeeps(s: System, w: nat, now: int)
    requires Core(s) && Enabled(s, StoreAck(w, now))
    ensures Core(Apply(s, StoreAck(w, now)))
  {
    var h, s' := s.iran, Apply(s, StoreAck(w, now));
    var c := h.workers[w];
    var x := Derive(Iran, c.cn, c.sn, c.peer, now);
    SessionsAppend(Iran, h.st.sessions, x, s.used, s.used);
    AppendFrame(s, Iran, x, s'.iran.workers);
    ClientInstalls(h.st.sessions, x, Pending(h.st), h.workers, w, s.used, s.macs);
  }

  // ---------------------------------------------------------------------------
  // Probe steps, and all steps together

  /** A probe ack that came out of a box was put there by the responder. */
  lemma AckAnswered(seals: seq<SealRecord>, boxes: set<Box>, iran: Sessions, kharej: Sessions,
      responses: seq<ProbeNonce>,
                    key: Key, counter: uint64, plain: Bytes)
    requires SealsInv(seals, boxes, iran, kharej) && ProbeSeals(seals, responses)
    requires Authentic(boxes, key, DirectProbeAck, counter, plain)
    ensures plain in responses
  {
    var i :| 0 <= i < |seals| && seals[i].Box() == Seal(key, DirectProbeAck, counter, plain);
  }

  lemma DeliverProbes(s: System, r: Role, w: nat, now: int)
    requires ProbesInv(s) && Enabled(s, DeliverPlain(r, w, now))
    requires s.Of(r).workers[w].kind.DirectProbeAck? ==> s.Of(r).workers[w].plain in s.responses
    ensures ProbesInv(Apply(s, DeliverPlain(r, w, now)))
  {
  }

  lemma DeliverAnswered(s: System, r: Role, w: nat)
    requires Inv(s) && w < |s.Of(r).workers| && s.Of(r).workers[w].Passed? && s.Of(r).workers[w].kind.DirectProbeAck?
    ensures s.Of(r).workers[w].plain in s.responses
  {
    var h := s.Of(r);
    var x := h.workers[w];
    assert WorkerInv(h.st.sessions, x, s.boxes);
    AckAnswered(s.seals, s.boxes, s.iran.st.sessions, s.kharej.st.sessions, s.responses, h.st.sessions[x.sid].rx,
      x.counter, x.plain);
  }

  lemma TakeHelloProbes(s: System, a: Action)
    requires ProbesInv(s) && HellosInv(s.kharej.st.sessions, s.kharej.st.hellos, s.kharej.workers)
    requires a.TakeHello? && Enabled(s, a)
    ensures ProbesInv(DoTakeHello(s, a))
  {
    var s' := DoTakeHello(s, a);
    assert s'.kharej.st.probeAcks == s.kharej.st.probeAcks;
    forall m | m in s'.macs && m.ProbeInput? ensures m in s.macs {
      PurgeFrame(s.kharej.st.sessions, s.kharej.st.hellos, s.kharej.workers, a.now);
    }
  }

  lemma OtherProbes(s: System, a: Action)
    requires ProbesInv(s) && Enabled(s, a) && !a.Send? && !a.Respond? && !a.DeliverPlain? && !a.TakeHello?
    ensures ProbesInv(Apply(s, a))
  {
  }

  lemma ProbesKeep(s: System, a: Action)
    requires Inv(s) && Enabled(s, a)
    ensures ProbesInv(Apply(s, a)) && ProbeSeals(Apply(s, a).seals, Apply(s, a).responses)
  {
    if a.Send? || a.Respond? {
      SendKeepsProbes(s, a);
    } else if a.DeliverPlain? {
      if s.Of(a.role).workers[a.w].kind.DirectProbeAck? { DeliverAnswered(s, a.role, a.w); }
      DeliverProbes(s, a.role, a.w, a.now);
    } else if a.TakeHello? {
      TakeHelloProbes(s, a);
    } else {
      OtherProbes(s, a);
    }
  }

  lemma StepKeeps(s: System, a: Action)
    requires Inv(s) && Enabled(s, a)
    ensures Inv(Apply(s, a))
  {
    ProbesKeep(s, a);
    if IsTraffic(a) { TrafficStep(s, a); } else { ControlStep(s, a); }
  }

  predicate IsTraffic(a: Action)
  {
    a.Send? || a.Respond? || a.TakeEncrypted? || a.OpenBox? || a.CheckReplay? || a.DeliverPlain?
  }

  lemma TrafficStep(s: System, a: Action)
    requires Core(s) && Enabled(s, a) && IsTraffic(a)
    ensures Core(Apply(s, a))
  {
    match a {
      case TakeEncrypted(r, w, peer, kind, counter, box) => TakeKeeps(s, r, w, peer, kind, counter, box);
      case OpenBox(r, w) => OpenKeeps(s, r, w);
      case CheckReplay(r, w) => CheckKeeps(s, r, w);
      case DeliverPlain(r, w, now) => DeliverKeeps(s, r, w, now);
      case _ => SendKeeps(s, a);
    }
  }

  lemma ControlStep(s: System, a: Action)
    requires Core(s) && Enabled(s, a) && !IsTraffic(a)
    ensures Core(Apply(s, a))
  {
    if a.StartHandshake? || a.StopHandshake? || a.Expire? {
      HandshakeKeeps(s, a);
    } else if a.StartProbe? || a.AwaitAck? || a.GiveUp? {
      MonitorKeeps(s, a);
    } else {
      EstablishKeeps(s, a);
    }
  }

  lemma EstablishKeeps(s: System, a: Action)
    requires Core(s) && Enabled(s, a) && (a.TakeHello? || a.StoreHello? || a.TakeAck? || a.StoreAck?)
    ensures Core(Apply(s, a))
  {
    match a {
      case TakeHello(_, _, _, _, _, _, _, _) => TakeHelloKeeps(s, a);
      case StoreHello(w) => StoreHelloKeeps(s, w);
      case TakeAck(w, peer, cn, sn, tag) => TakeAckKeeps(s, w, peer, cn, sn, tag);
      case StoreAck(w, now) => StoreAckKeeps(s, w, now);
    }
  }

  lemma MonitorKeeps(s: System, a: Action)
    requires Core(s) && Enabled(s, a) && (a.StartProbe? || a.AwaitAck? || a.GiveUp?)
    ensures Core(Apply(s, a))
  {
    if a.StartProbe? { StartProbeKeeps(s, a.probe, a.ts); }
  }

  lemma StartProbeKeeps(s: System, probe: ProbeNonce, ts: int)
    requires Core(s) && Enabled(s, StartProbe(probe, ts))
    ensures Core(Apply(s, StartProbe(probe, ts)))
  {
    var s' := Apply(s, StartProbe(probe, ts));
    AcksFrame(s.kharej.st.sessions, s.kharej.st.sessions, s.macs, s'.macs);
    ClientFrame(s.iran.st.sessions, s.iran.st.sessions, Pending(s.iran.st), Pending(s.iran.st),
                s.iran.workers, s.iran.workers, s.used, s.used, s.macs, s'.macs);
  }

  lemma InitInv(iw: nat, kw: nat)
    ensures Inv(Init(iw, kw))
  {
  }

  /** The invariant holds in every reachable state. */
  lemma {:induction false} RunKeeps(iw: nat, kw: nat, run: seq<Action>)
    ensures Exec(Init(iw, kw), run).Some? ==> Inv(Exec(Init(iw, kw), run).value)
  {
    if run == [] {
      InitInv(iw, kw);
    } else {
      RunKeeps(iw, kw, run[..|run| - 1]);
      var before := Exec(Init(iw, kw), run[..|run| - 1]);
      if before.Some? && Enabled(before.value, run[|run| - 1]) {
        StepKeeps(before.value, run[|run| - 1]);
      }
    }
  }

  lemma ReachableInv(iw: nat, kw: nat, s: System)
    requires Reachable(iw, kw, s)
    ensures Inv(s)
  {
    var run :| Exec(Init(iw, kw), run) == Some(s);
    RunKeeps(iw, kw, run);
  }
}
