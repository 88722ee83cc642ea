/** Non-interference in the whole system: datagrams that fail their MAC or tag can be
    deleted from any run, however the workers of both hosts interleave. */
module NonInterference {
  import opened Words
  import opened Messages
  import opened Replay
  import opened Endpoint
  import opened Protocol

  /** The worker holds a datagram that will not open. */
  predicate Doomed(xs: seq<SessionState>, x: Worker)
  {
    x.Loaded? && x.sid < |xs| && Open(xs[x.sid].rx, x.kind, x.counter, x.box).None?
  }

  /** The step takes a datagram that fails verification, or finds that it does. */
  predicate Rejected(s: System, a: Action)
  {
    match a
    case TakeHello(_, _, ts, cn, tag, _, _, _) => tag != Mac(HelloInput(ts, cn))
    case TakeAck(_, _, cn, sn, tag) => tag != Mac(AckInput(cn, sn))
    case TakeEncrypted(r, _, peer, kind, counter, box) =>
      var g := Gate(s.Of(r).st, peer);
      g.Some? && Open(s.Of(r).st.sessions[g.value].rx, kind, counter, box).None?
    case OpenBox(r, w) => w < |s.Of(r).workers| && Doomed(s.Of(r).st.sessions, s.Of(r).workers[w])
    case _ => false
  }

  /** Host `g` is host `h` without its doomed datagrams. */
  ghost predicate Cleared(h: Host, g: Host)
  {
    && g.st == h.st.(metrics := h.st.metrics.(decryptErrors := g.st.metrics.decryptErrors))
    && g.installed == h.installed && g.sends == h.sends
    && WorkersCleared(h.st.sessions, h.workers, g.workers)
  }

  ghost predicate WorkersCleared(xs: seq<SessionState>, hs: seq<Worker>, gs: seq<Worker>)
  {
    && |gs| == |hs|
    && (forall w :: 0 <= w < |hs| ==> gs[w] == if Doomed(xs, hs[w]) then Idle else hs[w])
    && (forall w :: 0 <= w < |hs| ==> Placed(xs, hs[w]))
  }

  predicate Placed(xs: seq<SessionState>, x: Worker)
  {
    x.Loaded? ==> x.sid < |xs|
  }

  ghost predicate Alike(s: System, t: System)
  {
    && Cleared(s.iran, t.iran) && Cleared(s.kharej, t.kharej)
    && t.used == s.used && t.macs == s.macs && t.seals == s.seals && t.boxes == s.boxes
    && t.probes == s.probes && t.responses == s.responses && t.round == s.round && t.results == s.results
  }

  // ---------------------------------------------------------------------------

  lemma AlikeOf(s: System, t: System, r: Role)
    requires Alike(s, t)
    ensures Cleared(s.Of(r), t.Of(r))
  {
  }

  lemma AlikeWith(s: System, t: System, r: Role, h: Host, g: Host)
    requires Alike(s, t) && Cleared(h, g)
    ensures Alike(s.With(r, h), t.With(r, g))
  {
  }

  /** Sessions may be added and updated, as long as receive keys stay. */
  predicate SameKeys(xs: seq<SessionState>, ys: seq<SessionState>)
  {
    |xs| <= |ys| && forall i :: 0 <= i < |xs| ==> ys[i].rx == xs[i].rx
  }

  lemma ClearedSet(xs: seq<SessionState>, ys: seq<SessionState>, hs: seq<Worker>, gs: seq<Worker>, w: nat, x: Worker,
      y: Worker)
    requires WorkersCleared(xs, hs, gs) && SameKeys(xs, ys) && w < |hs| && Placed(ys, x)
      && y == if Doomed(ys, x) then Idle else x
    ensures WorkersCleared(ys, hs[w := x], gs[w := y])
  {
    forall v | 0 <= v < |hs| && v != w ensures Doomed(ys, hs[v]) == Doomed(xs, hs[v]) && Placed(ys, hs[v]) {
      assert Placed(xs, hs[v]);
    }
  }

  lemma ClearedStays(xs: seq<SessionState>, ys: seq<SessionState>, hs: seq<Worker>, gs: seq<Worker>)
    requires WorkersCleared(xs, hs, gs) && SameKeys(xs, ys)
    ensures WorkersCleared(ys, hs, gs)
  {
    forall v | 0 <= v < |hs| ensures Doomed(ys, hs[v]) == Doomed(xs, hs[v]) && Placed(ys, hs[v]) {
      assert Placed(xs, hs[v]);
    }
  }

  /** A rejected datagram changes nothing that is left when it is deleted. */
  lemma RejectedIsSilent(s: System, t: System, a: Action)
    requires Alike(s, t) && Enabled(s, a) && Rejected(s, a)
    ensures Alike(Apply(s, a), t)
  {
    match a {
      case TakeEncrypted(r, w, peer, kind, counter, box) => TakeSilent(s, t, r, w, peer, kind, counter, box);
      case OpenBox(r, w) => OpenSilent(s, t, r, w);
      case _ =>
    }
  }

  lemma TakeSilent(s: System, t: System, r: Role, w: nat, peer: Peer, kind: Kind, counter: uint64, box: Box)
    requires var a := TakeEncrypted(r, w, peer, kind, counter, box); Alike(s, t) && Enabled(s, a) && Rejected(s, a)
    ensures Alike(Apply(s, TakeEncrypted(r, w, peer, kind, counter, box)), t)
  {
    var h, g := s.Of(r), t.Of(r);
    AlikeOf(s, t, r);
    var x := Loaded(Gate(h.st, peer).value, kind, counter, box);
    ClearedSet(h.st.sessions, h.st.sessions, h.workers, g.workers, w, x, Idle);
    assert g.workers[w := Idle] == g.workers;
  }

  lemma OpenSilent(s: System, t: System, r: Role, w: nat)
    requires Alike(s, t) && Enabled(s, OpenBox(r, w)) && Rejected(s, OpenBox(r, w))
    ensures Alike(Apply(s, OpenBox(r, w)), t)
  {
    var h, g := s.Of(r), t.Of(r);
    AlikeOf(s, t, r);
    ClearedSet(h.st.sessions, h.st.sessions, h.workers, g.workers, w, Idle, Idle);
    assert g.workers[w := Idle] == g.workers;
  }

  // ---------------------------------------------------------------------------
  // A genuine step can be taken without the rejected ones, to the same effect

  ghost predicate Matched(s: System, t: System, a: Action)
    requires Enabled(s, a)
  {
    Enabled(t, a) && Alike(Apply(s, a), Apply(t, a))
  }

  lemma TakeMatched(s: System, t: System, a: Action)
    requires Alike(s, t) && Enabled(s, a) && !Rejected(s, a) && a.TakeEncrypted?
    ensures Matched(s, t, a)
  {
    var h, g := s.Of(a.role), t.Of(a.role);
    AlikeOf(s, t, a.role);
    var gate := Gate(h.st, a.peer);
    assert gate == Gate(g.st, a.peer);
    if gate.Some? {
      var x := Loaded(gate.value, a.kind, a.counter, a.box);
      ClearedSet(h.st.sessions, h.st.sessions, h.workers, g.workers, a.w, x, x);
    }
  }

  lemma OpenMatched(s: System, t: System, a: Action)
    requires Alike(s, t) && Enabled(s, a) && !Rejected(s, a) && a.OpenBox?
    ensures Matched(s, t, a)
  {
    var h, g := s.Of(a.role), t.Of(a.role);
    AlikeOf(s, t, a.role);
    var x' := Apply(s, a).Of(a.role).workers[a.w];
    ClearedSet(h.st.sessions, h.st.sessions, h.workers, g.workers, a.w, x', x');
  }

  /** What a host becomes when worker `w` checks its counter. */
  function Checked(h: Host, w: nat): Host
    requires w < |h.workers| && h.workers[w].Opened? && h.workers[w].sid < |h.st.sessions|
  {
    var x := h.workers[w];
    if !Admits(h.st.sessions[x.sid].accepted, x.counter) then SetWorker(h, w, Idle).(st := CountReplayDrop(h.st))
    else SetWorker(h, w, Passed(x.sid, x.kind, x.counter, x.plain)).(st := AcceptCounter(h.st, x.sid, x.counter))
  }

  lemma CheckCleared(h: Host, g: Host, w: nat)
    requires Cleared(h, g) && w < |h.workers| && h.workers[w].Opened? && h.workers[w].sid < |h.st.sessions|
    ensures g.workers[w] == h.workers[w] && Cleared(Checked(h, w), Checked(g, w))
  {
    var h' := Checked(h, w);
    ClearedSet(h.st.sessions, h'.st.sessions, h.workers, g.workers, w, h'.workers[w], h'.workers[w]);
  }

  lemma CheckMatched(s: System, t: System, a: Action)
    requires Alike(s, t) && Enabled(s, a) && a.CheckReplay?
    ensures Matched(s, t, a)
  {
    var h, g := s.Of(a.role), t.Of(a.role);
    AlikeOf(s, t, a.role);
    CheckCleared(h, g, a.w);
    AlikeWith(s, t, a.role, Checked(h, a.w), Checked(g, a.w));
    assert Apply(s, a) == s.With(a.role, Checked(h, a.w));
    assert Apply(t, a) == t.With(a.role, Checked(g, a.w));
  }

  lemma DeliverMatched(s: System, t: System, a: Action)
    requires Alike(s, t) && Enabled(s, a) && a.DeliverPlain?
    ensures Matched(s, t, a)
  {
    var h, g := s.Of(a.role), t.Of(a.role);
    AlikeOf(s, t, a.role);
    var h' := Apply(s, a).Of(a.role);
    ClearedSet(h.st.sessions, h'.st.sessions, h.workers, g.workers, a.w, Idle, Idle);
  }

  lemma SendCleared(h: Host, g: Host, sid: nat, kind: Kind, plain: Bytes, ok: bool)
    requires Cleared(h, g) && sid < |h.st.sessions|
    ensures sid < |g.st.sessions| && Cleared(h.(st := SendEncrypted(h.st, sid, kind, plain, ok).0,
      sends := h.sends + 1),
                                             g.(st := SendEncrypted(g.st, sid, kind, plain, ok).0,
                                               sends := g.sends + 1))
  {
    ClearedStays(h.st.sessions, SendEncrypted(h.st, sid, kind, plain, ok).0.sessions, h.workers, g.workers);
  }

  lemma SendMatched(s: System, t: System, r: Role, sid: nat, kind: Kind, plain: Bytes, ok: bool)
    requires Alike(s, t) && sid < |s.Of(r).st.sessions|
    ensures sid < |t.Of(r).st.sessions| && Alike(DoSend(s, r, sid, kind, plain, ok), DoSend(t, r, sid, kind, plain, ok))
  {
    var h, g := s.Of(r), t.Of(r);
    AlikeOf(s, t, r);
    SendCleared(h, g, sid, kind, plain, ok);
    AlikeWith(s, t, r, h.(st := SendEncrypted(h.st, sid, kind, plain, ok).0, sends := h.sends + 1),
                       g.(st := SendEncrypted(g.st, sid, kind, plain, ok).0, sends := g.sends + 1));
  }

  lemma HelloMatched(s: System, t: System, a: Action)
    requires Alike(s, t) && Enabled(s, a) && !Rejected(s, a) && a.TakeHello?
    ensures Matched(s, t, a)
  {
    var h, h', g := s.kharej, DoTakeHello(s, a).kharej, t.kharej;
    ClearedSet(h.st.sessions, h'.st.sessions, h.workers, g.workers, a.w, h'.workers[a.w], h'.workers[a.w]);
    assert h.workers[a.w := Idle] == h.workers && g.workers[a.w := Idle] == g.workers;
  }

  lemma EstablishMatched(s: System, t: System, a: Action)
    requires Alike(s, t) && Enabled(s, a) && !Rejected(s, a) && (a.StoreHello? || a.TakeAck? || a.StoreAck?)
    ensures Matched(s, t, a)
  {
    var r := if a.StoreHello? then Kharej else Iran;
    var h, h', g := s.Of(r), Apply(s, a).Of(r), t.Of(r);
    ClearedSet(h.st.sessions, h'.st.sessions, h.workers, g.workers, a.w, h'.workers[a.w], h'.workers[a.w]);
    assert a.TakeAck? ==> h.workers[a.w := Idle] == h.workers && g.workers[a.w := Idle] == g.workers;
  }

  lemma QuietMatched(s: System, t: System, a: Action)
    requires Alike(s, t) && Enabled(s, a)
    requires a.StartHandshake? || a.StopHandshake? || a.Expire? || a.StartProbe? || a.AwaitAck? || a.GiveUp?
    ensures Matched(s, t, a)
  {
  }

  lemma GenuineMatched(s: System, t: System, a: Action)
    requires Alike(s, t) && Enabled(s, a) && !Rejected(s, a)
    ensures Matched(s, t, a)
  {
    match a {
      case TakeEncrypted(_, _, _, _, _, _) => TakeMatched(s, t, a);
      case OpenBox(_, _) => OpenMatched(s, t, a);
      case CheckReplay(_, _) => CheckMatched(s, t, a);
      case DeliverPlain(_, _, _) => DeliverMatched(s, t, a);
      case Send(r, sid, kind, plain, ok) => SendMatched(s, t, r, sid, kind, plain, ok);
      case Respond(sid, _, probe, _, _, ok) => SendMatched(s, t, Iran, sid, DirectProbeAck, probe, ok);
      case TakeHello(_, _, _, _, _, _, _, _) => HelloMatched(s, t, a);
      case StoreHello(_) => EstablishMatched(s, t, a);
      case TakeAck(_, _, _, _, _) => EstablishMatched(s, t, a);
      case StoreAck(_, _) => EstablishMatched(s, t, a);
      case _ => QuietMatched(s, t, a);
    }
  }

  // ---------------------------------------------------------------------------

  /** The run without the steps that handle rejected datagrams. */
  function Genuine(s: System, run: seq<Action>): seq<Action>
    requires Exec(s, run).Some?
  {
    if run == [] then [] else
      var front, a := run[..|run| - 1], run[|run| - 1];
      if Rejected(Exec(s, front).value, a) then Genuine(s, front) else Genuine(s, front) + [a]
  }

  /** Deleting from any run, with any number of workers on both hosts, all datagrams that
      fail verification gives a run to the same state: sessions, replay windows, liveness,
      hello table, pending handshake, TUN output, probe results and everything sent; only
      the count of decryption errors and the workers busy with such datagrams differ. */
  lemma {:induction false} RejectedLeaveNoTrace(iw: nat, kw: nat, run: seq<Action>)
    requires Exec(Init(iw, kw), run).Some?
    ensures var s0 := Init(iw, kw);
      Exec(s0, Genuine(s0, run)).Some? && Alike(Exec(s0, run).value, Exec(s0, Genuine(s0, run)).value)
  {
    var s0 := Init(iw, kw);
    if run != [] {
      var front, a := run[..|run| - 1], run[|run| - 1];
      RejectedLeaveNoTrace(iw, kw, front);
      var s, t := Exec(s0, front).value, Exec(s0, Genuine(s0, front)).value;
      if Rejected(s, a) {
        RejectedIsSilent(s, t, a);
      } else {
        GenuineMatched(s, t, a);
        assert (Genuine(s0, front) + [a])[..|Genuine(s0, front)|] == Genuine(s0, front);
      }
    }
  }
}
