/** The counters are what happened: each equals, modulo 2^64, the tally of a host's events
    over the run, and a session's lastSeen is the time of its last delivery. */
module Ledger {
  import opened Words
  import opened Messages
  import opened Replay
  import opened Endpoint
  import opened Protocol

  /** Packets, bytes and failures, without wrap-around. */
  datatype Tally = Tally(
    dataTx: nat, controlTx: nat, dataTxBytes: nat, controlTxBytes: nat, sendErrors: nat,
    dataRx: nat, controlRx: nat, dataRxBytes: nat, controlRxBytes: nat, decryptErrors: nat, replayDrops: nat)

  const NOTHING := Tally(0, 0, 0, 0, 0, 0, 0, 0, 0, 0, 0)

  function WithSent(t: Tally, kind: Kind, len: nat, ok: bool): Tally
  {
    if !ok then t.(sendErrors := t.sendErrors + 1)
    else if kind == Data then t.(dataTx := t.dataTx + 1, dataTxBytes := t.dataTxBytes + len)
    else t.(controlTx := t.controlTx + 1, controlTxBytes := t.controlTxBytes + len)
  }

  function WithReceived(t: Tally, kind: Kind, len: nat): Tally
  {
    if kind == Data then t.(dataRx := t.dataRx + 1, dataRxBytes := t.dataRxBytes + len)
    else t.(controlRx := t.controlRx + 1, controlRxBytes := t.controlRxBytes + len)
  }

  /** What step `a` enters into the books of host `r`. */
  function Entry(s: System, a: Action, r: Role, t: Tally): Tally
    requires Enabled(s, a)
  {
    match a
    case Send(q, _, kind, plain, ok) => if q == r then WithSent(t, kind, |plain|, ok) else t
    case Respond(_, _, probe, _, _, ok) => if r == Iran then WithSent(t, DirectProbeAck, |probe|, ok) else t
    case OpenBox(q, w) =>
      var x := s.Of(q).workers[w];
      if q == r && Open(s.Of(q).st.sessions[x.sid].rx, x.kind, x.counter, x.box).None?
      then t.(decryptErrors := t.decryptErrors + 1) else t
    case CheckReplay(q, w) =>
      var x := s.Of(q).workers[w];
      if q == r && !Admits(s.Of(q).st.sessions[x.sid].accepted, x.counter)
      then t.(replayDrops := t.replayDrops + 1) else t
    case DeliverPlain(q, w, _) =>
      var x := s.Of(q).workers[w];
      if q == r then WithReceived(t, x.kind, |x.plain|) else t
    case _ => t
  }

  function TallyOf(s: System, run: seq<Action>, r: Role): Tally
    requires Exec(s, run).Some?
  {
    if run == [] then NOTHING else
      var front, a := run[..|run| - 1], run[|run| - 1];
      Entry(Exec(s, front).value, a, r, TallyOf(s, front, r))
  }

  /** The tally as 64-bit counters. */
  function Wrapped(t: Tally): Metrics
  {
    Metrics(
      WireCounter(t.dataTxBytes), WireCounter(t.dataRxBytes), WireCounter(t.dataTx), WireCounter(t.dataRx),
      WireCounter(t.controlTxBytes), WireCounter(t.controlRxBytes), WireCounter(t.controlTx),
      WireCounter(t.controlRx), WireCounter(t.sendErrors), WireCounter(t.decryptErrors), WireCounter(t.replayDrops))
  }

  lemma AddWraps(x: nat, l: nat)
    ensures Add(WireCounter(x), l % U64) == WireCounter(x + l)
  {
  }

  lemma CountOne(x: nat)
    ensures Add(WireCounter(x), 1) == WireCounter(x + 1)
  {
    AddWraps(x, 1);
  }

  lemma SentCounts(t: Tally, kind: Kind, plain: Bytes, ok: bool)
    ensures CountTx(Wrapped(t), kind, Len(plain), ok) == Wrapped(WithSent(t, kind, |plain|, ok))
  {
    if !ok {
      CountOne(t.sendErrors);
    } else if kind.Data? {
      CountOne(t.dataTx);
      AddWraps(t.dataTxBytes, |plain|);
    } else {
      CountOne(t.controlTx);
      AddWraps(t.controlTxBytes, |plain|);
    }
  }

  lemma ReceivedCounts(t: Tally, kind: Kind, plain: Bytes)
    ensures CountRx(Wrapped(t), kind, Len(plain)) == Wrapped(WithReceived(t, kind, |plain|))
  {
    if kind.Data? {
      CountOne(t.dataRx);
      AddWraps(t.dataRxBytes, |plain|);
    } else {
      CountOne(t.controlRx);
      AddWraps(t.controlRxBytes, |plain|);
    }
  }

  /** The metrics of host `r` after the step, from those before. */
  lemma StepMetrics(s: System, a: Action, r: Role)
    requires Enabled(s, a)
    ensures var m, m' := s.Of(r).st.metrics, Apply(s, a).Of(r).st.metrics;
      match a
      case Send(q, _, kind, plain, ok) => m' == if q == r then CountTx(m, kind, Len(plain), ok) else m
      case Respond(_, _, probe, _, _, ok) => m' == if r == Iran then CountTx(m, DirectProbeAck, Len(probe), ok) else m
      case OpenBox(q, w) =>
        var x := s.Of(q).workers[w];
        m' == if q == r && Open(s.Of(q).st.sessions[x.sid].rx, x.kind, x.counter, x.box).None?
              then m.(decryptErrors := Add(m.decryptErrors, 1)) else m
      case CheckReplay(q, w) =>
        var x := s.Of(q).workers[w];
        m' == if q == r && !Admits(s.Of(q).st.sessions[x.sid].accepted, x.counter)
              then m.(replayDrops := Add(m.replayDrops, 1)) else m
      case DeliverPlain(q, w, _) =>
        var x := s.Of(q).workers[w];
        m' == if q == r then CountRx(m, x.kind, Len(x.plain)) else m
      case _ => m' == m
  {
  }

  lemma StepEnters(s: System, a: Action, r: Role, t: Tally)
    requires Enabled(s, a) && s.Of(r).st.metrics == Wrapped(t)
    ensures Apply(s, a).Of(r).st.metrics == Wrapped(Entry(s, a, r, t))
  {
    StepMetrics(s, a, r);
    match a {
      case Send(_, _, kind, plain, ok) => SentCounts(t, kind, plain, ok);
      case Respond(_, _, probe, _, _, ok) => SentCounts(t, DirectProbeAck, probe, ok);
      case OpenBox(_, _) => DropsCount(t);
      case CheckReplay(_, _) => DropsCount(t);
      case DeliverPlain(q, w, _) => ReceivedCounts(t, s.Of(q).workers[w].kind, s.Of(q).workers[w].plain);
      case _ =>
    }
  }

  lemma DropsCount(t: Tally)
    ensures var m := Wrapped(t);
      && m.(decryptErrors := Add(m.decryptErrors, 1)) == Wrapped(t.(decryptErrors := t.decryptErrors + 1))
      && m.(replayDrops := Add(m.replayDrops, 1)) == Wrapped(t.(replayDrops := t.replayDrops + 1))
  {
    CountOne(t.decryptErrors);
    CountOne(t.replayDrops);
  }

  /** Over every run all eleven counters of both hosts are the tally of what happened. */
  lemma {:induction false} CountersAreTally(iw: nat, kw: nat, run: seq<Action>, r: Role)
    requires Exec(Init(iw, kw), run).Some?
    ensures Exec(Init(iw, kw), run).value.Of(r).st.metrics == Wrapped(TallyOf(Init(iw, kw), run, r))
  {
    if run != [] {
      var front, a := run[..|run| - 1], run[|run| - 1];
      CountersAreTally(iw, kw, front, r);
      StepEnters(Exec(Init(iw, kw), front).value, a, r, TallyOf(Init(iw, kw), front, r));
    }
  }

  // ---------------------------------------------------------------------------
  // When a session was last heard of

  /** The time that step `a` gives session `sid` of host `r`, if it makes it or delivers in it. */
  function HeardAt(s: System, a: Action, r: Role, sid: nat): Option<int>
    requires Enabled(s, a)
  {
    match a
    case DeliverPlain(q, w, now) => if q == r && s.Of(q).workers[w].sid == sid then Some(now) else None
    case TakeHello(_, _, _, _, _, _, now, _) => if r == Kharej && sid == |s.kharej.st.sessions| then Some(now) else None
    case StoreAck(_, now) => if r == Iran && sid == |s.iran.st.sessions| then Some(now) else None
    case _ => None
  }

  function LastHeard(s: System, run: seq<Action>, r: Role, sid: nat): Option<int>
    requires Exec(s, run).Some?
  {
    if run == [] then None else
      var front, a := run[..|run| - 1], run[|run| - 1];
      var now := HeardAt(Exec(s, front).value, a, r, sid);
      if now.Some? then now else LastHeard(s, front, r, sid)
  }

  /** Session `sid` was touched at that time, or it was there and was not. */
  predicate Touched(xs: seq<SessionState>, ys: seq<SessionState>, sid: nat, now: Option<int>)
    requires sid < |ys|
  {
    match now
    case Some(at) => ys[sid].lastSeen == at
    case None => sid < |xs| && ys[sid].lastSeen == xs[sid].lastSeen
  }

  predicate IsTraffic(a: Action)
  {
    a.TakeEncrypted? || a.OpenBox? || a.CheckReplay? || a.DeliverPlain?
  }

  lemma TrafficTouches(s: System, a: Action, r: Role, sid: nat)
    requires Enabled(s, a) && IsTraffic(a) && sid < |Apply(s, a).Of(r).st.sessions|
    ensures Touched(s.Of(r).st.sessions, Apply(s, a).Of(r).st.sessions, sid, HeardAt(s, a, r, sid))
  {
  }

  lemma SendTouches(s: System, a: Action, r: Role, sid: nat)
    requires Enabled(s, a) && (a.Send? || a.Respond?) && sid < |Apply(s, a).Of(r).st.sessions|
    ensures Touched(s.Of(r).st.sessions, Apply(s, a).Of(r).st.sessions, sid, HeardAt(s, a, r, sid))
  {
  }

  lemma StepTouches(s: System, a: Action, r: Role, sid: nat)
    requires Enabled(s, a) && sid < |Apply(s, a).Of(r).st.sessions|
    ensures Touched(s.Of(r).st.sessions, Apply(s, a).Of(r).st.sessions, sid, HeardAt(s, a, r, sid))
  {
    if IsTraffic(a) { TrafficTouches(s, a, r, sid); } else if a.Send? || a.Respond? { SendTouches(s, a, r, sid); }
  }

  /** Over every run a session's lastSeen is the time of the last delivery in it, or of its
      making: sends, drops and rejected datagrams do not keep it alive. */
  lemma {:induction false} LastSeenIsLastHeard(iw: nat, kw: nat, run: seq<Action>, r: Role, sid: nat)
    requires Exec(Init(iw, kw), run).Some? && sid < |Exec(Init(iw, kw), run).value.Of(r).st.sessions|
    ensures LastHeard(Init(iw, kw), run, r, sid) == Some(Exec(Init(iw, kw), run).value.Of(r).st.sessions[sid].lastSeen)
  {
    if run != [] {
      var front, a := run[..|run| - 1], run[|run| - 1];
      var s := Exec(Init(iw, kw), front).value;
      StepTouches(s, a, r, sid);
      if HeardAt(s, a, r, sid).None? { LastSeenIsLastHeard(iw, kw, front, r, sid); }
    }
  }
}
