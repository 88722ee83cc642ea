/** The server's hello table covers the freshness window: a replayed hello re-sends the
    recorded ack instead of opening a second session. handleHello reads the clock twice
    (for the skew and, under the lock, for the records); `lag` bounds the time between. */
module HelloDedup {
  import opened Messages
  import opened Endpoint

  datatype Arrival = Arrival(peer: Peer, ts: int, cn: Nonce, tag: Tag, clock: int, now: int, sn: Nonce)

  function Handle(st: State, a: Arrival): State
  {
    HandleHello(st, a.peer, a.ts, a.cn, a.tag, a.clock, a.now, a.sn).0
  }

  predicate Creates(st: State, a: Arrival)
  {
    |Handle(st, a).sessions| > |st.sessions|
  }

  function Run(st: State, arrivals: seq<Arrival>): State
  {
    if arrivals == [] then st else Handle(Run(st, arrivals[..|arrivals| - 1]), arrivals[|arrivals| - 1])
  }

  /** The server clock is monotone: within a handler, and from one holder of the lock to
      the next. Handlers of several workers may overlap before they take the lock. */
  predicate Timed(arrivals: seq<Arrival>, lag: nat)
  {
    && (forall i :: 0 <= i < |arrivals| ==> arrivals[i].clock <= arrivals[i].now <= arrivals[i].clock + lag)
    && (forall i, j :: 0 <= i < j < |arrivals| ==> arrivals[i].now <= arrivals[j].now)
  }

  predicate Recorded(st: State, cn: Nonce, expires: int)
  {
    cn in st.hellos && st.hellos[cn].expires == expires
  }

  lemma CreatedIsRecorded(st: State, a: Arrival)
    requires Creates(st, a)
    ensures Recorded(Handle(st, a), a.cn, a.now + 120 * SECOND)
    ensures Timely(a.clock, a.ts)
  {
  }

  /** A record that is not due stays, whatever hello arrives. */
  lemma RecordStays(st: State, a: Arrival, cn: Nonce, expires: int)
    requires Recorded(st, cn, expires) && a.now <= expires
    ensures Recorded(Handle(st, a), cn, expires)
  {
  }

  lemma {:induction false} RecordStaysAlong(st: State, arrivals: seq<Arrival>, cn: Nonce, expires: int)
    requires Recorded(st, cn, expires) && forall i :: 0 <= i < |arrivals| ==> arrivals[i].now <= expires
    ensures Recorded(Run(st, arrivals), cn, expires)
  {
    if arrivals != [] {
      var front := arrivals[..|arrivals| - 1];
      RecordStaysAlong(st, front, cn, expires);
      RecordStays(Run(st, front), arrivals[|arrivals| - 1], cn, expires);
    }
  }

  /** The copy is still timely when the record may already be gone. */
  predicate Exposed(first: Arrival, lag: nat)
  {
    first.now + 30 * SECOND < first.ts + lag
  }

  ghost predicate SecondSession(st: State, first: Arrival, between: seq<Arrival>, copy: Arrival, lag: nat)
  {
    && Timed([first] + between + [copy], lag)
    && copy.ts == first.ts && copy.cn == first.cn && copy.tag == first.tag
    && Creates(Run(Handle(st, first), between), copy)
  }

  lemma NoSecondSession(st: State, first: Arrival, between: seq<Arrival>, copy: Arrival, lag: nat)
    requires Creates(st, first) && !Exposed(first, lag)
    ensures !SecondSession(st, first, between, copy, lag)
  {
    if SecondSession(st, first, between, copy, lag) {
      var all, n := [first] + between + [copy], |between| + 1;
      CreatedIsRecorded(st, first);
      CreatedIsRecorded(Run(Handle(st, first), between), copy);
      var expires := first.now + 120 * SECOND;
      assert all[0] == first && all[n] == copy;
      forall i | 0 <= i < |between| ensures between[i].now <= expires {
        assert all[i + 1] == between[i];
        assert all[i + 1].now <= all[n].now;
      }
      RecordStaysAlong(Handle(st, first), between, first.cn, expires);
    }
  }

  /** ... whatever random value the server draws for it. */
  lemma AnExposedHelloRepeats(st: State, first: Arrival, lag: nat, sn: Nonce) returns (copy: Arrival)
    requires Creates(st, first) && Exposed(first, lag)
    requires first.clock <= first.now <= first.clock + lag
    ensures SecondSession(st, first, [], copy, lag) && copy.sn == sn
  {
    copy := first.(clock := first.ts + 90 * SECOND, now := first.ts + 90 * SECOND + lag, sn := sn);
    assert Timed([first] + [] + [copy], lag);
    CreatedIsRecorded(st, first);
    assert first.cn !in Purge(Handle(st, first).hellos, copy.now);
  }

  /** Exactly when the record covers the window, however many workers handle hellos: a hello
      first accepted at t opens no second session, over any later run, if and only if its
      timestamp is at most t + 30 seconds - lag. With a single clock reading lag is 0. */
  lemma DedupCoversWindow(st: State, first: Arrival, lag: nat)
    requires Creates(st, first) && first.clock <= first.now <= first.clock + lag
    ensures (exists between, copy :: SecondSession(st, first, between, copy, lag)) <==> Exposed(first, lag)
    ensures lag == 0 ==> (Exposed(first, lag) <==> first.ts > first.now + 30 * SECOND)
  {
    if Exposed(first, lag) {
      var copy := AnExposedHelloRepeats(st, first, lag, first.sn + 1);
    } else {
      forall between, copy ensures !SecondSession(st, first, between, copy, lag) {
        NoSecondSession(st, first, between, copy, lag);
      }
    }
  }
}
