/** The 64-packet replay window of crypto.go: a bitmap that slides with the highest
    accepted counter, refined to the set of every counter accepted so far. */
module Replay {
  import opened Words

  const WINDOW: nat := 64

  /** The window without a bitmap: `c` is admitted when it is not zero, was never
      admitted before, and no admitted counter is 64 or more ahead of it. */
  predicate Admits(accepted: set<nat>, c: nat)
  {
    c > 0 && c !in accepted && forall a :: a in accepted ==> a < c + WINDOW
  }

  class ReplayWindow {
    var highest: uint64
    var bitmap: uint64
    ghost var accepted: set<nat>

    /** Bit i of the bitmap is set exactly when `highest - i` was accepted, and
        `highest` is the greatest accepted counter. */
    ghost predicate Valid()
      reads this
    {
      && 0 !in accepted
      && (forall a :: a in accepted ==> a <= highest)
      && (highest > 0 ==> highest in accepted)
      && (forall i: nat :: i < WINDOW ==> (Bit(bitmap, i) <==> i < highest && highest - i in accepted))
    }

    constructor ()
      ensures Valid() && accepted == {}
      ensures highest == 0 && bitmap == 0
    {
      highest, bitmap, accepted := 0, 0, {};
      new;
      forall i: nat { ZeroHasNoBit(i); }
    }

    method Accept(counter: uint64) returns (ok: bool)
      requires Valid()
      modifies this
      ensures Valid()
      ensures ok <==> Admits(old(accepted), counter)
      ensures ok <==> counter > 0 && counter !in old(accepted) && counter + WINDOW > old(highest)
      ensures accepted == old(accepted) + (if ok then {counter as nat} else {})
      ensures highest == if ok && counter > old(highest) then counter else old(highest)
    {
      if counter == 0 {
        return false;
      }
      if highest == 0 {
        highest := counter;
        bitmap := 1;
        accepted := accepted + {counter};
        forall i: nat { OneBit(i); }
        return true;
      }
      if counter > highest {
        var shift := counter - highest;
        if shift >= 64 {
          bitmap := 1;
          forall i: nat { OneBit(i); }
        } else {
          SlideBits(bitmap, shift);
          bitmap := Or(Shl(bitmap, shift), 1);
        }
        highest := counter;
        accepted := accepted + {counter};
        return true;
      }
      var delta := highest - counter;
      if delta >= 64 {
        return false;
      }
      var bit := Shl(1, delta);
      TestBit(bitmap, delta);
      if And(bitmap, bit) != 0 {
        return false;
      }
      SetBits(bitmap, delta);
      bitmap := Or(bitmap, bit);
      accepted := accepted + {counter};
      return true;
    }
  }

  lemma SlideBits(b: uint64, s: nat)
    ensures Or(Shl(b, s), 1) < U64
    ensures 0 < s ==> forall i: nat :: i < WINDOW ==>
      (Bit(Or(Shl(b, s), 1), i) <==> i == 0 || (i >= s && Bit(b, i - s)))
  {
    Pow64();
    OrBound(Shl(b, s), 1, 64);
    forall i: nat | i < WINDOW
      ensures Bit(Or(Shl(b, s), 1), i) <==> i == 0 || (i >= s && Bit(b, i - s))
    {
      OrBits(Shl(b, s), 1, i);
      ShlBits(b, s, i);
      OneBit(i);
    }
  }

  lemma SetBits(b: uint64, d: nat)
    requires d < WINDOW
    ensures Or(b, Shl(1, d)) < U64
    ensures forall i: nat :: i < WINDOW ==> (Bit(Or(b, Shl(1, d)), i) <==> i == d || Bit(b, i))
  {
    Pow64();
    OrBound(b, Shl(1, d), 64);
    forall i: nat | i < WINDOW
      ensures Bit(Or(b, Shl(1, d)), i) <==> i == d || Bit(b, i)
    {
      OrBits(b, Shl(1, d), i);
      ShlBits(1, d, i);
      if i >= d { OneBit(i - d); }
    }
  }

  // ---------------------------------------------------------------------------
  // Whole arrival orders

  /** The counters accepted after the arrivals `s`. */
  function Accepted(s: seq<nat>): set<nat>
  {
    if s == [] then {} else
      var before := Accepted(s[..|s| - 1]);
      var c := s[|s| - 1];
      if Admits(before, c) then before + {c} else before
  }

  /** Whether arrival `i` is accepted. */
  predicate Decision(s: seq<nat>, i: nat)
    requires i < |s|
  {
    Admits(Accepted(s[..i]), s[i])
  }

  lemma {:induction false} AcceptedArrived(s: seq<nat>, c: nat)
    requires c in Accepted(s)
    ensures c in s && c > 0
  {
    if s != [] && c in Accepted(s[..|s| - 1]) { AcceptedArrived(s[..|s| - 1], c); }
  }

  lemma {:induction false} AcceptedGrows(s: seq<nat>, i: nat, j: nat)
    requires i <= j <= |s|
    ensures Accepted(s[..i]) <= Accepted(s[..j])
    ensures i < j && Decision(s, i) ==> s[i] in Accepted(s[..j])
    decreases j - i
  {
    if i < j {
      assert s[..i + 1][..i] == s[..i];
      AcceptedGrows(s, i + 1, j);
    }
  }

  /** No counter is accepted twice, whatever arrives in between. */
  lemma AcceptedOnce(s: seq<nat>, i: nat, j: nat)
    requires i < j < |s| && s[i] == s[j]
    ensures !(Decision(s, i) && Decision(s, j))
  {
    AcceptedGrows(s, i, j);
  }

  /** Each counter's first copy comes before any counter 64 or more ahead of it. */
  predicate WithinReorderLimit(s: seq<nat>)
  {
    && (forall i :: 0 <= i < |s| ==> s[i] > 0)
    && (forall i, j :: 0 <= i < j < |s| && s[j] !in s[..j] ==> s[i] < s[j] + WINDOW)
  }

  /** Every counter's first copy is accepted. */
  ghost predicate OriginalsAccepted(s: seq<nat>)
  {
    forall i :: 0 <= i < |s| && s[i] !in s[..i] ==> Decision(s, i)
  }

  lemma {:induction false} ArrivedAccepted(s: seq<nat>, i: nat, n: nat)
    requires i < n <= |s| && OriginalsAccepted(s)
    ensures s[i] in Accepted(s[..n])
    decreases i
  {
    if s[i] in s[..i] {
      var j :| 0 <= j < i && s[j] == s[i];
      ArrivedAccepted(s, j, n);
    } else {
      AcceptedGrows(s, i, n);
    }
  }

  /** Reorder tolerance, exactly: the originals are all accepted if and only if they
      stay within the reorder limit, however many duplicates follow them; and then
      a copy is accepted if and only if it is the first. */
  lemma ReorderTolerance(s: seq<nat>)
    ensures OriginalsAccepted(s) <==> WithinReorderLimit(s)
    ensures WithinReorderLimit(s) ==> forall i :: 0 <= i < |s| ==> (Decision(s, i) <==> s[i] !in s[..i])
  {
    if WithinReorderLimit(s) {
      forall i | 0 <= i < |s| && s[i] !in s[..i] ensures Decision(s, i) {
        FirstCopyAccepted(s, i);
      }
      forall j | 0 <= j < |s| && s[j] in s[..j] ensures !Decision(s, j) {
        var i :| 0 <= i < j && s[i] == s[j];
        ArrivedAccepted(s, i, j);
      }
    }
    if OriginalsAccepted(s) {
      forall i | 0 <= i < |s| ensures s[i] > 0 {
        ArrivedAccepted(s, i, |s|);
        AcceptedArrived(s[..|s|], s[i]);
      }
      forall i, j | 0 <= i < j < |s| && s[j] !in s[..j] ensures s[i] < s[j] + WINDOW {
        ArrivedAccepted(s, i, j);
        assert Decision(s, j);
      }
    }
  }

  lemma FirstCopyAccepted(s: seq<nat>, i: nat)
    requires i < |s| && WithinReorderLimit(s) && s[i] !in s[..i]
    ensures Decision(s, i)
  {
    forall a | a in Accepted(s[..i]) ensures a in s[..i] && a < s[i] + WINDOW {
      AcceptedArrived(s[..i], a);
      var k :| 0 <= k < i && s[k] == a;
    }
  }

  /** Arrival `i` of the order with a copy put in at `at`, in the order without it. */
  function Without(at: nat, i: nat): nat
  {
    if i > at then i - 1 else i
  }

  /** A copy of something that arrived before puts no counter ahead of its time. */
  lemma CopyWithinLimit(s: seq<nat>, at: nat, c: nat)
    requires at <= |s| && c in s[..at] && WithinReorderLimit(s)
    ensures WithinReorderLimit(s[..at] + [c] + s[at..])
  {
    var t := s[..at] + [c] + s[at..];
    forall i | 0 <= i < |t| ensures t[i] > 0 {
      if i == at { var k :| 0 <= k < at && s[k] == c; } else { assert t[i] == s[Without(at, i)]; }
    }
    assert t[..at] == s[..at];
    forall i, j | 0 <= i < j < |t| && t[j] !in t[..j] ensures t[i] < t[j] + WINDOW {
      CopyIsOriginal(s, at, c, j);
      if i == at {
        var k :| 0 <= k < at && s[k] == c;
        assert s[k] < s[Without(at, j)] + WINDOW;
      }
    }
  }

  /** The originals stay the originals. */
  lemma CopyIsOriginal(s: seq<nat>, at: nat, c: nat, j: nat)
    requires at <= |s| && c in s[..at] && j <= |s| && j != at
    ensures var t := s[..at] + [c] + s[at..];
      t[j] == s[Without(at, j)] && (t[j] in t[..j] <==> s[Without(at, j)] in s[..Without(at, j)])
  {
    var t := s[..at] + [c] + s[at..];
    if j > at {
      assert t[..j] == s[..at] + [c] + s[at..j - 1];
      assert s[..j - 1] == s[..at] + s[at..j - 1];
    } else {
      assert t[..j] == s[..j];
    }
  }

  /** Within the reorder limit a duplicate anywhere after its original changes no decision
      on any other arrival, and is itself rejected. */
  lemma DuplicateChangesNothing(s: seq<nat>, at: nat, c: nat)
    requires at <= |s| && c in s[..at] && WithinReorderLimit(s)
    ensures var t := s[..at] + [c] + s[at..];
      && !Decision(t, at)
      && forall j :: 0 <= j < |t| && j != at ==> (Decision(t, j) <==> Decision(s, Without(at, j)))
  {
    var t := s[..at] + [c] + s[at..];
    CopyWithinLimit(s, at, c);
    ReorderTolerance(s);
    ReorderTolerance(t);
    assert t[at] == c && t[..at] == s[..at];
    forall j | 0 <= j < |t| && j != at ensures Decision(t, j) <==> Decision(s, Without(at, j)) {
      CopyIsOriginal(s, at, c, j);
    }
  }
}
