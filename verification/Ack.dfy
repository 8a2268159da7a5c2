// Delivery confirmation of one session: the confirmed position and the
// sequences delivered but not yet confirmed.
module Ack {
  import opened Types

  datatype AckState = AckState(owner: SessionID, acked: int, pending: set<int>, epoch: nat) {
    function Record(n: int, delivered: bool): AckState {
      this.(pending := if delivered then pending + {n} else pending - {n})
    }

    function Confirm(n: int): AckState {
      this.(pending := pending - {n}, acked := if n > acked then n else acked)
    }

    function Reset(): AckState {
      this.(acked := 0, pending := {}, epoch := epoch + 1)
    }

    predicate Covered(n: int) {
      n <= acked
    }

    predicate IsPending(n: int) {
      n in pending
    }
  }

  function Fresh(owner: SessionID): AckState {
    AckState(owner, 0, {}, 0)
  }

  class Tracker {
    var owner: SessionID
    var acked: int
    var pending: set<int>
    var epoch: nat

    ghost function State(): AckState
      reads this
    {
      AckState(owner, acked, pending, epoch)
    }

    constructor (owner: SessionID)
      ensures State() == Fresh(owner)
    {
      this.owner := owner;
      acked, pending, epoch := 0, {}, 0;
    }

    method Record(n: int, delivered: bool)
      modifies this
      ensures State() == old(State()).Record(n, delivered)
    {
      if delivered {
        pending := pending + {n};
        return;
      }
      pending := pending - {n};
    }

    method Confirm(n: int)
      modifies this
      ensures State() == old(State()).Confirm(n)
    {
      pending := pending - {n};
      if n > acked {
        acked := n;
      }
    }

    method Reset()
      modifies this
      ensures State() == old(State()).Reset()
    {
      acked := 0;
      pending := {};
      epoch := epoch + 1;
    }
  }

  // ---- What the two fields mean, over every history of calls.

  datatype Call = Record(n: int, delivered: bool) | Confirm(n: int) | Reset

  function Step(s: AckState, c: Call): AckState {
    match c
    case Record(n, delivered) => s.Record(n, delivered)
    case Confirm(n) => s.Confirm(n)
    case Reset => s.Reset()
  }

  function After(s: AckState, calls: seq<Call>): AckState {
    if calls == [] then s else Step(After(s, calls[..|calls| - 1]), calls[|calls| - 1])
  }

  // Call i belongs to the tracker's last incarnation.
  ghost predicate SinceReset(calls: seq<Call>, i: int) {
    0 <= i < |calls| && forall j | i <= j < |calls| :: !calls[j].Reset?
  }

  ghost predicate Confirmed(calls: seq<Call>, n: int) {
    exists i :: SinceReset(calls, i) && calls[i] == Confirm(n)
  }

  // The last call about n since the last reset recorded it as delivered.
  ghost predicate LastRecorded(calls: seq<Call>, n: int) {
    exists i ::
      && SinceReset(calls, i)
      && calls[i] == Record(n, true)
      && forall j | i < j < |calls| :: calls[j].n != n
  }

  // The acked position is the greatest confirmed sequence (0 if there is none
  // above 0), and a sequence is pending iff its delivery is the last thing the
  // tracker heard of it; both count from the last reset.
  lemma {:induction false} TrackerMeaning(owner: SessionID, calls: seq<Call>)
    ensures var s := After(Fresh(owner), calls);
            && (s.acked == 0 || Confirmed(calls, s.acked))
            && s.acked >= 0
            && (forall n | Confirmed(calls, n) :: n <= s.acked)
            && (forall n :: n in s.pending <==> LastRecorded(calls, n))
    decreases |calls|
  {
    if calls != [] {
      var last := |calls| - 1;
      var init := calls[..last];
      TrackerMeaning(owner, init);
      HistoryStep(init, calls[last]);
      assert init + [calls[last]] == calls;
    }
  }

  lemma HistoryStep(init: seq<Call>, c: Call)
    ensures forall n :: Confirmed(init + [c], n) <==> c == Confirm(n) || (!c.Reset? && Confirmed(init, n))
    ensures forall n :: LastRecorded(init + [c], n) <==>
                        c == Record(n, true) || (!c.Reset? && c.n != n && LastRecorded(init, n))
  {
    var calls := init + [c];
    assert calls[|init|] == c;
    forall i: int
      ensures SinceReset(calls, i) <==> (i == |init| && !c.Reset?) || (SinceReset(init, i) && !c.Reset?)
    {
      if SinceReset(init, i) && !c.Reset? {
        assert forall j | i <= j < |calls| :: j < |init| ==> calls[j] == init[j];
      }
      if SinceReset(calls, i) && i < |init| {
        assert forall j | i <= j < |init| :: calls[j] == init[j];
      }
    }
    forall n
      ensures Confirmed(calls, n) <==> c == Confirm(n) || (!c.Reset? && Confirmed(init, n))
    {
      if c == Confirm(n) {
        assert SinceReset(calls, |init|);
      }
      if !c.Reset? && Confirmed(init, n) {
        var i :| SinceReset(init, i) && init[i] == Confirm(n);
        assert SinceReset(calls, i) && calls[i] == Confirm(n);
      }
    }
    forall n
      ensures LastRecorded(calls, n) <==> c == Record(n, true) || (!c.Reset? && c.n != n && LastRecorded(init, n))
    {
      if c == Record(n, true) {
        assert SinceReset(calls, |init|) && calls[|init|] == Record(n, true);
      }
      if !c.Reset? && c.n != n && LastRecorded(init, n) {
        var i :| SinceReset(init, i) && init[i] == Record(n, true) && forall j | i < j < |init| :: init[j].n != n;
        assert SinceReset(calls, i) && calls[i] == Record(n, true);
        assert forall j | i < j < |calls| :: calls[j].n != n;
      }
      if LastRecorded(calls, n) && c != Record(n, true) {
        var i :| SinceReset(calls, i) && calls[i] == Record(n, true) && forall j | i < j < |calls| :: calls[j].n != n;
        assert calls[|init|] == c && i < |init|;
        assert forall j | i < j < |init| :: init[j] == calls[j];
        assert SinceReset(init, i) && init[i] == Record(n, true);
      }
    }
  }

  // ---- The documented contiguous position.

  // Everything up to the acked position has been confirmed.
  ghost predicate Contiguous(s: AckState, confirmed: set<int>) {
    forall n | 0 < n <= s.acked :: n in confirmed
  }

  // Confirm keeps the greatest sequence, not the contiguous prefix its comment
  // promises.  From a contiguous position the promise survives a call exactly
  // when the confirmed sequence leaves no gap behind it.
  lemma ContiguousIffNoGap(s: AckState, confirmed: set<int>, n: int)
    requires s.acked >= 0 && Contiguous(s, confirmed)
    requires forall m | m in confirmed :: m <= s.acked
    ensures Contiguous(s.Confirm(n), confirmed + {n}) <==> n <= s.acked + 1
  {
    if n > s.acked + 1 {
      assert s.acked + 1 !in confirmed + {n} && 0 < s.acked + 1 <= s.Confirm(n).acked;
    }
  }

  // Confirming 3 first covers 1 and 2, which the client never confirmed.
  lemma GapIsCovered(owner: SessionID)
    ensures var s := After(Fresh(owner), [Record(1, true), Record(2, true), Record(3, true), Confirm(3)]);
            s.Covered(1) && s.IsPending(1) && !Contiguous(s, {3})
  {
    var calls := [Record(1, true), Record(2, true), Record(3, true), Confirm(3)];
    var s0 := Fresh(owner);
    assert calls[..3] == [Record(1, true), Record(2, true), Record(3, true)];
    assert calls[..3][..2] == [Record(1, true), Record(2, true)];
    assert calls[..3][..2][..1] == [Record(1, true)];
    assert After(s0, [Record(1, true)]) == s0.Record(1, true);
    assert After(s0, calls[..3][..2]) == s0.Record(1, true).Record(2, true);
    assert After(s0, calls[..3]) == s0.Record(1, true).Record(2, true).Record(3, true);
    var s := After(s0, calls);
    assert s == s0.Record(1, true).Record(2, true).Record(3, true).Confirm(3);
    assert 0 < 1 <= s.acked && 1 !in {3};
  }
}
