/** Every atomic operation of the unbounded channel machine keeps the invariant. */
module ChannelPreservation {
  import opened Fields
  import opened Words
  import opened Options
  import opened Channel
  import opened ChannelInvariant

  ghost predicate Life<T, E>(s: State<T, E>) {
    Lives(s) && Closers(s) && (forall r :: r in s.reports ==> ReportOk(s, r))
  }

  // ---- handles ----

  lemma AddTxKeeps<T, E>(s: State<T, E>, cap: nat, h: nat, n: nat, t: State<T, E>)
    requires Inv(s, cap) && StepHandle(s, AddTx(h, n)) == Some(t)
    ensures Inv(t, cap)
  {
    HandlesOfPermits(s, cap);
    FrameQueue(s, cap, t);
  }

  lemma DropTxLife<T, E>(s: State<T, E>, h: nat, t: State<T, E>)
    requires Life(s) && StepHandle(s, DropTx(h)) == Some(t)
    ensures Life(t)
  {
    assert t.handles + {h} == s.handles;
    forall r | r in s.reports ensures ReportOk(t, r) {
      assert ReportOk(s, r);
    }
  }

  lemma DropTxKeeps<T, E>(s: State<T, E>, cap: nat, h: nat, t: State<T, E>)
    requires Inv(s, cap) && StepHandle(s, DropTx(h)) == Some(t)
    ensures Inv(t, cap)
  {
    HandlesOfPermits(s, cap);
    FrameQueue(s, cap, t);
    DropTxLife(s, h, t);
  }

  lemma DropFenceLife<T, E>(s: State<T, E>, t: State<T, E>)
    requires Life(s) && StepHandle(s, DropFence) == Some(t)
    ensures Life(t)
  {
  }

  lemma DropFenceKeeps<T, E>(s: State<T, E>, cap: nat, t: State<T, E>)
    requires Inv(s, cap) && StepHandle(s, DropFence) == Some(t)
    ensures Inv(t, cap)
  {
    DropFenceLife(s, t);
    HandlesOfPermits(s, cap);
    FrameQueue(s, cap, t);
  }

  lemma DropCloseLife<T, E>(s: State<T, E>, t: State<T, E>)
    requires Life(s) && StepHandle(s, DropClose) == Some(t)
    ensures Life(t)
  {
  }

  lemma DropCloseKeeps<T, E>(s: State<T, E>, cap: nat, t: State<T, E>)
    requires Inv(s, cap) && StepHandle(s, DropClose) == Some(t)
    ensures Inv(t, cap)
  {
    DropCloseLife(s, t);
    HandlesOfPermits(s, cap);
    FrameQueue(s, cap, t);
  }

  lemma ClaimRxLife<T, E>(s: State<T, E>, h: nat, t: State<T, E>)
    requires Life(s) && StepHandle(s, ClaimRx(h)) == Some(t)
    ensures Life(t)
  {
  }

  lemma ClaimRxKeeps<T, E>(s: State<T, E>, cap: nat, h: nat, t: State<T, E>)
    requires Inv(s, cap) && StepHandle(s, ClaimRx(h)) == Some(t)
    ensures Inv(t, cap)
  {
    ClaimRxLife(s, h, t);
    HandlesOfPermits(s, cap);
    FrameQueue(s, cap, t);
  }

  lemma DropRxKeeps<T, E>(s: State<T, E>, cap: nat, t: State<T, E>)
    requires Inv(s, cap) && StepHandle(s, DropRx) == Some(t)
    ensures Inv(t, cap)
  {
    HandlesOfPermits(s, cap);
    FrameQueue(s, cap, t);
  }

  // ---- close_with_error ----

  lemma CloseBeginLife<T, E>(s: State<T, E>, e: Event<T, E>, t: State<T, E>)
    requires Life(s) && StepClose(s, e) == Some(t) && (e.CloseBegin?)
    ensures Life(t)
  {
    assert !CantError(s.state) ==> s.closers == map[];
    forall r | r in s.reports ensures ReportOk(t, r) {
      assert ReportOk(s, r);
    }
  }

  lemma CloseBeginKeeps<T, E>(s: State<T, E>, cap: nat, e: Event<T, E>, t: State<T, E>)
    requires Inv(s, cap) && StepClose(s, e) == Some(t) && (e.CloseBegin?)
    ensures Inv(t, cap)
  {
    HandlesOfPermits(s, cap);
    FrameQueue(s, cap, t);
    CloseBeginLife(s, e, t);
  }

  lemma CloseErrorLife<T, E>(s: State<T, E>, e: Event<T, E>, t: State<T, E>)
    requires Life(s) && StepClose(s, e) == Some(t) && (e.CloseWrite? || e.CloseMark?)
    ensures Life(t)
  {
    forall r | r in s.reports ensures ReportOk(t, r) {
      assert ReportOk(s, r);
    }
  }

  lemma CloseErrorKeeps<T, E>(s: State<T, E>, cap: nat, e: Event<T, E>, t: State<T, E>)
    requires Inv(s, cap) && StepClose(s, e) == Some(t) && (e.CloseWrite? || e.CloseMark?)
    ensures Inv(t, cap)
  {
    HandlesOfPermits(s, cap);
    FrameQueue(s, cap, t);
    CloseErrorLife(s, e, t);
  }

  lemma CloseWordsLife<T, E>(s: State<T, E>, e: Event<T, E>, t: State<T, E>)
    requires Life(s) && StepClose(s, e) == Some(t) && (e.CloseRx? || e.CloseTx?)
    ensures Life(t)
  {
    assert e.CloseTx? ==> t.closers == map[];
    forall r | r in s.reports ensures ReportOk(t, r) {
      assert ReportOk(s, r);
    }
  }

  lemma CloseWordsKeeps<T, E>(s: State<T, E>, cap: nat, e: Event<T, E>, t: State<T, E>)
    requires Inv(s, cap) && StepClose(s, e) == Some(t) && (e.CloseRx? || e.CloseTx?)
    ensures Inv(t, cap)
  {
    HandlesOfPermits(s, cap);
    FrameQueue(s, cap, t);
    CloseWordsLife(s, e, t);
  }

  // ---- permits ----

  lemma ReserveLoadOwnership<T, E>(s: State<T, E>, cap: nat, p: nat, h: nat, t: State<T, E>)
    requires Positions(s) && Ownership(s, cap) && StepReserve(s, ReserveLoad(p, h)) == Some(t)
    ensures Positions(t) && Ownership(t, cap)
  {
    forall q | q in t.permits ensures PermitOk(t, q) {
      assert q in s.permits ==> PermitOk(s, q);
    }
    forall j | j in t.owner ensures OwnerOk(t, j) {
      assert OwnerOk(s, j);
    }
  }

  lemma ReserveLoadKeeps<T, E>(s: State<T, E>, cap: nat, p: nat, h: nat, t: State<T, E>)
    requires Inv(s, cap) && StepReserve(s, ReserveLoad(p, h)) == Some(t)
    ensures Inv(t, cap)
  {
    ReserveLoadOwnership(s, cap, p, h, t);
    FrameRing(s, t);
    FrameDelivery(s, t);
    FrameLife(s, t);
  }

  lemma ReserveAllocOwner<T, E>(s: State<T, E>, p: nat, i: nat, t: State<T, E>, j: nat)
    requires Positions(s) && StepReserve(s, ReserveAlloc(p, i)) == Some(t) && j in s.owner && OwnerOk(s, j)
    requires i in s.owner && s.owner[i].Free?
    ensures Positions(t) && OwnerOk(t, j)
  {
  }

  lemma ReserveAllocOwnership<T, E>(s: State<T, E>, cap: nat, p: nat, i: nat, t: State<T, E>)
    requires Positions(s) && Ownership(s, cap) && StepReserve(s, ReserveAlloc(p, i)) == Some(t)
    ensures Positions(t) && Ownership(t, cap)
  {
    assert PermitOk(s, p);
    forall q | q in t.permits ensures PermitOk(t, q) {
      assert q in s.permits ==> PermitOk(s, q);
    }
    forall j | j in t.owner ensures OwnerOk(t, j) {
      assert OwnerOk(s, j);
      ReserveAllocOwner(s, p, i, t, j);
    }
  }

  lemma ReserveAllocKeeps<T, E>(s: State<T, E>, cap: nat, p: nat, i: nat, t: State<T, E>)
    requires Inv(s, cap) && StepReserve(s, ReserveAlloc(p, i)) == Some(t)
    ensures Inv(t, cap)
  {
    assert PermitOk(s, p);
    ReserveAllocOwnership(s, cap, p, i, t);
    FrameRing(s, t);
    FrameDelivery(s, t);
    FrameLife(s, t);
  }

  lemma ReserveFullOwnership<T, E>(s: State<T, E>, cap: nat, p: nat, t: State<T, E>)
    requires Positions(s) && Ownership(s, cap) && StepReserve(s, ReserveFull(p)) == Some(t)
    ensures Positions(t) && Ownership(t, cap)
  {
    assert PermitOk(s, p);
    forall q | q in t.permits ensures PermitOk(t, q) {
      assert q in s.permits ==> PermitOk(s, q);
    }
    forall j | j in t.owner ensures OwnerOk(t, j) {
      assert OwnerOk(s, j);
    }
  }

  lemma ReserveFullKeeps<T, E>(s: State<T, E>, cap: nat, p: nat, t: State<T, E>)
    requires Inv(s, cap) && StepReserve(s, ReserveFull(p)) == Some(t)
    ensures Inv(t, cap)
  {
    assert PermitOk(s, p);
    ReserveFullOwnership(s, cap, p, t);
    FrameRing(s, t);
    FrameDelivery(s, t);
    FrameLife(s, t);
  }

  lemma UncommitOwnership<T, E>(s: State<T, E>, cap: nat, p: nat, t: State<T, E>)
    requires Positions(s) && Ownership(s, cap) && StepReserve(s, Uncommit(p)) == Some(t)
    ensures Positions(t) && Ownership(t, cap)
  {
    assert PermitOk(s, p);
    forall q | q in t.permits ensures PermitOk(t, q) {
      assert q in s.permits ==> PermitOk(s, q);
    }
    forall j | j in t.owner ensures OwnerOk(t, j) {
      assert OwnerOk(s, j);
    }
  }

  lemma UncommitKeeps<T, E>(s: State<T, E>, cap: nat, p: nat, t: State<T, E>)
    requires Inv(s, cap) && StepReserve(s, Uncommit(p)) == Some(t)
    ensures Inv(t, cap)
  {
    assert PermitOk(s, p);
    UncommitOwnership(s, cap, p, t);
    FrameRing(s, t);
    FrameDelivery(s, t);
    FrameLife(s, t);
  }

  lemma WriteOwner<T, E>(s: State<T, E>, p: nat, msg: T, t: State<T, E>, j: nat)
    requires Positions(s) && StepReserve(s, Write(p, msg)) == Some(t) && j in s.owner && OwnerOk(s, j)
    requires Owns(s, p, s.permits[p].idx)
    ensures Positions(t) && OwnerOk(t, j)
  {
  }

  lemma WriteOwnership<T, E>(s: State<T, E>, cap: nat, p: nat, msg: T, t: State<T, E>)
    requires Positions(s) && Ownership(s, cap) && StepReserve(s, Write(p, msg)) == Some(t)
    ensures Positions(t) && Ownership(t, cap)
  {
    assert PermitOk(s, p);
    forall q | q in t.permits ensures PermitOk(t, q) {
      assert q in s.permits ==> PermitOk(s, q);
    }
    forall j | j in t.owner ensures OwnerOk(t, j) {
      assert OwnerOk(s, j);
      WriteOwner(s, p, msg, t, j);
    }
  }

  lemma WriteKeeps<T, E>(s: State<T, E>, cap: nat, p: nat, msg: T, t: State<T, E>)
    requires Inv(s, cap) && StepReserve(s, Write(p, msg)) == Some(t)
    ensures Inv(t, cap)
  {
    assert PermitOk(s, p);
    WriteOwnership(s, cap, p, msg, t);
    FrameRing(s, t);
    FrameDelivery(s, t);
    FrameLife(s, t);
  }

  lemma TxReasonOwnership<T, E>(s: State<T, E>, cap: nat, p: nat, t: State<T, E>)
    requires Positions(s) && Ownership(s, cap) && StepReserve(s, TxReason(p)) == Some(t)
    ensures Positions(t) && Ownership(t, cap)
  {
    assert PermitOk(s, p);
    forall q | q in t.permits ensures PermitOk(t, q) {
      assert q in s.permits ==> PermitOk(s, q);
    }
    forall j | j in t.owner ensures OwnerOk(t, j) {
      assert OwnerOk(s, j);
    }
  }

  lemma TxReasonKeeps<T, E>(s: State<T, E>, cap: nat, p: nat, t: State<T, E>)
    requires Inv(s, cap) && StepReserve(s, TxReason(p)) == Some(t)
    ensures Inv(t, cap)
  {
    assert PermitOk(s, p);
    TxReasonOwnership(s, cap, p, t);
    FrameRing(s, t);
    FrameDelivery(s, t);
    FrameLife(s, t);
  }

  // ---- commit_send ----

  /** At most `n` distinct numbers are below `n`. */
  lemma {:induction false} Pigeonhole(q: seq<nat>, n: nat)
    requires forall j, k :: 0 <= j < k < |q| ==> q[j] != q[k]
    requires forall k :: 0 <= k < |q| ==> q[k] < n
    ensures |q| <= n
  {
    if q != [] {
      assert q[0] < n;
      if k :| 0 <= k < |q| && q[k] == n - 1 {
        Pigeonhole(q[..k] + q[k + 1..], n - 1);
      } else {
        Pigeonhole(q, n - 1);
      }
    }
  }

  /** Unreleased positions hold distinct cells. */
  lemma DistinctCells<T, E>(s: State<T, E>, cap: nat, p: nat, q: nat)
    requires Ring(s) && Ownership(s, cap)
    requires |s.delivered| <= p < q < |s.order|
    ensures s.order[p] != s.order[q]
  {
    assert InUse(s.queue, s.order, s.owner, p) && InUse(s.queue, s.order, s.owner, q);
  }

  /** The cells of the unreleased positions are distinct and below `cap`. */
  lemma UnreleasedCells<T, E>(s: State<T, E>, cap: nat, q: seq<nat>)
    requires Ring(s) && Ownership(s, cap) && q == s.order[|s.delivered|..]
    ensures forall j, k :: 0 <= j < k < |q| ==> q[j] != q[k]
    ensures forall k :: 0 <= k < |q| ==> q[k] < cap && !(q[k] in s.owner && s.owner[q[k]].ByPermit?)
  {
    forall j, k | 0 <= j < k < |q| ensures q[j] != q[k] {
      DistinctCells(s, cap, |s.delivered| + j, |s.delivered| + k);
    }
    forall k | 0 <= k < |q| ensures q[k] < cap && !(q[k] in s.owner && s.owner[q[k]].ByPermit?) {
      assert InUse(s.queue, s.order, s.owner, |s.delivered| + k);
    }
  }

  /** A sender that holds a cell always finds less than `cap` unreleased positions. */
  lemma Room<T, E>(s: State<T, E>, cap: nat, p: nat)
    requires Ring(s) && Ownership(s, cap)
    requires p in s.permits && HoldsIndex(s.permits[p])
    ensures |s.order| < |s.delivered| + cap
  {
    var q := s.order[|s.delivered|..];
    assert PermitOk(s, p);
    UnreleasedCells(s, cap, q);
    Pigeonhole(q + [s.permits[p].idx], cap);
  }

  lemma Fits<T, E>(s: State<T, E>, cap: nat)
    requires Ring(s) && Ownership(s, cap)
    ensures |s.order| <= |s.delivered| + cap
  {
    var q := s.order[|s.delivered|..];
    UnreleasedCells(s, cap, q);
    Pigeonhole(q, cap);
  }

  // A permit goes to another point of `commit_send` with the cell it has.
  lemma MovedOwnership<T, E>(s: State<T, E>, cap: nat, p: nat, a: Permit<T>, t: State<T, E>)
    requires Positions(s) && Ownership(s, cap)
    requires p in s.permits && HoldsIndex(s.permits[p]) && !s.permits[p].Reserved?
    requires t == s.(permits := s.permits[p := a])
    requires HoldsIndex(a) && !a.Reserved? && a.idx == s.permits[p].idx && PermitOk(t, p)
    ensures Positions(t) && Ownership(t, cap)
  {
    forall q | q in t.permits ensures PermitOk(t, q) {
      assert PermitOk(s, q);
    }
    forall j | j in t.owner ensures OwnerOk(t, j) {
      assert OwnerOk(s, j);
    }
  }

  // A commit is refused: its cell is lost.
  lemma RefusedOwnership<T, E>(s: State<T, E>, cap: nat, p: nat, i: nat, t: State<T, E>)
    requires Positions(s) && Ownership(s, cap) && s.tail.closed
    requires p in s.permits && HoldsIndex(s.permits[p]) && !s.permits[p].Reserved? && s.permits[p].idx == i
    requires t == s.(permits := s.permits[p := Refused(s.permits[p].h)], owner := s.owner[i := Lost])
    ensures Positions(t) && Ownership(t, cap)
  {
    assert PermitOk(s, p) && OwnerOk(s, i);
    forall q | q in t.permits ensures PermitOk(t, q) {
      assert PermitOk(s, q);
    }
    forall j | j in t.owner ensures OwnerOk(t, j) {
      assert OwnerOk(s, j);
    }
  }

  lemma MovedKeeps<T, E>(s: State<T, E>, cap: nat, p: nat, a: Permit<T>, t: State<T, E>)
    requires Inv(s, cap)
    requires p in s.permits && HoldsIndex(s.permits[p]) && !s.permits[p].Reserved?
    requires t == s.(permits := s.permits[p := a])
    requires HoldsIndex(a) && !a.Reserved? && a.idx == s.permits[p].idx && PermitOk(t, p)
    ensures Inv(t, cap)
  {
    MovedOwnership(s, cap, p, a, t);
    FrameRing(s, t);
    FrameDelivery(s, t);
    FrameLife(s, t);
  }

  lemma RefusedKeeps<T, E>(s: State<T, E>, cap: nat, p: nat, i: nat, t: State<T, E>)
    requires Inv(s, cap) && s.tail.closed
    requires p in s.permits && HoldsIndex(s.permits[p]) && !s.permits[p].Reserved? && s.permits[p].idx == i
    requires t == s.(permits := s.permits[p := Refused(s.permits[p].h)], owner := s.owner[i := Lost])
    ensures Inv(t, cap)
  {
    assert PermitOk(s, p);
    RefusedOwnership(s, cap, p, i, t);
    FrameRing(s, t);
    FrameDelivery(s, t);
    FrameLife(s, t);
  }

  lemma CommitLoopKeeps<T, E>(s: State<T, E>, cap: nat, p: nat, t: State<T, E>)
    requires Inv(s, cap)
    requires p in s.permits && (s.permits[p].Written? || s.permits[p].GotSlot?)
    requires t == s.(permits := s.permits[p := TopOfLoop(s.permits[p], s.tail)],
                     owner := if IsClosed(s.tail) then s.owner[s.permits[p].idx := Lost] else s.owner)
    ensures Inv(t, cap)
  {
    if s.tail.closed {
      RefusedKeeps(s, cap, p, s.permits[p].idx, t);
    } else {
      assert PermitOk(s, p);
      MovedKeeps(s, cap, p, t.permits[p], t);
    }
  }

  lemma LoadTailKeeps<T, E>(s: State<T, E>, cap: nat, p: nat, t: State<T, E>)
    requires Inv(s, cap) && StepCommit(s, LoadTail(p)) == Some(t)
    ensures Inv(t, cap)
  {
    CommitLoopKeeps(s, cap, p, t);
  }

  lemma OtherSlot(p: nat, q: nat)
    requires p != q && p < q + MAX_CAPACITY && q < p + MAX_CAPACITY
    ensures SlotOf(p) != SlotOf(q)
  {
    if p < q {
      Laps(p, q - p, MAX_CAPACITY);
    } else {
      Laps(q, p - q, MAX_CAPACITY);
    }
  }

  /** No slot is behind a tail that a sender with a reserved cell has loaded, however stale. */
  lemma SlotNotBehind<T, E>(s: State<T, E>, cap: nat, p: nat, pos: nat)
    requires Ring(s) && Ownership(s, cap)
    requires p in s.permits && HoldsIndex(s.permits[p]) && pos <= s.tail.pos
    ensures At(s.queue, pos).Slot? && At(s.queue, pos).num >= pos
  {
    Room(s, cap, p);
    var q := Occurrence(pos, |s.delivered|, MAX_CAPACITY);
    assert SlotOf(q) == SlotOf(pos);
    if pos >= |s.delivered| && q != pos {
      OtherSlot(q, pos);
    }
    assert if q < |s.order| then InUse(s.queue, s.order, s.owner, q) else Vacant(s.queue, q);
  }

  lemma LoadTailSlotKeeps<T, E>(s: State<T, E>, cap: nat, p: nat, t: State<T, E>)
    requires Inv(s, cap) && StepCommit(s, LoadTailSlot(p)) == Some(t)
    ensures Inv(t, cap)
  {
    assert PermitOk(s, p);
    SlotNotBehind(s, cap, p, s.permits[p].word.pos);
    MovedKeeps(s, cap, p, t.permits[p], t);
  }

  lemma CasLostKeeps<T, E>(s: State<T, E>, cap: nat, p: nat, weak: bool, t: State<T, E>)
    requires Inv(s, cap) && StepCommit(s, CasTail(p, weak)) == Some(t)
    requires weak || s.tail != s.permits[p].word
    ensures Inv(t, cap)
  {
    CommitLoopKeeps(s, cap, p, t);
  }

  lemma CasWonOwnership<T, E>(s: State<T, E>, cap: nat, p: nat, t: State<T, E>)
    requires Positions(s) && Ownership(s, cap) && StepCommit(s, CasTail(p, false)) == Some(t)
    requires s.tail == s.permits[p].word
    ensures Positions(t) && Ownership(t, cap)
  {
    assert PermitOk(s, p) && OwnerOk(s, s.permits[p].idx);
    forall q | q in t.permits ensures PermitOk(t, q) {
      assert PermitOk(s, q);
    }
    forall j | j in t.owner ensures OwnerOk(t, j) {
      assert OwnerOk(s, j);
    }
  }

  lemma CasWonRing<T, E>(s: State<T, E>, cap: nat, p: nat, t: State<T, E>)
    requires Ring(s) && Receiver(s) && Ownership(s, cap) && StepCommit(s, CasTail(p, false)) == Some(t)
    requires s.tail == s.permits[p].word && !s.lastDrop.Done?
    ensures Ring(t) && Receiver(t)
  {
    assert PermitOk(s, p);
    Room(s, cap, p);
    assert Vacant(s.queue, |s.order|);
    forall q: nat | |t.delivered| <= q < |t.order| ensures InUse(t.queue, t.order, t.owner, q) {
      if q < |s.order| {
        assert InUse(s.queue, s.order, s.owner, q);
      }
    }
  }

  lemma CasWonKeeps<T, E>(s: State<T, E>, cap: nat, p: nat, t: State<T, E>)
    requires Inv(s, cap) && StepCommit(s, CasTail(p, false)) == Some(t)
    requires s.tail == s.permits[p].word
    ensures Inv(t, cap)
  {
    assert PermitOk(s, p);
    assert s.lastDrop.NotYet?;
    CasWonOwnership(s, cap, p, t);
    CasWonRing(s, cap, p, t);
    FrameDelivery(s, t);
    FrameLife(s, t);
  }

  lemma StoreTailSlotOwnership<T, E>(s: State<T, E>, cap: nat, p: nat, t: State<T, E>)
    requires Positions(s) && Ownership(s, cap) && StepCommit(s, StoreTailSlot(p)) == Some(t)
    ensures Positions(t) && Ownership(t, cap)
  {
    assert PermitOk(s, p) && OwnerOk(s, s.permits[p].idx);
    forall q | q in t.permits ensures PermitOk(t, q) {
      assert PermitOk(s, q);
    }
    forall j | j in t.owner ensures OwnerOk(t, j) {
      assert OwnerOk(s, j);
    }
  }

  lemma StoreTailSlotRing<T, E>(s: State<T, E>, cap: nat, p: nat, t: State<T, E>)
    requires Ring(s) && Receiver(s) && Ownership(s, cap) && StepCommit(s, StoreTailSlot(p)) == Some(t)
    ensures Ring(t) && Receiver(t)
  {
    assert PermitOk(s, p);
    Fits(s, cap);
    var pos := s.permits[p].pos;
    forall q: nat | |t.delivered| <= q < |t.delivered| + MAX_CAPACITY && q != pos ensures At(t.queue, q) == At(s.queue, q) {
      OtherSlot(q, pos);
    }
    forall q: nat | |t.delivered| <= q < |t.order| ensures InUse(t.queue, t.order, t.owner, q) {
      assert InUse(s.queue, s.order, s.owner, q);
    }
    forall q: nat | |t.order| <= q < |t.delivered| + MAX_CAPACITY ensures Vacant(t.queue, q) {
      assert Vacant(s.queue, q);
    }
  }

  lemma StoreTailSlotKeeps<T, E>(s: State<T, E>, cap: nat, p: nat, t: State<T, E>)
    requires Inv(s, cap) && StepCommit(s, StoreTailSlot(p)) == Some(t)
    ensures Inv(t, cap)
  {
    StoreTailSlotOwnership(s, cap, p, t);
    StoreTailSlotRing(s, cap, p, t);
    FrameDelivery(s, t);
    FrameLife(s, t);
  }

  // ---- try_dequeue ----

  // Only the receiver's own state changes, and it may report something.
  lemma RxMoved<T, E>(s: State<T, E>, cap: nat, rx: Rx, more: seq<Report<E>>, t: State<T, E>)
    requires Inv(s, cap) && s.rxLive && t == s.(rx := rx, reports := s.reports + more)
    requires !s.rx.Claimed? && !rx.Claimed? && Receiver(t)
    requires forall r :: r in more ==> ReportOk(s, r)
    ensures Inv(t, cap)
  {
    RxMovedOwnership(s, cap, t);
    FrameDelivery(s, t);
    FrameLife(s, t);
  }

  lemma RxMovedOwnership<T, E>(s: State<T, E>, cap: nat, t: State<T, E>)
    requires Positions(s) && Ownership(s, cap) && Positions(t)
    requires SameQueue(s.(rx := t.rx), t) && t.tail == s.tail && t.handles == s.handles
    ensures Positions(t) && Ownership(t, cap)
  {
    forall q | q in t.permits ensures PermitOk(t, q) {
      assert PermitOk(s, q);
    }
    forall j | j in t.owner ensures OwnerOk(t, j) {
      assert OwnerOk(s, j);
    }
  }

  lemma LoadHeadKeeps<T, E>(s: State<T, E>, cap: nat, t: State<T, E>)
    requires Inv(s, cap) && StepRx(s, LoadHead) == Some(t)
    ensures Inv(t, cap)
  {
    assert s.reports + [] == s.reports;
    RxMoved(s, cap, t.rx, [], t);
  }

  /** The receiver sees its own head: the slot there is vacant, pending or published, never ahead. */
  lemma SlotAtHead<T, E>(s: State<T, E>, cap: nat)
    requires Ring(s) && Ownership(s, cap) && !s.rx.Claimed?
    ensures var p := |s.delivered|;
            if p < |s.order| && s.order[p] in s.owner && s.owner[s.order[p]] == Queued(p)
            then At(s.queue, p) == Slot(p + 1, s.order[p]) else Vacant(s.queue, p)
  {
    var p := |s.delivered|;
    assert if p < |s.order| then InUse(s.queue, s.order, s.owner, p) else Vacant(s.queue, p);
  }

  // With no permit left, no committed position is pending.
  lemma NothingPending<T, E>(s: State<T, E>, cap: nat)
    requires Ring(s) && Ownership(s, cap) && s.handles == {} && !s.rx.Claimed?
    requires |s.delivered| < |s.order|
    ensures s.order[|s.delivered|] in s.owner && s.owner[s.order[|s.delivered|]] == Queued(|s.delivered|)
  {
    var p := |s.delivered|;
    assert InUse(s.queue, s.order, s.owner, p);
    HandlesOfPermits(s, cap);
    assert OwnerOk(s, s.order[p]);
  }

  // What the receiver's load of the slot at its head tells it.
  lemma HeadDifference<T, E>(s: State<T, E>, cap: nat, w: Word)
    requires Ring(s) && Ownership(s, cap) && !s.rx.Claimed? && w.Pos? && w.pos == |s.delivered|
    ensures var slot := s.queue[SlotIndex(w)];
            var dif := RxDif(slot, w);
            && dif <= 0
            && (dif == 0 ==> PublishedAt(s, w.pos, slot))
            && (dif < 0 && s.handles == {} ==> |s.delivered| == |s.order|)
  {
    SlotAtHead(s, cap);
    if s.handles == {} && |s.delivered| < |s.order| {
      NothingPending(s, cap);
    }
  }

  lemma SawVacantKeeps<T, E>(s: State<T, E>, cap: nat, t: State<T, E>)
    requires Inv(s, cap) && StepRx(s, LoadHeadSlot) == Some(t)
    requires s.rx.word.Pos? && RxDif(s.queue[SlotIndex(s.rx.word)], s.rx.word) < 0
    requires s.handles == {} ==> |s.delivered| == |s.order|
    ensures Inv(t, cap)
  {
    if IsClosed(s.rx.word) {
      assert s.reports + [] == s.reports;
      RxMoved(s, cap, SawClosed, [], t);
    } else {
      RxMoved(s, cap, Idle, [Empty], t);
    }
  }

  lemma SawPublishedKeeps<T, E>(s: State<T, E>, cap: nat, t: State<T, E>)
    requires Inv(s, cap) && StepRx(s, LoadHeadSlot) == Some(t)
    requires s.rx.word.Pos? && RxDif(s.queue[SlotIndex(s.rx.word)], s.rx.word) == 0
    requires PublishedAt(s, s.rx.word.pos, s.queue[SlotIndex(s.rx.word)])
    ensures Inv(t, cap)
  {
    assert s.reports + [] == s.reports;
    RxMoved(s, cap, t.rx, [], t);
  }

  lemma LoadHeadSlotKeeps<T, E>(s: State<T, E>, cap: nat, t: State<T, E>)
    requires Inv(s, cap) && StepRx(s, LoadHeadSlot) == Some(t)
    ensures Inv(t, cap)
  {
    HeadDifference(s, cap, s.rx.word);
    if RxDif(s.queue[SlotIndex(s.rx.word)], s.rx.word) < 0 {
      SawVacantKeeps(s, cap, t);
    } else {
      SawPublishedKeeps(s, cap, t);
    }
  }

  lemma CasHeadLostKeeps<T, E>(s: State<T, E>, cap: nat, weak: bool, t: State<T, E>)
    requires Inv(s, cap) && StepRx(s, CasHead(weak)) == Some(t)
    requires weak || s.head != s.rx.word
    ensures Inv(t, cap)
  {
    assert s.reports + [] == s.reports;
    RxMoved(s, cap, t.rx, [], t);
  }

  lemma CasHeadWonOwnership<T, E>(s: State<T, E>, cap: nat, t: State<T, E>)
    requires Positions(s) && Receiver(s) && Ownership(s, cap) && StepRx(s, CasHead(false)) == Some(t)
    requires s.head == s.rx.word
    ensures Positions(t) && Ownership(t, cap)
  {
    forall q | q in t.permits ensures PermitOk(t, q) {
      assert PermitOk(s, q);
    }
    forall j | j in t.owner ensures OwnerOk(t, j) {
      assert OwnerOk(s, j);
    }
  }

  lemma CasHeadWonKeeps<T, E>(s: State<T, E>, cap: nat, t: State<T, E>)
    requires Inv(s, cap) && StepRx(s, CasHead(false)) == Some(t)
    requires s.head == s.rx.word
    ensures Inv(t, cap)
  {
    CasHeadWonOwnership(s, cap, t);
    FrameDelivery(s, t);
    FrameLife(s, t);
  }

  lemma StoreHeadSlotOwnership<T, E>(s: State<T, E>, cap: nat, t: State<T, E>)
    requires Positions(s) && Receiver(s) && Ownership(s, cap) && StepRx(s, StoreHeadSlot) == Some(t)
    ensures Positions(t) && Ownership(t, cap)
  {
    assert OwnerOk(s, IndexOf(s.rx.slot));
    forall q | q in t.permits ensures PermitOk(t, q) {
      assert PermitOk(s, q);
    }
    forall j | j in t.owner ensures OwnerOk(t, j) {
      assert OwnerOk(s, j);
    }
  }

  lemma StoreHeadSlotRing<T, E>(s: State<T, E>, cap: nat, t: State<T, E>)
    requires Ring(s) && Receiver(s) && Ownership(s, cap) && StepRx(s, StoreHeadSlot) == Some(t)
    ensures Ring(t) && Receiver(t)
  {
    Fits(s, cap);
    var pos := |s.delivered|;
    Laps(pos, MAX_CAPACITY, MAX_CAPACITY);
    assert At(t.queue, pos + MAX_CAPACITY) == Released(s.rx.slot);
    forall q: nat | pos < q < pos + MAX_CAPACITY ensures At(t.queue, q) == At(s.queue, q) {
      OtherSlot(pos, q);
    }
    forall q: nat | pos < q < |t.order| ensures InUse(t.queue, t.order, t.owner, q) {
      assert InUse(s.queue, s.order, s.owner, q);
      DistinctCells(s, cap, pos, q);
    }
    forall q: nat | |t.order| <= q < |t.delivered| + MAX_CAPACITY ensures Vacant(t.queue, q) {
      assert q < pos + MAX_CAPACITY ==> Vacant(s.queue, q);
    }
  }

  lemma StoreHeadSlotDelivery<T, E>(s: State<T, E>, i: nat, t: State<T, E>)
    requires Positions(s) && Delivery(s) && Positions(t)
    requires var p := |s.delivered|; p < |s.order| && s.order[p] == i && i !in s.held
                                     && t.delivered == s.delivered + [Some(s.committed[p])]
                                     && t.held == s.held[i := Held(p, false)]
    requires t.committed == s.committed && t.order == s.order && t.moved == s.moved
    ensures Delivery(t)
  {
    forall q: nat | q < |t.delivered| ensures q in t.moved <==> !Unread(t, q) {
      assert q < |s.delivered| ==> (q in s.moved <==> !Unread(s, q));
    }
  }

  lemma StoreHeadSlotKeeps<T, E>(s: State<T, E>, cap: nat, t: State<T, E>)
    requires Inv(s, cap) && StepRx(s, StoreHeadSlot) == Some(t)
    ensures Inv(t, cap)
  {
    StoreHeadSlotOwnership(s, cap, t);
    StoreHeadSlotRing(s, cap, t);
    assert OwnerOk(s, IndexOf(s.rx.slot));
    StoreHeadSlotDelivery(s, IndexOf(s.rx.slot), t);
    FrameLife(s, t);
  }

  lemma RxReasonKeeps<T, E>(s: State<T, E>, cap: nat, t: State<T, E>)
    requires Inv(s, cap) && StepRx(s, RxReason) == Some(t)
    ensures Inv(t, cap)
  {
    RxMoved(s, cap, Idle, [Reason(s, RxDisconnected)], t);
  }

  lemma TakePermits<T, E>(s: State<T, E>, cap: nat, i: nat, t: State<T, E>)
    requires Positions(s) && Ownership(s, cap) && StepRx(s, Take(i)) == Some(t)
    ensures Positions(t) && forall q :: q in t.permits ==> PermitOk(t, q)
  {
    assert OwnerOk(s, i);
    forall q | q in t.permits ensures PermitOk(t, q) {
      assert PermitOk(s, q);
    }
  }

  lemma TakeOwner<T, E>(s: State<T, E>, i: nat, t: State<T, E>, j: nat)
    requires Positions(s) && StepRx(s, Take(i)) == Some(t) && j in s.owner && OwnerOk(s, j)
    requires i in s.owner && s.owner[i] == ByRx(s.held[i].pos)
    ensures Positions(t) && OwnerOk(t, j)
  {
  }

  lemma TakeOwnership<T, E>(s: State<T, E>, cap: nat, i: nat, t: State<T, E>)
    requires Positions(s) && Ownership(s, cap) && StepRx(s, Take(i)) == Some(t)
    ensures Positions(t) && Ownership(t, cap)
  {
    TakePermits(s, cap, i, t);
    forall j | j in t.owner ensures OwnerOk(t, j) {
      assert OwnerOk(s, j);
      TakeOwner(s, i, t, j);
    }
  }

  lemma ReleasePermits<T, E>(s: State<T, E>, cap: nat, i: nat, t: State<T, E>)
    requires Positions(s) && Ownership(s, cap) && StepRx(s, Release(i)) == Some(t)
    ensures Positions(t) && forall q :: q in t.permits ==> PermitOk(t, q)
  {
    assert OwnerOk(s, i);
    forall q | q in t.permits ensures PermitOk(t, q) {
      assert PermitOk(s, q);
    }
  }

  lemma ReleaseOwner<T, E>(s: State<T, E>, i: nat, t: State<T, E>, j: nat)
    requires Positions(s) && StepRx(s, Release(i)) == Some(t) && j in s.owner && OwnerOk(s, j)
    requires i in s.owner && s.owner[i] == ByRx(s.held[i].pos)
    ensures Positions(t) && OwnerOk(t, j)
  {
  }

  lemma ReleaseOwnership<T, E>(s: State<T, E>, cap: nat, i: nat, t: State<T, E>)
    requires Positions(s) && Ownership(s, cap) && StepRx(s, Release(i)) == Some(t)
    ensures Positions(t) && Ownership(t, cap)
  {
    ReleasePermits(s, cap, i, t);
    forall j | j in t.owner ensures OwnerOk(t, j) {
      assert OwnerOk(s, j);
      ReleaseOwner(s, i, t, j);
    }
  }

  // Moving a value out is recorded, and releasing its cell changes nothing about that.
  lemma TakeDelivery<T, E>(s: State<T, E>, i: nat, t: State<T, E>)
    requires Positions(s) && Delivery(s) && Positions(t)
    requires t.delivered == s.delivered && t.committed == s.committed && t.order == s.order
    requires i in s.held
    requires s.held[i].pos < |s.delivered| && s.order[s.held[i].pos] == i
    requires s.held[i].taken ==> t.moved == s.moved && t.held == s.held - {i}
    requires !s.held[i].taken ==>
      t.moved == s.moved[s.held[i].pos := Some(s.committed[s.held[i].pos])] && t.held == s.held[i := Held(s.held[i].pos, true)]
    ensures Delivery(t)
  {
    forall q: nat | q < |t.delivered| ensures q in t.moved <==> !Unread(t, q) {
      assert q in s.moved <==> !Unread(s, q);
    }
  }

  lemma TakeKeeps<T, E>(s: State<T, E>, cap: nat, i: nat, t: State<T, E>)
    requires Inv(s, cap) && StepRx(s, Take(i)) == Some(t)
    ensures Inv(t, cap)
  {
    assert OwnerOk(s, i);
    TakeOwnership(s, cap, i, t);
    TakeDelivery(s, i, t);
    FrameRing(s, t);
    FrameLife(s, t);
  }

  lemma ReleaseKeeps<T, E>(s: State<T, E>, cap: nat, i: nat, t: State<T, E>)
    requires Inv(s, cap) && StepRx(s, Release(i)) == Some(t)
    ensures Inv(t, cap)
  {
    assert OwnerOk(s, i);
    ReleaseOwnership(s, cap, i, t);
    TakeDelivery(s, i, t);
    FrameRing(s, t);
    FrameLife(s, t);
  }
}
