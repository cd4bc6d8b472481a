/** What holds of the channel in every run, for any number of senders, handles and closers
    interleaved at the granularity of single atomic operations. */
module ChannelTheorems {
  import opened Words
  import opened Options
  import opened Channel
  import opened ChannelInvariant
  import opened ChannelPreservation

  lemma HandleStepKeeps<T, E>(s: State<T, E>, cap: nat, e: Event<T, E>, t: State<T, E>)
    requires Inv(s, cap) && StepHandle(s, e) == Some(t)
    ensures Inv(t, cap)
  {
    match e
    case AddTx(h, n) => AddTxKeeps(s, cap, h, n, t);
    case DropTx(h) => DropTxKeeps(s, cap, h, t);
    case DropFence => DropFenceKeeps(s, cap, t);
    case DropClose => DropCloseKeeps(s, cap, t);
    case ClaimRx(h) => ClaimRxKeeps(s, cap, h, t);
    case DropRx => DropRxKeeps(s, cap, t);
  }

  lemma CloseStepKeeps<T, E>(s: State<T, E>, cap: nat, e: Event<T, E>, t: State<T, E>)
    requires Inv(s, cap) && StepClose(s, e) == Some(t)
    ensures Inv(t, cap)
  {
    if e.CloseBegin? {
      CloseBeginKeeps(s, cap, e, t);
    } else if e.CloseWrite? || e.CloseMark? {
      CloseErrorKeeps(s, cap, e, t);
    } else {
      CloseWordsKeeps(s, cap, e, t);
    }
  }

  lemma ReserveStepKeeps<T, E>(s: State<T, E>, cap: nat, e: Event<T, E>, t: State<T, E>)
    requires Inv(s, cap) && StepReserve(s, e) == Some(t)
    ensures Inv(t, cap)
  {
    match e
    case ReserveLoad(p, h) => ReserveLoadKeeps(s, cap, p, h, t);
    case ReserveAlloc(p, i) => ReserveAllocKeeps(s, cap, p, i, t);
    case ReserveFull(p) => ReserveFullKeeps(s, cap, p, t);
    case Uncommit(p) => UncommitKeeps(s, cap, p, t);
    case Write(p, msg) => WriteKeeps(s, cap, p, msg, t);
    case TxReason(p) => TxReasonKeeps(s, cap, p, t);
  }

  lemma CommitStepKeeps<T, E>(s: State<T, E>, cap: nat, e: Event<T, E>, t: State<T, E>)
    requires Inv(s, cap) && StepCommit(s, e) == Some(t)
    ensures Inv(t, cap)
  {
    match e
    case LoadTail(p) => LoadTailKeeps(s, cap, p, t);
    case LoadTailSlot(p) => LoadTailSlotKeeps(s, cap, p, t);
    case CasTail(p, weak) =>
      if weak || s.tail != s.permits[p].word {
        CasLostKeeps(s, cap, p, weak, t);
      } else {
        CasWonKeeps(s, cap, p, t);
      }
    case StoreTailSlot(p) => StoreTailSlotKeeps(s, cap, p, t);
  }

  lemma RxStepKeeps<T, E>(s: State<T, E>, cap: nat, e: Event<T, E>, t: State<T, E>)
    requires Inv(s, cap) && StepRx(s, e) == Some(t)
    ensures Inv(t, cap)
  {
    match e
    case LoadHead => LoadHeadKeeps(s, cap, t);
    case LoadHeadSlot => LoadHeadSlotKeeps(s, cap, t);
    case CasHead(weak) =>
      if weak || s.head != s.rx.word {
        CasHeadLostKeeps(s, cap, weak, t);
      } else {
        CasHeadWonKeeps(s, cap, t);
      }
    case StoreHeadSlot => StoreHeadSlotKeeps(s, cap, t);
    case RxReason => RxReasonKeeps(s, cap, t);
    case Take(i) => TakeKeeps(s, cap, i, t);
    case Release(i) => ReleaseKeeps(s, cap, i, t);
  }

  lemma StepKeeps<T, E>(s: State<T, E>, cap: nat, e: Event<T, E>, t: State<T, E>)
    requires Inv(s, cap) && Step(s, e) == Some(t)
    ensures Inv(t, cap)
  {
    if StepHandle(s, e) == Some(t) {
      HandleStepKeeps(s, cap, e, t);
    } else if StepClose(s, e) == Some(t) {
      CloseStepKeeps(s, cap, e, t);
    } else if StepReserve(s, e) == Some(t) {
      ReserveStepKeeps(s, cap, e, t);
    } else if StepCommit(s, e) == Some(t) {
      CommitStepKeeps(s, cap, e, t);
    } else {
      RxStepKeeps(s, cap, e, t);
    }
  }

  lemma {:induction false} RunKeeps<T, E>(s: State<T, E>, cap: nat, es: seq<Event<T, E>>, t: State<T, E>)
    requires Inv(s, cap) && Run(s, es) == Some(t)
    ensures Inv(t, cap)
    decreases |es|
  {
    if es != [] {
      var m := Run(s, es[..|es| - 1]).value;
      RunKeeps(s, cap, es[..|es| - 1], m);
      StepKeeps(m, cap, es[|es| - 1], t);
    }
  }

  lemma EveryRun<T, E>(cap: nat, es: seq<Event<T, E>>, s: State<T, E>)
    requires cap <= MAX_CAPACITY && Run(Init<T, E>(cap), es) == Some(s)
    ensures Inv(s, cap)
  {
    InitInv<T, E>(cap);
    RunKeeps(Init<T, E>(cap), cap, es, s);
  }

  // ---- FIFO ----

  /** What the receiver has dequeued is a prefix, in order and value for value, of what was committed
      in the order of successful tail CASes, however far slot stores lag behind. */
  lemma Fifo<T, E>(cap: nat, es: seq<Event<T, E>>, s: State<T, E>)
    requires cap <= MAX_CAPACITY && Run(Init<T, E>(cap), es) == Some(s)
    ensures |s.delivered| <= |s.committed|
    ensures forall p :: 0 <= p < |s.delivered| ==> s.delivered[p] == Some(s.committed[p])
  {
    EveryRun(cap, es, s);
  }

  /** Every message committed and not yet dequeued is still in its cell, and at most `cap` of them are outstanding. */
  lemma NothingLost<T, E>(cap: nat, es: seq<Event<T, E>>, s: State<T, E>)
    requires cap <= MAX_CAPACITY && Run(Init<T, E>(cap), es) == Some(s)
    ensures |s.order| == |s.committed| <= |s.delivered| + cap
    ensures forall p :: |s.delivered| <= p < |s.committed| ==> Cell(s, s.order[p]) == Some(s.committed[p])
  {
    EveryRun(cap, es, s);
    Fits(s, cap);
    forall p | |s.delivered| <= p < |s.committed| ensures Cell(s, s.order[p]) == Some(s.committed[p]) {
      assert InUse(s.queue, s.order, s.owner, p);
      assert OwnerOk(s, s.order[p]);
    }
  }

  /** The `unreachable!` in `commit_send` and the assertion in `drop_tx` are dead code. */
  lemma NeverPanics<T, E>(cap: nat, es: seq<Event<T, E>>, s: State<T, E>)
    requires cap <= MAX_CAPACITY && Run(Init<T, E>(cap), es) == Some(s)
    ensures !s.panicked
  {
    EveryRun(cap, es, s);
  }

  /** That is something: in an arbitrary state, a step fails if and only if it looks at a slot that is behind the loaded
      tail, or has just dropped the last handle with a sender still counted. */
  lemma FailsExactly<T, E>(s: State<T, E>, e: Event<T, E>, t: State<T, E>)
    requires Step(s, e) == Some(t)
    ensures t.panicked <==> (e.DropFence? && TxCount(s.state) != 0) || (e.LoadTailSlot? && e.p in s.permits && LooksBehind(s, s.permits[e.p]))
  {
    CommitFails(s, e, t);
    if StepHandle(s, e) == Some(t) {
      HandleFails(s, e, t);
    } else if StepRx(s, e) == Some(t) {
      RxDoesNotFail(s, e, t);
    } else {
      OthersDoNotFail(s, e, t);
    }
  }

  predicate LooksBehind<T, E>(s: State<T, E>, a: Permit<T>) {
    a.GotTail? && TxDif(s.queue[SlotIndex(a.word)], a.word) < 0
  }

  lemma CommitFails<T, E>(s: State<T, E>, e: Event<T, E>, t: State<T, E>)
    requires !s.panicked
    ensures StepCommit(s, e) == Some(t) ==> (t.panicked <==> e.LoadTailSlot? && e.p in s.permits && LooksBehind(s, s.permits[e.p]))
  {
  }

  lemma HandleFails<T, E>(s: State<T, E>, e: Event<T, E>, t: State<T, E>)
    requires !s.panicked && StepHandle(s, e) == Some(t)
    ensures t.panicked <==> e.DropFence? && TxCount(s.state) != 0
  {
  }

  lemma OthersDoNotFail<T, E>(s: State<T, E>, e: Event<T, E>, t: State<T, E>)
    requires !s.panicked
    ensures StepClose(s, e) == Some(t) || StepReserve(s, e) == Some(t) ==> !t.panicked
  {
  }

  lemma RxDoesNotFail<T, E>(s: State<T, E>, e: Event<T, E>, t: State<T, E>)
    requires !s.panicked && StepRx(s, e) == Some(t)
    ensures !t.panicked && !e.DropFence? && !e.LoadTailSlot?
  {
  }

  // ---- cells ----

  /** The ways in which a cell can be accounted for. */
  ghost predicate HeldByPermit<T, E>(s: State<T, E>, i: nat, p: nat) {
    p in s.permits && HoldsIndex(s.permits[p]) && s.permits[p].idx == i
  }

  ghost predicate InQueue<T, E>(s: State<T, E>, i: nat, p: nat) {
    |s.delivered| <= p < |s.order| && s.order[p] == i
  }

  ghost predicate IsLost<T, E>(s: State<T, E>, i: nat) {
    i in s.owner && s.owner[i].Lost?
  }

  /** Every index below the capacity is in exactly one place: free, in one permit, at one committed
      position, in the receiver's hands, or lost to a commit that was refused after the close. */
  lemma Conservation<T, E>(cap: nat, es: seq<Event<T, E>>, s: State<T, E>, i: nat)
    requires cap <= MAX_CAPACITY && Run(Init<T, E>(cap), es) == Some(s)
    requires i < cap
    ensures var n := (if i in s.free then 1 else 0) + (if exists p :: HeldByPermit(s, i, p) then 1 else 0)
                     + (if exists p :: InQueue(s, i, p) then 1 else 0) + (if i in s.held then 1 else 0)
                     + (if IsLost(s, i) then 1 else 0);
            n == 1
    ensures forall p, q :: HeldByPermit(s, i, p) && HeldByPermit(s, i, q) ==> p == q
    ensures forall p, q :: InQueue(s, i, p) && InQueue(s, i, q) ==> p == q
  {
    EveryRun(cap, es, s);
    assert OwnerOk(s, i);
    forall p | HeldByPermit(s, i, p) ensures s.owner[i] == ByPermit(p) {
      assert PermitOk(s, p);
    }
    forall p | InQueue(s, i, p)
      ensures s.owner[i] == Queued(p) || (s.owner[i].Pending? && s.owner[i].pos == p)
    {
      assert InUse(s.queue, s.order, s.owner, p);
    }
    match s.owner[i]
    case ByPermit(p) => assert HeldByPermit(s, i, p);
    case Pending(p, a) => assert PermitOk(s, a); assert InQueue(s, i, p);
    case Queued(p) => assert InQueue(s, i, p);
    case _ =>
  }

  /** A sender writes into a cell that holds no value, and a permit dropped unsent gives back an empty one. */
  lemma SenderFindsCellEmpty<T, E>(cap: nat, es: seq<Event<T, E>>, s: State<T, E>, p: nat)
    requires cap <= MAX_CAPACITY && Run(Init<T, E>(cap), es) == Some(s)
    requires p in s.permits && s.permits[p].Reserved?
    ensures s.permits[p].idx !in s.cells && s.permits[p].idx !in s.free
  {
    EveryRun(cap, es, s);
    assert PermitOk(s, p);
    assert OwnerOk(s, s.permits[p].idx);
  }

  /** What the receiver holds and has not moved out is in its cell, is what its sender wrote there, and
      has not been moved out before; what it has moved out is gone from the cell it releases. */
  lemma ReceiverReadsWhatWasSent<T, E>(cap: nat, es: seq<Event<T, E>>, s: State<T, E>, i: nat)
    requires cap <= MAX_CAPACITY && Run(Init<T, E>(cap), es) == Some(s)
    requires i in s.held
    ensures i !in s.free && s.held[i].pos < |s.committed|
    ensures s.held[i].taken <==> s.held[i].pos in s.moved
    ensures Cell(s, i) == if s.held[i].taken then None else Some(s.committed[s.held[i].pos])
  {
    EveryRun(cap, es, s);
    assert OwnerOk(s, i);
    assert Unread(s, s.held[i].pos) <==> !s.held[i].taken;
  }

  // ---- closing ----

  /** The count in the state word is the number of live handles, and the channel is closed from the
      sending side without an error only once there is none. */
  lemma HandleCount<T, E>(cap: nat, es: seq<Event<T, E>>, s: State<T, E>)
    requires cap <= MAX_CAPACITY && Run(Init<T, E>(cap), es) == Some(s)
    ensures TxCount(s.state) == |s.handles|
    ensures IsClosed(s.head) && !IsErrored(s.state) ==> s.handles == {}
    ensures s.handles == {} <==> !s.lastDrop.NotYet?
  {
    EveryRun(cap, es, s);
  }

  /** `Disconnected` reaches the receiver only after every committed message did, and nothing is ever
      committed or dequeued after that. */
  lemma DrainBeforeDisconnect<T, E>(cap: nat, es: seq<Event<T, E>>, s: State<T, E>, later: seq<Event<T, E>>, t: State<T, E>)
    requires cap <= MAX_CAPACITY && Run(Init<T, E>(cap), es) == Some(s)
    requires RxDisconnected in s.reports
    requires Run(s, later) == Some(t)
    ensures |s.delivered| == |s.committed| && s.handles == {}
    ensures t.delivered == s.delivered && t.committed == s.committed
  {
    EveryRun(cap, es, s);
    assert ReportOk(s, RxDisconnected);
    DrainedForever(s, cap, later, t);
  }

  lemma {:induction false} DrainedForever<T, E>(s: State<T, E>, cap: nat, es: seq<Event<T, E>>, t: State<T, E>)
    requires Inv(s, cap) && Drained(s) && Run(s, es) == Some(t)
    ensures Drained(t) && t.delivered == s.delivered && t.committed == s.committed
    decreases |es|
  {
    if es != [] {
      var m := Run(s, es[..|es| - 1]).value;
      DrainedForever(s, cap, es[..|es| - 1], m);
      RunKeeps(s, cap, es[..|es| - 1], m);
      DrainedStep(m, cap, es[|es| - 1], t);
    }
  }

  lemma DrainedStep<T, E>(s: State<T, E>, cap: nat, e: Event<T, E>, t: State<T, E>)
    requires Inv(s, cap) && Drained(s) && Step(s, e) == Some(t)
    ensures Drained(t) && t.delivered == s.delivered && t.committed == s.committed
  {
    HandlesOfPermits(s, cap);
    assert !e.CasTail?;
    StepKeeps(s, cap, e, t);
    OnlyCasCommits(s, cap, e, t);
    assert forall p :: 0 <= p < |s.delivered| ==> t.delivered[p] == s.delivered[p];
  }

  // Only a CAS on the tail commits and only a store by the receiver delivers; without handles the last drop is final.
  ghost predicate Uncommitted<T, E>(s: State<T, E>, t: State<T, E>) {
    && t.committed == s.committed && (t.tail == s.tail || t.tail == Close(s.tail))
    && |s.delivered| <= |t.delivered|
    && (s.lastDrop.Done? && s.handles == {} ==> t.lastDrop.Done?)
  }

  lemma HandleStepCommitsNothing<T, E>(s: State<T, E>, e: Event<T, E>, t: State<T, E>)
    requires StepHandle(s, e) == Some(t)
    ensures Uncommitted(s, t)
  {
  }

  lemma CloseStepCommitsNothing<T, E>(s: State<T, E>, e: Event<T, E>, t: State<T, E>)
    requires StepClose(s, e) == Some(t)
    ensures Uncommitted(s, t)
  {
  }

  lemma ReserveStepCommitsNothing<T, E>(s: State<T, E>, e: Event<T, E>, t: State<T, E>)
    requires StepReserve(s, e) == Some(t)
    ensures Uncommitted(s, t)
  {
  }

  lemma RxStepCommitsNothing<T, E>(s: State<T, E>, e: Event<T, E>, t: State<T, E>)
    requires StepRx(s, e) == Some(t) && Positions(s) && Receiver(s)
    ensures Uncommitted(s, t)
  {
  }

  lemma CommitStepCommitsNothing<T, E>(s: State<T, E>, e: Event<T, E>, t: State<T, E>)
    requires StepCommit(s, e) == Some(t) && !e.CasTail? && Positions(s) && PermitOk(s, e.p)
    ensures Uncommitted(s, t)
  {
  }

  lemma OnlyCasCommits<T, E>(s: State<T, E>, cap: nat, e: Event<T, E>, t: State<T, E>)
    requires Inv(s, cap) && Step(s, e) == Some(t) && !e.CasTail?
    ensures Uncommitted(s, t)
  {
    if StepHandle(s, e) == Some(t) {
      HandleStepCommitsNothing(s, e, t);
    } else if StepClose(s, e) == Some(t) {
      CloseStepCommitsNothing(s, e, t);
    } else if StepReserve(s, e) == Some(t) {
      ReserveStepCommitsNothing(s, e, t);
    } else if StepRx(s, e) == Some(t) {
      RxStepCommitsNothing(s, e, t);
    } else {
      assert PermitOk(s, e.p);
      CommitStepCommitsNothing(s, e, t);
    }
  }

  /** A sender is told `Disconnected` only when the receiver has been dropped. */
  lemma SenderDisconnect<T, E>(cap: nat, es: seq<Event<T, E>>, s: State<T, E>)
    requires cap <= MAX_CAPACITY && Run(Init<T, E>(cap), es) == Some(s)
    requires TxDisconnected in s.reports
    ensures IsClaimed(s.state) && !s.rxLive
  {
    EveryRun(cap, es, s);
    assert ReportOk(s, TxDisconnected);
  }

  /** Once CLOSED is set in `enqueue_pos`, it stays, and nothing is committed any more, not even by a
      sender that loaded the tail before the close. */
  lemma {:induction false} CloseFreezesTail<T, E>(s: State<T, E>, cap: nat, es: seq<Event<T, E>>, t: State<T, E>)
    requires Inv(s, cap) && IsClosed(s.tail) && Run(s, es) == Some(t)
    ensures t.tail == s.tail && t.committed == s.committed
    decreases |es|
  {
    if es != [] {
      var m := Run(s, es[..|es| - 1]).value;
      CloseFreezesTail(s, cap, es[..|es| - 1], m);
      RunKeeps(s, cap, es[..|es| - 1], m);
      FrozenStep(m, cap, es[|es| - 1], t);
    }
  }

  lemma FrozenStep<T, E>(s: State<T, E>, cap: nat, e: Event<T, E>, t: State<T, E>)
    requires Inv(s, cap) && IsClosed(s.tail) && Step(s, e) == Some(t)
    ensures t.tail == s.tail && t.committed == s.committed
  {
    if e.CasTail? {
      assert PermitOk(s, e.p);
    } else {
      OnlyCasCommits(s, cap, e, t);
    }
  }

  /** A call that looks at the tail, and a CAS on a tail loaded before, are refused if and only if the tail
      is closed at that moment; a commit that is refused loses its cell. */
  lemma RefusedExactly<T, E>(s: State<T, E>, cap: nat, e: Event<T, E>, t: State<T, E>)
    requires Inv(s, cap) && Step(s, e) == Some(t)
    requires e.ReserveLoad? || e.LoadTail? || e.CasTail?
    ensures e.p in t.permits && (t.permits[e.p].Refused? <==> IsClosed(s.tail))
    ensures !e.ReserveLoad? ==> e.p in s.permits && HoldsIndex(s.permits[e.p])
    ensures !e.ReserveLoad? && IsClosed(s.tail) ==> IsLost(t, s.permits[e.p].idx)
  {
    if !e.ReserveLoad? {
      assert PermitOk(s, e.p);
    }
  }

  // A cell that is lost keeps its owner: whoever changes the owner of a cell owns it before.
  lemma LostStep<T, E>(s: State<T, E>, cap: nat, e: Event<T, E>, t: State<T, E>, i: nat)
    requires Inv(s, cap) && Step(s, e) == Some(t) && IsLost(s, i)
    ensures IsLost(t, i)
  {
    if StepHandle(s, e) == Some(t) || StepClose(s, e) == Some(t) {
      LostByOthers(s, e, t, i);
    } else if StepRx(s, e) == Some(t) {
      LostByRx(s, cap, e, t, i);
    } else if e.ReserveLoad? {
      LostByPermit(s, e, t, i);
    } else {
      assert PermitOk(s, e.p);
      LostByPermit(s, e, t, i);
    }
  }

  lemma LostByOthers<T, E>(s: State<T, E>, e: Event<T, E>, t: State<T, E>, i: nat)
    requires StepHandle(s, e) == Some(t) || StepClose(s, e) == Some(t)
    requires IsLost(s, i)
    ensures IsLost(t, i)
  {
  }

  lemma LostByPermit<T, E>(s: State<T, E>, e: Event<T, E>, t: State<T, E>, i: nat)
    requires StepReserve(s, e) == Some(t) || StepCommit(s, e) == Some(t)
    requires Positions(s) && IsLost(s, i) && (forall j :: j in s.free ==> j in s.owner && s.owner[j].Free?)
    requires !e.ReserveLoad? ==> PermitOk(s, e.p)
    ensures IsLost(t, i)
  {
  }

  lemma LostByRx<T, E>(s: State<T, E>, cap: nat, e: Event<T, E>, t: State<T, E>, i: nat)
    requires StepRx(s, e) == Some(t) && Positions(s) && Receiver(s) && Ownership(s, cap) && IsLost(s, i)
    ensures IsLost(t, i)
  {
  }

  lemma {:induction false} LostForever<T, E>(s: State<T, E>, cap: nat, es: seq<Event<T, E>>, t: State<T, E>, i: nat)
    requires Inv(s, cap) && Run(s, es) == Some(t) && IsLost(s, i)
    ensures IsLost(t, i) && i !in t.free
    decreases |es|
  {
    RunKeeps(s, cap, es, t);
    if es != [] {
      var m := Run(s, es[..|es| - 1]).value;
      LostForever(s, cap, es[..|es| - 1], m, i);
      RunKeeps(s, cap, es[..|es| - 1], m);
      LostStep(m, cap, es[|es| - 1], t, i);
    }
  }

  /** The cell of a commit that is refused is never handed out again, in any continuation: each such commit
      takes one from the capacity. */
  lemma RefusedCommitLosesItsIndex<T, E>(s: State<T, E>, cap: nat, e: Event<T, E>, t: State<T, E>, later: seq<Event<T, E>>, u: State<T, E>)
    requires Inv(s, cap) && Step(s, e) == Some(t) && (e.LoadTail? || e.CasTail?) && IsClosed(s.tail)
    requires Run(t, later) == Some(u)
    ensures e.p in s.permits && HoldsIndex(s.permits[e.p])
    ensures e.p in t.permits && t.permits[e.p].Refused?
    ensures IsLost(u, s.permits[e.p].idx) && s.permits[e.p].idx !in u.free
  {
    RefusedExactly(s, cap, e, t);
    StepKeeps(s, cap, e, t);
    LostForever(t, cap, later, u, s.permits[e.p].idx);
  }

  /** However many `close_with_error` calls race, one of them writes the error, no one reads it before it
      is written, and every error reported to anyone, ever, is that one. */
  lemma OneError<T, E>(cap: nat, es: seq<Event<T, E>>, s: State<T, E>)
    requires cap <= MAX_CAPACITY && Run(Init<T, E>(cap), es) == Some(s)
    ensures |s.errors| <= 1 && |s.closers| <= 1
    ensures forall r :: r in s.reports && r.Error? ==> s.errors != [] && r.error == Some(s.errors[0])
    ensures IsErrored(s.state) ==> s.errors != [] && s.error == Some(s.errors[0])
  {
    EveryRun(cap, es, s);
    forall r | r in s.reports && r.Error? ensures s.errors != [] && r.error == Some(s.errors[0]) {
      assert ReportOk(s, r);
    }
    if c :| c in s.closers {
      assert s.closers.Keys == {c};
    }
  }

  // ---- teardown ----

  /** All that referred to the shared state is gone: the state in which `SharedState::drop` runs. */
  predicate TornDown<T, E>(s: State<T, E>) {
    && s.handles == {} && s.lastDrop.Done? && !s.rxLive
    && s.permits == map[] && s.closers == map[]
  }

  /** At teardown, each committed message was either moved out by the receiver or is published in the
      queue with its value in its cell, ready to be dropped there; never both. */
  lemma Teardown<T, E>(cap: nat, es: seq<Event<T, E>>, s: State<T, E>, p: nat)
    requires cap <= MAX_CAPACITY && Run(Init<T, E>(cap), es) == Some(s) && TornDown(s)
    requires p < |s.committed|
    ensures |s.order| == |s.committed|
    ensures p in s.moved <==> p < |s.delivered|
    ensures p in s.moved ==> s.moved[p] == Some(s.committed[p])
    ensures p !in s.moved ==> At(s.queue, p) == Slot(p + 1, s.order[p]) && Cell(s, s.order[p]) == Some(s.committed[p])
  {
    EveryRun(cap, es, s);
    if p < |s.delivered| {
      assert !Unread(s, p);
    } else {
      assert InUse(s.queue, s.order, s.owner, p);
      assert OwnerOk(s, s.order[p]);
    }
  }
}
