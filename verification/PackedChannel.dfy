/** The machine on 16-bit words does what the unbounded machine does, for as long as the sequence
    numbers fit. */
module PackedChannel {
  import opened Fields
  import opened Words
  import opened Options
  import opened Channel
  import opened ChannelInvariant
  import opened ChannelPreservation
  import opened ChannelTheorems

  function PackPermit<T>(a: Permit<T>): Permit<T> {
    match a
    case GotTail(h, i, m, w) => GotTail(h, i, m, PackWord(w))
    case GotSlot(h, i, m, w) => Permit.GotSlot(h, i, m, PackWord(w))
    case Claimed(h, i, m, w, pos) => Permit.Claimed(h, i, m, PackWord(w), pos)
    case _ => a
  }

  function PackPermits<T>(m: map<nat, Permit<T>>): map<nat, Permit<T>> {
    map p | p in m :: PackPermit(m[p])
  }

  function PackRx(rx: Rx): Rx {
    match rx
    case GotHead(w) => GotHead(PackWord(w))
    case GotSlot(w, slot) => Rx.GotSlot(PackWord(w), PackSlot(slot))
    case Claimed(w, slot) => Rx.Claimed(PackWord(w), PackSlot(slot))
    case _ => rx
  }

  function PackQueue(q: Queue): (r: Queue)
    ensures forall k :: 0 <= k < MAX_CAPACITY ==> r[k] == PackSlot(q[k])
  {
    seq(MAX_CAPACITY, (k: nat) requires k < MAX_CAPACITY => PackSlot(q[k]))
  }

  /** The same state in the words of the implementation. */
  function Pack<T, E>(s: State<T, E>): State<T, E> {
    s.(tail := PackWord(s.tail), head := PackWord(s.head), queue := PackQueue(s.queue), state := PackState(s.state),
       permits := PackPermits(s.permits), rx := PackRx(s.rx))
  }

  lemma PackUpdate<T>(m: map<nat, Permit<T>>, p: nat, a: Permit<T>)
    ensures PackPermits(m[p := a]) == PackPermits(m)[p := PackPermit(a)]
  {
  }

  lemma PackRemoval<T>(m: map<nat, Permit<T>>, p: nat)
    ensures PackPermits(m - {p}) == PackPermits(m) - {p}
  {
  }

  lemma PackFirstLook<T>(h: nat, w: Word)
    requires w.Pos? && w.pos < SEQ_MOD
    ensures FirstLook<T>(h, PackWord(w)) == PackPermit(FirstLook<T>(h, w))
  {
    ClosedAgrees(w);
  }

  lemma PackTopOfLoop<T>(a: Permit<T>, w: Word)
    requires (a.Written? || a.GotSlot?) && w.Pos? && w.pos < SEQ_MOD
    ensures TopOfLoop(PackPermit(a), PackWord(w)) == PackPermit(TopOfLoop(a, w))
  {
    ClosedAgrees(w);
  }

  lemma PackQueueUpdate(q: Queue, k: nat, slot: SlotWord)
    requires k < MAX_CAPACITY
    ensures PackQueue(q[k := slot]) == PackQueue(q)[k := PackSlot(slot)]
  {
    var a, b := PackQueue(q[k := slot]), PackQueue(q)[k := PackSlot(slot)];
    assert forall i :: 0 <= i < MAX_CAPACITY ==> a[i] == b[i];
  }

  /** Few enough commits for the sequence numbers, few enough handles for the sender count. */
  predicate InRange<T, E>(s: State<T, E>) {
    |s.committed| <= COMMIT_BOUND && TX_ONE * (|s.handles| + 2) < USIZE_MOD
  }

  lemma SlotsInRange<T, E>(s: State<T, E>, cap: nat, k: nat)
    requires Ring(s) && Ownership(s, cap) && |s.committed| <= COMMIT_BOUND && k < MAX_CAPACITY
    ensures s.queue[k].Slot? && s.queue[k].num < SEQ_MOD && s.queue[k].idx < MAX_CAPACITY
  {
    var q := Occurrence(k, |s.delivered|, MAX_CAPACITY);
    assert SlotOf(q) == k;
    Fits(s, cap);
    assert if q < |s.order| then InUse(s.queue, s.order, s.owner, q) else Vacant(s.queue, q);
  }

  function PackResult<T, E>(r: Option<State<T, E>>): Option<State<T, E>> {
    match r
    case None => None
    case Some(t) => Some(Pack(t))
  }

  lemma AddTxAgrees<T, E>(s: State<T, E>, h: nat, n: nat)
    requires Positions(s) && Lives(s) && InRange(s)
    ensures StepHandle(Pack(s), AddTx(h, n)) == PackResult(StepHandle(s, AddTx(h, n)))
  {
    SenderCountAgrees(s.state);
  }

  lemma BorrowedAgrees<T, E>(s: State<T, E>, h: nat)
    ensures Borrowed(Pack(s), h) == Borrowed(s, h)
  {
    if p :| p in Pack(s).permits && Pack(s).permits[p].h == h {
      assert p in s.permits && s.permits[p].h == h;
    }
    if p :| p in s.permits && s.permits[p].h == h {
      assert p in Pack(s).permits && Pack(s).permits[p].h == h;
    }
  }

  lemma DropTxAgrees<T, E>(s: State<T, E>, h: nat)
    requires Positions(s) && Lives(s) && InRange(s)
    ensures StepHandle(Pack(s), DropTx(h)) == PackResult(StepHandle(s, DropTx(h)))
  {
    SenderCountAgrees(s.state);
    BorrowedAgrees(s, h);
  }

  lemma DropFenceAgrees<T, E>(s: State<T, E>)
    requires Positions(s) && Lives(s) && InRange(s)
    ensures StepHandle(Pack(s), DropFence) == PackResult(StepHandle(s, DropFence))
  {
    SenderCountAgrees(s.state);
  }

  lemma DropCloseAgrees<T, E>(s: State<T, E>)
    requires Positions(s) && Lives(s) && InRange(s)
    ensures StepHandle(Pack(s), DropClose) == PackResult(StepHandle(s, DropClose))
  {
    CloseAgrees(s.head);
  }

  lemma ClaimRxAgrees<T, E>(s: State<T, E>, h: nat)
    requires Positions(s) && Lives(s) && InRange(s)
    ensures StepHandle(Pack(s), ClaimRx(h)) == PackResult(StepHandle(s, ClaimRx(h)))
  {
    ClaimedAgrees(s.state);
  }

  lemma DropRxAgrees<T, E>(s: State<T, E>)
    requires Positions(s) && Lives(s) && InRange(s)
    ensures StepHandle(Pack(s), DropRx) == PackResult(StepHandle(s, DropRx))
  {
    CloseAgrees(s.tail);
  }

  lemma CloseBeginAgrees<T, E>(s: State<T, E>, c: nat, who: Actor, error: E)
    requires s.state.Flags?
    ensures StepClose(Pack(s), CloseBegin(c, who, error)) == PackResult(StepClose(s, CloseBegin(c, who, error)))
  {
    ErroringAgrees(s.state);
    assert Live(Pack(s), who) == Live(s, who);
  }

  lemma CloseWriteAgrees<T, E>(s: State<T, E>, c: nat)
    requires Positions(s) && Lives(s) && InRange(s)
    ensures StepClose(Pack(s), CloseWrite(c)) == PackResult(StepClose(s, CloseWrite(c)))
  {
  }

  lemma CloseMarkAgrees<T, E>(s: State<T, E>, c: nat)
    requires Positions(s) && Lives(s) && InRange(s)
    ensures StepClose(Pack(s), CloseMark(c)) == PackResult(StepClose(s, CloseMark(c)))
  {
    ErroredAgrees(s.state);
  }

  lemma CloseRxAgrees<T, E>(s: State<T, E>, c: nat)
    requires Positions(s) && Lives(s) && InRange(s)
    ensures StepClose(Pack(s), CloseRx(c)) == PackResult(StepClose(s, CloseRx(c)))
  {
    CloseAgrees(s.tail);
  }

  lemma CloseTxAgrees<T, E>(s: State<T, E>, c: nat)
    requires Positions(s) && Lives(s) && InRange(s)
    ensures StepClose(Pack(s), CloseTx(c)) == PackResult(StepClose(s, CloseTx(c)))
  {
    CloseAgrees(s.head);
  }

  lemma ReserveLoadAgrees<T, E>(s: State<T, E>, p: nat, h: nat)
    requires s.tail.Pos? && s.tail.pos < SEQ_MOD
    ensures StepReserve(Pack(s), ReserveLoad(p, h)) == PackResult(StepReserve(s, ReserveLoad(p, h)))
  {
    SamePoint(s.permits, p);
    PackFirstLook<T>(h, s.tail);
    PackUpdate(s.permits, p, FirstLook(h, s.tail));
  }

  lemma ReserveAllocAgrees<T, E>(s: State<T, E>, p: nat, i: nat)
    requires Positions(s) && Lives(s) && InRange(s)
    ensures StepReserve(Pack(s), ReserveAlloc(p, i)) == PackResult(StepReserve(s, ReserveAlloc(p, i)))
  {
    if p in s.permits {
      PackUpdate(s.permits, p, Reserved(s.permits[p].h, i));
    }
  }

  lemma ReserveFullAgrees<T, E>(s: State<T, E>, p: nat)
    requires Positions(s) && Lives(s) && InRange(s)
    ensures StepReserve(Pack(s), ReserveFull(p)) == PackResult(StepReserve(s, ReserveFull(p)))
  {
    PackRemoval(s.permits, p);
  }

  lemma UncommitAgrees<T, E>(s: State<T, E>, p: nat)
    requires Positions(s) && Lives(s) && InRange(s)
    ensures StepReserve(Pack(s), Uncommit(p)) == PackResult(StepReserve(s, Uncommit(p)))
  {
    PackRemoval(s.permits, p);
  }

  lemma WriteAgrees<T, E>(s: State<T, E>, p: nat, msg: T)
    requires Positions(s) && Lives(s) && InRange(s)
    ensures StepReserve(Pack(s), Write(p, msg)) == PackResult(StepReserve(s, Write(p, msg)))
  {
    if p in s.permits && s.permits[p].Reserved? {
      PackUpdate(s.permits, p, Written(s.permits[p].h, s.permits[p].idx, msg));
    }
  }

  lemma TxReasonAgrees<T, E>(s: State<T, E>, p: nat)
    requires Positions(s) && Lives(s) && InRange(s)
    ensures StepReserve(Pack(s), TxReason(p)) == PackResult(StepReserve(s, TxReason(p)))
  {
    ErroredAgrees(s.state);
    PackRemoval(s.permits, p);
  }

  // A permit is at the same point of the code on both kinds of words.
  lemma SamePoint<T>(m: map<nat, Permit<T>>, p: nat)
    ensures p in PackPermits(m) <==> p in m
    ensures p in m ==> PackPermits(m)[p] == PackPermit(m[p])
  {
  }

  lemma WrittenLoadsTail<T, E>(s: State<T, E>, p: nat, t: State<T, E>)
    requires Positions(s) && Lives(s) && InRange(s) && StepCommit(s, LoadTail(p)) == Some(t)
    ensures StepCommit(Pack(s), LoadTail(p)) == Some(Pack(t))
  {
    ClosedAgrees(s.tail);
    PackTopOfLoop(s.permits[p], s.tail);
    PackUpdate(s.permits, p, TopOfLoop(s.permits[p], s.tail));
  }

  lemma LoadTailAgrees<T, E>(s: State<T, E>, p: nat)
    requires Positions(s) && Lives(s) && InRange(s)
    ensures StepCommit(Pack(s), LoadTail(p)) == PackResult(StepCommit(s, LoadTail(p)))
  {
    SamePoint(s.permits, p);
    if StepCommit(s, LoadTail(p)).Some? {
      WrittenLoadsTail(s, p, StepCommit(s, LoadTail(p)).value);
    }
  }

  // The difference is all that a look at the slot depends on.
  lemma SlotLoaded<T, E>(s: State<T, E>, p: nat, dif: int)
    requires p in s.permits && s.permits[p].GotTail? && dif == TxDif(s.queue[SlotIndex(s.permits[p].word)], s.permits[p].word)
    ensures var a := s.permits[p];
            StepCommit(s, LoadTailSlot(p)) ==
            Some(s.(panicked := dif < 0,
                    permits := s.permits[p := if dif == 0 then Permit.GotSlot(a.h, a.idx, a.msg, a.word) else Written(a.h, a.idx, a.msg)]))
  {
  }

  lemma GotTailLoadsSlot<T, E>(s: State<T, E>, p: nat, t: State<T, E>)
    requires StepCommit(s, LoadTailSlot(p)) == Some(t)
    requires s.permits[p].word.Pos? && s.permits[p].word.pos < SEQ_MOD
    requires var slot := s.queue[SlotIndex(s.permits[p].word)]; slot.Slot? && slot.num < SEQ_MOD && slot.idx < MAX_CAPACITY
    ensures StepCommit(Pack(s), LoadTailSlot(p)) == Some(Pack(t))
  {
    var a := s.permits[p];
    SamePoint(s.permits, p);
    SlotIndexAgrees(a.word);
    DifferencesAgree(s.queue[SlotIndex(a.word)], a.word);
    var dif := TxDif(s.queue[SlotIndex(a.word)], a.word);
    SlotLoaded(s, p, dif);
    SlotLoaded(Pack(s), p, dif);
    PackUpdate(s.permits, p, if dif == 0 then Permit.GotSlot(a.h, a.idx, a.msg, a.word) else Written(a.h, a.idx, a.msg));
  }

  lemma LoadTailSlotAgrees<T, E>(s: State<T, E>, cap: nat, p: nat)
    requires Ring(s) && Ownership(s, cap) && Lives(s) && InRange(s)
    ensures StepCommit(Pack(s), LoadTailSlot(p)) == PackResult(StepCommit(s, LoadTailSlot(p)))
  {
    SamePoint(s.permits, p);
    if StepCommit(s, LoadTailSlot(p)).Some? {
      assert PermitOk(s, p);
      SlotsInRange(s, cap, SlotIndex(s.permits[p].word));
      GotTailLoadsSlot(s, p, StepCommit(s, LoadTailSlot(p)).value);
    }
  }

  lemma GotSlotSwaps<T, E>(s: State<T, E>, p: nat, weak: bool, t: State<T, E>)
    requires StepCommit(s, CasTail(p, weak)) == Some(t) && s.tail.Pos? && s.tail.pos + 1 < SEQ_MOD
    requires s.permits[p].word.Pos? && s.permits[p].word.pos <= s.tail.pos
    ensures StepCommit(Pack(s), CasTail(p, weak)) == Some(Pack(t))
  {
    var a := s.permits[p];
    SamePoint(s.permits, p);
    ClosedAgrees(s.tail);
    PackWordInjective(s.tail, a.word);
    AdvanceAgrees(a.word);
    PackTopOfLoop(a, s.tail);
    PackUpdate(s.permits, p, Permit.Claimed(a.h, a.idx, a.msg, a.word, |s.committed|));
    PackUpdate(s.permits, p, TopOfLoop(a, s.tail));
  }

  lemma CasTailAgrees<T, E>(s: State<T, E>, p: nat, weak: bool)
    requires Positions(s) && Lives(s) && InRange(s) && (p in s.permits ==> PermitOk(s, p))
    ensures StepCommit(Pack(s), CasTail(p, weak)) == PackResult(StepCommit(s, CasTail(p, weak)))
  {
    SamePoint(s.permits, p);
    if StepCommit(s, CasTail(p, weak)).Some? {
      GotSlotSwaps(s, p, weak, StepCommit(s, CasTail(p, weak)).value);
    }
  }

  lemma StoreTailSlotAgrees<T, E>(s: State<T, E>, p: nat)
    requires Positions(s) && Lives(s) && InRange(s) && (p in s.permits ==> PermitOk(s, p))
    ensures StepCommit(Pack(s), StoreTailSlot(p)) == PackResult(StepCommit(s, StoreTailSlot(p)))
  {
    if p in s.permits && s.permits[p].Claimed? && s.permits[p].idx < MAX_CAPACITY {
      var a := s.permits[p];
      SlotIndexAgrees(a.word);
      PublishAgrees(a.word, a.idx);
      PackQueueUpdate(s.queue, SlotIndex(a.word), Published(a.word, a.idx));
      PackRemoval(s.permits, p);
    }
  }

  lemma LoadHeadAgrees<T, E>(s: State<T, E>)
    requires Positions(s) && Receiver(s) && Lives(s) && InRange(s)
    ensures StepRx(Pack(s), LoadHead) == PackResult(StepRx(s, LoadHead))
  {
  }

  lemma LoadHeadSlotAgrees<T, E>(s: State<T, E>, cap: nat)
    requires Ring(s) && Receiver(s) && Ownership(s, cap) && Lives(s) && InRange(s)
    ensures StepRx(Pack(s), LoadHeadSlot) == PackResult(StepRx(s, LoadHeadSlot))
  {
    if s.rx.GotHead? {
      var w := s.rx.word;
      ClosedAgrees(w); SlotIndexAgrees(w);
      SlotsInRange(s, cap, SlotIndex(w));
      DifferencesAgree(s.queue[SlotIndex(w)], w);
    }
  }

  lemma CasHeadAgrees<T, E>(s: State<T, E>, weak: bool)
    requires Positions(s) && Receiver(s) && Lives(s) && InRange(s)
    ensures StepRx(Pack(s), CasHead(weak)) == PackResult(StepRx(s, CasHead(weak)))
  {
    if s.rx.GotSlot? {
      PackWordInjective(s.head, s.rx.word);
      AdvanceAgrees(s.rx.word);
    }
  }

  lemma StoreHeadSlotAgrees<T, E>(s: State<T, E>, cap: nat)
    requires Positions(s) && Receiver(s) && Lives(s) && InRange(s) && Ownership(s, cap)
    ensures StepRx(Pack(s), StoreHeadSlot) == PackResult(StepRx(s, StoreHeadSlot))
  {
    if s.rx.Claimed? {
      var w, slot := s.rx.word, s.rx.slot;
      SlotIndexAgrees(w);
      SlotWordsAgree(slot);
      PackQueueUpdate(s.queue, SlotIndex(w), Released(slot));
    }
  }

  lemma RxReasonAgrees<T, E>(s: State<T, E>)
    requires Positions(s) && Receiver(s) && Lives(s) && InRange(s)
    ensures StepRx(Pack(s), RxReason) == PackResult(StepRx(s, RxReason))
  {
    ErroredAgrees(s.state);
  }

  lemma TakeAgrees<T, E>(s: State<T, E>, i: nat)
    requires Positions(s) && Receiver(s) && Lives(s) && InRange(s)
    ensures StepRx(Pack(s), Take(i)) == PackResult(StepRx(s, Take(i)))
  {
  }

  lemma ReleaseAgrees<T, E>(s: State<T, E>, i: nat)
    requires Positions(s) && Receiver(s) && Lives(s) && InRange(s)
    ensures StepRx(Pack(s), Release(i)) == PackResult(StepRx(s, Release(i)))
  {
  }

  lemma ReserveStepAgrees<T, E>(s: State<T, E>, e: Event<T, E>)
    requires Positions(s) && Lives(s) && InRange(s)
    ensures StepReserve(Pack(s), e) == PackResult(StepReserve(s, e))
  {
    match e
    case ReserveLoad(p, h) => ReserveLoadAgrees(s, p, h);
    case ReserveAlloc(p, i) => ReserveAllocAgrees(s, p, i);
    case ReserveFull(p) => ReserveFullAgrees(s, p);
    case Uncommit(p) => UncommitAgrees(s, p);
    case Write(p, msg) => WriteAgrees(s, p, msg);
    case TxReason(p) => TxReasonAgrees(s, p);
    case _ =>
  }

  lemma CommitStepAgrees<T, E>(s: State<T, E>, cap: nat, e: Event<T, E>)
    requires Ring(s) && Ownership(s, cap) && Lives(s) && InRange(s)
    ensures StepCommit(Pack(s), e) == PackResult(StepCommit(s, e))
  {
    match e
    case LoadTail(p) => LoadTailAgrees(s, p);
    case LoadTailSlot(p) => LoadTailSlotAgrees(s, cap, p);
    case CasTail(p, weak) => CasTailAgrees(s, p, weak);
    case StoreTailSlot(p) => StoreTailSlotAgrees(s, p);
    case _ =>
  }

  lemma RxStepAgrees<T, E>(s: State<T, E>, cap: nat, e: Event<T, E>)
    requires Ring(s) && Receiver(s) && Ownership(s, cap) && Lives(s) && InRange(s)
    ensures StepRx(Pack(s), e) == PackResult(StepRx(s, e))
  {
    match e
    case LoadHead => LoadHeadAgrees(s);
    case LoadHeadSlot => LoadHeadSlotAgrees(s, cap);
    case CasHead(weak) => CasHeadAgrees(s, weak);
    case StoreHeadSlot => StoreHeadSlotAgrees(s, cap);
    case RxReason => RxReasonAgrees(s);
    case Take(i) => TakeAgrees(s, i);
    case Release(i) => ReleaseAgrees(s, i);
    case _ =>
  }

  lemma HandleStepAgrees<T, E>(s: State<T, E>, e: Event<T, E>)
    requires Positions(s) && Lives(s) && InRange(s)
    ensures StepHandle(Pack(s), e) == PackResult(StepHandle(s, e))
  {
    match e
    case AddTx(h, n) => AddTxAgrees(s, h, n);
    case DropTx(h) => DropTxAgrees(s, h);
    case DropFence => DropFenceAgrees(s);
    case DropClose => DropCloseAgrees(s);
    case ClaimRx(h) => ClaimRxAgrees(s, h);
    case DropRx => DropRxAgrees(s);
    case _ =>
  }

  lemma CloseStepAgrees<T, E>(s: State<T, E>, e: Event<T, E>)
    requires Positions(s) && Lives(s) && InRange(s)
    ensures StepClose(Pack(s), e) == PackResult(StepClose(s, e))
  {
    if e.CloseBegin? {
      CloseBeginAgrees(s, e.c, e.who, e.error);
    } else if e.CloseWrite? {
      CloseWriteAgrees(s, e.c);
    } else if e.CloseMark? {
      CloseMarkAgrees(s, e.c);
    } else if e.CloseRx? {
      CloseRxAgrees(s, e.c);
    } else if e.CloseTx? {
      CloseTxAgrees(s, e.c);
    }
  }

  /** One atomic operation on the packed words is the packed form of the same operation on positions:
      neither can happen when the other cannot. */
  lemma StepAgrees<T, E>(s: State<T, E>, cap: nat, e: Event<T, E>)
    requires Inv(s, cap) && InRange(s)
    ensures Step(Pack(s), e) == PackResult(Step(s, e))
  {
    HandleStepAgrees(s, e);
    CloseStepAgrees(s, e);
    ReserveStepAgrees(s, e);
    CommitStepAgrees(s, cap, e);
    RxStepAgrees(s, cap, e);
  }

  /** Before each of its steps, the run has made few enough commits and has few enough handles. */
  ghost predicate RunInRange<T, E>(s: State<T, E>, es: seq<Event<T, E>>) {
    forall k :: 0 <= k < |es| ==> match Run(s, es[..k]) case None => true case Some(m) => InRange(m)
  }

  /** Every run of the 16-bit machine with at most COMMIT_BOUND commits is the packed form of a run of
      the unbounded machine, event for event. */
  lemma {:induction false} PackedRunAgrees<T, E>(cap: nat, es: seq<Event<T, E>>)
    requires cap <= MAX_CAPACITY && RunInRange(Pack(Init<T, E>(cap)), es)
    ensures Run(Pack(Init<T, E>(cap)), es) == PackResult(Run(Init<T, E>(cap), es))
    decreases |es|
  {
    var s := Init<T, E>(cap);
    if es != [] {
      var front, last := es[..|es| - 1], es[|es| - 1];
      assert forall k :: 0 <= k < |front| ==> front[..k] == es[..k];
      PackedRunAgrees(cap, front);
      if Run(s, front).Some? {
        var m := Run(s, front).value;
        EveryRun(cap, front, m);
        assert front == es[..|front|];
        StepAgrees(m, cap, last);
      }
    }
  }

  /** Within the bound, the 16-bit machine does not panic. */
  lemma PackedNeverPanics<T, E>(cap: nat, es: seq<Event<T, E>>, s: State<T, E>)
    requires cap <= MAX_CAPACITY && RunInRange(Pack(Init<T, E>(cap)), es) && Run(Pack(Init<T, E>(cap)), es) == Some(s)
    ensures !s.panicked
  {
    PackedRunAgrees(cap, es);
    NeverPanics(cap, es, Run(Init<T, E>(cap), es).value);
  }
}
