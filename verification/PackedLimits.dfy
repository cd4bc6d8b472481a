/** Where the 16-bit words stop agreeing with positions: sequence numbers do not wrap around cleanly,
    so COMMIT_BOUND is the last commit count at which no sender can panic, and a channel whose head
    reaches the last position never delivers again. */
module PackedLimits {
  import opened Bits
  import opened Fields
  import opened Words
  import opened Options
  import opened Channel
  import opened ChannelRuns
  import opened PackedChannel

  // ---- stuck at the last position ----

  predicate AtEnd(w: Word) {
    w.Raw? && Shr(w.w) == SEQ_MOD - 1
  }

  predicate RawPermit<T>(a: Permit<T>) {
    match a
    case GotTail(_, _, _, w) => w.Raw?
    case GotSlot(_, _, _, w) => w.Raw?
    case Claimed(_, _, _, w, _) => w.Raw?
    case _ => true
  }

  /** The head is at the last position and the receiver is not between its CAS and its store. */
  ghost predicate HeadAtEnd<T, E>(s: State<T, E>) {
    && AtEnd(s.head) && s.tail.Raw?
    && (forall k :: 0 <= k < MAX_CAPACITY ==> s.queue[k].RawSlot?)
    && (forall p :: p in s.permits ==> RawPermit(s.permits[p]))
    && (s.rx.GotHead? ==> AtEnd(s.rx.word))
    && !s.rx.GotSlot? && !s.rx.Claimed?
  }

  lemma CloseKeepsPosition(w: Word)
    requires w.Raw?
    ensures Close(w).Raw? && Shr(Close(w).w) == Shr(w.w)
  {
    SetLowBit(w.w);
    if w.w % 2 == 0 {
      EvenNeighbour(w.w);
    }
  }

  lemma SameParity(half: nat, r: nat)
    ensures (2 * half + r) % 2 == r % 2
  {
  }

  lemma EvenNeighbour(w: u16)
    requires w % 2 == 0 && w < 0xFFFF
    ensures Shr(w + 1) == Shr(w)
  {
    var q, r := w / MAX_CAPACITY, w % MAX_CAPACITY;
    var half := if MAX_CAPACITY == 64 then 32 * q else 16 * q;
    SameParity(half, r);
    assert w == 2 * half + r;
    assert w == MAX_CAPACITY * q + r;
    RemainderIs(w + 1, MAX_CAPACITY, q, r + 1);
  }

  lemma EndHandleStep<T, E>(s: State<T, E>, e: Event<T, E>, t: State<T, E>)
    requires HeadAtEnd(s) && (StepHandle(s, e) == Some(t) || StepClose(s, e) == Some(t))
    ensures HeadAtEnd(t) && t.delivered == s.delivered
  {
    CloseKeepsPosition(s.head);
  }

  lemma EndPermitStep<T, E>(s: State<T, E>, e: Event<T, E>, t: State<T, E>)
    requires HeadAtEnd(s) && (StepReserve(s, e) == Some(t) || StepCommit(s, e) == Some(t))
    ensures HeadAtEnd(t) && t.delivered == s.delivered
  {
  }

  lemma EndRxStep<T, E>(s: State<T, E>, e: Event<T, E>, t: State<T, E>)
    requires HeadAtEnd(s) && StepRx(s, e) == Some(t)
    ensures HeadAtEnd(t) && t.delivered == s.delivered
  {
    if e.LoadHeadSlot? {
      NothingIsReadyAtTheEnd(s.queue[SlotIndex(s.rx.word)], s.rx.word);
    }
  }

  lemma EndStep<T, E>(s: State<T, E>, e: Event<T, E>, t: State<T, E>)
    requires HeadAtEnd(s) && Step(s, e) == Some(t)
    ensures HeadAtEnd(t) && t.delivered == s.delivered
  {
    if StepHandle(s, e) == Some(t) || StepClose(s, e) == Some(t) {
      EndHandleStep(s, e, t);
    } else if StepReserve(s, e) == Some(t) || StepCommit(s, e) == Some(t) {
      EndPermitStep(s, e, t);
    } else {
      EndRxStep(s, e, t);
    }
  }

  /** A channel whose head is at position SEQ_MOD - 1 never delivers another message, whatever is sent. */
  lemma {:induction false} StuckForever<T, E>(s: State<T, E>, es: seq<Event<T, E>>, t: State<T, E>)
    requires HeadAtEnd(s) && Run(s, es) == Some(t)
    ensures HeadAtEnd(t) && t.delivered == s.delivered
    decreases |es|
  {
    if es != [] {
      var m := Run(s, es[..|es| - 1]).value;
      StuckForever(s, es[..|es| - 1], m);
      EndStep(m, es[|es| - 1], t);
    }
  }

  // ---- never more than the last position but one ----

  /** The head's position is the number of messages dequeued, and the receiver, if it is about to swap, has seen
      a message ready at the head it loaded. */
  ghost predicate HeadCounts<T, E>(s: State<T, E>) {
    && s.head.Raw? && s.tail.Raw?
    && (forall k :: 0 <= k < MAX_CAPACITY ==> s.queue[k].RawSlot?)
    && (forall p :: p in s.permits ==> RawPermit(s.permits[p]))
    && Shr(s.head.w) == |s.delivered| + (if s.rx.Claimed? then 1 else 0)
    && match s.rx
       case GotHead(w) => w.Raw? && Shr(w.w) == Shr(s.head.w)
       case GotSlot(w, slot) => w.Raw? && Shr(w.w) == Shr(s.head.w) && slot.RawSlot? && RxDif(slot, w) == 0
       case Claimed(w, slot) => w.Raw? && slot.RawSlot?
       case _ => true
  }

  lemma QuotientOfNext(w: nat, m: nat)
    requires m > 0
    ensures (w + m) / m == w / m + 1
  {
    MulNext(m, w / m);
    RemainderIs(w + m, m, w / m + 1, w % m);
  }

  lemma AdvancedPosition(w: u16)
    requires Shr(w) != SEQ_MOD - 1
    ensures Shr(WrappingAdd(w, POS_ONE)) == Shr(w) + 1
  {
    if MAX_CAPACITY == 64 {
      assert w < 1023 * 64;
      QuotientOfNext(w, 64);
    } else {
      assert w < 2047 * 32;
      QuotientOfNext(w, 32);
    }
    SmallRemainder(w + POS_ONE, 0x1_0000);
  }

  lemma CountsHandleStep<T, E>(s: State<T, E>, e: Event<T, E>, t: State<T, E>)
    requires HeadCounts(s) && (StepHandle(s, e) == Some(t) || StepClose(s, e) == Some(t))
    ensures HeadCounts(t)
  {
    CloseKeepsPosition(s.head);
  }

  lemma CountsPermitStep<T, E>(s: State<T, E>, e: Event<T, E>, t: State<T, E>)
    requires HeadCounts(s) && (StepReserve(s, e) == Some(t) || StepCommit(s, e) == Some(t))
    ensures HeadCounts(t)
  {
  }

  lemma CountsRxStep<T, E>(s: State<T, E>, e: Event<T, E>, t: State<T, E>)
    requires HeadCounts(s) && StepRx(s, e) == Some(t)
    ensures HeadCounts(t)
  {
    if e.CasHead? {
      if Shr(s.rx.word.w) == SEQ_MOD - 1 {
        NothingIsReadyAtTheEnd(s.rx.slot, s.rx.word);
      } else {
        AdvancedPosition(s.rx.word.w);
      }
    }
  }

  lemma {:induction false} HeadCountsInRun<T, E>(s: State<T, E>, es: seq<Event<T, E>>, t: State<T, E>)
    requires HeadCounts(s) && Run(s, es) == Some(t)
    ensures HeadCounts(t)
    decreases |es|
  {
    if es != [] {
      var m, e := Run(s, es[..|es| - 1]).value, es[|es| - 1];
      HeadCountsInRun(s, es[..|es| - 1], m);
      if StepHandle(m, e) == Some(t) || StepClose(m, e) == Some(t) {
        CountsHandleStep(m, e, t);
      } else if StepReserve(m, e) == Some(t) || StepCommit(m, e) == Some(t) {
        CountsPermitStep(m, e, t);
      } else {
        CountsRxStep(m, e, t);
      }
    }
  }

  lemma InitialHead<T, E>(cap: nat)
    requires cap <= MAX_CAPACITY
    ensures HeadCounts(Pack(Init<T, E>(cap)))
  {
    PackedFields(0, false);
  }

  /** No run of the 16-bit machine, of whatever length and with whatever capacity, delivers more than
      SEQ_MOD - 1 messages. */
  lemma DeliversAtMost<T, E>(cap: nat, es: seq<Event<T, E>>, s: State<T, E>)
    requires cap <= MAX_CAPACITY && Run(Pack(Init<T, E>(cap)), es) == Some(s)
    ensures |s.delivered| <= SEQ_MOD - 1
  {
    InitialHead<T, E>(cap);
    HeadCountsInRun(Pack(Init<T, E>(cap)), es, s);
  }

  // ---- one message after another ----

  function PackedPos(n: nat): Word {
    PackWord(Pos(n, false))
  }

  function PackedSlot(n: nat, i: nat): SlotWord {
    PackSlot(Slot(n, i))
  }

  predicate CanSend<T, E>(s: State<T, E>, n: nat, p: nat, i: nat) {
    && !s.panicked && 0 in s.handles && p !in s.permits && i in s.free && i < MAX_CAPACITY
    && n + 1 < SEQ_MOD && |s.committed| == n
    && s.tail == PackedPos(n) && s.queue[SlotOf(n)] == PackedSlot(n, 0)
  }

  // The permit up to its load of the tail.
  function Loaded<T, E>(s: State<T, E>, p: nat, i: nat, m: T): State<T, E> {
    s.(free := s.free - {i}, cells := s.cells[i := m], owner := s.owner[i := ByPermit(p)],
       permits := s.permits[p := GotTail(0, i, m, s.tail)])
  }

  function PrepareEvents<T, E>(p: nat, i: nat, m: T): seq<Event<T, E>> {
    [ReserveLoad(p, 0), ReserveAlloc(p, i)] + [Write(p, m), LoadTail(p)]
  }

  function CommitEvents<T, E>(p: nat): seq<Event<T, E>> {
    [LoadTailSlot(p), CasTail(p, false)] + [StoreTailSlot(p)]
  }

  lemma ReserveRun<T, E>(s: State<T, E>, n: nat, p: nat, i: nat, m: T)
    requires CanSend(s, n, p, i)
    ensures Run(s, [ReserveLoad(p, 0), ReserveAlloc(p, i)]) ==
            Some(s.(free := s.free - {i}, owner := s.owner[i := ByPermit(p)], permits := s.permits[p := Reserved(0, i)]))
  {
    var s1 := s.(permits := s.permits[p := Reserving(0)]);
    assert s1.permits[p := Reserved(0, i)] == s.permits[p := Reserved(0, i)];
    ClosedAgrees(Pos(n, false));
    Chain2(s, ReserveLoad(p, 0), s1, ReserveAlloc(p, i),
           s.(free := s.free - {i}, owner := s.owner[i := ByPermit(p)], permits := s.permits[p := Reserved(0, i)]));
  }

  lemma WriteRun<T, E>(s: State<T, E>, n: nat, p: nat, i: nat, m: T, t: State<T, E>)
    requires !s.panicked && p in s.permits && s.permits[p] == Reserved(0, i) && s.tail == PackedPos(n) && n < SEQ_MOD
    requires t == s.(cells := s.cells[i := m], permits := s.permits[p := GotTail(0, i, m, s.tail)])
    ensures Run(s, [Write(p, m), LoadTail(p)]) == Some(t)
  {
    var s1 := s.(cells := s.cells[i := m], permits := s.permits[p := Written(0, i, m)]);
    assert s1.permits[p := GotTail(0, i, m, s.tail)] == t.permits;
    ClosedAgrees(Pos(n, false));
    Chain2(s, Write(p, m), s1, LoadTail(p), t);
  }

  lemma PrepareRun<T, E>(s: State<T, E>, n: nat, p: nat, i: nat, m: T)
    requires CanSend(s, n, p, i)
    ensures Run(s, PrepareEvents(p, i, m)) == Some(Loaded(s, p, i, m))
  {
    ReserveRun(s, n, p, i, m);
    var s2 := s.(free := s.free - {i}, owner := s.owner[i := ByPermit(p)], permits := s.permits[p := Reserved(0, i)]);
    assert s2.permits[p := GotTail(0, i, m, s.tail)] == Loaded(s, p, i, m).permits;
    WriteRun(s2, n, p, i, m, Loaded(s, p, i, m));
    Continue(s, [ReserveLoad(p, 0), ReserveAlloc(p, i)], s2, [Write(p, m), LoadTail(p)], Loaded(s, p, i, m));
  }

  // The permit from the load of the slot to the store.
  function Committed<T, E>(s: State<T, E>, n: nat, p: nat, i: nat, m: T): State<T, E> {
    s.(tail := PackedPos(n + 1), queue := s.queue[SlotOf(n) := PackedSlot(n + 1, i)], permits := s.permits - {p},
       owner := s.owner[i := Queued(n)], committed := s.committed + [m], order := s.order + [i])
  }

  lemma LookStep<T, E>(s: State<T, E>, n: nat, p: nat, i: nat, m: T)
    requires !s.panicked && p in s.permits && s.permits[p] == GotTail(0, i, m, PackedPos(n)) && n < SEQ_MOD
    requires s.queue[SlotOf(n)] == PackedSlot(n, 0)
    ensures Step(s, LoadTailSlot(p)) == Some(s.(permits := s.permits[p := Permit.GotSlot(0, i, m, PackedPos(n))]))
  {
    SlotIndexAgrees(Pos(n, false));
    DifferencesAgree(Slot(n, 0), Pos(n, false));
  }

  lemma WinStep<T, E>(s: State<T, E>, n: nat, p: nat, i: nat, m: T)
    requires !s.panicked && p in s.permits && s.permits[p] == Permit.GotSlot(0, i, m, PackedPos(n))
    requires n + 1 < SEQ_MOD && |s.committed| == n && s.tail == PackedPos(n)
    ensures Step(s, CasTail(p, false)) == Some(AfterWin(s, n, p, i, m))
  {
    AdvanceAgrees(Pos(n, false));
  }

  function AfterWin<T, E>(s: State<T, E>, n: nat, p: nat, i: nat, m: T): State<T, E> {
    s.(tail := PackedPos(n + 1), permits := s.permits[p := Permit.Claimed(0, i, m, PackedPos(n), n)],
       owner := s.owner[i := Pending(n, p)], committed := s.committed + [m], order := s.order + [i])
  }

  lemma StoreStep<T, E>(s: State<T, E>, p: nat, a: Permit<T>)
    requires !s.panicked && p in s.permits && s.permits[p] == a && a.Claimed? && a.idx < MAX_CAPACITY
    ensures Step(s, StoreTailSlot(p)) ==
            Some(s.(queue := s.queue[SlotIndex(a.word) := Published(a.word, a.idx)], permits := s.permits - {p},
                    owner := s.owner[a.idx := Queued(a.pos)]))
  {
  }

  lemma PublishedWordAt(n: nat, i: nat)
    requires n + 1 < SEQ_MOD && i < MAX_CAPACITY
    ensures SlotIndex(PackedPos(n)) == SlotOf(n) && Published(PackedPos(n), i) == PackedSlot(n + 1, i)
  {
    SlotIndexAgrees(Pos(n, false));
    PublishAgrees(Pos(n, false), i);
  }

  lemma PublishStep<T, E>(s: State<T, E>, n: nat, p: nat, i: nat, m: T)
    requires !s.panicked && n + 1 < SEQ_MOD && i < MAX_CAPACITY
    ensures Step(AfterWin(s, n, p, i, m), StoreTailSlot(p)) == Some(Committed(s, n, p, i, m))
  {
    var a := Permit.Claimed(0, i, m, PackedPos(n), n);
    StoreStep(AfterWin(s, n, p, i, m), p, a);
    PublishedWordAt(n, i);
    assert s.permits[p := a] - {p} == s.permits - {p};
    assert s.owner[i := Pending(n, p)][i := Queued(n)] == s.owner[i := Queued(n)];
  }

  lemma CommitRun<T, E>(s: State<T, E>, n: nat, p: nat, i: nat, m: T)
    requires !s.panicked && p in s.permits && s.permits[p] == GotTail(0, i, m, PackedPos(n)) && i < MAX_CAPACITY
    requires n + 1 < SEQ_MOD && |s.committed| == n
    requires s.tail == PackedPos(n) && s.queue[SlotOf(n)] == PackedSlot(n, 0)
    ensures Run(s, CommitEvents(p)) == Some(Committed(s, n, p, i, m))
  {
    LookStep(s, n, p, i, m);
    var s1 := s.(permits := s.permits[p := Permit.GotSlot(0, i, m, PackedPos(n))]);
    WinStep(s1, n, p, i, m);
    assert s1.permits[p := Permit.Claimed(0, i, m, PackedPos(n), n)] == s.permits[p := Permit.Claimed(0, i, m, PackedPos(n), n)];
    PublishStep(s, n, p, i, m);
    Chain2(s, LoadTailSlot(p), s1, CasTail(p, false), AfterWin(s, n, p, i, m));
    Extend(s, [LoadTailSlot(p), CasTail(p, false)], AfterWin(s, n, p, i, m), StoreTailSlot(p), Committed(s, n, p, i, m));
  }

  function DequeueEvents<T, E>(): seq<Event<T, E>> {
    [LoadHead, LoadHeadSlot, CasHead(false)] + [StoreHeadSlot]
  }

  function Dequeued<T, E>(s: State<T, E>, n: nat, i: nat): State<T, E> {
    s.(head := PackedPos(n + 1), queue := s.queue[SlotOf(n) := PackedSlot((n + MAX_CAPACITY) % SEQ_MOD, i)],
       held := s.held[i := Held(n, false)], owner := s.owner[i := ByRx(n)], delivered := s.delivered + [Cell(s, i)])
  }

  // Releasing a slot moves it one lap on, modulo SEQ_MOD.
  lemma ReleasedWraps(n: nat, i: nat)
    requires n + 1 < SEQ_MOD && i < MAX_CAPACITY
    ensures Released(PackedSlot(n + 1, i)) == PackedSlot((n + MAX_CAPACITY) % SEQ_MOD, i)
  {
    if n + MAX_CAPACITY < SEQ_MOD {
      SlotWordsAgree(Slot(n + 1, i));
      SmallRemainder(n + MAX_CAPACITY, SEQ_MOD);
    } else {
      assert (n + MAX_CAPACITY) % SEQ_MOD == n + MAX_CAPACITY - SEQ_MOD;
    }
  }

  lemma SeeStep<T, E>(s: State<T, E>, n: nat, i: nat)
    requires !s.panicked && s.rx == GotHead(PackedPos(n)) && i < MAX_CAPACITY
    requires n + 1 < SEQ_MOD && s.queue[SlotOf(n)] == PackedSlot(n + 1, i)
    ensures Step(s, LoadHeadSlot) == Some(s.(rx := Rx.GotSlot(PackedPos(n), PackedSlot(n + 1, i))))
  {
    SlotIndexAgrees(Pos(n, false));
    DifferencesAgree(Slot(n + 1, i), Pos(n, false));
  }

  lemma ClaimStep<T, E>(s: State<T, E>, n: nat, slot: SlotWord)
    requires !s.panicked && s.rx == Rx.GotSlot(PackedPos(n), slot) && s.head == PackedPos(n) && n + 1 < SEQ_MOD
    ensures Step(s, CasHead(false)) == Some(s.(head := PackedPos(n + 1), rx := Rx.Claimed(PackedPos(n), slot)))
  {
    AdvanceAgrees(Pos(n, false));
  }

  function AfterClaim<T, E>(s: State<T, E>, n: nat, i: nat): State<T, E> {
    s.(head := PackedPos(n + 1), rx := Rx.Claimed(PackedPos(n), PackedSlot(n + 1, i)))
  }

  lemma LapStep<T, E>(s: State<T, E>, n: nat, i: nat)
    requires !s.panicked && s.rx.Idle? && i < MAX_CAPACITY && n + 1 < SEQ_MOD && |s.delivered| == n
    ensures Step(AfterClaim(s, n, i), StoreHeadSlot) == Some(Dequeued(s, n, i))
  {
    SlotIndexAgrees(Pos(n, false));
    SlotWordsAgree(Slot(n + 1, i));
    ReleasedWraps(n, i);
  }

  lemma ClaimRun<T, E>(s: State<T, E>, n: nat, i: nat)
    requires !s.panicked && s.rxLive && s.rx.Idle? && i < MAX_CAPACITY
    requires n + 1 < SEQ_MOD && s.head == PackedPos(n) && s.queue[SlotOf(n)] == PackedSlot(n + 1, i)
    ensures Run(s, [LoadHead, LoadHeadSlot, CasHead(false)]) ==
            Some(AfterClaim(s, n, i))
  {
    var w, slot := PackedPos(n), PackedSlot(n + 1, i);
    var s1 := s.(rx := GotHead(w));
    var s2 := s1.(rx := Rx.GotSlot(w, slot));
    SeeStep(s1, n, i);
    ClaimStep(s2, n, slot);
    Chain3(s, LoadHead, s1, LoadHeadSlot, s2, CasHead(false), AfterClaim(s, n, i));
  }

  lemma DequeueRun<T, E>(s: State<T, E>, n: nat, i: nat)
    requires !s.panicked && s.rxLive && s.rx.Idle? && |s.delivered| == n && i < MAX_CAPACITY
    requires n + 1 < SEQ_MOD && s.head == PackedPos(n) && s.queue[SlotOf(n)] == PackedSlot(n + 1, i)
    ensures Run(s, DequeueEvents()) == Some(Dequeued(s, n, i))
  {
    ClaimRun(s, n, i);
    LapStep(s, n, i);
    Extend(s, [LoadHead, LoadHeadSlot, CasHead(false)], AfterClaim(s, n, i), StoreHeadSlot, Dequeued(s, n, i));
  }

  function Emptied<T, E>(s: State<T, E>, n: nat, i: nat): State<T, E> {
    s.(moved := s.moved[n := Cell(s, i)], cells := s.cells - {i}, free := s.free + {i}, owner := s.owner[i := Free],
       held := s.held - {i})
  }

  lemma TakeStep<T, E>(s: State<T, E>, n: nat, i: nat)
    requires !s.panicked && i in s.held && s.held[i] == Held(n, false)
    ensures Step(s, Take(i)) == Some(s.(moved := s.moved[n := Cell(s, i)], cells := s.cells - {i}, held := s.held[i := Held(n, true)]))
  {
  }

  lemma ReleaseStep<T, E>(s: State<T, E>, n: nat, i: nat)
    requires !s.panicked && i in s.held && s.held[i] == Held(n, true)
    ensures Step(s, Release(i)) == Some(s.(free := s.free + {i}, owner := s.owner[i := Free], held := s.held - {i}))
  {
  }

  lemma EmptyRun<T, E>(s: State<T, E>, n: nat, i: nat)
    requires !s.panicked && i in s.held && s.held[i] == Held(n, false)
    ensures Run(s, [Take(i), Release(i)]) == Some(Emptied(s, n, i))
  {
    TakeStep(s, n, i);
    var s1 := Step(s, Take(i)).value;
    ReleaseStep(s1, n, i);
    assert s1.held - {i} == s.held - {i};
    Chain2(s, Take(i), s1, Release(i), Emptied(s, n, i));
  }

  /** `n` messages have been sent and received and nothing else is going on. */
  ghost predicate Rested<T, E>(s: State<T, E>, n: nat) {
    && !s.panicked && 0 in s.handles && s.permits == map[] && s.rxLive && s.rx.Idle? && s.held == map[]
    && 0 in s.free && n < SEQ_MOD && |s.committed| == n && |s.delivered| == n
    && s.tail == PackedPos(n) && s.head == PackedPos(n)
    && (forall q: nat {:trigger SlotOf(q)} :: n <= q < n + MAX_CAPACITY ==> s.queue[SlotOf(q)] == PackedSlot(q % SEQ_MOD, 0))
  }

  function TransferEvents<T, E>(m: T): seq<Event<T, E>> {
    PrepareEvents(0, 0, m) + CommitEvents(0) + DequeueEvents() + [Take(0), Release(0)]
  }

  // The state after one more message has gone through, with any other permits left where they were.
  function Transferred<T, E>(s: State<T, E>, n: nat, m: T): State<T, E> {
    Emptied(Dequeued(Committed(Loaded(s, 0, 0, m), n, 0, 0, m), n, 0), n, 0)
  }

  lemma TransferRun<T, E>(s: State<T, E>, n: nat, m: T)
    requires CanSend(s, n, 0, 0) && s.rxLive && s.rx.Idle? && |s.delivered| == n && s.head == PackedPos(n)
    ensures Run(s, TransferEvents(m)) == Some(Transferred(s, n, m))
  {
    var s1 := Loaded(s, 0, 0, m);
    var s2 := Committed(s1, n, 0, 0, m);
    var s3 := Dequeued(s2, n, 0);
    PrepareRun(s, n, 0, 0, m);
    CommitRun(s1, n, 0, 0, m);
    DequeueRun(s2, n, 0);
    EmptyRun(s3, n, 0);
    Continue(s, PrepareEvents(0, 0, m), s1, CommitEvents(0), s2);
    Continue(s, PrepareEvents(0, 0, m) + CommitEvents(0), s2, DequeueEvents(), s3);
    Continue(s, PrepareEvents(0, 0, m) + CommitEvents(0) + DequeueEvents(), s3, [Take(0), Release(0)], Transferred(s, n, m));
  }

  function Transfers<T, E>(n: nat, m: T): seq<Event<T, E>> {
    if n == 0 then [ClaimRx(0)] else Transfers(n - 1, m) + TransferEvents(m)
  }

  lemma FirstRest<T, E>(cap: nat, s: State<T, E>)
    requires 0 < cap <= MAX_CAPACITY && Run(Pack(Init<T, E>(cap)), [ClaimRx(0)]) == Some(s)
    ensures Rested(s, 0) && (cap > 1 ==> 1 in s.free)
  {
    var z := Pack(Init<T, E>(cap));
    FirstEvent(z, ClaimRx(0));
    ClaimedAgrees(Flags(false, false, false, 1));
    forall q: nat | q < MAX_CAPACITY ensures s.queue[SlotOf(q)] == PackedSlot(q % SEQ_MOD, 0) {
      SmallRemainder(q, SEQ_MOD);
      SmallRemainder(q, MAX_CAPACITY);
    }
  }

  lemma NextRest<T, E>(s: State<T, E>, n: nat, m: T)
    requires Rested(s, n) && n + 1 < SEQ_MOD
    ensures CanSend(s, n, 0, 0) && Rested(Transferred(s, n, m), n + 1)
    ensures 1 in s.free ==> 1 in Transferred(s, n, m).free
  {
    var t := Transferred(s, n, m);
    SmallRemainder(n, SEQ_MOD);
    assert SlotOf(n) < MAX_CAPACITY;
    assert t.permits == map[] && t.held == map[];
    assert t.queue == s.queue[SlotOf(n) := PackedSlot((n + MAX_CAPACITY) % SEQ_MOD, 0)];
    forall q: nat | n + 1 <= q < n + 1 + MAX_CAPACITY ensures t.queue[SlotOf(q)] == PackedSlot(q % SEQ_MOD, 0) {
      Laps(n, q - n, MAX_CAPACITY);
    }
  }

  lemma OneMoreTransfer<T, E>(z: State<T, E>, es: seq<Event<T, E>>, r: State<T, E>, n: nat, m: T) returns (s: State<T, E>)
    requires Run(z, es) == Some(r) && Rested(r, n) && n + 1 < SEQ_MOD
    ensures Run(z, es + TransferEvents(m)) == Some(s) && Rested(s, n + 1) && (1 in r.free ==> 1 in s.free)
  {
    NextRest(r, n, m);
    TransferRun(r, n, m);
    s := Transferred(r, n, m);
    Continue(z, es, r, TransferEvents(m), s);
  }

  /** Sending and receiving one message after another works up to the last position but one. */
  lemma {:induction false} TransfersRun<T, E>(cap: nat, n: nat, m: T) returns (s: State<T, E>)
    requires 0 < cap <= MAX_CAPACITY && n < SEQ_MOD
    ensures Run(Pack(Init<T, E>(cap)), Transfers(n, m)) == Some(s) && Rested(s, n) && (cap > 1 ==> 1 in s.free)
  {
    var z := Pack(Init<T, E>(cap));
    if n == 0 {
      FirstEvent(z, ClaimRx(0));
      s := Run(z, [ClaimRx(0)]).value;
      FirstRest(cap, s);
    } else {
      var r := TransfersRun<T, E>(cap, n - 1, m);
      s := OneMoreTransfer(z, Transfers(n - 1, m), r, n - 1, m);
    }
  }

  // A permit that has loaded the tail does not keep another one from sending its message through.
  lemma OtherRest<T, E>(r: State<T, E>, n: nat, m: T)
    requires Rested(r, n) && 1 in r.free && n + 1 < SEQ_MOD
    ensures CanSend(r, n, 1, 1) && CanSend(Loaded(r, 1, 1, m), n, 0, 0)
    ensures var t := Transferred(Loaded(r, 1, 1, m), n, m);
            !t.panicked && 1 in t.permits && t.permits[1] == GotTail(0, 1, m, PackedPos(n))
            && t.queue[SlotOf(n)] == PackedSlot((n + MAX_CAPACITY) % SEQ_MOD, 0) && |t.committed| == n + 1
  {
    SmallRemainder(n, SEQ_MOD);
  }

  // A permit that finds the slot of its position a lap and a wrap-around ahead takes it to be behind.
  lemma LateLook<T, E>(t: State<T, E>, n: nat, m: T)
    requires n == COMMIT_BOUND && !t.panicked && 1 in t.permits && t.permits[1] == GotTail(0, 1, m, PackedPos(n))
    requires t.queue[SlotOf(n)] == PackedSlot((n + MAX_CAPACITY) % SEQ_MOD, 0)
    ensures Step(t, LoadTailSlot(1)) == Some(t.(panicked := true, permits := t.permits[1 := Written(0, 1, m)]))
  {
    SlotIndexAgrees(Pos(n, false));
    DifferencesAgree(Slot(0, 0), Pos(n, false));
  }

  predicate NoNewHandles<T, E>(es: seq<Event<T, E>>) {
    forall k :: 0 <= k < |es| ==> !es[k].AddTx?
  }

  lemma {:induction false} TransfersAddNoHandle<T, E>(n: nat, m: T)
    ensures NoNewHandles(Transfers<T, E>(n, m))
  {
    if n > 0 {
      TransfersAddNoHandle<T, E>(n - 1, m);
    }
  }

  function BeyondEvents<T, E>(m: T): seq<Event<T, E>> {
    Transfers(COMMIT_BOUND, m) + PrepareEvents(1, 1, m) + TransferEvents(m) + [LoadTailSlot(1)]
  }

  lemma BeyondAddsNoHandle<T, E>(m: T)
    ensures NoNewHandles(BeyondEvents<T, E>(m))
  {
    TransfersAddNoHandle<T, E>(COMMIT_BOUND, m);
  }

  /** One commit beyond the bound, a sender that loaded the tail early finds the slot behind it: the
      `unreachable!` in `commit_send` is reached. */
  lemma PanicBeyondTheBound<T, E>(cap: nat, m: T) returns (es: seq<Event<T, E>>, s: State<T, E>)
    requires 2 <= cap <= MAX_CAPACITY
    ensures Run(Pack(Init<T, E>(cap)), es) == Some(s) && s.panicked && |s.committed| == COMMIT_BOUND + 1
    ensures es == BeyondEvents(m)
  {
    var z := Pack(Init<T, E>(cap));
    var n := COMMIT_BOUND;
    var r := TransfersRun<T, E>(cap, n, m);
    OtherRest(r, n, m);
    PrepareRun(r, n, 1, 1, m);
    var r1 := Loaded(r, 1, 1, m);
    TransferRun(r1, n, m);
    var r2 := Transferred(r1, n, m);
    LateLook(r2, n, m);
    s := r2.(panicked := true, permits := r2.permits[1 := Written(0, 1, m)]);
    es := BeyondEvents(m);
    Continue(z, Transfers(n, m), r, PrepareEvents(1, 1, m), r1);
    Continue(z, Transfers(n, m) + PrepareEvents(1, 1, m), r1, TransferEvents(m), r2);
    Extend(z, Transfers(n, m) + PrepareEvents(1, 1, m) + TransferEvents(m), r2, LoadTailSlot(1), s);
  }

  lemma RestAtTheEnd<T, E>(s: State<T, E>)
    requires Rested(s, SEQ_MOD - 1)
    ensures HeadAtEnd(s)
  {
    var n := SEQ_MOD - 1;
    PackedFields(n, false);
    forall k | 0 <= k < MAX_CAPACITY ensures s.queue[k].RawSlot? {
      var q := Occurrence(k, n, MAX_CAPACITY);
      assert SlotOf(q) == k;
    }
  }

  /** After SEQ_MOD - 1 messages the channel is stuck: it is open, its next message can still be sent,
      and in no continuation is anything delivered again. */
  lemma StallsAtTheEnd<T, E>(cap: nat, m: T, later: seq<Event<T, E>>) returns (s: State<T, E>)
    requires 0 < cap <= MAX_CAPACITY
    ensures Run(Pack(Init<T, E>(cap)), Transfers(SEQ_MOD - 1, m)) == Some(s)
    ensures |s.delivered| == SEQ_MOD - 1
    ensures Run(s, later).Some? ==> Run(s, later).value.delivered == s.delivered
  {
    var n := SEQ_MOD - 1;
    s := TransfersRun<T, E>(cap, n, m);
    RestAtTheEnd(s);
    if Run(s, later).Some? {
      StuckForever(s, later, Run(s, later).value);
    }
  }
}
