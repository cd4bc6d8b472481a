/** Each run of the 16-bit machine, as long as it does not panic, has a run of the unbounded machine with the
    same history. A packed permit or receiver that has only looked is one that has not begun yet there. */
module PackedSimulation {
  import opened Options
  import opened Words
  import opened Channel
  import opened ChannelInvariant
  import opened ChannelPreservation
  import opened ChannelTheorems
  import opened ChannelRuns
  import opened ChannelProgress
  import opened PackedChannel
  import opened PackedWrap

  function Unpacked<T>(a: Permit<T>): Permit<T> {
    match a
    case GotTail(h, i, m, _) => Written(h, i, m)
    case GotSlot(h, i, m, _) => Written(h, i, m)
    case Claimed(h, i, m, _, pos) => Permit.Claimed(h, i, m, Pos(pos, false), pos)
    case _ => a
  }

  function UnpackedAll<T>(m: map<nat, Permit<T>>): map<nat, Permit<T>> {
    map p | p in m :: Unpacked(m[p])
  }

  predicate PermitWords<T>(a: Permit<T>) {
    match a
    case GotTail(_, _, _, w) => !IsClosed(w)
    case GotSlot(_, _, _, w) => !IsClosed(w)
    case Claimed(_, _, _, w, pos) => w == ModWord(Pos(pos, false))
    case _ => true
  }

  ghost predicate SameWords<T, E>(s: State<T, E>, p: State<T, E>) {
    && s.tail.Pos? && s.head.Pos? && s.state.Flags?
    && p.tail == ModWord(s.tail) && p.head == ModWord(s.head) && s.head.pos < SEQ_MOD
    && (forall k :: 0 <= k < MAX_CAPACITY ==> s.queue[k].Slot? && s.queue[k].idx < MAX_CAPACITY && p.queue[k] == ModSlot(s.queue[k]))
    && p.state == PackState(s.state)
  }

  /** The memory and the history. */
  ghost predicate SameHistory<T, E>(s: State<T, E>, p: State<T, E>) {
    && p.free == s.free && p.cells == s.cells && p.error == s.error && p.handles == s.handles && p.rxLive == s.rxLive
    && p.lastDrop == s.lastDrop && p.held == s.held && p.closers == s.closers && p.committed == s.committed
    && p.order == s.order && p.delivered == s.delivered && p.moved == s.moved && p.owner == s.owner && p.errors == s.errors
  }

  ghost predicate SamePermits<T, E>(s: State<T, E>, p: State<T, E>) {
    && s.permits == UnpackedAll(p.permits)
    && (forall q :: q in p.permits ==> PermitWords(p.permits[q]))
  }

  predicate AtHead(w: Word, h: nat) {
    w == ModWord(Pos(h, false)) || w == ModWord(Pos(h, true))
  }

  ghost predicate SameRx<T, E>(s: State<T, E>, p: State<T, E>)
    requires s.head.Pos?
  {
    match p.rx
    case Idle => s.rx.Idle?
    case SawClosed => s.rx.Idle?
    case GotHead(w) => s.rx.Idle? && AtHead(w, s.head.pos)
    case GotSlot(w, slot) =>
      && s.rx.Idle? && AtHead(w, s.head.pos) && s.head.pos < SEQ_MOD - 1
      && Ready(s) && slot == ModSlot(Slot(|s.delivered| + 1, s.order[|s.delivered|]))
    case Claimed(w, slot) => s.rx.Claimed? && w == ModWord(s.rx.word) && slot == ModSlot(s.rx.slot)
  }

  ghost predicate Linked<T, E>(s: State<T, E>, p: State<T, E>) {
    && SameWords(s, p) && SameHistory(s, p) && SamePermits(s, p) && SameRx(s, p)
    && (!p.rx.Idle? ==> p.rxLive) && !p.panicked
  }

  /** The sender count fits the machine word. */
  predicate HandlesFit<T, E>(s: State<T, E>) {
    TX_ONE * (|s.handles| + 2) < USIZE_MOD
  }

  lemma UnpackedUpdate<T>(m: map<nat, Permit<T>>, p: nat, a: Permit<T>)
    ensures UnpackedAll(m[p := a]) == UnpackedAll(m)[p := Unpacked(a)]
  {
  }

  lemma UnpackedRemoval<T>(m: map<nat, Permit<T>>, p: nat)
    ensures UnpackedAll(m - {p}) == UnpackedAll(m) - {p}
  {
  }

  lemma SamePermit<T>(m: map<nat, Permit<T>>, p: nat)
    ensures p in UnpackedAll(m) <==> p in m
    ensures p in m ==> UnpackedAll(m)[p] == Unpacked(m[p])
  {
  }

  // ---- steps of handles and closers ----

  lemma SameBorrowed<T, E>(s: State<T, E>, p: State<T, E>, h: nat)
    requires SamePermits(s, p) && s.closers == p.closers
    ensures Borrowed(s, h) == Borrowed(p, h)
  {
    forall q ensures q in p.permits && p.permits[q].h == h <==> q in s.permits && s.permits[q].h == h {
      SamePermit(p.permits, q);
    }
  }

  lemma CountStepLinks<T, E>(s: State<T, E>, p: State<T, E>, e: Event<T, E>, q: State<T, E>) returns (t: State<T, E>)
    requires Linked(s, p) && Lives(s) && HandlesFit(s) && StepHandle(p, e) == Some(q) && (e.AddTx? || e.DropTx? || e.DropFence?)
    ensures StepHandle(s, e) == Some(t) && (!t.panicked ==> Linked(t, q))
  {
    SenderCountAgrees(s.state);
    if e.DropTx? {
      SameBorrowed(s, p, e.h);
    }
    t := StepHandle(s, e).value;
  }

  lemma EndStepLinks<T, E>(s: State<T, E>, p: State<T, E>, e: Event<T, E>, q: State<T, E>) returns (t: State<T, E>)
    requires Linked(s, p) && StepHandle(p, e) == Some(q) && (e.DropClose? || e.DropRx?)
    ensures StepHandle(s, e) == Some(t) && Linked(t, q)
  {
    ModClosed(s.tail.pos, s.tail.closed);
    ModClosed(s.head.pos, s.head.closed);
    t := StepHandle(s, e).value;
  }

  lemma ClaimStepLinks<T, E>(s: State<T, E>, p: State<T, E>, e: Event<T, E>, q: State<T, E>) returns (t: State<T, E>)
    requires Linked(s, p) && StepHandle(p, e) == Some(q) && e.ClaimRx?
    ensures StepHandle(s, e) == Some(t) && Linked(t, q)
  {
    ClaimedAgrees(s.state);
    t := StepHandle(s, e).value;
  }

  lemma HandleStepLinks<T, E>(s: State<T, E>, p: State<T, E>, e: Event<T, E>, q: State<T, E>) returns (t: State<T, E>)
    requires Linked(s, p) && Lives(s) && HandlesFit(s) && StepHandle(p, e) == Some(q)
    ensures StepHandle(s, e) == Some(t) && (!t.panicked ==> Linked(t, q))
  {
    if e.AddTx? || e.DropTx? || e.DropFence? {
      t := CountStepLinks(s, p, e, q);
    } else if e.ClaimRx? {
      t := ClaimStepLinks(s, p, e, q);
    } else {
      t := EndStepLinks(s, p, e, q);
    }
  }

  lemma ErrorStepLinks<T, E>(s: State<T, E>, p: State<T, E>, e: Event<T, E>, q: State<T, E>) returns (t: State<T, E>)
    requires Linked(s, p) && StepClose(p, e) == Some(q) && (e.CloseBegin? || e.CloseWrite? || e.CloseMark?)
    ensures StepClose(s, e) == Some(t) && Linked(t, q)
  {
    ErroringAgrees(s.state);
    ErroredAgrees(s.state);
    if e.CloseBegin? {
      assert Live(s, e.who) == Live(p, e.who);
    }
    t := StepClose(s, e).value;
  }

  lemma CloseStepLinks<T, E>(s: State<T, E>, p: State<T, E>, e: Event<T, E>, q: State<T, E>) returns (t: State<T, E>)
    requires Linked(s, p) && StepClose(p, e) == Some(q)
    ensures StepClose(s, e) == Some(t) && Linked(t, q)
  {
    if e.CloseRx? || e.CloseTx? {
      ModClosed(s.tail.pos, s.tail.closed);
      ModClosed(s.head.pos, s.head.closed);
      t := StepClose(s, e).value;
    } else {
      t := ErrorStepLinks(s, p, e, q);
    }
  }

  // ---- steps of a permit ----

  /** Nothing but the owner of cell `i`, which no published message has, the permits and the history may differ. */
  ghost predicate OnlyPermits<T, E>(s: State<T, E>, t: State<T, E>, i: nat) {
    && t.tail == s.tail && t.head == s.head && t.queue == s.queue && t.state == s.state && t.rx == s.rx && t.rxLive == s.rxLive
    && t.delivered == s.delivered && s.order <= t.order && t.panicked == s.panicked
    && (forall j :: j in s.owner && j != i ==> j in t.owner && t.owner[j] == s.owner[j])
    && !(i in s.owner && s.owner[i].Queued?)
  }

  lemma PermitMoves<T, E>(s: State<T, E>, p: State<T, E>, t: State<T, E>, q: State<T, E>, x: nat, a: Permit<T>, i: nat)
    requires Linked(s, p) && SameHistory(t, q) && OnlyPermits(s, t, i) && OnlyPermits(p, q, i)
    requires q.permits == p.permits[x := a] && t.permits == s.permits[x := Unpacked(a)] && PermitWords(a)
    ensures Linked(t, q)
  {
    UnpackedUpdate(p.permits, x, a);
  }

  lemma PermitGoes<T, E>(s: State<T, E>, p: State<T, E>, t: State<T, E>, q: State<T, E>, x: nat, i: nat)
    requires Linked(s, p) && SameHistory(t, q) && OnlyPermits(s, t, i) && OnlyPermits(p, q, i)
    requires q.permits == p.permits - {x} && t.permits == s.permits - {x}
    ensures Linked(t, q)
  {
    UnpackedRemoval(p.permits, x);
  }

  lemma LoadsForReserve<T, E>(s: State<T, E>, p: State<T, E>, e: Event<T, E>, q: State<T, E>, none: nat) returns (t: State<T, E>)
    requires Linked(s, p) && e.ReserveLoad? && StepReserve(p, e) == Some(q) && none !in s.owner
    ensures StepReserve(s, e) == Some(t) && Linked(t, q)
  {
    ModClosed(s.tail.pos, s.tail.closed);
    SamePermit(p.permits, e.p);
    t := StepReserve(s, e).value;
    PermitMoves(s, p, t, q, e.p, FirstLook(e.h, p.tail), none);
  }

  lemma Allocates<T, E>(s: State<T, E>, p: State<T, E>, e: Event<T, E>, q: State<T, E>) returns (t: State<T, E>)
    requires Linked(s, p) && e.ReserveAlloc? && StepReserve(p, e) == Some(q) && e.i in s.owner && s.owner[e.i].Free?
    ensures StepReserve(s, e) == Some(t) && Linked(t, q)
  {
    SamePermit(p.permits, e.p);
    t := StepReserve(s, e).value;
    PermitMoves(s, p, t, q, e.p, Reserved(p.permits[e.p].h, e.i), e.i);
  }

  lemma Writes<T, E>(s: State<T, E>, p: State<T, E>, e: Event<T, E>, q: State<T, E>, none: nat) returns (t: State<T, E>)
    requires Linked(s, p) && e.Write? && StepReserve(p, e) == Some(q) && none !in s.owner
    ensures StepReserve(s, e) == Some(t) && Linked(t, q)
  {
    SamePermit(p.permits, e.p);
    t := StepReserve(s, e).value;
    PermitMoves(s, p, t, q, e.p, q.permits[e.p], none);
  }

  lemma Leaves<T, E>(s: State<T, E>, p: State<T, E>, e: Event<T, E>, q: State<T, E>, i: nat) returns (t: State<T, E>)
    requires Linked(s, p) && (e.ReserveFull? || e.Uncommit? || e.TxReason?) && StepReserve(p, e) == Some(q)
    requires if e.Uncommit? then i == p.permits[e.p].idx && i in s.owner && s.owner[i].ByPermit? else i !in s.owner
    ensures StepReserve(s, e) == Some(t) && Linked(t, q)
  {
    SamePermit(p.permits, e.p);
    t := StepReserve(s, e).value;
    PermitGoes(s, p, t, q, e.p, i);
  }

  lemma ReserveStepLinks<T, E>(s: State<T, E>, cap: nat, p: State<T, E>, e: Event<T, E>, q: State<T, E>) returns (t: State<T, E>)
    requires Linked(s, p) && Positions(s) && Ownership(s, cap) && StepReserve(p, e) == Some(q)
    ensures StepReserve(s, e) == Some(t) && Linked(t, q)
  {
    SamePermit(p.permits, e.p);
    if e.ReserveLoad? {
      t := LoadsForReserve(s, p, e, q, cap);
    } else if e.ReserveAlloc? {
      t := Allocates(s, p, e, q);
    } else if e.Write? {
      t := Writes(s, p, e, q, cap);
    } else {
      assert PermitOk(s, e.p);
      t := Leaves(s, p, e, q, if e.Uncommit? then p.permits[e.p].idx else cap);
    }
  }

  // ---- commit_send ----

  /** Only looking, a permit gets no further in the unbounded run. */
  lemma Looks<T, E>(s: State<T, E>, p: State<T, E>, q: State<T, E>, x: nat, a: Permit<T>, none: nat)
    requires Linked(s, p) && none !in s.owner && x in p.permits && Unpacked(a) == Unpacked(p.permits[x]) && PermitWords(a)
    requires q == p.(permits := p.permits[x := a], reports := q.reports)
    ensures Linked(s, q)
  {
    SamePermit(p.permits, x);
    assert s.permits == s.permits[x := Unpacked(a)];
    PermitMoves(s, p, s, q, x, a, none);
  }

  /** It is refused when the tail is closed. */
  lemma Refuses<T, E>(s: State<T, E>, p: State<T, E>, q: State<T, E>, x: nat, none: nat) returns (t: State<T, E>)
    requires Linked(s, p) && IsClosed(s.tail) && x in p.permits && Unpacked(p.permits[x]).Written?
    requires p.permits[x].idx in s.owner && s.owner[p.permits[x].idx].ByPermit?
    requires q == p.(permits := p.permits[x := Refused(p.permits[x].h)], owner := p.owner[p.permits[x].idx := Lost])
    ensures StepCommit(s, LoadTail(x)) == Some(t) && Linked(t, q)
  {
    SamePermit(p.permits, x);
    t := StepCommit(s, LoadTail(x)).value;
    PermitMoves(s, p, t, q, x, Refused(p.permits[x].h), p.permits[x].idx);
  }

  // The state after the unbounded permit has gone through its look and its compare-and-swap at once.
  function Swapped<T, E>(s: State<T, E>, x: nat, a: Permit<T>): State<T, E>
    requires a.Written?
  {
    s.(tail := Advance(s.tail), permits := s.permits[x := Permit.Claimed(a.h, a.idx, a.msg, s.tail, |s.committed|)],
       owner := s.owner[a.idx := Pending(|s.committed|, x)], committed := s.committed + [a.msg], order := s.order + [a.idx])
  }

  lemma SwapRun<T, E>(s: State<T, E>, x: nat, a: Permit<T>)
    requires !s.panicked && x in s.permits && s.permits[x] == a && a.Written? && !IsClosed(s.tail) && s.tail.Pos?
    requires At(s.queue, s.tail.pos).Slot? && At(s.queue, s.tail.pos).num == s.tail.pos
    ensures Run(s, [LoadTail(x), LoadTailSlot(x), CasTail(x, false)]) == Some(Swapped(s, x, a))
  {
    var s1 := s.(permits := s.permits[x := GotTail(a.h, a.idx, a.msg, s.tail)]);
    var s2 := s1.(permits := s1.permits[x := Permit.GotSlot(a.h, a.idx, a.msg, s.tail)]);
    LoadsTail(s, x, a.h, a.idx, a.msg);
    SeesRoom(s1, x, a.h, a.idx, a.msg, s.tail);
    SwapsTail(s2, x, a);
    assert Swapped(s2, x, a).permits == Swapped(s, x, a).permits;
    Chain3(s, LoadTail(x), s1, LoadTailSlot(x), s2, CasTail(x, false), Swapped(s, x, a));
  }

  lemma SwapsTail<T, E>(s: State<T, E>, x: nat, a: Permit<T>)
    requires !s.panicked && x in s.permits && a.Written? && s.permits[x] == Permit.GotSlot(a.h, a.idx, a.msg, s.tail)
    ensures Step(s, CasTail(x, false)) == Some(Swapped(s, x, a))
  {
  }

  lemma SwapLinks<T, E>(s: State<T, E>, p: State<T, E>, x: nat, q: State<T, E>)
    requires Linked(s, p) && x in p.permits && p.permits[x].GotSlot? && p.permits[x].word == p.tail && s.tail.pos == |s.committed|
    requires |s.committed| == |s.order| && |s.delivered| <= |s.order|
    requires p.permits[x].idx in s.owner && s.owner[p.permits[x].idx].ByPermit?
    requires StepCommit(p, CasTail(x, false)) == Some(q)
    ensures Linked(Swapped(s, x, Unpacked(p.permits[x])), q)
  {
    var a := Unpacked(p.permits[x]);
    var t := Swapped(s, x, a);
    ModClosed(s.tail.pos, s.tail.closed);
    ModAdvance(s.tail.pos, s.tail.closed);
    UnpackedUpdate(p.permits, x, q.permits[x]);
    assert SamePermits(t, q);
    assert Ready(s) ==> Ready(t) && t.order[|t.delivered|] == s.order[|s.delivered|];
    assert SameRx(t, q);
  }

  lemma StoreLinks<T, E>(s: State<T, E>, p: State<T, E>, x: nat, q: State<T, E>) returns (t: State<T, E>)
    requires Linked(s, p) && StepCommit(p, StoreTailSlot(x)) == Some(q)
    requires p.permits[x].idx in s.owner && s.owner[p.permits[x].idx].Pending?
    ensures StepCommit(s, StoreTailSlot(x)) == Some(t) && Linked(t, q)
  {
    SamePermit(p.permits, x);
    var a := p.permits[x];
    ModIndex(a.pos, false);
    ModPublished(a.pos, false, a.idx);
    UnpackedRemoval(p.permits, x);
    t := StepCommit(s, StoreTailSlot(x)).value;
    assert SamePermits(t, q);
    assert Ready(s) ==> Ready(t) && t.order[|t.delivered|] == s.order[|s.delivered|];
    assert SameRx(t, q);
  }

  lemma WinsTail<T, E>(s: State<T, E>, cap: nat, p: State<T, E>, x: nat, q: State<T, E>) returns (t: State<T, E>)
    requires Linked(s, p) && Inv(s, cap) && StepCommit(p, CasTail(x, false)) == Some(q) && p.tail == p.permits[x].word
    ensures Run(s, [LoadTail(x), LoadTailSlot(x), CasTail(x, false)]) == Some(t) && Linked(t, q)
  {
    var a := Unpacked(p.permits[x]);
    SamePermit(p.permits, x);
    assert PermitOk(s, x);
    ModClosed(s.tail.pos, s.tail.closed);
    RoomAtTail(s, cap, x);
    SwapRun(s, x, a);
    SwapLinks(s, p, x, q);
    t := Swapped(s, x, a);
  }

  lemma FindsClosed<T, E>(s: State<T, E>, cap: nat, p: State<T, E>, e: Event<T, E>, q: State<T, E>) returns (t: State<T, E>)
    requires Linked(s, p) && Positions(s) && Ownership(s, cap) && StepCommit(p, e) == Some(q) && IsClosed(p.tail)
    requires e.LoadTail? || (e.CasTail? && !(p.tail == p.permits[e.p].word && !e.weak))
    ensures StepCommit(s, LoadTail(e.p)) == Some(t) && Linked(t, q)
  {
    SamePermit(p.permits, e.p);
    assert PermitOk(s, e.p);
    ModClosed(s.tail.pos, s.tail.closed);
    t := Refuses(s, p, q, e.p, cap);
  }

  lemma LooksOnly<T, E>(s: State<T, E>, cap: nat, p: State<T, E>, e: Event<T, E>, q: State<T, E>)
    requires Linked(s, p) && Positions(s) && Ownership(s, cap) && StepCommit(p, e) == Some(q) && !q.panicked
    requires e.LoadTailSlot? || (!IsClosed(p.tail) && (e.LoadTail? || (e.CasTail? && !(p.tail == p.permits[e.p].word && !e.weak))))
    ensures Linked(s, q)
  {
    SamePermit(p.permits, e.p);
    Looks(s, p, q, e.p, q.permits[e.p], cap);
  }

  /** A step of `commit_send` is none, a refusal, the whole way to the compare-and-swap, or the store. */
  lemma CommitStepLinks<T, E>(s: State<T, E>, cap: nat, p: State<T, E>, e: Event<T, E>, q: State<T, E>)
    returns (es: seq<Event<T, E>>, t: State<T, E>)
    requires Linked(s, p) && Inv(s, cap) && StepCommit(p, e) == Some(q) && !q.panicked
    ensures Run(s, es) == Some(t) && Linked(t, q)
  {
    if e.StoreTailSlot? {
      StoredIsPending(s, cap, p, e.p);
      t := StoreLinks(s, p, e.p, q);
      es := [e];
      FirstEvent(s, e);
    } else if e.CasTail? && p.tail == p.permits[e.p].word && !e.weak {
      t := WinsTail(s, cap, p, e.p, q);
      es := [LoadTail(e.p), LoadTailSlot(e.p), CasTail(e.p, false)];
    } else if !e.LoadTailSlot? && IsClosed(p.tail) {
      t := FindsClosed(s, cap, p, e, q);
      es := [LoadTail(e.p)];
      FirstEvent(s, LoadTail(e.p));
    } else {
      LooksOnly(s, cap, p, e, q);
      es, t := [], s;
    }
  }

  lemma StoredIsPending<T, E>(s: State<T, E>, cap: nat, p: State<T, E>, x: nat)
    requires Linked(s, p) && Positions(s) && Ownership(s, cap) && x in p.permits && p.permits[x].Claimed?
    ensures p.permits[x].idx in s.owner && s.owner[p.permits[x].idx].Pending?
  {
    SamePermit(p.permits, x);
    assert PermitOk(s, x);
  }

  // ---- the receiver ----

  lemma LooksAtHead<T, E>(s: State<T, E>, cap: nat, p: State<T, E>, q: State<T, E>)
    requires Linked(s, p) && Ring(s) && Ownership(s, cap) && StepRx(p, LoadHeadSlot) == Some(q)
    ensures Linked(s, q)
  {
    var h, w := s.head.pos, p.rx.word;
    SlotAtHead(s, cap);
    var slot := At(s.queue, h);
    var c := w == ModWord(Pos(h, true));
    assert w == ModWord(Pos(h, c));
    ModIndex(h, c);
    ModReady(h, c, slot.num, slot.idx);
  }

  lemma Idles<T, E>(s: State<T, E>, p: State<T, E>, e: Event<T, E>, q: State<T, E>)
    requires Linked(s, p) && StepRx(p, e) == Some(q)
    requires e.LoadHead? || e.RxReason? || (e.CasHead? && !(p.head == p.rx.word && !e.weak))
    ensures Linked(s, q)
  {
  }

  // The state after the unbounded receiver has gone through its look and its compare-and-swap at once.
  function Taken<T, E>(s: State<T, E>): State<T, E>
    requires s.head.Pos?
  {
    s.(head := Advance(s.head), rx := Rx.Claimed(s.head, At(s.queue, s.head.pos)))
  }

  lemma TakenRun<T, E>(s: State<T, E>)
    requires !s.panicked && s.rxLive && s.rx.Idle? && s.head.Pos?
    requires At(s.queue, s.head.pos).Slot? && At(s.queue, s.head.pos).num == s.head.pos + 1
    ensures Run(s, [LoadHead, LoadHeadSlot, CasHead(false)]) == Some(Taken(s))
  {
    var slot := At(s.queue, s.head.pos);
    var s2 := s.(rx := Rx.GotSlot(s.head, slot));
    SeesMessage(s, s.head, slot);
    assert Step(s2, CasHead(false)) == Some(Taken(s));
    Chain3(s, LoadHead, s.(rx := GotHead(s.head)), LoadHeadSlot, s2, CasHead(false), Taken(s));
  }

  lemma TakenLinks<T, E>(s: State<T, E>, cap: nat, p: State<T, E>, q: State<T, E>)
    requires Linked(s, p) && Ring(s) && Ownership(s, cap) && StepRx(p, CasHead(false)) == Some(q) && p.head == p.rx.word
    ensures At(s.queue, s.head.pos) == Slot(s.head.pos + 1, s.order[|s.delivered|]) && Linked(Taken(s), q)
  {
    SlotAtHead(s, cap);
    ModAdvance(s.head.pos, s.head.closed);
  }

  lemma Releases<T, E>(s: State<T, E>, cap: nat, p: State<T, E>, q: State<T, E>) returns (t: State<T, E>)
    requires Linked(s, p) && Positions(s) && Receiver(s) && Ownership(s, cap) && StepRx(p, StoreHeadSlot) == Some(q)
    ensures StepRx(s, StoreHeadSlot) == Some(t) && Linked(t, q)
  {
    ModIndex(s.rx.word.pos, s.rx.word.closed);
    ModReleased(s.rx.slot.num, s.rx.slot.idx);
    t := StepRx(s, StoreHeadSlot).value;
  }

  lemma HeldStepLinks<T, E>(s: State<T, E>, p: State<T, E>, e: Event<T, E>, q: State<T, E>) returns (t: State<T, E>)
    requires Linked(s, p) && StepRx(p, e) == Some(q) && (e.Take? || e.Release?)
    requires e.i in s.held ==> e.i in s.owner && s.owner[e.i].ByRx?
    ensures StepRx(s, e) == Some(t) && Linked(t, q)
  {
    t := StepRx(s, e).value;
    assert Ready(s) ==> Ready(t) && t.order[|t.delivered|] == s.order[|s.delivered|];
  }

  lemma WinsHead<T, E>(s: State<T, E>, cap: nat, p: State<T, E>, q: State<T, E>) returns (t: State<T, E>)
    requires Linked(s, p) && Ring(s) && Ownership(s, cap) && !s.panicked
    requires StepRx(p, CasHead(false)) == Some(q) && p.head == p.rx.word
    ensures Run(s, [LoadHead, LoadHeadSlot, CasHead(false)]) == Some(t) && Linked(t, q)
  {
    TakenLinks(s, cap, p, q);
    TakenRun(s);
    t := Taken(s);
  }

  lemma RxStepLinks<T, E>(s: State<T, E>, cap: nat, p: State<T, E>, e: Event<T, E>, q: State<T, E>)
    returns (es: seq<Event<T, E>>, t: State<T, E>)
    requires Linked(s, p) && Ring(s) && Receiver(s) && Ownership(s, cap) && StepRx(p, e) == Some(q)
    requires !s.panicked
    ensures Run(s, es) == Some(t) && Linked(t, q)
  {
    if e.StoreHeadSlot? {
      t := Releases(s, cap, p, q);
      es := [e];
      FirstEvent(s, e);
    } else if e.Take? || e.Release? {
      t := HeldStepLinks(s, p, e, q);
      es := [e];
      FirstEvent(s, e);
    } else if e.CasHead? && p.head == p.rx.word && !e.weak {
      t := WinsHead(s, cap, p, q);
      es := [LoadHead, LoadHeadSlot, CasHead(false)];
    } else {
      LooksOrIdles(s, cap, p, e, q);
      es, t := [], s;
    }
  }

  lemma LooksOrIdles<T, E>(s: State<T, E>, cap: nat, p: State<T, E>, e: Event<T, E>, q: State<T, E>)
    requires Linked(s, p) && Ring(s) && Ownership(s, cap) && StepRx(p, e) == Some(q)
    requires e.LoadHead? || e.LoadHeadSlot? || e.RxReason? || (e.CasHead? && !(p.head == p.rx.word && !e.weak))
    ensures Linked(s, q)
  {
    if e.LoadHeadSlot? {
      LooksAtHead(s, cap, p, q);
    } else {
      Idles(s, p, e, q);
    }
  }

  // ---- runs ----

  lemma StepLinks<T, E>(s: State<T, E>, cap: nat, p: State<T, E>, e: Event<T, E>, q: State<T, E>)
    returns (es: seq<Event<T, E>>, t: State<T, E>)
    requires Linked(s, p) && Inv(s, cap) && HandlesFit(p) && Step(p, e) == Some(q) && !q.panicked
    ensures Run(s, es) == Some(t) && Inv(t, cap) && Linked(t, q)
  {
    if StepHandle(p, e) == Some(q) {
      t := HandleStepLinks(s, p, e, q);
      es := [e];
      FirstEvent(s, e);
      StepKeeps(s, cap, e, t);
    } else if StepClose(p, e) == Some(q) {
      t := CloseStepLinks(s, p, e, q);
      es := [e];
      FirstEvent(s, e);
      StepKeeps(s, cap, e, t);
    } else if StepReserve(p, e) == Some(q) {
      t := ReserveStepLinks(s, cap, p, e, q);
      es := [e];
      FirstEvent(s, e);
      StepKeeps(s, cap, e, t);
    } else if StepCommit(p, e) == Some(q) {
      es, t := CommitStepLinks(s, cap, p, e, q);
      RunKeeps(s, cap, es, t);
    } else {
      es, t := RxStepLinks(s, cap, p, e, q);
      RunKeeps(s, cap, es, t);
    }
  }

  ghost predicate AllHandlesFit<T, E>(s: State<T, E>, es: seq<Event<T, E>>) {
    forall k :: 0 <= k < |es| ==> match Run(s, es[..k]) case None => true case Some(m) => HandlesFit(m)
  }

  lemma InitLinked<T, E>(cap: nat)
    requires cap <= MAX_CAPACITY
    ensures Linked(Init<T, E>(cap), Pack(Init<T, E>(cap)))
  {
    SmallRemainder0();
    forall k | 0 <= k < MAX_CAPACITY ensures Pack(Init<T, E>(cap)).queue[k] == ModSlot(Init<T, E>(cap).queue[k]) {
      SmallMod(k);
    }
  }

  lemma SmallMod(k: nat)
    requires k < SEQ_MOD
    ensures k % SEQ_MOD == k
  {
  }

  lemma SmallRemainder0()
    ensures ModWord(Pos(0, false)) == PackWord(Pos(0, false))
  {
    SmallMod(0);
  }

  /** Whatever happens in a run of the 16-bit machine that does not panic, however long it is, happens in a run of
      the unbounded one: the same cells, handles, commits, dequeues and errors. */
  lemma {:induction false} PackedRunSimulated<T, E>(cap: nat, es: seq<Event<T, E>>, p: State<T, E>)
    returns (fs: seq<Event<T, E>>, s: State<T, E>)
    requires cap <= MAX_CAPACITY && Run(Pack(Init<T, E>(cap)), es) == Some(p) && AllHandlesFit(Pack(Init<T, E>(cap)), es)
    requires !p.panicked
    ensures Run(Init<T, E>(cap), fs) == Some(s) && Inv(s, cap) && Linked(s, p)
    decreases |es|
  {
    var z := Pack(Init<T, E>(cap));
    if es == [] {
      fs, s := [], Init(cap);
      InitInv<T, E>(cap);
      InitLinked<T, E>(cap);
    } else {
      var front, e := es[..|es| - 1], es[|es| - 1];
      var m := Before(z, es, p);
      FrontFits(z, es);
      var gs, r := PackedRunSimulated(cap, front, m);
      var hs, t := StepLinks(r, cap, m, e, p);
      Continue(Init<T, E>(cap), gs, r, hs, t);
      fs, s := gs + hs, t;
    }
  }

  lemma FrontFits<T, E>(z: State<T, E>, es: seq<Event<T, E>>)
    requires es != [] && AllHandlesFit(z, es)
    ensures AllHandlesFit(z, es[..|es| - 1])
    ensures Run(z, es[..|es| - 1]).Some? ==> HandlesFit(Run(z, es[..|es| - 1]).value)
  {
    var front := es[..|es| - 1];
    forall k | 0 <= k < |front| ensures match Run(z, front[..k]) case None => true case Some(m) => HandlesFit(m) {
      assert front[..k] == es[..k];
    }
    assert front == es[..|front|];
  }

  lemma OthersDoNotPanic<T, E>(p: State<T, E>, e: Event<T, E>, q: State<T, E>)
    requires StepClose(p, e) == Some(q) || StepReserve(p, e) == Some(q)
    ensures q.panicked == p.panicked && q.committed == p.committed && q.delivered == p.delivered
  {
  }

  lemma ReceiverDoesNotPanic<T, E>(p: State<T, E>, e: Event<T, E>, q: State<T, E>)
    requires StepRx(p, e) == Some(q)
    ensures q.panicked == p.panicked && q.committed == p.committed
  {
  }

  lemma CommitPanics<T, E>(p: State<T, E>, e: Event<T, E>, q: State<T, E>)
    requires StepCommit(p, e) == Some(q)
    ensures |p.committed| <= |q.committed| && q.delivered == p.delivered
    ensures q.panicked && !p.panicked ==> q.committed == p.committed
  {
  }

  lemma HandlePanics<T, E>(p: State<T, E>, e: Event<T, E>, q: State<T, E>)
    requires StepHandle(p, e) == Some(q)
    ensures q.committed == p.committed && q.delivered == p.delivered
  {
  }

  // Commits are not undone, and a step that panics commits and delivers nothing.
  lemma PanicChangesNothing<T, E>(p: State<T, E>, e: Event<T, E>, q: State<T, E>)
    requires Step(p, e) == Some(q)
    ensures |p.committed| <= |q.committed|
    ensures q.panicked ==> !p.panicked && q.committed == p.committed && q.delivered == p.delivered
  {
    if StepHandle(p, e) == Some(q) {
      HandlePanics(p, e, q);
    } else if StepClose(p, e) == Some(q) || StepReserve(p, e) == Some(q) {
      OthersDoNotPanic(p, e, q);
    } else if StepRx(p, e) == Some(q) {
      ReceiverDoesNotPanic(p, e, q);
    } else {
      CommitPanics(p, e, q);
    }
  }

  /** First in, first out on the 16-bit words, in every run, of whatever length, panicking at its end or not. */
  lemma {:induction false} PackedFifo<T, E>(cap: nat, es: seq<Event<T, E>>, p: State<T, E>)
    requires cap <= MAX_CAPACITY && Run(Pack(Init<T, E>(cap)), es) == Some(p) && AllHandlesFit(Pack(Init<T, E>(cap)), es)
    ensures |p.delivered| <= |p.committed| <= |p.delivered| + cap
    ensures forall k :: 0 <= k < |p.delivered| ==> p.delivered[k] == Some(p.committed[k])
  {
    var z := Pack(Init<T, E>(cap));
    if !p.panicked {
      var fs, s := PackedRunSimulated(cap, es, p);
      Fifo(cap, fs, s);
      NothingLost(cap, fs, s);
    } else {
      var m := Before(z, es, p);
      FrontFits(z, es);
      PanicChangesNothing(m, es[|es| - 1], p);
      PackedFifo(cap, es[..|es| - 1], m);
    }
  }
}
