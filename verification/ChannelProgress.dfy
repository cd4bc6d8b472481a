/** The channel's operations do what they are for: a thread that runs on its own from any reachable state,
    wherever the others have stopped, sends, receives or reserves in a fixed number of steps, and the
    reports of a full or an empty channel mean what they say. */
module ChannelProgress {
  import opened Options
  import opened Words
  import opened Channel
  import opened ChannelInvariant
  import opened ChannelPreservation
  import opened ChannelTheorems
  import opened ChannelRuns

  lemma RoomAtTail<T, E>(s: State<T, E>, cap: nat, p: nat)
    requires Inv(s, cap) && p in s.permits && HoldsIndex(s.permits[p])
    ensures At(s.queue, s.tail.pos).Slot? && At(s.queue, s.tail.pos).num == s.tail.pos
    ensures s.permits[p].idx < MAX_CAPACITY
  {
    Room(s, cap, p);
    assert Vacant(s.queue, s.tail.pos);
    assert PermitOk(s, p);
  }

  // A sender alone: what each of its events does.
  lemma LoadsTail<T, E>(s: State<T, E>, p: nat, h: nat, i: nat, m: T)
    requires !s.panicked && p in s.permits && s.permits[p] == Written(h, i, m) && !IsClosed(s.tail)
    ensures Step(s, LoadTail(p)) == Some(s.(permits := s.permits[p := GotTail(h, i, m, s.tail)]))
  {
  }

  lemma SeesRoom<T, E>(s: State<T, E>, p: nat, h: nat, i: nat, m: T, w: Word)
    requires !s.panicked && p in s.permits && s.permits[p] == GotTail(h, i, m, w)
    requires w.Pos? && At(s.queue, w.pos).Slot? && At(s.queue, w.pos).num == w.pos
    ensures Step(s, LoadTailSlot(p)) == Some(s.(permits := s.permits[p := Permit.GotSlot(h, i, m, w)]))
  {
  }

  lemma WinsAndStores<T, E>(s: State<T, E>, p: nat, h: nat, i: nat, m: T, w: Word) returns (s1: State<T, E>, t: State<T, E>)
    requires !s.panicked && p in s.permits && s.permits[p] == Permit.GotSlot(h, i, m, w) && i < MAX_CAPACITY
    requires s.tail == w && w.Pos? && w.pos == |s.committed|
    ensures Step(s, CasTail(p, false)) == Some(s1) && Step(s1, StoreTailSlot(p)) == Some(t)
    ensures t.committed == s.committed + [m] && p !in t.permits && At(t.queue, |s.committed|) == Slot(|s.committed| + 1, i)
  {
    s1 := Step(s, CasTail(p, false)).value;
    assert s1.permits[p] == Permit.Claimed(h, i, m, w, |s.committed|);
    t := Step(s1, StoreTailSlot(p)).value;
  }

  /** From every reachable state, a sender with a written cell that runs alone while the channel is open sends its
      message: it is committed as the next one and published in its slot, and the permit is done. */
  lemma SoloSend<T, E>(cap: nat, es: seq<Event<T, E>>, s: State<T, E>, p: nat) returns (t: State<T, E>)
    requires cap <= MAX_CAPACITY && Run(Init<T, E>(cap), es) == Some(s)
    requires p in s.permits && s.permits[p].Written? && !IsClosed(s.tail)
    ensures Run(s, [LoadTail(p), LoadTailSlot(p)] + [CasTail(p, false), StoreTailSlot(p)]) == Some(t)
    ensures t.committed == s.committed + [s.permits[p].msg] && p !in t.permits
    ensures At(t.queue, |s.committed|) == Slot(|s.committed| + 1, s.permits[p].idx)
  {
    EveryRun(cap, es, s);
    RoomAtTail(s, cap, p);
    t := SendsFrom(s, p, s.permits[p]);
  }

  lemma SendsFrom<T, E>(s: State<T, E>, p: nat, a: Permit<T>) returns (t: State<T, E>)
    requires !s.panicked && p in s.permits && s.permits[p] == a && a.Written? && !IsClosed(s.tail)
    requires s.tail.Pos? && s.tail.pos == |s.committed| && a.idx < MAX_CAPACITY
    requires At(s.queue, s.tail.pos).Slot? && At(s.queue, s.tail.pos).num == s.tail.pos
    ensures Run(s, [LoadTail(p), LoadTailSlot(p)] + [CasTail(p, false), StoreTailSlot(p)]) == Some(t)
    ensures t.committed == s.committed + [a.msg] && p !in t.permits
    ensures At(t.queue, |s.committed|) == Slot(|s.committed| + 1, a.idx)
  {
    var s1 := s.(permits := s.permits[p := GotTail(a.h, a.idx, a.msg, s.tail)]);
    var s2 := s1.(permits := s1.permits[p := Permit.GotSlot(a.h, a.idx, a.msg, s.tail)]);
    LoadsTail(s, p, a.h, a.idx, a.msg);
    SeesRoom(s1, p, a.h, a.idx, a.msg, s.tail);
    var s3;
    s3, t := WinsAndStores(s2, p, a.h, a.idx, a.msg, s.tail);
    Chain2(s, LoadTail(p), s1, LoadTailSlot(p), s2);
    Chain2(s2, CasTail(p, false), s3, StoreTailSlot(p), t);
    Continue(s, [LoadTail(p), LoadTailSlot(p)], s2, [CasTail(p, false), StoreTailSlot(p)], t);
  }

  /** The next message is published: its sender has stored the slot. */
  ghost predicate Ready<T, E>(s: State<T, E>) {
    |s.delivered| < |s.order| && s.order[|s.delivered|] in s.owner && s.owner[s.order[|s.delivered|]] == Queued(|s.delivered|)
  }

  /** A receiver that looks at the slot of its head goes on to dequeue if and only if the next message is
      ready; otherwise it reports `Empty`, or, if the head it loaded was closed, the reason. */
  lemma LookExactly<T, E>(cap: nat, es: seq<Event<T, E>>, s: State<T, E>, t: State<T, E>)
    requires cap <= MAX_CAPACITY && Run(Init<T, E>(cap), es) == Some(s)
    requires s.rx.GotHead? && Step(s, LoadHeadSlot) == Some(t)
    ensures t.rx.GotSlot? <==> Ready(s)
    ensures !Ready(s) ==> if IsClosed(s.rx.word) then t.rx.SawClosed? else t.rx.Idle? && t.reports == s.reports + [Empty]
  {
    EveryRun(cap, es, s);
    SlotAtHead(s, cap);
  }

  lemma SeesMessage<T, E>(s: State<T, E>, w: Word, slot: SlotWord)
    requires !s.panicked && s.rxLive && s.rx.Idle? && s.head == w && w.Pos?
    requires slot == At(s.queue, w.pos) && slot.Slot? && slot.num == w.pos + 1
    ensures Step(s, LoadHead) == Some(s.(rx := GotHead(w)))
    ensures Step(s.(rx := GotHead(w)), LoadHeadSlot) == Some(s.(rx := Rx.GotSlot(w, slot)))
  {
  }

  lemma WinsAndReleases<T, E>(s: State<T, E>, w: Word, slot: SlotWord) returns (s1: State<T, E>, t: State<T, E>)
    requires !s.panicked && s.rx == Rx.GotSlot(w, slot) && s.head == w && w.Pos? && slot.Slot?
    ensures Step(s, CasHead(false)) == Some(s1) && Step(s1, StoreHeadSlot) == Some(t)
    ensures t.delivered == s.delivered + [Cell(s, slot.idx)] && t.rx.Idle? && t.head == Advance(w)
    ensures t.held == s.held[slot.idx := Held(|s.delivered|, false)]
  {
    s1 := Step(s, CasHead(false)).value;
    t := Step(s1, StoreHeadSlot).value;
  }

  lemma ReceivesFrom<T, E>(s: State<T, E>, slot: SlotWord) returns (t: State<T, E>)
    requires !s.panicked && s.rxLive && s.rx.Idle? && s.head.Pos?
    requires slot == At(s.queue, s.head.pos) && slot.Slot? && slot.num == s.head.pos + 1
    ensures Run(s, [LoadHead, LoadHeadSlot] + [CasHead(false), StoreHeadSlot]) == Some(t)
    ensures t.delivered == s.delivered + [Cell(s, slot.idx)] && t.rx.Idle? && t.head == Advance(s.head)
    ensures t.held == s.held[slot.idx := Held(|s.delivered|, false)]
  {
    SeesMessage(s, s.head, slot);
    var s2, s3 := s.(rx := Rx.GotSlot(s.head, slot)), s;
    s3, t := WinsAndReleases(s2, s.head, slot);
    Chain2(s, LoadHead, s.(rx := GotHead(s.head)), LoadHeadSlot, s2);
    Chain2(s2, CasHead(false), s3, StoreHeadSlot, t);
    Continue(s, [LoadHead, LoadHeadSlot], s2, [CasHead(false), StoreHeadSlot], t);
  }

  /** From every reachable state in which the next message is ready, a receiver that runs alone dequeues it. */
  lemma SoloReceive<T, E>(cap: nat, es: seq<Event<T, E>>, s: State<T, E>) returns (t: State<T, E>)
    requires cap <= MAX_CAPACITY && Run(Init<T, E>(cap), es) == Some(s)
    requires s.rxLive && s.rx.Idle? && Ready(s)
    ensures Run(s, [LoadHead, LoadHeadSlot] + [CasHead(false), StoreHeadSlot]) == Some(t)
    ensures |s.delivered| < |s.committed| && t.delivered == s.delivered + [Some(s.committed[|s.delivered|])] && t.rx.Idle?
    ensures t.held == s.held[s.order[|s.delivered|] := Held(|s.delivered|, false)]
  {
    EveryRun(cap, es, s);
    SlotAtHead(s, cap);
    assert OwnerOk(s, s.order[|s.delivered|]);
    t := ReceivesFrom(s, At(s.queue, |s.delivered|));
  }

  lemma WordsAsLoaded<T, E>(cap: nat, es: seq<Event<T, E>>, s: State<T, E>)
    requires cap <= MAX_CAPACITY && Run(Init<T, E>(cap), es) == Some(s)
    ensures s.tail.Pos? && s.head.Pos?
    ensures s.rx.GotSlot? ==> s.rx.word.Pos? && s.rx.word.pos == s.head.pos
  {
    EveryRun(cap, es, s);
  }

  /** An attempt on the tail fails if and only if it fails spuriously or the tail has moved or been closed since it was
      loaded; it then changes nothing, and the permit starts over with the tail as it is, or is refused. */
  lemma RetryExactly<T, E>(cap: nat, es: seq<Event<T, E>>, s: State<T, E>, p: nat, weak: bool, t: State<T, E>)
    requires cap <= MAX_CAPACITY && Run(Init<T, E>(cap), es) == Some(s) && Step(s, CasTail(p, weak)) == Some(t)
    ensures p in s.permits && s.permits[p].GotSlot? && t.queue == s.queue && t.free == s.free && t.cells == s.cells
    ensures t.tail == s.tail && t.committed == s.committed <==> weak || s.tail != s.permits[p].word
    ensures var a := s.permits[p];
            t.tail == s.tail ==> t.permits == s.permits[p := if IsClosed(s.tail) then Refused(a.h) else GotTail(a.h, a.idx, a.msg, s.tail)]
  {
    WordsAsLoaded(cap, es, s);
  }

  /** The same for the head: it cannot move under the only receiver, but it can be closed. */
  lemma RetryHeadExactly<T, E>(cap: nat, es: seq<Event<T, E>>, s: State<T, E>, weak: bool, t: State<T, E>)
    requires cap <= MAX_CAPACITY && Run(Init<T, E>(cap), es) == Some(s) && Step(s, CasHead(weak)) == Some(t)
    ensures s.rx.GotSlot? && t.queue == s.queue && t.delivered == s.delivered
    ensures t.head == s.head <==> weak || IsClosed(s.head) != IsClosed(s.rx.word)
    ensures t.head == s.head ==> t.rx == GotHead(s.head)
    ensures t.head != s.head ==> t.rx == Rx.Claimed(s.rx.word, s.rx.slot)
  {
    WordsAsLoaded(cap, es, s);
  }

  /** The index is in a permit, in the queue, in the receiver's hands, or lost. */
  ghost predicate Taken<T, E>(s: State<T, E>, i: nat) {
    (exists q :: HeldByPermit(s, i, q)) || (exists q :: InQueue(s, i, q)) || i in s.held || IsLost(s, i)
  }

  /** `Full` is reported only when every index is in a permit, in the queue, in the receiver's hands, or lost. */
  lemma FullExactly<T, E>(cap: nat, es: seq<Event<T, E>>, s: State<T, E>, p: nat)
    requires cap <= MAX_CAPACITY && Run(Init<T, E>(cap), es) == Some(s)
    requires p in s.permits && s.permits[p].Reserving?
    ensures Step(s, ReserveFull(p)).Some? <==> forall i: nat :: i < cap ==> Taken(s, i)
    ensures forall i: nat :: i in s.free ==> Step(s, ReserveAlloc(p, i)).Some?
  {
    FreeExactly(cap, es, s);
    NeverPanics(cap, es, s);
    if s.free != {} {
      var i :| i in s.free;
      assert !Taken(s, i);
    }
  }

  lemma FreeExactly<T, E>(cap: nat, es: seq<Event<T, E>>, s: State<T, E>)
    requires cap <= MAX_CAPACITY && Run(Init<T, E>(cap), es) == Some(s)
    ensures forall i: nat :: i in s.free <==> i < cap && !Taken(s, i)
  {
    EveryRun(cap, es, s);
    forall i: nat ensures i in s.free <==> i < cap && !Taken(s, i) {
      assert i in s.free ==> i in s.owner;
      if i < cap {
        Conservation(cap, es, s, i);
      }
    }
  }
}
