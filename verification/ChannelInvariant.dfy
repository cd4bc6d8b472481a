/** The invariant of the unbounded channel machine, and that every atomic operation keeps it. */
module ChannelInvariant {
  import opened Words
  import opened Options
  import opened Channel

  /** Slot of the ring that position `p` uses. */
  function At(queue: Queue, p: nat): SlotWord {
    queue[SlotOf(p)]
  }

  /** Positions dequeued so far and committed so far. */
  predicate Positions<T, E>(s: State<T, E>) {
    && s.tail.Pos? && s.tail.pos == |s.committed| == |s.order|
    && s.head.Pos? && s.head.pos == |s.delivered| + (if s.rx.Claimed? then 1 else 0)
    && s.head.pos <= s.tail.pos
  }

  /** The slot has sequence number `p`: nothing has been published in it for position `p` or later. */
  predicate Vacant(queue: Queue, p: nat) {
    At(queue, p).Slot? && At(queue, p).num == p && At(queue, p).idx < MAX_CAPACITY
  }

  /** The slot of a committed position that has not been released is either still waiting for its
      sender's store or holds the published index. */
  predicate InUse(queue: Queue, order: seq<nat>, owner: map<nat, Owner>, p: nat)
    requires p < |order|
  {
    && order[p] in owner
    && match owner[order[p]]
       case Pending(q, _) => q == p && Vacant(queue, p)
       case Queued(q) => q == p && At(queue, p) == Slot(p + 1, order[p])
       case _ => false
  }

  ghost predicate Ring<T, E>(s: State<T, E>) {
    && Positions(s)
    && (forall p: nat {:trigger InUse(s.queue, s.order, s.owner, p)} ::
          |s.delivered| <= p < |s.order| ==> InUse(s.queue, s.order, s.owner, p))
    && (forall p: nat {:trigger Vacant(s.queue, p)} ::
          |s.order| <= p < |s.delivered| + MAX_CAPACITY ==> Vacant(s.queue, p))
  }

  /** All handles are gone and every committed message has been dequeued. */
  predicate Drained<T, E>(s: State<T, E>) {
    s.lastDrop.Done? && |s.delivered| == |s.committed|
  }

  predicate Receiver<T, E>(s: State<T, E>)
    requires Positions(s)
  {
    match s.rx
    case Idle => true
    case GotHead(w) => w.Pos? && w.pos == s.head.pos && (w.closed ==> s.head.closed)
    case GotSlot(w, slot) =>
      && w.Pos? && w.pos == s.head.pos < s.tail.pos && (w.closed ==> s.head.closed)
      && PublishedAt(s, w.pos, slot)
    case Claimed(w, slot) => w.Pos? && w.pos == |s.delivered| && PublishedAt(s, w.pos, slot)
    case SawClosed => s.head.closed && (IsErrored(s.state) || Drained(s))
  }

  predicate PublishedAt<T, E>(s: State<T, E>, p: nat, slot: SlotWord)
    requires |s.committed| == |s.order|
  {
    && p < |s.order| && slot == Slot(p + 1, s.order[p])
    && s.order[p] in s.owner && s.owner[s.order[p]] == Queued(p)
  }

  predicate Owns<T, E>(s: State<T, E>, p: nat, i: nat) {
    i in s.owner && s.owner[i] == ByPermit(p)
  }

  ghost predicate PermitOk<T, E>(s: State<T, E>, p: nat)
    requires Positions(s) && p in s.permits
  {
    var a := s.permits[p];
    && a.h in s.handles
    && match a
       case Reserving(_) => true
       case Refused(_) => s.tail.closed
       case Reserved(_, i) => Owns(s, p, i)
       case Written(_, i, m) => Owns(s, p, i) && Cell(s, i) == Some(m)
       case GotTail(_, i, m, w) => Owns(s, p, i) && Cell(s, i) == Some(m) && w.Pos? && !w.closed && w.pos <= s.tail.pos
       case GotSlot(_, i, m, w) => Owns(s, p, i) && Cell(s, i) == Some(m) && w.Pos? && !w.closed && w.pos <= s.tail.pos
       case Claimed(_, i, m, w, pos) =>
         && w == Pos(pos, false) && s.head.pos <= pos < s.tail.pos && s.order[pos] == i
         && i in s.owner && s.owner[i] == Pending(pos, p)
  }

  ghost predicate OwnerOk<T, E>(s: State<T, E>, i: nat)
    requires Positions(s) && i in s.owner
  {
    match s.owner[i]
    case Free => i in s.free && i !in s.cells
    case ByPermit(p) =>
      && p in s.permits && HoldsIndex(s.permits[p]) && s.permits[p].idx == i
      && (i in s.cells <==> !s.permits[p].Reserved?)
    case Pending(pos, p) =>
      && p in s.permits && s.permits[p].Claimed? && s.permits[p].idx == i && s.permits[p].pos == pos
      && pos < s.tail.pos && Cell(s, i) == Some(s.committed[pos])
    case Queued(pos) =>
      && |s.delivered| <= pos < s.tail.pos && s.order[pos] == i && Cell(s, i) == Some(s.committed[pos])
    case ByRx(pos) =>
      && pos < |s.delivered| && s.order[pos] == i && i in s.held && s.held[i].pos == pos
      && Cell(s, i) == if s.held[i].taken then None else Some(s.committed[pos])
    case Lost => i in s.cells
  }

  ghost predicate Ownership<T, E>(s: State<T, E>, cap: nat)
    requires Positions(s)
  {
    && cap <= MAX_CAPACITY
    && (forall i: nat :: i in s.owner <==> i < cap)
    && (forall i :: i in s.free ==> i in s.owner && s.owner[i].Free?)
    && (forall i :: i in s.held ==> i in s.owner && s.owner[i] == ByRx(s.held[i].pos))
    && (forall i :: i in s.cells ==> i in s.owner)
    && (forall p {:trigger PermitOk(s, p)} {:trigger p in s.permits} :: p in s.permits ==> PermitOk(s, p))
    && (forall i {:trigger OwnerOk(s, i)} {:trigger i in s.owner} :: i in s.owner ==> OwnerOk(s, i))
  }

  /** The receiver still has to move this message out. */
  predicate Unread<T, E>(s: State<T, E>, p: nat)
    requires p < |s.order|
  {
    s.order[p] in s.held && s.held[s.order[p]] == Held(p, false)
  }

  ghost predicate Delivery<T, E>(s: State<T, E>)
    requires Positions(s)
  {
    && (forall p :: 0 <= p < |s.delivered| ==> s.delivered[p] == Some(s.committed[p]))
    && (forall p :: p in s.moved ==> p < |s.delivered| && s.moved[p] == Some(s.committed[p]))
    && (forall p: nat :: p < |s.delivered| ==> (p in s.moved <==> !Unread(s, p)))
  }

  ghost predicate Lives<T, E>(s: State<T, E>) {
    && s.state.Flags? && s.tail.Pos? && s.head.Pos?
    && s.state.txs == |s.handles|
    && (s.lastDrop.NotYet? <==> s.handles != {})
    && (s.rxLive ==> s.state.claimed)
    && (!s.rxLive ==> s.rx.Idle? && s.held == map[])
    && (s.tail.closed ==> s.state.errored || (s.state.claimed && !s.rxLive))
    && (s.state.claimed && !s.rxLive ==> s.tail.closed)
    && (s.head.closed ==> s.state.errored || s.lastDrop.Done?)
    && (s.lastDrop.Done? ==> s.head.closed)
    && !s.panicked
  }

  ghost predicate Closers<T, E>(s: State<T, E>)
    requires s.state.Flags? && s.tail.Pos? && s.head.Pos?
  {
    && (forall c :: c in s.closers ==> Live(s, s.closers[c].who) && s.state.erroring)
    && (forall c, d :: c in s.closers && d in s.closers ==> c == d)
    && (forall c :: c in s.closers ==>
          match s.closers[c]
          case Writing(_, _) => !s.state.errored && s.errors == []
          case Marking(_) => !s.state.errored && |s.errors| == 1 && s.error == Some(s.errors[0])
          case ClosingRx(_) => s.state.errored && (s.tail.closed ==> s.state.claimed && !s.rxLive) && (s.head.closed ==> s.lastDrop.Done?)
          case ClosingTx(_) => s.state.errored && s.tail.closed && (s.head.closed ==> s.lastDrop.Done?))
    && (!s.state.erroring ==> !s.state.errored && s.errors == [])
    && (s.state.erroring && s.closers == map[] ==> s.state.errored && s.tail.closed && s.head.closed)
    && (s.state.errored ==> |s.errors| == 1 && s.error == Some(s.errors[0]))
  }

  ghost predicate ReportOk<T, E>(s: State<T, E>, r: Report<E>)
    requires s.state.Flags? && (s.state.errored ==> |s.errors| == 1)
  {
    match r
    case Error(e) => s.state.errored && e == Some(s.errors[0])
    case TxDisconnected => s.state.claimed && !s.rxLive
    case RxDisconnected => Drained(s)
    case Full => true
    case Empty => true
  }

  ghost predicate Inv<T, E>(s: State<T, E>, cap: nat) {
    && Ring(s)
    && Receiver(s)
    && Ownership(s, cap)
    && Delivery(s)
    && Lives(s)
    && Closers(s)
    && (forall r :: r in s.reports ==> ReportOk(s, r))
  }

  lemma InitInv<T, E>(cap: nat)
    requires cap <= MAX_CAPACITY
    ensures Inv(Init<T, E>(cap), cap)
  {
    var s := Init<T, E>(cap);
    forall p: nat | p < MAX_CAPACITY ensures Vacant(s.queue, p) {
      assert SlotOf(p) == p;
    }
    assert forall i :: i in s.owner ==> OwnerOk(s, i);
  }

  // ---- what leaves the queue alone, and what leaves the life cycle alone ----

  ghost predicate SameQueue<T, E>(s: State<T, E>, t: State<T, E>)
    requires s.tail.Pos? && s.head.Pos?
  {
    && t.tail.Pos? && t.tail.pos == s.tail.pos && t.head.Pos? && t.head.pos == s.head.pos
    && t.queue == s.queue && t.free == s.free && t.cells == s.cells && t.permits == s.permits && t.rx == s.rx
    && t.held == s.held && t.committed == s.committed && t.order == s.order && t.delivered == s.delivered
    && t.moved == s.moved && t.owner == s.owner
  }

  lemma FrameOwnership<T, E>(s: State<T, E>, cap: nat, t: State<T, E>)
    requires Positions(s) && Ownership(s, cap)
    requires SameQueue(s, t) && (s.tail.closed ==> t.tail.closed)
    requires forall p :: p in s.permits ==> s.permits[p].h in t.handles
    ensures Positions(t) && Ownership(t, cap)
  {
    forall p | p in t.permits ensures PermitOk(t, p) {
      assert PermitOk(s, p);
    }
    forall i | i in t.owner ensures OwnerOk(t, i) {
      assert OwnerOk(s, i);
    }
  }

  lemma FrameDelivery<T, E>(s: State<T, E>, t: State<T, E>)
    requires Positions(s) && Delivery(s) && Positions(t)
    requires t.delivered == s.delivered && t.moved == s.moved && t.held == s.held
    requires s.committed <= t.committed && s.order <= t.order
    ensures Delivery(t)
  {
    forall p: nat | p < |t.delivered| ensures p in t.moved <==> !Unread(t, p) {
      assert Unread(s, p) == Unread(t, p);
    }
  }

  lemma FrameRing<T, E>(s: State<T, E>, t: State<T, E>)
    requires Ring(s) && Receiver(s)
    requires Positions(t) && t.queue == s.queue && t.order == s.order && t.delivered == s.delivered
    requires t.rx == s.rx && t.head == s.head && t.state == s.state && t.lastDrop == s.lastDrop
    requires forall i :: i in s.owner && (s.owner[i].Pending? || s.owner[i].Queued?) ==> i in t.owner && t.owner[i] == s.owner[i]
    ensures Ring(t) && Receiver(t)
  {
    forall p: nat | |t.delivered| <= p < |t.order| ensures InUse(t.queue, t.order, t.owner, p) {
      assert InUse(s.queue, s.order, s.owner, p);
    }
  }

  lemma FrameQueue<T, E>(s: State<T, E>, cap: nat, t: State<T, E>)
    requires Ring(s) && Receiver(s) && Ownership(s, cap) && Delivery(s)
    requires SameQueue(s, t) && s.state.Flags? && t.state.Flags?
    requires forall p :: p in s.permits ==> s.permits[p].h in t.handles
    requires (s.head.closed ==> t.head.closed) && (s.tail.closed ==> t.tail.closed)
    requires s.state.errored ==> t.state.errored
    requires s.lastDrop.Done? ==> t.lastDrop.Done?
    ensures Ring(t) && Receiver(t) && Ownership(t, cap) && Delivery(t)
  {
    FrameOwnership(s, cap, t);
    FrameDelivery(s, t);
  }

  lemma HandlesOfPermits<T, E>(s: State<T, E>, cap: nat)
    requires Positions(s) && Ownership(s, cap)
    ensures forall p :: p in s.permits ==> s.permits[p].h in s.handles
  {
    forall p | p in s.permits ensures s.permits[p].h in s.handles {
      assert PermitOk(s, p);
    }
  }

  lemma FrameLife<T, E>(s: State<T, E>, t: State<T, E>)
    requires Lives(s) && Closers(s)
    requires forall r :: r in s.reports ==> ReportOk(s, r)
    requires t.state == s.state && t.error == s.error && t.handles == s.handles && t.rxLive == s.rxLive
    requires t.lastDrop == s.lastDrop && t.closers == s.closers && t.errors == s.errors && t.panicked == s.panicked
    requires t.tail.Pos? && t.tail.closed == s.tail.closed && t.head.Pos? && t.head.closed == s.head.closed
    requires !t.rxLive ==> t.rx == s.rx && t.held == s.held
    requires Drained(s) ==> Drained(t)
    ensures Lives(t) && Closers(t)
    ensures forall r :: r in s.reports ==> ReportOk(t, r)
  {
    forall c | c in t.closers ensures Live(t, t.closers[c].who) {
      assert Live(s, s.closers[c].who);
    }
    forall r | r in s.reports ensures ReportOk(t, r) {
      assert ReportOk(s, r);
    }
  }
}
