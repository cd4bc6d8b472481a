/** From any run of the step machine to the destructor: what `SharedState::drop` finds and drops. */
module Teardown {
  import opened Bits
  import opened Words
  import opened Options
  import opened Channel
  import opened ChannelInvariant
  import opened ChannelPreservation
  import opened ChannelTheorems
  import opened PackedChannel
  import opened Core

  function RawWords(queue: seq<SlotWord>): (r: seq<u16>)
    ensures |r| == |queue|
    ensures forall k :: 0 <= k < |queue| && queue[k].RawSlot? ==> r[k] == queue[k].w
  {
    seq(|queue|, (k: nat) requires k < |queue| => if queue[k].RawSlot? then queue[k].w else 0)
  }

  function Elements<T, E>(s: State<T, E>, cap: nat): seq<Option<T>> {
    seq(cap, (i: nat) => Cell(s, i))
  }

  /** The view of the core that a torn-down run leaves behind. */
  ghost function ViewOf<T, E>(s: State<T, E>, cap: nat): View<E>
    requires s.tail.Pos? && s.head.Pos? && |s.delivered| <= |s.order|
  {
    View(|s.delivered|, s.order[|s.delivered|..], s.free, {}, (set i: nat | i < cap && IsLost(s, i)),
         s.tail.closed, s.head.closed, s.state, s.error)
  }

  lemma TornOwners<T, E>(s: State<T, E>, cap: nat, i: nat)
    requires Inv(s, cap) && TornDown(s) && i < cap
    ensures i in s.owner && (i in s.free <==> s.owner[i].Free?)
    ensures s.owner[i].Free? || s.owner[i].Lost? || s.owner[i].Queued?
    ensures s.owner[i].Queued? <==> i in s.order[|s.delivered|..]
  {
    assert OwnerOk(s, i);
    var q := s.order[|s.delivered|..];
    if i in q {
      var k :| 0 <= k < |q| && q[k] == i;
      assert InUse(s.queue, s.order, s.owner, |s.delivered| + k);
    }
    if s.owner[i].Queued? {
      assert q[s.owner[i].pos - |s.delivered|] == i;
    }
  }

  lemma TornAccounts<T, E>(s: State<T, E>, cap: nat)
    requires Inv(s, cap) && TornDown(s)
    ensures ViewOf(s, cap).Accounted(cap)
  {
    var v := ViewOf(s, cap);
    UnreleasedCells(s, cap, v.contents);
    forall i: nat
      ensures i in v.free || i in v.lost || i in v.contents <==> i < cap
      ensures !(i in v.free && i in v.lost) && !(i in v.contents && (i in v.free || i in v.lost))
    {
      if i < cap {
        TornOwners(s, cap, i);
      }
    }
  }

  lemma TornSlots<T, E>(s: State<T, E>, cap: nat, p: nat)
    requires Inv(s, cap) && TornDown(s) && |s.committed| <= COMMIT_BOUND
    requires |s.delivered| <= p < |s.delivered| + MAX_CAPACITY
    ensures var w := RawWords(Pack(s).queue)[SlotOf(p)];
            if p < |s.order| then Shr(w) == p + 1 && And(w, MASK) == s.order[p] else Shr(w) == p
  {
    SlotsInRange(s, cap, SlotOf(p));
    var slot := At(s.queue, p);
    PackedSlotFields(slot.num, slot.idx);
    SlotWordsAgree(slot);
    if p < |s.order| {
      assert InUse(s.queue, s.order, s.owner, p);
      TornOwners(s, cap, s.order[p]);
    } else {
      assert Vacant(s.queue, p);
    }
  }

  lemma TornElements<T, E>(s: State<T, E>, cap: nat)
    requires Inv(s, cap) && TornDown(s)
    ensures Initialised(ViewOf(s, cap).contents, Elements(s, cap))
    ensures ValuesOf(ViewOf(s, cap).contents, Elements(s, cap)) == s.committed[|s.delivered|..]
  {
    var v := ViewOf(s, cap);
    var elements := Elements(s, cap);
    forall k | 0 <= k < |v.contents|
      ensures v.contents[k] < cap && Elements(s, cap)[v.contents[k]] == Some(s.committed[v.hd + k])
    {
      var p := v.hd + k;
      assert InUse(s.queue, s.order, s.owner, p);
      assert OwnerOk(s, s.order[p]);
    }
    ValuesAt(v.contents, elements);
    assert ValuesOf(v.contents, elements) == s.committed[|s.delivered|..];
  }

  lemma TornMoved<T, E>(s: State<T, E>, cap: nat)
    requires Inv(s, cap) && TornDown(s)
    ensures forall p: nat :: p in s.moved <==> p < |s.delivered|
    ensures forall p :: p in s.moved ==> p < |s.committed| && s.moved[p] == Some(s.committed[p])
  {
    forall p: nat ensures p in s.moved <==> p < |s.delivered| {
      if p < |s.delivered| {
        assert !Unread(s, p);
      }
    }
  }

  lemma TornHolds<T, E>(s: State<T, E>, cap: nat)
    requires Inv(s, cap) && TornDown(s) && |s.committed| <= COMMIT_BOUND
    ensures |s.order| <= |s.delivered| + cap && Holds(RawWords(Pack(s).queue), |s.delivered|, s.order[|s.delivered|..])
  {
    Fits(s, cap);
    var hd, queue := |s.delivered|, RawWords(Pack(s).queue);
    forall p: nat | hd <= p < hd + MAX_CAPACITY
      ensures if p < |s.order| then Shr(queue[SlotOf(p)]) == p + 1 && And(queue[SlotOf(p)], MASK) == s.order[p]
              else Shr(queue[SlotOf(p)]) == p
    {
      TornSlots(s, cap, p);
    }
  }

  lemma TornRepresents<T, E>(s: State<T, E>, cap: nat)
    requires Inv(s, cap) && TornDown(s) && |s.committed| <= COMMIT_BOUND
    ensures Pack(s).tail.Raw? && Pack(s).head.Raw? && Pack(s).state.RawState?
    ensures Represents(ViewOf(s, cap), cap, Pack(s).tail.w, Pack(s).head.w, RawWords(Pack(s).queue), s.free,
                       Pack(s).state.w, s.error)
  {
    TornAccounts(s, cap);
    TornHolds(s, cap);
  }

  /** When everyone has gone, the words left behind by any run with few enough commits are a valid core
      whose queue is what was committed and not received, with the values still in their cells. With
      `SharedState.Drop`, each committed message is moved out by the receiver or dropped there, and never both. */
  lemma EveryMessageMovedOrDropped<T, E>(cap: nat, es: seq<Event<T, E>>, s: State<T, E>)
    requires cap <= MAX_CAPACITY && Run(Init<T, E>(cap), es) == Some(s)
    requires TornDown(s) && |s.committed| <= COMMIT_BOUND
    ensures |s.delivered| <= |s.committed| == |s.order|
    ensures Positions(s) && Pack(s).tail.Raw? && Pack(s).head.Raw? && Pack(s).state.RawState?
    ensures Represents(ViewOf(s, cap), cap, Pack(s).tail.w, Pack(s).head.w, RawWords(Pack(s).queue), s.free,
                       Pack(s).state.w, s.error)
    ensures Initialised(ViewOf(s, cap).contents, Elements(s, cap))
    ensures ValuesOf(ViewOf(s, cap).contents, Elements(s, cap)) == s.committed[|s.delivered|..]
    ensures forall p: nat :: p in s.moved <==> p < |s.delivered|
    ensures forall p :: p in s.moved ==> s.moved[p] == Some(s.committed[p])
  {
    EveryRun(cap, es, s);
    TornRepresents(s, cap);
    TornElements(s, cap);
    TornMoved(s, cap);
  }

  // Words that stand for a view stand for no other queue.
  lemma WordsDetermineQueue<E>(v: View<E>, w: View<E>, capacity: nat, tail: u16, head: u16, queue: seq<u16>, indices: set<nat>,
                               state: nat, error: Option<E>)
    requires Represents(v, capacity, tail, head, queue, indices, state, error)
    requires Represents(w, capacity, tail, head, queue, indices, state, error)
    ensures v.hd == w.hd && v.contents == w.contents
  {
    WordFields(head, v.hd, v.txClosed);
    WordFields(head, w.hd, w.txClosed);
    WordFields(tail, v.Tail(), v.rxClosed);
    WordFields(tail, w.Tail(), w.rxClosed);
    forall k | 0 <= k < |v.contents| ensures v.contents[k] == w.contents[k] {
      assert And(queue[SlotOf(v.hd + k)], MASK) == v.contents[(v.hd + k) - v.hd];
      assert And(queue[SlotOf(v.hd + k)], MASK) == w.contents[(v.hd + k) - w.hd];
    }
  }

  /** The shared state has the words and the cells that the run of the machine has left. */
  ghost predicate LeftBehind<T, E>(shared: SharedState<T, E>, s: State<T, E>, cap: nat)
    reads shared, shared.core, shared.core.queue, shared.elements
  {
    && shared.core.capacity == cap && Pack(s).tail == Raw(shared.core.enqueuePos) && Pack(s).head == Raw(shared.core.dequeuePos)
    && RawWords(Pack(s).queue) == shared.core.queue[..] && Pack(s).state == RawState(shared.core.state)
    && s.free == shared.core.indices && s.error == shared.core.error && Elements(s, cap) == shared.elements[..]
  }

  /** Over a whole run, from the first reservation to the destructor: what the receiver did not dequeue is
      dropped here, in order, and nothing else is. */
  method DropAfterRun<T, E>(ghost cap: nat, ghost es: seq<Event<T, E>>, ghost s: State<T, E>, shared: SharedState<T, E>)
    returns (dropped: seq<T>)
    requires cap <= MAX_CAPACITY && Run(Init<T, E>(cap), es) == Some(s)
    requires TornDown(s) && |s.committed| <= COMMIT_BOUND
    requires shared.Valid() && LeftBehind(shared, s, cap)
    modifies shared.core, shared.core.queue, shared.elements
    ensures |s.delivered| <= |s.committed| && dropped == s.committed[|s.delivered|..]
  {
    EveryMessageMovedOrDropped(cap, es, s);
    WordsDetermineQueue(ViewOf(s, cap), shared.core.view, cap, shared.core.enqueuePos, shared.core.dequeuePos, shared.core.queue[..],
                        shared.core.indices, shared.core.state, shared.core.error);
    dropped := shared.Drop();
  }
}
