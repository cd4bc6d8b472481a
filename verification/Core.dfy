/** The channel core as an object: the code of `channel_core.rs`, run by one thread at a time, proved
    against a bounded queue of element indices. Racing calls are the subject of the step machine in
    `Channel`; what runs alone is the construction, the teardown, and every uncontended call. */
module Core {
  import opened Bits
  import opened Fields
  import opened Words
  import opened Options
  import opened Channel
  import opened ChannelPreservation

  datatype Result<+V, +F> = Ok(value: V) | Err(error: F)

  datatype Refusal<+E> = IsFull | IsEmpty | Disconnected | Failed(error: E)

  /** What the words of a core mean: `hd` messages have been dequeued, the indices in `contents` are
      queued, `out` are reserved or being received, `lost` belonged to a commit after the close. */
  datatype View<E> = View(hd: nat, contents: seq<nat>, free: set<nat>, out: set<nat>, lost: set<nat>,
                          rxClosed: bool, txClosed: bool, flags: StateWord, error: Option<E>)
  {
    ghost predicate Wf(capacity: nat) {
      && capacity <= MAX_CAPACITY && hd + |contents| <= COMMIT_BOUND && Accounted(capacity)
      && flags.Flags? && TX_ONE * (flags.txs + 2) < USIZE_MOD
      && (flags.errored ==> error.Some?)
    }

    /** Every index is free, reserved, lost, or queued once. */
    ghost predicate Accounted(capacity: nat) {
      && (forall j, k :: 0 <= j < k < |contents| ==> contents[j] != contents[k])
      && (forall i: nat :: i in free || i in out || i in lost || i in contents <==> i < capacity)
      && free !! out && free !! lost && out !! lost
      && (forall i :: i in contents ==> i !in free && i !in out && i !in lost)
    }

    function Tail(): nat { hd + |contents| }

    /** The first index of the queue goes to the receiver. */
    function Dequeued(): View<E>
      requires contents != []
    {
      this.(hd := hd + 1, contents := contents[1..], out := out + {contents[0]})
    }

    /** The refusal is the error if one has been set, else `Disconnected`. */
    ghost predicate Explains(refusal: Refusal<E>) {
      && (flags.Flags? && flags.errored ==> error.Some? && refusal == Failed(error.value))
      && (flags.Flags? && !flags.errored ==> refusal == Disconnected)
    }
  }

  /** The slots hold what is queued, each at its position, and the others are vacant up to one lap ahead. */
  predicate Holds(queue: seq<u16>, hd: nat, contents: seq<nat>)
    requires |queue| == MAX_CAPACITY
  {
    && (forall p: nat {:trigger SlotOf(p)} :: hd <= p < hd + |contents| ==>
          Shr(queue[SlotOf(p)]) == p + 1 && And(queue[SlotOf(p)], MASK) == contents[p - hd])
    && (forall p: nat {:trigger SlotOf(p)} :: hd + |contents| <= p < hd + MAX_CAPACITY ==> Shr(queue[SlotOf(p)]) == p)
  }

  predicate IsWord(w: u16, p: nat, closed: bool) {
    p < SEQ_MOD && PackWord(Pos(p, closed)) == Raw(w)
  }

  // ---- the words ----

  lemma WordFields(w: u16, p: nat, closed: bool)
    requires IsWord(w, p, closed)
    ensures Shr(w) == p && And(w, CLOSED) == Bit(closed) && And(Shr(w), MASK) == SlotOf(p)
    ensures p + 1 < SEQ_MOD ==> IsWord(WrappingAdd(w, POS_ONE), p + 1, closed)
  {
    PackedFields(p, closed);
    ClosedIsParity(w);
    MaskIsMod(p);
    if p + 1 < SEQ_MOD {
      AdvanceAgrees(Pos(p, closed));
    }
  }

  lemma CloseWord(w: u16, p: nat, closed: bool)
    requires IsWord(w, p, closed)
    ensures Or(w, CLOSED) < 0x1_0000 && IsWord(Or(w, CLOSED), p, true)
  {
    SetLowBit(w);
    CloseAgrees(Pos(p, closed));
  }

  lemma LapAhead(v: u16, q: nat)
    requires Shr(v) == q && q + MASK < SEQ_MOD
    ensures Shr(WrappingAdd(v, LAP_ONE)) == q + MASK
  {
    LapsOn(v);
    assert LAP_ONE == MASK * MAX_CAPACITY && v + LAP_ONE < 0x1_0000;
    SmallRemainder(v + LAP_ONE, 0x1_0000);
  }

  lemma PublishedFields(p: nat, idx: nat)
    requires p + 1 < SEQ_MOD && idx < MAX_CAPACITY
    ensures var w := Or(idx, Shl(WrappingAdd(p, 1))); w < 0x1_0000 && Shr(w) == p + 1 && And(w, MASK) == idx
  {
    PublishAgrees(Pos(p, false), idx);
    PackedFields(p, false);
    PackedSlotFields(p + 1, idx);
    SlotWordsAgree(Slot(p + 1, idx));
  }

  lemma DistinctSlots(p: nat, q: nat)
    requires p < q <= p + MAX_CAPACITY
    ensures SlotOf(p) == SlotOf(q) <==> q == p + MAX_CAPACITY
  {
    Laps(p, q - p, MAX_CAPACITY);
  }

  lemma HoldsAfterDequeue(queue: seq<u16>, hd: nat, contents: seq<nat>, v: u16)
    requires |queue| == MAX_CAPACITY && Holds(queue, hd, contents)
    requires contents != [] && |contents| <= MAX_CAPACITY && Shr(v) == hd + MAX_CAPACITY
    ensures Holds(queue[SlotOf(hd) := v], hd + 1, contents[1..])
  {
    var q, c := queue[SlotOf(hd) := v], contents[1..];
    forall p: nat | hd + 1 <= p < hd + 1 + |c|
      ensures Shr(q[SlotOf(p)]) == p + 1 && And(q[SlotOf(p)], MASK) == c[p - (hd + 1)]
    {
      DistinctSlots(hd, p);
    }
    forall p: nat | hd + 1 + |c| <= p < hd + 1 + MAX_CAPACITY ensures Shr(q[SlotOf(p)]) == p {
      DistinctSlots(hd, p);
    }
  }

  lemma HoldsAfterCommit(queue: seq<u16>, hd: nat, contents: seq<nat>, idx: nat, v: u16)
    requires |queue| == MAX_CAPACITY && Holds(queue, hd, contents) && |contents| < MAX_CAPACITY
    requires Shr(v) == hd + |contents| + 1 && And(v, MASK) == idx
    ensures Holds(queue[SlotOf(hd + |contents|) := v], hd, contents + [idx])
  {
    var n, c := hd + |contents|, contents + [idx];
    var q := queue[SlotOf(n) := v];
    forall p: nat | hd <= p < hd + |c| ensures Shr(q[SlotOf(p)]) == p + 1 && And(q[SlotOf(p)], MASK) == c[p - hd] {
      if p < n {
        DistinctSlots(p, n);
      }
    }
    forall p: nat | hd + |c| <= p < hd + MAX_CAPACITY ensures Shr(q[SlotOf(p)]) == p {
      DistinctSlots(n, p);
    }
  }

  /** Someone who holds a reservation knows that the queue is not full: the reason for the
      `unreachable!` in `commit_send`. */
  lemma ReservationMeansRoom<E>(v: View<E>, capacity: nat, idx: nat)
    requires v.Wf(capacity) && idx in v.out
    ensures |v.contents| < capacity && idx < capacity
  {
    var q := v.contents + [idx];
    assert forall k :: 0 <= k < |v.contents| ==> q[k] in v.contents;
    Pigeonhole(q, capacity);
  }

  lemma QueueFits<E>(v: View<E>, capacity: nat)
    requires v.Wf(capacity)
    ensures |v.contents| <= capacity
  {
    assert forall k :: 0 <= k < |v.contents| ==> v.contents[k] in v.contents;
    Pigeonhole(v.contents, capacity);
  }

  lemma AccountedAfterCommit<E>(v: View<E>, capacity: nat, idx: nat)
    requires v.Wf(capacity) && idx in v.out
    ensures |v.contents| < capacity && idx < capacity
    ensures v.(out := v.out - {idx}, contents := v.contents + [idx]).Accounted(capacity)
  {
    ReservationMeansRoom(v, capacity, idx);
    var t := v.(out := v.out - {idx}, contents := v.contents + [idx]);
    assert forall i :: i in t.contents <==> i in v.contents || i == idx;
  }

  lemma AccountedAfterDequeue<E>(v: View<E>, capacity: nat)
    requires v.Wf(capacity) && v.contents != []
    ensures v.Dequeued().Accounted(capacity)
  {
    assert v.contents == [v.contents[0]] + v.contents[1..];
    assert forall i :: i in v.contents <==> i == v.contents[0] || i in v.contents[1..];
    assert v.contents[0] !in v.contents[1..];
  }

  /** The words of a core stand for the view `v`. */
  ghost predicate Represents<E>(v: View<E>, capacity: nat, enqueuePos: u16, dequeuePos: u16, queue: seq<u16>,
                                indices: set<nat>, state: nat, error: Option<E>)
  {
    && |queue| == MAX_CAPACITY && v.Wf(capacity)
    && IsWord(enqueuePos, v.Tail(), v.rxClosed) && IsWord(dequeuePos, v.hd, v.txClosed)
    && Holds(queue, v.hd, v.contents)
    && indices == v.free && RawState(state) == PackState(v.flags) && error == v.error
  }

  lemma CommitRepresents<E>(v: View<E>, capacity: nat, tail: u16, head: u16, queue: seq<u16>, indices: set<nat>, state: nat,
                            error: Option<E>, idx: nat)
    requires Represents(v, capacity, tail, head, queue, indices, state, error) && idx in v.out && v.Tail() < COMMIT_BOUND
    ensures idx < MAX_CAPACITY
    ensures var w := Or(idx, Shl(WrappingAdd(Shr(tail), 1)));
            w < 0x1_0000 && Represents(v.(out := v.out - {idx}, contents := v.contents + [idx]), capacity,
              WrappingAdd(tail, POS_ONE), head, queue[SlotOf(v.Tail()) := w], indices, state, error)
  {
    AccountedAfterCommit(v, capacity, idx);
    WordFields(tail, v.Tail(), v.rxClosed);
    PublishedFields(v.Tail(), idx);
    HoldsAfterCommit(queue, v.hd, v.contents, idx, Or(idx, Shl(WrappingAdd(Shr(tail), 1))));
  }

  lemma DequeueRepresents<E>(v: View<E>, capacity: nat, tail: u16, head: u16, queue: seq<u16>, indices: set<nat>, state: nat,
                             error: Option<E>)
    requires Represents(v, capacity, tail, head, queue, indices, state, error) && v.contents != []
    ensures And(queue[SlotOf(v.hd)], MASK) == v.contents[0] && Shr(queue[SlotOf(v.hd)]) == v.hd + 1
    ensures Represents(v.Dequeued(), capacity, tail,
              WrappingAdd(head, POS_ONE), queue[SlotOf(v.hd) := WrappingAdd(queue[SlotOf(v.hd)], LAP_ONE)], indices, state, error)
  {
    QueueFits(v, capacity);
    WordFields(head, v.hd, v.txClosed);
    LapAhead(queue[SlotOf(v.hd)], v.hd + 1);
    HoldsAfterDequeue(queue, v.hd, v.contents, WrappingAdd(queue[SlotOf(v.hd)], LAP_ONE));
    AccountedAfterDequeue(v, capacity);
  }

  /** What a look at the slot of the tail tells. */
  lemma LookAtTail<E>(v: View<E>, capacity: nat, tail: u16, queue: seq<u16>)
    requires v.Wf(capacity) && IsWord(tail, v.Tail(), v.rxClosed) && |queue| == MAX_CAPACITY && Holds(queue, v.hd, v.contents)
    ensures And(tail, CLOSED) == Bit(v.rxClosed) && And(Shr(tail), MASK) == SlotOf(v.Tail())
    ensures v.out != {} ==> WrappingSubI16(AsI16(Shr(queue[SlotOf(v.Tail())])), AsI16(Shr(tail))) == 0
  {
    WordFields(tail, v.Tail(), v.rxClosed);
    SmallDifferences(v.Tail(), v.Tail());
    if i :| i in v.out {
      ReservationMeansRoom(v, capacity, i);
    }
  }

  /** What a look at the slot of the head tells: whether something is queued. */
  lemma LookAtHead<E>(v: View<E>, capacity: nat, head: u16, queue: seq<u16>)
    requires v.Wf(capacity) && IsWord(head, v.hd, v.txClosed) && |queue| == MAX_CAPACITY && Holds(queue, v.hd, v.contents)
    ensures And(head, CLOSED) == Bit(v.txClosed) && And(Shr(head), MASK) == SlotOf(v.hd)
    ensures var dif := WrappingSubI16(AsI16(Shr(queue[SlotOf(v.hd)])), AsI16(WrappingAdd(Shr(head), 1)));
            if v.contents == [] then dif < 0 else dif == 0
  {
    WordFields(head, v.hd, v.txClosed);
    var num := Shr(queue[SlotOf(v.hd)]);
    assert num == if v.contents == [] then v.hd else v.hd + 1;
    SmallRemainder(Shr(head) + 1, 0x1_0000);
    SmallDifferences(num, v.hd + 1);
  }

  predicate Initialised<T>(contents: seq<nat>, elements: seq<Option<T>>) {
    forall k :: 0 <= k < |contents| ==> contents[k] < |elements| && elements[contents[k]].Some?
  }

  /** The values of the queued cells, in order. */
  function ValuesOf<T>(contents: seq<nat>, elements: seq<Option<T>>): (r: seq<T>)
    requires Initialised(contents, elements)
  {
    if contents == [] then [] else [elements[contents[0]].value] + ValuesOf(contents[1..], elements)
  }

  lemma {:induction false} ValuesAt<T>(contents: seq<nat>, elements: seq<Option<T>>)
    requires Initialised(contents, elements)
    ensures |ValuesOf(contents, elements)| == |contents|
    ensures forall k :: 0 <= k < |contents| ==> Some(ValuesOf(contents, elements)[k]) == elements[contents[k]]
  {
    if contents != [] {
      ValuesAt(contents[1..], elements);
    }
  }

  lemma MessagesAfterDrop<T>(contents: seq<nat>, elements: seq<Option<T>>)
    requires Initialised(contents, elements) && contents != []
    requires forall k :: 1 <= k < |contents| ==> contents[k] != contents[0]
    ensures Initialised(contents[1..], elements[contents[0] := None])
    ensures ValuesOf(contents, elements) ==
            [elements[contents[0]].value] + ValuesOf(contents[1..], elements[contents[0] := None])
  {
    ValuesAt(contents[1..], elements);
    ValuesAt(contents[1..], elements[contents[0] := None]);
    assert ValuesOf(contents[1..], elements) == ValuesOf(contents[1..], elements[contents[0] := None]);
  }

  /** `fetch_add(TX_ONE)` and `fetch_sub(TX_ONE)`. */
  function Plus(state: nat): nat { (state + TX_ONE) % USIZE_MOD }
  function Minus(state: nat): nat { (state - TX_ONE) % USIZE_MOD }

  lemma SenderWord(flags: StateWord, w: nat)
    requires flags.Flags? && TX_ONE * (flags.txs + 2) < USIZE_MOD && PackState(flags) == RawState(w)
    ensures w / TX_ONE == flags.txs && PackState(AddSender(flags)) == RawState(Plus(w))
    ensures flags.txs > 0 ==> PackState(SubSender(flags)) == RawState(Minus(w)) && Minus(w) / TX_ONE == flags.txs - 1
  {
    SenderCountAgrees(flags);
    assert AddSender(RawState(w)) == RawState(Plus(w));
    if flags.txs > 0 {
      OneSenderLess(flags, w);
    }
  }

  lemma OneSenderLess(flags: StateWord, w: nat)
    requires flags.Flags? && TX_ONE * (flags.txs + 2) < USIZE_MOD && PackState(flags) == RawState(w) && flags.txs > 0
    ensures PackState(SubSender(flags)) == RawState(Minus(w)) && Minus(w) / TX_ONE == flags.txs - 1
  {
    SenderCountAgrees(flags);
    assert SubSender(RawState(w)) == RawState(Minus(w));
    SenderCountAgrees(SubSender(flags));
  }

  lemma Reflagged<E>(v: View<E>, capacity: nat, tail: u16, head: u16, queue: seq<u16>, indices: set<nat>, state: nat,
                     error: Option<E>, flags: StateWord, word: nat)
    requires Represents(v, capacity, tail, head, queue, indices, state, error)
    requires flags.Flags? && TX_ONE * (flags.txs + 2) < USIZE_MOD && (flags.errored ==> error.Some?)
    requires PackState(flags) == RawState(word)
    ensures Represents(v.(flags := flags), capacity, tail, head, queue, indices, word, error)
  {
  }

  lemma WithError<E>(v: View<E>, capacity: nat, tail: u16, head: u16, queue: seq<u16>, indices: set<nat>, state: nat,
                     error: Option<E>, e: E)
    requires Represents(v, capacity, tail, head, queue, indices, state, error)
    ensures Represents(v.(flags := SetErrored(v.flags), error := Some(e)), capacity, tail, head, queue, indices,
                       Or(state, ERRORED), Some(e))
  {
    ErroredAgrees(v.flags);
  }

  class Core<E> {
    var enqueuePos: u16
    var dequeuePos: u16
    const queue: array<u16>
    const capacity: nat
    var indices: set<nat>
    var state: nat
    var error: Option<E>
    ghost var view: View<E>

    ghost predicate Valid()
      reads this, queue
    {
      queue.Length == MAX_CAPACITY && Represents(view, capacity, enqueuePos, dequeuePos, queue[..], indices, state, error)
    }

    constructor (capacity: nat)
      requires capacity <= MAX_CAPACITY
      ensures Valid() && fresh(queue) && this.capacity == capacity
      ensures view == View(0, [], Indices(capacity), {}, {}, false, false, Flags(false, false, false, 1), None)
    {
      this.capacity := capacity;
      enqueuePos, dequeuePos := 0, 0;
      indices := Indices(capacity);
      state := TX_ONE;
      error := None;
      view := View(0, [], Indices(capacity), {}, {}, false, false, Flags(false, false, false, 1), None);
      queue := new u16[MAX_CAPACITY];
      new;
      var i := 0;
      while i != MAX_CAPACITY
        invariant 0 <= i <= MAX_CAPACITY && queue.Length == MAX_CAPACITY && fresh(queue)
        invariant enqueuePos == 0 && dequeuePos == 0 && indices == Indices(capacity) && state == TX_ONE && error == None
        invariant view == View(0, [], Indices(capacity), {}, {}, false, false, Flags(false, false, false, 1), None)
        invariant forall p: nat {:trigger SlotOf(p)} :: p < i ==> Shr(queue[SlotOf(p)]) == p
      {
        SmallRemainder(i, MAX_CAPACITY);
        ShiftedPosition(i);
        PositionFieldsOf(i, 0);
        queue[i] := Shl(i);
        forall p: nat | p < i + 1 ensures Shr(queue[SlotOf(p)]) == p {
          SmallRemainder(p, MAX_CAPACITY);
        }
        i := i + 1;
      }
    }

    // What is queued is queued once, in range, and not reserved.
    lemma QueuedIndices()
      requires Valid()
      ensures forall j, k :: 0 <= j < k < |view.contents| ==> view.contents[j] != view.contents[k]
      ensures forall k :: 0 <= k < |view.contents| ==> view.contents[k] < capacity && view.contents[k] !in view.out
    {
      assert forall k :: 0 <= k < |view.contents| ==> view.contents[k] in view.contents;
    }

    method CloseReason() returns (r: Refusal<E>)
      requires Valid()
      ensures forall e: E :: r == Failed(e) <==> view.flags.errored && view.error == Some(e)
      ensures r == Disconnected <==> !view.flags.errored
    {
      ErroredAgrees(view.flags);
      if And(state, ERRORED) != 0 && error.Some? {
        r := Failed(error.value);
      } else {
        r := Disconnected;
      }
    }

    method TryReserve() returns (r: Result<nat, Refusal<E>>)
      requires Valid()
      modifies this
      ensures Valid()
      ensures old(view).rxClosed ==> r.Err? && old(view).Explains(r.error)
      ensures !old(view).rxClosed && old(view).free == {} ==> r == Err(IsFull)
      ensures !old(view).rxClosed && old(view).free != {} ==> r.Ok? && r.value in old(view).free
      ensures view == if r.Ok? then old(view).(free := old(view).free - {r.value}, out := old(view).out + {r.value})
                      else old(view)
    {
      WordFields(enqueuePos, view.Tail(), view.rxClosed);
      if And(enqueuePos, CLOSED) == CLOSED {
        var reason := CloseReason();
        return Err(reason);
      }
      if indices == {} {
        return Err(IsFull);
      }
      var i :| i in indices;
      indices := indices - {i};
      view := view.(free := view.free - {i}, out := view.out + {i});
      return Ok(i);
    }

    /** A reservation dropped without being sent, or after its message was received. */
    method Uncommit(idx: nat)
      requires Valid() && idx in view.out
      modifies this
      ensures Valid()
      ensures view == old(view).(free := old(view).free + {idx}, out := old(view).out - {idx})
    {
      indices := indices + {idx};
      view := view.(free := view.free + {idx}, out := view.out - {idx});
    }

    /** The loop of `commit_send` up to the compare-and-swap that succeeds: the position won.
        `spurious` is how often `compare_exchange_weak` fails for no reason before it does. */
    method WinTail(spurious: nat) returns (r: Result<nat, Refusal<E>>)
      requires Valid() && view.out != {}
      ensures if view.rxClosed then r.Err? && view.Explains(r.error) else r == Ok(view.Tail())
    {
      var failures, tail := spurious, enqueuePos;
      while true
        invariant tail == enqueuePos
        decreases failures
      {
        LookAtTail(view, capacity, tail, queue[..]);
        if And(tail, CLOSED) == CLOSED {
          var reason := CloseReason();
          return Err(reason);
        }
        var pos := Shr(tail);
        var dif := WrappingSubI16(AsI16(Shr(queue[And(pos, MASK)])), AsI16(pos));
        WordFields(tail, view.Tail(), view.rxClosed);
        if dif != 0 {
          assert false;                             // behind: `unreachable!`; ahead: only after a race
        } else if failures == 0 {
          return Ok(pos);
        }
        failures := failures - 1;
        tail := enqueuePos;
      }
    }

    method CommitSend(idx: nat, spurious: nat) returns (r: Result<(), Refusal<E>>)
      requires Valid() && idx in view.out && view.Tail() < COMMIT_BOUND
      modifies this, queue
      ensures Valid()
      ensures if old(view).rxClosed then r.Err? && old(view).Explains(r.error) else r == Ok(())
      ensures view == if old(view).rxClosed
                      then old(view).(out := old(view).out - {idx}, lost := old(view).lost + {idx})
                      else old(view).(out := old(view).out - {idx}, contents := old(view).contents + [idx])
    {
      var won := WinTail(spurious);
      if won.Err? {
        view := view.(out := view.out - {idx}, lost := view.lost + {idx});
        return Err(won.error);
      }
      var pos := won.value;
      ghost var before := queue[..];
      WordFields(enqueuePos, view.Tail(), view.rxClosed);
      CommitRepresents(view, capacity, enqueuePos, dequeuePos, before, indices, state, error, idx);
      enqueuePos := WrappingAdd(enqueuePos, POS_ONE);
      var published: u16 := Or(idx, Shl(WrappingAdd(pos, 1)));
      queue[And(pos, MASK)] := published;
      assert queue[..] == before[SlotOf(view.Tail()) := published];
      view := view.(out := view.out - {idx}, contents := view.contents + [idx]);
      return Ok(());
    }

    /** The loop of `try_dequeue` up to the compare-and-swap that succeeds: the position won. */
    method WinHead(spurious: nat) returns (r: Result<nat, Refusal<E>>)
      requires Valid()
      ensures view.contents != [] ==> r == Ok(view.hd)
      ensures view.contents == [] ==> r.Err? && if view.txClosed then view.Explains(r.error) else r.error == IsEmpty
    {
      var failures, head := spurious, dequeuePos;
      while true
        invariant head == dequeuePos
        decreases failures
      {
        LookAtHead(view, capacity, head, queue[..]);
        var pos := Shr(head);
        var val := queue[And(pos, MASK)];
        var dif := WrappingSubI16(AsI16(Shr(val)), AsI16(WrappingAdd(pos, 1)));
        WordFields(head, view.hd, view.txClosed);
        if dif < 0 && And(head, CLOSED) != 0 {
          var reason := CloseReason();
          return Err(reason);
        } else if dif < 0 {
          return Err(IsEmpty);
        } else if dif > 0 {
          assert false;                             // ahead: only after a race
        } else if failures == 0 {
          return Ok(pos);
        }
        failures := failures - 1;
        head := dequeuePos;
      }
    }

    method TryDequeue(spurious: nat) returns (r: Result<nat, Refusal<E>>)
      requires Valid()
      modifies this, queue
      ensures Valid()
      ensures old(view).contents == [] ==>
                view == old(view) && r.Err? && if view.txClosed then view.Explains(r.error) else r.error == IsEmpty
      ensures old(view).contents != [] ==> view == old(view).Dequeued() && r == Ok(old(view).contents[0])
    {
      var won := WinHead(spurious);
      if won.Err? {
        return Err(won.error);
      }
      WordFields(dequeuePos, view.hd, view.txClosed);
      DequeueRepresents(view, capacity, enqueuePos, dequeuePos, queue[..], indices, state, error);
      var slot := And(won.value, MASK);
      var val := queue[slot];
      ghost var after := queue[..][slot := WrappingAdd(val, LAP_ONE)];
      dequeuePos := WrappingAdd(dequeuePos, POS_ONE);
      queue[slot] := WrappingAdd(val, LAP_ONE);
      assert queue[..] == after;
      view := view.Dequeued();
      return Ok(And(val, MASK));
    }

    method TryClaimRx() returns (claimed: bool)
      requires Valid()
      modifies this
      ensures Valid()
      ensures claimed == !old(view).flags.claimed && view == old(view).(flags := old(view).flags.(claimed := true))
    {
      ClaimedAgrees(view.flags);
      claimed := And(state, RX_CLAIMED) == 0;
      state := Or(state, RX_CLAIMED);
      view := view.(flags := view.flags.(claimed := true));
    }

    method CloseRx()
      requires Valid()
      modifies this
      ensures Valid() && view == old(view).(rxClosed := true)
    {
      CloseWord(enqueuePos, view.Tail(), view.rxClosed);
      enqueuePos := Or(enqueuePos, CLOSED);
      view := view.(rxClosed := true);
    }

    method CloseTx()
      requires Valid()
      modifies this
      ensures Valid() && view == old(view).(txClosed := true)
    {
      CloseWord(dequeuePos, view.hd, view.txClosed);
      dequeuePos := Or(dequeuePos, CLOSED);
      view := view.(txClosed := true);
    }

    method CloseWithError(e: E) returns (won: bool)
      requires Valid()
      modifies this
      ensures Valid()
      ensures won == !(old(view).flags.erroring || old(view).flags.errored)
      ensures view == if won
                      then old(view).(flags := old(view).flags.(erroring := true, errored := true), error := Some(e),
                                      rxClosed := true, txClosed := true)
                      else old(view).(flags := old(view).flags.(erroring := true))
    {
      ErroringAgrees(view.flags);
      Reflagged(view, capacity, enqueuePos, dequeuePos, queue[..], indices, state, error, SetErroring(view.flags), Or(state, ERRORING));
      won := And(state, Or(ERRORING, ERRORED)) == 0;
      state := Or(state, ERRORING);
      view := view.(flags := SetErroring(view.flags));
      if won {
        WithError(view, capacity, enqueuePos, dequeuePos, queue[..], indices, state, error, e);
        error := Some(e);
        state := Or(state, ERRORED);
        view := view.(flags := SetErrored(view.flags), error := Some(e));
        CloseRx();
        CloseTx();
      }
    }

    method AddTx()
      requires Valid() && TX_ONE * (view.flags.txs + 3) < USIZE_MOD
      modifies this
      ensures Valid() && view == old(view).(flags := old(view).flags.(txs := old(view).flags.txs + 1))
    {
      SenderWord(view.flags, state);
      Reflagged(view, capacity, enqueuePos, dequeuePos, queue[..], indices, state, error, AddSender(view.flags), Plus(state));
      state := Plus(state);
      view := view.(flags := AddSender(view.flags));
    }

    /** Dropping the last handle closes the channel for the receiver. */
    method DropTx()
      requires Valid() && view.flags.txs > 0
      modifies this
      ensures Valid()
      ensures view == old(view).(flags := old(view).flags.(txs := old(view).flags.txs - 1),
                                 txClosed := old(view).txClosed || old(view).flags.txs == 1)
    {
      SenderWord(view.flags, state);
      ghost var flags := SubSender(view.flags);
      Reflagged(view, capacity, enqueuePos, dequeuePos, queue[..], indices, state, error, flags, Minus(state));
      var refs := state / TX_ONE;
      state := Minus(state);
      view := view.(flags := flags);
      if refs == 1 {
        assert state / TX_ONE == 0;
        CloseTx();
      }
    }
  }

  /** After a close with an error that wins, a reservation, a commit of an index reserved before, and, once the
      queue is drained, a dequeue all fail with that error. */
  method FailsWithTheError<E>(core: Core<E>, e: E, idx: nat)
    returns (won: bool, reserved: Result<nat, Refusal<E>>, committed: Result<(), Refusal<E>>, dequeued: Result<nat, Refusal<E>>)
    requires core.Valid() && !core.view.flags.erroring && !core.view.flags.errored
    requires idx in core.view.out && core.view.contents == [] && core.view.Tail() < COMMIT_BOUND
    modifies core, core.queue
    ensures won && reserved == Err(Failed(e)) && committed == Err(Failed(e)) && dequeued == Err(Failed(e))
  {
    won := core.CloseWithError(e);
    reserved := core.TryReserve();
    committed := core.CommitSend(idx, 0);
    dequeued := core.TryDequeue(0);
  }

  /** Without one, they fail with `Disconnected` when the other end has gone. */
  method FailsWithoutError<E>(core: Core<E>, idx: nat)
    returns (reserved: Result<nat, Refusal<E>>, committed: Result<(), Refusal<E>>, dequeued: Result<nat, Refusal<E>>)
    requires core.Valid() && !core.view.flags.errored && core.view.flags.txs == 1
    requires idx in core.view.out && core.view.contents == [] && core.view.Tail() < COMMIT_BOUND
    modifies core, core.queue
    ensures reserved == Err(Disconnected) && committed == Err(Disconnected) && dequeued == Err(Disconnected)
  {
    core.CloseRx();
    reserved := core.TryReserve();
    committed := core.CommitSend(idx, 0);
    core.DropTx();
    dequeued := core.TryDequeue(0);
  }

  /** The allocation behind a heap pipe: the core and its element cells. */
  class SharedState<T, E> {
    const core: Core<E>
    const elements: array<Option<T>>

    constructor (capacity: nat)
      requires capacity <= MAX_CAPACITY
      ensures fresh(core) && fresh(core.queue) && fresh(elements) && Valid()
      ensures core.view == View(0, [], Indices(capacity), {}, {}, false, false, Flags(false, false, false, 1), None)
    {
      core := new Core(capacity);
      elements := new Option<T>[capacity](_ => None);
    }

    /** The cells of everything queued are initialised. */
    ghost predicate Valid()
      reads this, core, core.queue, elements
    {
      && core.Valid() && elements.Length == core.capacity
      && Initialised(core.view.contents, elements[..])
    }

    /** What is queued and not yet received. */
    ghost function Messages(): seq<T>
      reads this, core, core.queue, elements
      requires Valid()
    {
      ValuesOf(core.view.contents, elements[..])
    }

    /** One round of the loop in `drop`: the next message, if there is one, is dropped in place. */
    method DropNext() returns (dropped: Option<T>)
      requires Valid()
      modifies core, core.queue, elements
      ensures Valid()
      ensures old(Messages()) == if dropped.Some? then [dropped.value] + Messages() else []
      ensures dropped == None ==> core.view.contents == []
    {
      core.QueuedIndices();
      var res := core.TryDequeue(0);
      if res.Err? {
        return None;
      }
      var idx := res.value;
      MessagesAfterDrop(old(core.view).contents, elements[..]);
      dropped := elements[idx];
      elements[idx] := None;
      assert elements[..] == old(elements[..])[idx := None];
      core.Uncommit(idx);
    }

    /** `Drop`: drops what is left in place, in order, and comes to an end. */
    method Drop() returns (dropped: seq<T>)
      requires Valid()
      modifies core, core.queue, elements
      ensures Valid() && core.view.contents == [] && dropped == old(Messages())
    {
      ghost var all := Messages();
      dropped := [];
      var next := DropNext();
      while next.Some?
        invariant Valid()
        invariant next.Some? ==> all == dropped + ([next.value] + Messages())
        invariant next == None ==> all == dropped && core.view.contents == []
        decreases |all| - |dropped|
      {
        ghost var rest := Messages();
        Regrouped(dropped, next.value, rest);
        dropped := dropped + [next.value];
        next := DropNext();
        assert rest == if next.Some? then [next.value] + Messages() else [];
      }
    }
  }

  lemma Regrouped<T>(a: seq<T>, b: T, c: seq<T>)
    ensures a + ([b] + c) == (a + [b]) + c
    ensures |a + ([b] + c)| > |a| && (a + [b]) + [] == a + [b]
  {
  }
}
