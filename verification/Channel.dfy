/** The multi-producer single-consumer channel as a step machine.

    One event is one atomic operation of one thread; an arbitrary interleaving of any number
    of senders, one receiver at a time, closers and handle owners is an arbitrary sequence of
    events. The words of the state are `Pos`/`Slot` in the unbounded machine and `Raw`/`RawSlot`
    in the packed one; `Step` is the same for both. */
module Channel {
  import opened Options
  import opened Words

  /** A sender's `Permit` (or a call that is about to obtain one), with the handle it borrows. */
  datatype Permit<+T> =
    | Reserving(h: nat)                                     // saw the channel open, about to allocate
    | Reserved(h: nat, idx: nat)                            // owns the cell `idx`, not yet written
    | Written(h: nat, idx: nat, msg: T)                     // about to load `enqueue_pos`
    | GotTail(h: nat, idx: nat, msg: T, word: Word)         // about to load the slot
    | GotSlot(h: nat, idx: nat, msg: T, word: Word)         // saw room, about to compare-and-swap
    | Claimed(h: nat, idx: nat, msg: T, word: Word, pos: nat)  // won position `pos`, about to store the slot
    | Refused(h: nat)                                       // saw CLOSED, about to load `state`

  datatype Rx =
    | Idle
    | GotHead(word: Word)
    | GotSlot(word: Word, slot: SlotWord)
    | Claimed(word: Word, slot: SlotWord)
    | SawClosed                                             // about to load `state`

  /** A `Reservation` in the receiver's hands: which message it is, and whether the value was moved out. */
  datatype Held = Held(pos: nat, taken: bool)

  datatype Actor = ByHandle(h: nat) | ByReceiver

  /** A `close_with_error` call that won the ERRORING bit. */
  datatype Closer<+E> =
    | Writing(who: Actor, error: E)
    | Marking(who: Actor)
    | ClosingRx(who: Actor)
    | ClosingTx(who: Actor)

  /** The `drop_tx` call that took the sender count to zero. */
  datatype LastDrop = NotYet | Fence | Closing | Done

  /** What a call reported. `None` for an error stands for reading the cell before it was written. */
  datatype Report<+E> =
    | Full
    | Empty
    | Error(error: Option<E>)
    | TxDisconnected
    | RxDisconnected

  /** Who owns an element cell. */
  datatype Owner = Free | ByPermit(p: nat) | Pending(pos: nat, p: nat) | Queued(pos: nat) | ByRx(pos: nat) | Lost

  type Queue = q: seq<SlotWord> | |q| == MAX_CAPACITY witness seq(MAX_CAPACITY, (i: nat) => Slot(i, 0))

  datatype State<T, E> = State(
    // shared words
    tail: Word, head: Word, queue: Queue, state: StateWord,
    // the index allocator, the element cells that are initialised, and the error cell
    free: set<nat>, cells: map<nat, T>, error: Option<E>,
    // live handles and the threads' own state
    handles: set<nat>, rxLive: bool, lastDrop: LastDrop,
    permits: map<nat, Permit<T>>, rx: Rx, held: map<nat, Held>, closers: map<nat, Closer<E>>,
    // an `unreachable!` or a failed debug assertion
    panicked: bool,
    // history: messages and their cells in the order of successful tail CASes, messages dequeued,
    // values moved out by position, owners of cells, errors written, reports made
    committed: seq<T>, order: seq<nat>, delivered: seq<Option<T>>, moved: map<nat, Option<T>>,
    owner: map<nat, Owner>, errors: seq<E>, reports: seq<Report<E>>)

  datatype Event<+T, +E> =
    // handles
    | AddTx(h: nat, n: nat) | DropTx(h: nat) | DropFence | DropClose | ClaimRx(h: nat) | DropRx
    // close_with_error
    | CloseBegin(c: nat, who: Actor, error: E) | CloseWrite(c: nat) | CloseMark(c: nat) | CloseRx(c: nat) | CloseTx(c: nat)
    // a permit: try_reserve, dropping it, writing the cell, commit_send
    | ReserveLoad(p: nat, h: nat) | ReserveAlloc(p: nat, i: nat) | ReserveFull(p: nat) | Uncommit(p: nat) | Write(p: nat, msg: T)
    | LoadTail(p: nat) | LoadTailSlot(p: nat) | CasTail(p: nat, weak: bool) | StoreTailSlot(p: nat) | TxReason(p: nat)
    // the receiver: try_dequeue, and what becomes of its reservations
    | LoadHead | LoadHeadSlot | CasHead(weak: bool) | StoreHeadSlot | RxReason | Take(i: nat) | Release(i: nat)

  /** What `IndexAllocWord::with_capacity` can hand out. */
  function Indices(cap: nat): (r: set<nat>)
    ensures forall i: nat :: i in r <==> i < cap
  {
    if cap == 0 then {} else Indices(cap - 1) + {cap - 1}
  }

  function Init<T, E>(cap: nat): State<T, E>
    requires cap <= MAX_CAPACITY
  {
    State(Pos(0, false), Pos(0, false), seq(MAX_CAPACITY, (i: nat) => Slot(i, 0)), Flags(false, false, false, 1),
          Indices(cap), map[], None,
          {0}, false, NotYet, map[], Idle, map[], map[], false,
          [], [], [], map[], map i | i in Indices(cap) :: Free, [], [])
  }

  function Cell<T, E>(s: State<T, E>, i: nat): Option<T> {
    if i in s.cells then Some(s.cells[i]) else None
  }

  /** `close_reason`: the error if ERRORED is set. */
  function Reason<T, E>(s: State<T, E>, otherwise: Report<E>): Report<E> {
    if IsErrored(s.state) then Error(s.error) else otherwise
  }

  predicate HoldsIndex<T>(a: Permit<T>) {
    a.Reserved? || a.Written? || a.GotTail? || a.GotSlot?
  }

  predicate Live<T, E>(s: State<T, E>, a: Actor) {
    match a
    case ByHandle(h) => h in s.handles
    case ByReceiver => s.rxLive
  }

  predicate Borrowed<T, E>(s: State<T, E>, h: nat) {
    || (exists p :: p in s.permits && s.permits[p].h == h)
    || (exists c :: c in s.closers && s.closers[c].who == ByHandle(h))
  }

  /** The first test in `try_reserve`. */
  function FirstLook<T>(h: nat, w: Word): Permit<T> {
    if IsClosed(w) then Refused(h) else Reserving(h)
  }

  /** The top of the loop in `commit_send`, with `w` as the current value of `tail`: a permit that finds
      CLOSED is refused, and its cell is lost, since `Reservation::commit_send` does not free it. */
  function TopOfLoop<T>(a: Permit<T>, w: Word): Permit<T>
    requires a.Written? || a.GotSlot?
  {
    if IsClosed(w) then Refused(a.h) else GotTail(a.h, a.idx, a.msg, w)
  }

  function StepHandle<T, E>(s: State<T, E>, e: Event<T, E>): Option<State<T, E>> {
    match e
    case AddTx(h, n) =>
      if h in s.handles && n !in s.handles
      then Some(s.(state := AddSender(s.state), handles := s.handles + {n})) else None
    case DropTx(h) =>
      if h in s.handles && !Borrowed(s, h)
      then Some(s.(state := SubSender(s.state), handles := s.handles - {h},
                   lastDrop := if TxCount(s.state) == 1 then Fence else s.lastDrop)) else None
    case DropFence =>
      if s.lastDrop.Fence?
      then Some(s.(lastDrop := Closing, panicked := s.panicked || TxCount(s.state) != 0)) else None
    case DropClose =>
      if s.lastDrop.Closing? then Some(s.(lastDrop := Done, head := Close(s.head))) else None
    case ClaimRx(h) =>
      if h in s.handles
      then Some(s.(state := SetClaimed(s.state), rxLive := s.rxLive || !IsClaimed(s.state))) else None
    case DropRx =>
      if s.rxLive && s.rx.Idle? && s.held == map[] && (forall c :: c in s.closers ==> s.closers[c].who != ByReceiver)
      then Some(s.(tail := Close(s.tail), rxLive := false)) else None
    case _ => None
  }

  function StepClose<T, E>(s: State<T, E>, e: Event<T, E>): Option<State<T, E>> {
    match e
    case CloseBegin(c, who, error) =>
      if Live(s, who) && c !in s.closers
      then Some(s.(state := SetErroring(s.state),
                   closers := if CantError(s.state) then s.closers else s.closers[c := Writing(who, error)])) else None
    case CloseWrite(c) =>
      if c in s.closers && s.closers[c].Writing?
      then Some(s.(error := Some(s.closers[c].error), errors := s.errors + [s.closers[c].error],
                   closers := s.closers[c := Marking(s.closers[c].who)])) else None
    case CloseMark(c) =>
      if c in s.closers && s.closers[c].Marking?
      then Some(s.(state := SetErrored(s.state), closers := s.closers[c := ClosingRx(s.closers[c].who)])) else None
    case CloseRx(c) =>
      if c in s.closers && s.closers[c].ClosingRx?
      then Some(s.(tail := Close(s.tail), closers := s.closers[c := ClosingTx(s.closers[c].who)])) else None
    case CloseTx(c) =>
      if c in s.closers && s.closers[c].ClosingTx?
      then Some(s.(head := Close(s.head), closers := s.closers - {c})) else None
    case _ => None
  }

  function StepReserve<T, E>(s: State<T, E>, e: Event<T, E>): Option<State<T, E>> {
    match e
    case ReserveLoad(p, h) =>
      if h in s.handles && p !in s.permits
      then Some(s.(permits := s.permits[p := FirstLook(h, s.tail)])) else None
    case ReserveAlloc(p, i) =>
      if p in s.permits && s.permits[p].Reserving? && i in s.free
      then Some(s.(free := s.free - {i}, owner := s.owner[i := ByPermit(p)],
                   permits := s.permits[p := Reserved(s.permits[p].h, i)])) else None
    case ReserveFull(p) =>
      if p in s.permits && s.permits[p].Reserving? && s.free == {}
      then Some(s.(permits := s.permits - {p}, reports := s.reports + [Full])) else None
    case Uncommit(p) =>
      if p in s.permits && s.permits[p].Reserved?
      then var i := s.permits[p].idx;
        Some(s.(free := s.free + {i}, owner := s.owner[i := Free], permits := s.permits - {p})) else None
    case Write(p, msg) =>
      if p in s.permits && s.permits[p].Reserved?
      then var a := s.permits[p];
        Some(s.(cells := s.cells[a.idx := msg], permits := s.permits[p := Written(a.h, a.idx, msg)])) else None
    case TxReason(p) =>
      if p in s.permits && s.permits[p].Refused?
      then Some(s.(permits := s.permits - {p}, reports := s.reports + [Reason(s, TxDisconnected)])) else None
    case _ => None
  }

  function StepCommit<T, E>(s: State<T, E>, e: Event<T, E>): Option<State<T, E>> {
    match e
    case LoadTail(p) =>
      if p in s.permits && s.permits[p].Written?
      then
        var a := s.permits[p];
        Some(s.(permits := s.permits[p := TopOfLoop(a, s.tail)],
                owner := if IsClosed(s.tail) then s.owner[a.idx := Lost] else s.owner))
      else None
    case LoadTailSlot(p) =>
      if p in s.permits && s.permits[p].GotTail?
      then
        var a := s.permits[p];
        var dif := TxDif(s.queue[SlotIndex(a.word)], a.word);
        Some(s.(panicked := dif < 0,
                permits := s.permits[p := if dif == 0 then Permit.GotSlot(a.h, a.idx, a.msg, a.word)
                                          else Written(a.h, a.idx, a.msg)]))
      else None
    case CasTail(p, weak) =>
      if p in s.permits && s.permits[p].GotSlot?
      then
        var a := s.permits[p];
        var won := s.tail == a.word && !weak;
        var pos := |s.committed|;
        Some(s.(tail := if won then Advance(a.word) else s.tail,
                permits := s.permits[p := if won then Permit.Claimed(a.h, a.idx, a.msg, a.word, pos)
                                          else TopOfLoop(a, s.tail)],
                owner := if won then s.owner[a.idx := Pending(pos, p)]
                         else if IsClosed(s.tail) then s.owner[a.idx := Lost] else s.owner,
                committed := if won then s.committed + [a.msg] else s.committed,
                order := if won then s.order + [a.idx] else s.order))
      else None
    case StoreTailSlot(p) =>
      if p in s.permits && s.permits[p].Claimed? && s.permits[p].idx < MAX_CAPACITY
      then
        var a := s.permits[p];
        Some(s.(queue := s.queue[SlotIndex(a.word) := Published(a.word, a.idx)], permits := s.permits - {p},
                owner := s.owner[a.idx := Queued(a.pos)]))
      else None
    case _ => None
  }

  function StepRx<T, E>(s: State<T, E>, e: Event<T, E>): Option<State<T, E>> {
    match e
    case LoadHead =>
      if s.rxLive && s.rx.Idle? then Some(s.(rx := GotHead(s.head))) else None
    case LoadHeadSlot =>
      if s.rx.GotHead?
      then
        var w := s.rx.word;
        var slot := s.queue[SlotIndex(w)];
        var dif := RxDif(slot, w);
        Some(s.(rx := if dif < 0 && IsClosed(w) then SawClosed else if dif == 0 then Rx.GotSlot(w, slot)
                      else Idle,                          // ahead: reload `dequeue_pos`
                reports := if dif < 0 && !IsClosed(w) then s.reports + [Empty] else s.reports))
      else None
    case CasHead(weak) =>
      if s.rx.GotSlot?
      then
        var won := s.head == s.rx.word && !weak;
        Some(s.(head := if won then Advance(s.rx.word) else s.head,
                rx := if won then Rx.Claimed(s.rx.word, s.rx.slot) else GotHead(s.head)))
      else None
    case StoreHeadSlot =>
      if s.rx.Claimed?
      then
        var i := IndexOf(s.rx.slot);
        Some(s.(queue := s.queue[SlotIndex(s.rx.word) := Released(s.rx.slot)], rx := Idle,
                held := s.held[i := Held(|s.delivered|, false)], owner := s.owner[i := ByRx(|s.delivered|)],
                delivered := s.delivered + [Cell(s, i)]))
      else None
    case RxReason =>
      if s.rx.SawClosed?
      then Some(s.(rx := Idle, reports := s.reports + [Reason(s, RxDisconnected)])) else None
    case Take(i) =>
      if i in s.held && !s.held[i].taken
      then Some(s.(moved := s.moved[s.held[i].pos := Cell(s, i)], cells := s.cells - {i},
                   held := s.held[i := Held(s.held[i].pos, true)])) else None
    case Release(i) =>
      if i in s.held && s.held[i].taken
      then Some(s.(free := s.free + {i}, owner := s.owner[i := Free], held := s.held - {i})) else None
    case _ => None
  }

  /** One atomic operation; `None` when the event is not one that can happen now. Nothing happens after a panic. */
  function Step<T, E>(s: State<T, E>, e: Event<T, E>): Option<State<T, E>> {
    if s.panicked then None else
    match e
    case AddTx(_, _) => StepHandle(s, e)
    case DropTx(_) => StepHandle(s, e)
    case DropFence => StepHandle(s, e)
    case DropClose => StepHandle(s, e)
    case ClaimRx(_) => StepHandle(s, e)
    case DropRx => StepHandle(s, e)
    case CloseBegin(_, _, _) => StepClose(s, e)
    case CloseWrite(_) => StepClose(s, e)
    case CloseMark(_) => StepClose(s, e)
    case CloseRx(_) => StepClose(s, e)
    case CloseTx(_) => StepClose(s, e)
    case ReserveLoad(_, _) => StepReserve(s, e)
    case ReserveAlloc(_, _) => StepReserve(s, e)
    case ReserveFull(_) => StepReserve(s, e)
    case Uncommit(_) => StepReserve(s, e)
    case Write(_, _) => StepReserve(s, e)
    case TxReason(_) => StepReserve(s, e)
    case LoadTail(_) => StepCommit(s, e)
    case LoadTailSlot(_) => StepCommit(s, e)
    case CasTail(_, _) => StepCommit(s, e)
    case StoreTailSlot(_) => StepCommit(s, e)
    case _ => StepRx(s, e)
  }

  /** A run: the state reached by a sequence of events, if every one of them could happen. */
  function Run<T, E>(s: State<T, E>, es: seq<Event<T, E>>): Option<State<T, E>>
    decreases |es|
  {
    if es == [] then Some(s)
    else
      match Run(s, es[..|es| - 1])
      case None => None
      case Some(m) => Step(m, es[|es| - 1])
  }
}
