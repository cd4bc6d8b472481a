/** The reusable oneshot channel: one receiver task, which also makes the senders, any number of rounds of
    one sender and one message each, and a close from any thread. One event is one access to the state word,
    the cell or the wait cell. */
module Oneshot {
  import opened Options

  /** The bits of the `state` word. */
  datatype Bits = Bits(hasRx: bool, hasTx: bool, rxWaiting: bool, sent: bool, closed: bool)

  const READY := Bits(true, false, false, false, false)

  datatype Message<T> = Message(sender: nat, value: T)

  datatype Sender<T> =
    | Holding                    // made, nothing written
    | Wrote(value: T)            // about to set SENT
    | HandingBack(value: T)      // found CLOSED, about to read the cell
    | Spent                      // has its value back, about to be dropped

  datatype Rx<T> =
    | Idle
    | FoundNothing               // about to poll the wait cell
    | SawSent                    // about to copy the cell
    | Copied(message: Option<Message<T>>)   // about to store HAS_RX

  datatype RecvReport = SawClosed | NoSender

  /** `asleep`: the receiver's task sleeps, with its waker in the wait cell; `bell`: the wait cell holds a wake that
      nobody has slept through; `ringing`: wakes that senders have yet to make.
      `clash` is a write to a cell that holds a value. The rest of the last lines is history: all senders made,
      what they wrote, whose `send` returned Ok, and what was received, handed back, and dropped by `close`. */
  datatype State<T> = State(
    bits: Bits, cell: Option<Message<T>>, senders: map<nat, Sender<T>>, rx: Rx<T>, closes: nat, clash: bool,
    asleep: bool, bell: bool, ringing: nat,
    made: set<nat>, written: map<nat, T>, accepted: set<nat>,
    received: seq<Option<Message<T>>>, handedBack: seq<Option<Message<T>>>, dropped: nat, reports: seq<RecvReport>)

  datatype Event<T> =
    | TakeSender(p: nat)         // the successful `compare_exchange` in `take_sender`
    | Poll | Park                // `poll_recv`: the state word, and then the wait cell
    | Copy | Store               // `take_value`
    | Write(p: nat, value: T) | Finish(p: nat) | TakeBack(p: nat) | DropSender(p: nat)
    | Ring                       // `wake`, after `Finish`
    | Close                      // the swap, and the closing of the wait cell

  function Init<T>(): State<T> {
    State(READY, None, map[], Idle, 0, false, false, false, 0, {}, map[], {}, [], [], 0, [])
  }

  function StepRx<T>(s: State<T>, e: Event<T>): Option<State<T>> {
    match e
    case TakeSender(p) =>
      if s.rx.Idle? && p !in s.made && s.bits == READY
      then Some(s.(bits := s.bits.(hasTx := true), senders := s.senders[p := Holding], made := s.made + {p})) else None
    case Poll =>
      if s.rx.Idle?
      then Some(s.(bits := s.bits.(rxWaiting := true), asleep := false,
                   rx := if s.bits.closed then Idle else if s.bits.sent then SawSent else if s.bits.hasTx then FoundNothing else Idle,
                   reports := if s.bits.closed then s.reports + [SawClosed]
                              else if !s.bits.sent && !s.bits.hasTx then s.reports + [NoSender] else s.reports)) else None
    case Park =>
      if s.rx.FoundNothing?
      then Some(s.(rx := Idle, reports := if s.closes > 0 then s.reports + [SawClosed] else s.reports,
                   asleep := s.closes == 0 && !s.bell, bell := false)) else None
    case Copy =>
      if s.rx.SawSent? then Some(s.(rx := Copied(s.cell), cell := None)) else None
    case Store =>
      if s.rx.Copied? then Some(s.(bits := READY, rx := Idle, received := s.received + [s.rx.message])) else None
    case Close =>
      if s.closes == 0
      then
        var drops := s.bits.sent && !s.bits.hasTx;
        Some(s.(bits := Bits(false, false, false, false, true), closes := 1, asleep := false,
                cell := if drops then None else s.cell, dropped := s.dropped + if drops then 1 else 0))
      else None
    case _ => None
  }

  function StepSender<T>(s: State<T>, e: Event<T>): Option<State<T>> {
    match e
    case Write(p, v) =>
      if p in s.senders && s.senders[p].Holding?
      then Some(s.(clash := s.clash || s.cell.Some?, cell := Some(Message(p, v)), senders := s.senders[p := Wrote(v)],
                   written := s.written[p := v])) else None
    case Finish(p) =>
      if p in s.senders && s.senders[p].Wrote?
      then Some(s.(bits := s.bits.(sent := true),
                   senders := if s.bits.closed then s.senders[p := HandingBack(s.senders[p].value)] else s.senders - {p},
                   accepted := if s.bits.closed then s.accepted else s.accepted + {p},
                   ringing := if !s.bits.closed && s.bits.rxWaiting then s.ringing + 1 else s.ringing)) else None
    case Ring =>
      if s.ringing > 0 then Some(s.(ringing := s.ringing - 1, bell := s.bell || !s.asleep, asleep := false)) else None
    case TakeBack(p) =>
      if p in s.senders && s.senders[p].HandingBack?
      then Some(s.(cell := None, handedBack := s.handedBack + [s.cell], senders := s.senders[p := Spent])) else None
    case DropSender(p) =>
      if p in s.senders && (s.senders[p].Holding? || s.senders[p].Spent?)
      then Some(s.(bits := s.bits.(hasTx := false), senders := s.senders - {p})) else None
    case _ => None
  }

  function Step<T>(s: State<T>, e: Event<T>): Option<State<T>> {
    match e
    case TakeSender(_) => StepRx(s, e)
    case Poll => StepRx(s, e)
    case Park => StepRx(s, e)
    case Copy => StepRx(s, e)
    case Store => StepRx(s, e)
    case Close => StepRx(s, e)
    case _ => StepSender(s, e)
  }

  function Run<T>(s: State<T>, es: seq<Event<T>>): Option<State<T>>
    decreases |es|
  {
    if es == [] then Some(s)
    else
      match Run(s, es[..|es| - 1])
      case None => None
      case Some(m) => Step(m, es[|es| - 1])
  }

  /** The receiver has found a value and not finished taking it. */
  predicate Taking<T>(rx: Rx<T>) {
    rx.SawSent? || rx.Copied?
  }

  // ---- the invariant ----

  ghost predicate OneSender<T>(s: State<T>) {
    && (forall p, q :: p in s.senders && q in s.senders ==> p == q)
    && (Taking(s.rx) ==> s.senders == map[])
  }

  /** What the bits mean while the channel is open. */
  ghost predicate OpenBits<T>(s: State<T>) {
    && (s.closes == 0 ==> !s.bits.closed)
    && s.closes <= 1
    && (!s.bits.closed ==>
          && s.bits.hasRx && (s.bits.hasTx <==> s.bits.sent || s.senders != map[])
          && (s.bits.sent ==> s.senders == map[])
          && (Taking(s.rx) ==> s.bits.sent)
          && (forall p :: p in s.senders ==> s.senders[p].Holding? || s.senders[p].Wrote?))
  }

  function InCell<T>(p: nat, a: Sender<T>): Option<Message<T>> {
    match a
    case Wrote(v) => Some(Message(p, v))
    case HandingBack(v) => Some(Message(p, v))
    case _ => None
  }

  /** The cell holds the value of the sender that is at work on it, or, without one, the value that was sent. */
  ghost predicate CellOk<T>(s: State<T>) {
    && !s.clash
    && (forall p :: p in s.senders ==> s.cell == InCell(p, s.senders[p]))
    && (s.rx.SawSent? ==> s.cell.Some?)
    && (s.rx.Copied? ==> s.cell == None && s.rx.message.Some?)
    && (!s.bits.closed && !Taking(s.rx) && s.senders == map[] ==> (s.bits.sent <==> s.cell.Some?))
  }

  /** A value that was written and neither received nor handed back. */
  ghost predicate Open<T>(s: State<T>, m: Message<T>) {
    && m.sender in s.made && m.sender in s.written && s.written[m.sender] == m.value
    && Some(m) !in s.received && Some(m) !in s.handedBack
  }

  ghost predicate IdsOk<T>(s: State<T>) {
    && (forall p :: p in s.senders ==> p in s.made && p !in s.accepted && (s.senders[p].Holding? ==> p !in s.written))
    && (forall p :: p in s.written || p in s.accepted ==> p in s.made)
    && (s.cell.Some? ==> Open(s, s.cell.value))
    && (s.rx.Copied? && s.rx.message.Some? ==> Open(s, s.rx.message.value))
    && (s.rx.SawSent? && s.cell.Some? ==> s.cell.value.sender in s.accepted)
    && (s.rx.Copied? && s.rx.message.Some? ==> s.rx.message.value.sender in s.accepted)
    && (!s.bits.closed && s.bits.sent && !Taking(s.rx) && s.cell.Some? ==> s.cell.value.sender in s.accepted)
  }

  ghost predicate ReceivedOk<T>(s: State<T>) {
    forall k :: 0 <= k < |s.received| ==>
      s.received[k].Some? && s.received[k].value.sender in s.accepted && s.received[k].value.sender in s.written
      && s.written[s.received[k].value.sender] == s.received[k].value.value
  }

  ghost predicate HandedBackOk<T>(s: State<T>) {
    forall k :: 0 <= k < |s.handedBack| ==>
      s.handedBack[k].Some? && s.handedBack[k].value.sender !in s.accepted && s.handedBack[k].value.sender in s.written
      && s.written[s.handedBack[k].value.sender] == s.handedBack[k].value.value
      && (s.handedBack[k].value.sender in s.senders ==> s.senders[s.handedBack[k].value.sender].Spent?)
  }

  ghost predicate Distinct<T>(q: seq<Option<Message<T>>>) {
    forall j, k :: 0 <= j < k < |q| && q[j].Some? && q[k].Some? ==> q[j].value.sender != q[k].value.sender
  }

  ghost predicate Inv<T>(s: State<T>) {
    && OneSender(s) && OpenBits(s) && CellOk(s) && IdsOk(s) && ReceivedOk(s) && HandedBackOk(s)
    && Distinct(s.received) && Distinct(s.handedBack) && s.dropped == 0
  }

  lemma StepRxKeeps<T>(s: State<T>, e: Event<T>, t: State<T>)
    requires Inv(s) && StepRx(s, e) == Some(t)
    ensures Inv(t)
  {
  }

  lemma StepSenderKeeps<T>(s: State<T>, e: Event<T>, t: State<T>)
    requires Inv(s) && StepSender(s, e) == Some(t)
    ensures Inv(t)
  {
  }

  lemma {:induction false} RunKeeps<T>(s: State<T>, es: seq<Event<T>>, t: State<T>)
    requires Inv(s) && Run(s, es) == Some(t)
    ensures Inv(t)
    decreases |es|
  {
    if es != [] {
      var m, e := Run(s, es[..|es| - 1]).value, es[|es| - 1];
      RunKeeps(s, es[..|es| - 1], m);
      if StepRx(m, e) == Some(t) {
        StepRxKeeps(m, e, t);
      } else {
        StepSenderKeeps(m, e, t);
      }
    }
  }

  lemma EveryRun<T>(es: seq<Event<T>>, s: State<T>)
    requires Run(Init<T>(), es) == Some(s)
    ensures Inv(s)
  {
    RunKeeps(Init<T>(), es, s);
  }

  // ---- what holds in every run ----

  /** Over any number of rounds there is at most one sender, and none while the receiver takes a value;
      until the channel is closed, SENT implies HAS_TX, and HAS_TX that there is a sender or a value. */
  lemma OneSenderAtATime<T>(es: seq<Event<T>>, s: State<T>, p: nat, q: nat)
    requires Run(Init<T>(), es) == Some(s)
    ensures p in s.senders && q in s.senders ==> p == q && !Taking(s.rx)
    ensures !s.bits.closed ==> (s.bits.hasTx <==> s.bits.sent || s.senders != map[])
  {
    EveryRun(es, s);
  }

  /** What the receiver gets is what a sender wrote whose `send` returned Ok, once for each sender. */
  lemma ReceivedOnce<T>(es: seq<Event<T>>, s: State<T>, j: nat, k: nat)
    requires Run(Init<T>(), es) == Some(s) && j < |s.received| && k < |s.received|
    ensures s.received[k].Some? && s.received[j].Some?
    ensures var m := s.received[k].value; m.sender in s.accepted && m.sender in s.written && s.written[m.sender] == m.value
    ensures s.received[j].value.sender == s.received[k].value.sender ==> j == k
  {
    EveryRun(es, s);
  }

  /** A value is handed back only to the sender that wrote it, which is not told Ok, and is never received. */
  lemma HandedBackOrReceived<T>(es: seq<Event<T>>, s: State<T>, j: nat, k: nat)
    requires Run(Init<T>(), es) == Some(s) && j < |s.handedBack| && k < |s.received|
    ensures s.handedBack[j].Some? && s.received[k].Some? && s.handedBack[j].value.sender != s.received[k].value.sender
    ensures var m := s.handedBack[j].value; m.sender !in s.accepted && m.sender in s.written && s.written[m.sender] == m.value
  {
    EveryRun(es, s);
  }

  /** The cell is never written while it holds a value, and never read while it holds none. */
  lemma CellIsExclusive<T>(es: seq<Event<T>>, s: State<T>, p: nat)
    requires Run(Init<T>(), es) == Some(s)
    ensures !s.clash
    ensures s.rx.SawSent? ==> s.cell.Some? && s.senders == map[]
    ensures p in s.senders && s.senders[p].HandingBack? ==> s.cell == Some(Message(p, s.senders[p].value))
  {
    EveryRun(es, s);
  }

  lemma ExtendRun<T>(s: State<T>, es: seq<Event<T>>, m: State<T>, e: Event<T>, t: State<T>)
    requires Run(s, es) == Some(m) && Step(m, e) == Some(t)
    ensures Run(s, es + [e]) == Some(t)
  {
    assert (es + [e])[..|es|] == es;
  }

  function RoundEvents<T>(p: nat, v: T): seq<Event<T>> {
    [] + [TakeSender(p)] + [Write(p, v)] + [Finish(p)] + [Poll] + [Copy] + [Store]
  }

  /** From every reachable state in which the channel is ready, a round with a new sender delivers its value
      and leaves the channel ready for the next round: it can be used again without end. */
  lemma EveryRound<T>(es: seq<Event<T>>, s: State<T>, p: nat, v: T) returns (t: State<T>)
    requires Run(Init<T>(), es) == Some(s) && s.bits == READY && s.rx.Idle? && p !in s.made
    ensures Run(s, RoundEvents(p, v)) == Some(t)
    ensures t.received == s.received + [Some(Message(p, v))] && t.bits == READY && t.rx.Idle? && t.senders == map[]
  {
    EveryRun(es, s);
    var none: seq<Event<T>> := [];
    var s1 := Step(s, TakeSender(p)).value;
    ExtendRun(s, none, s, TakeSender(p), s1);
    var s2 := Step(s1, Write(p, v)).value;
    ExtendRun(s, none + [TakeSender(p)], s1, Write(p, v), s2);
    var s3 := Step(s2, Finish(p)).value;
    ExtendRun(s, none + [TakeSender(p)] + [Write(p, v)], s2, Finish(p), s3);
    var s4 := Step(s3, Poll).value;
    ExtendRun(s, none + [TakeSender(p)] + [Write(p, v)] + [Finish(p)], s3, Poll, s4);
    var s5 := Step(s4, Copy).value;
    ExtendRun(s, none + [TakeSender(p)] + [Write(p, v)] + [Finish(p)] + [Poll], s4, Copy, s5);
    t := Step(s5, Store).value;
    ExtendRun(s, none + [TakeSender(p)] + [Write(p, v)] + [Finish(p)] + [Poll] + [Copy], s5, Store, t);
  }

  // ---- closing with a value in the cell ----

  /** The branch of `Header::close` that tells the receiver to drop an unreceived value is never taken. */
  lemma CloseDropsNothing<T>(es: seq<Event<T>>, s: State<T>)
    requires Run(Init<T>(), es) == Some(s)
    ensures s.dropped == 0
    ensures !(s.closes == 0 && s.bits.sent && !s.bits.hasTx)
  {
    EveryRun(es, s);
  }

  /** A value is still with its sender, or its `send` returned Ok and it has been received, is being received or
      is in the cell, or it has been handed back. */
  ghost predicate Kept<T>(s: State<T>, p: nat)
    requires p in s.written
  {
    var m := Some(Message(p, s.written[p]));
    if p in s.accepted then m in s.received || m == s.cell || (s.rx.Copied? && m == s.rx.message)
    else (p in s.senders && m == InCell(p, s.senders[p])) || m in s.handedBack
  }

  ghost predicate AllKept<T>(s: State<T>) {
    && (forall p :: p in s.accepted ==> p in s.written)
    && (forall p :: p in s.written ==> Kept(s, p))
  }

  lemma KeptByRx<T>(s: State<T>, e: Event<T>, t: State<T>)
    requires Inv(s) && AllKept(s) && StepRx(s, e) == Some(t)
    ensures AllKept(t)
  {
    forall p | p in t.written ensures Kept(t, p) {
      assert Kept(s, p);
    }
  }

  lemma KeptBySender<T>(s: State<T>, e: Event<T>, t: State<T>)
    requires Inv(s) && AllKept(s) && StepSender(s, e) == Some(t)
    ensures AllKept(t)
  {
    forall p | p in t.written ensures Kept(t, p) {
      assert p in s.written ==> Kept(s, p);
    }
  }

  lemma {:induction false} KeptInRun<T>(es: seq<Event<T>>, s: State<T>)
    requires Run(Init<T>(), es) == Some(s)
    ensures Inv(s) && AllKept(s)
    decreases |es|
  {
    EveryRun(es, s);
    if es != [] {
      var m, e := Run(Init<T>(), es[..|es| - 1]).value, es[|es| - 1];
      KeptInRun(es[..|es| - 1], m);
      if StepRx(m, e) == Some(s) {
        KeptByRx(m, e, s);
      } else {
        KeptBySender(m, e, s);
      }
    }
  }

  /** A value that was written and whose `send` did not return Ok is with its sender or has been handed back. */
  lemma RefusedIsHandedBack<T>(es: seq<Event<T>>, s: State<T>, p: nat)
    requires Run(Init<T>(), es) == Some(s) && p in s.written && p !in s.accepted
    ensures (p in s.senders && s.cell == Some(Message(p, s.written[p]))) <==> Some(Message(p, s.written[p])) !in s.handedBack
  {
    KeptInRun(es, s);
    assert Kept(s, p);
  }

  /** A value whose `send` returned Ok is in exactly one place: received, copied by the receiver, or in the cell. */
  lemma AcceptedIsSomewhere<T>(es: seq<Event<T>>, s: State<T>, p: nat)
    requires Run(Init<T>(), es) == Some(s) && p in s.accepted
    ensures p in s.written
    ensures var m := Some(Message(p, s.written[p]));
            (if m in s.received then 1 else 0) + (if m == s.cell then 1 else 0) + (if s.rx.Copied? && m == s.rx.message then 1 else 0) == 1
  {
    KeptInRun(es, s);
    assert Kept(s, p);
  }

  ghost predicate Leaked<T>(s: State<T>, m: Message<T>) {
    s.bits.closed && s.closes == 1 && !Taking(s.rx) && s.senders == map[] && s.cell == Some(m)
  }

  lemma LeakedStep<T>(s: State<T>, m: Message<T>, e: Event<T>, t: State<T>)
    requires Leaked(s, m) && Step(s, e) == Some(t)
    ensures Leaked(t, m) && t.received == s.received && t.handedBack == s.handedBack && t.dropped == s.dropped
  {
  }

  lemma {:induction false} LeakedForever<T>(s: State<T>, m: Message<T>, es: seq<Event<T>>, t: State<T>)
    requires Leaked(s, m) && Run(s, es) == Some(t)
    ensures Leaked(t, m) && t.received == s.received && t.handedBack == s.handedBack && t.dropped == s.dropped
    decreases |es|
  {
    if es != [] {
      var u := Run(s, es[..|es| - 1]).value;
      LeakedForever(s, m, es[..|es| - 1], u);
      LeakedStep(u, m, es[|es| - 1], t);
    }
  }

  /** On a closed channel with an idle receiver, a value whose `send` returned Ok is never received, in any
      continuation, if and only if it is the one left in the cell. */
  lemma NeverReceivedExactly<T>(es: seq<Event<T>>, s: State<T>, p: nat, later: seq<Event<T>>, u: State<T>)
    requires Run(Init<T>(), es) == Some(s) && s.bits.closed && !Taking(s.rx) && p in s.accepted
    requires Run(s, later) == Some(u)
    ensures p in s.written && u.received == s.received
    ensures Some(Message(p, s.written[p])) !in u.received <==> Leaked(s, Message(p, s.written[p]))
    ensures Leaked(s, Message(p, s.written[p])) ==> Leaked(u, Message(p, s.written[p]))
  {
    AcceptedIsSomewhere(es, s, p);
    EveryRun(es, s);
    ClosedForGood(s, later, u);
    if Leaked(s, Message(p, s.written[p])) {
      LeakedForever(s, Message(p, s.written[p]), later, u);
    }
  }

  ghost predicate ClosedAt<T>(s: State<T>, received: seq<Option<Message<T>>>) {
    s.bits.closed && s.closes == 1 && !Taking(s.rx) && s.received == received
  }

  lemma ClosedStep<T>(s: State<T>, e: Event<T>, t: State<T>)
    requires ClosedAt(s, s.received) && Step(s, e) == Some(t)
    ensures ClosedAt(t, s.received)
  {
  }

  lemma {:induction false} ClosedForGood<T>(s: State<T>, es: seq<Event<T>>, t: State<T>)
    requires ClosedAt(s, s.received) && Run(s, es) == Some(t)
    ensures ClosedAt(t, s.received)
    decreases |es|
  {
    if es != [] {
      var m := Run(s, es[..|es| - 1]).value;
      ClosedForGood(s, es[..|es| - 1], m);
      ClosedStep(m, es[|es| - 1], t);
    }
  }

  /** So a value that was sent and not yet received when an idle receiver closes the channel stays in the cell:
      nobody receives it, gets it back, or drops it. */
  lemma UnreceivedValueIsLeaked<T>(es: seq<Event<T>>, s: State<T>, t: State<T>, later: seq<Event<T>>, u: State<T>)
    requires Run(Init<T>(), es) == Some(s) && s.bits.sent && s.closes == 0 && !Taking(s.rx)
    requires Step(s, Close) == Some(t) && Run(t, later) == Some(u)
    ensures s.cell.Some? && u.cell == s.cell && u.received == s.received && u.handedBack == s.handedBack && u.dropped == 0
  {
    EveryRun(es, s);
    LeakedForever(t, s.cell.value, later, u);
  }

  // ---- what a poll tells ----

  /** The close of the run found the receiver taking no value. */
  ghost predicate ClosedIdle<T>(es: seq<Event<T>>)
    decreases |es|
  {
    es != [] && (ClosedIdle(es[..|es| - 1])
                 || (es[|es| - 1].Close? && Run(Init<T>(), es[..|es| - 1]).Some? && !Taking(Run(Init<T>(), es[..|es| - 1]).value.rx)))
  }

  /** A value whose `send` returned Ok has not been received. */
  ghost predicate SomethingWaits<T>(s: State<T>) {
    exists p :: p in s.accepted && p in s.written && Some(Message(p, s.written[p])) !in s.received
  }

  /** The channel stays closed if and only if the close found the receiver taking no value: while a value is being
      taken, the store of HAS_RX undoes it. */
  lemma {:induction false} ClosedForAnIdleReceiver<T>(es: seq<Event<T>>, s: State<T>)
    requires Run(Init<T>(), es) == Some(s)
    ensures ClosedIdle(es) <==> !Taking(s.rx) && s.bits.closed
    decreases |es|
  {
    if es != [] {
      var m := Run(Init<T>(), es[..|es| - 1]).value;
      ClosedForAnIdleReceiver(es[..|es| - 1], m);
      StaysClosed(m, es[|es| - 1], s);
    }
  }

  lemma StaysClosed<T>(s: State<T>, e: Event<T>, t: State<T>)
    requires Step(s, e) == Some(t)
    ensures !Taking(t.rx) && t.bits.closed <==> !Taking(s.rx) && (s.bits.closed || e.Close?)
  {
  }

  lemma WaitsInCell<T>(es: seq<Event<T>>, s: State<T>)
    requires Run(Init<T>(), es) == Some(s) && !Taking(s.rx) && !s.bits.closed
    ensures SomethingWaits(s) <==> s.bits.sent
    ensures SomethingWaits(s) ==> s.senders == map[]
  {
    KeptInRun(es, s);
    if SomethingWaits(s) {
      var p :| p in s.accepted && p in s.written && Some(Message(p, s.written[p])) !in s.received;
      assert Kept(s, p);
    }
    if s.bits.sent {
      assert s.cell.value.sender in s.accepted;
    }
  }

  /** What a poll of an idle receiver finds: the close, if it found the receiver taking no value; else a value, if
      one was sent and not received; else that there is no sender, if there is none; else nothing yet. */
  lemma PollExactly<T>(es: seq<Event<T>>, s: State<T>, t: State<T>)
    requires Run(Init<T>(), es) == Some(s) && Step(s, Poll) == Some(t)
    ensures ClosedIdle(es) ==> t.rx.Idle? && t.reports == s.reports + [SawClosed]
    ensures !ClosedIdle(es) && SomethingWaits(s) ==> t.rx.SawSent? && t.reports == s.reports
    ensures !ClosedIdle(es) && !SomethingWaits(s) && s.senders.Keys == {} ==> t.rx.Idle? && t.reports == s.reports + [NoSender]
    ensures !ClosedIdle(es) && !SomethingWaits(s) && s.senders.Keys != {} ==> t.rx.FoundNothing? && t.reports == s.reports
  {
    EveryRun(es, s);
    ClosedForAnIdleReceiver(es, s);
    if !s.bits.closed {
      WaitsInCell(es, s);
    }
    assert s.senders.Keys == {} <==> s.senders == map[];
  }

  /** A receiver that found nothing yet is told of any close there has been, undone or not, by the wait cell; without one
      it sleeps, unless it has been woken before it could, and that only once. */
  lemma ParkExactly<T>(es: seq<Event<T>>, s: State<T>)
    requires Run(Init<T>(), es) == Some(s) && s.rx.FoundNothing?
    ensures Step(s, Park).Some?
    ensures Step(s, Park).value.reports == if Close in es then s.reports + [SawClosed] else s.reports
    ensures Step(s, Park).value.asleep <==> Close !in es && !s.bell
    ensures !Step(s, Park).value.bell && Step(s, Park).value.rx.Idle?
  {
    ClosesAreCounted(es, s);
  }

  lemma {:induction false} ClosesAreCounted<T>(es: seq<Event<T>>, s: State<T>)
    requires Run(Init<T>(), es) == Some(s)
    ensures s.closes == if Close in es then 1 else 0
    decreases |es|
  {
    if es != [] {
      var front, e := es[..|es| - 1], es[|es| - 1];
      ClosesAreCounted(front, Run(Init<T>(), front).value);
      CloseCounts(Run(Init<T>(), front).value, e, s);
      assert Close in es <==> Close in front || e == Close;
    }
  }

  lemma CloseCounts<T>(s: State<T>, e: Event<T>, t: State<T>)
    requires Step(s, e) == Some(t)
    ensures if e.Close? then s.closes == 0 && t.closes == 1 else t.closes == s.closes
  {
  }

  /** Nothing else tells the receiver anything, and an idle receiver can always poll. */
  lemma OnlyPollsTell<T>(s: State<T>, e: Event<T>, t: State<T>)
    requires Step(s, e) == Some(t)
    ensures !e.Poll? && !e.Park? ==> t.reports == s.reports
    ensures s.rx.Idle? ==> Step(s, Poll).Some?
  {
  }

  // ---- waking the receiver ----

  ghost predicate Sleeps<T>(s: State<T>) {
    && (s.closes == 0 ==> !s.bits.closed)
    && (s.asleep ==> s.rx.Idle? && s.closes == 0 && s.bits.rxWaiting && (s.bits.sent ==> s.ringing > 0))
    && (s.rx.FoundNothing? && s.closes == 0 ==> s.bits.rxWaiting && (s.bits.sent ==> s.ringing > 0 || s.bell))
  }

  lemma {:induction false} SleepsInRun<T>(es: seq<Event<T>>, s: State<T>)
    requires Run(Init<T>(), es) == Some(s)
    ensures Sleeps(s)
    decreases |es|
  {
    if es != [] {
      var m := Run(Init<T>(), es[..|es| - 1]).value;
      SleepsInRun(es[..|es| - 1], m);
      SleepsStep(m, es[|es| - 1], s);
    }
  }

  lemma SleepsStep<T>(s: State<T>, e: Event<T>, t: State<T>)
    requires Sleeps(s) && Step(s, e) == Some(t)
    ensures Sleeps(t)
  {
  }

  /** No wake is lost for a value or a close: a sleeping receiver would, if it looked, find a value only while a
      sender has yet to wake it, and never a close. It sleeps on with something to find, that there is no sender, exactly
      when its sender was dropped unused. */
  lemma SleepsExactly<T>(es: seq<Event<T>>, s: State<T>, t: State<T>)
    requires Run(Init<T>(), es) == Some(s) && s.asleep && s.ringing == 0
    requires Step(s, Poll) == Some(t)
    ensures !t.rx.FoundNothing? <==> s.senders.Keys == {}
    ensures s.senders.Keys == {} ==> t.reports == s.reports + [NoSender]
    ensures Close !in es && !SomethingWaits(s)
  {
    EveryRun(es, s);
    SleepsInRun(es, s);
    ClosesAreCounted(es, s);
    WaitsInCell(es, s);
    assert s.senders.Keys == {} <==> s.senders == map[];
  }

  /** Then only a close or a look of its own wakes it. */
  lemma {:induction false} Oversleeps<T>(s: State<T>, es: seq<Event<T>>, t: State<T>)
    requires s.asleep && s.ringing == 0 && s.senders == map[] && s.bits.rxWaiting && s.rx.Idle?
    requires Run(s, es) == Some(t) && Close !in es && Poll !in es
    ensures t == s
    decreases |es|
  {
    if es != [] {
      var front, e := es[..|es| - 1], es[|es| - 1];
      assert e in es && forall f :: f in front ==> f in es;
      Oversleeps(s, front, Run(s, front).value);
    }
  }

  lemma FallsAsleep<T>(s: State<T>, p: nat) returns (s1: State<T>, s2: State<T>, t: State<T>)
    requires s.bits == READY && s.rx.Idle? && p !in s.made && s.closes == 0 && !s.bell
    ensures Step(s, TakeSender(p)) == Some(s1) && Step(s1, Poll) == Some(s2) && Step(s2, Park) == Some(t)
    ensures t == s.(bits := READY.(hasTx := true, rxWaiting := true), senders := s.senders[p := Holding], made := s.made + {p}, asleep := true)
  {
    s1 := Step(s, TakeSender(p)).value;
    s2 := Step(s1, Poll).value;
    t := Step(s2, Park).value;
  }

  /** There are such runs: the sender of a receiver that sleeps is dropped unused. */
  lemma DroppedWhileAsleep<T>(es: seq<Event<T>>, s: State<T>, p: nat) returns (t: State<T>)
    requires Run(Init<T>(), es) == Some(s) && s.bits == READY && s.rx.Idle? && p !in s.made && s.closes == 0 && !s.bell
    ensures Run(s, [] + [TakeSender(p)] + [Poll] + [Park] + [DropSender(p)]) == Some(t)
    ensures t == s.(bits := READY.(rxWaiting := true), made := s.made + {p}, asleep := true) && t.senders == map[]
  {
    EveryRun(es, s);
    var none: seq<Event<T>> := [];
    var s1, s2, s3 := FallsAsleep(s, p);
    ExtendRun(s, none, s, TakeSender(p), s1);
    ExtendRun(s, none + [TakeSender(p)], s1, Poll, s2);
    ExtendRun(s, none + [TakeSender(p)] + [Poll], s2, Park, s3);
    t := s.(bits := READY.(rxWaiting := true), made := s.made + {p}, asleep := true);
    DropsAsleep(s3, p, t);
    ExtendRun(s, none + [TakeSender(p)] + [Poll] + [Park], s3, DropSender(p), t);
  }

  lemma DropsAsleep<T>(s: State<T>, p: nat, t: State<T>)
    requires s.senders == map[p := Holding] && t == s.(bits := s.bits.(hasTx := false), senders := map[])
    ensures Step(s, DropSender(p)) == Some(t)
  {
    assert s.senders - {p} == map[];
  }

  // ---- asking for a sender ----

  datatype Asked = Made | Closed | AlreadyActive | AskAgain

  /** One turn of the loop in `take_sender`, from the state word that the `compare_exchange` found. If it found
      SENT, the value is received and dropped before the rest of the turn looks at the same word. */
  function AskedWith(found: Bits): Asked {
    if found == READY then Made else if found.closed then Closed else if found.hasTx then AlreadyActive else AskAgain
  }

  /** The receiver has polled since it last stored HAS_RX. */
  ghost predicate PolledSinceReady<T>(es: seq<Event<T>>)
    decreases |es|
  {
    es != [] && (es[|es| - 1].Poll? || (!es[|es| - 1].Store? && PolledSinceReady(es[..|es| - 1])))
  }

  lemma {:induction false} WaitingExactly<T>(es: seq<Event<T>>, s: State<T>)
    requires Run(Init<T>(), es) == Some(s)
    ensures !s.bits.closed ==> (s.bits.rxWaiting <==> PolledSinceReady(es))
    decreases |es|
  {
    if es != [] {
      var m := Run(Init<T>(), es[..|es| - 1]).value;
      WaitingExactly(es[..|es| - 1], m);
      OnlyPollsWait(m, es[|es| - 1], s);
    }
  }

  lemma OnlyPollsWait<T>(s: State<T>, e: Event<T>, t: State<T>)
    requires Step(s, e) == Some(t)
    ensures e.Store? ==> !t.bits.closed && !t.bits.rxWaiting
    ensures !e.Store? && !t.bits.closed ==> !s.bits.closed && (t.bits.rxWaiting <==> e.Poll? || s.bits.rxWaiting)
  {
  }

  /** What an idle receiver that asks for a sender gets: that the channel is closed, if it is; that a sender is active, if
      one is or if a value waits, although it has then taken that value; else a sender, unless it has polled. */
  lemma AskExactly<T>(es: seq<Event<T>>, s: State<T>, p: nat)
    requires Run(Init<T>(), es) == Some(s) && s.rx.Idle? && p !in s.made
    ensures AskedWith(s.bits) == if ClosedIdle(es) then Closed else if s.senders.Keys != {} || SomethingWaits(s) then AlreadyActive
                                 else if PolledSinceReady(es) then AskAgain else Made
    ensures Step(s, TakeSender(p)).Some? <==> AskedWith(s.bits) == Made
  {
    EveryRun(es, s);
    ClosedForAnIdleReceiver(es, s);
    WaitingExactly(es, s);
    if !s.bits.closed {
      WaitsInCell(es, s);
    }
    assert s.senders.Keys == {} <==> s.senders == map[];
  }

  /** No sender, no value, and a word that `take_sender` does not accept. */
  ghost predicate Stuck<T>(s: State<T>, made: set<nat>, received: seq<Option<Message<T>>>) {
    && s.made == made && s.received == received && s.senders == map[] && s.rx.Idle?
    && !s.bits.sent && !s.bits.hasTx && (s.bits.closed || s.bits.rxWaiting)
  }

  lemma StuckStep<T>(s: State<T>, e: Event<T>, t: State<T>)
    requires Stuck(s, s.made, s.received) && Step(s, e) == Some(t)
    ensures Stuck(t, s.made, s.received) && (t.bits.closed <==> s.bits.closed || e.Close?)
  {
  }

  lemma {:induction false} StuckForEver<T>(s: State<T>, es: seq<Event<T>>, t: State<T>)
    requires Stuck(s, s.made, s.received) && Run(s, es) == Some(t)
    ensures Stuck(t, s.made, s.received) && (t.bits.closed <==> s.bits.closed || Close in es)
    decreases |es|
  {
    if es != [] {
      var front, e := es[..|es| - 1], es[|es| - 1];
      StuckForEver(s, front, Run(s, front).value);
      StuckStep(Run(s, front).value, e, t);
      assert Close in es <==> Close in front || e == Close;
    }
  }

  /** A receiver that has polled while there was no sender asks for one in vain: in every continuation none is ever
      made and nothing received, and the loop goes round until the channel is closed. */
  lemma AsksForEver<T>(es: seq<Event<T>>, s: State<T>, later: seq<Event<T>>, t: State<T>)
    requires Run(Init<T>(), es) == Some(s) && s.rx.Idle? && AskedWith(s.bits) == AskAgain
    requires Run(s, later) == Some(t)
    ensures t.made == s.made && t.received == s.received && t.rx.Idle?
    ensures AskedWith(t.bits) == if Close in later then Closed else AskAgain
  {
    EveryRun(es, s);
    StuckForEver(s, later, t);
  }

  /** A close between the receiver's look and its store is undone: senders can be made and values sent and
      received as before, and only the wait cell still knows of it. */
  lemma CloseIsUndone<T>(es: seq<Event<T>>, s: State<T>) returns (t: State<T>)
    requires Run(Init<T>(), es) == Some(s) && s.rx.SawSent? && s.closes == 0
    ensures s.cell.Some? && Run(s, [] + [Close] + [Copy] + [Store]) == Some(t)
    ensures t.closes == 1 && t.bits == READY && t.rx.Idle? && t.received == s.received + [s.cell]
  {
    EveryRun(es, s);
    var none: seq<Event<T>> := [];
    var s1 := Step(s, Close).value;
    ExtendRun(s, none, s, Close, s1);
    var s2 := Step(s1, Copy).value;
    ExtendRun(s, none + [Close], s1, Copy, s2);
    t := Step(s2, Store).value;
    ExtendRun(s, none + [Close] + [Copy], s2, Store, t);
  }

  // ---- senders that do not get through ----

  /** Some sender has found CLOSED, and has or will have its value back. */
  ghost predicate SomeoneRefused<T>(s: State<T>) {
    s.handedBack != [] || exists p :: p in s.senders && s.senders[p].HandingBack?
  }

  ghost predicate ClosedBits<T>(s: State<T>) {
    && (s.bits.closed ==> !s.bits.hasRx && !s.bits.hasTx && (Taking(s.rx) ==> !s.bits.sent))
    && (SomeoneRefused(s) <==> s.bits.closed && s.bits.sent)
  }

  lemma ClosedBitsStep<T>(s: State<T>, e: Event<T>, t: State<T>)
    requires Inv(s) && ClosedBits(s) && Step(s, e) == Some(t)
    ensures ClosedBits(t)
  {
    if StepRx(s, e) == Some(t) {
      ClosedBitsByRx(s, e, t);
    } else if e.Finish? {
      assert s.senders[e.p].Wrote?;
      assert t.bits.closed ==> t.senders[e.p].HandingBack?;
    } else {
      assert forall p :: p in s.senders && s.senders[p].HandingBack? && !(e.TakeBack? && e.p == p) ==> p in t.senders && t.senders[p] == s.senders[p];
      assert e.TakeBack? ==> t.handedBack != [];
    }
  }

  lemma ClosedBitsByRx<T>(s: State<T>, e: Event<T>, t: State<T>)
    requires Inv(s) && ClosedBits(s) && StepRx(s, e) == Some(t)
    ensures ClosedBits(t)
  {
    assert forall p :: p in s.senders && s.senders[p].HandingBack? ==> p in t.senders && t.senders[p] == s.senders[p];
    assert t.handedBack == s.handedBack;
  }

  /** The word of a closed channel lets no sender be made, and has SENT again exactly if a sender was refused. */
  lemma {:induction false} ClosedWord<T>(es: seq<Event<T>>, s: State<T>)
    requires Run(Init<T>(), es) == Some(s)
    ensures ClosedBits(s)
    decreases |es|
  {
    if es != [] {
      var m := Run(Init<T>(), es[..|es| - 1]).value;
      EveryRun(es[..|es| - 1], m);
      ClosedWord(es[..|es| - 1], m);
      ClosedBitsStep(m, es[|es| - 1], s);
    }
  }

  lemma HandsBack<T>(s: State<T>, p: nat, v: T) returns (s1: State<T>, s2: State<T>, t: State<T>)
    requires Inv(s) && s.closes == 0 && s.senders == map[p := Wrote(v)]
    ensures Step(s, Close) == Some(s1) && Step(s1, Finish(p)) == Some(s2) && Step(s2, TakeBack(p)) == Some(t)
    ensures t.handedBack == s.handedBack + [Some(Message(p, v))] && t.senders == map[p := Spent] && t.accepted == s.accepted
  {
    assert p in s.senders && s.cell == InCell(p, s.senders[p]);
    s1 := Step(s, Close).value;
    s2 := Step(s1, Finish(p)).value;
    t := Step(s2, TakeBack(p)).value;
  }

  /** A value that is being sent when the receiver closes comes back to its sender. */
  lemma ClosedWhileSending<T>(es: seq<Event<T>>, s: State<T>, p: nat, v: T) returns (t: State<T>)
    requires Run(Init<T>(), es) == Some(s) && s.senders == map[p := Wrote(v)] && s.closes == 0
    ensures Run(s, [] + [Close] + [Finish(p)] + [TakeBack(p)] + [DropSender(p)]) == Some(t)
    ensures t.handedBack == s.handedBack + [Some(Message(p, v))] && t.senders == map[] && t.accepted == s.accepted
  {
    EveryRun(es, s);
    var none: seq<Event<T>> := [];
    var s1, s2, s3 := HandsBack(s, p, v);
    ExtendRun(s, none, s, Close, s1);
    ExtendRun(s, none + [Close], s1, Finish(p), s2);
    ExtendRun(s, none + [Close] + [Finish(p)], s2, TakeBack(p), s3);
    t := Step(s3, DropSender(p)).value;
    assert t.senders == map[];
    ExtendRun(s, none + [Close] + [Finish(p)] + [TakeBack(p)], s3, DropSender(p), t);
  }

  /** A sender that is dropped unused leaves the channel ready for another. */
  lemma DroppedSender<T>(es: seq<Event<T>>, s: State<T>, p: nat) returns (t: State<T>)
    requires Run(Init<T>(), es) == Some(s) && s.bits == READY && s.rx.Idle? && p !in s.made
    ensures Run(s, [] + [TakeSender(p)] + [DropSender(p)]) == Some(t)
    ensures t == s.(made := s.made + {p})
  {
    EveryRun(es, s);
    var none: seq<Event<T>> := [];
    var s1 := Step(s, TakeSender(p)).value;
    ExtendRun(s, none, s, TakeSender(p), s1);
    t := Step(s1, DropSender(p)).value;
    assert s1.senders - {p} == s.senders;
    ExtendRun(s, none + [TakeSender(p)], s1, DropSender(p), t);
  }
}
