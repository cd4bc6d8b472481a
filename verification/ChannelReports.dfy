/** What the ends of the channel are told, when each end is closed, and that every call, run on its own from
    any reachable state, has the effect it is for. */
module ChannelReports {
  import opened Options
  import opened Words
  import opened Channel
  import opened ChannelInvariant
  import opened ChannelPreservation
  import opened ChannelTheorems
  import opened ChannelRuns
  import opened ChannelProgress

  // ---- when an end is closed ----

  /** The send half is closed if and only if the receiver that was claimed has gone, or an error has been set
      and its call has got past closing the send half; the receive half if and only if the last handle's drop
      is complete, or an error has been set and its call has returned. */
  lemma ClosedExactly<T, E>(cap: nat, es: seq<Event<T, E>>, s: State<T, E>)
    requires cap <= MAX_CAPACITY && Run(Init<T, E>(cap), es) == Some(s)
    ensures IsClosed(s.tail) <==> (IsClaimed(s.state) && !s.rxLive) || (IsErrored(s.state) && !exists c :: c in s.closers && s.closers[c].ClosingRx?)
    ensures IsClosed(s.head) <==> (s.handles == {} && s.lastDrop.Done?) || (IsErrored(s.state) && s.closers.Keys == {})
  {
    EveryRun(cap, es, s);
    if s.closers.Keys == {} {
      assert s.closers == map[];
    } else {
      var c :| c in s.closers;
      assert forall d :: d in s.closers ==> d == c;
    }
  }

  // ---- reports ----

  /** The error that was written, if ERRORED is set. */
  ghost predicate Tells<T, E>(s: State<T, E>, r: Report<E>, otherwise: Report<E>) {
    if IsErrored(s.state) then s.errors != [] && r == Error(Some(s.errors[0])) else r == otherwise
  }

  lemma ReceiverIsTold<T, E>(s: State<T, E>, cap: nat, e: Event<T, E>, t: State<T, E>)
    requires Inv(s, cap) && StepRx(s, e) == Some(t)
    ensures e.RxReason? ==> |t.reports| == |s.reports| + 1 && s.reports <= t.reports && Tells(s, t.reports[|s.reports|], RxDisconnected)
    ensures e.LoadHeadSlot? && !Ready(s) && !IsClosed(s.rx.word) ==> t.reports == s.reports + [Empty]
    ensures !e.RxReason? && !(e.LoadHeadSlot? && !Ready(s) && !IsClosed(s.rx.word)) ==> t.reports == s.reports
  {
    if e.LoadHeadSlot? {
      SlotAtHead(s, cap);
    }
  }

  lemma SenderIsTold<T, E>(s: State<T, E>, cap: nat, e: Event<T, E>, t: State<T, E>)
    requires Inv(s, cap) && (StepReserve(s, e) == Some(t) || StepCommit(s, e) == Some(t))
    ensures e.TxReason? ==> |t.reports| == |s.reports| + 1 && s.reports <= t.reports && Tells(s, t.reports[|s.reports|], TxDisconnected)
    ensures e.ReserveFull? ==> t.reports == s.reports + [Full]
    ensures !e.TxReason? && !e.ReserveFull? ==> t.reports == s.reports
  {
  }

  lemma OthersAreTold<T, E>(s: State<T, E>, e: Event<T, E>, t: State<T, E>)
    requires StepHandle(s, e) == Some(t) || StepClose(s, e) == Some(t)
    ensures t.reports == s.reports
  {
  }

  /** What every step tells: a sender whose refusal is complete, the error that was written if ERRORED is set and
      else `Disconnected`; the same a receiver that found its head closed and nothing ready; `Empty` a receiver
      that found it open and nothing ready; `Full` a reservation that found no free index; and nobody else. */
  lemma ToldExactly<T, E>(cap: nat, es: seq<Event<T, E>>, s: State<T, E>, e: Event<T, E>, t: State<T, E>)
    requires cap <= MAX_CAPACITY && Run(Init<T, E>(cap), es) == Some(s) && Step(s, e) == Some(t)
    ensures e.RxReason? ==> |t.reports| == |s.reports| + 1 && s.reports <= t.reports && Tells(s, t.reports[|s.reports|], RxDisconnected)
    ensures e.TxReason? ==> |t.reports| == |s.reports| + 1 && s.reports <= t.reports && Tells(s, t.reports[|s.reports|], TxDisconnected)
    ensures e.ReserveFull? ==> t.reports == s.reports + [Full]
    ensures e.LoadHeadSlot? ==> t.reports == s.reports + if !Ready(s) && !IsClosed(s.rx.word) then [Empty] else []
    ensures !e.RxReason? && !e.TxReason? && !e.ReserveFull? && !e.LoadHeadSlot? ==> t.reports == s.reports
  {
    EveryRun(cap, es, s);
    StepTells(s, cap, e, t);
  }

  lemma StepTells<T, E>(s: State<T, E>, cap: nat, e: Event<T, E>, t: State<T, E>)
    requires Inv(s, cap) && Step(s, e) == Some(t)
    ensures e.RxReason? ==> |t.reports| == |s.reports| + 1 && s.reports <= t.reports && Tells(s, t.reports[|s.reports|], RxDisconnected)
    ensures e.TxReason? ==> |t.reports| == |s.reports| + 1 && s.reports <= t.reports && Tells(s, t.reports[|s.reports|], TxDisconnected)
    ensures e.ReserveFull? ==> t.reports == s.reports + [Full]
    ensures e.LoadHeadSlot? ==> t.reports == s.reports + if !Ready(s) && !IsClosed(s.rx.word) then [Empty] else []
    ensures !e.RxReason? && !e.TxReason? && !e.ReserveFull? && !e.LoadHeadSlot? ==> t.reports == s.reports
  {
    if StepHandle(s, e) == Some(t) || StepClose(s, e) == Some(t) {
      OthersAreTold(s, e, t);
    } else if StepRx(s, e) == Some(t) {
      ReceiverIsTold(s, cap, e, t);
    } else {
      SenderIsTold(s, cap, e, t);
    }
  }

  /** A receiver that runs alone on a closed head with nothing ready is told the reason, and is done. */
  lemma SoloDisconnect<T, E>(cap: nat, es: seq<Event<T, E>>, s: State<T, E>) returns (t: State<T, E>)
    requires cap <= MAX_CAPACITY && Run(Init<T, E>(cap), es) == Some(s)
    requires s.rxLive && s.rx.Idle? && IsClosed(s.head) && !Ready(s)
    ensures Run(s, [LoadHead, LoadHeadSlot, RxReason]) == Some(t) && t.rx.Idle?
    ensures t.reports == s.reports + [if IsErrored(s.state) then Error(s.error) else RxDisconnected]
    ensures IsErrored(s.state) ==> s.errors != [] && s.error == Some(s.errors[0])
  {
    EveryRun(cap, es, s);
    SlotAtHead(s, cap);
    t := s.(reports := s.reports + [if IsErrored(s.state) then Error(s.error) else RxDisconnected]);
    DisconnectRun(s, t);
  }

  lemma DisconnectRun<T, E>(s: State<T, E>, t: State<T, E>)
    requires !s.panicked && s.rxLive && s.rx.Idle? && s.head.Pos? && s.head.closed && Vacant(s.queue, s.head.pos)
    requires t == s.(reports := s.reports + [if IsErrored(s.state) then Error(s.error) else RxDisconnected])
    ensures Run(s, [LoadHead, LoadHeadSlot, RxReason]) == Some(t)
  {
    var s1 := s.(rx := GotHead(s.head));
    var s2 := s.(rx := SawClosed);
    SeesClosed(s, s.head);
    GetsReason(s2);
    Chain3(s, LoadHead, s1, LoadHeadSlot, s2, RxReason, t);
  }

  lemma GetsReason<T, E>(s: State<T, E>)
    requires !s.panicked && s.rx.SawClosed?
    ensures Step(s, RxReason) ==
            Some(s.(rx := Idle, reports := s.reports + [if IsErrored(s.state) then Error(s.error) else RxDisconnected]))
  {
  }

  lemma SeesClosed<T, E>(s: State<T, E>, w: Word)
    requires !s.panicked && s.rxLive && s.rx.Idle? && s.head == w && w.Pos? && w.closed && Vacant(s.queue, w.pos)
    ensures Step(s, LoadHead) == Some(s.(rx := GotHead(w)))
    ensures Step(s.(rx := GotHead(w)), LoadHeadSlot) == Some(s.(rx := SawClosed))
  {
    assert s.reports + [] == s.reports;
  }

  /** So is a call that reserves when the tail is closed. */
  lemma SoloRefusal<T, E>(cap: nat, es: seq<Event<T, E>>, s: State<T, E>, p: nat, h: nat) returns (t: State<T, E>)
    requires cap <= MAX_CAPACITY && Run(Init<T, E>(cap), es) == Some(s)
    requires h in s.handles && p !in s.permits && IsClosed(s.tail)
    ensures Run(s, [ReserveLoad(p, h), TxReason(p)]) == Some(t)
    ensures t == s.(reports := s.reports + [if IsErrored(s.state) then Error(s.error) else TxDisconnected])
  {
    NeverPanics(cap, es, s);
    t := s.(reports := s.reports + [if IsErrored(s.state) then Error(s.error) else TxDisconnected]);
    var s1 := IsRefused(s, p, h, t);
    Chain2(s, ReserveLoad(p, h), s1, TxReason(p), t);
  }

  lemma IsRefused<T, E>(s: State<T, E>, p: nat, h: nat, t: State<T, E>) returns (s1: State<T, E>)
    requires !s.panicked && h in s.handles && p !in s.permits && IsClosed(s.tail)
    requires t == s.(reports := s.reports + [if IsErrored(s.state) then Error(s.error) else TxDisconnected])
    ensures Step(s, ReserveLoad(p, h)) == Some(s1) && Step(s1, TxReason(p)) == Some(t)
  {
    s1 := s.(permits := s.permits[p := Refused(h)]);
    assert s1.permits - {p} == s.permits;
  }

  // ---- calls that run alone ----

  /** A reservation that is dropped leaves everything as it was. */
  lemma SoloReserveAndDrop<T, E>(cap: nat, es: seq<Event<T, E>>, s: State<T, E>, p: nat, h: nat, i: nat)
    requires cap <= MAX_CAPACITY && Run(Init<T, E>(cap), es) == Some(s)
    requires h in s.handles && p !in s.permits && !IsClosed(s.tail) && i in s.free
    ensures Run(s, [ReserveLoad(p, h), ReserveAlloc(p, i), Uncommit(p)]) == Some(s)
  {
    EveryRun(cap, es, s);
    assert OwnerOk(s, i);
    ReserveAndDropRun(s, p, h, i);
  }

  lemma ReserveAndDropRun<T, E>(s: State<T, E>, p: nat, h: nat, i: nat)
    requires !s.panicked && h in s.handles && p !in s.permits && !IsClosed(s.tail) && i in s.free && i in s.owner && s.owner[i].Free?
    ensures Run(s, [ReserveLoad(p, h), ReserveAlloc(p, i), Uncommit(p)]) == Some(s)
  {
    var s1, s2 := ReservesIndex(s, p, h, i);
    GivesIndexBack(s, p, h, i, s2);
    Chain3(s, ReserveLoad(p, h), s1, ReserveAlloc(p, i), s2, Uncommit(p), s);
  }

  lemma ReservesIndex<T, E>(s: State<T, E>, p: nat, h: nat, i: nat) returns (s1: State<T, E>, s2: State<T, E>)
    requires !s.panicked && h in s.handles && p !in s.permits && !IsClosed(s.tail) && i in s.free
    ensures Step(s, ReserveLoad(p, h)) == Some(s1) && Step(s1, ReserveAlloc(p, i)) == Some(s2)
    ensures s2 == s.(free := s.free - {i}, owner := s.owner[i := ByPermit(p)], permits := s.permits[p := Reserved(h, i)])
  {
    s1 := s.(permits := s.permits[p := Reserving(h)]);
    s2 := s.(free := s.free - {i}, owner := s.owner[i := ByPermit(p)], permits := s.permits[p := Reserved(h, i)]);
    assert s1.permits[p := Reserved(h, i)] == s2.permits;
  }

  lemma GivesIndexBack<T, E>(s: State<T, E>, p: nat, h: nat, i: nat, t: State<T, E>)
    requires !s.panicked && p !in s.permits && i in s.free && i in s.owner && s.owner[i].Free?
    requires t == s.(free := s.free - {i}, owner := s.owner[i := ByPermit(p)], permits := s.permits[p := Reserved(h, i)])
    ensures Step(t, Uncommit(p)) == Some(s)
  {
    assert t.free + {i} == s.free && t.owner[i := Free] == s.owner && t.permits - {p} == s.permits;
  }

  /** A message in the receiver's hands can be moved out, and its cell is free again. */
  lemma SoloTake<T, E>(cap: nat, es: seq<Event<T, E>>, s: State<T, E>, i: nat) returns (t: State<T, E>)
    requires cap <= MAX_CAPACITY && Run(Init<T, E>(cap), es) == Some(s)
    requires i in s.held && !s.held[i].taken
    ensures Run(s, [Take(i), Release(i)]) == Some(t)
    ensures s.held[i].pos < |s.committed| && t.moved == s.moved[s.held[i].pos := Some(s.committed[s.held[i].pos])]
    ensures i in t.free && i !in t.cells && i !in t.held && t.free == s.free + {i}
  {
    EveryRun(cap, es, s);
    assert OwnerOk(s, i);
    t := TakeRun(s, i);
  }

  lemma TakeRun<T, E>(s: State<T, E>, i: nat) returns (t: State<T, E>)
    requires !s.panicked && i in s.held && !s.held[i].taken
    ensures Run(s, [Take(i), Release(i)]) == Some(t)
    ensures t.moved == s.moved[s.held[i].pos := Cell(s, i)] && t.free == s.free + {i} && i !in t.cells && i !in t.held
  {
    var s1 := Step(s, Take(i)).value;
    t := Step(s1, Release(i)).value;
    Chain2(s, Take(i), s1, Release(i), t);
  }

  /** The first close with an error sets it and closes both ends. */
  lemma SoloClose<T, E>(cap: nat, es: seq<Event<T, E>>, s: State<T, E>, c: nat, who: Actor, e: E) returns (t: State<T, E>)
    requires cap <= MAX_CAPACITY && Run(Init<T, E>(cap), es) == Some(s)
    requires (who == ByReceiver && s.rxLive) || (who.ByHandle? && who.h in s.handles)
    requires s.errors == [] && s.closers.Keys == {}
    ensures Run(s, [CloseBegin(c, who, e)] + [CloseWrite(c), CloseMark(c)] + [CloseRx(c), CloseTx(c)]) == Some(t)
    ensures IsErrored(t.state) && t.error == Some(e) && t.errors == [e] && IsClosed(t.tail) && IsClosed(t.head)
    ensures t.closers.Keys == {} && TxCount(t.state) == TxCount(s.state) && t.committed == s.committed
  {
    EveryRun(cap, es, s);
    assert s.closers == map[];
    var m := ErrorRun(s, c, who, e);
    t := EndsRun(m, c);
    Continue(s, [CloseBegin(c, who, e)] + [CloseWrite(c), CloseMark(c)], m, [CloseRx(c), CloseTx(c)], t);
  }

  lemma ErrorRun<T, E>(s: State<T, E>, c: nat, who: Actor, e: E) returns (m: State<T, E>)
    requires !s.panicked && Live(s, who) && s.closers == map[] && s.state.Flags? && !s.state.erroring && !s.state.errored
    ensures Run(s, [CloseBegin(c, who, e)] + [CloseWrite(c), CloseMark(c)]) == Some(m)
    ensures m == s.(state := s.state.(erroring := true, errored := true), error := Some(e), errors := s.errors + [e],
                    closers := map[c := ClosingRx(who)])
  {
    var s1 := s.(state := s.state.(erroring := true), closers := map[c := Writing(who, e)]);
    assert s.closers[c := Writing(who, e)] == s1.closers;
    assert Step(s, CloseBegin(c, who, e)) == Some(s1);
    m := WriteErrorRun(s1, c, who, e);
    FirstEvent(s, CloseBegin(c, who, e));
    Continue(s, [CloseBegin(c, who, e)], s1, [CloseWrite(c), CloseMark(c)], m);
  }

  lemma WriteErrorRun<T, E>(s: State<T, E>, c: nat, who: Actor, e: E) returns (m: State<T, E>)
    requires !s.panicked && s.closers == map[c := Writing(who, e)] && s.state.Flags?
    ensures Run(s, [CloseWrite(c), CloseMark(c)]) == Some(m)
    ensures m == s.(state := s.state.(errored := true), error := Some(e), errors := s.errors + [e], closers := map[c := ClosingRx(who)])
  {
    var s1 := s.(error := Some(e), errors := s.errors + [e], closers := map[c := Marking(who)]);
    m := s1.(state := s.state.(errored := true), closers := map[c := ClosingRx(who)]);
    assert s.closers[c := Marking(who)] == s1.closers && s1.closers[c := ClosingRx(who)] == m.closers;
    Chain2(s, CloseWrite(c), s1, CloseMark(c), m);
  }

  lemma EndsRun<T, E>(s: State<T, E>, c: nat) returns (t: State<T, E>)
    requires !s.panicked && c in s.closers && s.closers[c].ClosingRx? && s.closers.Keys == {c} && s.tail.Pos? && s.head.Pos?
    ensures Run(s, [CloseRx(c), CloseTx(c)]) == Some(t)
    ensures t == s.(tail := Pos(s.tail.pos, true), head := Pos(s.head.pos, true), closers := map[])
  {
    var s1 := Step(s, CloseRx(c)).value;
    t := Step(s1, CloseTx(c)).value;
    assert t.closers == map[];
    Chain2(s, CloseRx(c), s1, CloseTx(c), t);
  }

  /** Every later call changes nothing but the bit that is set already. */
  lemma LaterClose<T, E>(cap: nat, es: seq<Event<T, E>>, s: State<T, E>, c: nat, who: Actor, e: E)
    requires cap <= MAX_CAPACITY && Run(Init<T, E>(cap), es) == Some(s)
    requires (who == ByReceiver && s.rxLive) || (who.ByHandle? && who.h in s.handles)
    requires c !in s.closers && (s.errors != [] || s.closers.Keys != {})
    ensures Step(s, CloseBegin(c, who, e)) == Some(s)
  {
    EveryRun(cap, es, s);
    if s.closers.Keys != {} {
      var d :| d in s.closers;
    }
  }

  /** The last handle's drop closes the receive half, and no other does. */
  lemma SoloDrop<T, E>(cap: nat, es: seq<Event<T, E>>, s: State<T, E>, h: nat) returns (t: State<T, E>)
    requires cap <= MAX_CAPACITY && Run(Init<T, E>(cap), es) == Some(s)
    requires h in s.handles && !Borrowed(s, h)
    ensures Step(s, DropTx(h)).Some?
    ensures s.handles != {h} ==> t == Step(s, DropTx(h)).value && t.head == s.head && t.handles == s.handles - {h} && h !in t.handles
    ensures s.handles == {h} ==> Run(s, [DropTx(h), DropFence, DropClose]) == Some(t) && t.handles == {} && IsClosed(t.head)
  {
    EveryRun(cap, es, s);
    t := Step(s, DropTx(h)).value;
    assert t.handles + {h} == s.handles;
    if s.handles == {h} {
      var s1 := t;
      var s2 := s1.(lastDrop := LastDrop.Closing);
      t := s2.(lastDrop := Done, head := Close(s2.head));
      assert Step(s1, DropFence) == Some(s2);
      Chain3(s, DropTx(h), s1, DropFence, s2, DropClose, t);
    }
  }

  /** A handle can always be cloned. */
  lemma SoloClone<T, E>(cap: nat, es: seq<Event<T, E>>, s: State<T, E>, h: nat, n: nat)
    requires cap <= MAX_CAPACITY && Run(Init<T, E>(cap), es) == Some(s) && h in s.handles && n !in s.handles
    ensures Step(s, AddTx(h, n)).Some? && Step(s, AddTx(h, n)).value.handles == s.handles + {n}
  {
    NeverPanics(cap, es, s);
  }

  /** The receiver can be claimed once. */
  lemma SoloClaim<T, E>(cap: nat, es: seq<Event<T, E>>, s: State<T, E>, h: nat)
    requires cap <= MAX_CAPACITY && Run(Init<T, E>(cap), es) == Some(s) && h in s.handles
    ensures Step(s, ClaimRx(h)).Some? && IsClaimed(Step(s, ClaimRx(h)).value.state)
    ensures Step(s, ClaimRx(h)).value.rxLive <==> s.rxLive || !IsClaimed(s.state)
  {
    NeverPanics(cap, es, s);
    FlagsAlways(cap, es, s);
  }

  lemma FlagsAlways<T, E>(cap: nat, es: seq<Event<T, E>>, s: State<T, E>)
    requires cap <= MAX_CAPACITY && Run(Init<T, E>(cap), es) == Some(s)
    ensures s.state.Flags? && s.tail.Pos? && s.head.Pos?
  {
    EveryRun(cap, es, s);
  }

  /** The drop of the receiver closes the send half. */
  lemma SoloDropRx<T, E>(cap: nat, es: seq<Event<T, E>>, s: State<T, E>)
    requires cap <= MAX_CAPACITY && Run(Init<T, E>(cap), es) == Some(s)
    requires s.rxLive && s.rx.Idle? && s.held == map[] && s.closers.Keys == {}
    ensures Step(s, DropRx).Some? && IsClosed(Step(s, DropRx).value.tail) && !Step(s, DropRx).value.rxLive
  {
    NeverPanics(cap, es, s);
    FlagsAlways(cap, es, s);
  }
}
