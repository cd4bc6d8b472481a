/** When the 16-bit machine panics: exactly with a capacity of two or more, and only beyond the commit bound. */
module PackedPanics {
  import opened Options
  import opened Words
  import opened Channel
  import opened ChannelInvariant
  import opened ChannelRuns
  import opened ChannelProgress
  import opened PackedChannel
  import opened PackedWrap
  import opened PackedSimulation
  import opened PackedLimits

  predicate WordOf<T>(a: Permit<T>, w: Word) {
    (a.GotTail? || a.GotSlot?) ==> a.word == w
  }

  /** Every permit that has loaded the tail has the current one. */
  ghost predicate Current<T, E>(p: State<T, E>) {
    forall x :: x in p.permits ==> WordOf(p.permits[x], ModWord(Pos(|p.committed|, false)))
  }

  /** With one index at most, two permits cannot both hold one. */
  lemma OnlyHolder<T, E>(s: State<T, E>, cap: nat, p: State<T, E>, x: nat, y: nat)
    requires Linked(s, p) && Positions(s) && Ownership(s, cap) && cap <= 1
    requires x in p.permits && y in p.permits && HoldsIndex(p.permits[x]) && HoldsIndex(p.permits[y])
    ensures x == y
  {
    SamePermit(p.permits, x);
    SamePermit(p.permits, y);
    assert PermitOk(s, x) && PermitOk(s, y);
  }

  lemma LooksAtRoom<T, E>(s: State<T, E>, cap: nat, p: State<T, E>, x: nat, q: State<T, E>)
    requires Linked(s, p) && Inv(s, cap) && Current(p) && StepCommit(p, LoadTailSlot(x)) == Some(q)
    ensures !q.panicked && Current(q)
  {
    SamePermit(p.permits, x);
    RoomAtTail(s, cap, x);
    var n := s.tail.pos;
    assert WordOf(p.permits[x], ModWord(Pos(n, false)));
    ModIndex(n, false);
    ModRoom(n, false, At(s.queue, n).idx);
  }

  lemma SwapStaysCurrent<T, E>(s: State<T, E>, cap: nat, p: State<T, E>, e: Event<T, E>, q: State<T, E>)
    requires Linked(s, p) && Positions(s) && Ownership(s, cap) && cap <= 1 && Current(p)
    requires StepCommit(p, e) == Some(q) && e.CasTail?
    ensures Current(q)
  {
    ModClosed(s.tail.pos, s.tail.closed);
    forall x | x in q.permits ensures WordOf(q.permits[x], ModWord(Pos(|q.committed|, false))) {
      assert x in p.permits && WordOf(p.permits[x], ModWord(Pos(|p.committed|, false)));
      if HoldsIndex(p.permits[x]) {
        OnlyHolder(s, cap, p, x, e.p);
      }
    }
  }

  lemma LoadIsCurrent<T, E>(s: State<T, E>, p: State<T, E>, e: Event<T, E>, q: State<T, E>)
    requires Linked(s, p) && Positions(s) && Current(p) && StepCommit(p, e) == Some(q) && (e.LoadTail? || e.StoreTailSlot?)
    ensures Current(q)
  {
    ModClosed(s.tail.pos, s.tail.closed);
  }

  lemma ReserveIsCurrent<T, E>(p: State<T, E>, e: Event<T, E>, q: State<T, E>)
    requires Current(p) && StepReserve(p, e) == Some(q)
    ensures Current(q) && q.panicked == p.panicked
  {
  }

  lemma HandleIsCurrent<T, E>(p: State<T, E>, e: Event<T, E>, q: State<T, E>)
    requires Current(p) && (StepHandle(p, e) == Some(q) || StepClose(p, e) == Some(q))
    ensures Current(q) && (q.panicked ==> p.panicked || e.DropFence?)
  {
    assert q.permits == p.permits && q.committed == p.committed;
  }

  lemma RxIsCurrent<T, E>(p: State<T, E>, e: Event<T, E>, q: State<T, E>)
    requires Current(p) && StepRx(p, e) == Some(q)
    ensures Current(q) && q.panicked == p.panicked
  {
    assert q.permits == p.permits && q.committed == p.committed;
  }

  lemma FenceDoesNotPanic<T, E>(s: State<T, E>, p: State<T, E>, q: State<T, E>)
    requires Linked(s, p) && Lives(s) && HandlesFit(s) && StepHandle(p, DropFence) == Some(q)
    ensures !q.panicked
  {
    SenderCountAgrees(s.state);
  }

  lemma SmallStep<T, E>(s: State<T, E>, cap: nat, p: State<T, E>, e: Event<T, E>, q: State<T, E>)
    requires Linked(s, p) && Inv(s, cap) && cap <= 1 && HandlesFit(p) && Current(p) && Step(p, e) == Some(q)
    ensures !q.panicked && Current(q)
  {
    if StepHandle(p, e) == Some(q) || StepClose(p, e) == Some(q) {
      HandleIsCurrent(p, e, q);
      if e.DropFence? {
        FenceDoesNotPanic(s, p, q);
      }
    } else if StepRx(p, e) == Some(q) {
      RxIsCurrent(p, e, q);
    } else if StepReserve(p, e) == Some(q) {
      ReserveIsCurrent(p, e, q);
    } else if e.LoadTailSlot? {
      LooksAtRoom(s, cap, p, e.p, q);
    } else if e.CasTail? {
      SwapStaysCurrent(s, cap, p, e, q);
    } else {
      LoadIsCurrent(s, p, e, q);
    }
  }

  /** With a capacity below two, the only permit that can commit has the current tail, and no run panics. */
  lemma {:induction false} SmallNeverPanics<T, E>(cap: nat, es: seq<Event<T, E>>, p: State<T, E>)
    requires cap <= 1 && Run(Pack(Init<T, E>(cap)), es) == Some(p) && AllHandlesFit(Pack(Init<T, E>(cap)), es)
    ensures !p.panicked && Current(p)
    decreases |es|
  {
    var z := Pack(Init<T, E>(cap));
    if es != [] {
      var front := es[..|es| - 1];
      var m := Before(z, es, p);
      FrontFits(z, es);
      SmallNeverPanics(cap, front, m);
      var _, s := PackedRunSimulated(cap, front, m);
      SmallStep(s, cap, m, es[|es| - 1], p);
    }
  }

  // ---- only beyond the bound ----

  lemma {:induction false} FewCommitsThroughout<T, E>(cap: nat, es: seq<Event<T, E>>, p: State<T, E>)
    requires cap <= MAX_CAPACITY && Run(Pack(Init<T, E>(cap)), es) == Some(p) && AllHandlesFit(Pack(Init<T, E>(cap)), es)
    requires |p.committed| <= COMMIT_BOUND
    ensures RunInRange(Pack(Init<T, E>(cap)), es)
    decreases |es|
  {
    var z := Pack(Init<T, E>(cap));
    if es != [] {
      var front := es[..|es| - 1];
      var m := Before(z, es, p);
      FrontFits(z, es);
      PanicChangesNothing(m, es[|es| - 1], p);
      FewCommitsThroughout(cap, front, m);
      forall k | 0 <= k < |es| ensures match Run(z, es[..k]) case None => true case Some(r) => InRange(r) {
        assert k < |front| ==> front[..k] == es[..k];
        assert k == |front| ==> es[..k] == front;
      }
    }
  }

  /** A run of the 16-bit machine that panics has made more than COMMIT_BOUND commits, with a capacity of two or more. */
  lemma PanicsOnlyBeyond<T, E>(cap: nat, es: seq<Event<T, E>>, p: State<T, E>)
    requires cap <= MAX_CAPACITY && Run(Pack(Init<T, E>(cap)), es) == Some(p) && AllHandlesFit(Pack(Init<T, E>(cap)), es)
    requires p.panicked
    ensures cap >= 2 && |p.committed| > COMMIT_BOUND
  {
    if cap <= 1 {
      SmallNeverPanics(cap, es, p);
    }
    if |p.committed| <= COMMIT_BOUND {
      FewCommitsThroughout(cap, es, p);
      PackedNeverPanics(cap, es, p);
    }
  }

  // ---- and there it does ----

  lemma OneHandleStep<T, E>(p: State<T, E>, e: Event<T, E>, q: State<T, E>)
    requires Step(p, e) == Some(q) && !e.AddTx?
    ensures q.handles <= p.handles
  {
  }

  lemma {:induction false} HandlesShrink<T, E>(s: State<T, E>, es: seq<Event<T, E>>, t: State<T, E>)
    requires Run(s, es) == Some(t) && NoNewHandles(es)
    ensures t.handles <= s.handles
    decreases |es|
  {
    if es != [] {
      var m := Before(s, es, t);
      HandlesShrink(s, es[..|es| - 1], m);
      OneHandleStep(m, es[|es| - 1], t);
    }
  }

  lemma OneHandleFits<T, E>(cap: nat, es: seq<Event<T, E>>)
    requires cap <= MAX_CAPACITY && NoNewHandles(es)
    ensures AllHandlesFit(Pack(Init<T, E>(cap)), es)
  {
    var z := Pack(Init<T, E>(cap));
    forall k | 0 <= k < |es| ensures match Run(z, es[..k]) case None => true case Some(m) => HandlesFit(m) {
      if Run(z, es[..k]).Some? {
        var m := Run(z, es[..k]).value;
        HandlesShrink(z, es[..k], m);
        FewHandles(m.handles);
      }
    }
  }

  lemma FewHandles(handles: set<nat>)
    requires handles <= {0}
    ensures |handles| <= 1
  {
    assert handles == {} || handles == {0};
  }

  ghost predicate Panics<T, E>(cap: nat, es: seq<Event<T, E>>, p: State<T, E>)
    requires cap <= MAX_CAPACITY
  {
    Run(Pack(Init<T, E>(cap)), es) == Some(p) && AllHandlesFit(Pack(Init<T, E>(cap)), es) && p.panicked
  }

  /** The capacities and the numbers of commits with which the 16-bit machine can panic: two or more, and more
      than COMMIT_BOUND. */
  lemma PanicsExactly<T, E>(cap: nat, m: T)
    requires cap <= MAX_CAPACITY
    ensures (exists es: seq<Event<T, E>>, p: State<T, E> :: Panics(cap, es, p)) <==> cap >= 2
    ensures forall es: seq<Event<T, E>>, p: State<T, E> :: Panics(cap, es, p) ==> |p.committed| > COMMIT_BOUND
    ensures cap >= 2 ==> exists es: seq<Event<T, E>>, p: State<T, E> :: Panics(cap, es, p) && |p.committed| == COMMIT_BOUND + 1
  {
    forall es: seq<Event<T, E>>, p: State<T, E> | Panics(cap, es, p) ensures cap >= 2 && |p.committed| > COMMIT_BOUND {
      PanicsOnlyBeyond(cap, es, p);
    }
    if cap >= 2 {
      var es, p := PanicBeyondTheBound<T, E>(cap, m);
      BeyondAddsNoHandle<T, E>(m);
      OneHandleFits<T, E>(cap, es);
      assert Panics(cap, es, p);
    }
  }
}
