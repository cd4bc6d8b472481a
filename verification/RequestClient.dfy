/** The client's own state, changed in place: the wrapping counter, the wait map and the dispatcher flag. Each
    of its operations makes the steps of the machine in `ReqRsp` that the operation stands for. */
module RequestClient {
  import opened Options
  import opened Fields
  import opened Words
  import opened ReqRsp

  datatype WakeOutcome = Woke(waiter: nat) | NoMatch

  /** The number after `n`. */
  function Following(n: nat): (m: nat)
    requires n < USIZE_MOD
    ensures m < USIZE_MOD
  {
    if n + 1 == USIZE_MOD then 0 else n + 1
  }

  lemma FollowingWraps(n: nat)
    requires n < USIZE_MOD
    ensures (n + 1) % USIZE_MOD == Following(n)
  {
    if n + 1 < USIZE_MOD {
      SmallRemainder(n + 1, USIZE_MOD);
    }
  }

  /** The `k`th number from `from` on. */
  function Nth(from: nat, k: nat): (n: nat)
    requires from < USIZE_MOD
    ensures n < USIZE_MOD
  {
    if k == 0 then from else Following(Nth(from, k - 1))
  }

  lemma {:induction false} NthWraps(from: nat, k: nat)
    requires from < USIZE_MOD
    ensures Nth(from, k) == (from + k) % USIZE_MOD
  {
    if k == 0 {
      SmallRemainder(from, USIZE_MOD);
    } else {
      NthWraps(from, k - 1);
      FollowingWraps(Nth(from, k - 1));
      NextRemainder(from + k - 1, USIZE_MOD);
    }
  }

  /** Fewer than a full turn of consecutive numbers are all different, so a set that holds them all is at least as large. */
  lemma {:induction false} ConsecutiveNumbers(from: nat, n: nat, used: set<nat>)
    requires from < USIZE_MOD && n <= USIZE_MOD && forall k: nat :: k < n ==> Nth(from, k) in used
    ensures n <= |used|
    decreases n
  {
    if n > 0 {
      var last := Nth(from, n - 1);
      forall k: nat | k < n - 1 ensures Nth(from, k) in used - {last} {
        NthWraps(from, k);
        NthWraps(from, n - 1);
        Laps(from + k, n - 1 - k, USIZE_MOD);
      }
      ConsecutiveNumbers(from, n - 1, used - {last});
      assert |used| == |used - {last}| + 1;
    }
  }

  /** `k` turns of the loop in `request`. */
  function Tries<R>(r: nat, k: nat): seq<Event<R>> {
    if k == 0 then [] else Tries(r, k - 1) + [Number(r), Enqueue(r)]
  }

  /** The request is about to take a number. */
  ghost predicate CanTry<R>(s: State<R>, r: nat) {
    Waiting(s) && OneDispatcher(s) && (r !in s.tasks || s.tasks[r].Retrying?)
  }

  // One turn of the loop.
  function AfterTry<R>(s: State<R>, r: nat): State<R> {
    s.(next := (s.next + 1) % USIZE_MOD, issued := s.issued + 1,
       waiting := if s.next in s.waiting then s.waiting else s.waiting[s.next := r],
       tasks := s.tasks[r := if s.next in s.waiting then Retrying else Enqueued(s.next)])
  }

  lemma OneTry<R>(s: State<R>, r: nat, k: nat, m: State<R>) returns (t: State<R>)
    requires Run(s, Tries(r, k)) == Some(m) && CanTry(m, r)
    requires m.next < USIZE_MOD
    ensures Run(s, Tries(r, k + 1)) == Some(t) && Waiting(t) && OneDispatcher(t)
    ensures t.next == Following(m.next) && t.hasDispatcher == m.hasDispatcher && r in t.tasks
    ensures if m.next in m.waiting then t.waiting == m.waiting && t.tasks[r].Retrying? && CanTry(t, r)
            else t.waiting == m.waiting[m.next := r] && t.tasks[r] == Enqueued(m.next)
  {
    t := AfterTry(m, r);
    FollowingWraps(m.next);
    AfterTryRun(m, r);
    var e1: Event<R>, e2: Event<R> := Number(r), Enqueue(r);
    Continue(s, Tries(r, k), m, [e1, e2], t);
  }

  lemma AfterTryRun<R>(m: State<R>, r: nat)
    requires CanTry(m, r)
    ensures Run(m, [Number(r), Enqueue(r)]) == Some(AfterTry(m, r))
    ensures Waiting(AfterTry(m, r)) && OneDispatcher(AfterTry(m, r))
  {
    var e1: Event<R>, e2: Event<R> := Number(r), Enqueue(r);
    var m1 := Step(m, e1).value;
    assert m1.tasks[r := AfterTry(m, r).tasks[r]] == AfterTry(m, r).tasks;
    assert Step(m1, e2) == Some(AfterTry(m, r));
    OtherStepsWait(m, e1, m1);
    EnqueueWaits(m1, r, AfterTry(m, r));
    RunOne(m, e1);
    assert [e1, e2][..1] == [e1];
  }

  /** The first `k` numbers from `from` on are in use. */
  predicate Busy(from: nat, k: nat, dispatcher: map<nat, nat>)
    requires from < USIZE_MOD
  {
    k == 0 || (Busy(from, k - 1, dispatcher) && Nth(from, k - 1) in dispatcher)
  }

  // While the numbers are in use, the loop goes round and changes nothing but the counter.
  lemma {:induction false} FailedTries<R>(s: State<R>, r: nat, k: nat) returns (m: State<R>)
    requires CanTry(s, r) && s.next < USIZE_MOD
    requires Busy(s.next, k, s.waiting)
    ensures Run(s, Tries(r, k)) == Some(m) && CanTry(m, r)
    ensures m.next == Nth(s.next, k) && m.waiting == s.waiting && m.hasDispatcher == s.hasDispatcher
  {
    if k == 0 {
      m := s;
    } else {
      var before := FailedTries(s, r, k - 1);
      assert before.next in before.waiting;
      m := OneTry(s, r, k - 1, before);
      assert m.next == Following(before.next) == Nth(s.next, k);
    }
  }

  // The try that succeeds.
  lemma Accepted<R>(s: State<R>, r: nat, k: nat) returns (t: State<R>)
    requires CanTry(s, r) && s.next < USIZE_MOD
    requires k > 0 && Nth(s.next, k - 1) !in s.waiting && Busy(s.next, k - 1, s.waiting)
    ensures Run(s, Tries(r, k)) == Some(t) && Waiting(t) && OneDispatcher(t)
    ensures t.next == Nth(s.next, k) && t.waiting == s.waiting[Nth(s.next, k - 1) := r] && t.hasDispatcher == s.hasDispatcher
    ensures r in t.tasks && t.tasks[r] == Enqueued(Nth(s.next, k - 1))
  {
    var m := FailedTries(s, r, k - 1);
    t := OneTry(s, r, k - 1, m);
  }

  lemma {:induction false} BusyNumbers(from: nat, k: nat, dispatcher: map<nat, nat>)
    requires from < USIZE_MOD && Busy(from, k, dispatcher)
    ensures forall j: nat :: j < k ==> Nth(from, j) in dispatcher
  {
    if k > 0 {
      BusyNumbers(from, k - 1, dispatcher);
    }
  }

  class Client<R> {
    var seqNo: nat
    var dispatcher: map<nat, nat>
    var hasDispatcher: bool
    /** The requests, the server and the dispatchers of the client, as `ReqRsp` sees them. */
    ghost var view: State<R>

    ghost predicate Valid()
      reads this
    {
      && seqNo == view.next && dispatcher == view.waiting && hasDispatcher == view.hasDispatcher
      && seqNo < USIZE_MOD && (forall n :: n in dispatcher ==> n < USIZE_MOD)
      && Waiting(view) && OneDispatcher(view)
    }

    constructor ()
      ensures Valid() && view == Init()
    {
      seqNo, dispatcher, hasDispatcher := 0, map[], false;
      view := Init();
    }

    /** The loop of `request` up to the number that the wait map accepts. */
    method TakeNumber() returns (n: nat, tries: nat)
      requires seqNo < USIZE_MOD && |dispatcher| < USIZE_MOD
      modifies this`seqNo
      ensures 0 < tries <= |dispatcher| + 1 && seqNo == Nth(old(seqNo), tries)
      ensures n == Nth(old(seqNo), tries - 1) && n !in dispatcher
      ensures Busy(old(seqNo), tries - 1, dispatcher)
    {
      tries := 0;
      while true
        invariant seqNo < USIZE_MOD && seqNo == Nth(old(seqNo), tries) && tries <= |dispatcher|
        invariant Busy(old(seqNo), tries, dispatcher)
        decreases |dispatcher| - tries
      {
        FollowingWraps(seqNo);
        n := seqNo;
        seqNo := (seqNo + 1) % USIZE_MOD;
        tries := tries + 1;
        if n !in dispatcher {
          return;
        }
        BusyNumbers(old(seqNo), tries, dispatcher);
        ConsecutiveNumbers(old(seqNo), tries, dispatcher.Keys);
        assert |dispatcher.Keys| == |dispatcher|;
      }
    }

    /** The loop of `request`: it comes to an end unless every number is in use, after at most one try more
        than there are requests in flight, with the first number from the counter on that is free. */
    method EnqueueWaiter(r: nat) returns (n: nat, tries: nat)
      requires Valid() && |dispatcher| < USIZE_MOD && (r !in view.tasks || view.tasks[r].Retrying?)
      modifies this
      ensures Valid() && 0 < tries <= |old(dispatcher)| + 1
      ensures n == Nth(old(seqNo), tries - 1) && n !in old(dispatcher)
      ensures Busy(old(seqNo), tries - 1, old(dispatcher))
      ensures Run(old(view), Tries(r, tries)) == Some(view) && r in view.tasks && view.tasks[r] == Enqueued(n)
      ensures dispatcher == old(dispatcher)[n := r]
    {
      n, tries := TakeNumber();
      view := Accepted(view, r, tries);
      dispatcher := dispatcher[n := r];
    }

    /** The dispatcher `d` hands the next response to whoever waits under its number, who is answered with it and
        waits no longer. As long as responses have been routed, that is the request it answers, or nobody if that
        request was cancelled, if and only if the response is not stale. */
    method Wake(ghost d: nat, response: Response<R>) returns (outcome: WakeOutcome)
      requires Valid() && d in view.dispatchers && view.responses != [] && view.responses[0] == response
      modifies this
      ensures Valid() && Step(old(view), Dispatch(d)) == Some(view)
      ensures outcome.Woke? ==>
                && outcome.waiter in old(view).tasks && InFlight(old(view).tasks[outcome.waiter])
                && view.answers == old(view).answers[outcome.waiter := Answer(response.message.task, response.body)]
      ensures outcome.NoMatch? ==> view.answers == old(view).answers && view.waiting == old(view).waiting
      ensures Inv(old(view)) ==>
                && response.message.task in old(view).tasks
                && (outcome == (if old(view).tasks[response.message.task].Cancelled? then NoMatch else Woke(response.message.task))
                    <==> !StaleHead(old(view)))
    {
      var n := response.message.seqNo;
      if Inv(view) {
        HeadFindsItsTask(view);
      }
      WaitingKept(view, Dispatch(d), Step(view, Dispatch(d)).value);
      outcome := if n in dispatcher then Woke(dispatcher[n]) else NoMatch;
      dispatcher := dispatcher - {n};
      view := Step(view, Dispatch(d)).value;
    }

    /** The first line of `dispatch`: a call goes on if and only if none has before, and is then the only one ever. */
    method StartDispatch(ghost d: nat) returns (started: bool)
      requires Valid()
      modifies this
      ensures Valid() && Step(old(view), ReqRsp.StartDispatch(d)) == Some(view)
      ensures started <==> old(view).dispatchers == {}
      ensures view.dispatchers == if started then {d} else old(view).dispatchers
    {
      started := !hasDispatcher;
      hasDispatcher := true;
      view := Step(view, ReqRsp.StartDispatch(d)).value;
    }
  }

  ghost predicate AllInUse(dispatcher: map<nat, nat>) {
    forall n: nat {:trigger n in dispatcher} :: n < USIZE_MOD ==> n in dispatcher
  }

  ghost predicate NoTrySucceeds(from: nat, dispatcher: map<nat, nat>)
    requires from < USIZE_MOD
  {
    forall k: nat :: Nth(from, k) in dispatcher
  }

  /** No number of tries finds a free number if and only if every number is in use. */
  lemma NoFreeNumber(from: nat, dispatcher: map<nat, nat>)
    requires from < USIZE_MOD
    ensures NoTrySucceeds(from, dispatcher) <==> AllInUse(dispatcher)
  {
    if AllInUse(dispatcher) {
      forall k: nat ensures Nth(from, k) in dispatcher {
        assert Nth(from, k) < USIZE_MOD;
      }
    } else if NoTrySucceeds(from, dispatcher) {
      forall n: nat | n < USIZE_MOD ensures n in dispatcher {
        var x := Occurrence(n, from, USIZE_MOD);
        SmallRemainder(n, USIZE_MOD);
        NthWraps(from, x - from);
        assert Nth(from, x - from) == n;
      }
    }
  }
}
