/** Requests and responses multiplexed over one connection: any number of requests in flight, each with a
    sequence number from a wrapping counter, a server that answers in any order, and one dispatcher that
    hands each response to the request waiting under its number. */
module ReqRsp {
  import opened Options
  import opened Fields
  import opened Words

  /** A request's future, with its sequence number. */
  datatype Task =
    | Retrying                       // refused by the wait map, about to take another number
    | Numbered(seqNo: nat)           // about to enqueue its waiter
    | Enqueued(seqNo: nat)           // about to send
    | Sent(seqNo: nat)
    | Answered(seqNo: nat)
    | Cancelled(seqNo: nat)          // dropped before it was answered

  /** A message in flight carries a sequence number; `task` is the request it belongs to, which nobody can see. */
  datatype Message = Message(seqNo: nat, task: nat)

  datatype Response<R> = Response(message: Message, body: R)

  /** What a request was woken with: the response's body, and the request that the server answered. */
  datatype Answer<R> = Answer(task: nat, body: R)

  datatype State<R> = State(
    next: nat, waiting: map<nat, nat>, hasDispatcher: bool, dispatchers: set<nat>,
    tasks: map<nat, Task>, atServer: set<Message>, responses: seq<Response<R>>,
    answers: map<nat, Answer<R>>, issued: nat)

  datatype Event<R> =
    | Number(r: nat)                 // `seq.fetch_add(1)`
    | Enqueue(r: nat)                // `wait.enqueue()`, which refuses a number in use
    | Send(r: nat)
    | Cancel(r: nat)                 // the future is dropped
    | Respond(m: Message, body: R)   // the server answers one of the requests it has, in any order
    | StartDispatch(d: nat)          // `has_dispatcher.swap(true)`
    | Dispatch(d: nat)               // a dispatcher takes the next response

  predicate InFlight(t: Task) { t.Enqueued? || t.Sent? }

  function Init<R>(): State<R> {
    State(0, map[], false, {}, map[], {}, [], map[], 0)
  }

  function Step<R>(s: State<R>, e: Event<R>): Option<State<R>> {
    match e
    case Number(r) =>
      if r !in s.tasks || s.tasks[r].Retrying?
      then Some(s.(next := (s.next + 1) % USIZE_MOD, tasks := s.tasks[r := Numbered(s.next)], issued := s.issued + 1)) else None
    case Enqueue(r) =>
      if r in s.tasks && s.tasks[r].Numbered?
      then
        var n := s.tasks[r].seqNo;
        Some(s.(waiting := if n in s.waiting then s.waiting else s.waiting[n := r],
                tasks := s.tasks[r := if n in s.waiting then Retrying else Enqueued(n)]))
      else None
    case Send(r) =>
      if r in s.tasks && s.tasks[r].Enqueued?
      then Some(s.(tasks := s.tasks[r := Sent(s.tasks[r].seqNo)], atServer := s.atServer + {Message(s.tasks[r].seqNo, r)}))
      else None
    case Cancel(r) =>
      if r in s.tasks && InFlight(s.tasks[r])
      then Some(s.(tasks := s.tasks[r := Cancelled(s.tasks[r].seqNo)], waiting := s.waiting - {s.tasks[r].seqNo})) else None
    case Respond(m, body) =>
      if m in s.atServer
      then Some(s.(atServer := s.atServer - {m}, responses := s.responses + [Response(m, body)])) else None
    case StartDispatch(d) =>
      Some(s.(hasDispatcher := true, dispatchers := if s.hasDispatcher then s.dispatchers else s.dispatchers + {d}))
    case Dispatch(d) =>
      if d in s.dispatchers && s.responses != []
      then
        var x := s.responses[0];
        var n := x.message.seqNo;
        var woken := n in s.waiting && s.waiting[n] in s.tasks;
        Some(s.(responses := s.responses[1..], waiting := s.waiting - {n},
                tasks := if woken then s.tasks[s.waiting[n] := Answered(n)] else s.tasks,
                answers := if woken then s.answers[s.waiting[n] := Answer(x.message.task, x.body)] else s.answers))
      else None
  }

  function Run<R>(s: State<R>, es: seq<Event<R>>): Option<State<R>>
    decreases |es|
  {
    if es == [] then Some(s)
    else
      match Run(s, es[..|es| - 1])
      case None => None
      case Some(m) => Step(m, es[|es| - 1])
  }

  // ---- the invariant ----

  /** A request waits under its number exactly while it is in flight. */
  ghost predicate Waiting<R>(s: State<R>) {
    && (forall n :: n in s.waiting ==> s.waiting[n] in s.tasks && InFlight(s.tasks[s.waiting[n]]) && s.tasks[s.waiting[n]].seqNo == n)
    && (forall r :: r in s.tasks && InFlight(s.tasks[r]) ==> s.tasks[r].seqNo in s.waiting && s.waiting[s.tasks[r].seqNo] == r)
  }

  /** Each request has at most one message in flight, with its number, from when it is sent. */
  ghost predicate Messages<R>(s: State<R>) {
    && (forall m :: m in s.atServer ==> Sender(s, m))
    && (forall k :: 0 <= k < |s.responses| ==> Sender(s, s.responses[k].message) && s.responses[k].message !in s.atServer)
    && (forall j, k :: 0 <= j < k < |s.responses| ==> s.responses[j].message != s.responses[k].message)
  }

  predicate Sender<R>(s: State<R>, m: Message) {
    && m.task in s.tasks && !s.tasks[m.task].Retrying? && s.tasks[m.task].seqNo == m.seqNo
    && (s.tasks[m.task].Sent? || s.tasks[m.task].Cancelled?)
  }

  /** Every answer given so far was the answer to the request that got it. */
  ghost predicate Routed<R>(s: State<R>) {
    forall r :: r in s.answers ==> s.answers[r].task == r && r in s.tasks && s.tasks[r].Answered?
  }

  ghost predicate OneDispatcher<R>(s: State<R>) {
    && (s.hasDispatcher <==> s.dispatchers != {})
    && (forall c, d :: c in s.dispatchers && d in s.dispatchers ==> c == d)
  }

  /** Sequence numbers have not wrapped around: all that were ever given out differ. */
  ghost predicate Fresh<R>(s: State<R>) {
    && (s.issued < USIZE_MOD ==> s.next == s.issued)
    && (forall r :: r in s.tasks && !s.tasks[r].Retrying? ==> s.tasks[r].seqNo < s.issued)
    && (forall q, r :: q in s.tasks && r in s.tasks && !s.tasks[q].Retrying? && !s.tasks[r].Retrying? && s.tasks[q].seqNo == s.tasks[r].seqNo ==> q == r)
  }

  ghost predicate NothingCancelled<R>(s: State<R>) {
    forall r :: r in s.tasks ==> !s.tasks[r].Cancelled?
  }

  /** The next response belongs to a cancelled request whose number another request waits under. */
  predicate StaleHead<R>(s: State<R>) {
    && s.responses != [] && s.responses[0].message.seqNo in s.waiting
    && s.responses[0].message.task in s.tasks && s.tasks[s.responses[0].message.task].Cancelled?
  }

  ghost predicate Inv<R>(s: State<R>) {
    Waiting(s) && Messages(s) && Routed(s) && OneDispatcher(s)
  }

  lemma NumberMessages<R>(s: State<R>, r: nat, t: State<R>)
    requires Messages(s) && Step(s, Number(r)) == Some(t)
    ensures Messages(t)
  {
  }

  lemma EnqueueWaits<R>(s: State<R>, r: nat, t: State<R>)
    requires Waiting(s) && Step(s, Enqueue(r)) == Some(t)
    ensures Waiting(t)
  {
  }

  lemma CancelWaits<R>(s: State<R>, r: nat, t: State<R>)
    requires Waiting(s) && Step(s, Cancel(r)) == Some(t)
    ensures Waiting(t)
  {
  }

  lemma SameNumbers<R>(s: State<R>, e: Event<R>, t: State<R>)
    requires Waiting(s) && Step(s, e) == Some(t) && !e.Number?
    ensures t.next == s.next && t.issued == s.issued
    ensures forall r :: r in t.tasks && !t.tasks[r].Retrying? ==>
              r in s.tasks && !s.tasks[r].Retrying? && s.tasks[r].seqNo == t.tasks[r].seqNo
  {
  }

  lemma CancelMessages<R>(s: State<R>, r: nat, t: State<R>)
    requires Messages(s) && Step(s, Cancel(r)) == Some(t)
    ensures Messages(t)
  {
  }

  lemma EnqueueMessages<R>(s: State<R>, r: nat, t: State<R>)
    requires Messages(s) && Step(s, Enqueue(r)) == Some(t)
    ensures Messages(t)
  {
  }

  lemma RespondMessages<R>(s: State<R>, m: Message, body: R, t: State<R>)
    requires Messages(s) && Step(s, Respond(m, body)) == Some(t)
    ensures Messages(t)
  {
    assert forall k :: 0 <= k < |s.responses| ==> t.responses[k] == s.responses[k];
  }

  lemma SendMessages<R>(s: State<R>, r: nat, t: State<R>)
    requires Messages(s) && Step(s, Send(r)) == Some(t)
    ensures Messages(t)
  {
  }

  /** The response at the head wakes the request it answers, unless it is stale; and if it wakes nobody, that
      request was cancelled. */
  lemma HeadFindsItsTask<R>(s: State<R>)
    requires Waiting(s) && Messages(s) && s.responses != []
    ensures var m := s.responses[0].message;
      && m.task in s.tasks
      && (m.seqNo in s.waiting && s.waiting[m.seqNo] == m.task <==> !s.tasks[m.task].Cancelled?)
      && (StaleHead(s) <==> m.seqNo in s.waiting && s.waiting[m.seqNo] != m.task)
  {
  }

  lemma DispatchMessages<R>(s: State<R>, d: nat, t: State<R>)
    requires Waiting(s) && Messages(s) && Step(s, Dispatch(d)) == Some(t) && !StaleHead(s)
    ensures Messages(t)
  {
    HeadFindsItsTask(s);
    assert forall k :: 0 <= k < |t.responses| ==> t.responses[k] == s.responses[k + 1];
  }

  lemma DispatchRoutes<R>(s: State<R>, d: nat, t: State<R>)
    requires Waiting(s) && Messages(s) && Routed(s) && Step(s, Dispatch(d)) == Some(t) && !StaleHead(s)
    ensures Routed(t)
  {
    HeadFindsItsTask(s);
  }

  lemma OtherStepsRoute<R>(s: State<R>, e: Event<R>, t: State<R>)
    requires Routed(s) && Step(s, e) == Some(t) && !e.Dispatch?
    ensures Routed(t)
  {
  }

  lemma MessagesKept<R>(s: State<R>, e: Event<R>, t: State<R>)
    requires Waiting(s) && Messages(s) && Step(s, e) == Some(t) && !(e.Dispatch? && StaleHead(s))
    ensures Messages(t)
  {
    match e
    case Number(r) => NumberMessages(s, r, t);
    case Enqueue(r) => EnqueueMessages(s, r, t);
    case Send(r) => SendMessages(s, r, t);
    case Cancel(r) => CancelMessages(s, r, t);
    case Respond(m, body) => RespondMessages(s, m, body, t);
    case StartDispatch(d) =>
    case Dispatch(d) => DispatchMessages(s, d, t);
  }

  lemma WaitingKept<R>(s: State<R>, e: Event<R>, t: State<R>)
    requires Waiting(s) && OneDispatcher(s) && Step(s, e) == Some(t)
    ensures Waiting(t) && OneDispatcher(t)
  {
    if e.Enqueue? {
      EnqueueWaits(s, e.r, t);
    } else if e.Cancel? {
      CancelWaits(s, e.r, t);
    } else {
      OtherStepsWait(s, e, t);
    }
  }

  /** Every step but the dispatch of a stale response keeps the invariant. */
  lemma StepKeeps<R>(s: State<R>, e: Event<R>, t: State<R>)
    requires Inv(s) && Step(s, e) == Some(t) && !(e.Dispatch? && StaleHead(s))
    ensures Inv(t)
  {
    WaitingKept(s, e, t);
    MessagesKept(s, e, t);
    if e.Dispatch? {
      DispatchRoutes(s, e.d, t);
    } else {
      OtherStepsRoute(s, e, t);
    }
  }

  lemma FreshKeeps<R>(s: State<R>, e: Event<R>, t: State<R>)
    requires Waiting(s) && Fresh(s) && Step(s, e) == Some(t) && t.issued <= USIZE_MOD
    ensures Fresh(t)
  {
    if e.Number? {
      if t.issued < USIZE_MOD {
        SmallRemainder(t.issued, USIZE_MOD);
      }
    } else {
      SameNumbers(s, e, t);
    }
  }

  // ---- a wrong answer, once given, stays ----

  /** Whoever has an answer has been answered. */
  ghost predicate AnswersFinal<R>(s: State<R>) {
    forall r :: r in s.answers ==> r in s.tasks && s.tasks[r].Answered?
  }

  ghost predicate Misrouted<R>(s: State<R>) {
    exists r :: r in s.answers && s.answers[r].task != r
  }

  lemma AnswersStay<R>(s: State<R>, e: Event<R>, t: State<R>)
    requires Waiting(s) && AnswersFinal(s) && Step(s, e) == Some(t)
    ensures AnswersFinal(t)
    ensures forall r :: r in s.answers ==> r in t.answers && t.answers[r] == s.answers[r]
  {
  }

  lemma StaleMisroutes<R>(s: State<R>, d: nat, t: State<R>)
    requires Inv(s) && StaleHead(s) && Step(s, Dispatch(d)) == Some(t)
    ensures Misrouted(t)
  {
    HeadFindsItsTask(s);
    assert s.waiting[s.responses[0].message.seqNo] in t.answers;
  }

  /** Some dispatch of the run took a stale response. */
  ghost predicate TookStale<R>(es: seq<Event<R>>)
    decreases |es|
  {
    es != [] && (TookStale(es[..|es| - 1])
                 || (es[|es| - 1].Dispatch? && Run(Init<R>(), es[..|es| - 1]).Some? && StaleHead(Run(Init<R>(), es[..|es| - 1]).value)))
  }

  lemma {:induction false} RunKeeps<R>(es: seq<Event<R>>, s: State<R>)
    requires Run(Init<R>(), es) == Some(s)
    ensures Waiting(s) && OneDispatcher(s) && AnswersFinal(s)
    ensures if TookStale(es) then Misrouted(s) else Inv(s)
    decreases |es|
  {
    if es != [] {
      var front, e := es[..|es| - 1], es[|es| - 1];
      var m := Run(Init<R>(), front).value;
      RunKeeps(front, m);
      WaitingKept(m, e, s);
      AnswersStay(m, e, s);
      if !TookStale(front) {
        if e.Dispatch? && StaleHead(m) {
          StaleMisroutes(m, e.d, s);
        } else {
          StepKeeps(m, e, s);
        }
      }
    }
  }

  ghost predicate CancelFree<R>(es: seq<Event<R>>) {
    forall k :: 0 <= k < |es| ==> !es[k].Cancel?
  }

  lemma UncancelledKeeps<R>(s: State<R>, e: Event<R>, t: State<R>)
    requires NothingCancelled(s) && Step(s, e) == Some(t) && !e.Cancel?
    ensures NothingCancelled(t)
  {
  }

  lemma {:induction false} CancelFreeRun<R>(es: seq<Event<R>>, s: State<R>)
    requires Run(Init<R>(), es) == Some(s) && CancelFree(es)
    ensures NothingCancelled(s) && !TookStale(es)
    decreases |es|
  {
    if es != [] {
      var front := es[..|es| - 1];
      var m := Run(Init<R>(), front).value;
      CancelFreeRun(front, m);
      UncancelledKeeps(m, es[|es| - 1], s);
    }
  }

  lemma FreshIsNotStale<R>(s: State<R>)
    requires Waiting(s) && Messages(s) && Fresh(s)
    ensures !StaleHead(s)
  {
    if s.responses != [] {
      HeadFindsItsTask(s);
    }
  }

  lemma {:induction false} ShortRun<R>(es: seq<Event<R>>, s: State<R>)
    requires Run(Init<R>(), es) == Some(s) && s.issued <= USIZE_MOD
    ensures Fresh(s) && !TookStale(es)
    decreases |es|
  {
    if es != [] {
      var front := es[..|es| - 1];
      var m := Run(Init<R>(), front).value;
      ShortRun(front, m);
      RunKeeps(front, m);
      FreshKeeps(m, es[|es| - 1], s);
      FreshIsNotStale(m);
    }
  }

  // ---- what holds in every run ----

  /** Every request that was answered got the response to itself, if and only if no response was dispatched
      that belonged to a cancelled request whose number was in use again. */
  lemma RoutedExactly<R>(es: seq<Event<R>>, s: State<R>)
    requires Run(Init<R>(), es) == Some(s)
    ensures (forall r :: r in s.answers ==> s.answers[r].task == r) <==> !TookStale(es)
  {
    RunKeeps(es, s);
  }

  /** So it did if no request is cancelled, however often the numbers wrap around, and if they do not wrap
      around, whatever is cancelled. */
  lemma ResponsesAreRouted<R>(es: seq<Event<R>>, s: State<R>, r: nat)
    requires Run(Init<R>(), es) == Some(s) && (CancelFree(es) || s.issued <= USIZE_MOD)
    requires r in s.answers
    ensures s.answers[r].task == r && r in s.tasks && s.tasks[r].Answered?
  {
    RunKeeps(es, s);
    if CancelFree(es) {
      CancelFreeRun(es, s);
    } else {
      ShortRun(es, s);
    }
  }

  /** A response wakes the request it answers if and only if that was not cancelled, in every run that has not
      gone astray yet; without cancellations, every response does. */
  lemma ResponseWakesExactly<R>(es: seq<Event<R>>, s: State<R>, d: nat, t: State<R>)
    requires Run(Init<R>(), es) == Some(s) && !TookStale(es) && Step(s, Dispatch(d)) == Some(t)
    ensures var x := s.responses[0];
      && x.message.task in s.tasks && x.message.task !in s.answers
      && (x.message.task in t.answers <==> !s.tasks[x.message.task].Cancelled?)
      && (x.message.task in t.answers ==> t.answers == s.answers[x.message.task := Answer(x.message.task, x.body)])
    ensures CancelFree(es) ==> s.responses[0].message.task in t.answers
  {
    RunKeeps(es, s);
    HeadFindsItsTask(s);
    if CancelFree(es) {
      CancelFreeRun(es, s);
    }
  }

  // ---- no request is forgotten ----

  ghost predicate AmongResponses<R>(s: State<R>, m: Message) {
    exists k :: 0 <= k < |s.responses| && s.responses[k].message == m
  }

  /** The message of every request that has been sent and not answered is with the server or on its way back. */
  ghost predicate Remembered<R>(s: State<R>) {
    forall r :: r in s.tasks && s.tasks[r].Sent? ==>
                  Message(s.tasks[r].seqNo, r) in s.atServer || AmongResponses(s, Message(s.tasks[r].seqNo, r))
  }

  lemma RespondRemembers<R>(s: State<R>, m: Message, body: R, t: State<R>)
    requires Remembered(s) && Step(s, Respond(m, body)) == Some(t)
    ensures Remembered(t)
  {
    assert t.responses[|s.responses|].message == m;
    assert forall k :: 0 <= k < |s.responses| ==> t.responses[k] == s.responses[k];
    assert forall x :: AmongResponses(s, x) ==> AmongResponses(t, x);
  }

  lemma DispatchRemembers<R>(s: State<R>, d: nat, t: State<R>)
    requires Waiting(s) && Remembered(s) && Step(s, Dispatch(d)) == Some(t)
    ensures Remembered(t)
  {
    assert forall k :: 0 < k < |s.responses| ==> t.responses[k - 1] == s.responses[k];
    assert forall x :: AmongResponses(s, x) && x != s.responses[0].message ==> AmongResponses(t, x);
  }

  lemma OthersRemember<R>(s: State<R>, e: Event<R>, t: State<R>)
    requires Remembered(s) && Step(s, e) == Some(t) && !e.Respond? && !e.Dispatch?
    ensures Remembered(t)
  {
    assert forall x :: AmongResponses(s, x) ==> AmongResponses(t, x);
  }

  /** In every run, whatever was cancelled or misrouted. */
  lemma {:induction false} SentIsRemembered<R>(es: seq<Event<R>>, s: State<R>)
    requires Run(Init<R>(), es) == Some(s)
    ensures Waiting(s) && Remembered(s)
    decreases |es|
  {
    RunKeeps(es, s);
    if es != [] {
      var front, e := es[..|es| - 1], es[|es| - 1];
      var m := Run(Init<R>(), front).value;
      SentIsRemembered(front, m);
      if e.Respond? {
        RespondRemembers(m, e.m, e.body, s);
      } else if e.Dispatch? {
        DispatchRemembers(m, e.d, s);
      } else {
        OthersRemember(m, e, s);
      }
    }
  }

  /** From every reachable state with nothing on its way back, the server can answer any request that was sent, and the
      dispatcher then wakes that one with the body. */
  lemma SoloAnswer<R>(es: seq<Event<R>>, s: State<R>, r: nat, d: nat, body: R) returns (t: State<R>)
    requires Run(Init<R>(), es) == Some(s) && r in s.tasks && s.tasks[r].Sent? && s.responses == [] && d in s.dispatchers
    ensures Run(s, [Respond(Message(s.tasks[r].seqNo, r), body), Dispatch(d)]) == Some(t)
    ensures t.answers == s.answers[r := Answer(r, body)] && t.tasks == s.tasks[r := Answered(s.tasks[r].seqNo)]
    ensures t.waiting == s.waiting - {s.tasks[r].seqNo} && t.responses == []
  {
    SentIsRemembered(es, s);
    var m := Message(s.tasks[r].seqNo, r);
    var e: Event<R>, f: Event<R> := Respond(m, body), Dispatch(d);
    assert m in s.atServer;
    var s1 := s.(atServer := s.atServer - {m}, responses := [Response(m, body)]);
    assert s.responses + [Response(m, body)] == [Response(m, body)] && s1.responses[1..] == [];
    t := Step(s1, f).value;
    RunOne(s, e);
    assert [e, f][..1] == [e];
  }

  /** Requests in flight at the same time have different numbers, even after the counter has wrapped around
      and whatever is cancelled. */
  lemma DistinctNumbers<R>(es: seq<Event<R>>, s: State<R>, q: nat, r: nat)
    requires Run(Init<R>(), es) == Some(s)
    requires q in s.tasks && r in s.tasks && InFlight(s.tasks[q]) && InFlight(s.tasks[r]) && q != r
    ensures s.tasks[q].seqNo != s.tasks[r].seqNo
  {
    RunKeeps(es, s);
  }

  lemma OtherStepsWait<R>(s: State<R>, e: Event<R>, t: State<R>)
    requires Waiting(s) && OneDispatcher(s) && Step(s, e) == Some(t) && !e.Enqueue? && !e.Cancel?
    ensures Waiting(t) && OneDispatcher(t)
  {
  }

  /** At most one call of `dispatch` gets past its first line, ever. */
  lemma SingleDispatcher<R>(es: seq<Event<R>>, s: State<R>)
    requires Run(Init<R>(), es) == Some(s)
    ensures |s.dispatchers| <= 1
  {
    RunKeeps(es, s);
    if d :| d in s.dispatchers {
      assert s.dispatchers == {d};
    }
  }

  // ---- a cancellation and a full turn of the counter ----

  lemma {:induction false} Continue<R>(s: State<R>, es: seq<Event<R>>, m: State<R>, fs: seq<Event<R>>, t: State<R>)
    requires Run(s, es) == Some(m) && Run(m, fs) == Some(t)
    ensures Run(s, es + fs) == Some(t)
    decreases |fs|
  {
    if fs == [] {
      assert es + fs == es;
    } else {
      var front, all := fs[..|fs| - 1], es + fs;
      Continue(s, es, m, front, Run(m, front).value);
      assert all[..|all| - 1] == es + front && all[|all| - 1] == fs[|fs| - 1];
    }
  }

  lemma RunOne<R>(s: State<R>, e: Event<R>)
    ensures Run(s, [e]) == Step(s, e)
  {
    assert [e][..0] == [];
  }

  lemma Three<R>(s: State<R>, e: Event<R>, s1: State<R>, f: Event<R>, s2: State<R>, g: Event<R>, s3: State<R>)
    requires Step(s, e) == Some(s1) && Step(s1, f) == Some(s2) && Step(s2, g) == Some(s3)
    ensures Run(s, [e, f, g]) == Some(s3)
  {
    var two, three := [e, f], [e, f, g];
    RunOne(s, e);
    assert two[..1] == [e] && Run(s, two) == Some(s2);
    assert three[..2] == two;
  }

  /** Request 0 was cancelled and its message is still at the server; requests 1 to `n` - 1 were answered. */
  ghost predicate Turning<R>(s: State<R>, n: nat) {
    && 0 < n <= USIZE_MOD && s.next == n % USIZE_MOD && s.issued == n && s.waiting == map[] && s.responses == []
    && 0 in s.dispatchers && s.hasDispatcher && Message(0, 0) in s.atServer
    && (forall r :: r in s.tasks ==> r < n) && (forall r :: r in s.answers ==> r < n)
  }

  function SendEvents<R>(r: nat): seq<Event<R>> {
    [Number(r), Enqueue(r), Send(r)]
  }

  // A request that has been sent with the next number.
  function AfterSend<R>(s: State<R>, r: nat): State<R> {
    s.(next := (s.next + 1) % USIZE_MOD, issued := s.issued + 1, waiting := s.waiting[s.next := r],
       tasks := s.tasks[r := Sent(s.next)], atServer := s.atServer + {Message(s.next, r)})
  }

  lemma SendRun<R>(s: State<R>, r: nat)
    requires r !in s.tasks && s.next !in s.waiting
    ensures Run(s, SendEvents(r)) == Some(AfterSend(s, r))
  {
    var s1 := s.(next := (s.next + 1) % USIZE_MOD, tasks := s.tasks[r := Numbered(s.next)], issued := s.issued + 1);
    var s2 := s1.(waiting := s.waiting[s.next := r], tasks := s1.tasks[r := Enqueued(s.next)]);
    assert s2.tasks[r := Sent(s.next)] == s.tasks[r := Sent(s.next)];
    Three(s, Number(r), s1, Enqueue(r), s2, Send(r), AfterSend(s, r));
  }

  function AnswerEvents<R>(m: Message, body: R): seq<Event<R>> {
    [Respond(m, body), Dispatch(0)]
  }

  // The only response in flight wakes the request that waits under its number.
  lemma AnswerRun<R>(s: State<R>, m: Message, body: R) returns (t: State<R>)
    requires m in s.atServer && s.responses == [] && 0 in s.dispatchers
    requires m.seqNo in s.waiting && s.waiting[m.seqNo] in s.tasks
    ensures Run(s, AnswerEvents(m, body)) == Some(t)
    ensures t == s.(atServer := s.atServer - {m}, waiting := s.waiting - {m.seqNo},
                    tasks := s.tasks[s.waiting[m.seqNo] := Answered(m.seqNo)],
                    answers := s.answers[s.waiting[m.seqNo] := Answer(m.task, body)])
  {
    var none: seq<Response<R>> := [];
    var s1 := s.(atServer := s.atServer - {m}, responses := [Response(m, body)]);
    assert none + [Response(m, body)] == [Response(m, body)] && [Response(m, body)][1..] == none;
    t := Step(s1, Dispatch(0)).value;
    var es: seq<Event<R>> := AnswerEvents(m, body);
    RunOne(s, Respond(m, body));
    assert es[..1] == [Respond(m, body)];
  }

  function FirstEvents<R>(): seq<Event<R>> {
    [StartDispatch(0)] + SendEvents(0) + [Cancel(0)]
  }

  function TurnEvents<R>(n: nat, body: R): seq<Event<R>> {
    if n <= 1 then FirstEvents() else TurnEvents(n - 1, body) + SendEvents(n - 1) + AnswerEvents(Message(n - 1, n - 1), body)
  }

  lemma FirstTurn<R>() returns (s: State<R>)
    ensures Run(Init<R>(), FirstEvents<R>()) == Some(s) && Turning(s, 1)
  {
    var z := Init<R>();
    var s1 := z.(hasDispatcher := true, dispatchers := {0});
    assert z.dispatchers + {0} == {0};
    RunOne(z, StartDispatch(0));
    SendRun(s1, 0);
    var s2 := AfterSend(s1, 0);
    Continue(z, [StartDispatch(0)], s1, SendEvents(0), s2);
    s := Step(s2, Cancel(0)).value;
    RunOne(s2, Cancel(0));
    Continue(z, [StartDispatch(0)] + SendEvents(0), s2, [Cancel(0)], s);
    SmallRemainder(1, USIZE_MOD);
  }

  lemma {:induction false} TurnRun<R>(n: nat, body: R) returns (s: State<R>)
    requires 0 < n <= USIZE_MOD
    ensures Run(Init<R>(), TurnEvents(n, body)) == Some(s) && Turning(s, n)
    decreases n
  {
    if n == 1 {
      s := FirstTurn<R>();
    } else {
      var z := Init<R>();
      var m := TurnRun(n - 1, body);
      SmallRemainder(n - 1, USIZE_MOD);
      SendRun(m, n - 1);
      var sent := AfterSend(m, n - 1);
      Continue(z, TurnEvents(n - 1, body), m, SendEvents(n - 1), sent);
      s := AnswerRun(sent, Message(n - 1, n - 1), body);
      Continue(z, TurnEvents(n - 1, body) + SendEvents(n - 1), sent, AnswerEvents(Message(n - 1, n - 1), body), s);
    }
  }

  /** With one cancelled request and as many others as there are numbers, the last request, which has the
      number of the cancelled one again, is woken with the response to the cancelled one. */
  lemma ResponseGoesAstray<R>(body: R) returns (es: seq<Event<R>>, s: State<R>)
    ensures Run(Init<R>(), es) == Some(s) && s.issued == USIZE_MOD + 1
    ensures USIZE_MOD in s.answers && s.answers[USIZE_MOD].task == 0
  {
    var z := Init<R>();
    var m := TurnRun(USIZE_MOD, body);
    assert m.next == 0;
    SendRun(m, USIZE_MOD);
    var sent := AfterSend(m, USIZE_MOD);
    Continue(z, TurnEvents(USIZE_MOD, body), m, SendEvents(USIZE_MOD), sent);
    s := AnswerRun(sent, Message(0, 0), body);
    es := TurnEvents(USIZE_MOD, body) + SendEvents(USIZE_MOD) + AnswerEvents(Message(0, 0), body);
    Continue(z, TurnEvents(USIZE_MOD, body) + SendEvents(USIZE_MOD), sent, AnswerEvents(Message(0, 0), body), s);
  }
}
