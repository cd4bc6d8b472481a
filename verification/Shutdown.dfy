/** Shutting down a request client: the wait map of `req_rsp.rs` beside the channel it sends on. A task that
    shuts the client down closes the channel with an error and, when that call has returned, the map. */
module Shutdown {
  import opened Options
  import opened Words
  import opened Channel
  import opened ChannelInvariant
  import opened ChannelTheorems

  /** Where the dispatcher is: at the top of its loop, past its look at `shutdown`, with a response in hand that
      it has taken, told that the connection is closed, or done. */
  datatype Dispatcher = AtTop | Looked | InHand | ToldClosed | Finished

  /** `returned` are the `close_with_error` calls that have returned; `stray`: a `wake` found the map closed. */
  datatype Client<T, E> = Client(chan: State<T, E>, returned: set<nat>, signalled: bool, mapClosed: bool,
                                 dispatcher: Dispatcher, stray: bool)

  datatype ClientEvent<T, E> =
    | OnChannel(e: Event<T, E>)
    | Signal                          // `shutdown.close()`
    | CloseMap(c: nat)                // `dispatcher.close()`, after the call `c` has returned
    // the dispatcher: `select_biased!` polls `shutdown` and then, if that is pending, the channel
    | LookAtShutdown | TakeResponse | FindNothing | FindClosed
    | Wake
    | GiveUp(c: nat)                  // closes the map as well

  function Start<T, E>(cap: nat): Client<T, E>
    requires cap <= MAX_CAPACITY
  {
    Client(Init(cap), {}, false, false, AtTop, false)
  }

  /** A call that loses the ERRORING bit returns at once; the winner returns when it has closed both ends. */
  function Returns<T, E>(s: State<T, E>, e: Event<T, E>): set<nat> {
    match e
    case CloseBegin(c, _, _) => if CantError(s.state) then {c} else {}
    case CloseTx(c) => {c}
    case _ => {}
  }

  function ClientStep<T, E>(s: Client<T, E>, e: ClientEvent<T, E>): Option<Client<T, E>> {
    match e
    case OnChannel(x) =>
      (match Step(s.chan, x)
       case None => None
       case Some(t) => Some(s.(chan := t, returned := s.returned + Returns(s.chan, x))))
    case Signal => Some(s.(signalled := true))
    case CloseMap(c) => if c in s.returned && s.signalled then Some(s.(mapClosed := true)) else None
    case LookAtShutdown =>
      if s.dispatcher.AtTop? then Some(s.(dispatcher := if s.signalled then Finished else Looked)) else None
    case TakeResponse => if s.dispatcher.Looked? then Some(s.(dispatcher := InHand)) else None
    case FindNothing => if s.dispatcher.Looked? then Some(s.(dispatcher := AtTop)) else None
    case FindClosed => if s.dispatcher.Looked? then Some(s.(dispatcher := ToldClosed)) else None
    case Wake => if s.dispatcher.InHand? then Some(s.(dispatcher := AtTop, stray := s.stray || s.mapClosed)) else None
    case GiveUp(c) =>
      if c in s.returned && s.dispatcher.ToldClosed? then Some(s.(mapClosed := true, dispatcher := Finished)) else None
  }

  function ClientRun<T, E>(s: Client<T, E>, es: seq<ClientEvent<T, E>>): Option<Client<T, E>>
    decreases |es|
  {
    if es == [] then Some(s)
    else
      match ClientRun(s, es[..|es| - 1])
      case None => None
      case Some(m) => ClientStep(m, es[|es| - 1])
  }

  /** A `close_with_error` starts while another one that won is still at work. */
  predicate Overlaps<T, E>(s: Client<T, E>, e: ClientEvent<T, E>) {
    e.OnChannel? && e.e.CloseBegin? && s.chan.closers.Keys != {}
  }

  ghost predicate Serial<T, E>(s: Client<T, E>, es: seq<ClientEvent<T, E>>)
    decreases |es|
  {
    es == [] || (Serial(s, es[..|es| - 1]) && ClientRun(s, es[..|es| - 1]).Some?
                 && !Overlaps(ClientRun(s, es[..|es| - 1]).value, es[|es| - 1]))
  }

  /** What `request` relies on when it finds the map closed: `try_reserve` fails, and with the error. */
  ghost predicate FailsWithError<T, E>(s: State<T, E>) {
    IsClosed(s.tail) && IsErrored(s.state) && s.errors != [] && s.error == Some(s.errors[0])
  }

  ghost predicate Orderly<T, E>(s: Client<T, E>, cap: nat) {
    && Inv(s.chan, cap)
    && (s.returned != {} ==> Erroring(s.chan))
    && (s.mapClosed ==> s.returned != {})
  }

  ghost predicate OrderlySerial<T, E>(s: Client<T, E>) {
    s.returned != {} ==> s.chan.closers == map[] && FailsWithError(s.chan)
  }

  ghost predicate Erroring<T, E>(s: State<T, E>) {
    s.state.Flags? && s.state.erroring
  }

  /** A step does not clear the flags, and calls in progress begin and end with their own events. */
  ghost predicate FlagsKept<T, E>(s: State<T, E>, e: Event<T, E>, t: State<T, E>) {
    && (Erroring(s) ==> Erroring(t)) && (IsErrored(s.state) ==> IsErrored(t.state))
    && t.closers.Keys <= s.closers.Keys + (if e.CloseBegin? && !CantError(s.state) then {e.c} else {})
    && (e.CloseTx? ==> t.closers == s.closers - {e.c} && e.c in s.closers)
    && (e.CloseBegin? ==> Erroring(t)) && s.errors <= t.errors
  }

  lemma HandleStepKeepsFlags<T, E>(s: State<T, E>, e: Event<T, E>, t: State<T, E>)
    requires s.state.Flags? && StepHandle(s, e) == Some(t)
    ensures FlagsKept(s, e, t)
  {
  }

  lemma CloseStepKeepsFlags<T, E>(s: State<T, E>, e: Event<T, E>, t: State<T, E>)
    requires s.state.Flags? && StepClose(s, e) == Some(t)
    ensures FlagsKept(s, e, t)
  {
  }

  lemma PermitStepKeepsFlags<T, E>(s: State<T, E>, e: Event<T, E>, t: State<T, E>)
    requires s.state.Flags? && (StepReserve(s, e) == Some(t) || StepCommit(s, e) == Some(t))
    ensures FlagsKept(s, e, t)
  {
    assert t.state == s.state && t.closers == s.closers && t.errors == s.errors;
  }

  lemma RxStepKeepsFlags<T, E>(s: State<T, E>, e: Event<T, E>, t: State<T, E>)
    requires s.state.Flags? && StepRx(s, e) == Some(t)
    ensures FlagsKept(s, e, t)
  {
    assert t.state == s.state && t.closers == s.closers && t.errors == s.errors;
  }

  lemma StepKeepsFlags<T, E>(s: State<T, E>, e: Event<T, E>, t: State<T, E>)
    requires s.state.Flags? && Step(s, e) == Some(t)
    ensures FlagsKept(s, e, t)
  {
    if StepHandle(s, e) == Some(t) {
      HandleStepKeepsFlags(s, e, t);
    } else if StepClose(s, e) == Some(t) {
      CloseStepKeepsFlags(s, e, t);
    } else if StepRx(s, e) == Some(t) {
      RxStepKeepsFlags(s, e, t);
    } else {
      PermitStepKeepsFlags(s, e, t);
    }
  }

  // An error that has been set stays set, with its value, and the tail stays closed.
  lemma ErrorStays<T, E>(s: State<T, E>, cap: nat, e: Event<T, E>, t: State<T, E>)
    requires Inv(s, cap) && Step(s, e) == Some(t)
    ensures Inv(t, cap) && FlagsKept(s, e, t)
    ensures FailsWithError(s) ==> FailsWithError(t) && t.errors == s.errors
    ensures Returns(s, e) != {} ==> Erroring(t)
  {
    StepKeeps(s, cap, e, t);
    StepKeepsFlags(s, e, t);
    if IsClosed(s.tail) {
      FrozenStep(s, cap, e, t);
    }
  }

  lemma ClientStepKeeps<T, E>(s: Client<T, E>, cap: nat, e: ClientEvent<T, E>, t: Client<T, E>)
    requires Orderly(s, cap) && ClientStep(s, e) == Some(t)
    ensures Orderly(t, cap)
    ensures OrderlySerial(s) && !Overlaps(s, e) ==> OrderlySerial(t)
  {
    if e.OnChannel? {
      ErrorStays(s.chan, cap, e.e, t.chan);
    }
  }

  lemma {:induction false} ClientRunKeeps<T, E>(cap: nat, es: seq<ClientEvent<T, E>>, s: Client<T, E>)
    requires cap <= MAX_CAPACITY && ClientRun(Start<T, E>(cap), es) == Some(s)
    ensures Orderly(s, cap)
    ensures Serial(Start<T, E>(cap), es) ==> OrderlySerial(s)
    decreases |es|
  {
    if es == [] {
      InitInv<T, E>(cap);
    } else {
      var front, e := es[..|es| - 1], es[|es| - 1];
      var m := ClientRun(Start<T, E>(cap), front).value;
      ClientRunKeeps(cap, front, m);
      ClientStepKeeps(m, cap, e, s);
    }
  }

  lemma {:induction false} ErrorStaysForever<T, E>(s: State<T, E>, cap: nat, es: seq<Event<T, E>>, t: State<T, E>)
    requires Inv(s, cap) && FailsWithError(s) && Run(s, es) == Some(t)
    ensures Inv(t, cap) && FailsWithError(t) && t.errors == s.errors
    decreases |es|
  {
    if es != [] {
      var m := Run(s, es[..|es| - 1]).value;
      ErrorStaysForever(s, cap, es[..|es| - 1], m);
      ErrorStays(m, cap, es[|es| - 1], t);
    }
  }

  lemma ReasonIsTheError<T, E>(u: State<T, E>, p: nat, v: State<T, E>)
    requires FailsWithError(u) && Step(u, TxReason(p)) == Some(v)
    ensures v.reports == u.reports + [Error(Some(u.errors[0]))]
  {
  }

  /** A call of `try_reserve` that begins when the map is closed is refused, and, whatever happens before it
      looks at the state, it returns the error. */
  lemma ReserveFails<T, E>(s: State<T, E>, cap: nat, p: nat, h: nat, t: State<T, E>, es: seq<Event<T, E>>, u: State<T, E>, v: State<T, E>)
    requires Inv(s, cap) && FailsWithError(s) && Step(s, ReserveLoad(p, h)) == Some(t)
    requires Run(t, es) == Some(u) && Step(u, TxReason(p)) == Some(v)
    ensures p in t.permits && t.permits[p].Refused?
    ensures v.reports == u.reports + [Error(Some(s.errors[0]))]
  {
    RefusedExactly(s, cap, ReserveLoad(p, h), t);
    ErrorStays(s, cap, ReserveLoad(p, h), t);
    ErrorStaysForever(t, cap, es, u);
    ReasonIsTheError(u, p, v);
  }

  /** If the calls of `close_with_error` do not overlap, then whenever the wait map is closed the channel is
      closed for sending and has its error: the `expect_err` in `request` holds, and what it gets is the Reset. */
  lemma ClosedMapMeansError<T, E>(cap: nat, es: seq<ClientEvent<T, E>>, s: Client<T, E>)
    requires cap <= MAX_CAPACITY && ClientRun(Start<T, E>(cap), es) == Some(s)
    requires Serial(Start<T, E>(cap), es) && s.mapClosed
    ensures FailsWithError(s.chan)
  {
    ClientRunKeeps(cap, es, s);
  }

  /** A call that won has yet to set ERRORED or to close the send half. */
  predicate InProgress<T, E>(s: State<T, E>) {
    exists c :: c in s.closers && (s.closers[c].Writing? || s.closers[c].Marking? || (s.closers[c].ClosingRx? && !IsClosed(s.tail)))
  }

  /** In any run, whenever the wait map is closed, the `expect_err` holds exactly if no such call is in progress. */
  lemma ClosedMapExactly<T, E>(cap: nat, es: seq<ClientEvent<T, E>>, s: Client<T, E>)
    requires cap <= MAX_CAPACITY && ClientRun(Start<T, E>(cap), es) == Some(s) && s.mapClosed
    ensures FailsWithError(s.chan) <==> !InProgress(s.chan)
  {
    ClientRunKeeps(cap, es, s);
    if s.chan.closers.Keys == {} {
      assert s.chan.closers == map[];
    } else {
      var c :| c in s.chan.closers;
      assert InProgress(s.chan) ==> s.chan.closers[c].Writing? || s.chan.closers[c].Marking? || (s.chan.closers[c].ClosingRx? && !IsClosed(s.chan.tail));
    }
  }

  lemma RunOne<T, E>(s: Client<T, E>, es: seq<ClientEvent<T, E>>, m: Client<T, E>, e: ClientEvent<T, E>)
    requires ClientRun(s, es) == Some(m)
    ensures ClientRun(s, es + [e]) == ClientStep(m, e)
  {
    assert (es + [e])[..|es|] == es;
  }

  function OverlapEvents<T, E>(error: E): seq<ClientEvent<T, E>> {
    [OnChannel(CloseBegin(0, ByHandle(0), error))] + [OnChannel(CloseBegin(1, ByHandle(0), error))] + [Signal] + [CloseMap(1)]
  }

  // Two overlapping calls: the one that loses returns at once, and its task closes the map.
  lemma OverlapRun<T, E>(cap: nat, error: E, es: seq<ClientEvent<T, E>>, s: Client<T, E>) returns (t: Client<T, E>)
    requires 0 < cap <= MAX_CAPACITY
    requires ClientRun(Start<T, E>(cap), es) == Some(s) && s.chan == Init(cap) && s.returned == {}
    ensures ClientRun(Start<T, E>(cap), es + OverlapEvents(error)) == Some(t)
    ensures t.mapClosed && t.dispatcher == s.dispatcher && t.stray == s.stray && 0 in t.chan.handles && 0 !in t.chan.permits
    ensures !IsClosed(t.chan.tail) && !t.chan.panicked
  {
    var z := Start<T, E>(cap);
    var won, lost := CloseBegin(0, ByHandle(0), error), CloseBegin(1, ByHandle(0), error);
    RunOne(z, es, s, OnChannel(won));
    var s1 := ClientStep(s, OnChannel(won)).value;
    RunOne(z, es + [OnChannel(won)], s1, OnChannel(lost));
    var s2 := ClientStep(s1, OnChannel(lost)).value;
    assert 1 in s2.returned;
    RunOne(z, es + [OnChannel(won)] + [OnChannel(lost)], s2, Signal);
    var s3 := ClientStep(s2, Signal).value;
    RunOne(z, es + [OnChannel(won)] + [OnChannel(lost)] + [Signal], s3, CloseMap(1));
    t := ClientStep(s3, CloseMap(1)).value;
    assert es + OverlapEvents(error) == es + [OnChannel(won)] + [OnChannel(lost)] + [Signal] + [CloseMap(1)];
  }

  /** Otherwise it fails: in a run with two overlapping calls the map is closed and `try_reserve` finds the
      channel still open. */
  lemma OverlappingCloses<T, E>(cap: nat, error: E) returns (es: seq<ClientEvent<T, E>>, s: Client<T, E>, t: State<T, E>)
    requires 0 < cap <= MAX_CAPACITY
    ensures ClientRun(Start<T, E>(cap), es) == Some(s) && s.mapClosed
    ensures Step(s.chan, ReserveLoad(0, 0)) == Some(t) && 0 in t.permits && t.permits[0] == Reserving(0)
  {
    var none: seq<ClientEvent<T, E>> := [];
    s := OverlapRun(cap, error, none, Start<T, E>(cap));
    es := none + OverlapEvents(error);
    t := Step(s.chan, ReserveLoad(0, 0)).value;
  }

  // ---- which calls have returned, and who closed the map ----

  /** In this run, the call `c` lost, or closed the receive half, which is the last thing it does. */
  ghost predicate HasReturned<T, E>(s: Client<T, E>, es: seq<ClientEvent<T, E>>, c: nat)
    decreases |es|
  {
    es != [] && ClientRun(s, es[..|es| - 1]).Some?
    && (HasReturned(s, es[..|es| - 1], c) || ReturnsNow(ClientRun(s, es[..|es| - 1]).value.chan, es[|es| - 1], c))
  }

  ghost predicate ReturnsNow<T, E>(s: State<T, E>, e: ClientEvent<T, E>, c: nat) {
    e == OnChannel(CloseTx(c)) || (e.OnChannel? && e.e.CloseBegin? && e.e.c == c && (s.closers != map[] || IsErrored(s.state)))
  }

  ghost predicate ClosesMap<T, E>(e: ClientEvent<T, E>) {
    e.CloseMap? || e.GiveUp?
  }

  /** A call has returned if and only if it began while another had won, or has closed both ends. */
  lemma {:induction false} ReturnedExactly<T, E>(cap: nat, es: seq<ClientEvent<T, E>>, s: Client<T, E>, c: nat)
    requires cap <= MAX_CAPACITY && ClientRun(Start<T, E>(cap), es) == Some(s)
    ensures c in s.returned <==> HasReturned(Start<T, E>(cap), es, c)
    decreases |es|
  {
    if es != [] {
      var front, e := es[..|es| - 1], es[|es| - 1];
      var m := ClientRun(Start<T, E>(cap), front).value;
      ReturnedExactly(cap, front, m, c);
      ClientRunKeeps(cap, front, m);
      ReturnsExactly(m, cap, e, s, c);
    }
  }

  lemma ReturnsExactly<T, E>(s: Client<T, E>, cap: nat, e: ClientEvent<T, E>, t: Client<T, E>, c: nat)
    requires Inv(s.chan, cap) && ClientStep(s, e) == Some(t)
    ensures c in t.returned <==> c in s.returned || ReturnsNow(s.chan, e, c)
  {
    if c :| c in s.chan.closers {
      assert s.chan.closers != map[] && s.chan.state.erroring;
    } else {
      assert s.chan.closers == map[];
    }
  }

  /** The map is closed if and only if a task or the dispatcher has closed it. */
  lemma {:induction false} MapClosedExactly<T, E>(cap: nat, es: seq<ClientEvent<T, E>>, s: Client<T, E>)
    requires cap <= MAX_CAPACITY && ClientRun(Start<T, E>(cap), es) == Some(s)
    ensures s.mapClosed <==> exists k :: 0 <= k < |es| && ClosesMap(es[k])
    ensures s.signalled <==> Signal in es
    decreases |es|
  {
    if es != [] {
      var front := es[..|es| - 1];
      MapClosedExactly(cap, front, ClientRun(Start<T, E>(cap), front).value);
      assert es == front + [es[|es| - 1]];
      assert forall k :: 0 <= k < |front| ==> es[k] == front[k];
    }
  }

  // ---- the dispatcher and the map ----

  /** The dispatcher has looked at `shutdown` after it was signalled, or has given up. */
  ghost predicate HasFinished<T, E>(es: seq<ClientEvent<T, E>>)
    decreases |es|
  {
    es != [] && (HasFinished(es[..|es| - 1]) || es[|es| - 1].GiveUp? || (es[|es| - 1].LookAtShutdown? && Signal in es[..|es| - 1]))
  }

  /** The dispatcher leaves its loop exactly then. */
  lemma {:induction false} FinishedExactly<T, E>(cap: nat, es: seq<ClientEvent<T, E>>, s: Client<T, E>)
    requires cap <= MAX_CAPACITY && ClientRun(Start<T, E>(cap), es) == Some(s)
    ensures s.dispatcher.Finished? <==> HasFinished(es)
    decreases |es|
  {
    if es != [] {
      var front := es[..|es| - 1];
      FinishedExactly(cap, front, ClientRun(Start<T, E>(cap), front).value);
      MapClosedExactly(cap, front, ClientRun(Start<T, E>(cap), front).value);
    }
  }

  /** The dispatcher has looked at `shutdown` and not yet dealt with what the look led to, and the map was
      closed since then. */
  ghost predicate ClosedSinceLook<T, E>(s: Client<T, E>, es: seq<ClientEvent<T, E>>)
    decreases |es|
  {
    es != [] && ClientRun(s, es).Some? && (ClientRun(s, es).value.dispatcher.Looked? || ClientRun(s, es).value.dispatcher.InHand?)
    && (es[|es| - 1].CloseMap? || (!es[|es| - 1].LookAtShutdown? && ClosedSinceLook(s, es[..|es| - 1])))
  }

  /** At some point of the run, the dispatcher had a response in hand, and a task had closed the map since the
      look at `shutdown` that led to it. */
  ghost predicate ClosedBehind<T, E>(s: Client<T, E>, es: seq<ClientEvent<T, E>>)
    decreases |es|
  {
    es != [] && (ClosedBehind(s, es[..|es| - 1])
                 || (ClosedSinceLook(s, es) && ClientRun(s, es).value.dispatcher.InHand?))
  }

  lemma {:induction false} ClosedSinceLookExactly<T, E>(cap: nat, es: seq<ClientEvent<T, E>>, s: Client<T, E>)
    requires cap <= MAX_CAPACITY && ClientRun(Start<T, E>(cap), es) == Some(s)
    ensures s.dispatcher.Looked? || s.dispatcher.InHand? ==> (s.mapClosed <==> ClosedSinceLook(Start<T, E>(cap), es))
    ensures s.mapClosed ==> s.signalled || s.dispatcher.Finished?
    decreases |es|
  {
    if es != [] {
      var front := es[..|es| - 1];
      ClosedSinceLookExactly(cap, front, ClientRun(Start<T, E>(cap), front).value);
    }
  }

  /** The `unreachable!` after `wake` is reached, or about to be, exactly in the runs in which a task closes
      the map after the dispatcher's look at `shutdown` and a response is taken from that look: before the
      response is taken or while it is in hand. */
  lemma {:induction false} StrayExactly<T, E>(cap: nat, es: seq<ClientEvent<T, E>>, s: Client<T, E>)
    requires cap <= MAX_CAPACITY && ClientRun(Start<T, E>(cap), es) == Some(s)
    ensures s.stray || (s.dispatcher.InHand? && s.mapClosed) <==> ClosedBehind(Start<T, E>(cap), es)
    decreases |es|
  {
    if es != [] {
      var front := es[..|es| - 1];
      StrayExactly(cap, front, ClientRun(Start<T, E>(cap), front).value);
      ClosedSinceLookExactly(cap, es, s);
      ClosedSinceLookExactly(cap, front, ClientRun(Start<T, E>(cap), front).value);
    }
  }

  /** A dispatcher that is told that the connection is closed can close the map, once its own call or another has
      returned, and is then done. */
  lemma GivesUp<T, E>(s: Client<T, E>, c: nat) returns (t: Client<T, E>)
    requires s.dispatcher.Looked? && c in s.returned
    ensures ClientRun(s, [] + [FindClosed] + [GiveUp(c)]) == Some(t) && t == s.(mapClosed := true, dispatcher := Finished)
  {
    var none: seq<ClientEvent<T, E>> := [];
    RunOne(s, none, s, FindClosed);
    var m := ClientStep(s, FindClosed).value;
    RunOne(s, none + [FindClosed], m, GiveUp(c));
    t := ClientStep(m, GiveUp(c)).value;
  }

  /** There are such runs: the map is closed between the look and the taking of the response, or after it. */
  lemma StrayResponses<T, E>(cap: nat, error: E) returns (s: Client<T, E>, t: Client<T, E>)
    requires 0 < cap <= MAX_CAPACITY
    ensures var es := [LookAtShutdown] + OverlapEvents<T, E>(error) + [TakeResponse] + [Wake];
            ClientRun(Start<T, E>(cap), es) == Some(s) && s.stray
    ensures var es := [LookAtShutdown] + [TakeResponse] + OverlapEvents<T, E>(error) + [Wake];
            ClientRun(Start<T, E>(cap), es) == Some(t) && t.stray
  {
    var z := Start<T, E>(cap);
    var none: seq<ClientEvent<T, E>> := [];
    var look: seq<ClientEvent<T, E>> := [LookAtShutdown];
    assert none + look == look;
    RunOne(z, none, z, LookAtShutdown);
    var looked := z.(dispatcher := Looked);
    var s1 := OverlapRun(cap, error, look, looked);
    RunOne(z, look + OverlapEvents(error), s1, TakeResponse);
    var s2 := s1.(dispatcher := InHand);
    RunOne(z, look + OverlapEvents(error) + [TakeResponse], s2, Wake);
    s := s2.(dispatcher := AtTop, stray := true);
    RunOne(z, look, looked, TakeResponse);
    var t2 := OverlapRun(cap, error, look + [TakeResponse], looked.(dispatcher := InHand));
    RunOne(z, look + [TakeResponse] + OverlapEvents(error), t2, Wake);
    t := t2.(dispatcher := AtTop, stray := true);
  }
}
