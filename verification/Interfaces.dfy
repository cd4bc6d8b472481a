/** Two interfaces at work: the loops of two machines whose wires feed each other, taking turns in any order,
    make a run of `Handshake`, so that what holds of those runs holds of the loops. */
module Interfaces {
  import opened Options
  import opened Connections
  import opened Handshake
  import opened Machine

  /** What one turn of the loop finds: a frame on the wire, if there is one, or the local side. */
  datatype Turn = OnWire(world: World) | Locally(polls: seq<Poll>, request: NextRequest)

  /** The turn answers and finds nothing that disturbs a handshake. */
  predicate Calm(t: Turn) {
    match t
    case OnWire(w) => w.sending.Sent? && w.initiator
    case Locally(polls, _) => forall k :: 0 <= k < |polls| ==> !polls[k].Ended?
  }

  lemma CleansUp(n: Net) returns (ms: seq<Move>)
    requires n.a.used < MAX_ID
    ensures Run(n, ms) == Some(n.(a := n.a.Cleaned())) && ms == [Move(true, CleanUp)]
  {
    ms := [];
    Extend(n, ms, n, Move(true, CleanUp));
    ms := ms + [Move(true, CleanUp)];
  }

  lemma CleansUpAnd(n: Net, e: Event, u: Net) returns (ms: seq<Move>)
    requires n.a.used < MAX_ID && StepFirst(n.(a := n.a.Cleaned()), e) == Some(u)
    ensures Run(n, ms) == Some(u) && ms == [Move(true, CleanUp)] + [Move(true, e)]
  {
    ms := CleansUp(n);
    Extend(n, ms, n.(a := n.a.Cleaned()), Move(true, e));
    ms := ms + [Move(true, e)];
  }

  /** The moves of the first peer that a local turn makes. */
  lemma LocalTurnIsRun(n: Net, polls: seq<Poll>, request: NextRequest, u: Net) returns (ms: seq<Move>)
    requires StepsLocally(n, polls, request, u) && n.a.used < MAX_ID
    ensures Run(n, ms) == Some(u)
    ensures Calm(Locally(polls, request)) ==> AllUndisturbed(ms)
  {
    if id: Id :| SendsLocally(n, polls, id, u) {
      var e := if polls[id - 1].Ended? then CloseLocally(id, polls[id - 1].why) else SendData(id, polls[id - 1].body);
      ms := CleansUpAnd(n, e, u);
    } else if request.Next? {
      var e := Initiate(request.request.identity, request.request.hello, request.request.channel, request.request.rsp);
      ms := CleansUpAnd(n, e, u);
    } else {
      ms := CleansUp(n);
    }
  }

  /** The two machines are apart, and what one has sent is what the other has yet to receive. */
  ghost predicate Linked(a: Machine, b: Machine)
    reads a, a.table, a.table.conns, b, b.table, b.table.conns
  {
    && a != b && a.table != b.table && a.table.conns != b.table.conns && a.Valid() && b.Valid()
    && a.outgoing == b.incoming && b.outgoing == a.incoming
  }

  ghost function NetOf(a: Machine, b: Machine): Net
    reads a, a.table, b, b.table
  {
    Net(a.table.view, b.table.view, a.outgoing, a.incoming)
  }

  /** What a local turn asks for: a request, while there may still be any. */
  function Requested(a: Machine, request: NextRequest): NextRequest
    reads a
  {
    if a.connsRemaining then request else NoneYet
  }

  /** The request cannot be numbered, and no socket has anything to send before it. */
  ghost predicate CannotNumber(t: Table, polls: seq<Poll>, request: NextRequest) {
    request.Next? && t.Cleaned().Overflows() && forall id: Id :: !HasOutbound(t.Cleaned(), id, polls)
  }

  lemma CleanedOverflows(t: Table)
    requires t.Wf()
    ensures t.Cleaned().Overflows() ==> t.Overflows()
  {
    if t.dead.Some? {
      RemoveKeepsWf(t, t.dead.value);
    }
  }

  lemma OverflowsOnlyIfLarge(t: Table)
    requires t.Wf() && (t.Overflows() || t.Cleaned().Overflows())
    ensures t.capacity >= MAX_ID
  {
    CleanedOverflows(t);
    OverflowsExactly(t.capacity, Socket(Connecting(0), 0));
  }

  /** One turn of the loop of `a`, with the wires to `b`. A frame that waits is received; a turn on an empty wire
      waits; a local turn cleans up and makes one step of `StepsLocally`. */
  method TakeTurn(a: Machine, b: Machine, t: Turn) returns (panicked: bool, ghost ms: seq<Move>)
    requires Linked(a, b) && (t.Locally? ==> |t.polls| == a.table.conns.Length)
    modifies a, a.table, a.table.conns, b
    ensures !panicked ==> Linked(a, b) && Run(old(NetOf(a, b)), ms) == Some(NetOf(a, b))
    ensures !panicked && Calm(t) ==> AllUndisturbed(ms)
    ensures t.OnWire? && old(a.incoming) == [] ==> !panicked && ms == []
    ensures t.OnWire? && old(a.incoming) != [] ==> ms == [Move(true, Receive(t.world))]
    ensures t.OnWire? && old(a.incoming) != [] ==> (panicked <==> Inbound(old(a.table.view), old(a.incoming)[0], t.world) == Panic)
    ensures t.Locally? && !panicked ==> StepsLocally(old(NetOf(a, b)), t.polls, old(Requested(a, t.request)), NetOf(a, b))
    ensures t.Locally? ==> (panicked <==> CannotNumber(old(a.table.view), t.polls, old(Requested(a, t.request))))
    ensures a.table.conns.Length < MAX_ID ==> !panicked
    ensures !panicked && t.OnWire? ==> a.connsRemaining == old(a.connsRemaining)
    ensures !panicked && t.Locally? ==>
              a.connsRemaining == (old(a.connsRemaining) && !(t.request.Ended? && a.outgoing == old(a.outgoing)))
  {
    ghost var n := NetOf(a, b);
    ghost var peer := b.table.view;
    assert n == a.AsFirst(peer) && n.a.used < MAX_ID;
    ghost var none: seq<Move> := [];
    panicked, ms := false, none;
    match t {
      case OnWire(w) =>
        if a.incoming != [] {
          panicked := a.ReceiveOne(w);
          ms := none + [Move(true, Receive(w))];
          if panicked {
            OverflowsOnlyIfLarge(n.a);
          } else {
            assert StepFirst(n, Receive(w)) == Some(a.AsFirst(peer));
            Extend(n, none, n, Move(true, Receive(w)));
          }
        }
      case Locally(polls, request) =>
        var next := Requested(a, request);
        panicked := a.SendLocal(polls, next);
        if panicked {
          OverflowsOnlyIfLarge(n.a);
        } else {
          assert StepsLocally(n, polls, next, a.AsFirst(peer));
          ms := LocalTurnIsRun(n, polls, next, a.AsFirst(peer));
        }
    }
    b.incoming, b.outgoing := a.outgoing, a.incoming;
  }

  ghost predicate AllUndisturbed(ms: seq<Move>) {
    forall k :: 0 <= k < |ms| ==> Undisturbed(ms[k].event)
  }

  lemma Appended(n: Net, ms: seq<Move>, m: Net, ls: seq<Move>, u: Net)
    requires Run(n, ms) == Some(m) && Run(m, ls) == Some(u)
    ensures Run(n, ms + ls) == Some(u)
    ensures AllUndisturbed(ms) && AllUndisturbed(ls) ==> AllUndisturbed(ms + ls)
  {
    Continue(n, ms, m, ls, u);
  }

  /** Neither table can run out of numbers. */
  ghost predicate BothNumbered(a: Machine, b: Machine)
    reads a, a.table, b, b.table
  {
    a.table.conns.Length < MAX_ID && b.table.conns.Length < MAX_ID
  }

  /** Either machine takes a turn. */
  method TakeEither(a: Machine, b: Machine, first: bool, t: Turn) returns (panicked: bool, ghost ms: seq<Move>)
    requires Linked(a, b) && (t.Locally? ==> |t.polls| == (if first then a else b).table.conns.Length)
    modifies a, a.table, a.table.conns, b, b.table, b.table.conns
    ensures !panicked ==> Linked(a, b) && Run(old(NetOf(a, b)), ms) == Some(NetOf(a, b))
    ensures !panicked && Calm(t) ==> AllUndisturbed(ms)
    ensures BothNumbered(a, b) ==> !panicked
  {
    if first {
      panicked, ms := TakeTurn(a, b, t);
    } else {
      ghost var n := NetOf(b, a);
      ghost var ls;
      panicked, ls := TakeTurn(b, a, t);
      SwapRun(n, ls);
      ms := Mirrored(ls);
    }
  }

  /** The loops of both machines, taking turns in any order. From two empty tables and wires, if all turns are
      calm, they reach only states that `Handshake` speaks of. */
  method RunBoth(a: Machine, b: Machine, turns: seq<(bool, Turn)>) returns (panicked: bool, ghost ms: seq<Move>)
    requires Linked(a, b)
    requires forall k :: 0 <= k < |turns| && turns[k].1.Locally? ==>
               |turns[k].1.polls| == (if turns[k].0 then a else b).table.conns.Length
    modifies a, a.table, a.table.conns, b, b.table, b.table.conns
    ensures !panicked ==> Linked(a, b) && Run(old(NetOf(a, b)), ms) == Some(NetOf(a, b))
    ensures BothNumbered(a, b) ==> !panicked
    ensures !panicked && (forall k :: 0 <= k < |turns| ==> Calm(turns[k].1)) ==> AllUndisturbed(ms)
    ensures forall capA, capB :: !panicked && (forall k :: 0 <= k < |turns| ==> Calm(turns[k].1)) && old(NetOf(a, b)) == Start(capA, capB)
              ==> Reachable(NetOf(a, b))
  {
    ghost var n := NetOf(a, b);
    panicked, ms := false, [];
    for k := 0 to |turns|
      invariant Linked(a, b) && Run(n, ms) == Some(NetOf(a, b))
      invariant (forall j :: 0 <= j < k ==> Calm(turns[j].1)) ==> AllUndisturbed(ms)
    {
      ghost var m, ls := NetOf(a, b), [];
      panicked, ls := TakeEither(a, b, turns[k].0, turns[k].1);
      if panicked {
        return;
      }
      Appended(n, ms, m, ls, NetOf(a, b));
      ms := ms + ls;
    }
    forall capA, capB | (forall k :: 0 <= k < |turns| ==> Calm(turns[k].1)) && n == Start(capA, capB) ensures Reachable(NetOf(a, b)) {
      assert UndisturbedRun(capA, capB, ms, NetOf(a, b));
    }
  }

  /** So the two tables agree while the loops run. */
  method RunAndAgree(a: Machine, b: Machine, turns: seq<(bool, Turn)>, ghost capA: nat, ghost capB: nat) returns (panicked: bool)
    requires Linked(a, b) && NetOf(a, b) == Start(capA, capB)
    requires forall k :: 0 <= k < |turns| ==> Calm(turns[k].1)
    requires forall k :: 0 <= k < |turns| && turns[k].1.Locally? ==>
               |turns[k].1.polls| == (if turns[k].0 then a else b).table.conns.Length
    modifies a, a.table, a.table.conns, b, b.table, b.table.conns
    ensures BothNumbered(a, b) ==> !panicked
    ensures !panicked ==> Linked(a, b) && NoReset(a.outgoing) && NoReset(b.outgoing)
    ensures !panicked ==> forall i: Id, j: Id :: OpenTo(a.table.view.sockets, i, j) ==>
              OpenTo(b.table.view.sockets, j, i) || (IsConnecting(b.table.view.sockets, j) && AckAhead(a.outgoing, i, j))
  {
    ghost var ms;
    panicked, ms := RunBoth(a, b, turns);
    if !panicked {
      OneHandshakeFrame(NetOf(a, b), 1);
      forall i: Id, j: Id | OpenTo(a.table.view.sockets, i, j)
        ensures OpenTo(b.table.view.sockets, j, i) || (IsConnecting(b.table.view.sockets, j) && AckAhead(a.outgoing, i, j))
      {
        Agreement(NetOf(a, b), i, j);
      }
    }
  }
}
