/** How connections end across the wire, and connections that do not come about: what one peer does reaches
    the other one's end of the same connection, and no other. */
module Resets {
  import opened Options
  import opened Connections
  import opened Handshake
  import Causes

  lemma ThreeMoves(n: Net, x: Move, n1: Net, y: Move, n2: Net, z: Move, n3: Net)
    requires Step(n, x) == Some(n1) && Step(n1, y) == Some(n2) && Step(n2, z) == Some(n3)
    ensures Run(n, [x] + ([y] + [z])) == Some(n3)
  {
    RunFirst(n, x, [y] + [z]);
    RunFirst(n1, y, [z]);
    var none: seq<Move> := [];
    Extend(n2, none, n2, z);
    assert none + [z] == [z];
  }

  lemma OneFrameLeaves(f: Frame)
    ensures [f][1..] == [] && [] + [f] == [f]
  {
  }

  /** The end of the local stream of a socket resets the peer's socket of the connection, whatever its ID is, and
      closes its channel with the reason; the cleanup then removes the local one; and nothing else changes. */
  lemma LocalCloseReachesThePeer(n: Net, i: Id, j: Id, why: ResetReason, w: World) returns (u: Net)
    requires n.a.Wf() && n.b.Wf() && OpenTo(n.a.sockets, i, j) && OpenTo(n.b.sockets, j, i)
    requires n.ab == [] && n.ba == [] && n.a.dead == None
    ensures Run(n, [Move(true, CloseLocally(i, why))] + ([Move(false, Receive(w))] + [Move(true, CleanUp)])) == Some(u)
    ensures u.a.sockets == n.a.sockets - {i} && u.b.sockets == n.b.sockets - {j} && u.ab == [] && u.ba == []
    ensures Step(n, Move(true, CloseLocally(i, why))) == Some(n.(a := n.a.(dead := Some(i)), ab := [Reset(j, why)]))
    ensures Inbound(n.b, Reset(j, why), w).effects == [ClosedWith(n.b.sockets[j].channel, why)]
  {
    var f := Reset(j, why);
    OneFrameLeaves(f);
    RemoveKeepsWf(n.b, j);
    var n1 := n.(a := n.a.(dead := Some(i)), ab := [f]);
    var n2 := n1.(b := n.b.Remove(j), ab := []);
    u := n2.(a := n1.a.Cleaned());
    assert Step(n, Move(true, CloseLocally(i, why))) == Some(n1);
    assert Step(n1, Move(false, Receive(w))) == Some(n2);
    ThreeMoves(n, Move(true, CloseLocally(i, why)), n1, Move(false, Receive(w)), n2, Move(true, CleanUp), u);
  }

  /** Data that cannot be handed over ends the connection on both sides, and the sender's channel is closed with
      the reason that its receiver gave. */
  lemma UndeliverableDataEndsTheConnection(n: Net, i: Id, j: Id, body: Body, why: ResetReason, w: World, v: World) returns (u: Net)
    requires n.a.Wf() && n.b.Wf() && OpenTo(n.a.sockets, i, j) && OpenTo(n.b.sockets, j, i) && n.ab == [] && n.ba == []
    requires Causes.Fails(w.sending, why)
    ensures Run(n, [Move(true, SendData(i, body))] + ([Move(false, Receive(w))] + [Move(true, Receive(v))])) == Some(u)
    ensures u.a.sockets == n.a.sockets - {i} && u.b.sockets == n.b.sockets - {j} && u.ab == [] && u.ba == []
    ensures Inbound(n.b, Data(i, j, body), w).reply == Some(Reset(i, why))
    ensures Inbound(n.a, Reset(i, why), v).effects == [ClosedWith(n.a.sockets[i].channel, why)]
  {
    OneFrameLeaves(Data(i, j, body));
    OneFrameLeaves(Reset(i, why));
    RemoveKeepsWf(n.a, i);
    RemoveKeepsWf(n.b, j);
    var n1 := n.(ab := [Data(i, j, body)]);
    var n2 := n.(b := n.b.Remove(j), ba := [Reset(i, why)]);
    u := n2.(a := n.a.Remove(i), ba := []);
    assert Step(n, Move(true, SendData(i, body))) == Some(n1);
    assert Step(n1, Move(false, Receive(w))) == Some(n2);
    assert Step(n2, Move(true, Receive(v))) == Some(u);
    ThreeMoves(n, Move(true, SendData(i, body)), n1, Move(false, Receive(w)), n2, Move(true, Receive(v)), u);
  }

  /** Data for a connection that the peer does not have ends it at its sender. */
  lemma UnknownDataEndsTheConnection(n: Net, i: Id, j: Id, body: Body, w: World, v: World) returns (u: Net)
    requires n.a.Wf() && n.b.Wf() && OpenTo(n.a.sockets, i, j) && !OpenTo(n.b.sockets, j, i) && n.ab == [] && n.ba == []
    ensures Run(n, [Move(true, SendData(i, body))] + ([Move(false, Receive(w))] + [Move(true, Receive(v))])) == Some(u)
    ensures u.a.sockets == n.a.sockets - {i} && u.b == n.b && u.ab == [] && u.ba == []
    ensures Inbound(n.a, Reset(i, NoSuchConn), v).effects == [ClosedWith(n.a.sockets[i].channel, NoSuchConn)]
  {
    OneFrameLeaves(Data(i, j, body));
    OneFrameLeaves(Reset(i, NoSuchConn));
    RemoveKeepsWf(n.a, i);
    var n1 := n.(ab := [Data(i, j, body)]);
    var n2 := n.(ba := [Reset(i, NoSuchConn)]);
    u := n2.(a := n.a.Remove(i), ba := []);
    assert Step(n, Move(true, SendData(i, body))) == Some(n1);
    assert Step(n1, Move(false, Receive(w))) == Some(n2);
    assert Step(n2, Move(true, Receive(v))) == Some(u);
    ThreeMoves(n, Move(true, SendData(i, body)), n1, Move(false, Receive(w)), n2, Move(true, Receive(v)), u);
  }

  /** The request is made, the peer looks at it, and its answer comes back. */
  function Asking(e: Event, w: World, v: World): seq<Move> {
    [Move(true, e)] + ([Move(false, Receive(w))] + [Move(true, Receive(v))])
  }

  /** A request puts its own identity and hello on the wire, under the ID of its new socket; if the peer refuses
      it, because its registry does or because it has no room, the initiator is told the peer's reason, and both
      tables hold what they held before. */
  lemma RefusedRequest(n: Net, e: Event, w: World, reason: Rejection, v: World)
    requires n.a.Wf() && n.b.Wf() && n.ab == [] && n.ba == [] && e.Initiate? && !n.a.Full() && !n.a.Overflows()
    requires w.registry == Denied(reason) || (w.registry.Granted? && n.b.Full() && reason == ConnTableFull(n.b.capacity))
    ensures n.a.Next() !in n.a.sockets
    ensures var m := Step(n, Move(true, e));
      && m.Some? && m.value.a.Wf() && m.value.ab == [Connect(n.a.Next(), e.identity, e.hello)]
      && m.value.a.sockets == n.a.sockets[n.a.Next() := Socket(Connecting(e.rsp), e.channel)]
      && Inbound(m.value.a, Reject(n.a.Next(), reason), v).effects == [Told(e.rsp, Some(reason))]
    ensures var u := Run(n, Asking(e, w, v));
            u.Some? && u.value.a.sockets == n.a.sockets && u.value.b == n.b && u.value.ab == [] && u.value.ba == []
  {
    var a := n.a.Next();
    var connecting := Socket(Connecting(e.rsp), e.channel);
    PutKeepsWf(n.a, connecting);
    OneFrameLeaves(Connect(a, e.identity, e.hello));
    OneFrameLeaves(Reject(a, reason));
    var n1 := n.(a := n.a.Put(connecting), ab := [Connect(a, e.identity, e.hello)]);
    var n2 := n1.(ab := [], ba := [Reject(a, reason)]);
    var u := n2.(a := n1.a.Remove(a), ba := []);
    assert n1.a.sockets - {a} == n.a.sockets;
    assert Step(n, Move(true, e)) == Some(n1);
    assert Step(n1, Move(false, Receive(w))) == Some(n2);
    assert Step(n2, Move(true, Receive(v))) == Some(u);
    ThreeMoves(n, Move(true, e), n1, Move(false, Receive(w)), n2, Move(true, Receive(v)), u);
  }

  /** If the initiator has gone when the ACK arrives, the socket that the peer opened for it is reset. */
  lemma DesertedConnection(n: Net, a: Id, b: Id, v: World, w: World) returns (u: Net)
    requires n.a.Wf() && n.b.Wf() && IsConnecting(n.a.sockets, a) && OpenTo(n.b.sockets, b, a)
    requires n.ab == [] && n.ba == [Ack(b, a)] && !v.initiator
    ensures Run(n, [Move(true, Receive(v))] + [Move(false, Receive(w))]) == Some(u)
    ensures u.b.sockets == n.b.sockets - {b} && u.ab == [] && u.ba == []
    ensures OpenTo(u.a.sockets, a, b) && u.a.sockets - {a} == n.a.sockets - {a}
    ensures Inbound(n.b, Reset(b, BecauseISaidSo), w).effects == [ClosedWith(n.b.sockets[b].channel, BecauseISaidSo)]
  {
    OneFrameLeaves(Ack(b, a));
    OneFrameLeaves(Reset(b, BecauseISaidSo));
    RemoveKeepsWf(n.b, b);
    UpdateKeepsWf(n.a, a, n.a.sockets[a].(state := Open(b)));
    var n1 := Net(n.a.(sockets := n.a.sockets[a := n.a.sockets[a].(state := Open(b))]), n.b, [Reset(b, BecauseISaidSo)], []);
    u := n1.(b := n.b.Remove(b), ab := []);
    assert Step(n, Move(true, Receive(v))) == Some(n1);
    assert Step(n1, Move(false, Receive(w))) == Some(u);
    RunFirst(n, Move(true, Receive(v)), [Move(false, Receive(w))]);
    var none: seq<Move> := [];
    Extend(n1, none, n1, Move(false, Receive(w)));
    assert none + [Move(false, Receive(w))] == [Move(false, Receive(w))];
  }
}
