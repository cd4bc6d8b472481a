/** What an open connection is for: the bodies that one peer sends on a socket reach the channel of the
    socket it is open to, each once and in order, however the two peers' steps interleave. */
module Streams {
  import opened Options
  import opened Connections
  import opened Handshake

  /** A body, with the socket it was sent on or handed to. */
  datatype Item = Item(id: Id, body: Body)

  /** A net with what each peer has sent, and handed to its local channels, so far. */
  datatype Log = Log(net: Net, sentA: seq<Item>, takenA: seq<Item>, sentB: seq<Item>, takenB: seq<Item>)
  {
    function Swap(): Log { Log(net.Swap(), sentB, takenB, sentA, takenA) }
  }

  function SentBy(e: Event): seq<Item> {
    if e.SendData? then [Item(e.id, e.body)] else []
  }

  /** The first peer receives data and hands it to the channel of the socket that the frame names. */
  function TakenBy(n: Net, e: Event): seq<Item> {
    if e.Receive? && n.ba != [] && n.ba[0].Data? && n.ba[0].remoteId in n.a.sockets
       && InboundData(n.a, n.ba[0].localId, n.ba[0].remoteId, n.ba[0].body, e.world).effects
          == [Handed(n.a.sockets[n.ba[0].remoteId].channel, n.ba[0].body)]
    then [Item(n.ba[0].remoteId, n.ba[0].body)] else []
  }

  function LogFirst(l: Log, e: Event): Option<Log> {
    match StepFirst(l.net, e)
    case None => None
    case Some(u) => Some(Log(u, l.sentA + SentBy(e), l.takenA + TakenBy(l.net, e), l.sentB, l.takenB))
  }

  function LogStep(l: Log, m: Move): Option<Log> {
    if m.first then LogFirst(l, m.event)
    else
      match LogFirst(l.Swap(), m.event)
      case None => None
      case Some(u) => Some(u.Swap())
  }

  function LogRun(l: Log, ms: seq<Move>): Option<Log>
    decreases |ms|
  {
    if ms == [] then Some(l)
    else
      match LogRun(l, ms[..|ms| - 1])
      case None => None
      case Some(u) => LogStep(u, ms[|ms| - 1])
  }

  /** The bodies of one socket. */
  function Of(q: seq<Item>, id: Id): seq<Body> {
    if q == [] then []
    else Of(q[..|q| - 1], id) + if q[|q| - 1].id == id then [q[|q| - 1].body] else []
  }

  /** The bodies that are in flight from one socket. */
  function InFlight(w: seq<Frame>, id: Id): seq<Body> {
    if w == [] then []
    else (if w[0].Data? && w[0].localId == id then [w[0].body] else []) + InFlight(w[1..], id)
  }

  lemma OfMore(q: seq<Item>, x: Item, id: Id)
    ensures Of(q + [x], id) == Of(q, id) + if x.id == id then [x.body] else []
  {
    assert (q + [x])[..|q|] == q;
  }

  lemma {:induction false} InFlightMore(w: seq<Frame>, f: Frame, id: Id)
    ensures InFlight(w + [f], id) == InFlight(w, id) + if f.Data? && f.localId == id then [f.body] else []
  {
    if w == [] {
      assert w + [f] == [f] && [f][1..] == [];
    } else {
      assert (w + [f])[0] == w[0] && (w + [f])[1..] == w[1..] + [f];
      InFlightMore(w[1..], f, id);
    }
  }

  /** Nothing is in flight from a socket that is not open. */
  lemma {:induction false} NothingInFlight(m: Sockets, peer: Sockets, w: seq<Frame>, id: Id)
    requires Datas(m, peer, w) && !IsOpen(peer, id)
    ensures InFlight(w, id) == []
  {
    NoneFrom(w, id);
  }

  lemma {:induction false} NoneFrom(w: seq<Frame>, id: Id)
    requires forall k :: 0 <= k < |w| && w[k].Data? ==> w[k].localId != id
    ensures InFlight(w, id) == []
  {
    if w != [] {
      assert forall k :: 0 <= k < |w| - 1 ==> w[1..][k] == w[k + 1];
      NoneFrom(w[1..], id);
    }
  }

  // ---- one direction ----

  /** What a socket has sent is what its peer has handed over, followed by what is in flight; nothing has been
      sent on one that is not open. */
  ghost predicate Flow(m: Sockets, w: seq<Frame>, sent: seq<Item>, taken: seq<Item>, id: Id) {
    Of(sent, id) == if IsOpen(m, id) then Of(taken, m[id].state.remoteId) + InFlight(w, id) else []
  }

  /** The peer of the socket is open to it. */
  predicate Answered(m: Sockets, peer: Sockets, id: Id) {
    IsOpen(m, id) && OpenTo(peer, m[id].state.remoteId, id)
  }

  ghost predicate Direction(m: Sockets, peer: Sockets, w: seq<Frame>, sent: seq<Item>, taken: seq<Item>) {
    && (forall id: Id :: Flow(m, w, sent, taken, id))
    && (forall id: Id {:trigger Answered(peer, m, id)} :: !Answered(peer, m, id) ==> Of(taken, id) == [])
  }

  // The sender's sockets change, and no data comes or goes.
  lemma SenderChanges(m: Sockets, peer: Sockets, w: seq<Frame>, sent: seq<Item>, taken: seq<Item>, m': Sockets, w': seq<Frame>)
    requires Direction(m, peer, w, sent, taken) && Datas(peer, m, w)
    requires forall id: Id :: InFlight(w', id) == InFlight(w, id)
    requires forall id: Id :: IsOpen(m, id) ==> OpenTo(m', id, m[id].state.remoteId)
    requires forall id: Id :: IsOpen(m', id) && !IsOpen(m, id) ==> !Answered(peer, m, m'[id].state.remoteId)
    ensures Direction(m', peer, w', sent, taken)
  {
    forall id: Id ensures Flow(m', w', sent, taken, id) {
      assert Flow(m, w, sent, taken, id);
      if IsOpen(m', id) && !IsOpen(m, id) {
        NothingInFlight(peer, m, w, id);
      }
    }
    forall id: Id | !Answered(peer, m', id) ensures Of(taken, id) == [] {
      assert !Answered(peer, m, id);
    }
  }

  // The receiver's sockets change, and no data comes or goes.
  lemma TakerChanges(m: Sockets, peer: Sockets, w: seq<Frame>, sent: seq<Item>, taken: seq<Item>, peer': Sockets, w': seq<Frame>)
    requires Direction(m, peer, w, sent, taken)
    requires forall id: Id :: InFlight(w', id) == InFlight(w, id)
    requires forall id: Id :: IsOpen(peer, id) ==> OpenTo(peer', id, peer[id].state.remoteId)
    ensures Direction(m, peer', w', sent, taken)
  {
    forall id: Id ensures Flow(m, w', sent, taken, id) {
      assert Flow(m, w, sent, taken, id);
    }
    forall id: Id | !Answered(peer', m, id) ensures Of(taken, id) == [] {
      assert !Answered(peer, m, id);
    }
  }

  lemma SendFlows(m: Sockets, peer: Sockets, w: seq<Frame>, sent: seq<Item>, taken: seq<Item>, id: Id, body: Body)
    requires Direction(m, peer, w, sent, taken) && IsOpen(m, id)
    ensures Direction(m, peer, w + [Data(id, m[id].state.remoteId, body)], sent + [Item(id, body)], taken)
  {
    var f := Data(id, m[id].state.remoteId, body);
    forall i: Id ensures Flow(m, w + [f], sent + [Item(id, body)], taken, i) {
      assert Flow(m, w, sent, taken, i);
      InFlightMore(w, f, i);
      OfMore(sent, Item(id, body), i);
    }
  }

  // One socket when the body at the head of the wire is handed over.
  lemma TakeFlow(m: Sockets, peer: Sockets, w: seq<Frame>, sent: seq<Item>, taken: seq<Item>, id: Id)
    requires Flow(m, w, sent, taken, id) && w != [] && w[0].Data?
    requires OpenTo(m, w[0].localId, w[0].remoteId) && OpenTo(peer, w[0].remoteId, w[0].localId)
    requires IsOpen(m, id) ==> Matched(peer, w, id, m[id].state.remoteId)
    ensures Flow(m, w[1..], sent, taken + [Item(w[0].remoteId, w[0].body)], id)
  {
    if IsOpen(m, id) {
      var r := m[id].state.remoteId;
      OfMore(taken, Item(w[0].remoteId, w[0].body), r);
      if id == w[0].localId {
        Regrouped(Of(taken, r), w[0].body, InFlight(w[1..], id));
      } else {
        assert r != w[0].remoteId;
        Ungrouped(Of(taken, r), InFlight(w[1..], id));
      }
    }
  }

  lemma Regrouped(a: seq<Body>, b: Body, c: seq<Body>)
    ensures (a + [b]) + c == a + ([b] + c)
  {
  }

  lemma Ungrouped(a: seq<Body>, c: seq<Body>)
    ensures (a + []) + c == a + ([] + c)
  {
  }

  lemma TakeFlows(m: Sockets, peer: Sockets, w: seq<Frame>, sent: seq<Item>, taken: seq<Item>)
    requires Direction(m, peer, w, sent, taken) && Agreed(m, peer, w) && w != [] && w[0].Data?
    requires OpenTo(m, w[0].localId, w[0].remoteId) && OpenTo(peer, w[0].remoteId, w[0].localId)
    ensures Direction(m, peer, w[1..], sent, taken + [Item(w[0].remoteId, w[0].body)])
  {
    var x := Item(w[0].remoteId, w[0].body);
    forall id: Id ensures Flow(m, w[1..], sent, taken + [x], id) {
      assert Flow(m, w, sent, taken, id);
      TakeFlow(m, peer, w, sent, taken, id);
    }
    forall id: Id | !Answered(peer, m, id) ensures Of(taken + [x], id) == [] {
      OfMore(taken, x, id);
    }
  }

  // ---- the steps of the first peer ----

  /** Both directions, from the point of view of the first peer. */
  ghost predicate Flows(l: Log) {
    && Inv(l.net)
    && Direction(l.net.a.sockets, l.net.b.sockets, l.net.ab, l.sentA, l.takenB)
    && Direction(l.net.b.sockets, l.net.a.sockets, l.net.ba, l.sentB, l.takenA)
  }

  // The first peer's sockets grow by `m'`, `out` is put on its wire, and a frame without data may be taken from the other.
  lemma QuietStep(l: Log, m': Sockets, out: seq<Frame>, ba': seq<Frame>, u: Log)
    requires Flows(l) && |out| <= 1 && (out != [] ==> !out[0].Data?)
    requires ba' == l.net.ba || (l.net.ba != [] && !l.net.ba[0].Data? && ba' == l.net.ba[1..])
    requires forall id: Id :: IsOpen(l.net.a.sockets, id) ==> OpenTo(m', id, l.net.a.sockets[id].state.remoteId)
    requires forall id: Id :: IsOpen(m', id) && !IsOpen(l.net.a.sockets, id) ==>
               !Answered(l.net.b.sockets, l.net.a.sockets, m'[id].state.remoteId)
    requires u.net.a.sockets == m' && u.net.b == l.net.b && u.net.ab == l.net.ab + out && u.net.ba == ba' && Inv(u.net)
    requires u.sentA == l.sentA && u.takenA == l.takenA && u.sentB == l.sentB && u.takenB == l.takenB
    ensures Flows(u)
  {
    forall id: Id ensures InFlight(u.net.ab, id) == InFlight(l.net.ab, id) {
      if out != [] {
        assert out == [out[0]];
        InFlightMore(l.net.ab, out[0], id);
      } else {
        assert l.net.ab + out == l.net.ab;
      }
    }
    assert forall id: Id :: InFlight(ba', id) == InFlight(l.net.ba, id);
    SenderChanges(l.net.a.sockets, l.net.b.sockets, l.net.ab, l.sentA, l.takenB, m', u.net.ab);
    TakerChanges(l.net.b.sockets, l.net.a.sockets, l.net.ba, l.sentB, l.takenA, m', ba');
  }

  lemma InitiateFlows(l: Log, e: Event, u: Log)
    requires Flows(l) && e.Initiate? && LogFirst(l, e) == Some(u)
    ensures Flows(u)
  {
    StepFirstKeeps(l.net, e, u.net);
    if l.net.a.Full() {
      QuietStep(l, l.net.a.sockets, [], l.net.ba, u);
    } else {
      PutKeepsWf(l.net.a, Socket(Connecting(e.rsp), e.channel));
      QuietStep(l, u.net.a.sockets, [Connect(l.net.a.Next(), e.identity, e.hello)], l.net.ba, u);
    }
  }

  lemma AnswerFlows(l: Log, e: Event, u: Log)
    requires Flows(l) && e.Receive? && Undisturbed(e) && LogFirst(l, e) == Some(u) && (l.net.ba[0].Ack? || l.net.ba[0].Reject?)
    ensures Flows(u)
  {
    var n, f := l.net, l.net.ba[0];
    StepFirstKeeps(n, e, u.net);
    OnlyAnswer(n.a.sockets, n.ab, n.ba, f.remoteId, f);
    QuietStep(l, u.net.a.sockets, [], n.ba[1..], u);
  }

  lemma AcceptFlows(l: Log, e: Event, u: Log)
    requires Flows(l) && e.Receive? && Undisturbed(e) && LogFirst(l, e) == Some(u) && l.net.ba[0].Connect?
    requires e.world.registry.Granted? && !l.net.a.Full()
    ensures Flows(u)
  {
    var n, f := l.net, l.net.ba[0];
    StepFirstKeeps(n, e, u.net);
    PutKeepsWf(n.a, Socket(Open(f.localId), e.world.registry.channel));
    CountPresent(n.ba, f, Asking, f.localId);
    assert IsConnecting(n.b.sockets, f.localId);
    QuietStep(l, u.net.a.sockets, [Ack(n.a.Next(), f.localId)], n.ba[1..], u);
  }

  lemma RefuseFlows(l: Log, e: Event, u: Log)
    requires Flows(l) && e.Receive? && Undisturbed(e) && LogFirst(l, e) == Some(u) && l.net.ba[0].Connect?
    requires e.world.registry.Denied? || l.net.a.Full()
    ensures Flows(u)
  {
    var n, f := l.net, l.net.ba[0];
    StepFirstKeeps(n, e, u.net);
    var reason := if e.world.registry.Denied? then e.world.registry.reason else ConnTableFull(n.a.capacity);
    QuietStep(l, n.a.sockets, [Reject(f.localId, reason)], n.ba[1..], u);
  }

  lemma TakeDataFlows(l: Log, e: Event, u: Log)
    requires Flows(l) && e.Receive? && Undisturbed(e) && LogFirst(l, e) == Some(u) && l.net.ba[0].Data?
    ensures Flows(u)
  {
    var n, f := l.net, l.net.ba[0];
    StepFirstKeeps(n, e, u.net);
    assert Expected(n.a.sockets, n.ba[..0], f.localId, f.remoteId);
    TakeFlows(n.b.sockets, n.a.sockets, n.ba, l.sentB, l.takenA);
    assert u.net == n.(ba := n.ba[1..]) && u.takenA == l.takenA + [Item(f.remoteId, f.body)] && u.sentA == l.sentA;
  }

  lemma SendDataFlows(l: Log, e: Event, u: Log)
    requires Flows(l) && e.SendData? && LogFirst(l, e) == Some(u)
    ensures Flows(u)
  {
    StepFirstKeeps(l.net, e, u.net);
    SendFlows(l.net.a.sockets, l.net.b.sockets, l.net.ab, l.sentA, l.takenB, e.id, e.body);
    assert u.takenA == l.takenA;
  }

  lemma LogFirstKeeps(l: Log, e: Event, u: Log)
    requires Flows(l) && Undisturbed(e) && LogFirst(l, e) == Some(u)
    ensures Flows(u)
  {
    match e
    case Initiate(_, _, _, _) => InitiateFlows(l, e, u);
    case SendData(_, _) => SendDataFlows(l, e, u);
    case CleanUp => assert u == l;
    case Receive(_) =>
      if l.net.ba[0].Data? {
        TakeDataFlows(l, e, u);
      } else if !l.net.ba[0].Connect? {
        AnswerFlows(l, e, u);
      } else if e.world.registry.Granted? && !l.net.a.Full() {
        AcceptFlows(l, e, u);
      } else {
        RefuseFlows(l, e, u);
      }
  }

  lemma {:induction false} LogRunKeeps(l: Log, ms: seq<Move>, u: Log)
    requires Flows(l) && LogRun(l, ms) == Some(u)
    requires forall k :: 0 <= k < |ms| ==> Undisturbed(ms[k].event)
    ensures Flows(u) && Run(l.net, ms) == Some(u.net)
    decreases |ms|
  {
    if ms != [] {
      var front, m := ms[..|ms| - 1], ms[|ms| - 1];
      var mid := LogRun(l, front).value;
      LogRunKeeps(l, front, mid);
      if m.first {
        LogFirstKeeps(mid, m.event, u);
      } else {
        LogFirstKeeps(mid.Swap(), m.event, u.Swap());
      }
    }
  }

  /** In every undisturbed run, what has been sent on a socket is what has been handed to the channel of the
      socket it is open to, in order, followed by what is still in flight: nothing is lost, doubled, reordered
      or handed to another connection. */
  lemma BodiesArriveInOrder(capA: nat, capB: nat, ms: seq<Move>, l: Log, a: Id, b: Id)
    requires LogRun(Log(Start(capA, capB), [], [], [], []), ms) == Some(l)
    requires forall k :: 0 <= k < |ms| ==> Undisturbed(ms[k].event)
    requires OpenTo(l.net.a.sockets, a, b)
    ensures Run(Start(capA, capB), ms) == Some(l.net)
    ensures Of(l.sentA, a) == Of(l.takenB, b) + InFlight(l.net.ab, a)
  {
    var start := Log(Start(capA, capB), [], [], [], []);
    assert Flows(start);
    LogRunKeeps(start, ms, l);
    assert Flow(l.net.a.sockets, l.net.ab, l.sentA, l.takenB, a);
  }
}
