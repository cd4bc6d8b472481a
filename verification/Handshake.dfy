/** Two interfaces joined by two FIFO wires: `Machine::run` on both sides as a step machine over the
    connection tables. */
module Handshake {
  import opened Options
  import opened Connections

  /** The two peers' tables, and the frames in flight from the first to the second and back. */
  datatype Net = Net(a: Table, b: Table, ab: seq<Frame>, ba: seq<Frame>)
  {
    function Swap(): Net { Net(b, a, ba, ab) }
  }

  /** What a peer can do: start a connection that a local client asks for, process the frame at the head of
      its wire, or send what an open socket has. `CloseLocally` is the end of a local stream, and `CleanUp`
      the start of the following `next_outbound`. */
  datatype Event =
    | Initiate(identity: nat, hello: Body, channel: nat, rsp: nat)
    | Receive(world: World)
    | SendData(id: Id, body: Body)
    | CloseLocally(id: Id, why: ResetReason)
    | CleanUp

  /** `first` tells which peer acts. */
  datatype Move = Move(first: bool, event: Event)

  function Reply(w: seq<Frame>, r: Option<Frame>): seq<Frame> {
    if r.Some? then w + [r.value] else w
  }

  function StepFirst(n: Net, e: Event): Option<Net> {
    if n.a.used >= MAX_ID then None else
    match e
    case Initiate(identity, hello, channel, rsp) =>
      (match StartConnecting(n.a, identity, hello, channel, rsp)
       case Panic => None
       case Outcome(t, r, _) => Some(n.(a := t, ab := Reply(n.ab, r))))
    case Receive(w) =>
      if n.ba == [] then None
      else
        (match Inbound(n.a, n.ba[0], w)
         case Panic => None
         case Outcome(t, r, _) => Some(n.(a := t, ab := Reply(n.ab, r), ba := n.ba[1..])))
    case SendData(id, body) =>
      if IsOpen(n.a.sockets, id)
      then Some(n.(ab := n.ab + [Data(id, n.a.sockets[id].state.remoteId, body)])) else None
    case CloseLocally(id, why) =>
      if IsOpen(n.a.sockets, id) && n.a.dead == None
      then Some(n.(a := n.a.(dead := Some(id)), ab := n.ab + [Reset(n.a.sockets[id].state.remoteId, why)]))
      else None
    case CleanUp => Some(n.(a := n.a.Cleaned()))
  }

  function Step(n: Net, m: Move): Option<Net> {
    if m.first then StepFirst(n, m.event)
    else
      match StepFirst(n.Swap(), m.event)
      case None => None
      case Some(u) => Some(u.Swap())
  }

  function Run(n: Net, ms: seq<Move>): Option<Net>
    decreases |ms|
  {
    if ms == [] then Some(n)
    else
      match Run(n, ms[..|ms| - 1])
      case None => None
      case Some(u) => Step(u, ms[|ms| - 1])
  }

  function Start(capA: nat, capB: nat): Net {
    Net(New(capA), New(capB), [], [])
  }

  type Sockets = map<Id, Socket>

  predicate IsOpen(m: Sockets, id: Id) {
    id in m && m[id].state.Open?
  }

  predicate OpenTo(m: Sockets, id: Id, remoteId: Id) {
    id in m && m[id].state == Open(remoteId)
  }

  predicate IsConnecting(m: Sockets, id: Id) {
    id in m && m[id].state.Connecting?
  }

  /** Nobody closes a connection, every frame of data can be decoded and handed over, and the initiator of a
      connection waits for the answer. */
  predicate Undisturbed(e: Event) {
    match e
    case Receive(w) => w.sending.Sent? && w.initiator
    case CloseLocally(_, _) => false
    case _ => true
  }

  // ---- frames that carry a handshake ----

  datatype Role = Asking | Answering

  /** The frame asks for the connection `id` of its sender, or answers the connection `id` of its receiver. */
  predicate Carries(f: Frame, role: Role, id: Id) {
    match f
    case Connect(l, _, _) => role.Asking? && l == id
    case Ack(_, r) => role.Answering? && r == id
    case Reject(r, _) => role.Answering? && r == id
    case _ => false
  }

  function Count(w: seq<Frame>, role: Role, id: Id): nat {
    if w == [] then 0 else (if Carries(w[0], role, id) then 1 else 0) + Count(w[1..], role, id)
  }

  lemma {:induction false} CountAppended(w: seq<Frame>, f: Frame, role: Role, id: Id)
    ensures Count(w + [f], role, id) == Count(w, role, id) + if Carries(f, role, id) then 1 else 0
  {
    if w == [] {
      assert [f][1..] == [] && w + [f] == [f];
    } else {
      assert (w + [f])[0] == w[0] && (w + [f])[1..] == w[1..] + [f];
      CountAppended(w[1..], f, role, id);
    }
  }

  lemma {:induction false} CountPresent(w: seq<Frame>, f: Frame, role: Role, id: Id)
    requires f in w && Carries(f, role, id)
    ensures Count(w, role, id) >= 1
  {
    if w[0] != f {
      assert f in w[1..];
      CountPresent(w[1..], f, role, id);
    }
  }

  // ---- the invariant ----

  /** Each connecting socket has one of CONNECT, ACK and REJECT in flight, and no other ID has any. */
  ghost predicate Tokens(m: Sockets, out: seq<Frame>, inn: seq<Frame>) {
    forall id: Id :: Count(out, Asking, id) + Count(inn, Answering, id) == if IsConnecting(m, id) then 1 else 0
  }

  /** An open socket's peer is open to it, or is connecting and the ACK that will open it is on its way. */
  ghost predicate Agreed(m: Sockets, peer: Sockets, out: seq<Frame>) {
    forall id: Id :: IsOpen(m, id) ==> Matched(peer, out, id, m[id].state.remoteId)
  }

  predicate Matched(peer: Sockets, out: seq<Frame>, id: Id, remoteId: Id) {
    OpenTo(peer, remoteId, id) || (IsConnecting(peer, remoteId) && Ack(id, remoteId) in out)
  }

  /** An ACK names a socket of its sender that is open to the socket it answers. */
  ghost predicate Acks(peer: Sockets, inn: seq<Frame>) {
    forall f :: f in inn && f.Ack? ==> OpenTo(peer, f.localId, f.remoteId)
  }

  /** A frame of data comes from an open socket, for a socket that is open to it or will be by an ACK ahead of it. */
  ghost predicate Datas(m: Sockets, peer: Sockets, inn: seq<Frame>) {
    forall k :: 0 <= k < |inn| && inn[k].Data? ==>
      && OpenTo(peer, inn[k].localId, inn[k].remoteId)
      && Expected(m, inn[..k], inn[k].localId, inn[k].remoteId)
  }

  predicate Expected(m: Sockets, ahead: seq<Frame>, localId: Id, remoteId: Id) {
    OpenTo(m, remoteId, localId) || Ack(localId, remoteId) in ahead
  }

  ghost predicate NoReset(w: seq<Frame>) {
    forall f :: f in w ==> !f.Reset?
  }

  /** What holds from the point of view of the peer with the sockets `m`. */
  ghost predicate Half(m: Sockets, peer: Sockets, out: seq<Frame>, inn: seq<Frame>) {
    Tokens(m, out, inn) && Agreed(m, peer, out) && Acks(peer, inn) && Datas(m, peer, inn) && NoReset(inn)
  }

  ghost predicate Inv(n: Net) {
    && n.a.Wf() && n.b.Wf() && n.a.dead == None && n.b.dead == None
    && Half(n.a.sockets, n.b.sockets, n.ab, n.ba)
    && Half(n.b.sockets, n.a.sockets, n.ba, n.ab)
  }

  // ---- one frame more, one frame less ----

  lemma TokensAfterSend(m: Sockets, out: seq<Frame>, inn: seq<Frame>, f: Frame, m': Sockets)
    requires Tokens(m, out, inn)
    requires forall id: Id :: IsConnecting(m', id) <==> IsConnecting(m, id) || Carries(f, Asking, id)
    requires forall id: Id :: Carries(f, Asking, id) ==> !IsConnecting(m, id)
    ensures Tokens(m', out + [f], inn)
  {
    forall id: Id ensures Count(out + [f], Asking, id) + Count(inn, Answering, id) == if IsConnecting(m', id) then 1 else 0 {
      CountAppended(out, f, Asking, id);
    }
  }

  lemma TokensAfterReceive(m: Sockets, out: seq<Frame>, inn: seq<Frame>, m': Sockets)
    requires Tokens(m, out, inn) && inn != []
    requires forall id: Id :: IsConnecting(m', id) <==> IsConnecting(m, id) && !Carries(inn[0], Answering, id)
    ensures Tokens(m', out, inn[1..])
  {
    forall id: Id ensures Count(out, Asking, id) + Count(inn[1..], Answering, id) == if IsConnecting(m', id) then 1 else 0 {
      assert Count(inn, Answering, id) == (if Carries(inn[0], Answering, id) then 1 else 0) + Count(inn[1..], Answering, id);
    }
  }

  /** The peer answers the CONNECT at the head of its wire. */
  lemma TokensAfterAnswer(m: Sockets, out: seq<Frame>, inn: seq<Frame>, f: Frame)
    requires Tokens(m, out, inn) && out != [] && out[0].Connect?
    requires f.Ack? || f.Reject?
    requires f.remoteId == out[0].localId
    ensures Tokens(m, out[1..], inn + [f])
  {
    forall id: Id ensures Count(out[1..], Asking, id) + Count(inn + [f], Answering, id) == if IsConnecting(m, id) then 1 else 0 {
      CountAppended(inn, f, Answering, id);
      assert Carries(f, Answering, id) <==> Carries(out[0], Asking, id);
    }
  }

  /** The answer at the head of the wire is the only one for its socket, which is connecting. */
  lemma OnlyAnswer(m: Sockets, out: seq<Frame>, inn: seq<Frame>, id: Id, f: Frame)
    requires Tokens(m, out, inn) && inn != [] && Carries(inn[0], Answering, id)
    ensures IsConnecting(m, id)
    ensures f in inn && Carries(f, Answering, id) ==> f == inn[0]
  {
    assert Count(inn, Answering, id) == 1 + Count(inn[1..], Answering, id);
    if f in inn[1..] && Carries(f, Answering, id) {
      CountPresent(inn[1..], f, Answering, id);
    }
  }

  lemma DatasAfterSend(m: Sockets, peer: Sockets, inn: seq<Frame>, f: Frame)
    requires Datas(m, peer, inn)
    requires f.Data? ==> OpenTo(peer, f.localId, f.remoteId) && Expected(m, inn, f.localId, f.remoteId)
    ensures Datas(m, peer, inn + [f])
  {
    var after := inn + [f];
    forall k | 0 <= k < |after| && after[k].Data?
      ensures OpenTo(peer, after[k].localId, after[k].remoteId) && Expected(m, after[..k], after[k].localId, after[k].remoteId)
    {
      assert after[..k] == inn[..k];
      assert inn[..|inn|] == inn;
    }
  }

  lemma DatasAfterReceive(m: Sockets, peer: Sockets, inn: seq<Frame>, m': Sockets)
    requires Datas(m, peer, inn) && inn != []
    requires forall r, l :: OpenTo(m, r, l) ==> OpenTo(m', r, l)
    requires inn[0].Ack? ==> OpenTo(m', inn[0].remoteId, inn[0].localId)
    ensures Datas(m', peer, inn[1..])
  {
    var rest := inn[1..];
    forall k | 0 <= k < |rest| && rest[k].Data?
      ensures OpenTo(peer, rest[k].localId, rest[k].remoteId) && Expected(m', rest[..k], rest[k].localId, rest[k].remoteId)
    {
      assert inn[k + 1] == rest[k] && inn[..k + 1] == [inn[0]] + rest[..k];
      assert Expected(m, inn[..k + 1], rest[k].localId, rest[k].remoteId);
    }
  }

  lemma DatasWithMore(m: Sockets, peer: Sockets, inn: seq<Frame>, m': Sockets, peer': Sockets)
    requires Datas(m, peer, inn)
    requires forall r, l :: OpenTo(m, r, l) ==> OpenTo(m', r, l)
    requires forall r, l :: OpenTo(peer, r, l) ==> OpenTo(peer', r, l)
    ensures Datas(m', peer', inn)
  {
    forall k | 0 <= k < |inn| && inn[k].Data?
      ensures OpenTo(peer', inn[k].localId, inn[k].remoteId) && Expected(m', inn[..k], inn[k].localId, inn[k].remoteId)
    {
      assert Expected(m, inn[..k], inn[k].localId, inn[k].remoteId);
    }
  }

  // ---- the steps ----

  lemma InitiateKeeps(n: Net, e: Event, u: Net)
    requires Inv(n) && e.Initiate? && StepFirst(n, e) == Some(u)
    ensures Inv(u)
  {
    if n.a.Full() {
      assert u == n;
    } else {
      var id, socket := n.a.Next(), Socket(Connecting(e.rsp), e.channel);
      var f := Connect(id, e.identity, e.hello);
      PutKeepsWf(n.a, socket);
      assert u == n.(a := n.a.Put(socket), ab := n.ab + [f]);
      TokensAfterSend(n.a.sockets, n.ab, n.ba, f, u.a.sockets);
      TokensUnaffected(n.b.sockets, n.ba, n.ab, f);
      DatasWithMore(n.a.sockets, n.b.sockets, n.ba, u.a.sockets, n.b.sockets);
      DatasAfterSend(n.b.sockets, n.a.sockets, n.ab, f);
      DatasWithMore(n.b.sockets, n.a.sockets, u.ab, n.b.sockets, u.a.sockets);
    }
  }

  // A frame that carries nothing changes no count.
  lemma TokensUnaffected(m: Sockets, out: seq<Frame>, inn: seq<Frame>, f: Frame)
    requires Tokens(m, out, inn) && !f.Ack? && !f.Reject?
    ensures Tokens(m, out, inn + [f])
  {
    forall id: Id ensures Count(out, Asking, id) + Count(inn + [f], Answering, id) == if IsConnecting(m, id) then 1 else 0 {
      CountAppended(inn, f, Answering, id);
    }
  }

  lemma SendDataKeeps(n: Net, e: Event, u: Net)
    requires Inv(n) && e.SendData? && StepFirst(n, e) == Some(u)
    ensures Inv(u)
  {
    var r := n.a.sockets[e.id].state.remoteId;
    var f := Data(e.id, r, e.body);
    assert u == n.(ab := n.ab + [f]);
    assert Matched(n.b.sockets, n.ab, e.id, r);
    TokensAfterSend(n.a.sockets, n.ab, n.ba, f, n.a.sockets);
    TokensUnaffected(n.b.sockets, n.ba, n.ab, f);
    DatasAfterSend(n.b.sockets, n.a.sockets, n.ab, f);
  }

  lemma ReceiveDataKeeps(n: Net, e: Event, u: Net)
    requires Inv(n) && e.Receive? && Undisturbed(e) && StepFirst(n, e) == Some(u) && n.ba[0].Data?
    ensures Inv(u)
  {
    var f := n.ba[0];
    assert Expected(n.a.sockets, n.ba[..0], f.localId, f.remoteId);
    assert u == n.(ba := n.ba[1..]);
    TokensAfterReceive(n.a.sockets, n.ab, n.ba, n.a.sockets);
    TokensSentOn(n.b.sockets, n.ba, n.ab);
    DatasAfterReceive(n.a.sockets, n.b.sockets, n.ba, n.a.sockets);
  }

  // The peer's frame has been received and did not ask for a connection.
  lemma TokensSentOn(m: Sockets, out: seq<Frame>, inn: seq<Frame>)
    requires Tokens(m, out, inn) && out != [] && !out[0].Connect?
    ensures Tokens(m, out[1..], inn)
  {
    forall id: Id ensures Count(out[1..], Asking, id) + Count(inn, Answering, id) == if IsConnecting(m, id) then 1 else 0 {
      assert Count(out, Asking, id) == Count(out[1..], Asking, id);
    }
  }

  lemma ReceiveAckKeeps(n: Net, e: Event, u: Net)
    requires Inv(n) && e.Receive? && Undisturbed(e) && StepFirst(n, e) == Some(u) && n.ba[0].Ack?
    ensures Inv(u)
  {
    var f := n.ba[0];
    var l, r := f.localId, f.remoteId;
    OnlyAnswer(n.a.sockets, n.ab, n.ba, r, f);
    var m' := n.a.sockets[r := n.a.sockets[r].(state := Open(l))];
    assert u == n.(a := n.a.(sockets := m'), ba := n.ba[1..]);
    assert m'.Keys == n.a.sockets.Keys;
    TokensAfterReceive(n.a.sockets, n.ab, n.ba, m');
    TokensSentOn(n.b.sockets, n.ba, n.ab);
    DatasAfterReceive(n.a.sockets, n.b.sockets, n.ba, m');
    DatasWithMore(n.b.sockets, n.a.sockets, n.ab, n.b.sockets, m');
    forall id: Id | IsOpen(n.b.sockets, id) ensures Matched(m', n.ba[1..], id, n.b.sockets[id].state.remoteId) {
      var y := n.b.sockets[id].state.remoteId;
      assert Matched(n.a.sockets, n.ba, id, y);
      if y == r {
        OnlyAnswer(n.a.sockets, n.ab, n.ba, r, Ack(id, r));
      }
    }
    forall id: Id | IsOpen(m', id) ensures Matched(n.b.sockets, n.ab, id, m'[id].state.remoteId) {
      if id != r {
        assert IsOpen(n.a.sockets, id);
      }
    }
  }

  lemma ReceiveRejectKeeps(n: Net, e: Event, u: Net)
    requires Inv(n) && e.Receive? && Undisturbed(e) && StepFirst(n, e) == Some(u) && n.ba[0].Reject?
    ensures Inv(u)
  {
    var f := n.ba[0];
    var r := f.remoteId;
    OnlyAnswer(n.a.sockets, n.ab, n.ba, r, f);
    RemoveKeepsWf(n.a, r);
    var m' := n.a.sockets - {r};
    assert u == n.(a := n.a.Remove(r), ba := n.ba[1..]);
    TokensAfterReceive(n.a.sockets, n.ab, n.ba, m');
    TokensSentOn(n.b.sockets, n.ba, n.ab);
    DatasAfterReceive(n.a.sockets, n.b.sockets, n.ba, m');
    DatasWithMore(n.b.sockets, n.a.sockets, n.ab, n.b.sockets, m');
    forall id: Id | IsOpen(n.b.sockets, id) ensures Matched(m', n.ba[1..], id, n.b.sockets[id].state.remoteId) {
      var y := n.b.sockets[id].state.remoteId;
      assert Matched(n.a.sockets, n.ba, id, y);
      if y == r {
        OnlyAnswer(n.a.sockets, n.ab, n.ba, r, Ack(id, r));
      }
    }
    forall id: Id | IsOpen(m', id) ensures Matched(n.b.sockets, n.ab, id, m'[id].state.remoteId) {
      assert IsOpen(n.a.sockets, id);
    }
  }

  lemma ReceiveConnectKeeps(n: Net, e: Event, u: Net)
    requires Inv(n) && e.Receive? && Undisturbed(e) && StepFirst(n, e) == Some(u) && n.ba[0].Connect?
    ensures Inv(u)
  {
    var l, w := n.ba[0].localId, e.world;
    if w.registry.Granted? && !n.a.Full() {
      AcceptKeeps(n, l, w.registry.channel, u);
    } else {
      var reason := if w.registry.Denied? then w.registry.reason else ConnTableFull(n.a.capacity);
      var f := Reject(l, reason);
      assert u == n.(ab := n.ab + [f], ba := n.ba[1..]);
      TokensAfterAnswer(n.b.sockets, n.ba, n.ab, f);
      TokensAfterReceive(n.a.sockets, n.ab, n.ba, n.a.sockets);
      TokensAfterSend(n.a.sockets, n.ab, n.ba[1..], f, n.a.sockets);
      DatasAfterReceive(n.a.sockets, n.b.sockets, n.ba, n.a.sockets);
      DatasAfterSend(n.b.sockets, n.a.sockets, n.ab, f);
    }
  }

  lemma AcceptKeeps(n: Net, l: Id, channel: nat, u: Net)
    requires Inv(n) && n.ba != [] && n.ba[0].Connect? && n.ba[0].localId == l && !n.a.Full() && !n.a.Overflows()
    requires u == n.(a := n.a.Put(Socket(Open(l), channel)), ab := n.ab + [Ack(n.a.Next(), l)], ba := n.ba[1..])
    ensures Inv(u)
  {
    var id, socket := n.a.Next(), Socket(Open(l), channel);
    var f, m' := Ack(id, l), u.a.sockets;
    PutKeepsWf(n.a, socket);
    CountPresent(n.ba, n.ba[0], Asking, l);
    assert IsConnecting(n.b.sockets, l);
    TokensAfterAnswer(n.b.sockets, n.ba, n.ab, f);
    TokensAfterReceive(n.a.sockets, n.ab, n.ba, m');
    TokensAfterSend(m', n.ab, n.ba[1..], f, m');
    DatasAfterReceive(n.a.sockets, n.b.sockets, n.ba, m');
    DatasAfterSend(n.b.sockets, n.a.sockets, n.ab, f);
    DatasWithMore(n.b.sockets, n.a.sockets, u.ab, n.b.sockets, m');
    forall i: Id | IsOpen(n.b.sockets, i) ensures Matched(m', n.ba[1..], i, n.b.sockets[i].state.remoteId) {
      assert Matched(n.a.sockets, n.ba, i, n.b.sockets[i].state.remoteId);
    }
    forall i: Id | IsOpen(m', i) ensures Matched(n.b.sockets, u.ab, i, m'[i].state.remoteId) {
      if i != id {
        assert Matched(n.b.sockets, n.ab, i, n.a.sockets[i].state.remoteId);
      }
    }
  }

  lemma StepFirstKeeps(n: Net, e: Event, u: Net)
    requires Inv(n) && Undisturbed(e) && StepFirst(n, e) == Some(u)
    ensures Inv(u)
  {
    match e
    case Initiate(_, _, _, _) => InitiateKeeps(n, e, u);
    case SendData(_, _) => SendDataKeeps(n, e, u);
    case CleanUp =>
    case Receive(_) =>
      var f := n.ba[0];
      if f.Data? {
        ReceiveDataKeeps(n, e, u);
      } else if f.Ack? {
        ReceiveAckKeeps(n, e, u);
      } else if f.Reject? {
        ReceiveRejectKeeps(n, e, u);
      } else {
        ReceiveConnectKeeps(n, e, u);
      }
  }

  lemma StepKeeps(n: Net, m: Move, u: Net)
    requires Inv(n) && Undisturbed(m.event) && Step(n, m) == Some(u)
    ensures Inv(u)
  {
    if m.first {
      StepFirstKeeps(n, m.event, u);
    } else {
      StepFirstKeeps(n.Swap(), m.event, u.Swap());
    }
  }

  lemma {:induction false} RunKeeps(n: Net, ms: seq<Move>, u: Net)
    requires Inv(n) && Run(n, ms) == Some(u)
    requires forall k :: 0 <= k < |ms| ==> Undisturbed(ms[k].event)
    ensures Inv(u)
    decreases |ms|
  {
    if ms != [] {
      var front := ms[..|ms| - 1];
      RunKeeps(n, front, Run(n, front).value);
      StepKeeps(Run(n, front).value, ms[|ms| - 1], u);
    }
  }

  lemma EveryRun(capA: nat, capB: nat, ms: seq<Move>, n: Net)
    requires Run(Start(capA, capB), ms) == Some(n)
    requires forall k :: 0 <= k < |ms| ==> Undisturbed(ms[k].event)
    ensures Inv(n)
  {
    RunKeeps(Start(capA, capB), ms, n);
  }

  // ---- what holds in every undisturbed run ----

  ghost predicate Reachable(n: Net) {
    exists capA, capB, ms :: UndisturbedRun(capA, capB, ms, n)
  }

  ghost predicate UndisturbedRun(capA: nat, capB: nat, ms: seq<Move>, n: Net) {
    Run(Start(capA, capB), ms) == Some(n) && forall k :: 0 <= k < |ms| ==> Undisturbed(ms[k].event)
  }

  lemma ReachableInv(n: Net)
    requires Reachable(n)
    ensures Inv(n)
  {
    var capA, capB, ms :| UndisturbedRun(capA, capB, ms, n);
    EveryRun(capA, capB, ms, n);
  }

  /** The ACK is in flight, and any data between the two is behind it. */
  ghost predicate AckAhead(w: seq<Frame>, a: Id, b: Id) {
    && Ack(a, b) in w
    && (forall k :: 0 <= k < |w| && w[k].Data? && w[k].localId == a && w[k].remoteId == b ==> Ack(a, b) in w[..k])
  }

  /** Whenever a socket of one peer is open to a socket of the other, that one is open to it, or is still
      connecting while the ACK that opens it is in flight ahead of all data between the two. */
  lemma Agreement(n: Net, a: Id, b: Id)
    requires Reachable(n) && OpenTo(n.a.sockets, a, b)
    ensures OpenTo(n.b.sockets, b, a) || (IsConnecting(n.b.sockets, b) && AckAhead(n.ab, a, b))
  {
    ReachableInv(n);
    assert Matched(n.b.sockets, n.ab, a, b);
    forall k | 0 <= k < |n.ab| && n.ab[k].Data? && n.ab[k].localId == a && n.ab[k].remoteId == b
      ensures OpenTo(n.b.sockets, b, a) || Ack(a, b) in n.ab[..k]
    {
      assert Expected(n.b.sockets, n.ab[..k], a, b);
    }
  }

  /** No RESET is ever put on a wire, and a connecting socket has exactly one of its CONNECT, its ACK and
      its REJECT in flight, while every other ID has none. */
  lemma OneHandshakeFrame(n: Net, id: Id)
    requires Reachable(n)
    ensures Count(n.ab, Asking, id) + Count(n.ba, Answering, id) == if IsConnecting(n.a.sockets, id) then 1 else 0
    ensures NoReset(n.ab) && NoReset(n.ba)
  {
    ReachableInv(n);
  }

  /** Data that arrives is handed to the channel of the socket that is open to its sender. */
  lemma DataIsHandedOver(n: Net, w: World)
    requires Reachable(n) && n.ba != [] && n.ba[0].Data? && w.sending.Sent?
    ensures n.a.Wf() && OpenTo(n.a.sockets, n.ba[0].remoteId, n.ba[0].localId) && OpenTo(n.b.sockets, n.ba[0].localId, n.ba[0].remoteId)
    ensures Inbound(n.a, n.ba[0], w) == Outcome(n.a, None, [Handed(n.a.sockets[n.ba[0].remoteId].channel, n.ba[0].body)])
  {
    ReachableInv(n);
    assert Expected(n.a.sockets, n.ba[..0], n.ba[0].localId, n.ba[0].remoteId);
  }

  /** When nothing is in flight, no socket is connecting and the open sockets are paired off. */
  lemma Paired(n: Net, a: Id, b: Id)
    requires Reachable(n) && n.ab == [] && n.ba == []
    ensures !IsConnecting(n.a.sockets, a) && !IsConnecting(n.b.sockets, b)
    ensures OpenTo(n.a.sockets, a, b) <==> OpenTo(n.b.sockets, b, a)
  {
    ReachableInv(n);
    assert IsOpen(n.a.sockets, a) ==> Matched(n.b.sockets, n.ab, a, n.a.sockets[a].state.remoteId);
    assert IsOpen(n.b.sockets, b) ==> Matched(n.a.sockets, n.ba, b, n.b.sockets[b].state.remoteId);
  }

  lemma {:induction false} SwapRun(n: Net, ms: seq<Move>)
    ensures Run(n.Swap(), Mirrored(ms)) == match Run(n, ms) case None => None case Some(u) => Some(u.Swap())
    decreases |ms|
  {
    if ms != [] {
      var front := ms[..|ms| - 1];
      SwapRun(n, front);
      assert Mirrored(ms)[..|ms| - 1] == Mirrored(front);
    }
  }

  function Mirrored(ms: seq<Move>): (r: seq<Move>)
    ensures |r| == |ms|
  {
    seq(|ms|, (k: nat) requires k < |ms| => Move(!ms[k].first, ms[k].event))
  }

  /** What is proved of one peer in every run holds of the other. */
  lemma BothPeers(n: Net)
    requires Reachable(n)
    ensures Reachable(n.Swap())
  {
    var capA, capB, ms :| UndisturbedRun(capA, capB, ms, n);
    SwapRun(Start(capA, capB), ms);
    assert UndisturbedRun(capB, capA, Mirrored(ms), n.Swap());
  }

  lemma Extend(n: Net, ms: seq<Move>, m: Net, x: Move)
    requires Run(n, ms) == Some(m)
    ensures Run(n, ms + [x]) == Step(m, x)
  {
    assert (ms + [x])[..|ms|] == ms;
  }

  lemma Before(n: Net, ms: seq<Move>, u: Net) returns (m: Net)
    requires ms != [] && Run(n, ms) == Some(u)
    ensures Run(n, ms[..|ms| - 1]) == Some(m) && Step(m, ms[|ms| - 1]) == Some(u)
  {
    m := Run(n, ms[..|ms| - 1]).value;
  }

  lemma LastBehind(ms: seq<Move>, ls: seq<Move>)
    ensures ls == [] ==> ms + ls == ms
    ensures ls != [] ==> (ms + ls[..|ls| - 1]) + [ls[|ls| - 1]] == ms + ls
  {
  }

  lemma {:induction false} Continue(n: Net, ms: seq<Move>, m: Net, ls: seq<Move>, u: Net)
    requires Run(n, ms) == Some(m) && Run(m, ls) == Some(u)
    ensures Run(n, ms + ls) == Some(u)
    decreases |ls|
  {
    LastBehind(ms, ls);
    if ls != [] {
      var m' := Before(m, ls, u);
      Continue(n, ms, m, ls[..|ls| - 1], m');
      Extend(n, ms + ls[..|ls| - 1], m', ls[|ls| - 1]);
    }
  }

  // ---- with local closes ----

  lemma {:induction false} RunFirst(n: Net, m: Move, ms: seq<Move>)
    ensures Run(n, [m] + ms) == match Step(n, m) case None => None case Some(u) => Run(u, ms)
    decreases |ms|
  {
    if ms == [] {
      assert [m] + ms == [m] && [m][..0] == [];
    } else {
      var front, all := ms[..|ms| - 1], [m] + ms;
      RunFirst(n, m, front);
      assert all[..|all| - 1] == [m] + front && all[|all| - 1] == ms[|ms| - 1];
    }
  }

  /** From every reachable state with nothing in flight and room on both sides, a connection that is started,
      granted and acknowledged is open on both sides, under IDs that were free, with the channels of its two ends. */
  lemma HandshakeCompletes(n: Net, e: Event, granted: World, acked: World) returns (u: Net, a: Id, b: Id)
    requires Reachable(n) && n.ab == [] && n.ba == []
    requires !n.a.Full() && !n.a.Overflows() && !n.b.Full() && !n.b.Overflows()
    requires e.Initiate? && granted.registry.Granted? && acked.initiator
    ensures Run(n, [Move(true, e)] + ([Move(false, Receive(granted))] + [Move(true, Receive(acked))])) == Some(u)
    ensures a !in n.a.sockets && u.a.sockets == n.a.sockets[a := Socket(Open(b), e.channel)]
    ensures b !in n.b.sockets && u.b.sockets == n.b.sockets[b := Socket(Open(a), granted.registry.channel)]
    ensures u.ab == [] && u.ba == []
  {
    ReachableInv(n);
    a, b := n.a.Next(), n.b.Next();
    var connecting := Socket(Connecting(e.rsp), e.channel);
    var accepted := Socket(Open(a), granted.registry.channel);
    PutKeepsWf(n.a, connecting);
    PutKeepsWf(n.b, accepted);
    OneFrame(Connect(a, e.identity, e.hello));
    OneFrame(Ack(b, a));
    var n1 := Net(n.a.Put(connecting), n.b, [Connect(a, e.identity, e.hello)], []);
    var n2 := Net(n1.a, n.b.Put(accepted), [], [Ack(b, a)]);
    u := Net(n1.a.(sockets := n1.a.sockets[a := Socket(Open(b), e.channel)]), n2.b, [], []);
    assert n1.a.sockets[a := Socket(Open(b), e.channel)] == n.a.sockets[a := Socket(Open(b), e.channel)];
    assert Step(n, Move(true, e)) == Some(n1);
    assert Step(n1, Move(false, Receive(granted))) == Some(n2);
    assert Step(n2, Move(true, Receive(acked))) == Some(u);
    RunFirst(n, Move(true, e), [Move(false, Receive(granted))] + [Move(true, Receive(acked))]);
    RunFirst(n1, Move(false, Receive(granted)), [Move(true, Receive(acked))]);
    assert [Move(true, Receive(acked))][..0] == [];
  }

  // Sockets put into an empty table, acknowledged, and removed.
  lemma OneSocket(s: Socket, t: Socket)
    ensures map[][(1 as Id) := s] == map[1 := s] && map[(1 as Id) := s][1 := t] == map[1 := t]
    ensures map[(1 as Id) := s] - {1} == map[]
  {
  }

  function InitiateMove(rsp: nat): Move {
    Move(true, Initiate(0, [], 0, rsp))
  }

  function ReceiveMove(first: bool): Move {
    Move(first, Receive(World(Granted(0), Sent, true)))
  }

  function CloseMove(first: bool, id: Id): Move {
    Move(first, CloseLocally(id, BecauseISaidSo))
  }

  // A table that has handed out ID 1 only.
  function Single(capacity: nat, state: SocketState): Table {
    Table(capacity, map[1 := Socket(state, 0)], [], 1, None)
  }

  function Vacated(capacity: nat): Table {
    Table(capacity, map[], [1], 1, None)
  }

  lemma SingleSteps(capacity: nat, rsp: nat)
    requires capacity > 0
    ensures StartConnecting(New(capacity), 0, [], 0, rsp) == Outcome(Single(capacity, Connecting(rsp)), Some(Connect(1, 0, [])), [])
    ensures StartConnecting(Vacated(capacity), 0, [], 0, rsp) == Outcome(Single(capacity, Connecting(rsp)), Some(Connect(1, 0, [])), [])
    ensures InboundConnect(New(capacity), 1, World(Granted(0), Sent, true)) == Outcome(Single(capacity, Open(1)), Some(Ack(1, 1)), [])
    ensures InboundAck(Single(capacity, Connecting(rsp)), 1, 1, World(Granted(0), Sent, true))
            == Outcome(Single(capacity, Open(1)), None, [Told(rsp, None)])
    ensures InboundReset(Single(capacity, Connecting(rsp)), 1, BecauseISaidSo) == Outcome(Vacated(capacity), None, [])
    ensures Single(capacity, Open(1)).(dead := Some(1)).Cleaned() == Vacated(capacity)
  {
    OneSocket(Socket(Connecting(rsp), 0), Socket(Open(1), 0));
    OneSocket(Socket(Open(1), 0), Socket(Open(1), 0));
    var none: seq<Id> := [];
    assert [(1 as Id)] + none == [1] && [(1 as Id)][1..] == [];
  }

  lemma OneFrame(f: Frame)
    ensures [f][1..] == [] && ([f] + [])[1..] == [] && [] + [f] == [f]
  {
  }

  // A connection is opened, with ID 1 on both sides.
  lemma OpeningRun(capA: nat, capB: nat, rsp: nat, ms: seq<Move>) returns (n: Net)
    requires capA > 0 && capB > 0
    ensures n == Net(Single(capA, Open(1)), Single(capB, Open(1)), [], [])
    ensures Run(Start(capA, capB), [InitiateMove(rsp)] + ([ReceiveMove(false)] + ([ReceiveMove(true)] + ms))) == Run(n, ms)
  {
    SingleSteps(capA, rsp);
    SingleSteps(capB, rsp);
    OneFrame(Connect(1, 0, []));
    OneFrame(Ack(1, 1));
    var n0 := Start(capA, capB);
    var n1 := Net(Single(capA, Connecting(rsp)), New(capB), [Connect(1, 0, [])], []);
    var n2 := Net(n1.a, Single(capB, Open(1)), [], [Ack(1, 1)]);
    n := Net(Single(capA, Open(1)), Single(capB, Open(1)), [], []);
    assert Step(n0, InitiateMove(rsp)) == Some(n1);
    assert Step(n1, ReceiveMove(false)) == Some(n2);
    assert Step(n2, ReceiveMove(true)) == Some(n);
    RunFirst(n0, InitiateMove(rsp), [ReceiveMove(false)] + ([ReceiveMove(true)] + ms));
    RunFirst(n1, ReceiveMove(false), [ReceiveMove(true)] + ms);
    RunFirst(n2, ReceiveMove(true), ms);
  }

  // Both peers close it, and the first cleans up and starts another, again with ID 1.
  lemma ClosingRun(capA: nat, capB: nat, rsp: nat, n0: Net) returns (n: Net)
    requires capA > 0 && capB > 0 && n0 == Net(Single(capA, Open(1)), Single(capB, Open(1)), [], [])
    ensures n == Net(Single(capA, Connecting(rsp)), Single(capB, Open(1)).(dead := Some(1)),
                     [Reset(1, BecauseISaidSo), Connect(1, 0, [])], [Reset(1, BecauseISaidSo)])
    ensures Run(n0, [CloseMove(true, 1)] + ([CloseMove(false, 1)] + ([Move(true, CleanUp)] + ([InitiateMove(rsp)] + [])))) == Some(n)
  {
    var none: seq<Move> := [];
    var reset := Reset(1, BecauseISaidSo);
    SingleSteps(capA, rsp);
    OneFrame(reset);
    assert [reset] + [Connect(1, 0, [])] == [reset, Connect(1, 0, [])];
    var n1 := Net(n0.a.(dead := Some(1)), n0.b, [reset], []);
    var n2 := Net(n1.a, n0.b.(dead := Some(1)), [reset], [reset]);
    var n3 := Net(Vacated(capA), n2.b, [reset], [reset]);
    n := Net(Single(capA, Connecting(rsp)), n2.b, [reset, Connect(1, 0, [])], [reset]);
    assert Step(n0, CloseMove(true, 1)) == Some(n1);
    assert Step(n1, CloseMove(false, 1)) == Some(n2);
    assert Step(n2, Move(true, CleanUp)) == Some(n3);
    assert Step(n3, InitiateMove(rsp)) == Some(n);
    RunFirst(n0, CloseMove(true, 1), [CloseMove(false, 1)] + ([Move(true, CleanUp)] + ([InitiateMove(rsp)] + none)));
    RunFirst(n1, CloseMove(false, 1), [Move(true, CleanUp)] + ([InitiateMove(rsp)] + none));
    RunFirst(n2, Move(true, CleanUp), [InitiateMove(rsp)] + none);
    RunFirst(n3, InitiateMove(rsp), none);
  }

  /** Both peers close the connection, the first one starts another, which gets the same ID at once, and
      the RESET that the second one sent for the old connection removes the new one: it is gone although its
      CONNECT is still in flight, and its initiator is never told. So agreement needs its hypothesis. */
  lemma LateResetRemovesANewConnection(capA: nat, capB: nat, rsp: nat) returns (ms: seq<Move>, n: Net, u: Net)
    requires capA > 0 && capB > 0
    ensures Run(Start(capA, capB), ms) == Some(n) && Step(n, ReceiveMove(true)) == Some(u)
    ensures IsConnecting(n.a.sockets, 1) && Connect(1, 0, []) in u.ab && u.a.sockets == map[]
    ensures n.ba != [] && Inbound(n.a, n.ba[0], ReceiveMove(true).event.world).effects == []
  {
    var rest := [CloseMove(true, 1)] + ([CloseMove(false, 1)] + ([Move(true, CleanUp)] + ([InitiateMove(rsp)] + [])));
    ms := [InitiateMove(rsp)] + ([ReceiveMove(false)] + ([ReceiveMove(true)] + rest));
    var n0 := OpeningRun(capA, capB, rsp, rest);
    n := ClosingRun(capA, capB, rsp, n0);
    SingleSteps(capA, rsp);
    u := Step(n, ReceiveMove(true)).value;
    assert n.ab[1] == Connect(1, 0, []);
  }
}
