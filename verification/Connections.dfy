/** What a connection table means: a bounded map from connection IDs to sockets, the stack of IDs that
    have been used and are free again, and how each frame of the protocol acts on it. */
module Connections {
  import opened Options

  /** A connection ID: a non-zero 16-bit word. ID 0 is the link-control channel. */
  type Id = n: int | 1 <= n <= MAX_ID witness 1

  const MAX_ID: nat := 0xFFFF

  type Body = seq<nat>

  datatype Rejection = ConnTableFull(capacity: nat) | NotFound | ServiceRejected | DecodeFailed(error: nat)

  datatype ResetReason = BecauseISaidSo | YouDoneGoofed(error: nat) | NoSuchConn | YesSuchConn | GoAway

  /** A frame, with the header's `local_id` and `remote_id` as its sender sees them. */
  datatype Frame =
    | Connect(localId: Id, identity: nat, hello: Body)
    | Data(localId: Id, remoteId: Id, body: Body)
    | Ack(localId: Id, remoteId: Id)
    | Reject(remoteId: Id, reason: Rejection)
    | Reset(remoteId: Id, why: ResetReason)

  /** `Connecting` holds the response channel of the local initiator. */
  datatype SocketState = Open(remoteId: Id) | Connecting(rsp: nat)

  datatype Socket = Socket(state: SocketState, channel: nat)

  datatype Table = Table(capacity: nat, sockets: map<Id, Socket>, chain: seq<Id>, used: nat, dead: Option<Id>)
  {
    /** IDs 1 to `used` have been handed out; each is in use or once on the stack of closed ones. */
    ghost predicate Wf() {
      && used <= capacity && used < MAX_ID
      && (forall id: Id :: id in sockets || id in chain <==> id <= used)
      && (forall id :: id in chain ==> id !in sockets)
      && (forall j, k :: 0 <= j < k < |chain| ==> chain[j] != chain[k])
      && |sockets| + |chain| == used
    }

    /** The ID that the next insertion gets. */
    function Next(): (id: Id)
      requires used < MAX_ID
    {
      if chain == [] then used + 1 else chain[0]
    }

    predicate Full() {
      |sockets| == capacity
    }

    /** The insertion that takes the last ID of the 16-bit range for the first time cannot name a next one. */
    predicate Overflows() {
      !Full() && chain == [] && used + 1 == MAX_ID
    }

    function Put(socket: Socket): Table
      requires used < MAX_ID
    {
      this.(sockets := sockets[Next() := socket], chain := if chain == [] then [] else chain[1..],
            used := if chain == [] then used + 1 else used)
    }

    function Remove(id: Id): Table {
      this.(sockets := sockets - {id}, chain := if id in sockets then [id] + chain else chain)
    }

    /** `cleanup_dead`. */
    function Cleaned(): Table {
      match dead
      case None => this
      case Some(id) => Remove(id).(dead := None)
    }
  }

  function New(capacity: nat): Table {
    Table(capacity, map[], [], 0, None)
  }

  /** What the outside answers while a frame is processed: the registry, the local channel that data goes
      to, and whether the local initiator of a connection is still waiting. */
  datatype World = World(registry: Answer, sending: Sending, initiator: bool)
  datatype Answer = Granted(channel: nat) | Denied(reason: Rejection)
  datatype Sending = Sent | Undecodable(error: nat) | Gone | Failed(why: ResetReason)

  /** What the table tells the outside. `Told` answers an initiator; no rejection means accepted. */
  datatype Effect =
    | Told(rsp: nat, rejection: Option<Rejection>)
    | Handed(channel: nat, body: Body)
    | ClosedWith(channel: nat, why: ResetReason)

  datatype Outcome = Panic | Outcome(table: Table, reply: Option<Frame>, effects: seq<Effect>)

  function InboundData(t: Table, l: Id, r: Id, body: Body, w: World): Outcome {
    if r !in t.sockets || t.sockets[r].state != Open(l) then Outcome(t, Some(Reset(l, NoSuchConn)), [])
    else
      match w.sending
      case Sent => Outcome(t, None, [Handed(t.sockets[r].channel, body)])
      case Undecodable(e) => Outcome(t.Remove(r), Some(Reset(l, YouDoneGoofed(e))), [])
      case Gone => Outcome(t.Remove(r), Some(Reset(l, BecauseISaidSo)), [])
      case Failed(why) => Outcome(t.Remove(r), Some(Reset(l, why)), [])
  }

  function InboundAck(t: Table, l: Id, r: Id, w: World): Outcome {
    if r !in t.sockets then Outcome(t, Some(Reset(l, NoSuchConn)), [])
    else
      match t.sockets[r].state
      case Open(_) => Outcome(t, Some(Reset(l, YesSuchConn)), [])
      case Connecting(rsp) =>
        Outcome(t.(sockets := t.sockets[r := t.sockets[r].(state := Open(l))]),
                if w.initiator then None else Some(Reset(l, BecauseISaidSo)), [Told(rsp, None)])
  }

  function InboundReject(t: Table, r: Id, reason: Rejection): Outcome {
    Outcome(t.Remove(r), None,
            if r in t.sockets && t.sockets[r].state.Connecting? then [Told(t.sockets[r].state.rsp, Some(reason))] else [])
  }

  function InboundReset(t: Table, r: Id, why: ResetReason): Outcome {
    Outcome(t.Remove(r), None,
            if r in t.sockets && t.sockets[r].state.Open? then [ClosedWith(t.sockets[r].channel, why)] else [])
  }

  function InboundConnect(t: Table, l: Id, w: World): Outcome
    requires t.used < MAX_ID
  {
    match w.registry
    case Denied(reason) => Outcome(t, Some(Reject(l, reason)), [])
    case Granted(channel) =>
      if t.Full() then Outcome(t, Some(Reject(l, ConnTableFull(t.capacity))), [])
      else if t.Overflows() then Panic
      else Outcome(t.Put(Socket(Open(l), channel)), Some(Ack(t.Next(), l)), [])
  }

  /** `process_inbound`. */
  function Inbound(t: Table, f: Frame, w: World): Outcome
    requires t.used < MAX_ID
  {
    match f
    case Data(l, r, body) => InboundData(t, l, r, body, w)
    case Ack(l, r) => InboundAck(t, l, r, w)
    case Reject(r, reason) => InboundReject(t, r, reason)
    case Reset(r, why) => InboundReset(t, r, why)
    case Connect(l, _, _) => InboundConnect(t, l, w)
  }

  /** `start_connecting`. */
  function StartConnecting(t: Table, identity: nat, hello: Body, channel: nat, rsp: nat): Outcome
    requires t.used < MAX_ID
  {
    if t.Full() then Outcome(t, None, [Told(rsp, Some(ConnTableFull(t.capacity)))])
    else if t.Overflows() then Panic
    else Outcome(t.Put(Socket(Connecting(rsp), channel)), Some(Connect(t.Next(), identity, hello)), [])
  }

  /** What a poll of a socket's local receiver yields. */
  datatype Poll = Pending | Ready(body: Body) | Ended(why: ResetReason)

  ghost predicate HasOutbound(t: Table, id: Id, polls: seq<Poll>) {
    id in t.sockets && t.sockets[id].state.Open? && id <= |polls| && !polls[id - 1].Pending?
  }

  /** The first open socket that has something to send is that of `id`, and this is what it sends; if
      that is that it has closed, it is the dead one. */
  ghost predicate Sends(t: Table, id: Id, polls: seq<Poll>, frame: Frame, dead: Option<Id>) {
    && HasOutbound(t, id, polls) && (forall j: Id :: j < id ==> !HasOutbound(t, j, polls))
    && match polls[id - 1]
       case Ready(body) => frame == Data(id, t.sockets[id].state.remoteId, body) && dead == None
       case Ended(why) => frame == Reset(t.sockets[id].state.remoteId, why) && dead == Some(id)
       case Pending => false
  }

  // ---- the map and the stack ----

  lemma PutKeepsWf(t: Table, socket: Socket)
    requires t.Wf() && !t.Full() && !t.Overflows()
    ensures t.Next() <= t.capacity && t.Next() !in t.sockets
    ensures t.Put(socket).Wf()
  {
    var n, u := t.Next(), t.Put(socket);
    assert u.sockets.Keys == t.sockets.Keys + {n};
    if t.chain == [] {
      assert n !in t.sockets;
      forall id: Id ensures id in u.sockets <==> id <= u.used {
        assert id in u.sockets <==> id in t.sockets || id == n;
      }
    } else {
      assert n in t.chain && t.chain == [n] + u.chain;
      NotInTail(t.chain);
      forall id: Id ensures id in u.sockets || id in u.chain <==> id <= u.used {
        assert id in u.sockets <==> id in t.sockets || id == n;
      }
    }
  }

  lemma NotInTail(s: seq<Id>)
    requires s != [] && forall j, k :: 0 <= j < k < |s| ==> s[j] != s[k]
    ensures s[0] !in s[1..]
  {
    assert forall k :: 0 <= k < |s| - 1 ==> s[1..][k] == s[k + 1];
  }

  lemma RemoveKeepsWf(t: Table, id: Id)
    requires t.Wf()
    ensures t.Remove(id).Wf()
    ensures id !in t.sockets ==> t.Remove(id) == t
  {
    if id in t.sockets {
      assert t.sockets.Keys == t.Remove(id).sockets.Keys + {id};
      assert |t.sockets.Keys| == |t.sockets| && |t.Remove(id).sockets.Keys| == |t.Remove(id).sockets|;
    } else {
      assert t.sockets - {id} == t.sockets;
    }
  }

  /** The ID closed last is the first to be handed out again. */
  lemma ReusedAtOnce(t: Table, id: Id, socket: Socket)
    requires t.Wf() && id in t.sockets
    ensures !t.Remove(id).Full() && t.Remove(id).Next() == id
    ensures t.Remove(id).Put(socket).sockets == t.sockets[id := socket]
    ensures t.Remove(id).Put(socket) == t.(sockets := t.sockets[id := socket])
  {
    RemoveKeepsWf(t, id);
    assert (t.sockets - {id})[id := socket] == t.sockets[id := socket];
    assert ([id] + t.chain)[1..] == t.chain;
    assert |t.Remove(id).sockets.Keys| == |t.sockets.Keys| - 1;
  }

  /** A table filled by `n` insertions. */
  function Filled(capacity: nat, socket: Socket, n: nat): (t: Table)
    ensures t.used < MAX_ID
  {
    if n == 0 then New(capacity)
    else
      var t := Filled(capacity, socket, n - 1);
      if t.Full() || t.Overflows() then t else t.Put(socket)
  }

  lemma {:induction false} FilledUp(capacity: nat, socket: Socket, n: nat)
    requires n <= capacity && n < MAX_ID
    ensures var t := Filled(capacity, socket, n);
            t.Wf() && t.used == n && t.chain == [] && |t.sockets| == n && t.capacity == capacity
  {
    if n > 0 {
      FilledUp(capacity, socket, n - 1);
      PutKeepsWf(Filled(capacity, socket, n - 1), socket);
    }
  }

  /** The `expect` on the next ID can fail if and only if the capacity is 65535 or more: no table of a
      smaller capacity is ever in the state where it fails, and a larger one is once all but one of the
      IDs have been handed out. */
  lemma OverflowsExactly(capacity: nat, socket: Socket)
    ensures (exists t: Table :: t.Wf() && t.capacity == capacity && t.Overflows()) <==> capacity >= MAX_ID
    ensures capacity >= MAX_ID ==> Filled(capacity, socket, MAX_ID - 1).Overflows()
  {
    if capacity >= MAX_ID {
      FilledUp(capacity, socket, MAX_ID - 1);
    }
  }

  // ---- frames ----

  /** The ID of the receiving table that a frame names. `Connect` names none. */
  function Addressed(f: Frame): Option<Id> {
    match f
    case Connect(_, _, _) => None
    case Data(_, r, _) => Some(r)
    case Ack(_, r) => Some(r)
    case Reject(r, _) => Some(r)
    case Reset(r, _) => Some(r)
  }

  function Sock(t: Table, id: Id): Option<Socket> {
    if id in t.sockets then Some(t.sockets[id]) else None
  }

  lemma UpdateKeepsWf(t: Table, id: Id, socket: Socket)
    requires t.Wf() && id in t.sockets
    ensures t.(sockets := t.sockets[id := socket]).Wf()
  {
    assert t.sockets[id := socket].Keys == t.sockets.Keys;
    assert |t.sockets[id := socket]| == |t.sockets[id := socket].Keys| == |t.sockets.Keys|;
  }

  lemma InboundKeepsWf(t: Table, f: Frame, w: World)
    requires t.Wf() && Inbound(t, f, w).Outcome?
    ensures Inbound(t, f, w).table.Wf()
  {
    match f
    case Connect(l, _, _) =>
      if w.registry.Granted? && !t.Full() {
        PutKeepsWf(t, Socket(Open(l), w.registry.channel));
      }
    case Ack(l, r) =>
      if r in t.sockets {
        UpdateKeepsWf(t, r, t.sockets[r].(state := Open(l)));
      }
    case Data(_, r, _) => RemoveKeepsWf(t, r);
    case Reject(r, _) => RemoveKeepsWf(t, r);
    case Reset(r, _) => RemoveKeepsWf(t, r);
  }

  /** A frame changes at most the entry it names; a `Connect` that is accepted adds one entry that was
      absent and touches no other, and is accepted exactly when the registry grants it and there is room. */
  lemma InboundTouchesOneEntry(t: Table, f: Frame, w: World, id: Id)
    requires t.Wf() && Inbound(t, f, w).Outcome?
    ensures var u := Inbound(t, f, w).table;
      && u.dead == t.dead && u.capacity == t.capacity && |u.sockets| <= u.capacity
      && (!f.Connect? && Addressed(f) != Some(id) ==> Sock(u, id) == Sock(t, id))
      && (f.Connect? && Sock(u, id) != Sock(t, id) ==>
            id == t.Next() && id !in t.sockets && w.registry.Granted? && Sock(u, id) == Some(Socket(Open(f.localId), w.registry.channel)))
      && (f.Connect? ==> (u != t <==> w.registry.Granted? && |t.sockets| < t.capacity))
  {
    InboundKeepsWf(t, f, w);
    if f.Connect? && w.registry.Granted? && !t.Full() {
      PutKeepsWf(t, Socket(Open(f.localId), w.registry.channel));
      assert t.Next() in Inbound(t, f, w).table.sockets;
    }
    assert |t.sockets| <= t.capacity;
  }
}
