/** The connection table as the slab it is: an array of entries, the free ones linked into a list. Every
    operation is proved against the map and stack of `Connections`. */
module ConnTable {
  import opened Options
  import opened Connections

  datatype Entry = Unused | Closed(next: Id) | Occupied(socket: Socket)

  /** The entry of an ID. */
  function At(entries: seq<Entry>, id: Id): Entry
    requires id <= |entries|
  {
    entries[id - 1]
  }

  /** Where the closed entry at position `k` of the stack points: to the next one, or to the first unused ID. */
  function Link(t: Table, k: nat): Id
    requires k < |t.chain| && t.used < MAX_ID
  {
    if k + 1 < |t.chain| then t.chain[k + 1] else t.used + 1
  }

  /** The entries hold the sockets, and the free list threaded through them is the stack. */
  ghost predicate Laid(entries: seq<Entry>, t: Table)
    requires t.Wf() && |entries| == t.capacity
  {
    && (forall id: Id {:trigger At(entries, id)} :: id <= t.capacity ==> EntryOk(At(entries, id), t, id))
    && (forall k: nat {:trigger Link(t, k)} :: k < |t.chain| ==>
          t.chain[k] <= t.capacity && At(entries, t.chain[k]) == Closed(Link(t, k)))
    && (forall i :: MAX_ID <= i < |entries| ==> entries[i] == Unused)
  }

  predicate EntryOk(entry: Entry, t: Table, id: Id) {
    match entry
    case Occupied(socket) => Sock(t, id) == Some(socket)
    case Closed(_) => id in t.chain
    case Unused => id > t.used
  }

  lemma LinksAfterPut(entries: seq<Entry>, t: Table, socket: Socket)
    requires t.Wf() && |entries| == t.capacity && Laid(entries, t) && !t.Full() && !t.Overflows()
    ensures t.Next() <= t.capacity
    ensures var u, after := t.Put(socket), entries[t.Next() - 1 := Occupied(socket)];
            forall k: nat {:trigger Link(u, k)} :: k < |u.chain| ==>
              u.chain[k] <= t.capacity && At(after, u.chain[k]) == Closed(Link(u, k))
    ensures forall i: Id :: i in t.chain && i != t.Next() ==> i in t.Put(socket).chain
    ensures t.Put(socket).Next() == if t.chain == [] then t.Next() + 1 else Link(t, 0)
  {
    PutKeepsWf(t, socket);
    var u, after := t.Put(socket), entries[t.Next() - 1 := Occupied(socket)];
    if t.chain != [] {
      assert t.chain == [t.Next()] + u.chain;
      assert u.chain == [] ==> Link(t, 0) == t.used + 1;
      forall k: nat | k < |u.chain| ensures u.chain[k] <= t.capacity && At(after, u.chain[k]) == Closed(Link(u, k)) {
        assert u.chain[k] == t.chain[k + 1] && t.chain[0] != t.chain[k + 1];
        assert Link(u, k) == Link(t, k + 1);
      }
    }
  }

  lemma LaidAfterPut(entries: seq<Entry>, t: Table, socket: Socket)
    requires t.Wf() && |entries| == t.capacity && Laid(entries, t) && !t.Full() && !t.Overflows()
    ensures t.Put(socket).Wf() && t.Next() <= t.capacity
    ensures Laid(entries[t.Next() - 1 := Occupied(socket)], t.Put(socket))
    ensures t.Put(socket).Next() == if t.chain == [] then t.Next() + 1 else Link(t, 0)
  {
    PutKeepsWf(t, socket);
    var id, u := t.Next(), t.Put(socket);
    var after := entries[id - 1 := Occupied(socket)];
    LinksAfterPut(entries, t, socket);
    forall i: Id | i <= t.capacity ensures EntryOk(At(after, i), u, i) {
      if i != id {
        assert EntryOk(At(entries, i), t, i) && At(after, i) == At(entries, i);
      }
    }
    assert Laid(after, u) by {
      forall k: nat | k < |u.chain| ensures u.chain[k] <= t.capacity && At(after, u.chain[k]) == Closed(Link(u, k)) {
        var link := Link(u, k);
      }
    }
  }

  lemma LaidAfterRemove(entries: seq<Entry>, t: Table, id: Id)
    requires t.Wf() && |entries| == t.capacity && Laid(entries, t) && id in t.sockets
    ensures t.Remove(id).Wf() && id <= t.capacity
    ensures Laid(entries[id - 1 := Closed(t.Next())], t.Remove(id))
  {
    RemoveKeepsWf(t, id);
    var u := t.Remove(id);
    var after := entries[id - 1 := Closed(t.Next())];
    forall k: nat | k < |u.chain| ensures u.chain[k] <= t.capacity && At(after, u.chain[k]) == Closed(Link(u, k)) {
      if k > 0 {
        assert u.chain[k] == t.chain[k - 1] && t.chain[k - 1] in t.chain;
        assert Link(u, k) == Link(t, k - 1);
      }
    }
    forall i: Id | i <= t.capacity ensures EntryOk(At(after, i), u, i) {
      if i != id {
        assert EntryOk(At(entries, i), t, i) && At(after, i) == At(entries, i);
      }
    }
  }

  lemma LaidAfterUpdate(entries: seq<Entry>, t: Table, id: Id, socket: Socket)
    requires t.Wf() && |entries| == t.capacity && Laid(entries, t) && id in t.sockets
    ensures t.(sockets := t.sockets[id := socket]).Wf() && id <= t.capacity
    ensures Laid(entries[id - 1 := Occupied(socket)], t.(sockets := t.sockets[id := socket]))
  {
    UpdateKeepsWf(t, id, socket);
    var u := t.(sockets := t.sockets[id := socket]);
    var after := entries[id - 1 := Occupied(socket)];
    assert u.sockets.Keys == t.sockets.Keys;
    forall k: nat | k < |u.chain| ensures u.chain[k] <= t.capacity && At(after, u.chain[k]) == Closed(Link(u, k)) {
      assert u.chain[k] in t.chain;
      assert Link(u, k) == Link(t, k);
    }
    forall i: Id | i <= t.capacity ensures EntryOk(At(after, i), u, i) {
      if i != id {
        assert EntryOk(At(entries, i), t, i) && At(after, i) == At(entries, i);
      }
    }
  }

  lemma LaidWhateverIsDead(entries: seq<Entry>, t: Table, dead: Option<Id>)
    requires t.Wf() && |entries| == t.capacity && Laid(entries, t)
    ensures t.(dead := dead).Wf() && Laid(entries, t.(dead := dead))
  {
    var u := t.(dead := dead);
    assert forall k: nat :: k < |u.chain| ==> Link(u, k) == Link(t, k);
    forall id: Id | id <= u.capacity ensures EntryOk(At(entries, id), u, id) {
      assert EntryOk(At(entries, id), t, id);
    }
  }

  /** The entry of the next ID, when there is room: the first of the free list, or the first unused one. */
  lemma NextEntry(entries: seq<Entry>, t: Table)
    requires t.Wf() && |entries| == t.capacity && Laid(entries, t) && !t.Full()
    ensures t.Next() <= t.capacity
    ensures At(entries, t.Next()) == if t.chain == [] then Unused else Closed(Link(t, 0))
  {
    if t.chain == [] {
      assert t.used + 1 !in t.sockets;
      assert EntryOk(At(entries, t.Next()), t, t.Next());
    } else {
      assert Link(t, 0) <= MAX_ID;
    }
  }

  lemma FirstSends(t: Table, id: Id, polls: seq<Poll>, remoteId: Id)
    requires OpenSocket(t, id, remoteId) && id <= |polls| && !polls[id - 1].Pending?
    requires forall j: Id :: j < id ==> !HasOutbound(t, j, polls)
    ensures polls[id - 1].Ready? ==> Sends(t, id, polls, Data(id, remoteId, polls[id - 1].body), None)
    ensures polls[id - 1].Ended? ==> Sends(t, id, polls, Frame.Reset(remoteId, polls[id - 1].why), Some(id))
  {
  }

  predicate OpenSocket(t: Table, id: Id, remoteId: Id) {
    id in t.sockets && t.sockets[id].state == Open(remoteId)
  }

  class ConnTable {
    const conns: array<Entry>
    var nextId: Id
    var len: nat
    var deadIndex: Option<Id>
    ghost var view: Table

    ghost predicate Valid()
      reads this, conns
    {
      && view.Wf() && view.capacity == conns.Length && Laid(conns[..], view)
      && nextId == view.Next() && len == |view.sockets| && deadIndex == view.dead
    }

    constructor (capacity: nat)
      ensures Valid() && fresh(conns) && view == New(capacity)
    {
      conns := new Entry[capacity](_ => Unused);
      nextId, len, deadIndex := 1, 0, None;
      view := New(capacity);
    }

    /** The socket of an entry, as `get_mut` and `socket` find it. */
    method Find(id: Id) returns (found: Option<Socket>)
      requires Valid()
      ensures found == Sock(view, id)
    {
      if id <= conns.Length {
        var entry := conns[id - 1];
        assert EntryOk(At(conns[..], id), view, id) && entry == At(conns[..], id);
        if entry.Occupied? {
          return Some(entry.socket);
        }
      }
      return None;
    }

    method Remove(id: Id) returns (removed: Option<Socket>)
      requires Valid()
      modifies this, conns
      ensures Valid()
      ensures removed == Sock(old(view), id) && view == old(view).Remove(id)
    {
      removed := Find(id);
      RemoveKeepsWf(view, id);
      if removed.Some? {
        LaidAfterRemove(conns[..], view, id);
        ghost var before := conns[..];
        conns[id - 1] := Closed(nextId);
        assert conns[..] == before[id - 1 := Closed(nextId)];
        nextId := id;
        len := len - 1;
        view := view.Remove(id);
      }
    }

    method ReserveId() returns (id: Option<Id>)
      requires Valid()
      ensures id == if view.Full() then None else Some(view.Next())
    {
      id := if len == conns.Length then None else Some(nextId);
    }

    /** Neither `expect("ID should be present")` nor the `unreachable!` can fail for a reserved ID; the
        `expect` on the next ID can, and then the table is not used again. */
    method InsertAt(id: Id, socket: Socket) returns (panicked: bool)
      requires Valid() && !view.Full() && id == view.Next()
      modifies this, conns
      ensures panicked == old(view).Overflows()
      ensures !panicked ==> Valid() && view == old(view).Put(socket)
    {
      NextEntry(conns[..], view);
      var entry := conns[id - 1];
      assert entry == At(conns[..], id);
      ghost var before := conns[..];
      conns[id - 1] := Occupied(socket);
      assert conns[..] == before[id - 1 := Occupied(socket)];
      if entry.Unused? && nextId == MAX_ID {
        return true;
      }
      LaidAfterPut(before, view, socket);
      panicked := false;
      match entry {
        case Unused => nextId := nextId + 1;
        case Closed(next) => nextId := next;
        case Occupied(_) => assert false;
      }
      len := len + 1;
      view := view.Put(socket);
    }

    /** A socket gets an ID that was absent, unless the table is full. */
    method Insert(socket: Socket) returns (id: Option<Id>, panicked: bool)
      requires Valid()
      modifies this, conns
      ensures panicked == old(view).Overflows()
      ensures id == if old(view).Full() then None else Some(old(view).Next())
      ensures !panicked ==> Valid() && view == if id.Some? then old(view).Put(socket) else old(view)
    {
      id := ReserveId();
      panicked := false;
      if id.Some? {
        panicked := InsertAt(id.value, socket);
      }
    }

    method ProcessAck(localId: Id, remoteId: Id, initiator: bool) returns (reply: Option<Frame>, effects: seq<Effect>)
      requires Valid()
      modifies this, conns
      ensures Valid()
      ensures forall w: World :: w.initiator == initiator ==>
                InboundAck(old(view), remoteId, localId, w) == Outcome(view, reply, effects)
    {
      var found := Find(localId);
      if found == None {
        return Some(Frame.Reset(remoteId, NoSuchConn)), [];
      }
      var socket := found.value;
      match socket.state
      case Open(_) =>
        return Some(Frame.Reset(remoteId, YesSuchConn)), [];
      case Connecting(rsp) =>
        var acked := socket.(state := Open(remoteId));
        LaidAfterUpdate(conns[..], view, localId, acked);
        ghost var before := conns[..];
        conns[localId - 1] := Occupied(acked);
        assert conns[..] == before[localId - 1 := Occupied(acked)];
        view := view.(sockets := view.sockets[localId := acked]);
        assert view.sockets.Keys == old(view).sockets.Keys;
        return if initiator then None else Some(Frame.Reset(remoteId, BecauseISaidSo)), [Told(rsp, None)];
    }

    method Reject(localId: Id, reason: Rejection) returns (effects: seq<Effect>)
      requires Valid()
      modifies this, conns
      ensures Valid() && InboundReject(old(view), localId, reason) == Outcome(view, None, effects)
    {
      var removed := Remove(localId);
      match removed
      case Some(Socket(Connecting(rsp), _)) => return [Told(rsp, Some(reason))];
      case _ => return [];
    }

    method Reset(localId: Id, why: ResetReason) returns (effects: seq<Effect>)
      requires Valid()
      modifies this, conns
      ensures Valid() && InboundReset(old(view), localId, why) == Outcome(view, None, effects)
    {
      var removed := Remove(localId);
      match removed
      case Some(Socket(Open(_), channel)) => return [ClosedWith(channel, why)];
      case _ => return [];
    }

    method Accept(remoteId: Id, channel: nat) returns (reply: Frame, panicked: bool)
      requires Valid()
      modifies this, conns
      ensures panicked == old(view).Overflows()
      ensures !panicked ==> Valid()
      ensures !panicked ==> forall w: World :: w.registry == Granted(channel) ==>
                InboundConnect(old(view), remoteId, w) == Outcome(view, Some(reply), [])
    {
      var id, overflow := Insert(Socket(Open(remoteId), channel));
      panicked := overflow;
      reply := if id.Some? then Ack(id.value, remoteId) else Frame.Reject(remoteId, ConnTableFull(conns.Length));
    }

    /** Each frame does to the entries what `Inbound` says it does to the map. */
    method ProcessInbound(f: Frame, w: World) returns (reply: Option<Frame>, effects: seq<Effect>, panicked: bool)
      requires Valid()
      modifies this, conns
      ensures panicked <==> Inbound(old(view), f, w) == Panic
      ensures !panicked ==> Valid() && Inbound(old(view), f, w) == Outcome(view, reply, effects)
    {
      reply, effects, panicked := None, [], false;
      match f
      case Data(l, r, body) =>
        var found := Find(r);
        if found == None || found.value.state != Open(l) {
          reply := Some(Frame.Reset(l, NoSuchConn));
        } else if w.sending.Sent? {
          effects := [Handed(found.value.channel, body)];
        } else {
          var why := match w.sending
                     case Undecodable(e) => YouDoneGoofed(e)
                     case Failed(why) => why
                     case _ => BecauseISaidSo;
          var _ := Remove(r);
          reply := Some(Frame.Reset(l, why));
        }
      case Ack(l, r) =>
        reply, effects := ProcessAck(r, l, w.initiator);
      case Reject(r, reason) =>
        effects := Reject(r, reason);
      case Reset(r, why) =>
        effects := Reset(r, why);
      case Connect(l, _, _) =>
        match w.registry
        case Granted(channel) =>
          var ack, overflow := Accept(l, channel);
          reply, panicked := Some(ack), overflow;
        case Denied(reason) =>
          reply := Some(Frame.Reject(l, reason));
    }

    method StartConnecting(identity: nat, hello: Body, channel: nat, rsp: nat)
      returns (frame: Option<Frame>, effects: seq<Effect>, panicked: bool)
      requires Valid()
      modifies this, conns
      ensures panicked <==> Connections.StartConnecting(old(view), identity, hello, channel, rsp) == Panic
      ensures !panicked ==> Valid() && Connections.StartConnecting(old(view), identity, hello, channel, rsp) == Outcome(view, frame, effects)
    {
      var id := ReserveId();
      if id == None {
        return None, [Told(rsp, Some(ConnTableFull(conns.Length)))], false;
      }
      panicked := InsertAt(id.value, Socket(Connecting(rsp), channel));
      frame, effects := Some(Frame.Connect(id.value, identity, hello)), [];
    }

    method CleanupDead()
      requires Valid()
      modifies this, conns
      ensures Valid() && view == old(view).Cleaned()
    {
      if deadIndex.Some? {
        var id := deadIndex.value;
        deadIndex := None;
        LaidWhateverIsDead(conns[..], view, None);
        view := view.(dead := None);
        var _ := Remove(id);
      }
    }

    /** The remote ID of an entry that holds an open socket. */
    method OpenAt(idx: nat) returns (remoteId: Option<Id>)
      requires Valid() && idx < conns.Length
      ensures remoteId.Some? ==> idx + 1 < MAX_ID && OpenSocket(view, idx + 1, remoteId.value)
      ensures remoteId == None && idx < MAX_ID ==> !(idx + 1 in view.sockets && view.sockets[idx + 1].state.Open?)
    {
      var entry := conns[idx];
      if idx < MAX_ID {
        assert EntryOk(At(conns[..], idx + 1), view, idx + 1) && entry == At(conns[..], idx + 1);
      }
      match entry
      case Occupied(Socket(Open(id), _)) => return Some(id);
      case _ => return None;
    }

    method MarkDead(id: Id)
      requires Valid()
      modifies this`deadIndex, this`view
      ensures Valid() && view == old(view).(dead := Some(id))
    {
      LaidWhateverIsDead(conns[..], view, Some(id));
      deadIndex := Some(id);
      view := view.(dead := Some(id));
    }

    /** The loop of `next_outbound`: the first open socket, in the order of the entries, that is not pending. */
    method FirstReady(polls: seq<Poll>) returns (found: Option<Id>)
      requires Valid() && |polls| == conns.Length
      ensures found == None ==> forall id: Id :: !HasOutbound(view, id, polls)
      ensures found.Some? ==> HasOutbound(view, found.value, polls) && forall id: Id :: id < found.value ==> !HasOutbound(view, id, polls)
    {
      for idx := 0 to conns.Length
        invariant forall id: Id :: id <= idx ==> !HasOutbound(view, id, polls)
      {
        var remoteId := OpenAt(idx);
        if remoteId.Some? && !polls[idx].Pending? {
          return Some(idx + 1);
        }
      }
      return None;
    }

    /** What an open socket sends after its poll: its data, or, to the peer's socket, that it has closed. */
    method Announce(id: Id, poll: Poll) returns (frame: Frame)
      requires Valid() && id in view.sockets && view.sockets[id].state.Open? && !poll.Pending?
      modifies this`deadIndex, this`view
      ensures Valid() && view == if poll.Ended? then old(view).(dead := Some(id)) else old(view)
      ensures frame == if poll.Ready? then Data(id, old(view).sockets[id].state.remoteId, poll.body)
                       else Frame.Reset(old(view).sockets[id].state.remoteId, poll.why)
    {
      var found := Find(id);
      var remoteId := found.value.state.remoteId;
      match poll
      case Ready(body) =>
        return Data(id, remoteId, body);
      case Ended(why) =>
        MarkDead(id);
        return Frame.Reset(remoteId, why);
    }

    /** One poll of `next_outbound` from its start: the dead socket of the previous call goes, and the first
        open socket in the order of the entries that has something to send, sends it; if that is that it has
        closed, it is the dead one for the next call. */
    method NextOutbound(polls: seq<Poll>) returns (frame: Option<Frame>)
      requires Valid() && |polls| == conns.Length
      modifies this, conns
      ensures Valid() && view == old(view).Cleaned().(dead := view.dead)
      ensures frame == None ==> view.dead == None && forall id: Id :: !HasOutbound(old(view).Cleaned(), id, polls)
      ensures frame == None ==> forall id :: id in view.sockets && view.sockets[id].state.Open? ==> polls[id - 1].Pending?
      ensures frame.Some? ==> exists id: Id :: Sends(old(view).Cleaned(), id, polls, frame.value, view.dead)
    {
      CleanupDead();
      ghost var t := view;
      var found := FirstReady(polls);
      if found == None {
        AllPending(view, polls);
        return None;
      }
      var id := found.value;
      var announced := Announce(id, polls[id - 1]);
      FirstSends(t, id, polls, t.sockets[id].state.remoteId);
      return Some(announced);
    }
  }

  lemma AllPending(t: Table, polls: seq<Poll>)
    requires t.Wf() && |polls| == t.capacity && forall id: Id :: !HasOutbound(t, id, polls)
    ensures forall id :: id in t.sockets && t.sockets[id].state.Open? ==> id <= |polls| && polls[id - 1].Pending?
  {
    forall id | id in t.sockets && t.sockets[id].state.Open? ensures id <= |polls| && polls[id - 1].Pending? {
      assert !HasOutbound(t, id, polls);
    }
  }
}
