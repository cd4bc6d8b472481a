/** The deferred cleanup of closed sockets: `next_outbound` sends a RESET for a socket and remembers its ID;
    the socket is removed at the start of the next call. Inbound frames can be processed in between, since
    `Machine::run` looks at the wire first. */
module Cleanup {
  import opened Options
  import opened Connections

  datatype Arrival = Arrival(frame: Frame, world: World)

  /** The table after a sequence of inbound frames, unless one of them made it panic. */
  function After(t: Table, fs: seq<Arrival>): Option<Table>
    decreases |fs|
  {
    if fs == [] then Some(t)
    else
      match After(t, fs[..|fs| - 1])
      case None => None
      case Some(m) =>
        if m.used >= MAX_ID then None
        else
          match Inbound(m, fs[|fs| - 1].frame, fs[|fs| - 1].world)
          case Panic => None
          case Outcome(u, _, _) => Some(u)
  }

  /** Whether the table `m` loses the socket of `id` to this frame: a RESET or a REJECT for it, or data for
      it that cannot be handed to its channel. */
  predicate Removes(m: Table, x: Arrival, id: Id) {
    match x.frame
    case Reset(r, _) => r == id
    case Reject(r, _) => r == id
    case Data(l, r, _) => r == id && Sock(m, id).Some? && m.sockets[id].state == Open(l) && !x.world.sending.Sent?
    case _ => false
  }

  predicate RemovedBy(t: Table, fs: seq<Arrival>, id: Id)
    decreases |fs|
  {
    fs != [] && (RemovedBy(t, fs[..|fs| - 1], id)
                 || (After(t, fs[..|fs| - 1]).Some? && Removes(After(t, fs[..|fs| - 1]).value, fs[|fs| - 1], id)))
  }

  /** No other socket uses the channel, and no other connection is given it. */
  ghost predicate Only(t: Table, id: Id, channel: nat) {
    forall j :: j in t.sockets && t.sockets[j].channel == channel ==> j == id
  }

  ghost predicate NeverGranted(fs: seq<Arrival>, channel: nat) {
    forall k :: 0 <= k < |fs| ==> fs[k].world.registry != Granted(channel)
  }

  lemma {:induction false} AfterArrivals(t: Table, fs: seq<Arrival>, id: Id, u: Table)
    requires t.Wf() && id in t.sockets && t.sockets[id].state.Open? && After(t, fs) == Some(u)
    requires Only(t, id, t.sockets[id].channel) && NeverGranted(fs, t.sockets[id].channel)
    ensures u.Wf() && u.dead == t.dead && Only(u, id, t.sockets[id].channel)
    ensures if RemovedBy(t, fs, id) then id in u.sockets ==> u.sockets[id].channel != t.sockets[id].channel
            else id in u.sockets && u.sockets[id] == t.sockets[id]
    decreases |fs|
  {
    if fs != [] {
      var m, x := After(t, fs[..|fs| - 1]).value, fs[|fs| - 1];
      AfterArrivals(t, fs[..|fs| - 1], id, m);
      InboundKeepsWf(m, x.frame, x.world);
      OneArrival(m, x, id, t.sockets[id].channel);
    }
  }

  lemma OneArrival(m: Table, x: Arrival, id: Id, channel: nat)
    requires m.Wf() && Only(m, id, channel) && x.world.registry != Granted(channel) && Inbound(m, x.frame, x.world).Outcome?
    ensures var u := Inbound(m, x.frame, x.world).table;
      && u.dead == m.dead && Only(u, id, channel)
      && (Removes(m, x, id) ==> id !in u.sockets)
      && (id in m.sockets && m.sockets[id].channel != channel && id in u.sockets ==> u.sockets[id].channel != channel)
      && (id !in m.sockets && id in u.sockets ==> u.sockets[id].channel != channel)
      && (id in m.sockets && m.sockets[id].state.Open? && !Removes(m, x, id) ==> id in u.sockets && u.sockets[id] == m.sockets[id])
  {
    if x.frame.Connect? && x.world.registry.Granted? && !m.Full() {
      PutKeepsWf(m, Socket(Open(x.frame.localId), x.world.registry.channel));
    }
  }

  /** The socket that the cleanup removes is the one for which the RESET was sent if and only if no frame
      processed in between removed that ID; in any case none is left with its channel, so it is not polled,
      and no second RESET is sent for it. */
  lemma CleanupRemovesTheDead(t: Table, fs: seq<Arrival>, id: Id, u: Table)
    requires t.Wf() && t.dead == Some(id) && id in t.sockets && t.sockets[id].state.Open? && After(t, fs) == Some(u)
    requires Only(t, id, t.sockets[id].channel) && NeverGranted(fs, t.sockets[id].channel)
    ensures Sock(u, id) == Sock(t, id) <==> !RemovedBy(t, fs, id)
    ensures u.Cleaned().sockets == u.sockets - {id} && u.Cleaned().dead == None && u.Cleaned().Wf()
    ensures forall j :: j in u.Cleaned().sockets ==> u.Cleaned().sockets[j].channel != t.sockets[id].channel
  {
    AfterArrivals(t, fs, id, u);
    RemoveKeepsWf(u, id);
  }

  /** What happens otherwise: the peer resets the connection first, its ID is given to a new connection, and
      the cleanup removes that one, without a frame to the peer, which has been sent an ACK. */
  lemma CleanupRemovesAnother(t: Table, id: Id, why: ResetReason, l: Id, channel: nat, w: World)
    requires t.Wf() && t.dead == Some(id) && id in t.sockets && w.registry == Granted(channel)
    ensures var fs := [Arrival(Reset(id, why), w), Arrival(Connect(l, 0, []), w)];
      && Inbound(t.Remove(id), Connect(l, 0, []), w).reply == Some(Ack(id, l))
      && After(t, fs).Some? && Sock(After(t, fs).value, id) == Some(Socket(Open(l), channel))
      && After(t, fs).value.Cleaned().sockets == t.sockets - {id}
  {
    var m, socket := t.Remove(id), Socket(Open(l), channel);
    var x, y := Arrival(Reset(id, why), w), Arrival(Connect(l, 0, []), w);
    ReusedAtOnce(t, id, socket);
    OneAfterAnother(t, x, y);
    assert After(t, [x, y]) == Some(t.(sockets := t.sockets[id := socket]));
    assert t.sockets[id := socket] - {id} == t.sockets - {id};
  }

  lemma OneAfterAnother(t: Table, x: Arrival, y: Arrival)
    requires t.used < MAX_ID && Inbound(t, x.frame, x.world).Outcome? && Inbound(t, x.frame, x.world).table.used < MAX_ID
    ensures var m := Inbound(t, x.frame, x.world).table;
            After(t, [x, y]) == match Inbound(m, y.frame, y.world) case Panic => None case Outcome(u, _, _) => Some(u)
  {
    var one, two := [x], [x, y];
    assert one[..0] == [] && two[..1] == one;
    assert After(t, one) == Some(Inbound(t, x.frame, x.world).table);
  }
}
