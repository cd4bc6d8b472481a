/** The loop of `Machine::run`, one turn at a time, over the connection table as it is laid out in memory:
    each turn makes the steps of `Handshake` that the peer's events stand for. */
module Machine {
  import opened Options
  import opened Connections
  import opened ConnTable
  import opened Handshake

  /** A locally initiated connection, as it comes from `conns_rx`. */
  datatype Request = Request(identity: nat, hello: Body, channel: nat, rsp: nat)

  /** What the stream of requests yields when it is polled. */
  datatype NextRequest = NoneYet | Ended | Next(request: Request)

  class Machine {
    const table: ConnTable
    var connsRemaining: bool
    var incoming: seq<Frame>
    var outgoing: seq<Frame>

    ghost predicate Valid()
      reads this, table, table.conns
    {
      table.Valid()
    }

    /** This interface as the first peer of a net whose other peer has the table `peer`. */
    ghost function AsFirst(peer: Table): Net
      reads this, table
    {
      Net(table.view, peer, outgoing, incoming)
    }

    constructor (capacity: nat)
      ensures Valid() && fresh(table) && fresh(table.conns)
      ensures forall peer :: AsFirst(peer) == Net(New(capacity), peer, [], [])
    {
      table := new ConnTable(capacity);
      connsRemaining, incoming, outgoing := true, [], [];
    }

    method Send(frame: Option<Frame>)
      modifies this`outgoing
      ensures outgoing == Reply(old(outgoing), frame)
    {
      if frame.Some? {
        outgoing := outgoing + [frame.value];
      }
    }

    /** A turn in which the wire, which is looked at first, has a frame. */
    method ReceiveOne(w: World) returns (panicked: bool)
      requires Valid() && incoming != []
      modifies this, table, table.conns
      ensures panicked <==> Inbound(old(table.view), old(incoming)[0], w) == Panic
      ensures !panicked ==> Valid() && connsRemaining == old(connsRemaining)
      ensures !panicked ==> forall peer :: StepFirst(old(AsFirst(peer)), Receive(w)) == Some(AsFirst(peer))
    {
      var frame := incoming[0];
      incoming := incoming[1..];
      var reply, _, overflow := table.ProcessInbound(frame, w);
      panicked := overflow;
      if !panicked {
        Send(reply);
      }
    }

    method StartOne(r: Request) returns (panicked: bool)
      requires Valid()
      modifies this, table, table.conns
      ensures panicked <==> old(table.view).Overflows()
      ensures !panicked ==> Valid() && incoming == old(incoming) && connsRemaining == old(connsRemaining)
      ensures !panicked ==> forall peer ::
                StepFirst(old(AsFirst(peer)), Initiate(r.identity, r.hello, r.channel, r.rsp)) == Some(AsFirst(peer))
    {
      var connect, _, overflow := table.StartConnecting(r.identity, r.hello, r.channel, r.rsp);
      panicked := overflow;
      if !panicked {
        Send(connect);
      }
    }

    /** A turn in which it has none: the table is polled, and if it has nothing to send, the requests are. */
    method SendLocal(polls: seq<Poll>, request: NextRequest) returns (panicked: bool)
      requires Valid() && |polls| == table.conns.Length && (request.NoneYet? || connsRemaining)
      modifies this, table, table.conns
      ensures !panicked ==> Valid() && incoming == old(incoming)
      ensures !panicked ==> forall peer :: StepsLocally(old(AsFirst(peer)), polls, request, AsFirst(peer))
      ensures panicked <==>
                && request.Next? && old(table.view).Cleaned().Overflows()
                && (forall id: Id :: !HasOutbound(old(table.view).Cleaned(), id, polls))
      ensures !panicked ==> connsRemaining == (old(connsRemaining) && !(request.Ended? && outgoing == old(outgoing)))
    {
      panicked := false;
      ghost var cleaned := table.view.Cleaned();
      var frame := table.NextOutbound(polls);
      if frame.Some? {
        ghost var id: Id :| Sends(cleaned, id, polls, frame.value, table.view.dead);
        Send(frame);
        forall peer ensures SendsLocally(old(AsFirst(peer)), polls, id, AsFirst(peer)) {
          SendingIsAStep(old(AsFirst(peer)), polls, id, frame.value, table.view.dead);
        }
        return;
      }
      match request
      case NoneYet =>
      case Ended => connsRemaining := false;
      case Next(r) =>
        assert cleaned == table.view;
        panicked := StartOne(r);
    }
  }

  /** The first open socket that has something sends it: data, or that it has closed. */
  ghost predicate SendsLocally(n: Net, polls: seq<Poll>, id: Id, u: Net) {
    var c := n.(a := n.a.Cleaned());
    && HasOutbound(c.a, id, polls) && (forall j: Id :: j < id ==> !HasOutbound(c.a, j, polls))
    && StepFirst(c, if polls[id - 1].Ended? then CloseLocally(id, polls[id - 1].why) else SendData(id, polls[id - 1].body)) == Some(u)
  }

  /** The cleanup, and then at most one step, which is that of a socket if any has something to send. */
  ghost predicate StepsLocally(n: Net, polls: seq<Poll>, request: NextRequest, u: Net) {
    var c := n.(a := n.a.Cleaned());
    || (exists id: Id :: SendsLocally(n, polls, id, u))
    || ((forall id: Id :: !HasOutbound(c.a, id, polls))
        && match request
           case Next(r) => StepFirst(c, Initiate(r.identity, r.hello, r.channel, r.rsp)) == Some(u)
           case _ => u == c)
  }

  lemma SendingIsAStep(n: Net, polls: seq<Poll>, id: Id, frame: Frame, dead: Option<Id>)
    requires n.a.Cleaned().used < MAX_ID && Sends(n.a.Cleaned(), id, polls, frame, dead)
    ensures SendsLocally(n, polls, id, n.(a := n.a.Cleaned().(dead := dead), ab := n.ab + [frame]))
  {
  }
}
