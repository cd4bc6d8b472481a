/** Whoever asks for a connection waits for one answer. What happens to the waiting initiators over every
    use that `Machine::run` makes of its connection table, whatever arrives from the wire. */
module Initiators {
  import opened Options
  import opened Connections

  /** `told` is what the table has told the outside, and `sent` what it has put on the wire, in order; `lost` are
      the initiators whose connecting socket a RESET named. */
  datatype Desk = Desk(table: Table, started: set<nat>, told: seq<Effect>, sent: seq<Frame>, lost: set<nat>)

  datatype Use =
    | Start(identity: nat, hello: Body, channel: nat, rsp: nat)   // only after a poll of `next_outbound`, which cleans up
    | Arrive(frame: Frame, world: World)
    | SendLocal(id: Id, body: Body)  // `next_outbound` finds data
    | Die(id: Id, why: ResetReason)  // or the local stream closed
    | Clean

  type Sockets = map<Id, Socket>

  /** The socket of `id` is connecting for the initiator `rsp`. */
  predicate WaitsAt(m: Sockets, id: Id, rsp: nat) {
    id in m && m[id].state == Connecting(rsp)
  }

  ghost predicate Waits(m: Sockets, rsp: nat) {
    exists id: Id :: WaitsAt(m, id, rsp)
  }

  function TimesTold(told: seq<Effect>, rsp: nat): nat {
    if told == [] then 0
    else TimesTold(told[..|told| - 1], rsp) + if told[|told| - 1].Told? && told[|told| - 1].rsp == rsp then 1 else 0
  }

  /** The initiator whose connecting socket a RESET names. */
  function ResetAt(t: Table, u: Use): set<nat> {
    if u.Arrive? && u.frame.Reset? && u.frame.remoteId in t.sockets && t.sockets[u.frame.remoteId].state.Connecting?
    then {t.sockets[u.frame.remoteId].state.rsp} else {}
  }

  function Settle(d: Desk, o: Outcome, starts: set<nat>, lost: set<nat>): Option<Desk> {
    if o.Panic? then None
    else Some(Desk(o.table, d.started + starts, d.told + o.effects,
                   d.sent + (if o.reply.Some? then [o.reply.value] else []), d.lost + lost))
  }

  function UseStep(d: Desk, u: Use): Option<Desk> {
    if d.table.used >= MAX_ID then None else
    match u
    case Start(identity, hello, channel, rsp) =>
      if rsp in d.started || d.table.dead.Some? then None
      else Settle(d, StartConnecting(d.table, identity, hello, channel, rsp), {rsp}, {})
    case Arrive(f, w) => Settle(d, Inbound(d.table, f, w), {}, ResetAt(d.table, u))
    case SendLocal(id, body) =>
      if id in d.table.sockets && d.table.sockets[id].state.Open?
      then Settle(d, Outcome(d.table, Some(Data(id, d.table.sockets[id].state.remoteId, body)), []), {}, {}) else None
    case Die(id, why) =>
      if id in d.table.sockets && d.table.sockets[id].state.Open? && d.table.dead == None
      then Settle(d, Outcome(d.table.(dead := Some(id)), Some(Reset(d.table.sockets[id].state.remoteId, why)), []), {}, {}) else None
    case Clean => Settle(d, Outcome(d.table.Cleaned(), None, []), {}, {})
  }

  function UseRun(d: Desk, us: seq<Use>): Option<Desk>
    decreases |us|
  {
    if us == [] then Some(d)
    else
      match UseRun(d, us[..|us| - 1])
      case None => None
      case Some(m) => UseStep(m, us[|us| - 1])
  }

  function Opened(capacity: nat): Desk {
    Desk(New(capacity), {}, [], [], {})
  }

  // ---- the accounts of one initiator ----

  ghost predicate OneSocket(m: Sockets, rsp: nat) {
    forall i: Id, j: Id :: WaitsAt(m, i, rsp) && WaitsAt(m, j, rsp) ==> i == j
  }

  /** No initiator waits at the ID of the dead socket, not even when the ID has been given out again. */
  predicate DeadIsNotWaiting(t: Table, rsp: nat) {
    t.dead.Some? ==> !WaitsAt(t.sockets, t.dead.value, rsp)
  }

  function One(b: bool): nat { if b then 1 else 0 }

  /** An initiator that was accepted waits, or was told, or was lost to a RESET: once, and only one of these. */
  ghost predicate Balanced(m: Sockets, d: Desk, rsp: nat) {
    One(Waits(m, rsp)) + TimesTold(d.told, rsp) + One(rsp in d.lost) == One(rsp in d.started)
  }

  ghost predicate Inv(d: Desk, rsp: nat) {
    && d.table.Wf() && OneSocket(d.table.sockets, rsp) && DeadIsNotWaiting(d.table, rsp)
    && Balanced(d.table.sockets, d, rsp)
  }

  // One socket is replaced, or removed, and the others stay.
  ghost predicate ChangedAt(m: Sockets, n: Sockets, id: Id) {
    forall i: Id :: i != id ==> (i in m <==> i in n) && (i in m ==> m[i] == n[i])
  }

  lemma WaitsAfterChange(m: Sockets, n: Sockets, id: Id, rsp: nat)
    requires OneSocket(m, rsp) && ChangedAt(m, n, id)
    requires WaitsAt(n, id, rsp) ==> WaitsAt(m, id, rsp) || !Waits(m, rsp)
    ensures OneSocket(n, rsp)
    ensures Waits(n, rsp) <==> WaitsAt(n, id, rsp) || (Waits(m, rsp) && !WaitsAt(m, id, rsp))
  {
    assert forall i: Id :: i != id ==> (WaitsAt(m, i, rsp) <==> WaitsAt(n, i, rsp));
    if Waits(m, rsp) {
      var i: Id :| WaitsAt(m, i, rsp);
      assert i != id ==> WaitsAt(n, i, rsp);
    }
  }

  predicate Tells(effects: seq<Effect>, rsp: nat) {
    effects != [] && effects[0].Told? && effects[0].rsp == rsp
  }

  lemma ToldOneMore(told: seq<Effect>, effects: seq<Effect>, rsp: nat)
    requires |effects| <= 1
    ensures TimesTold(told + effects, rsp) == TimesTold(told, rsp) + TimesTold(effects, rsp)
    ensures TimesTold(effects, rsp) == One(Tells(effects, rsp))
  {
    if effects == [] {
      assert told + effects == told;
    } else {
      assert (told + effects)[..|told|] == told && effects[..0] == [];
    }
  }

  lemma PutChanges(t: Table, socket: Socket)
    requires t.Wf() && !t.Full() && !t.Overflows()
    ensures t.Put(socket).Wf() && ChangedAt(t.sockets, t.Put(socket).sockets, t.Next())
    ensures t.Next() !in t.sockets && Sock(t.Put(socket), t.Next()) == Some(socket)
  {
    PutKeepsWf(t, socket);
  }

  lemma StartKeeps(d: Desk, u: Use, e: Desk, rsp: nat)
    requires Inv(d, rsp) && u.Start? && UseStep(d, u) == Some(e)
    ensures Inv(e, rsp)
  {
    var o := StartConnecting(d.table, u.identity, u.hello, u.channel, u.rsp);
    ToldOneMore(d.told, o.effects, rsp);
    if !d.table.Full() {
      PutChanges(d.table, Socket(Connecting(u.rsp), u.channel));
      WaitsAfterChange(d.table.sockets, o.table.sockets, d.table.Next(), rsp);
    }
  }

  /** The socket that a frame changes, and who is told. */
  lemma ArrivalChanges(t: Table, f: Frame, w: World, o: Outcome, rsp: nat)
    requires t.Wf() && o == Inbound(t, f, w) && o.Outcome?
    ensures var id := if Addressed(f).Some? then Addressed(f).value else t.Next();
      && ChangedAt(t.sockets, o.table.sockets, id) && |o.effects| <= 1 && o.table.dead == t.dead
      && (WaitsAt(o.table.sockets, id, rsp) <==> WaitsAt(t.sockets, id, rsp) && (f.Connect? || f.Data?))
      && (Tells(o.effects, rsp) <==> WaitsAt(t.sockets, id, rsp) && (f.Ack? || f.Reject?))
      && (rsp in ResetAt(t, Arrive(f, w)) <==> f.Reset? && WaitsAt(t.sockets, id, rsp))
      && (f.Connect? ==> !WaitsAt(t.sockets, id, rsp))
  {
    if f.Connect? {
      if w.registry.Granted? && !t.Full() {
        PutChanges(t, Socket(Open(f.localId), w.registry.channel));
      } else if t.chain == [] {
        assert t.Next() !in t.sockets;
      } else {
        assert t.chain[0] in t.chain;
      }
    }
  }

  lemma ArriveKeeps(d: Desk, f: Frame, w: World, e: Desk, rsp: nat)
    requires Inv(d, rsp) && UseStep(d, Arrive(f, w)) == Some(e)
    ensures Inv(e, rsp)
  {
    var t, o := d.table, Inbound(d.table, f, w);
    var id := if Addressed(f).Some? then Addressed(f).value else t.Next();
    InboundKeepsWf(t, f, w);
    ArrivalChanges(t, f, w, o, rsp);
    ToldOneMore(d.told, o.effects, rsp);
    WaitsAfterChange(t.sockets, o.table.sockets, id, rsp);
    assert WaitsAt(t.sockets, id, rsp) ==> Waits(t.sockets, rsp) && rsp in d.started && rsp !in d.lost;
  }

  lemma CleanKeeps(d: Desk, e: Desk, rsp: nat)
    requires Inv(d, rsp) && UseStep(d, Clean) == Some(e)
    ensures Inv(e, rsp) && (Waits(e.table.sockets, rsp) <==> Waits(d.table.sockets, rsp))
  {
    var t := d.table;
    ToldOneMore(d.told, [], rsp);
    if t.dead.Some? {
      RemoveKeepsWf(t, t.dead.value);
      assert t.Cleaned().sockets == t.sockets - {t.dead.value};
      WaitsAfterChange(t.sockets, t.Cleaned().sockets, t.dead.value, rsp);
    }
  }

  lemma LocalKeeps(d: Desk, u: Use, e: Desk, rsp: nat)
    requires Inv(d, rsp) && UseStep(d, u) == Some(e) && (u.Die? || u.SendLocal?)
    ensures Inv(e, rsp)
  {
    ToldOneMore(d.told, [], rsp);
  }

  lemma UseStepKeeps(d: Desk, u: Use, e: Desk, rsp: nat)
    requires Inv(d, rsp) && UseStep(d, u) == Some(e)
    ensures Inv(e, rsp)
  {
    match u
    case Start(_, _, _, _) => StartKeeps(d, u, e, rsp);
    case Arrive(f, w) => ArriveKeeps(d, f, w, e, rsp);
    case Die(_, _) => LocalKeeps(d, u, e, rsp);
    case SendLocal(_, _) => LocalKeeps(d, u, e, rsp);
    case Clean => CleanKeeps(d, e, rsp);
  }

  lemma {:induction false} UseRunKeeps(capacity: nat, us: seq<Use>, d: Desk, rsp: nat)
    requires UseRun(Opened(capacity), us) == Some(d)
    ensures Inv(d, rsp)
    decreases |us|
  {
    if us != [] {
      var front := us[..|us| - 1];
      UseRunKeeps(capacity, front, UseRun(Opened(capacity), front).value, rsp);
      UseStepKeeps(UseRun(Opened(capacity), front).value, us[|us| - 1], d, rsp);
    }
  }

  // ---- what holds in every run ----

  /** The use after `before` is the arrival of a RESET that names the connecting socket of `rsp`. */
  ghost predicate LostAt(capacity: nat, before: seq<Use>, u: Use, rsp: nat) {
    UseRun(Opened(capacity), before).Some? && rsp in ResetAt(UseRun(Opened(capacity), before).value.table, u)
  }

  /** Some use of the run was. */
  ghost predicate WasLost(capacity: nat, us: seq<Use>, rsp: nat) {
    exists k: nat :: k < |us| && LostAt(capacity, us[..k], us[k], rsp)
  }

  lemma WasLostLast(capacity: nat, front: seq<Use>, u: Use, rsp: nat)
    ensures WasLost(capacity, front + [u], rsp) <==> WasLost(capacity, front, rsp) || LostAt(capacity, front, u, rsp)
  {
    var us := front + [u];
    forall k: nat | k < |front| ensures us[..k] == front[..k] && us[k] == front[k] {}
    assert us[..|front|] == front;
    if WasLost(capacity, front, rsp) {
      var k: nat :| k < |front| && LostAt(capacity, front[..k], front[k], rsp);
      assert LostAt(capacity, us[..k], us[k], rsp);
    }
    if WasLost(capacity, us, rsp) {
      var k: nat :| k < |us| && LostAt(capacity, us[..k], us[k], rsp);
      assert k < |front| ==> LostAt(capacity, front[..k], front[k], rsp);
    }
  }

  lemma LastUse(capacity: nat, front: seq<Use>, m: Desk, u: Use, d: Desk, rsp: nat)
    requires UseRun(Opened(capacity), front) == Some(m) && UseStep(m, u) == Some(d)
    ensures rsp in d.lost <==> rsp in m.lost || LostAt(capacity, front, u, rsp)
  {
  }

  lemma {:induction false} LostInRun(capacity: nat, us: seq<Use>, d: Desk, rsp: nat)
    requires UseRun(Opened(capacity), us) == Some(d)
    ensures rsp in d.lost <==> WasLost(capacity, us, rsp)
    decreases |us|
  {
    if us != [] {
      var front, u := us[..|us| - 1], us[|us| - 1];
      var m := UseRun(Opened(capacity), front).value;
      LostInRun(capacity, front, m, rsp);
      LastUse(capacity, front, m, u, d, rsp);
      assert us == front + [u];
      WasLostLast(capacity, front, u, rsp);
    }
  }

  /** Every initiator that was ever accepted waits, or has been told, once, or is left without an answer; and
      that is so if and only if a RESET arrived that named its socket while it was connecting. */
  lemma OneAnswer(capacity: nat, us: seq<Use>, d: Desk, rsp: nat)
    requires UseRun(Opened(capacity), us) == Some(d)
    ensures TimesTold(d.told, rsp) <= 1
    ensures rsp !in d.started ==> !Waits(d.table.sockets, rsp) && TimesTold(d.told, rsp) == 0
    ensures Waits(d.table.sockets, rsp) ==> TimesTold(d.told, rsp) == 0
    ensures rsp in d.started && !Waits(d.table.sockets, rsp) && TimesTold(d.told, rsp) == 0 <==> WasLost(capacity, us, rsp)
  {
    UseRunKeeps(capacity, us, d, rsp);
    LostInRun(capacity, us, d, rsp);
  }

  /** A cleanup takes no initiator's socket, even if the ID of the dead socket has been given out again. */
  lemma CleanupLosesNobody(capacity: nat, us: seq<Use>, d: Desk, e: Desk, rsp: nat)
    requires UseRun(Opened(capacity), us) == Some(d) && UseStep(d, Clean) == Some(e)
    ensures d.table.dead.Some? ==> !WaitsAt(d.table.sockets, d.table.dead.value, rsp)
    ensures Waits(e.table.sockets, rsp) <==> Waits(d.table.sockets, rsp)
  {
    UseRunKeeps(capacity, us, d, rsp);
    CleanKeeps(d, e, rsp);
  }
}
