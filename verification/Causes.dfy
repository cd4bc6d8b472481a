/** Why a table tells what it tells and sends what it sends: over every run of uses, disturbed or not, each
    effect and each frame has its cause in the use that made it, and each cause its effect and its frame. */
module Causes {
  import opened Options
  import opened Connections
  import opened Initiators

  predicate OpenTo(t: Table, id: Id, remoteId: Id) {
    id in t.sockets && t.sockets[id].state == Open(remoteId)
  }

  /** What makes a table tell `x`: an initiator is told that it is accepted by an ACK for its connecting socket,
      and that it is rejected, with the reason, by a REJECT for it or by a full table; a channel is handed the
      body of data from the socket it is open to, if it takes it, and closed by a RESET of its open socket. */
  predicate Cause(t: Table, u: Use, x: Effect) {
    match x
    case Told(rsp, None) => u.Arrive? && u.frame.Ack? && WaitsAt(t.sockets, u.frame.remoteId, rsp)
    case Told(rsp, Some(reason)) =>
      || (u.Arrive? && u.frame.Reject? && u.frame.reason == reason && WaitsAt(t.sockets, u.frame.remoteId, rsp))
      || (u.Start? && u.rsp == rsp && |t.sockets| == t.capacity && reason == ConnTableFull(t.capacity))
    case Handed(channel, body) =>
      && u.Arrive? && u.frame.Data? && u.frame.body == body && OpenTo(t, u.frame.remoteId, u.frame.localId)
      && t.sockets[u.frame.remoteId].channel == channel && u.world.sending.Sent?
    case ClosedWith(channel, why) =>
      && u.Arrive? && u.frame.Reset? && u.frame.why == why && u.frame.remoteId in t.sockets
      && t.sockets[u.frame.remoteId].state.Open? && t.sockets[u.frame.remoteId].channel == channel
  }

  /** The reason for which data cannot be handed over. */
  predicate Fails(sending: Sending, why: ResetReason) {
    match sending
    case Sent => false
    case Undecodable(error) => why == YouDoneGoofed(error)
    case Gone => why == BecauseISaidSo
    case Failed(reason) => why == reason
  }

  /** What makes a table send `y`. */
  predicate Due(t: Table, u: Use, y: Frame)
    requires t.used < MAX_ID
  {
    match y
    case Connect(l, identity, hello) =>
      u.Start? && |t.sockets| < t.capacity && l == t.Next() && identity == u.identity && hello == u.hello
    case Data(l, r, body) => u.SendLocal? && u.id == l && u.body == body && OpenTo(t, l, r)
    case Ack(l, r) =>
      && u.Arrive? && u.frame.Connect? && u.frame.localId == r && u.world.registry.Granted?
      && |t.sockets| < t.capacity && l == t.Next()
    case Reject(r, reason) =>
      && u.Arrive? && u.frame.Connect? && u.frame.localId == r
      && (u.world.registry == Denied(reason)
          || (u.world.registry.Granted? && |t.sockets| == t.capacity && reason == ConnTableFull(t.capacity)))
    case Reset(r, why) =>
      || (u.Die? && OpenTo(t, u.id, r) && u.why == why)
      || (u.Arrive? && u.frame.Data? && u.frame.localId == r
          && if OpenTo(t, u.frame.remoteId, r) then Fails(u.world.sending, why) else why == NoSuchConn)
      || (u.Arrive? && u.frame.Ack? && u.frame.localId == r
          && if u.frame.remoteId !in t.sockets then why == NoSuchConn
             else if t.sockets[u.frame.remoteId].state.Open? then why == YesSuchConn
             else !u.world.initiator && why == BecauseISaidSo)
  }

  lemma EffectsExactly(d: Desk, u: Use, e: Desk, x: Effect)
    requires d.table.Wf() && UseStep(d, u) == Some(e)
    ensures d.told <= e.told && |e.told| <= |d.told| + 1
    ensures x in e.told[|d.told|..] <==> Cause(d.table, u, x)
  {
  }

  predicate Replies(o: Outcome, y: Frame) {
    o.Outcome? && o.reply == Some(y)
  }

  lemma ConnectReplies(t: Table, f: Frame, w: World, y: Frame)
    requires t.Wf() && f.Connect? && Inbound(t, f, w).Outcome?
    ensures Replies(Inbound(t, f, w), y) <==> Due(t, Arrive(f, w), y)
  {
    assert |t.sockets| <= t.capacity;
  }

  lemma OtherReplies(t: Table, f: Frame, w: World, y: Frame)
    requires t.Wf() && !f.Connect?
    ensures Replies(Inbound(t, f, w), y) <==> Due(t, Arrive(f, w), y)
  {
  }

  lemma LocalFrames(d: Desk, u: Use, e: Desk, y: Frame)
    requires d.table.Wf() && UseStep(d, u) == Some(e) && !u.Arrive?
    ensures d.sent <= e.sent && |e.sent| <= |d.sent| + 1
    ensures y in e.sent[|d.sent|..] <==> Due(d.table, u, y)
  {
    assert |d.table.sockets| <= d.table.capacity;
  }

  lemma FramesExactly(d: Desk, u: Use, e: Desk, y: Frame)
    requires d.table.Wf() && UseStep(d, u) == Some(e)
    ensures d.sent <= e.sent && |e.sent| <= |d.sent| + 1
    ensures y in e.sent[|d.sent|..] <==> Due(d.table, u, y)
  {
    if !u.Arrive? {
      LocalFrames(d, u, e, y);
    } else if u.frame.Connect? {
      ConnectReplies(d.table, u.frame, u.world, y);
    } else {
      OtherReplies(d.table, u.frame, u.world, y);
    }
  }

  /** What an arriving frame makes of the socket that it names: a REJECT or a RESET takes it out, and so does data from the
      socket it is open to that cannot be handed over; an ACK opens it if it is connecting; nothing else changes it. */
  lemma NamedSocketExactly(t: Table, f: Frame, w: World, id: Id)
    requires t.Wf() && Addressed(f) == Some(id) && id in t.sockets && Inbound(t, f, w).Outcome?
    ensures var u := Inbound(t, f, w).table;
      && (id !in u.sockets <==> f.Reject? || f.Reset? || (f.Data? && OpenTo(t, id, f.localId) && !w.sending.Sent?))
      && (id !in u.sockets ==> !u.Full() && u.Next() == id)
      && (id in u.sockets ==> u.chain == t.chain && u.used == t.used && u.sockets[id].channel == t.sockets[id].channel
                              && u.sockets[id].state == if f.Ack? && t.sockets[id].state.Connecting? then Open(f.localId) else t.sockets[id].state)
  {
    ReusedAtOnce(t, id, t.sockets[id]);
  }

  // ---- over whole runs ----

  ghost predicate CausedAt(capacity: nat, before: seq<Use>, u: Use, x: Effect) {
    UseRun(Opened(capacity), before).Some? && Cause(UseRun(Opened(capacity), before).value.table, u, x)
  }

  ghost predicate DueAt(capacity: nat, before: seq<Use>, u: Use, y: Frame) {
    && UseRun(Opened(capacity), before).Some? && UseRun(Opened(capacity), before).value.table.used < MAX_ID
    && Due(UseRun(Opened(capacity), before).value.table, u, y)
  }

  ghost predicate WasCaused(capacity: nat, us: seq<Use>, x: Effect) {
    exists k: nat :: k < |us| && CausedAt(capacity, us[..k], us[k], x)
  }

  ghost predicate WasDue(capacity: nat, us: seq<Use>, y: Frame) {
    exists k: nat :: k < |us| && DueAt(capacity, us[..k], us[k], y)
  }

  lemma Prefixes(front: seq<Use>, u: Use)
    ensures forall k: nat :: k < |front| ==> (front + [u])[..k] == front[..k] && (front + [u])[k] == front[k]
    ensures (front + [u])[..|front|] == front && (front + [u])[|front|] == u
  {
  }

  lemma WasCausedLast(capacity: nat, front: seq<Use>, u: Use, x: Effect)
    ensures WasCaused(capacity, front + [u], x) <==> WasCaused(capacity, front, x) || CausedAt(capacity, front, u, x)
  {
    var us := front + [u];
    Prefixes(front, u);
    if WasCaused(capacity, front, x) {
      var k: nat :| k < |front| && CausedAt(capacity, front[..k], front[k], x);
      assert CausedAt(capacity, us[..k], us[k], x);
    }
    if CausedAt(capacity, front, u, x) {
      assert CausedAt(capacity, us[..|front|], us[|front|], x);
    }
    if WasCaused(capacity, us, x) {
      var k: nat :| k < |us| && CausedAt(capacity, us[..k], us[k], x);
      assert k < |front| ==> CausedAt(capacity, front[..k], front[k], x);
    }
  }

  lemma WasDueLast(capacity: nat, front: seq<Use>, u: Use, y: Frame)
    ensures WasDue(capacity, front + [u], y) <==> WasDue(capacity, front, y) || DueAt(capacity, front, u, y)
  {
    var us := front + [u];
    Prefixes(front, u);
    if WasDue(capacity, front, y) {
      var k: nat :| k < |front| && DueAt(capacity, front[..k], front[k], y);
      assert DueAt(capacity, us[..k], us[k], y);
    }
    if DueAt(capacity, front, u, y) {
      assert DueAt(capacity, us[..|front|], us[|front|], y);
    }
    if WasDue(capacity, us, y) {
      var k: nat :| k < |us| && DueAt(capacity, us[..k], us[k], y);
      assert k < |front| ==> DueAt(capacity, front[..k], front[k], y);
    }
  }

  lemma LastTells(capacity: nat, front: seq<Use>, m: Desk, u: Use, d: Desk, x: Effect)
    requires UseRun(Opened(capacity), front) == Some(m) && UseStep(m, u) == Some(d)
    ensures x in d.told <==> x in m.told || CausedAt(capacity, front, u, x)
  {
    UseRunKeeps(capacity, front, m, 0);
    EffectsExactly(m, u, d, x);
    assert d.told == m.told + d.told[|m.told|..];
  }

  lemma LastSends(capacity: nat, front: seq<Use>, m: Desk, u: Use, d: Desk, y: Frame)
    requires UseRun(Opened(capacity), front) == Some(m) && UseStep(m, u) == Some(d)
    ensures y in d.sent <==> y in m.sent || DueAt(capacity, front, u, y)
  {
    UseRunKeeps(capacity, front, m, 0);
    FramesExactly(m, u, d, y);
    assert d.sent == m.sent + d.sent[|m.sent|..];
  }

  lemma TellsOneMore(capacity: nat, front: seq<Use>, m: Desk, u: Use, d: Desk, x: Effect)
    requires UseRun(Opened(capacity), front) == Some(m) && UseStep(m, u) == Some(d)
    requires x in m.told <==> WasCaused(capacity, front, x)
    ensures x in d.told <==> WasCaused(capacity, front + [u], x)
  {
    LastTells(capacity, front, m, u, d, x);
    WasCausedLast(capacity, front, u, x);
  }

  lemma SendsOneMore(capacity: nat, front: seq<Use>, m: Desk, u: Use, d: Desk, y: Frame)
    requires UseRun(Opened(capacity), front) == Some(m) && UseStep(m, u) == Some(d)
    requires y in m.sent <==> WasDue(capacity, front, y)
    ensures y in d.sent <==> WasDue(capacity, front + [u], y)
  {
    LastSends(capacity, front, m, u, d, y);
    WasDueLast(capacity, front, u, y);
  }

  lemma LastUse(capacity: nat, us: seq<Use>, d: Desk) returns (front: seq<Use>, m: Desk, u: Use)
    requires us != [] && UseRun(Opened(capacity), us) == Some(d)
    ensures us == front + [u] && UseRun(Opened(capacity), front) == Some(m) && UseStep(m, u) == Some(d)
  {
    front, u := us[..|us| - 1], us[|us| - 1];
    m := UseRun(Opened(capacity), front).value;
  }

  /** In every run, whatever arrives, the table has told `x` if and only if some use was a cause of it. */
  lemma {:induction false} ToldExactly(capacity: nat, us: seq<Use>, d: Desk, x: Effect)
    requires UseRun(Opened(capacity), us) == Some(d)
    ensures x in d.told <==> WasCaused(capacity, us, x)
    decreases |us|
  {
    if us != [] {
      var front, m, u := LastUse(capacity, us, d);
      ToldExactly(capacity, front, m, x);
      TellsOneMore(capacity, front, m, u, d, x);
    }
  }

  /** In every run, whatever arrives, the table has sent `y` if and only if it was due to some use. */
  lemma {:induction false} SentExactly(capacity: nat, us: seq<Use>, d: Desk, y: Frame)
    requires UseRun(Opened(capacity), us) == Some(d)
    ensures y in d.sent <==> WasDue(capacity, us, y)
    decreases |us|
  {
    if us != [] {
      var front, m, u := LastUse(capacity, us, d);
      SentExactly(capacity, front, m, y);
      SendsOneMore(capacity, front, m, u, d, y);
    }
  }
}
