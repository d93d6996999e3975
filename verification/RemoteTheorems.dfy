/** The guarantees of the remoting protocol, for every run of the two ends: any program moves on either side,
    calls nested in both directions to any depth, and failures of any read or write. */
module RemoteTheorems {
  import opened RemoteHandle
  import opened RemoteSystem
  import opened RemoteSafety
  import opened RemoteCoupling

  ghost predicate BothOpen(s: Sys) {
    s.client.h.open && s.server.h.open
  }

  ghost predicate SysOk(s: Sys) {
    && PartyOk(Client, s.client) && InboxOk(s.client)
    && PartyOk(Server, s.server) && InboxOk(s.server)
    && (BothOpen(s) ==> CoupledSys(s))
  }

  // ---------------------------------------------------------------- the invariant

  /** Nothing is sent on a stream that is closed, or that the step closes. */
  lemma SendsOnlyOpen(x: Side, p: Party, a: Action, tag: nat)
    requires PartyOk(x, p)
    ensures var n := Local(x, p, a, tag);
      n.Next? && n.out != [] ==> p.h.open && n.p.h.open
  {
    assert LocalsKeyed(p.h);
    hide PartyOk, Holds, SerializeAll, DeserializeAll, Close, Drain, Release;
    match a {
      case Start(vals, _) => SerializeAllSends(p.h, vals);
      case Send(_) =>
        if TopIs(p.stack, (f: Frame) => f.Gc?) && p.h.open {
          var out := Top(p.stack).out;
          SerializeAllSends(p.h, if out.Call? then out.args else out.vals);
        }
      case _ =>
    }
  }

  lemma StaysClosed(x: Side, p: Party, a: Action, tag: nat)
    requires PartyOk(x, p) && !p.h.open
    ensures var n := Local(x, p, a, tag); n.Next? ==> !n.p.h.open
  {
    match a {
      case Send(_) => DrainStaysClosed(p.h.(open := false));
      case LoseRead => LoseReadCloses(p);
      case Drop(id, noMemory) =>
        if DoDrop(p, id, noMemory).Next? {
          ReleaseFrame(p.h, id, noMemory, DyingIds(p.stack));
        }
      case _ =>
    }
  }

  lemma LoseReadCloses(p: Party)
    ensures DoLoseRead(p).Next? ==> !DoLoseRead(p).p.h.open
  {
    DrainStaysClosed(MarkRead(p.h).(open := false));
  }

  lemma OwnInbox(x: Side, p: Party, a: Action, tag: nat)
    ensures var n := Local(x, p, a, tag);
      n.Next? ==> if a.Receive? then p.inbox != [] && n.p.inbox == p.inbox[1..] else n.p.inbox == p.inbox
  {
  }

  /** The packets still waiting for an end whose peer is gone stay readable until they are read. */
  lemma InboxKept(x: Side, p: Party, a: Action, tag: nat)
    requires PartyOk(x, p) && InboxOk(p)
    ensures var n := Local(x, p, a, tag); n.Next? ==> InboxOk(n.p)
  {
    if !p.h.open {
      StaysClosed(x, p, a, tag);
    } else if p.inbox == [] || a.Receive? {
      OwnInbox(x, p, a, tag);
      hide Local;
    } else {
      WaitingKept(x, p, a, tag);
    }
  }

  lemma WaitingKept(x: Side, p: Party, a: Action, tag: nat)
    requires PartyOk(x, p) && InboxOk(p) && p.h.open && p.inbox != [] && !a.Receive?
    ensures var n := Local(x, p, a, tag);
      n.Next? && n.p.h.open ==> n.p == p.(h := n.p.h) && n.p.h.local == p.h.local
  {
    match a {
      case LoseRead => LoseReadCloses(p);
      case Drop(id, noMemory) =>
        if DoDrop(p, id, noMemory).Next? {
          ReleaseFrame(p.h, id, noMemory, DyingIds(p.stack));
        }
      case _ =>
    }
  }

  lemma CoupledGivesInboxes(s: Sys)
    requires CoupledSys(s)
    ensures InboxOk(s.client) && InboxOk(s.server)
  {
    var ph, calls :| Coupled(ph, calls, Get(s, Holder(calls)), Get(s, Other(Holder(calls))));
    CoupledInboxes(ph, calls, Get(s, Holder(calls)), Get(s, Other(Holder(calls))));
  }

  lemma CoupledFrom(s: Sys, x: Side, ph: Phase, calls: Calls)
    requires Paired(ph, calls, x, Get(s, x), Get(s, Other(x)))
    ensures CoupledSys(s)
  {
    assert Coupled(ph, calls, Get(s, Holder(calls)), Get(s, Other(Holder(calls))));
  }

  lemma PairedFrom(s: Sys, x: Side) returns (ph: Phase, calls: Calls)
    requires CoupledSys(s)
    ensures Paired(ph, calls, x, Get(s, x), Get(s, Other(x)))
  {
    ph, calls :| Coupled(ph, calls, Get(s, Holder(calls)), Get(s, Other(Holder(calls))));
  }

  lemma StepCouples(s: Sys, x: Side, a: Action)
    requires SysOk(s) && BothOpen(Step(s, x, a))
    ensures CoupledSys(Step(s, x, a))
  {
    var p, q := Get(s, x), Get(s, Other(x));
    var n := Local(x, p, a, s.tags);
    if n.Next? {
      if !p.h.open {
        StaysClosed(x, p, a, s.tags);
      }
      var ph, calls := PairedFrom(s, x);
      LocalFits(ph, calls, x, p, q, a, s.tags);
      var ph', calls' :| Paired(ph', calls', x, n.p, q.(inbox := q.inbox + n.out));
      CoupledFrom(Step(s, x, a), x, ph', calls');
    }
  }

  lemma OtherKeeps(x: Side, q: Party, out: seq<Msg>)
    requires PartyOk(x, q)
    ensures PartyOk(x, q.(inbox := q.inbox + out))
  {
  }

  lemma StepParties(s: Sys, x: Side, a: Action)
    requires SysOk(s)
    ensures var s' := Step(s, x, a); PartyOk(Client, s'.client) && PartyOk(Server, s'.server)
  {
    var q := Get(s, Other(x));
    var n := Local(x, Get(s, x), a, s.tags);
    if n.Next? {
      LocalFine(x, Get(s, x), a, s.tags);
      OtherKeeps(Other(x), q, n.out);
    }
  }

  lemma StepInboxes(s: Sys, x: Side, a: Action)
    requires SysOk(s) && !BothOpen(Step(s, x, a))
    ensures var s' := Step(s, x, a); InboxOk(s'.client) && InboxOk(s'.server)
  {
    var q := Get(s, Other(x));
    var n := Local(x, Get(s, x), a, s.tags);
    if n.Next? {
      InboxKept(x, Get(s, x), a, s.tags);
      SendsOnlyOpen(x, Get(s, x), a, s.tags);
      assert n.out == [] ==> q.inbox + n.out == q.inbox;
    }
  }

  /** Every step keeps the invariant. */
  lemma StepOk(s: Sys, x: Side, a: Action)
    requires SysOk(s)
    ensures SysOk(Step(s, x, a))
  {
    StepParties(s, x, a);
    if BothOpen(Step(s, x, a)) {
      StepCouples(s, x, a);
      CoupledGivesInboxes(Step(s, x, a));
    } else {
      StepInboxes(s, x, a);
    }
  }

  lemma NewHandleOk(isClient: bool)
    ensures HandleOk(NewHandle(isClient), {})
  {
  }

  lemma FirstFrame(x: Side, f: Frame)
    requires Sits(x, [], f) && (f.Connect? || f.Boot?)
    ensures Linked(x, [f]) && Pinned([f]) == multiset{} && DyingIds([f]) == {}
  {
    assert Pop([f]) == [] && Top([f]) == f;
  }

  lemma InitParty(x: Side, f: Frame)
    requires Sits(x, [], f) && (f.Connect? || f.Boot?)
    ensures PartyOk(x, Party(NewHandle(x == Client), [f], [], []))
  {
    FirstFrame(x, f);
    NewHandleOk(x == Client);
  }

  lemma InitOk()
    ensures SysOk(Init())
  {
    InitParty(Client, Connect);
    InitParty(Server, Boot);
    assert Paired(Booting, [], Client, Init().client, Init().server);
    CoupledFrom(Init(), Client, Booting, []);
  }

  lemma {:induction false} RunKeeps(s: Sys, moves: seq<(Side, Action)>)
    requires SysOk(s)
    ensures SysOk(Run(s, moves))
    decreases moves
  {
    if moves != [] {
      StepOk(s, moves[0].0, moves[0].1);
      RunKeeps(Step(s, moves[0].0, moves[0].1), moves[1..]);
    }
  }

  ghost predicate Reachable(s: Sys) {
    exists moves :: s == Run(Init(), moves)
  }

  lemma ReachableOk(s: Sys)
    requires Reachable(s)
    ensures SysOk(s)
  {
    InitOk();
    var moves :| s == Run(Init(), moves);
    RunKeeps(Init(), moves);
  }

  // ---------------------------------------------------------------- safety

  /** No abort() is reached and no missing table entry is dereferenced, on any path, open or closed: an end that waits
      for a packet has not read last, one that may write has not written last, and every candidate and every proxy about
      to be deleted is in the table. */
  lemma NeverAborts(s: Sys, x: Side)
    requires Reachable(s)
    ensures var p := Get(s, x);
      && !p.h.fault
      && (Reading(p.stack) ==> p.h.lastOp != Read) && (p.h.open && !Reading(p.stack) ==> p.h.lastOp != Write)
      && p.h.cand <= p.h.remote.Keys && DyingIds(p.stack) <= p.h.remote.Keys
  {
    ReachableOk(s);
  }

  /** An end that neither waits for a packet nor has still to start. */
  predicate HasTurn(p: Party) {
    !Reading(p.stack) && !TopIs(p.stack, (f: Frame) => f.Boot?)
  }

  /** What one end's stack and inbox say about both values of `last_op`. */
  predicate TurnOf(p: Party, q: Party) {
    && (HasTurn(p) ==> p.h.lastOp == Read && q.h.lastOp == Write)
    && (p.inbox != [] ==> Reading(p.stack) && p.h.lastOp != Read && q.h.lastOp == Write)
  }

  lemma HolderTurn(ph: Phase, calls: Calls, px: Party, py: Party)
    requires Shape(ph, calls, px, py)
    ensures TurnOf(px, py)
  {
    ViewTop(calls);
    if calls != [] {
      OuterTop(calls);
    }
  }

  lemma OtherTurn(ph: Phase, calls: Calls, px: Party, py: Party)
    requires Shape(ph, calls, px, py)
    ensures TurnOf(py, px) && |px.inbox| + |py.inbox| <= 1
  {
    ViewTop(calls);
  }

  lemma SomeoneHasTurn(ph: Phase, calls: Calls, px: Party, py: Party)
    requires Shape(ph, calls, px, py)
    ensures !(Reading(px.stack) && Reading(py.stack) && px.inbox == [] && py.inbox == [])
  {
    ViewTop(calls);
  }

  /** The flip-flop: at most one packet is in flight, and it is in flight to an end that waits for it; the two ends
      never both wait with nothing in flight; and `last_op` tells the turn: the end that has it has read last and the
      other one has written last, and with a packet in flight its sender has written last and its receiver has not
      read. */
  lemma FlipFlop(s: Sys)
    requires Reachable(s) && BothOpen(s)
    ensures |s.client.inbox| + |s.server.inbox| <= 1
    ensures !(Reading(s.client.stack) && Reading(s.server.stack) && s.client.inbox == [] && s.server.inbox == [])
    ensures TurnOf(s.client, s.server) && TurnOf(s.server, s.client)
  {
    ReachableOk(s);
    var ph, calls :| Coupled(ph, calls, Get(s, Holder(calls)), Get(s, Other(Holder(calls))));
    HolderTurn(ph, calls, Get(s, Holder(calls)), Get(s, Other(Holder(calls))));
    OtherTurn(ph, calls, Get(s, Holder(calls)), Get(s, Other(Holder(calls))));
    SomeoneHasTurn(ph, calls, Get(s, Holder(calls)), Get(s, Other(Holder(calls))));
    hide Coupled, TurnOf, SysOk;
    if Holder(calls) == Client {
    } else {
      assert Holder(calls) == Server;
    }
  }

  /** While an end collects, the other end waits for its next packet, below no collection of its own that could go on:
      it can only serve. */
  lemma PeerOnlyServes(s: Sys, x: Side)
    requires Reachable(s) && BothOpen(s) && Get(s, x).stack != []
    requires Top(Get(s, x).stack).Gc? || Top(Get(s, x).stack).Dying?
    ensures WaitsForAnswer(Get(s, Other(x)).stack) && Get(s, Other(x)).h.lastOp == Write
  {
    ReachableOk(s);
    var ph, calls :| Coupled(ph, calls, Get(s, Holder(calls)), Get(s, Other(Holder(calls))));
    Abilities(ph, calls, Get(s, Holder(calls)), Get(s, Other(Holder(calls))));
    ViewTop(calls);
    if calls != [] {
      OuterTop(calls);
    }
  }

  /** Well-bracketed calls: an answer reaches exactly the activation that sent the request it answers, and
      requests only reach event loops that may serve them. */
  lemma AnswersReachTheirRequest(s: Sys, x: Side)
    requires Reachable(s) && Get(s, x).h.open && Get(s, x).inbox != []
    ensures var p := Get(s, x);
      match p.inbox[0]
      case Reply(t, _, _) => Reading(p.stack) && (Top(p.stack) == Loop(t) || Top(p.stack).Connect?
                             || (Top(p.stack).Dying? && Top(p.stack).tag == t))
      case _ => WaitsForAnswer(p.stack)
  {
    ReachableOk(s);
  }

  /** Whenever a program has control the two stacks are the two views of one alternating call stack. */
  lemma StacksMatch(s: Sys, x: Side)
    requires Reachable(s) && BothOpen(s) && InProgram(x, Get(s, x).stack)
    ensures exists calls :: (
              Holder(calls) == x && s.client.stack == View(Client, calls) && s.server.stack == View(Server, calls))
  {
    ReachableOk(s);
    var ph, calls :| Coupled(ph, calls, Get(s, Holder(calls)), Get(s, Other(Holder(calls))));
    Abilities(ph, calls, Get(s, Holder(calls)), Get(s, Other(Holder(calls))));
    assert ph.Running? && Holder(calls) == x;
  }

  /** Reading a packet never throws for an unknown object. */
  lemma NoUnknownObject(s: Sys, x: Side)
    requires Reachable(s) && Get(s, x).h.open && Get(s, x).inbox != []
    ensures var p := Get(s, x);
      match p.inbox[0]
      case Request(_, rs) => DeserializeAll(MarkRead(p.h), rs).1
      case Reply(_, _, rs) => DeserializeAll(MarkRead(p.h), rs).1
      case Destroy(_, id) => id in p.h.local && p.h.local[id].Id() == id
  {
    ReachableOk(s);
    var p := Get(s, x);
    match p.inbox[0] {
      case Request(_, rs) => DeserializeAllReceives(MarkRead(p.h), rs);
      case Reply(_, _, rs) => DeserializeAllReceives(MarkRead(p.h), rs);
      case _ =>
    }
  }

  /** The sender's own objects named in packets on their way to an end. */
  ghost function NewRefs(inbox: seq<Msg>): set<int> {
    if inbox == [] then {}
    else (match inbox[0]
          case Request(_, rs) => LocalIds(rs)
          case Reply(_, _, rs) => LocalIds(rs)
          case Destroy(_, _) => {}) + NewRefs(inbox[1..])
  }

  /** The identifier already erased by `x` whose proxy the waiting peer is about to delete. */
  ghost function HalfDestroyed(x: Party, peer: Party): set<int> {
    if x.inbox == [] && peer.stack != [] && Top(peer.stack).Dying? then {Top(peer.stack).id} else {}
  }

  ghost predicate Exports(p: Party, q: Party) {
    && p.h.local.Keys == q.h.remote.Keys + NewRefs(q.inbox) - HalfDestroyed(p, q)
    && HalfDestroyed(p, q) <= q.h.remote.Keys
  }

  lemma NewRefsOne(m: Msg)
    ensures NewRefs([m]) == if m.Request? || m.Reply? then LocalIds(m.refs) else {}
  {
    assert [m][1..] == [];
  }

  lemma HolderExports(ph: Phase, calls: Calls, px: Party, py: Party)
    requires Coupled(ph, calls, px, py)
    ensures Exports(px, py)
  {
    ViewTop(calls);
    assert HalfDestroyed(px, py) == {};
    if py.inbox != [] {
      NewRefsOne(py.inbox[0]);
    }
  }

  lemma HolderDying(ph: Phase, calls: Calls, px: Party, py: Party)
    requires Coupled(ph, calls, px, py)
    ensures HalfDestroyed(py, px) == if ph.Destroyed? then {ph.id} else {}
  {
    ViewTop(calls);
    if calls != [] {
      OuterTop(calls);
    }
  }

  lemma HolderImports(ph: Phase, calls: Calls, px: Party, py: Party)
    requires Coupled(ph, calls, px, py)
    ensures Exports(py, px)
  {
    HolderDying(ph, calls, px, py);
    if px.inbox != [] {
      NewRefsOne(px.inbox[0]);
    }
  }

  /** Each end exports exactly what the other imports, plus what the packet in flight introduces, minus the
      one object in the middle of being destroyed. */
  lemma TablesAgree(s: Sys, x: Side)
    requires Reachable(s) && BothOpen(s)
    ensures var p, q := Get(s, x), Get(s, Other(x));
      && p.h.local.Keys == q.h.remote.Keys + NewRefs(q.inbox) - HalfDestroyed(p, q)
      && HalfDestroyed(p, q) <= q.h.remote.Keys
  {
    ReachableOk(s);
    var ph, calls := PairedFrom(s, x);
    if Holder(calls) == x {
      HolderExports(ph, calls, Get(s, x), Get(s, Other(x)));
    } else {
      HolderImports(ph, calls, Get(s, Other(x)), Get(s, x));
    }
  }

  // ---------------------------------------------------------------- proxy lifetime

  /** On every path, a nested close during a collection included: proxies are deleted at most once and only
      unmapped ones are; a candidate is always mapped; a mapped proxy without references is a candidate or
      being destroyed; there is at most one handle owner, only on the client, never a candidate. */
  lemma ProxyLifetime(s: Sys, x: Side)
    requires Reachable(s)
    ensures var p := Get(s, x); var h := p.h;
      && (forall k, l :: 0 <= k < l < |h.freed| ==> h.freed[k] != h.freed[l])
      && (forall i :: i in h.remote ==> h.remote[i].serial !in h.freed)
      && (forall n :: 0 <= n < h.born ==> n in h.freed || Mapped(h, n))
      && h.cand <= h.remote.Keys
      && (forall i :: i in h.remote && h.remote[i].refcount == 0 ==> i in h.cand || i in DyingIds(p.stack))
      && (forall i, j :: i in h.remote && j in h.remote && h.remote[i].owner && h.remote[j].owner ==> i == j)
      && (forall i :: i in h.remote && h.remote[i].owner ==> x == Client && i !in h.cand)
      && (h.open && x == Client && h.remote != map[] ==> HasOwner(h))
  {
    ReachableOk(s);
  }

  /** A closed end has no exports and no candidates; once its event loops are left, every proxy still mapped is
      referenced by the program, and when the last reference goes the proxy goes at once. */
  lemma ClosedEndIsClean(s: Sys, x: Side)
    requires Reachable(s) && !Get(s, x).h.open
    ensures var h := Get(s, x).h;
      && h.local == map[] && h.cand == {}
      && forall id :: id in h.remote && id !in DyingIds(Get(s, x).stack) ==>
           h.remote[id].refcount > 0
           && (h.remote[id].refcount == 1 ==> id !in Release(h, id, false).remote)
  {
    ReachableOk(s);
  }

  /** What packet_write is about to send stays valid while it collects: its proxies keep their references. */
  lemma PendingStaysMapped(s: Sys, x: Side, id: int)
    requires Reachable(s) && id in Pinned(Get(s, x).stack)
    ensures id in Get(s, x).h.remote && Get(s, x).h.remote[id].refcount >= Pinned(Get(s, x).stack)[id]
  {
    ReachableOk(s);
  }

  // ---------------------------------------------------------------- the handle owner

  ghost predicate OwnerAt(h: Handle, id: int, serial: nat) {
    id in h.remote && h.remote[id].owner && h.remote[id].serial == serial
  }

  lemma {:induction false} DeserializeKeepsOwner(h: Handle, rs: seq<Ref>, id: int, serial: nat)
    requires OwnerAt(h, id, serial)
    ensures OwnerAt(DeserializeAll(h, rs).0, id, serial)
    decreases rs
  {
    if rs != [] {
      DeserializeKeepsOwner(Deserialize(h, rs[0]).0, rs[1..], id, serial);
    }
  }

  lemma {:induction false} SerializeKeepsRemote(h: Handle, vs: seq<Val>)
    ensures SerializeAll(h, vs).0.remote == h.remote
    decreases vs
  {
    if vs != [] {
      SerializeKeepsRemote(Serialize(h, vs[0]).0, vs[1..]);
    }
  }

  lemma ClosedIsClosed(h: Handle)
    ensures !Close(h).open
  {
    DrainStaysClosed(h.(open := false));
  }

  lemma ReceiveKeepsOwner(p: Party, answered: bool, id: int, serial: nat)
    requires OwnerAt(p.h, id, serial) && id !in DyingIds(p.stack)
    ensures var n := DoReceive(p, answered); n.Next? && n.p.h.open ==> OwnerAt(n.p.h, id, serial)
  {
    if Reading(p.stack) && p.h.open && p.inbox != [] {
      var q := p.(inbox := p.inbox[1..]);
      match p.inbox[0] {
        case Request(t, rs) =>
          DeserializeKeepsOwner(MarkRead(p.h), rs, id, serial);
          AbandonCloses(q, DeserializeAll(MarkRead(p.h), rs).0);
        case Destroy(t, i) =>
          AbandonCloses(q, MarkRead(p.h));
          if i in p.h.local {
            AbandonCloses(q, MarkWrite(EraseLocal(MarkRead(p.h), p.h.local[i])));
          }
        case Reply(t, thrown, rs) =>
          var h := DeserializeAll(MarkRead(p.h), rs).0;
          DeserializeKeepsOwner(MarkRead(p.h), rs, id, serial);
          AbandonCloses(q, h);
          if Top(p.stack).Dying? {
            DrainStaysClosed(Delete(h.(open := false), Top(p.stack).id));
          }
      }
    }
  }

  lemma LocalKeepsOwner(x: Side, p: Party, a: Action, tag: nat, id: int, serial: nat)
    requires PartyOk(x, p) && p.h.open && OwnerAt(p.h, id, serial)
    ensures var n := Local(x, p, a, tag); n.Next? && n.p.h.open ==> OwnerAt(n.p.h, id, serial)
  {
    match a {
      case Start(vals, sent) =>
        SerializeKeepsRemote(p.h, vals);
        ClosedIsClosed(MarkWrite(SerializeAll(p.h, vals).0));
      case Send(sent) =>
        if TopIs(p.stack, (f: Frame) => f.Gc?) {
          var out := Top(p.stack).out;
          var vs := if out.Call? then out.args else out.vals;
          SerializeKeepsRemote(p.h, vs);
          ClosedIsClosed(MarkWrite(SerializeAll(p.h, vs).0));
        }
      case Collect1(sent) => CollectKeepsOwner(p, tag, sent, id, serial);
      case Receive(answered) => ReceiveKeepsOwner(p, answered, id, serial);
      case LoseRead => LoseReadCloses(p);
      case Drop(i, noMemory) => DropKeepsOwner(p, i, noMemory, id, serial);
      case _ =>
    }
  }

  lemma CollectKeepsOwner(p: Party, tag: nat, sent: bool, id: int, serial: nat)
    requires p.h.open && ProxiesOk(p.h, DyingIds(p.stack)) && OwnerAt(p.h, id, serial)
    ensures var n := DoCollect(p, tag, sent); n.Next? && n.p.h.open ==> OwnerAt(n.p.h, id, serial)
  {
    if p.h.cand != {} && !sent {
      var i := Least(p.h.cand);
      FinishLostCloses(p.h.(cand := p.h.cand - {i}), i);
    }
  }

  lemma FinishLostCloses(h: Handle, i: int)
    requires h.open
    ensures !Finish(h, i, WriteLost).open
  {
    DrainStaysClosed(Delete(MarkWrite(h).(open := false), i));
  }

  lemma DropKeepsOwner(p: Party, i: int, noMemory: bool, id: int, serial: nat)
    requires p.h.open && OwnerAt(p.h, id, serial)
    ensures var n := DoDrop(p, i, noMemory); n.Next? && n.p.h.open ==> OwnerAt(n.p.h, id, serial)
  {
    if DoDrop(p, i, noMemory).Next? {
      var q := p.h.remote[i].(refcount := p.h.remote[i].refcount - 1);
      ClosedIsClosed(p.h.(remote := p.h.remote[i := q]));
    }
  }

  lemma StepKeepsOwner(s: Sys, x: Side, a: Action, id: int, serial: nat)
    requires SysOk(s) && s.client.h.open && OwnerAt(s.client.h, id, serial)
    ensures Step(s, x, a).client.h.open ==> OwnerAt(Step(s, x, a).client.h, id, serial)
  {
    if x == Client {
      LocalKeepsOwner(Client, s.client, a, s.tags, id, serial);
    }
  }

  lemma {:induction false} StaysShut(s: Sys, moves: seq<(Side, Action)>)
    requires SysOk(s) && !s.client.h.open
    ensures !Run(s, moves).client.h.open
    decreases moves
  {
    if moves != [] {
      var x, a := moves[0].0, moves[0].1;
      StepOk(s, x, a);
      if x == Client {
        StaysClosed(Client, s.client, a, s.tags);
      }
      StaysShut(Step(s, x, a), moves[1..]);
    }
  }

  lemma {:induction false} RunKeepsOwner(s: Sys, moves: seq<(Side, Action)>, id: int, serial: nat)
    requires SysOk(s) && s.client.h.open && OwnerAt(s.client.h, id, serial)
    ensures Run(s, moves).client.h.open ==> OwnerAt(Run(s, moves).client.h, id, serial)
    decreases moves
  {
    if moves != [] {
      var s' := Step(s, moves[0].0, moves[0].1);
      StepOk(s, moves[0].0, moves[0].1);
      if s'.client.h.open {
        StepKeepsOwner(s, moves[0].0, moves[0].1, id, serial);
        RunKeepsOwner(s', moves[1..], id, serial);
      } else {
        StaysShut(s', moves[1..]);
      }
    }
  }

  /** The client's handle owner stays mapped, and stays the owner, through whatever follows, until the client's stream
      is closed. */
  lemma OwnerStaysMapped(s: Sys, moves: seq<(Side, Action)>, id: int)
    requires Reachable(s) && s.client.h.open && id in s.client.h.remote && s.client.h.remote[id].owner
    ensures var h, h' := s.client.h, Run(s, moves).client.h;
      h'.open ==> id in h'.remote && h'.remote[id].owner && h'.remote[id].serial == h.remote[id].serial
  {
    ReachableOk(s);
    RunKeepsOwner(s, moves, id, s.client.h.remote[id].serial);
  }
}
