/** What a failure does: when exactly a step closes the stream of an end, and where the exception goes. */
module RemoteFailures {
  import opened RemoteHandle
  import opened RemoteReferences
  import opened RemoteSystem
  import opened RemoteSafety
  import opened RemoteCoupling
  import opened RemoteTheorems

  /** A step that fails: a write or a read that is lost, also that of an op_destroy or of its answer, or the release of
      the handle owner or of a proxy there is no memory to remember. */
  ghost predicate Fails(p: Party, a: Action) {
    match a
    case Start(_, sent) => !sent
    case Send(sent) => !sent
    case Collect1(sent) =>
      !sent && p.h.cand != {} && Least(p.h.cand) in p.h.remote && p.h.remote[Least(p.h.cand)].refcount == 0
    case Receive(answered) => !answered && p.inbox != [] && p.inbox[0].Destroy?
    case LoseRead => true
    case Drop(id, noMemory) =>
      id in p.h.remote && p.h.remote[id].refcount == 1 && (p.h.remote[id].owner || noMemory)
    case _ => false
  }

  lemma StartCloses(p: Party, vals: seq<Val>, sent: bool)
    requires p.h.open && DoStart(p, vals, sent).Next?
    ensures DoStart(p, vals, sent).p.h.open <==> sent
  {
    var h := SerializeAll(p.h, vals).0;
    SerializeStaysOpen(p.h, vals);
    ClosedIsClosed(MarkWrite(h));
    hide SerializeAll, Close, Holds;
  }

  lemma {:induction false} SerializeStaysOpen(h: Handle, vs: seq<Val>)
    ensures SerializeAll(h, vs).0.open == h.open
    decreases vs
  {
    if vs != [] {
      SerializeStaysOpen(Serialize(h, vs[0]).0, vs[1..]);
    }
  }

  lemma SendCloses(p: Party, tag: nat, sent: bool)
    requires p.h.open && DoSend(p, tag, sent).Next?
    ensures DoSend(p, tag, sent).p.h.open <==> sent
  {
    var vs := if Top(p.stack).out.Call? then Top(p.stack).out.args else Top(p.stack).out.vals;
    SerializeStaysOpen(p.h, vs);
    ClosedIsClosed(MarkWrite(SerializeAll(p.h, vs).0));
    hide SerializeAll, Close;
  }

  lemma CollectCloses(p: Party, tag: nat, sent: bool)
    requires p.h.open && p.h.cand <= p.h.remote.Keys && DoCollect(p, tag, sent).Next?
    ensures !DoCollect(p, tag, sent).p.h.open <==> Fails(p, Collect1(sent))
  {
    FinishLostCloses(p.h.(cand := p.h.cand - {Least(p.h.cand)}), Least(p.h.cand));
    hide Finish;
  }

  lemma ReceiveCloses(x: Side, p: Party, answered: bool)
    requires PartyOk(x, p) && InboxOk(p) && p.h.open && DoReceive(p, answered).Next?
    ensures !DoReceive(p, answered).p.h.open <==> Fails(p, Receive(answered))
  {
    var q := p.(inbox := p.inbox[1..]);
    match p.inbox[0] {
      case Request(t, rs) => DeserializeAllReceives(MarkRead(p.h), rs);
      case Destroy(t, id) => AbandonCloses(q, MarkWrite(EraseLocal(MarkRead(p.h), p.h.local[id])));
      case Reply(t, thrown, rs) => DeserializeAllReceives(MarkRead(p.h), rs);
    }
    hide HandleOk, Holds, Linked, DeserializeAll, Resolves;
  }

  lemma LocalCloses(x: Side, p: Party, a: Action, tag: nat)
    requires PartyOk(x, p) && InboxOk(p) && p.h.open && Local(x, p, a, tag).Next?
    ensures !Local(x, p, a, tag).p.h.open <==> Fails(p, a)
  {
    match a {
      case Start(vals, sent) => StartCloses(p, vals, sent);
      case Collect1(sent) => CollectCloses(p, tag, sent);
      case Send(sent) => SendCloses(p, tag, sent);
      case Receive(answered) => ReceiveCloses(x, p, answered);
      case LoseRead => LoseReadCloses(p);
      case Drop(id, noMemory) => ReleaseDecides(p.h, id, noMemory, DyingIds(p.stack));
      case _ =>
    }
    hide DoStart, DoCollect, DoSend, DoReceive, DoLoseRead, Release, Accounted, Linked, Known;
  }

  /** In every reachable state a step closes an end if and only if it fails: nothing else gives the connection up, and
      no failure passes unnoticed. */
  lemma ClosesExactly(s: Sys, x: Side, a: Action)
    requires Reachable(s) && Get(s, x).h.open && Local(x, Get(s, x), a, s.tags).Next?
    ensures Get(Step(s, x, a), x).h.open <==> !Fails(Get(s, x), a)
  {
    ReachableOk(s);
    LocalCloses(x, Get(s, x), a, s.tags);
    hide Local, PartyOk, InboxOk, Fails, CoupledSys, Reachable;
  }

  // ---------------------------------------------------------------- where an exception goes

  /** The stack without the event loops on top of it. */
  function LoopsLeft(st: seq<Frame>): seq<Frame>
    decreases |st|
  {
    if Reading(st) then LoopsLeft(Pop(st)) else st
  }

  /** Where an exception from the activation on top comes to rest: it leaves that one and the event loops below it. */
  function Thrown(st: seq<Frame>): seq<Frame> {
    LoopsLeft(Pop(st))
  }

  lemma PopThrown(x: Side, st: seq<Frame>)
    requires Linked(x, st) && Reading(st)
    ensures Thrown(st) == Pop(st)
  {
    BelowReading(x, st);
  }

  lemma UnwindThrown(x: Side, st: seq<Frame>)
    requires Linked(x, st) && st != [] && Top(st).Gc?
    ensures Thrown(st) == Unwind(st)
  {
    assert Linked(x, Pop(st));
    if Top(st).out.Answer? {
      PopThrown(x, Pop(st));
      assert LoopsLeft(Pop(st)) == Thrown(Pop(st));
    }
  }

  lemma ReceiveUnwinds(x: Side, p: Party, answered: bool)
    requires PartyOk(x, p) && InboxOk(p) && DoReceive(p, answered).Next? && !DoReceive(p, answered).p.h.open
    ensures DoReceive(p, answered).p.stack == Thrown(p.stack)
  {
    ReceiveCloses(x, p, answered);
    PopThrown(x, p.stack);
    hide HandleOk, Holds, Linked, Thrown, Close, Delete;
  }

  /** Whenever a write or a read of a packet fails, or finds the connection closed, its exception leaves the activation
      that was at it and every event loop around that one, down to the program that called, to the collection that
      asked, or to the end of the session; nothing below is touched. */
  lemma ExceptionLeaves(s: Sys, x: Side, a: Action)
    requires Reachable(s) && Local(x, Get(s, x), a, s.tags).Next? && (a.Start? || a.Send? || a.Receive? || a.LoseRead?)
    requires !Get(Step(s, x, a), x).h.open
    ensures Get(Step(s, x, a), x).stack == Thrown(Get(s, x).stack)
  {
    ReachableOk(s);
    LocalLeaves(x, Get(s, x), a, s.tags);
    hide Local, PartyOk, InboxOk, CoupledSys, Reachable;
  }

  lemma LocalLeaves(x: Side, p: Party, a: Action, tag: nat)
    requires PartyOk(x, p) && InboxOk(p) && Local(x, p, a, tag).Next?
    requires (a.Start? || a.Send? || a.Receive? || a.LoseRead?) && !Local(x, p, a, tag).p.h.open
    ensures Local(x, p, a, tag).p.stack == Thrown(p.stack)
  {
    match a {
      case Start(vals, sent) =>
        assert Linked(x, Pop(p.stack));
        if p.h.open {
          StartCloses(p, vals, sent);
        }
      case Send(sent) =>
        UnwindThrown(x, p.stack);
        if p.h.open {
          SendCloses(p, tag, sent);
        }
      case Receive(answered) => ReceiveUnwinds(x, p, answered);
      case LoseRead => PopThrown(x, p.stack);
    }
    hide HandleOk, Holds, SerializeAll, Close, DoReceive;
  }

  /** Points where a failure can strike: a read, while the end waits, and a write that is due. */
  ghost predicate Exposed(p: Party, a: Action) {
    match a
    case LoseRead => Reading(p.stack)
    case Send(sent) => !sent && TopIs(p.stack, (f: Frame) => f.Gc?) && p.h.cand == {}
    case Collect1(sent) =>
      && !sent && TopIs(p.stack, (f: Frame) => f.Gc?)
      && p.h.cand != {} && Least(p.h.cand) in p.h.remote && p.h.remote[Least(p.h.cand)].refcount == 0
    case Start(vals, sent) => !sent && TopIs(p.stack, (f: Frame) => f.Boot?) && vals == []
    case _ => false
  }

  lemma ExposedFails(x: Side, p: Party, a: Action, tag: nat)
    requires p.h.open && Exposed(p, a)
    ensures Local(x, p, a, tag).Next? && Fails(p, a)
  {
    hide Close, Finish, SerializeAll;
  }

  /** Each of them may fail, and then the stream is closed. */
  lemma AnythingMayFail(s: Sys, x: Side, a: Action)
    requires Reachable(s) && Get(s, x).h.open && Exposed(Get(s, x), a)
    ensures !Get(Step(s, x, a), x).h.open
  {
    ExposedFails(x, Get(s, x), a, s.tags);
    hide Exposed, Fails, Step, Reachable, Local;
    ClosesExactly(s, x, a);
  }
}
