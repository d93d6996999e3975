/** References are counted exactly: over every run the count of a proxy is how often its program was handed it or copied
    it, less how often it let it go. */
module RemoteCounts {
  import opened RemoteHandle
  import opened RemoteReferences
  import opened RemoteSystem
  import opened RemoteSafety
  import opened RemoteCoupling
  import opened RemoteTheorems

  /** How often the proxy occurs in what a program has been handed. */
  ghost function HandedTo(handed: seq<Content>, id: int): nat {
    if handed == [] then 0
    else HandedTo(handed[..|handed| - 1], id) + Pins(handed[|handed| - 1].vals)[id]
  }

  lemma HandedOnce(handed: seq<Content>, c: Content, id: int)
    ensures HandedTo(handed + [c], id) == HandedTo(handed, id) + Pins(c.vals)[id]
  {
    assert (handed + [c])[..|handed|] == handed;
  }

  /** What the program does to the count itself. */
  function Change(a: Action, id: int): int {
    match a
    case Copy(i) => if i == id then 1 else 0
    case Drop(i, _) => if i == id then -1 else 0
    case _ => 0
  }

  ghost function Changes(s: Sys, moves: seq<(Side, Action)>, x: Side, id: int): int
    decreases moves
  {
    if moves == [] then 0
    else
      var (z, a) := moves[0];
      (if z == x && Local(x, Get(s, x), a, s.tags).Next? then Change(a, id) else 0)
      + Changes(Step(s, z, a), moves[1..], x, id)
  }

  // ---------------------------------------------------------------- single steps

  /** The count and what it should be have changed by the same. */
  ghost predicate Balanced(p: Party, p': Party, change: int, id: int) {
    Count(p'.h, id) + HandedTo(p.handed, id) == Count(p.h, id) + HandedTo(p'.handed, id) + change
  }

  lemma {:induction false} MeantPins(h: Handle, rs: seq<Ref>, vs: seq<Val>, id: int)
    requires |vs| == |rs| && forall i :: 0 <= i < |rs| ==> Meant(h, rs[i], vs[i])
    ensures Pins(vs)[id] == multiset(rs)[Ref(false, id)]
    decreases rs
  {
    if rs != [] {
      assert rs == [rs[0]] + rs[1..];
      assert Meant(h, rs[0], vs[0]);
      MeantPins(h, rs[1..], vs[1..], id);
    }
  }

  lemma ReadCounts(h: Handle, rs: seq<Ref>, id: int)
    requires Resolves(h, rs)
    ensures var (g, ok, vs) := DeserializeAll(h, rs); ok && Count(g, id) == Count(h, id) + Pins(vs)[id]
  {
    KnownResolve(h, rs);
    DeserializeAllMeans(h, rs);
    MeantPins(h, rs, DeserializeAll(h, rs).2, id);
    hide DeserializeAll, Resolves, Count, Meant;
  }

  lemma MarkCounts(h: Handle, id: int)
    ensures Count(MarkRead(h), id) == Count(MarkWrite(h), id) == Count(h, id)
  {
  }

  /** Closing changes no count. */
  lemma CloseCounts(h: Handle, dying: set<int>, id: int)
    requires HandleOk(h, dying)
    ensures Count(Close(h), id) == Count(h, id)
  {
    CloseOk(h, dying);
    hide Close, HandleOk;
  }

  lemma DeleteCounts(h: Handle, dead: int, id: int)
    requires dead in h.remote && h.remote[dead].refcount == 0
    ensures Count(Delete(h, dead), id) == Count(h, id)
  {
  }

  lemma SerializeCounts(h: Handle, vs: seq<Val>, id: int)
    ensures Count(SerializeAll(h, vs).0, id) == Count(h, id)
  {
    SerializeKeepsRemote(h, vs);
    hide SerializeAll;
  }

  lemma AbandonCounts(p: Party, h: Handle, id: int)
    requires Reading(p.stack) && HandleOk(h, DyingIds(p.stack))
    ensures Abandon(p, h).p.handed == p.handed && Count(Abandon(p, h).p.h, id) == Count(h, id)
  {
    var c := Close(h);
    CloseOk(h, DyingIds(p.stack));
    CloseCounts(h, DyingIds(p.stack), id);
    if Top(p.stack).Dying? {
      DeleteCounts(c, Top(p.stack).id, id);
    }
    hide Close, Accounted;
  }

  lemma StartCounts(p: Party, vals: seq<Val>, sent: bool, id: int)
    requires PartyOk(Server, p) && DoStart(p, vals, sent).Next?
    ensures Balanced(p, DoStart(p, vals, sent).p, 0, id)
  {
    hide HandleOk, SerializeAll, Close, Count, Holds;
    if p.h.open {
      var h := SerializeAll(p.h, vals).0;
      SerializeCounts(p.h, vals, id);
      SerializeAllOk(p.h, vals, {});
      MarksOk(h, {});
      MarkCounts(h, id);
      if !sent {
        CloseCounts(MarkWrite(h), {}, id);
      }
    }
  }

  lemma SendCounts(x: Side, p: Party, tag: nat, sent: bool, id: int)
    requires PartyOk(x, p) && DoSend(p, tag, sent).Next?
    ensures Balanced(p, DoSend(p, tag, sent).p, 0, id)
  {
    hide HandleOk, SerializeAll, Close, Count, Holds;
    if !p.h.open {
      CloseCounts(p.h, {}, id);
    } else {
      var out := Top(p.stack).out;
      var vs := if out.Call? then out.args else out.vals;
      var h := SerializeAll(p.h, vs).0;
      SerializeCounts(p.h, vs, id);
      SerializeAllOk(p.h, vs, {});
      MarksOk(h, {});
      MarkCounts(h, id);
      if !sent {
        CloseCounts(MarkWrite(h), {}, id);
      }
    }
  }

  lemma CollectCounts(x: Side, p: Party, tag: nat, sent: bool, id: int)
    requires PartyOk(x, p) && DoCollect(p, tag, sent).Next?
    ensures Balanced(p, DoCollect(p, tag, sent).p, 0, id)
  {
    var i := Least(p.h.cand);
    var h := p.h.(cand := p.h.cand - {i});
    if p.h.remote[i].refcount == 0 && p.h.open {
      BeginDying(p.h, i);
      if !sent {
        WriteLostOk(h, i);
        DeleteCounts(h, i, id);
        CollectedCounts(Delete(h, i), Finish(h, i, WriteLost));
      }
      hide Accounted, Finish;
    }
  }

  lemma LoseReadCounts(x: Side, p: Party, id: int)
    requires PartyOk(x, p) && Reading(p.stack)
    ensures Balanced(p, DoLoseRead(p).p, 0, id)
  {
    MarksOk(p.h, DyingIds(p.stack));
    MarkCounts(p.h, id);
    AbandonCounts(p, MarkRead(p.h), id);
    hide HandleOk, Close, Count;
  }

  lemma RequestCounts(p: Party, t: nat, rs: seq<Ref>, id: int)
    requires Reading(p.stack) && !Top(p.stack).Connect? && Resolves(p.h, rs)
    ensures Balanced(p, ReceiveRequest(p, t, rs).p, 0, id)
  {
    MarkCounts(p.h, id);
    ReadCounts(MarkRead(p.h), rs, id);
    HandedOnce(p.handed, Asks(DeserializeAll(MarkRead(p.h), rs).2), id);
    hide DeserializeAll, Resolves, Count, HandedTo;
  }

  lemma DestroyCounts(x: Side, p: Party, t: nat, i: int, answered: bool, id: int)
    requires PartyOk(x, p) && p.h.open && Reading(p.stack) && i in p.h.local
    requires Fits(Top(p.stack), Destroy(t, i))
    ensures Balanced(p, ReceiveDestroy(p, t, i, answered).p, 0, id)
  {
    var h := MarkRead(p.h);
    var e := EraseLocal(h, h.local[i]);
    ErasedOk(p.h, i);
    if !answered {
      AbandonCounts(p, MarkWrite(e), id);
    }
    hide HandleOk, Close;
  }

  lemma ErasedOk(h: Handle, i: int)
    requires HandleOk(h, {}) && h.lastOp != Read && i in h.local
    ensures HandleOk(MarkWrite(EraseLocal(MarkRead(h), h.local[i])), {})
  {
    var e := EraseLocal(MarkRead(h), h.local[i]);
    MarksOk(h, {});
    SameSerialsAccounted(MarkRead(h), e);
    MarksOk(e, {});
    hide Accounted;
  }

  lemma ReplyCounts(x: Side, p: Party, m: Msg, id: int)
    requires PartyOk(x, p) && p.h.open && Reading(p.stack) && m.Reply?
    requires Fits(Top(p.stack), m) && Known(p.h, m)
    ensures Balanced(p, ReceiveReply(p, m.thrown, m.refs).p, 0, id)
  {
    MarkCounts(p.h, id);
    if Top(p.stack).Dying? {
      FreedReply(p);
      DeleteCounts(MarkRead(p.h), Top(p.stack).id, id);
    } else {
      ReadCounts(MarkRead(p.h), m.refs, id);
      var vs := DeserializeAll(MarkRead(p.h), m.refs).2;
      HandedOnce(p.handed, Tells(if Top(p.stack).Loop? then Top(p.stack).tag else 0, m.thrown, vs), id);
    }
    hide DeserializeAll, Resolves, HandedTo, Accounted;
  }

  lemma ReceiveCounts(x: Side, p: Party, answered: bool, id: int)
    requires PartyOk(x, p) && InboxOk(p) && DoReceive(p, answered).Next?
    ensures Balanced(p, DoReceive(p, answered).p, 0, id)
  {
    var q := p.(inbox := p.inbox[1..]);
    match p.inbox[0] {
      case Request(t, rs) => RequestCounts(q, t, rs, id);
      case Destroy(t, i) => DestroyCounts(x, q, t, i, answered, id);
      case Reply(_, _, _) => ReplyCounts(x, q, p.inbox[0], id);
    }
    hide ReceiveRequest, ReceiveDestroy, ReceiveReply, HandleOk, Count, HandedTo;
  }

  lemma LocalCounts(x: Side, p: Party, a: Action, tag: nat, id: int)
    requires PartyOk(x, p) && InboxOk(p) && Local(x, p, a, tag).Next?
    ensures Balanced(p, Local(x, p, a, tag).p, Change(a, id), id)
  {
    hide HandleOk, HandedTo, Accounted, Close, Drain;
    match a {
      case Start(vals, sent) =>
        BootServer(x, p);
        StartCounts(p, vals, sent, id);
      case Collect1(sent) => CollectCounts(x, p, tag, sent, id);
      case Send(sent) => SendCounts(x, p, tag, sent, id);
      case Receive(answered) => ReceiveCounts(x, p, answered, id);
      case LoseRead => LoseReadCounts(x, p, id);
      case Drop(i, noMemory) => ReleaseDecides(p.h, i, noMemory, DyingIds(p.stack));
      case _ =>
    }
  }

  lemma BootServer(x: Side, p: Party)
    requires PartyOk(x, p) && TopIs(p.stack, (f: Frame) => f.Boot?)
    ensures x == Server
  {
  }

  // ---------------------------------------------------------------- runs

  lemma StepCounts(s: Sys, x: Side, z: Side, a: Action, id: int)
    requires SysOk(s)
    ensures Balanced(Get(s, x), Get(Step(s, z, a), x),
                     if z == x && Local(x, Get(s, x), a, s.tags).Next? then Change(a, id) else 0, id)
  {
    if z == x && Local(x, Get(s, x), a, s.tags).Next? {
      LocalCounts(x, Get(s, x), a, s.tags, id);
    }
    hide Local, Count, HandedTo, Change;
  }

  lemma {:induction false} RunCounts(s: Sys, moves: seq<(Side, Action)>, x: Side, id: int)
    requires SysOk(s)
    ensures Balanced(Get(s, x), Get(Run(s, moves), x), Changes(s, moves, x, id), id)
    decreases moves
  {
    hide SysOk, Step, Local, Count, HandedTo, Change;
    if moves != [] {
      StepCounts(s, x, moves[0].0, moves[0].1, id);
      StepOk(s, moves[0].0, moves[0].1);
      RunCounts(Step(s, moves[0].0, moves[0].1), moves[1..], x, id);
    }
  }

  /** Over every run, failures and closings included: the references counted for a proxy are those its program was
      handed and those it copied, less those it let go. A proxy handed over again stays until it is let go as often. */
  lemma CountedExactly(moves: seq<(Side, Action)>, x: Side, id: int)
    ensures var p := Get(Run(Init(), moves), x);
      Count(p.h, id) == HandedTo(p.handed, id) + Changes(Init(), moves, x, id)
  {
    InitOk();
    RunCounts(Init(), moves, x, id);
    assert Count(Get(Init(), x).h, id) == 0 && HandedTo(Get(Init(), x).handed, id) == 0;
    hide SysOk, Run, Changes;
  }

  lemma SysParty(s: Sys, x: Side)
    requires SysOk(s)
    ensures PartyOk(x, Get(s, x))
  {
    hide PartyOk, InboxOk, CoupledSys;
  }

  lemma StepsTo(s: Sys, x: Side, a: Action)
    requires Local(x, Get(s, x), a, s.tags).Next?
    ensures Get(Step(s, x, a), x) == Local(x, Get(s, x), a, s.tags).p
  {
    hide Local;
  }

  lemma CopyCounted(x: Side, p: Party, tag: nat, id: int)
    requires Count(p.h, id) > 0
    ensures var n := Local(x, p, Copy(id), tag); n.Next? && Count(n.p.h, id) == Count(p.h, id) + 1
  {
  }

  lemma DropCounted(x: Side, p: Party, tag: nat, id: int)
    requires PartyOk(x, p) && Count(p.h, id) > Pinned(p.stack)[id]
    ensures var n := Local(x, p, Drop(id, false), tag); n.Next? && Count(n.p.h, id) == Count(p.h, id) - 1
  {
    ReleaseDecides(p.h, id, false, DyingIds(p.stack));
    hide HandleOk, Release, Pinned;
  }

  /** A program may let go of any reference that a packet it is sending does not need, and copy any it has, at any time;
      either is counted at once. */
  lemma MayLetGo(s: Sys, x: Side, id: int)
    requires Reachable(s) && Count(Get(s, x).h, id) > 0
    ensures Count(Get(Step(s, x, Copy(id)), x).h, id) == Count(Get(s, x).h, id) + 1
    ensures Count(Get(s, x).h, id) > Pinned(Get(s, x).stack)[id] ==>
              Count(Get(Step(s, x, Drop(id, false)), x).h, id) == Count(Get(s, x).h, id) - 1
  {
    ReachableOk(s);
    hide Reachable, Step, Count, Pinned, SysOk, Local;
    SysParty(s, x);
    CopyCounted(x, Get(s, x), s.tags, id);
    StepsTo(s, x, Copy(id));
    if Count(Get(s, x).h, id) > Pinned(Get(s, x).stack)[id] {
      DropCounted(x, Get(s, x), s.tags, id);
      StepsTo(s, x, Drop(id, false));
    }
  }
}
