/** What every run of the two ends keeps. Each end is in order by itself (PartyOk, InboxOk), whatever the
    connection does; and while both streams are open the two ends fit together (Coupled). */
module RemoteSafety {
  import opened RemoteHandle
  import opened RemoteSystem

  // ---------------------------------------------------------------- one end

  predicate WaitsForAnswer(st: seq<Frame>) {
    st != [] && (Top(st).Root? || Top(st).Loop?)
  }

  /** Which activation may sit directly on which. */
  predicate Sits(x: Side, below: seq<Frame>, f: Frame) {
    match f
    case Connect => x == Client && below == []
    case Boot => x == Server && below == []
    case Root => x == Server && below == []
    case Loop(_) => InProgram(x, below)
    case Exec(_) => WaitsForAnswer(below)
    case Gc(out) => if out.Call? then InProgram(x, below) else WaitsForAnswer(below)
    case Dying(_, _) => below != [] && Top(below).Gc?
  }

  ghost predicate Linked(x: Side, st: seq<Frame>) {
    st == [] || (Linked(x, Pop(st)) && Sits(x, Pop(st), Top(st)))
  }

  function DyingIds(st: seq<Frame>): set<int> {
    if st != [] && Top(st).Dying? then {Top(st).id} else {}
  }

  /** The flip-flop: an end that waits has not read last, one that is about to write has not written last. */
  predicate Turn(p: Party) {
    && (Reading(p.stack) ==> p.h.lastOp != Read)
    && (p.h.open && !Reading(p.stack) ==> p.h.lastOp != Write)
  }

  ghost predicate PartyOk(x: Side, p: Party) {
    && HandleOk(p.h, DyingIds(p.stack))
    && Holds(p.h, Pinned(p.stack))
    && Linked(x, p.stack)
    && p.h.isClient == (x == Client)
    && Turn(p)
  }

  /** The packet is one the waiting activation is waiting for. */
  predicate Fits(f: Frame, m: Msg) {
    match m
    case Request(_, _) => f.Root? || f.Loop?
    case Destroy(_, _) => f.Root? || f.Loop?
    case Reply(t, thrown, rs) =>
      || (f.Loop? && f.tag == t)
      || (f.Connect? && t == 0 && !thrown)
      || (f.Dying? && f.tag == t && !thrown && rs == [])
  }

  /** Every "remote" reference of the packet is in the receiver's table. */
  ghost predicate Known(h: Handle, m: Msg) {
    match m
    case Request(_, rs) => Resolves(h, rs)
    case Destroy(_, id) => id in h.local
    case Reply(_, _, rs) => Resolves(h, rs)
  }

  ghost predicate InboxOk(p: Party) {
    p.h.open && p.inbox != [] ==>
      |p.inbox| == 1 && Reading(p.stack) && Fits(Top(p.stack), p.inbox[0]) && Known(p.h, p.inbox[0])
  }

  /** The receiver state an event produces keeps everything local. */
  ghost predicate Fine(x: Side, n: Next) {
    n.Next? ==> PartyOk(x, n.p)
  }

  lemma PopPush(st: seq<Frame>, f: Frame)
    ensures Pop(st + [f]) == st && Top(st + [f]) == f
  {
  }

  lemma CloseHolds(h: Handle, dying: set<int>, pins: multiset<int>)
    requires HandleOk(h, dying) && Holds(h, pins)
    ensures HandleOk(Close(h), dying) && Holds(Close(h), pins)
    ensures !Close(h).open && Close(h).lastOp == h.lastOp && Close(h).isClient == h.isClient
  {
    CloseOk(h, dying);
    assert Survivors(h.(open := false)).Keys == Survivors(h).Keys;
  }

  lemma CloseWritten(h: Handle, pins: multiset<int>)
    requires HandleOk(h, {}) && Holds(h, pins) && h.lastOp != Write
    ensures HandleOk(Close(MarkWrite(h)), {}) && Holds(Close(MarkWrite(h)), pins)
    ensures !Close(MarkWrite(h)).open && Close(MarkWrite(h)).isClient == h.isClient
  {
    MarksOk(h, {});
    CloseHolds(MarkWrite(h), {}, pins);
  }

  lemma StartFine(p: Party, vals: seq<Val>, sent: bool)
    requires PartyOk(Server, p)
    ensures Fine(Server, DoStart(p, vals, sent))
  {
    hide HandleOk, SerializeAll;
    if TopIs(p.stack, (f: Frame) => f.Boot?) && p.h.open {
      SerializeAllOk(p.h, vals, {});
      var h := SerializeAll(p.h, vals).0;
      if sent {
        MarksOk(h, {});
      } else {
        CloseWritten(h, multiset{});
      }
    }
  }

  lemma CallFine(x: Side, p: Party, args: seq<Val>)
    requires PartyOk(x, p)
    ensures Fine(x, DoCall(x, p, args))
  {
    PopPush(p.stack, Gc(Call(args)));
  }

  lemma AnswerFine(x: Side, p: Party, thrown: bool, vals: seq<Val>)
    requires PartyOk(x, p)
    ensures Fine(x, DoAnswer(p, thrown, vals))
  {
    if TopIs(p.stack, (f: Frame) => f.Exec?) {
      PopPush(Pop(p.stack), Gc(Answer(Top(p.stack).tag, thrown, vals)));
    }
  }

  lemma CopyFine(x: Side, p: Party, id: int)
    requires PartyOk(x, p)
    ensures Fine(x, DoCopy(p, id))
  {
    if id in p.h.remote && p.h.remote[id].refcount > 0 {
      AddRefOk(p.h, id, DyingIds(p.stack));
    }
  }

  lemma DropFine(x: Side, p: Party, id: int, noMemory: bool)
    requires PartyOk(x, p)
    ensures Fine(x, DoDrop(p, id, noMemory))
  {
    if DoDrop(p, id, noMemory).Next? {
      ReleaseOk(p.h, id, noMemory, DyingIds(p.stack));
      ReleaseFrame(p.h, id, noMemory, DyingIds(p.stack));
    }
  }

  lemma CollectAsks(x: Side, p: Party, tag: nat)
    requires PartyOk(x, p) && TopIs(p.stack, (f: Frame) => f.Gc?) && p.h.cand != {}
    requires p.h.remote[Least(p.h.cand)].refcount == 0
    ensures p.h.open && Fine(x, DoCollect(p, tag, true))
  {
    var id := Least(p.h.cand);
    var h := p.h.(cand := p.h.cand - {id});
    assert p.h.open;
    hide HandleOk;
    BeginDying(p.h, id);
    MarksOk(h, {id});
    AskedFine(x, p, MarkWrite(h), tag, id);
    hide PartyOk;
  }

  lemma AskedFine(x: Side, p: Party, h: Handle, tag: nat, id: int)
    requires PartyOk(x, p) && TopIs(p.stack, (f: Frame) => f.Gc?)
    requires HandleOk(h, {id}) && h.remote == p.h.remote && h.isClient == p.h.isClient && h.lastOp == Write
    ensures PartyOk(x, p.(h := h, stack := p.stack + [Dying(tag, id)]))
  {
    hide HandleOk;
    PopPush(p.stack, Dying(tag, id));
  }

  lemma CollectLoses(x: Side, p: Party, tag: nat)
    requires PartyOk(x, p) && TopIs(p.stack, (f: Frame) => f.Gc?) && p.h.cand != {}
    requires p.h.remote[Least(p.h.cand)].refcount == 0
    ensures p.h.open && Fine(x, DoCollect(p, tag, false))
  {
    var id := Least(p.h.cand);
    var h := p.h.(cand := p.h.cand - {id});
    BeginDying(p.h, id);
    WriteLostOk(h, id);
    FinishKeeps(h, id, Pinned(p.stack));
  }

  lemma FinishKeeps(h: Handle, id: int, pins: multiset<int>)
    requires HandleOk(h, {id}) && h.open && h.lastOp != Write && Holds(h, pins)
    ensures var g := Finish(h, id, WriteLost); Holds(g, pins) && g.isClient == h.isClient
  {
    WriteLostOk(h, id);
    var w := Delete(MarkWrite(h).(open := false), id);
    assert pins[id] == 0;
    DrainOk(w, {}) by {
      SameSerialsAccounted(h, MarkWrite(h).(open := false));
      DeleteAccounted(MarkWrite(h).(open := false), id);
    }
  }

  lemma CollectFine(x: Side, p: Party, tag: nat, sent: bool)
    requires PartyOk(x, p)
    ensures Fine(x, DoCollect(p, tag, sent))
  {
    if TopIs(p.stack, (f: Frame) => f.Gc?) && p.h.cand != {} {
      var id := Least(p.h.cand);
      if p.h.remote[id].refcount != 0 {
        SkipCandidate(p.h, id);
      } else if sent {
        CollectAsks(x, p, tag);
      } else {
        CollectLoses(x, p, tag);
      }
    }
  }

  /** Where an exception from packet_write ends up, the program has control or nothing is left. */
  lemma UnwindStack(x: Side, st: seq<Frame>)
    requires Linked(x, st) && st != [] && Top(st).Gc?
    ensures var u := Unwind(st);
      Linked(x, u) && !Reading(u) && DyingIds(u) == {} && Pinned(u) == multiset{}
  {
    assert Linked(x, Pop(st));
    assert Linked(x, Pop(Pop(st)));
  }

  lemma SendFails(x: Side, p: Party, h: Handle)
    requires Linked(x, p.stack) && p.stack != [] && Top(p.stack).Gc?
    requires HandleOk(h, {}) && h.isClient == (x == Client)
    ensures PartyOk(x, p.(h := Close(h), stack := Unwind(p.stack)))
  {
    UnwindStack(x, p.stack);
    CloseHolds(h, {}, multiset{});
  }

  lemma SendSucceeds(x: Side, p: Party, tag: nat)
    requires PartyOk(x, p) && p.stack != [] && Top(p.stack).Gc? && p.h.open
    ensures Fine(x, DoSend(p, tag, true))
  {
    hide HandleOk, SerializeAll;
    var out := Top(p.stack).out;
    var vs := if out.Call? then out.args else out.vals;
    var h := SerializeAll(p.h, vs).0;
    SerializeAllOk(p.h, vs, {});
    MarksOk(h, {});
    PopPush(Pop(p.stack), Loop(tag));
    assert Linked(x, Pop(p.stack));
  }

  lemma SendFine(x: Side, p: Party, tag: nat, sent: bool)
    requires PartyOk(x, p)
    ensures Fine(x, DoSend(p, tag, sent))
  {
    if TopIs(p.stack, (f: Frame) => f.Gc?) && p.h.cand == {} {
      if !p.h.open {
        SendFails(x, p, p.h);
      } else if sent {
        SendSucceeds(x, p, tag);
      } else {
        var out := Top(p.stack).out;
        var vs := if out.Call? then out.args else out.vals;
        SerializeAllOk(p.h, vs, {});
        MarksOk(SerializeAll(p.h, vs).0, {});
        SendFails(x, p, MarkWrite(SerializeAll(p.h, vs).0));
      }
    }
  }

  lemma DeletePins(h: Handle, id: int, pins: multiset<int>)
    requires HandleOk(h, {id}) && Holds(h, pins)
    ensures HandleOk(Delete(h, id), {}) && Holds(Delete(h, id), pins)
  {
    DeleteDying(h, id, {});
    assert pins[id] == 0;
  }

  /** Below a waiting activation the program has control, or packet_write is collecting. */
  lemma BelowReading(x: Side, st: seq<Frame>)
    requires Linked(x, st) && Reading(st)
    ensures Linked(x, Pop(st)) && !Reading(Pop(st)) && DyingIds(Pop(st)) == {}
    ensures Top(st).Dying? ==> Pinned(Pop(st)) == Pinned(st)
    ensures !Top(st).Dying? ==> Pinned(Pop(st)) == multiset{}
  {
  }

  lemma AbandonFine(x: Side, p: Party, h: Handle)
    requires Reading(p.stack) && Linked(x, p.stack) && h.isClient == (x == Client)
    requires HandleOk(h, DyingIds(p.stack)) && Holds(h, Pinned(p.stack))
    ensures Fine(x, Abandon(p, h))
  {
    BelowReading(x, p.stack);
    CloseHolds(h, DyingIds(p.stack), Pinned(p.stack));
    var c := Close(h);
    if Top(p.stack).Dying? {
      DeletePins(c, Top(p.stack).id, Pinned(p.stack));
      assert PartyOk(x, p.(h := Delete(c, Top(p.stack).id), stack := Pop(p.stack)));
    } else {
      assert PartyOk(x, p.(h := c, stack := Pop(p.stack)));
    }
  }

  lemma LoseReadFine(x: Side, p: Party)
    requires PartyOk(x, p)
    ensures Fine(x, DoLoseRead(p))
  {
    if Reading(p.stack) {
      MarksOk(p.h, DyingIds(p.stack));
      AbandonFine(x, p, MarkRead(p.h));
    }
  }

  /** A packet whose references resolve is read. */
  lemma ReadOk(h: Handle, rs: seq<Ref>)
    requires HandleOk(h, {}) && h.open && h.lastOp != Read && Resolves(h, rs)
    ensures var (g, ok, vs) := DeserializeAll(MarkRead(h), rs);
      ok && HandleOk(g, {}) && g.open && g.lastOp == Read && g.isClient == h.isClient
  {
    MarksOk(h, {});
    DeserializeAllReceives(MarkRead(h), rs);
    DeserializeAllOk(MarkRead(h), rs, {});
  }

  lemma RequestFine(x: Side, p: Party, t: nat, rs: seq<Ref>)
    requires PartyOk(x, p) && p.h.open && Reading(p.stack)
    requires Fits(Top(p.stack), Request(t, rs)) && Known(p.h, Request(t, rs))
    ensures Fine(x, ReceiveRequest(p, t, rs))
  {
    ReadOk(p.h, rs);
    PopPush(p.stack, Exec(t));
    hide MarkRead, DeserializeAll, Resolves;
  }

  lemma DestroyFine(x: Side, p: Party, t: nat, id: int, answered: bool)
    requires PartyOk(x, p) && p.h.open && Reading(p.stack)
    requires Fits(Top(p.stack), Destroy(t, id)) && Known(p.h, Destroy(t, id))
    ensures Fine(x, ReceiveDestroy(p, t, id, answered))
  {
    MarksOk(p.h, {});
    var h := MarkRead(p.h);
    var e := EraseLocal(h, h.local[id]);
    SameSerialsAccounted(h, e);
    MarksOk(e, {});
    AbandonFine(x, p, MarkWrite(e));
  }

  lemma FreedParty(x: Side, p: Party, h: Handle)
    requires p.stack != [] && Top(p.stack).Dying? && Linked(x, p.stack)
    requires HandleOk(h, {Top(p.stack).id}) && Holds(h, Pinned(p.stack))
    requires h.isClient == (x == Client) && h.lastOp == Read
    ensures PartyOk(x, p.(h := Delete(h, Top(p.stack).id), stack := Pop(p.stack)))
  {
    DeletePins(h, Top(p.stack).id, Pinned(p.stack));
    assert Linked(x, Pop(p.stack));
  }

  /** The answer to an op_destroy: the proxy goes. */
  lemma FreedReply(p: Party)
    requires p.stack != [] && Top(p.stack).Dying?
    ensures ReceiveReply(p, false, [])
         == Next(p.(h := Delete(MarkRead(p.h), Top(p.stack).id), stack := Pop(p.stack)), [])
  {
    assert DeserializeAll(MarkRead(p.h), []) == (MarkRead(p.h), true, []);
  }

  lemma FreedFine(x: Side, p: Party)
    requires PartyOk(x, p) && p.h.open && p.stack != [] && Top(p.stack).Dying?
    ensures Fine(x, ReceiveReply(p, false, []))
  {
    MarksOk(p.h, {Top(p.stack).id});
    FreedReply(p);
    FreedParty(x, p, MarkRead(p.h));
  }

  lemma ReplyFine(x: Side, p: Party, m: Msg)
    requires PartyOk(x, p) && p.h.open && Reading(p.stack) && m.Reply?
    requires Fits(Top(p.stack), m) && Known(p.h, m)
    ensures Fine(x, ReceiveReply(p, m.thrown, m.refs))
  {
    if Top(p.stack).Dying? {
      FreedFine(x, p);
    } else {
      ReadOk(p.h, m.refs);
      assert Linked(x, Pop(p.stack));
    }
  }

  lemma ReceiveFine(x: Side, p: Party, answered: bool)
    requires PartyOk(x, p) && InboxOk(p)
    ensures Fine(x, DoReceive(p, answered))
  {
    if Reading(p.stack) && p.h.open && p.inbox != [] {
      var q := p.(inbox := p.inbox[1..]);
      match p.inbox[0] {
        case Request(t, rs) => RequestFine(x, q, t, rs);
        case Destroy(t, id) => DestroyFine(x, q, t, id, answered);
        case Reply(t, thrown, rs) => ReplyFine(x, q, p.inbox[0]);
      }
    }
  }

  /** Every step of an end keeps that end in order, whatever the stream does. */
  lemma LocalFine(x: Side, p: Party, a: Action, tag: nat)
    requires PartyOk(x, p) && InboxOk(p)
    ensures Fine(x, Local(x, p, a, tag))
  {
    match a {
      case Start(vals, sent) =>
        if x == Server {
          StartFine(p, vals, sent);
        }
      case BeginCall(args) => CallFine(x, p, args);
      case BeginAnswer(thrown, vals) => AnswerFine(x, p, thrown, vals);
      case Collect1(sent) => CollectFine(x, p, tag, sent);
      case Send(sent) => SendFine(x, p, tag, sent);
      case Receive(answered) => ReceiveFine(x, p, answered);
      case LoseRead => LoseReadFine(x, p);
      case Drop(id, noMemory) => DropFine(x, p, id, noMemory);
      case Copy(id) => CopyFine(x, p, id);
    }
  }
}
