/** While both streams are open the two stacks are the two views of one alternating call stack, at most one
    packet is in flight, and the export table of each end is the import table of the other. */
module RemoteCoupling {
  import opened RemoteHandle
  import opened RemoteSystem
  import opened RemoteSafety

  /** The open calls, outermost first, by request number. The client makes the first one, and each further
      one comes from the end that executes the previous one. */
  type Calls = seq<nat>

  /** Who makes the call at this depth, if it is made. */
  function CallerAt(depth: nat): Side {
    if depth % 2 == 0 then Client else Server
  }

  /** Who executes program code when exactly these calls are open. */
  function Holder(calls: Calls): Side {
    CallerAt(|calls|)
  }

  function Outer(calls: Calls): Calls {
    if calls == [] then [] else calls[..|calls| - 1]
  }

  function Innermost(calls: Calls): nat
    requires calls != []
  {
    calls[|calls| - 1]
  }

  /** The stack of one end when exactly these calls are open. */
  ghost function View(x: Side, calls: Calls): seq<Frame>
    decreases |calls|
  {
    if calls == [] then (if x == Client then [] else [Root])
    else
      var t := Innermost(calls);
      View(x, Outer(calls)) + [if CallerAt(|calls| - 1) == x then Loop(t) else Exec(t)]
  }

  datatype Phase =
    | Booting
    | Greeting(refs: seq<Ref>)
    | Running
    | Collecting(out: Outgoing)
    | Asking(tag: nat, refs: seq<Ref>)
    | Answering(thrown: bool, refs: seq<Ref>)
    | Destroying(out: Outgoing, tag: nat, id: int)
    | Destroyed(out: Outgoing, tag: nat, id: int)

  predicate OutOk(out: Outgoing, calls: Calls) {
    out.Answer? ==> calls != [] && out.tag == Innermost(calls)
  }

  /** The holder's stack during packet_write. */
  ghost function Writing(x: Side, out: Outgoing, calls: Calls): seq<Frame> {
    View(x, if out.Call? then calls else Outer(calls)) + [Gc(out)]
  }

  ghost predicate At(p: Party, stack: seq<Frame>, inbox: seq<Msg>, last: LastOp) {
    p.stack == stack && p.inbox == inbox && p.h.lastOp == last
  }

  /** Stacks, packets in flight and turns. `px` belongs to the holder, `py` to the other end. */
  ghost predicate Shape(ph: Phase, calls: Calls, px: Party, py: Party) {
    var x := Holder(calls);
    var y := Other(x);
    match ph
    case Booting => calls == [] && At(px, [Connect], [], Idle) && At(py, [Boot], [], Idle)
    case Greeting(rs) => calls == [] && At(px, [Connect], [Reply(0, false, rs)], Idle) && At(py, [Root], [], Write)
    case Running => At(px, View(x, calls), [], Read) && At(py, View(y, calls), [], Write)
    case Collecting(out) =>
      OutOk(out, calls) && At(px, Writing(x, out, calls), [], Read) && At(py, View(y, calls), [], Write)
    case Asking(t, rs) =>
      At(px, View(x, calls) + [Loop(t)], [], Write) && At(py, View(y, calls), [Request(t, rs)], Write)
    case Answering(thrown, rs) =>
      && calls != [] && At(px, View(x, Outer(calls)), [], Write)
      && At(py, View(y, calls), [Reply(Innermost(calls), thrown, rs)], Write)
    case Destroying(out, t, id) =>
      && OutOk(out, calls) && At(px, Writing(x, out, calls) + [Dying(t, id)], [], Write)
      && At(py, View(y, calls), [Destroy(t, id)], Write)
    case Destroyed(out, t, id) =>
      && OutOk(out, calls) && At(px, Writing(x, out, calls) + [Dying(t, id)], [Reply(t, false, [])], Write)
      && At(py, View(y, calls), [], Write)
  }

  /** `a` imports exactly what `b` exports. */
  ghost predicate Agree(a: Handle, b: Handle) {
    a.remote.Keys == b.local.Keys
  }

  /** A packet with these references is on its way from `a` to `b`. */
  ghost predicate Shipped(a: Handle, b: Handle, rs: seq<Ref>) {
    && a.remote.Keys == b.local.Keys
    && a.local.Keys == b.remote.Keys + LocalIds(rs)
    && RemoteIds(rs) <= b.local.Keys
  }

  /** The identifiers in the four tables. */
  ghost predicate Tables(ph: Phase, hx: Handle, hy: Handle) {
    match ph
    case Booting => hx.remote.Keys == hy.remote.Keys == hx.local.Keys == hy.local.Keys == {}
    case Greeting(rs) => Shipped(hy, hx, rs)
    case Asking(_, rs) => Shipped(hx, hy, rs)
    case Answering(_, rs) => Shipped(hx, hy, rs)
    case Destroying(_, _, id) => Agree(hx, hy) && Agree(hy, hx) && id in hx.remote
    case Destroyed(_, _, id) =>
      hx.remote.Keys == hy.local.Keys + {id} && id !in hy.local && Agree(hy, hx)
    case _ => Agree(hx, hy) && Agree(hy, hx)
  }

  ghost predicate Coupled(ph: Phase, calls: Calls, px: Party, py: Party) {
    Shape(ph, calls, px, py) && Tables(ph, px.h, py.h)
  }

  ghost predicate CoupledSys(s: Sys) {
    exists ph, calls :: Coupled(ph, calls, Get(s, Holder(calls)), Get(s, Other(Holder(calls))))
  }

  // ---------------------------------------------------------------- stacks

  /** The holder is in its program, the other end waits for the innermost call. */
  lemma ViewTop(calls: Calls)
    ensures InProgram(Holder(calls), View(Holder(calls), calls))
    ensures var st := View(Other(Holder(calls)), calls);
      st != [] && (if calls == [] then Top(st) == Root else Top(st) == Loop(Innermost(calls)))
    ensures calls != [] ==> Other(Holder(calls)) == Holder(Outer(calls))
    ensures calls != [] ==> Top(View(Holder(calls), calls)) == Exec(Innermost(calls))
    ensures calls != [] ==> forall x :: Pop(View(x, calls)) == View(x, Outer(calls))
  {
  }

  /** Without its innermost executed call, the holder waits: for the call around it, or at the root. */
  lemma OuterTop(calls: Calls)
    requires calls != []
    ensures var st := View(Holder(calls), Outer(calls));
      WaitsForAnswer(st) && !Top(st).Dying?
  {
    ViewTop(Outer(calls));
  }

  lemma Opened(calls: Calls, t: nat)
    ensures Outer(calls + [t]) == calls && Innermost(calls + [t]) == t
    ensures Holder(calls + [t]) == Other(Holder(calls))
    ensures View(Holder(calls), calls + [t]) == View(Holder(calls), calls) + [Loop(t)]
    ensures View(Other(Holder(calls)), calls + [t]) == View(Other(Holder(calls)), calls) + [Exec(t)]
  {
  }

  /** What the two ends can do in each phase. */
  lemma Abilities(ph: Phase, calls: Calls, px: Party, py: Party)
    requires Shape(ph, calls, px, py)
    ensures var x := Holder(calls);
      && (InProgram(x, px.stack) <==> ph.Running?)
      && (TopIs(px.stack, (f: Frame) => f.Gc?) <==> ph.Collecting?)
      && !InProgram(Other(x), py.stack)
      && !TopIs(py.stack, (f: Frame) => f.Gc?)
      && !TopIs(px.stack, (f: Frame) => f.Boot?)
      && (TopIs(py.stack, (f: Frame) => f.Boot?) <==> ph.Booting?)
      && (Reading(py.stack) <==> !ph.Booting?)
  {
    ViewTop(calls);
    if calls != [] {
      OuterTop(calls);
    }
  }

  /** A packet in flight is one its receiver waits for, and its references resolve. */
  lemma CoupledInboxes(ph: Phase, calls: Calls, px: Party, py: Party)
    requires Coupled(ph, calls, px, py)
    ensures InboxOk(px) && InboxOk(py) && |px.inbox| + |py.inbox| <= 1
  {
    Abilities(ph, calls, px, py);
    ViewTop(calls);
  }

  // ---------------------------------------------------------------- steps

  /** Coupled, seen from the end `x` that moves. */
  ghost predicate Paired(ph: Phase, calls: Calls, x: Side, p: Party, q: Party) {
    if Holder(calls) == x then Coupled(ph, calls, p, q) else Coupled(ph, calls, q, p)
  }

  /** The result of a step of `x` that leaves its stream open fits the other end again. */
  ghost predicate Fits2(x: Side, n: Next, q: Party) {
    n.Next? && n.p.h.open ==>
      exists ph, calls :: Paired(ph, calls, x, n.p, q.(inbox := q.inbox + n.out))
  }

  lemma SameTablesFit(ph: Phase, calls: Calls, x: Side, p: Party, q: Party, h: Handle)
    requires Paired(ph, calls, x, p, q) && SameTables(p.h, h)
    ensures Paired(ph, calls, x, p.(h := h), q.(inbox := q.inbox + []))
  {
    assert q.(inbox := q.inbox + []) == q;
  }

  lemma DropFits(ph: Phase, calls: Calls, x: Side, p: Party, q: Party, id: int, noMemory: bool)
    requires Paired(ph, calls, x, p, q) && PartyOk(x, p)
    ensures Fits2(x, DoDrop(p, id, noMemory), q)
  {
    if DoDrop(p, id, noMemory).Next? {
      ReleaseFrame(p.h, id, noMemory, DyingIds(p.stack));
      if Release(p.h, id, noMemory).open {
        SameTablesFit(ph, calls, x, p, q, Release(p.h, id, noMemory));
      }
    }
  }

  lemma CopyFits(ph: Phase, calls: Calls, x: Side, p: Party, q: Party, id: int)
    requires Paired(ph, calls, x, p, q)
    ensures Fits2(x, DoCopy(p, id), q)
  {
    if DoCopy(p, id).Next? {
      SameTablesFit(ph, calls, x, p, q, AddRef(p.h, id));
    }
  }

  lemma CallFits(ph: Phase, calls: Calls, x: Side, p: Party, q: Party, args: seq<Val>)
    requires Paired(ph, calls, x, p, q)
    ensures Fits2(x, DoCall(x, p, args), q)
  {
    if DoCall(x, p, args).Next? {
      Abilities(ph, calls, if Holder(calls) == x then p else q, if Holder(calls) == x then q else p);
      assert q.(inbox := q.inbox + []) == q;
      assert Paired(Collecting(Call(args)), calls, x, DoCall(x, p, args).p, q.(inbox := q.inbox + []));
    }
  }

  lemma AnswerFits(ph: Phase, calls: Calls, x: Side, p: Party, q: Party, thrown: bool, vals: seq<Val>)
    requires Paired(ph, calls, x, p, q)
    ensures Fits2(x, DoAnswer(p, thrown, vals), q)
  {
    if DoAnswer(p, thrown, vals).Next? {
      Abilities(ph, calls, if Holder(calls) == x then p else q, if Holder(calls) == x then q else p);
      ViewTop(calls);
      assert calls != [];
      assert q.(inbox := q.inbox + []) == q;
      var out := Answer(Innermost(calls), thrown, vals);
      assert Paired(Collecting(out), calls, x, DoAnswer(p, thrown, vals).p, q.(inbox := q.inbox + []));
    }
  }

  lemma CollectFits(ph: Phase, calls: Calls, x: Side, p: Party, q: Party, tag: nat, sent: bool)
    requires Paired(ph, calls, x, p, q) && PartyOk(x, p) && p.h.open
    ensures Fits2(x, DoCollect(p, tag, sent), q)
  {
    var n := DoCollect(p, tag, sent);
    if n.Next? {
      Abilities(ph, calls, if Holder(calls) == x then p else q, if Holder(calls) == x then q else p);
      var id := Least(p.h.cand);
      var h := p.h.(cand := p.h.cand - {id});
      if p.h.remote[id].refcount != 0 {
        SameTablesFit(ph, calls, x, p, q, h);
      } else if sent {
        assert q.inbox + [Destroy(tag, id)] == [Destroy(tag, id)];
        assert Paired(Destroying(ph.out, tag, id), calls, x, n.p, q.(inbox := q.inbox + n.out));
      } else {
        BeginDying(p.h, id);
        WriteLostOk(h, id);
      }
    }
  }

  lemma SendFits(ph: Phase, calls: Calls, x: Side, p: Party, q: Party, tag: nat, sent: bool)
    requires Paired(ph, calls, x, p, q) && PartyOk(x, p) && p.h.open
    ensures Fits2(x, DoSend(p, tag, sent), q)
  {
    if DoSend(p, tag, sent).Next? {
      if sent {
        SentFits(ph, calls, x, p, q, tag);
      } else {
        var out := Top(p.stack).out;
        DrainStaysClosed(MarkWrite(SerializeAll(p.h, if out.Call? then out.args else out.vals).0).(open := false));
      }
    }
  }

  lemma SentRefs(h: Handle, vs: seq<Val>)
    requires HandleOk(h, {}) && h.open && Holds(h, Pins(vs))
    ensures var (g, rs) := SerializeAll(h, vs); Sent(h, g, rs) && RemoteIds(rs) <= h.remote.Keys
  {
    SerializeAllOk(h, vs, {});
    forall i | i in RemoteIds(SerializeAll(h, vs).1)
      ensures i in h.remote.Keys
    {
      assert i in Pins(vs);
    }
  }

  lemma NowAsking(calls: Calls, out: Outgoing, p: Party, q: Party, h: Handle, rs: seq<Ref>, tag: nat)
    requires Coupled(Collecting(out), calls, p, q) && out.Call?
    requires Sent(p.h, h, rs) && RemoteIds(rs) <= p.h.remote.Keys
    ensures Coupled(Asking(tag, rs), calls, p.(h := MarkWrite(h), stack := Pop(p.stack) + [Loop(tag)]),
                    q.(inbox := q.inbox + [Request(tag, rs)]))
  {
    PopPush(View(Holder(calls), calls), Gc(out));
    assert q.inbox + [Request(tag, rs)] == [Request(tag, rs)];
  }

  lemma NowAnswering(calls: Calls, out: Outgoing, p: Party, q: Party, h: Handle, rs: seq<Ref>)
    requires Coupled(Collecting(out), calls, p, q) && out.Answer?
    requires Sent(p.h, h, rs) && RemoteIds(rs) <= p.h.remote.Keys
    ensures Coupled(Answering(out.thrown, rs), calls, p.(h := MarkWrite(h), stack := Pop(p.stack)),
                    q.(inbox := q.inbox + [Reply(out.tag, out.thrown, rs)]))
  {
    PopPush(View(Holder(calls), Outer(calls)), Gc(out));
    assert q.inbox + [Reply(out.tag, out.thrown, rs)] == [Reply(out.tag, out.thrown, rs)];
  }

  lemma CollectingOut(ph: Phase, calls: Calls, x: Side, p: Party, q: Party)
    requires Paired(ph, calls, x, p, q) && TopIs(p.stack, (f: Frame) => f.Gc?)
    ensures ph == Collecting(Top(p.stack).out) && Coupled(ph, calls, p, q)
  {
    Abilities(ph, calls, if Holder(calls) == x then p else q, if Holder(calls) == x then q else p);
    PopPush(View(x, if Top(p.stack).out.Call? then calls else Outer(calls)), Top(p.stack));
  }

  lemma SentFits(ph: Phase, calls: Calls, x: Side, p: Party, q: Party, tag: nat)
    requires Paired(ph, calls, x, p, q) && PartyOk(x, p) && p.h.open && DoSend(p, tag, true).Next?
    ensures Fits2(x, DoSend(p, tag, true), q)
  {
    var n := DoSend(p, tag, true);
    var out := Top(p.stack).out;
    var vs := if out.Call? then out.args else out.vals;
    var (h, rs) := SerializeAll(p.h, vs);
    CollectingOut(ph, calls, x, p, q);
    assert Pins(vs) == Pinned(p.stack);
    SentRefs(p.h, vs);
    hide PartyOk, SerializeAll, Coupled;
    if out.Call? {
      NowAsking(calls, out, p, q, h, rs, tag);
      assert Paired(Asking(tag, rs), calls, x, n.p, q.(inbox := q.inbox + n.out));
    } else {
      NowAnswering(calls, out, p, q, h, rs);
      assert Paired(Answering(out.thrown, rs), calls, x, n.p, q.(inbox := q.inbox + n.out));
    }
  }

  lemma StartFits(ph: Phase, calls: Calls, x: Side, p: Party, q: Party, vals: seq<Val>, sent: bool)
    requires Paired(ph, calls, x, p, q) && PartyOk(x, p) && p.h.open
    ensures Fits2(x, DoStart(p, vals, sent), q)
  {
    var n := DoStart(p, vals, sent);
    if n.Next? {
      Abilities(ph, calls, if Holder(calls) == x then p else q, if Holder(calls) == x then q else p);
      var (h, rs) := SerializeAll(p.h, vals);
      SerializeAllOk(p.h, vals, {});
      if !sent {
        DrainStaysClosed(MarkWrite(h).(open := false));
      } else {
        forall i ensures i !in RemoteIds(rs) {
          assert i in Pins(vals) ==> i in p.h.remote.Keys;
        }
        assert q.inbox + n.out == n.out;
        assert Paired(Greeting(rs), calls, x, n.p, q.(inbox := q.inbox + n.out));
      }
    }
  }

  lemma AbandonCloses(p: Party, h: Handle)
    requires Reading(p.stack)
    ensures Abandon(p, h).Next? && !Abandon(p, h).p.h.open
  {
    DrainStaysClosed(h.(open := false));
  }

  // ---------------------------------------------------------------- receiving

  lemma ReceivedAgree(h: Handle, peer: Handle, rs: seq<Ref>)
    requires h.lastOp != Read && Shipped(peer, h, rs)
    ensures var (g, ok, vs) := DeserializeAll(MarkRead(h), rs);
      ok && Agree(g, peer) && Agree(peer, g) && g.lastOp == Read && g.local == h.local && g.open == h.open
  {
    DeserializeAllReceives(MarkRead(h), rs);
  }

  /** The client reads the greeting and its program starts. */
  lemma GreetingFits(calls: Calls, rs: seq<Ref>, p: Party, q: Party, answered: bool)
    requires Coupled(Greeting(rs), calls, p, q) && p.h.open
    ensures Fits2(Client, DoReceive(p, answered), q)
  {
    var n := DoReceive(p, answered);
    ReceivedAgree(p.h, q.h, rs);
    assert q.(inbox := q.inbox + []) == q;
    assert n.p.stack == View(Client, []);
    assert Paired(Running, [], Client, n.p, q.(inbox := q.inbox + n.out));
  }

  /** A request opens a call, executed by the end that was waiting. */
  lemma RequestFits(calls: Calls, t: nat, rs: seq<Ref>, p: Party, q: Party, answered: bool)
    requires Coupled(Asking(t, rs), calls, q, p) && p.h.open
    ensures Fits2(Other(Holder(calls)), DoReceive(p, answered), q)
  {
    var y := Other(Holder(calls));
    var n := DoReceive(p, answered);
    Abilities(Asking(t, rs), calls, q, p);
    ViewTop(calls);
    ReceivedAgree(p.h, q.h, rs);
    Opened(calls, t);
    assert q.(inbox := q.inbox + []) == q;
    assert Paired(Running, calls + [t], y, n.p, q.(inbox := q.inbox + n.out));
  }

  /** An answer closes the innermost call: it is popped on both sides. */
  lemma ReplyFits(calls: Calls, thrown: bool, rs: seq<Ref>, p: Party, q: Party, answered: bool)
    requires Coupled(Answering(thrown, rs), calls, q, p) && p.h.open
    ensures Fits2(Other(Holder(calls)), DoReceive(p, answered), q)
  {
    var y := Other(Holder(calls));
    var n := DoReceive(p, answered);
    Abilities(Answering(thrown, rs), calls, q, p);
    ViewTop(calls);
    ReceivedAgree(p.h, q.h, rs);
    assert q.(inbox := q.inbox + []) == q;
    assert n.p.stack == View(y, Outer(calls));
    assert Paired(Running, Outer(calls), y, n.p, q.(inbox := q.inbox + n.out));
  }

  /** op_destroy is served without running a program or collecting anything: only the export goes. */
  lemma Served(q: Party, t: nat, id: int)
    requires q.inbox == [Destroy(t, id)] && q.h.open && q.h.lastOp == Write && WaitsForAnswer(q.stack)
    requires id in q.h.local && q.h.local[id].Id() == id
    ensures DoReceive(q, true)
         == Next(q.(inbox := [], h := q.h.(local := q.h.local - {id})), [Reply(t, false, [])])
  {
    assert q.inbox[1..] == [];
  }

  lemma ServedNot(q: Party, t: nat, id: int)
    requires q.inbox == [Destroy(t, id)] && q.h.open && WaitsForAnswer(q.stack) && id in q.h.local
    ensures DoReceive(q, false).Next? && !DoReceive(q, false).p.h.open
  {
    var h := MarkRead(q.h);
    AbandonCloses(q.(inbox := q.inbox[1..]), MarkWrite(EraseLocal(h, h.local[id])));
  }

  lemma DestroyedCoupled(calls: Calls, out: Outgoing, t: nat, id: int, p: Party, q: Party)
    requires Coupled(Destroying(out, t, id), calls, q, p)
    ensures Coupled(Destroyed(out, t, id), calls, q.(inbox := q.inbox + [Reply(t, false, [])]),
                    p.(inbox := [], h := p.h.(local := p.h.local - {id})))
  {
    assert q.inbox + [Reply(t, false, [])] == [Reply(t, false, [])];
  }

  lemma DestroyFits(calls: Calls, out: Outgoing, t: nat, id: int, p: Party, q: Party, answered: bool)
    requires Coupled(Destroying(out, t, id), calls, q, p) && p.h.open && LocalsKeyed(p.h)
    ensures Fits2(Other(Holder(calls)), DoReceive(p, answered), q)
  {
    ViewTop(calls);
    if answered {
      Served(p, t, id);
      DestroyedCoupled(calls, out, t, id, p, q);
      var n := DoReceive(p, answered);
      assert Paired(Destroyed(out, t, id), calls, Other(Holder(calls)), n.p, q.(inbox := q.inbox + n.out));
    } else {
      ServedNot(p, t, id);
    }
  }

  /** The answer to op_destroy: the proxy is deleted and the collection goes on. */
  lemma FreedFits(calls: Calls, out: Outgoing, t: nat, id: int, p: Party, q: Party, answered: bool)
    requires Coupled(Destroyed(out, t, id), calls, p, q) && p.h.open
    ensures Fits2(Holder(calls), DoReceive(p, answered), q)
  {
    var x := Holder(calls);
    var n := DoReceive(p, answered);
    PopPush(Writing(x, out, calls), Dying(t, id));
    FreedReply(p.(inbox := []));
    assert q.(inbox := q.inbox + []) == q;
    assert n.p.stack == Writing(x, out, calls);
    assert Paired(Collecting(out), calls, x, n.p, q.(inbox := q.inbox + n.out));
  }

  lemma ReceiveFits(ph: Phase, calls: Calls, x: Side, p: Party, q: Party, answered: bool)
    requires Paired(ph, calls, x, p, q) && PartyOk(x, p) && p.h.open
    ensures Fits2(x, DoReceive(p, answered), q)
  {
    if DoReceive(p, answered).Next? {
      if Holder(calls) == x {
        match ph {
          case Greeting(rs) => GreetingFits(calls, rs, p, q, answered);
          case Destroyed(out, t, id) => FreedFits(calls, out, t, id, p, q, answered);
          case _ =>
        }
      } else {
        match ph {
          case Asking(t, rs) => RequestFits(calls, t, rs, p, q, answered);
          case Answering(thrown, rs) => ReplyFits(calls, thrown, rs, p, q, answered);
          case Destroying(out, t, id) => DestroyFits(calls, out, t, id, p, q, answered);
          case _ =>
        }
      }
    }
  }

  lemma LoseReadFits(x: Side, p: Party, q: Party)
    ensures Fits2(x, DoLoseRead(p), q)
  {
    DrainStaysClosed(MarkRead(p.h).(open := false));
  }

  /** Every step that leaves both streams open leaves the two ends coupled. */
  lemma LocalFits(ph: Phase, calls: Calls, x: Side, p: Party, q: Party, a: Action, tag: nat)
    requires Paired(ph, calls, x, p, q) && PartyOk(x, p) && p.h.open
    ensures Fits2(x, Local(x, p, a, tag), q)
  {
    match a {
      case Start(vals, sent) => StartFits(ph, calls, x, p, q, vals, sent);
      case BeginCall(args) => CallFits(ph, calls, x, p, q, args);
      case BeginAnswer(thrown, vals) => AnswerFits(ph, calls, x, p, q, thrown, vals);
      case Collect1(sent) => CollectFits(ph, calls, x, p, q, tag, sent);
      case Send(sent) => SendFits(ph, calls, x, p, q, tag, sent);
      case Receive(answered) => ReceiveFits(ph, calls, x, p, q, answered);
      case LoseRead => LoseReadFits(x, p, q);
      case Drop(id, noMemory) => DropFits(ph, calls, x, p, q, id, noMemory);
      case Copy(id) => CopyFits(ph, calls, x, p, q, id);
    }
  }
}
