/** A whole collection before a write, both ends together: every way it can go on while the connection works. */
module RemoteCollection {
  import opened RemoteHandle
  import opened RemoteSystem
  import opened RemoteSafety
  import opened RemoteCoupling
  import opened RemoteTheorems

  // ---------------------------------------------------------------- where a collection stands

  /** In front of the next candidate, waiting for a handshake to be served, or with its answer on the way. */
  predicate Amid(ph: Phase) {
    ph.Collecting? || ph.Destroying? || ph.Destroyed?
  }

  /** `x` is inside garbage_collect, on a working connection. */
  ghost predicate AmidAt(s: Sys, x: Side, ph: Phase, calls: Calls) {
    && Amid(ph) && Holder(calls) == x && SysOk(s) && BothOpen(s)
    && Coupled(ph, calls, Get(s, x), Get(s, Other(x)))
  }

  /** The proxies it still has to delete. */
  ghost function Doomed(p: Party, ph: Phase): set<int>
    requires Amid(ph)
  {
    Dead(p.h) + if ph.Collecting? then {} else {ph.id}
  }

  /** The moves it still takes. */
  ghost function Left(p: Party, ph: Phase): nat
    requires Amid(ph)
  {
    |p.h.cand| + 2 * |Dead(p.h)| + match ph case Collecting(_) => 0 case Destroying(_, _, _) => 2 case _ => 1
  }

  /** The packets the other end, and this one, still read. */
  ghost function ToServe(p: Party, ph: Phase): nat
    requires Amid(ph)
  {
    |Dead(p.h)| + if ph.Destroying? then 1 else 0
  }

  ghost function ToFree(p: Party, ph: Phase): nat
    requires Amid(ph)
  {
    |Dead(p.h)| + if ph.Collecting? then 0 else 1
  }

  // ---------------------------------------------------------------- what can happen

  /** Everything the protocol does on a working connection, up to the write itself. */
  predicate Works(a: Action) {
    match a
    case Start(_, sent) => sent
    case BeginCall(_) => true
    case BeginAnswer(_, _) => true
    case Collect1(sent) => sent
    case Receive(answered) => answered
    case _ => false
  }

  ghost predicate Possible(s: Sys, m: (Side, Action)) {
    Works(m.1) && Local(m.0, Get(s, m.0), m.1, s.tags).Next?
  }

  /** Meanwhile the objects erased at the other end release what they refer to; that end stays open. */
  ghost predicate Aside(s: Sys, x: Side, m: (Side, Action)) {
    && m.0 == Other(x) && (m.1.Drop? || m.1.Copy?)
    && var n := Local(m.0, Get(s, m.0), m.1, s.tags); n.Next? && n.p.h.open
  }

  /** The moves happen one after the other. */
  ghost predicate Follows(s: Sys, x: Side, moves: seq<(Side, Action)>)
    decreases |moves|
  {
    moves == [] || ((Possible(s, moves[0]) || Aside(s, x, moves[0]))
                    && Follows(Step(s, moves[0].0, moves[0].1), x, moves[1..]))
  }

  /** How many of them belong to the protocol. */
  function Working(moves: seq<(Side, Action)>): nat {
    if moves == [] then 0 else (if Works(moves[0].1) then 1 else 0) + Working(moves[1..])
  }

  /** How many packets of a run are read. */
  function Reads(moves: seq<(Side, Action)>, x: Side): nat {
    if moves == [] then 0
    else (if moves[0].0 == x && moves[0].1.Receive? then 1 else 0) + Reads(moves[1..], x)
  }

  lemma CollectorOnlyCollects(x: Side, p: Party, a: Action, tag: nat)
    requires p.stack != [] && Top(p.stack).Gc? && Works(a)
    ensures Local(x, p, a, tag).Next? <==> a == Collect1(true) && p.h.cand != {}
  {
  }

  lemma WaiterOnlyReceives(x: Side, p: Party, a: Action, tag: nat)
    requires Reading(p.stack) && p.h.open && Works(a)
    ensures Local(x, p, a, tag).Next? <==> a == Receive(true) && p.inbox != []
  {
  }

  /** In front of a candidate, only the collecting end can move; behind the last one, none can. */
  lemma OnlyCollect(s: Sys, x: Side)
    requires var p, q := Get(s, x), Get(s, Other(x));
      p.stack != [] && Top(p.stack).Gc? && Reading(q.stack) && q.h.open && q.inbox == []
    ensures Get(s, x).h.cand != {} ==> forall m :: Possible(s, m) <==> m == (x, Collect1(true))
    ensures Get(s, x).h.cand == {} ==> forall m :: !Possible(s, m)
  {
    forall m | Possible(s, m) ensures m == (x, Collect1(true)) && Get(s, x).h.cand != {} {
      if m.0 == x {
        CollectorOnlyCollects(x, Get(s, x), m.1, s.tags);
      } else {
        assert m.0 == Other(x);
        WaiterOnlyReceives(Other(x), Get(s, Other(x)), m.1, s.tags);
      }
    }
    CollectorOnlyCollects(x, Get(s, x), Collect1(true), s.tags);
  }

  /** With both ends waiting and a packet on its way to one, only that one can move. */
  lemma OnlyReceive(s: Sys, z: Side)
    requires var p, q := Get(s, z), Get(s, Other(z));
      Reading(p.stack) && p.h.open && p.inbox != [] && Reading(q.stack) && q.h.open && q.inbox == []
    ensures forall m :: Possible(s, m) <==> m == (z, Receive(true))
  {
    forall m | Possible(s, m) ensures m == (z, Receive(true)) {
      if m.0 == z {
        WaiterOnlyReceives(z, Get(s, z), m.1, s.tags);
      } else {
        assert m.0 == Other(z);
        WaiterOnlyReceives(Other(z), Get(s, Other(z)), m.1, s.tags);
      }
    }
    WaiterOnlyReceives(z, Get(s, z), Receive(true), s.tags);
  }

  // ---------------------------------------------------------------- single moves

  /** What the handshake for the next candidate relies on. */
  ghost predicate CanAsk(p: Party, q: Party) {
    && p.stack != [] && Top(p.stack).Gc? && p.inbox == [] && p.h.open && p.h.lastOp == Read
    && p.h.cand != {} && Least(p.h.cand) in p.h.remote && p.h.remote[Least(p.h.cand)].refcount == 0
    && q.inbox == [] && q.h.open && q.h.lastOp == Write && WaitsForAnswer(q.stack)
    && Least(p.h.cand) in q.h.local && q.h.local[Least(p.h.cand)].Id() == Least(p.h.cand)
  }

  lemma AmidCanAsk(s: Sys, x: Side, ph: Phase, calls: Calls)
    requires AmidAt(s, x, ph, calls) && ph.Collecting? && Get(s, x).h.cand != {}
    requires Get(s, x).h.remote[Least(Get(s, x).h.cand)].refcount == 0
    ensures CanAsk(Get(s, x), Get(s, Other(x)))
  {
    ViewTop(calls);
  }

  lemma Asked(s: Sys, x: Side)
    requires CanAsk(Get(s, x), Get(s, Other(x)))
    ensures var p, q := Get(s, x), Get(s, Other(x));
      var id := Least(p.h.cand);
      var s1 := Step(s, x, Collect1(true));
      && Get(s1, x) == p.(h := p.h.(cand := p.h.cand - {id}, lastOp := Write), stack := p.stack + [Dying(s.tags, id)])
      && Get(s1, Other(x)) == q.(inbox := [Destroy(s.tags, id)])
  {
    assert Get(s, Other(x)).inbox + [Destroy(s.tags, Least(Get(s, x).h.cand))]
        == [Destroy(s.tags, Least(Get(s, x).h.cand))];
  }

  lemma Freed(p: Party, t: nat, id: int)
    requires p.stack != [] && Top(p.stack) == Dying(t, id) && p.h.open && p.h.lastOp == Write
    requires p.inbox == [Reply(t, false, [])] && id in p.h.remote
    ensures DoReceive(p, true)
         == Next(p.(inbox := [], h := Delete(p.h.(lastOp := Read), id), stack := Pop(p.stack)), [])
  {
    FreedReply(p.(inbox := []));
    assert p.inbox[1..] == [];
  }

  lemma ServedStep(s1: Sys, x: Side, t: nat, id: int)
    requires var q := Get(s1, Other(x));
      && q.inbox == [Destroy(t, id)] && q.h.open && q.h.lastOp == Write && WaitsForAnswer(q.stack)
      && id in q.h.local && q.h.local[id].Id() == id
    requires Get(s1, x).inbox == []
    ensures var q := Get(s1, Other(x));
      var s2 := Step(s1, Other(x), Receive(true));
      && Get(s2, Other(x)) == q.(inbox := [], h := q.h.(local := q.h.local - {id}))
      && Get(s2, x) == Get(s1, x).(inbox := [Reply(t, false, [])])
  {
    Served(Get(s1, Other(x)), t, id);
    assert Get(s1, x).inbox + [Reply(t, false, [])] == [Reply(t, false, [])];
  }

  lemma FreedStep(s2: Sys, x: Side, t: nat, id: int)
    requires var p := Get(s2, x);
      && p.stack != [] && Top(p.stack) == Dying(t, id) && p.h.open && p.h.lastOp == Write
      && p.inbox == [Reply(t, false, [])] && id in p.h.remote
    ensures var p := Get(s2, x);
      var s3 := Step(s2, x, Receive(true));
      && Get(s3, x) == p.(inbox := [], h := Delete(p.h.(lastOp := Read), id), stack := Pop(p.stack))
      && Get(s3, Other(x)) == Get(s2, Other(x))
  {
    Freed(Get(s2, x), t, id);
    assert Get(s2, Other(x)).inbox + [] == Get(s2, Other(x)).inbox;
  }

  /** The collecting end when a candidate turned out to be referenced again. */
  function WithoutCandidate(p: Party, id: int): Party {
    p.(h := p.h.(cand := p.h.cand - {id}))
  }

  lemma Skipped(s: Sys, x: Side)
    requires var p := Get(s, x);
      && p.stack != [] && Top(p.stack).Gc? && p.h.cand != {}
      && Least(p.h.cand) in p.h.remote && p.h.remote[Least(p.h.cand)].refcount != 0
    ensures var s1 := Step(s, x, Collect1(true));
      && Get(s1, x) == WithoutCandidate(Get(s, x), Least(Get(s, x).h.cand))
      && Get(s1, Other(x)) == Get(s, Other(x))
  {
    var q := Get(s, Other(x));
    assert q.(inbox := q.inbox + []) == q;
  }

  // ---------------------------------------------------------------- one move of the protocol

  /** The collecting end loses exactly `gone`, and its stack is that of the write again. */
  ghost predicate Frees(p: Party, ph: Phase, p': Party, gone: set<int>)
    requires Amid(ph)
  {
    && p'.stack == (if ph.Collecting? then p.stack else Pop(p.stack)) && p'.inbox == []
    && p'.h.remote == p.h.remote - gone && p'.h.local == p.h.local && p'.h.cand == {}
    && p'.h.open && p'.h.lastOp == Read
  }

  /** The other end loses exactly these objects; of its proxies only counts and candidates may change, and not those
      either when nothing happened aside. */
  ghost predicate Erases(q: Party, q': Party, gone: set<int>, still: bool) {
    && q'.stack == q.stack && q'.inbox == []
    && q'.h.local == q.h.local - gone && q'.h.remote.Keys == q.h.remote.Keys
    && q'.h.open && q'.h.lastOp == q.h.lastOp
    && (still ==> q'.h == q.h.(local := q.h.local - gone))
  }

  lemma CollectingShape(ph: Phase, calls: Calls, px: Party, py: Party)
    requires Shape(ph, calls, px, py) && ph.Collecting?
    ensures px.stack != [] && Top(px.stack) == Gc(ph.out) && Reading(py.stack) && px.inbox == [] && py.inbox == []
    ensures px.h.lastOp == Read && py.h.lastOp == Write
  {
    ViewTop(calls);
    PopPush(View(Holder(calls), if ph.out.Call? then calls else Outer(calls)), Gc(ph.out));
    hide View;
  }

  lemma DestroyingShape(ph: Phase, calls: Calls, px: Party, py: Party)
    requires Shape(ph, calls, px, py) && ph.Destroying?
    ensures Reading(px.stack) && Top(px.stack) == Dying(ph.tag, ph.id) && px.inbox == [] && px.h.lastOp == Write
    ensures py.inbox == [Destroy(ph.tag, ph.id)] && WaitsForAnswer(py.stack) && py.h.lastOp == Write
  {
    ViewTop(calls);
    PopPush(Writing(Holder(calls), ph.out, calls), Dying(ph.tag, ph.id));
    hide View, Writing;
  }

  lemma DestroyedShape(ph: Phase, calls: Calls, px: Party, py: Party)
    requires Shape(ph, calls, px, py) && ph.Destroyed?
    ensures Reading(px.stack) && Top(px.stack) == Dying(ph.tag, ph.id) && px.h.lastOp == Write
    ensures px.inbox == [Reply(ph.tag, false, [])] && Reading(py.stack) && py.inbox == []
  {
    ViewTop(calls);
    PopPush(Writing(Holder(calls), ph.out, calls), Dying(ph.tag, ph.id));
    hide View, Writing;
  }

  /** Which move of the protocol comes next: one, or none when nothing is left. */
  lemma OneWay(s: Sys, x: Side, ph: Phase, calls: Calls)
    requires AmidAt(s, x, ph, calls)
    ensures Left(Get(s, x), ph) == 0 ==> forall m :: !Possible(s, m)
    ensures Left(Get(s, x), ph) > 0 ==> forall m :: Possible(s, m) <==> m == Due(x, ph)
    ensures Left(Get(s, x), ph) == 0 <==> ph.Collecting? && Get(s, x).h.cand == {}
  {
    var p, q := Get(s, x), Get(s, Other(x));
    if ph.Collecting? {
      CollectingShape(ph, calls, p, q);
      hide SysOk, Coupled;
      OnlyCollect(s, x);
    } else if ph.Destroying? {
      DestroyingShape(ph, calls, p, q);
      hide SysOk, Coupled;
      OnlyReceive(s, Other(x));
    } else {
      DestroyedShape(ph, calls, p, q);
      hide SysOk, Coupled;
      OnlyReceive(s, x);
    }
  }

  function Due(x: Side, ph: Phase): (Side, Action) {
    if ph.Collecting? then (x, Collect1(true)) else (if ph.Destroying? then Other(x) else x, Receive(true))
  }

  /** What that move does: a candidate is dropped or asked for, served, or freed. */
  ghost predicate Effect(ph: Phase, p: Party, q: Party, ph1: Phase, p1: Party, q1: Party) {
    match ph
    case Collecting(out) =>
      && p.h.cand != {} && Least(p.h.cand) in p.h.remote
      && var id := Least(p.h.cand);
        if p.h.remote[id].refcount != 0 then ph1 == ph && p1 == WithoutCandidate(p, id) && q1 == q
        else
          && ph1.Destroying? && ph1.out == out && ph1.id == id
          && p1 == p.(h := p.h.(cand := p.h.cand - {id}, lastOp := Write), stack := p.stack + [Dying(ph1.tag, id)])
          && q1 == q.(inbox := [Destroy(ph1.tag, id)])
    case Destroying(out, t, id) =>
      && ph1 == Destroyed(out, t, id)
      && p1 == p.(inbox := [Reply(t, false, [])])
      && q1 == q.(inbox := [], h := q.h.(local := q.h.local - {id}))
    case Destroyed(out, _, id) =>
      && ph1 == Collecting(out) && id in p.h.remote && id !in p.h.cand && p.stack != []
      && p1 == p.(inbox := [], h := Delete(p.h.(lastOp := Read), id), stack := Pop(p.stack)) && q1 == q
    case _ => false
  }

  lemma CollectMove(s: Sys, x: Side, ph: Phase, calls: Calls) returns (ph1: Phase)
    requires AmidAt(s, x, ph, calls) && ph.Collecting? && Get(s, x).h.cand != {}
    ensures var s1 := Step(s, x, Collect1(true));
      Effect(ph, Get(s, x), Get(s, Other(x)), ph1, Get(s1, x), Get(s1, Other(x)))
  {
    var p, q := Get(s, x), Get(s, Other(x));
    var id := Least(p.h.cand);
    CollectingShape(ph, calls, p, q);
    if p.h.remote[id].refcount != 0 {
      ph1 := ph;
      Skipped(s, x);
    } else {
      ph1 := Destroying(ph.out, s.tags, id);
      AmidCanAsk(s, x, ph, calls);
      Asked(s, x);
    }
  }

  lemma ServeMove(s: Sys, x: Side, ph: Phase, calls: Calls)
    requires AmidAt(s, x, ph, calls) && ph.Destroying?
    ensures var s1 := Step(s, Other(x), Receive(true));
      Effect(ph, Get(s, x), Get(s, Other(x)), Destroyed(ph.out, ph.tag, ph.id), Get(s1, x), Get(s1, Other(x)))
  {
    DestroyingShape(ph, calls, Get(s, x), Get(s, Other(x)));
    ServedStep(s, x, ph.tag, ph.id);
  }

  lemma FreeMove(s: Sys, x: Side, ph: Phase, calls: Calls)
    requires AmidAt(s, x, ph, calls) && ph.Destroyed?
    ensures var s1 := Step(s, x, Receive(true));
      Effect(ph, Get(s, x), Get(s, Other(x)), Collecting(ph.out), Get(s1, x), Get(s1, Other(x)))
  {
    DestroyedShape(ph, calls, Get(s, x), Get(s, Other(x)));
    FreedStep(s, x, ph.tag, ph.id);
  }

  lemma EffectCouples(ph: Phase, calls: Calls, p: Party, q: Party, ph1: Phase, p1: Party, q1: Party)
    requires Coupled(ph, calls, p, q) && Effect(ph, p, q, ph1, p1, q1)
    ensures Coupled(ph1, calls, p1, q1) && Amid(ph1) && p1.h.open == p.h.open && q1.h.open == q.h.open
  {
    if ph.Collecting? {
    } else if ph.Destroying? {
      assert q1.h.local.Keys == q.h.local.Keys - {ph.id};
    } else {
      PopPush(Writing(Holder(calls), ph.out, calls), Dying(ph.tag, ph.id));
    }
  }

  lemma EffectDead(ph: Phase, p: Party, q: Party, ph1: Phase, p1: Party, q1: Party)
    requires Effect(ph, p, q, ph1, p1, q1)
    ensures if ph.Collecting? && p.h.remote[Least(p.h.cand)].refcount == 0
            then |Dead(p.h)| == |Dead(p1.h)| + 1 else Dead(p1.h) == Dead(p.h)
    ensures if ph.Collecting? then |p.h.cand| == |p1.h.cand| + 1 else p1.h.cand == p.h.cand
  {
    if ph.Collecting? {
      var id := Least(p.h.cand);
      assert p.h.cand == p1.h.cand + {id};
      if p.h.remote[id].refcount == 0 {
        assert Dead(p.h) == Dead(p1.h) + {id} && id !in Dead(p1.h);
      }
    }
  }

  lemma EffectCounts(ph: Phase, p: Party, q: Party, ph1: Phase, p1: Party, q1: Party)
    requires Effect(ph, p, q, ph1, p1, q1)
    ensures Amid(ph) && Amid(ph1) && Left(p, ph) == Left(p1, ph1) + 1
    ensures ToServe(p, ph) == ToServe(p1, ph1) + if ph.Destroying? then 1 else 0
    ensures ToFree(p, ph) == ToFree(p1, ph1) + if ph.Destroyed? then 1 else 0
  {
    EffectDead(ph, p, q, ph1, p1, q1);
    hide Dead;
  }

  lemma EffectFrees(ph: Phase, p: Party, q: Party, ph1: Phase, p1: Party, q1: Party, p': Party)
    requires Effect(ph, p, q, ph1, p1, q1) && Amid(ph) && Amid(ph1)
    requires Frees(p1, ph1, p', Doomed(p1, ph1))
    ensures Frees(p, ph, p', Doomed(p, ph)) && Doomed(p1, ph1) <= Doomed(p, ph)
  {
    if ph.Collecting? {
      var id := Least(p.h.cand);
      if p.h.remote[id].refcount != 0 {
        assert Dead(p1.h) == Dead(p.h);
      } else {
        PopPush(p.stack, Dying(ph1.tag, id));
        assert Dead(p.h) == Dead(p1.h) + {id};
      }
    } else {
      assert Dead(p1.h) == Dead(p.h);
      assert ph.Destroyed? ==> (p.h.remote - {ph.id}) - Dead(p.h) == p.h.remote - (Dead(p.h) + {ph.id});
    }
  }

  lemma EffectErases(ph: Phase, p: Party, q: Party, ph1: Phase, p1: Party, q1: Party, q': Party, still: bool)
    requires Effect(ph, p, q, ph1, p1, q1) && Amid(ph) && Amid(ph1)
    requires Erases(q1, q', Doomed(p1, ph1), still)
    requires ph.Destroyed? ==> ph.id !in q.h.local
    ensures Erases(q, q', Doomed(p, ph), still)
  {
    if ph.Collecting? {
      var id := Least(p.h.cand);
      if p.h.remote[id].refcount != 0 {
        assert Dead(p1.h) == Dead(p.h);
      } else {
        assert Dead(p.h) == Dead(p1.h) + {id};
      }
    } else {
      assert Dead(p1.h) == Dead(p.h);
      assert (q.h.local - {ph.id}) - Doomed(p, ph) == q.h.local - Doomed(p, ph);
      if ph.Destroyed? {
        assert q.h.local - Dead(p.h) == q.h.local - (Dead(p.h) + {ph.id});
      }
    }
  }

  // ---------------------------------------------------------------- one move aside

  lemma AsideEffect(s: Sys, x: Side, m: (Side, Action))
    requires SysOk(s) && Aside(s, x, m)
    ensures var s1 := Step(s, m.0, m.1); var q, q1 := Get(s, Other(x)), Get(s1, Other(x));
      Get(s1, x) == Get(s, x) && q1 == q.(h := q1.h) && SameTables(q.h, q1.h)
  {
    var p, q := Get(s, x), Get(s, Other(x));
    assert p.(inbox := p.inbox + []) == p;
    AsideLocal(Other(x), q, m.1, s.tags);
    hide SysOk, PartyOk, SameTables, DoDrop, DoCopy;
  }

  lemma AsideLocal(y: Side, q: Party, a: Action, tag: nat)
    requires PartyOk(y, q) && (a.Drop? || a.Copy?)
    ensures var n := Local(y, q, a, tag);
      n.Next? && n.p.h.open ==> n.out == [] && n.p == q.(h := n.p.h) && SameTables(q.h, n.p.h)
  {
    if a.Drop? && DoDrop(q, a.id, a.noMemory).Next? {
      ReleaseFrame(q.h, a.id, a.noMemory, DyingIds(q.stack));
      hide HandleOk, Release;
    }
  }

  lemma AsideCouples(ph: Phase, calls: Calls, p: Party, q: Party, h: Handle)
    requires Coupled(ph, calls, p, q) && SameTables(q.h, h)
    ensures Coupled(ph, calls, p, q.(h := h))
  {
  }

  lemma AsideKeeps(s: Sys, x: Side, ph: Phase, calls: Calls, m: (Side, Action))
    requires AmidAt(s, x, ph, calls) && Aside(s, x, m)
    ensures AmidAt(Step(s, m.0, m.1), x, ph, calls)
  {
    var p, q := Get(s, x), Get(s, Other(x));
    StepOk(s, m.0, m.1);
    AsideEffect(s, x, m);
    AsideCouples(ph, calls, p, q, Get(Step(s, m.0, m.1), Other(x)).h);
    hide SysOk, Coupled;
  }

  // ---------------------------------------------------------------- every run

  lemma DueMove(s: Sys, x: Side, ph: Phase, calls: Calls) returns (ph1: Phase)
    requires AmidAt(s, x, ph, calls) && Left(Get(s, x), ph) > 0
    ensures var s1 := Step(s, Due(x, ph).0, Due(x, ph).1);
      && Effect(ph, Get(s, x), Get(s, Other(x)), ph1, Get(s1, x), Get(s1, Other(x)))
      && AmidAt(s1, x, ph1, calls)
  {
    OneWay(s, x, ph, calls);
    if ph.Collecting? {
      ph1 := CollectMove(s, x, ph, calls);
    } else if ph.Destroying? {
      ServeMove(s, x, ph, calls);
      ph1 := Destroyed(ph.out, ph.tag, ph.id);
    } else {
      FreeMove(s, x, ph, calls);
      ph1 := Collecting(ph.out);
    }
    var s1 := Step(s, Due(x, ph).0, Due(x, ph).1);
    StepOk(s, Due(x, ph).0, Due(x, ph).1);
    hide SysOk, Effect, Step;
    EffectCouples(ph, calls, Get(s, x), Get(s, Other(x)), ph1, Get(s1, x), Get(s1, Other(x)));
  }

  /** Nothing happens aside. */
  predicate Still(moves: seq<(Side, Action)>) {
    Working(moves) == |moves|
  }

  lemma WorkingAtMost(moves: seq<(Side, Action)>)
    ensures Working(moves) <= |moves|
  {
  }

  /** Where a run of the collection has come to: the moves and packets it took are those that are no longer left, and
      when nothing is left all is done. */
  ghost predicate Accounts(x: Side, ph: Phase, p: Party, q: Party, moves: seq<(Side, Action)>, ph': Phase, p': Party,
                           q': Party)
    requires Amid(ph) && Amid(ph')
  {
    && Working(moves) + Left(p', ph') == Left(p, ph)
    && Reads(moves, Other(x)) + ToServe(p', ph') == ToServe(p, ph)
    && Reads(moves, x) + ToFree(p', ph') == ToFree(p, ph)
    && (Left(p', ph') == 0 ==> Frees(p, ph, p', Doomed(p, ph)) && Erases(q, q', Doomed(p, ph), Still(moves)))
  }

  ghost predicate CameTo(s: Sys, x: Side, ph: Phase, moves: seq<(Side, Action)>, s': Sys, ph': Phase, calls: Calls) {
    && Amid(ph) && AmidAt(s', x, ph', calls)
    && Accounts(x, ph, Get(s, x), Get(s, Other(x)), moves, ph', Get(s', x), Get(s', Other(x)))
  }

  lemma FollowsOn(s: Sys, x: Side, moves: seq<(Side, Action)>)
    requires Follows(s, x, moves) && moves != []
    ensures var s1 := Step(s, moves[0].0, moves[0].1);
      && (Possible(s, moves[0]) || Aside(s, x, moves[0]))
      && Follows(s1, x, moves[1..]) && Run(s, moves) == Run(s1, moves[1..])
  {
    hide Step, Possible, Aside;
  }

  lemma {:induction false} RunGoes(s: Sys, x: Side, ph: Phase, calls: Calls, moves: seq<(Side, Action)>, s': Sys)
    returns (ph': Phase)
    requires AmidAt(s, x, ph, calls) && Follows(s, x, moves) && s' == Run(s, moves)
    ensures CameTo(s, x, ph, moves, s', ph', calls)
    decreases |moves|
  {
    hide AmidAt, Follows, Step, Possible, Aside, Effect;
    if moves == [] {
      ph' := ph;
      NothingYet(s, x, ph, calls);
    } else {
      var m, rest := moves[0], moves[1..];
      var s1 := Step(s, m.0, m.1);
      hide Run;
      FollowsOn(s, x, moves);
      assert moves == [m] + rest;
      if Aside(s, x, m) {
        AsideKeeps(s, x, ph, calls, m);
        ph' := RunGoes(s1, x, ph, calls, rest, s');
        CameAside(s, x, ph, calls, m, rest, s', ph');
      } else {
        var ph1 := NextMove(s, x, ph, calls, m);
        ph' := RunGoes(s1, x, ph1, calls, rest, s');
        CameOn(s, x, ph, calls, ph1, rest, s', ph');
      }
    }
  }

  lemma NextMove(s: Sys, x: Side, ph: Phase, calls: Calls, m: (Side, Action)) returns (ph1: Phase)
    requires AmidAt(s, x, ph, calls) && Possible(s, m)
    ensures m == Due(x, ph)
    ensures var s1 := Step(s, m.0, m.1);
      Effect(ph, Get(s, x), Get(s, Other(x)), ph1, Get(s1, x), Get(s1, Other(x))) && AmidAt(s1, x, ph1, calls)
  {
    OneWay(s, x, ph, calls);
    hide AmidAt, Possible, Effect;
    ph1 := DueMove(s, x, ph, calls);
  }

  lemma NothingYet(s: Sys, x: Side, ph: Phase, calls: Calls)
    requires AmidAt(s, x, ph, calls)
    ensures CameTo(s, x, ph, [], s, ph, calls)
  {
    var p, q := Get(s, x), Get(s, Other(x));
    OneWay(s, x, ph, calls);
    if Left(p, ph) == 0 {
      CollectingShape(ph, calls, p, q);
      assert p.h.open && q.h.open;
      hide AmidAt, SysOk, Coupled, Shape, Tables, Frees, Erases, Doomed, Dead;
      NothingToDo(ph, p, q);
    }
    AccountsNothing(x, ph, p, q);
  }

  lemma AccountsNothing(x: Side, ph: Phase, p: Party, q: Party)
    requires Amid(ph) && (Left(p, ph) == 0 ==> Frees(p, ph, p, Doomed(p, ph)) && Erases(q, q, Doomed(p, ph), true))
    ensures Accounts(x, ph, p, q, [], ph, p, q)
  {
    hide Frees, Erases, Doomed, Left, ToServe, ToFree;
  }

  lemma NothingToDo(ph: Phase, p: Party, q: Party)
    requires ph.Collecting? && p.h.cand == {} && p.inbox == [] && q.inbox == []
    requires p.h.open && p.h.lastOp == Read && q.h.open
    ensures Frees(p, ph, p, Doomed(p, ph)) && Erases(q, q, Doomed(p, ph), true)
  {
    assert Doomed(p, ph) == {};
    assert p.h.remote - {} == p.h.remote && q.h.local - {} == q.h.local;
  }

  lemma AccountsAside(x: Side, ph: Phase, p: Party, q: Party, q1: Party, m: (Side, Action), rest: seq<(Side, Action)>,
                      ph': Phase, p': Party, q': Party)
    requires Amid(ph) && Amid(ph') && (m.1.Drop? || m.1.Copy?)
    requires q1 == q.(h := q1.h) && SameTables(q.h, q1.h)
    requires Accounts(x, ph, p, q1, rest, ph', p', q')
    ensures Accounts(x, ph, p, q, [m] + rest, ph', p', q')
  {
    assert ([m] + rest)[1..] == rest;
    WorkingAtMost(rest);
    hide Frees, Left, ToServe, ToFree, Doomed;
  }

  lemma AccountsOn(x: Side, ph: Phase, p: Party, q: Party, ph1: Phase, p1: Party, q1: Party,
                   rest: seq<(Side, Action)>, ph': Phase, p': Party, q': Party)
    requires Effect(ph, p, q, ph1, p1, q1) && Amid(ph) && Amid(ph1) && Amid(ph')
    requires ph.Destroyed? ==> ph.id !in q.h.local
    requires Accounts(x, ph1, p1, q1, rest, ph', p', q')
    ensures Accounts(x, ph, p, q, [Due(x, ph)] + rest, ph', p', q')
  {
    hide Effect, Frees, Erases, Left, ToServe, ToFree, Doomed, Working, Reads, Due, Still;
    CountsOn(x, ph, rest);
    EffectCounts(ph, p, q, ph1, p1, q1);
    if Left(p', ph') == 0 {
      EffectFrees(ph, p, q, ph1, p1, q1, p');
      EffectErases(ph, p, q, ph1, p1, q1, q', Still(rest));
    }
  }

  lemma CountsOn(x: Side, ph: Phase, rest: seq<(Side, Action)>)
    requires Amid(ph)
    ensures var moves := [Due(x, ph)] + rest;
      && Working(moves) == Working(rest) + 1 && (Still(moves) <==> Still(rest))
      && Reads(moves, Other(x)) == Reads(rest, Other(x)) + (if ph.Destroying? then 1 else 0)
      && Reads(moves, x) == Reads(rest, x) + (if ph.Destroyed? then 1 else 0)
  {
    assert ([Due(x, ph)] + rest)[1..] == rest;
  }

  lemma AmidIs(s: Sys, x: Side, ph: Phase, calls: Calls)
    requires AmidAt(s, x, ph, calls)
    ensures Amid(ph) && SysOk(s)
  {
    hide Coupled, SysOk;
  }

  lemma AsideKind(s: Sys, x: Side, m: (Side, Action))
    requires Aside(s, x, m)
    ensures m.1.Drop? || m.1.Copy?
  {
    hide Local;
  }

  lemma CameAside(s: Sys, x: Side, ph: Phase, calls: Calls, m: (Side, Action), rest: seq<(Side, Action)>, s': Sys,
                  ph': Phase)
    requires AmidAt(s, x, ph, calls) && Aside(s, x, m)
    requires CameTo(Step(s, m.0, m.1), x, ph, rest, s', ph', calls)
    ensures CameTo(s, x, ph, [m] + rest, s', ph', calls)
  {
    var s1 := Step(s, m.0, m.1);
    hide Aside, AmidAt, Accounts, SameTables, Step, SysOk;
    AmidIs(s, x, ph, calls);
    AmidIs(s', x, ph', calls);
    AsideKind(s, x, m);
    AsideEffect(s, x, m);
    AccountsAside(x, ph, Get(s, x), Get(s, Other(x)), Get(s1, Other(x)), m, rest, ph', Get(s', x), Get(s', Other(x)));
  }

  lemma CameOn(s: Sys, x: Side, ph: Phase, calls: Calls, ph1: Phase, rest: seq<(Side, Action)>, s': Sys, ph': Phase)
    requires AmidAt(s, x, ph, calls)
    requires var s1 := Step(s, Due(x, ph).0, Due(x, ph).1);
      && Effect(ph, Get(s, x), Get(s, Other(x)), ph1, Get(s1, x), Get(s1, Other(x)))
      && CameTo(s1, x, ph1, rest, s', ph', calls)
    ensures CameTo(s, x, ph, [Due(x, ph)] + rest, s', ph', calls)
  {
    var s1 := Step(s, Due(x, ph).0, Due(x, ph).1);
    DestroyedGone(s, x, ph, calls);
    assert Amid(ph1);
    hide AmidAt, Accounts, Effect, Step, SysOk;
    AmidIs(s, x, ph, calls);
    AmidIs(s', x, ph', calls);
    AccountsOn(x, ph, Get(s, x), Get(s, Other(x)), ph1, Get(s1, x), Get(s1, Other(x)), rest, ph', Get(s', x),
               Get(s', Other(x)));
  }

  lemma DestroyedGone(s: Sys, x: Side, ph: Phase, calls: Calls)
    requires AmidAt(s, x, ph, calls)
    ensures ph.Destroyed? ==> ph.id !in Get(s, Other(x)).h.local
  {
  }

  /** However a collection goes on while the connection works, and whatever is released or copied at the other end
      meanwhile: it takes at most so many moves of its own; it can go on unless it has taken that many; and then exactly
      the dead proxies are gone at this end and exactly their objects at the other, for one request and one answer
      each. */
  lemma EveryCollection(s: Sys, x: Side, ph: Phase, calls: Calls, moves: seq<(Side, Action)>)
    requires AmidAt(s, x, ph, calls) && Follows(s, x, moves)
    ensures var s' := Run(s, moves); var p, p' := Get(s, x), Get(s', x);
      && Working(moves) <= Left(p, ph)
      && (Working(moves) == Left(p, ph) <==> forall m :: !Possible(s', m))
      && (Working(moves) == Left(p, ph) ==>
           && Frees(p, ph, p', Doomed(p, ph))
           && Erases(Get(s, Other(x)), Get(s', Other(x)), Doomed(p, ph), Still(moves))
           && Reads(moves, Other(x)) == ToServe(p, ph) && Reads(moves, x) == ToFree(p, ph))
  {
    var s' := Run(s, moves);
    var ph' := RunGoes(s, x, ph, calls, moves, s');
    StuckIff(s', x, ph', calls);
    Concluded(x, ph, Get(s, x), Get(s, Other(x)), moves, ph', Get(s', x), Get(s', Other(x)));
    hide AmidAt, Possible, Follows, Run;
  }

  lemma StuckIff(s: Sys, x: Side, ph: Phase, calls: Calls)
    requires AmidAt(s, x, ph, calls)
    ensures Left(Get(s, x), ph) == 0 <==> forall m :: !Possible(s, m)
  {
    OneWay(s, x, ph, calls);
    hide AmidAt, Possible;
    if Left(Get(s, x), ph) > 0 {
      assert Possible(s, Due(x, ph));
    }
  }

  lemma Concluded(x: Side, ph: Phase, p: Party, q: Party, moves: seq<(Side, Action)>, ph': Phase, p': Party, q': Party)
    requires Amid(ph) && Amid(ph') && Accounts(x, ph, p, q, moves, ph', p', q')
    ensures Working(moves) <= Left(p, ph)
    ensures Working(moves) == Left(p, ph) <==> Left(p', ph') == 0
    ensures Left(p', ph') == 0 ==>
      && Frees(p, ph, p', Doomed(p, ph)) && Erases(q, q', Doomed(p, ph), Still(moves))
      && Reads(moves, Other(x)) == ToServe(p, ph) && Reads(moves, x) == ToFree(p, ph)
  {
    NoneLeft(p', ph');
    hide Frees, Erases, Doomed, Dead;
  }

  lemma NoneLeft(p: Party, ph: Phase)
    requires Amid(ph)
    ensures Left(p, ph) == 0 ==> ToServe(p, ph) == 0 && ToFree(p, ph) == 0
  {
  }

  lemma CollectsAt(s: Sys, x: Side) returns (ph: Phase, calls: Calls)
    requires Reachable(s) && BothOpen(s) && TopIs(Get(s, x).stack, (f: Frame) => f.Gc?)
    ensures AmidAt(s, x, ph, calls) && ph.Collecting?
  {
    ReachableOk(s);
    ph, calls := PairedFrom(s, x);
    Abilities(ph, calls, if Holder(calls) == x then Get(s, x) else Get(s, Other(x)),
                         if Holder(calls) == x then Get(s, Other(x)) else Get(s, x));
  }

  /** The collecting end has lost exactly its dead proxies, and the other end their objects, for one request and one
      answer each; no proxy without references is left and the packet's own are all mapped. */
  ghost predicate Completed(x: Side, p: Party, q: Party, moves: seq<(Side, Action)>, p': Party, q': Party) {
    var dead := Dead(p.h);
    && p'.stack == p.stack && p'.h.remote == p.h.remote - dead && p'.h.local == p.h.local && p'.h.cand == {}
    && p'.h.lastOp == Read && Erases(q, q', dead, Still(moves))
    && Reads(moves, Other(x)) == |dead| == Reads(moves, x)
    && (forall i :: i in p'.h.remote ==> p'.h.remote[i].refcount > 0)
    && (forall i :: i in Pinned(p'.stack) ==> i in p'.h.remote)
  }

  lemma CollectedIs(x: Side, ph: Phase, p: Party, q: Party, moves: seq<(Side, Action)>, p': Party, q': Party)
    requires ph.Collecting? && Frees(p, ph, p', Doomed(p, ph)) && Erases(q, q', Doomed(p, ph), Still(moves))
    requires Reads(moves, Other(x)) == ToServe(p, ph) && Reads(moves, x) == ToFree(p, ph)
    requires forall i :: i in p'.h.remote ==> p'.h.remote[i].refcount > 0
    requires forall i :: i in Pinned(p'.stack) ==> i in p'.h.remote
    ensures Completed(x, p, q, moves, p', q')
  {
    assert Doomed(p, ph) == Dead(p.h);
    hide Dead, Doomed, Erases;
  }

  /** So from every reachable state in which an end is about to collect before a write: each way to go on ends, and it
      ends well. */
  lemma CollectionBeforeWrite(s: Sys, x: Side, moves: seq<(Side, Action)>)
    requires Reachable(s) && BothOpen(s) && TopIs(Get(s, x).stack, (f: Frame) => f.Gc?)
    requires Follows(s, x, moves)
    ensures var s' := Run(s, moves); var most := |Get(s, x).h.cand| + 2 * |Dead(Get(s, x).h)|;
      && Working(moves) <= most
      && (Working(moves) == most <==> forall m :: !Possible(s', m))
      && (Working(moves) == most ==>
           Completed(x, Get(s, x), Get(s, Other(x)), moves, Get(s', x), Get(s', Other(x))))
  {
    var s' := Run(s, moves);
    var ph, calls := CollectsAt(s, x);
    EveryCollection(s, x, ph, calls, moves);
    assert Left(Get(s, x), ph) == |Get(s, x).h.cand| + 2 * |Dead(Get(s, x).h)|;
    hide Run, Possible, Follows, Completed, Dead, Working, AmidAt, Frees, Erases, Doomed, Left, ToServe, ToFree;
    if Working(moves) == Left(Get(s, x), ph) {
      var ph' := RunGoes(s, x, ph, calls, moves, s');
      CameEmpty(s, x, ph, moves, s', ph', calls);
      NothingUnreferenced(s', x, ph', calls);
      CollectedIs(x, ph, Get(s, x), Get(s, Other(x)), moves, Get(s', x), Get(s', Other(x)));
    }
  }

  lemma CameEmpty(s: Sys, x: Side, ph: Phase, moves: seq<(Side, Action)>, s': Sys, ph': Phase, calls: Calls)
    requires CameTo(s, x, ph, moves, s', ph', calls) && Working(moves) == Left(Get(s, x), ph)
    ensures AmidAt(s', x, ph', calls) && Left(Get(s', x), ph') == 0
  {
  }

  lemma NothingUnreferenced(s: Sys, x: Side, ph: Phase, calls: Calls)
    requires AmidAt(s, x, ph, calls) && Left(Get(s, x), ph) == 0
    ensures var p := Get(s, x);
      && (forall i :: i in p.h.remote ==> p.h.remote[i].refcount > 0)
      && (forall i :: i in Pinned(p.stack) ==> i in p.h.remote)
  {
    OneWay(s, x, ph, calls);
    CollectingShape(ph, calls, Get(s, x), Get(s, Other(x)));
    AllReferenced(Get(s, x));
    hide SysOk, Coupled, Left;
  }

  lemma AllReferenced(p: Party)
    requires PartyOk(if p.h.isClient then Client else Server, p) && p.h.cand == {}
    requires p.stack != [] && Top(p.stack).Gc?
    ensures forall i :: i in p.h.remote ==> p.h.remote[i].refcount > 0
    ensures forall i :: i in Pinned(p.stack) ==> i in p.h.remote
  {
  }
}
