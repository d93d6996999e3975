/** What the ends say is what they hear: every request and answer one program begins is handed to the other, with its
    objects, in order, and nothing else is. */
module RemoteDelivery {
  import opened RemoteHandle
  import opened RemoteReferences
  import opened RemoteSystem
  import opened RemoteSafety
  import opened RemoteCoupling
  import opened RemoteTheorems
  import opened RemoteCollection

  // ---------------------------------------------------------------- what is on the wire

  /** What `packet_write` was asked to send. */
  function Meaning(out: Outgoing): Content {
    match out
    case Call(args) => Asks(args)
    case Answer(tag, thrown, vals) => Tells(tag, thrown, vals)
  }

  /** The packet says just that. */
  ghost predicate Says(m: Msg, c: Content) {
    match c
    case Asks(vals) => m.Request? && AllNamed(vals, m.refs)
    case Tells(tag, thrown, vals) => m.Reply? && m.tag == tag && m.thrown == thrown && AllNamed(vals, m.refs)
  }

  /** An end that has just written to `q` what `c` means, its own objects exported. */
  ghost predicate Wrote(p: Party, q: Party, c: Content, p': Party, q': Party) {
    && q' == q.(inbox := q'.inbox) && |q'.inbox| == |q.inbox| + 1 && q.inbox <= q'.inbox
    && Says(q'.inbox[|q.inbox|], c)
    && (forall v :: v in c.vals && v.Mine? ==> v.obj.Id() in p'.h.local)
    && p'.h == p.h.(lastOp := Write, local := p'.h.local) && p'.handed == p.handed && p'.inbox == p.inbox
  }

  lemma SerializedExports(h: Handle, vs: seq<Val>)
    requires LocalsKeyed(h)
    ensures var (g, rs) := SerializeAll(h, vs);
      AllNamed(vs, rs) && g == h.(local := g.local) && forall v :: v in vs && v.Mine? ==> v.obj.Id() in g.local
  {
    SerializeAllNames(h, vs);
    SerializeAllSends(h, vs);
    hide SerializeAll;
    var (g, rs) := SerializeAll(h, vs);
    forall v | v in vs && v.Mine? ensures v.obj.Id() in g.local {
      var i :| 0 <= i < |vs| && vs[i] == v;
      assert Named(vs[i], rs[i]);
    }
  }

  lemma SendWrites(p: Party, q: Party, tag: nat)
    requires LocalsKeyed(p.h) && p.h.open && p.h.lastOp != Write
    requires TopIs(p.stack, (f: Frame) => f.Gc?) && p.h.cand == {}
    ensures var n := DoSend(p, tag, true);
      && n.Next? && Wrote(p, q, Meaning(Top(p.stack).out), n.p, q.(inbox := q.inbox + n.out))
      && n.p.stack == if Top(p.stack).out.Call? then Pop(p.stack) + [Loop(tag)] else Pop(p.stack)
  {
    var out := Top(p.stack).out;
    SerializedExports(p.h, if out.Call? then out.args else out.vals);
    hide SerializeAll, LocalsKeyed, AllNamed;
  }

  /** One packet is on its way that says what `x` was about to write; behind a request `x` waits for its answer. */
  ghost predicate WrittenBy(s: Sys, x: Side, s': Sys)
    requires Get(s, x).stack != [] && Top(Get(s, x).stack).Gc?
  {
    var out := Top(Get(s, x).stack).out;
    && Wrote(Get(s, x), Get(s, Other(x)), Meaning(out), Get(s', x), Get(s', Other(x)))
    && Get(s', x).stack == Pop(Get(s, x).stack) + if out.Call? then [Loop(s.tags)] else []
  }

  lemma WriteStep(s: Sys, x: Side, s': Sys)
    requires PartyOk(x, Get(s, x)) && Get(s, x).h.open && TopIs(Get(s, x).stack, (f: Frame) => f.Gc?)
    requires Get(s, x).h.cand == {} && s' == Step(s, x, Send(true))
    ensures WrittenBy(s, x, s')
  {
    var p, q := Get(s, x), Get(s, Other(x));
    MayWrite(x, p);
    hide PartyOk, LocalsKeyed, Step, DoSend, Wrote;
    SendWrites(p, q, s.tags);
    Stepped(s, x, Send(true), DoSend(p, s.tags, true));
    assert Pop(p.stack) + [] == Pop(p.stack);
  }

  /** The write of a request or an answer puts one packet on its way, which says what the program said: each object in
      its place, by the name of the proxy or exported under its own; a request for a call, and for an answer one to the
      same request, thrown or not as the program's. */
  lemma SendSays(s: Sys, x: Side)
    requires Reachable(s) && Get(s, x).h.open && TopIs(Get(s, x).stack, (f: Frame) => f.Gc?) && Get(s, x).h.cand == {}
    ensures WrittenBy(s, x, Step(s, x, Send(true)))
  {
    ReachableOk(s);
    EndOk(s, x);
    WriteStep(s, x, Step(s, x, Send(true)));
    hide WrittenBy, Reachable, SysOk, PartyOk, InboxOk, Step;
  }

  lemma EndOk(s: Sys, x: Side)
    requires SysOk(s)
    ensures PartyOk(x, Get(s, x)) && InboxOk(Get(s, x))
  {
    hide PartyOk, InboxOk, CoupledSys;
  }

  lemma MayWrite(x: Side, p: Party)
    requires PartyOk(x, p) && p.h.open && !Reading(p.stack)
    ensures LocalsKeyed(p.h) && p.h.lastOp != Write
  {
  }

  lemma Stepped(s: Sys, x: Side, a: Action, n: Next)
    requires Local(x, Get(s, x), a, s.tags) == n && n.Next?
    ensures var s', q := Step(s, x, a), Get(s, Other(x));
      Get(s', x) == n.p && Get(s', Other(x)) == q.(inbox := q.inbox + n.out)
  {
    hide Local;
  }

  lemma StartWrites(p: Party, q: Party, vals: seq<Val>)
    requires LocalsKeyed(p.h) && p.h.open && p.h.lastOp != Write && DoStart(p, vals, true).Next?
    ensures var n := DoStart(p, vals, true);
      Wrote(p, q, Tells(0, false, vals), n.p, q.(inbox := q.inbox + n.out)) && n.p.stack == [Root]
  {
    SerializedExports(p.h, vals);
    hide SerializeAll, LocalsKeyed, AllNamed, Holds;
  }

  // ---------------------------------------------------------------- what is handed over

  /** The same object as the two ends know it: what is a proxy at the one is the object of that name at the other. */
  predicate Arrives(v: Val, w: Val) {
    match v
    case Theirs(id) => w.Mine? && Named(w, Ref(false, id))
    case Mine(_) => w.Theirs? && Named(v, Ref(false, w.id))
  }

  ghost predicate AllArrive(vs: seq<Val>, ws: seq<Val>) {
    |vs| == |ws| && forall i :: 0 <= i < |vs| ==> Arrives(vs[i], ws[i])
  }

  /** `d` is what `c` comes to at the other end: a request with those objects; of the same request the same outcome. */
  ghost predicate Carried(c: Content, d: Content) {
    && AllArrive(c.vals, d.vals)
    && if c.Asks? then d.Asks? else d.Tells? && d.tag == c.tag && d.thrown == c.thrown
  }

  /** The packet in front of this end is for its program, not part of a collection. */
  predicate ForProgram(q: Party) {
    q.inbox != [] && !q.inbox[0].Destroy? && (q.stack != [] ==> !Top(q.stack).Dying?)
  }

  lemma ReadArrives(h: Handle, vs: seq<Val>, rs: seq<Ref>)
    requires LocalsKeyed(h) && AllNamed(vs, rs) && Resolves(h, rs)
    ensures var (g, ok, ws) := DeserializeAll(h, rs);
      ok && AllArrive(vs, ws) && (forall w :: w in ws && w.Mine? ==> w.obj in h.local.Values)
  {
    KnownResolve(h, rs);
    DeserializeAllMeans(h, rs);
    hide DeserializeAll, Resolves;
    var ws := DeserializeAll(h, rs).2;
    forall i | 0 <= i < |vs| ensures Arrives(vs[i], ws[i]) {
      assert Named(vs[i], rs[i]) && Meant(h, rs[i], ws[i]);
    }
    forall w | w in ws && w.Mine? ensures w.obj in h.local.Values {
      var i :| 0 <= i < |ws| && ws[i] == w;
      assert Meant(h, rs[i], ws[i]);
    }
  }

  /** The end that reads a packet for its program hands it over; of its own objects, the ones it has exported. */
  ghost predicate HandsOver(q: Party, c: Content, q': Party) {
    && q'.h.open && q.inbox != [] && q'.inbox == q.inbox[1..] && |q'.handed| == |q.handed| + 1 && q.handed <= q'.handed
    && Carried(c, q'.handed[|q.handed|])
    && (forall w :: w in q'.handed[|q.handed|].vals && w.Mine? ==> w.obj in q.h.local.Values)
  }

  lemma ReceiveHandsOver(y: Side, q: Party, answered: bool, c: Content)
    requires PartyOk(y, q) && InboxOk(q) && q.h.open && ForProgram(q) && Says(q.inbox[0], c)
    ensures var n := DoReceive(q, answered);
      && n.Next? && n.out == [] && HandsOver(q, c, n.p)
      && n.p.stack == if c.Asks? then q.stack + [Exec(q.inbox[0].tag)] else Pop(q.stack)
  {
    var m := q.inbox[0];
    ReadArrives(MarkRead(q.h), c.vals, m.refs);
    DeserializeAllReceives(MarkRead(q.h), m.refs);
    hide DeserializeAll, HandleOk, Holds, Linked, AllArrive, AllNamed, Resolves;
  }

  // ---------------------------------------------------------------- one exchange

  /** Writing from inside a collection or not, this end's program waits for its packet to go out. */
  predicate Writes(st: seq<Frame>) {
    st != [] && (Top(st).Gc? || Top(st).Dying?)
  }

  /** How the two ends stand to each other, as far as the packets for the programs go. */
  predicate Facing(p: Party, q: Party) {
    && (!Reading(p.stack) ==> q.inbox == [] && Reading(q.stack) && !Top(q.stack).Dying?)
    && (p.inbox != [] ==> q.inbox == [] && (p.inbox[0].Destroy? <==> q.stack != [] && Top(q.stack).Dying?))
    && (ForProgram(q) ==> !Writes(p.stack))
  }

  lemma HolderFaces(ph: Phase, calls: Calls, px: Party, py: Party)
    requires Shape(ph, calls, px, py)
    ensures Facing(px, py)
  {
    ViewTop(calls);
    if calls != [] {
      OuterTop(calls);
    }
  }

  lemma OtherFaces(ph: Phase, calls: Calls, px: Party, py: Party)
    requires Shape(ph, calls, px, py)
    ensures Facing(py, px)
  {
    ViewTop(calls);
    if calls != [] {
      OuterTop(calls);
    }
  }

  lemma EndsFace(s: Sys, x: Side)
    requires SysOk(s) && BothOpen(s)
    ensures Facing(Get(s, x), Get(s, Other(x)))
  {
    var ph, calls := PairedFrom(s, x);
    if Holder(calls) == x {
      HolderFaces(ph, calls, Get(s, x), Get(s, Other(x)));
    } else {
      OtherFaces(ph, calls, Get(s, Other(x)), Get(s, x));
    }
  }

  lemma NowForProgram(p: Party, q: Party, c: Content, p': Party, q': Party)
    requires Facing(p, q) && !Reading(p.stack) && Wrote(p, q, c, p', q')
    ensures ForProgram(q') && Says(q'.inbox[0], c) && q'.handed == q.handed && q'.h == q.h && q'.stack == q.stack
  {
    hide AllNamed;
  }

  /** The packet stands in front of the other end's program. */
  ghost predicate InFront(q: Party, q': Party, y: Side, c: Content) {
    && q'.h.open && PartyOk(y, q') && InboxOk(q') && ForProgram(q') && Says(q'.inbox[0], c) && q'.handed == q.handed
  }

  lemma FrontIs(p: Party, q: Party, c: Content, p': Party, q': Party, y: Side)
    requires Facing(p, q) && !Reading(p.stack) && Wrote(p, q, c, p', q') && p.h.open && q.h.open
    requires PartyOk(y, q') && InboxOk(q')
    ensures InFront(q, q', y, c) && p'.h.open
  {
    NowForProgram(p, q, c, p', q');
    hide PartyOk, InboxOk, Says, ForProgram, Facing;
  }

  lemma AfterSend(s: Sys, x: Side, s': Sys)
    requires SysOk(s) && BothOpen(s) && TopIs(Get(s, x).stack, (f: Frame) => f.Gc?) && Get(s, x).h.cand == {}
    requires s' == Step(s, x, Send(true))
    ensures InFront(Get(s, Other(x)), Get(s', Other(x)), Other(x), Meaning(Top(Get(s, x).stack).out))
    ensures Get(s', x).h.open && WaitsAfter(Get(s', x).stack)
  {
    hide SysOk, Wrote, Step, PartyOk, InboxOk, Says, ForProgram, Facing, Reachable, InFront;
    EndOk(s, x);
    EndsFace(s, x);
    WriteStep(s, x, s');
    StepOk(s, x, Send(true));
    EndOk(s', Other(x));
    FrontIs(Get(s, x), Get(s, Other(x)), Meaning(Top(Get(s, x).stack).out), Get(s', x), Get(s', Other(x)), Other(x));
    SentWaits(Get(s, x), s.tags, x);
  }

  /** Behind a request, its event loop; behind an answer, the event loop around it, or the server's outermost. */
  predicate WaitsAfter(st: seq<Frame>) {
    st != [] && (Top(st).Loop? || Top(st).Root?)
  }

  lemma SentWaits(p: Party, tag: nat, x: Side)
    requires PartyOk(x, p) && TopIs(p.stack, (f: Frame) => f.Gc?)
    ensures WaitsAfter(Pop(p.stack) + if Top(p.stack).out.Call? then [Loop(tag)] else [])
  {
    assert Pop(p.stack) + [] == Pop(p.stack);
  }

  lemma GoesOn(y: Side, q: Party, c: Content)
    requires PartyOk(y, q) && InboxOk(q) && q.h.open && ForProgram(q) && Says(q.inbox[0], c)
    ensures InProgram(y, if c.Asks? then q.stack + [Exec(q.inbox[0].tag)] else Pop(q.stack))
  {
    assert Linked(y, Pop(q.stack));
    hide AllNamed, HandleOk;
  }

  /** After one exchange from `x` to the other end, that program has been handed what `x` wrote and has control. */
  ghost predicate Exchanged(s: Sys, x: Side, s1: Sys, s2: Sys)
    requires Get(s, x).stack != [] && Top(Get(s, x).stack).Gc?
  {
    && BothOpen(s2) && InProgram(Other(x), Get(s2, Other(x)).stack) && WaitsAfter(Get(s2, x).stack)
    && Get(s1, Other(x)).handed == Get(s, Other(x)).handed
    && HandsOver(Get(s1, Other(x)), Meaning(Top(Get(s, x).stack).out), Get(s2, Other(x)))
  }

  lemma ExchangeStep(s: Sys, x: Side, s1: Sys, s2: Sys)
    requires SysOk(s) && BothOpen(s) && TopIs(Get(s, x).stack, (f: Frame) => f.Gc?) && Get(s, x).h.cand == {}
    requires s1 == Step(s, x, Send(true)) && s2 == Step(s1, Other(x), Receive(true))
    ensures Exchanged(s, x, s1, s2)
  {
    var q, c := Get(s1, Other(x)), Meaning(Top(Get(s, x).stack).out);
    hide SysOk, Step, DoReceive, HandsOver, PartyOk, InboxOk, Says, ForProgram, InProgram, WaitsAfter;
    AfterSend(s, x, s1);
    ReceiveHandsOver(Other(x), q, true, c);
    GoesOn(Other(x), q, c);
    TurnPasses(s1, Other(x), s2);
    HandedOpen(q, c, Get(s2, Other(x)));
  }

  lemma HandedOpen(q: Party, c: Content, q': Party)
    requires HandsOver(q, c, q')
    ensures q'.h.open
  {
    hide Carried;
  }

  /** From the moment the collection before a write is over, the packet gets through: the other end's program is handed
      it next and has control, for a call to serve it, for an answer to go on behind the call answered. */
  lemma ContentArrives(s: Sys, x: Side)
    requires Reachable(s) && BothOpen(s) && TopIs(Get(s, x).stack, (f: Frame) => f.Gc?) && Get(s, x).h.cand == {}
    ensures var s1 := Step(s, x, Send(true)); Exchanged(s, x, s1, Step(s1, Other(x), Receive(true)))
  {
    var s1 := Step(s, x, Send(true));
    ReachableOk(s);
    hide Exchanged, Reachable, SysOk, Step;
    ExchangeStep(s, x, s1, Step(s1, Other(x), Receive(true)));
  }

  lemma TurnPasses(s1: Sys, y: Side, s2: Sys)
    requires s2 == Step(s1, y, Receive(true))
    requires DoReceive(Get(s1, y), true).Next? && DoReceive(Get(s1, y), true).out == []
    ensures Get(s2, y) == DoReceive(Get(s1, y), true).p && Get(s2, Other(y)) == Get(s1, Other(y))
  {
    var p := Get(s1, Other(y));
    assert p.(inbox := p.inbox + []) == p;
    hide DoReceive;
  }

  // ---------------------------------------------------------------- what is begun

  /** The request a program that has control answers. */
  function Served(st: seq<Frame>): nat {
    if st != [] && Top(st).Exec? then Top(st).tag else 0
  }

  /** What a program begins to say with this move, if its stream is open. */
  ghost function BeginsAt(x: Side, p: Party, a: Action, tag: nat): seq<Content> {
    if !p.h.open || !Local(x, p, a, tag).Next? then []
    else
      match a
      case Start(vals, _) => [Tells(0, false, vals)]
      case BeginCall(args) => [Asks(args)]
      case BeginAnswer(thrown, vals) => [Tells(Served(p.stack), thrown, vals)]
      case _ => []
  }

  ghost function Begins(s: Sys, x: Side, m: (Side, Action)): seq<Content> {
    if m.0 == x then BeginsAt(x, Get(s, x), m.1, s.tags) else []
  }

  ghost function Begun(s: Sys, moves: seq<(Side, Action)>, x: Side): seq<Content>
    decreases moves
  {
    if moves == [] then [] else Begins(s, x, moves[0]) + Begun(Step(s, moves[0].0, moves[0].1), moves[1..], x)
  }

  /** The request or answer being written while the handshakes of a collection come first. */
  predicate Pending(st: seq<Frame>, c: Content) {
    && st != []
    && if Top(st).Gc? then Meaning(Top(st).out) == c
       else Top(st).Dying? && Pop(st) != [] && Top(Pop(st)).Gc? && Meaning(Top(Pop(st)).out) == c
  }

  ghost predicate Prefix(b: seq<Content>, d: seq<Content>) {
    |d| <= |b| && forall i :: 0 <= i < |d| ==> Carried(b[i], d[i])
  }

  predicate OneMore(b: seq<Content>, d: seq<Content>) {
    |b| == |d| + 1
  }

  /** What `p`'s program has begun to say and what `q`'s has been handed. */
  ghost predicate Channel(b: seq<Content>, p: Party, q: Party) {
    && Prefix(b, q.handed)
    && (q.h.open ==>
          if ForProgram(q) then OneMore(b, q.handed) && Says(q.inbox[0], b[|b| - 1])
          else p.h.open ==> if Writes(p.stack) then OneMore(b, q.handed) && Pending(p.stack, b[|b| - 1])
                            else |b| == |q.handed|)
  }

  // ---------------------------------------------------------------- a step of the end that speaks

  lemma PrefixGrows(b: seq<Content>, d: seq<Content>, more: seq<Content>)
    requires Prefix(b, d)
    ensures Prefix(b + more, d)
  {
    hide Carried;
  }

  /** A step that sends nothing and begins nothing. */
  lemma Quiet(b: seq<Content>, p: Party, q: Party, p': Party)
    requires Channel(b, p, q)
    requires p'.h.open ==> p.h.open && (Writes(p.stack) <==> Writes(p'.stack))
    requires p'.h.open && b != [] && Pending(p.stack, b[|b| - 1]) ==> Pending(p'.stack, b[|b| - 1])
    ensures Channel(b + [], p', q.(inbox := q.inbox + []))
  {
    hide Says, Pending, Writes, Prefix;
    assert b + [] == b && q.(inbox := q.inbox + []) == q;
  }

  /** A step that begins something, or only changes how the write of it stands, with what it sends not for a program. */
  lemma Writing(b: seq<Content>, p: Party, q: Party, p': Party, out: seq<Msg>)
    requires Prefix(b, q.handed) && OneMore(b, q.handed)
    requires Writes(p'.stack) && Pending(p'.stack, b[|b| - 1]) && !ForProgram(q.(inbox := q.inbox + out))
    ensures Channel(b, p', q.(inbox := q.inbox + out))
  {
    hide Says, Pending, Prefix, Writes;
  }

  lemma BegunPrefix(b: seq<Content>, p: Party, q: Party, c: Content)
    requires Channel(b, p, q) && p.h.open && q.h.open && !Reading(p.stack) && !Writes(p.stack) && Facing(p, q)
    ensures Prefix(b + [c], q.handed) && OneMore(b + [c], q.handed) && (b + [c])[|b + [c]| - 1] == c
  {
    PrefixGrows(b, q.handed, [c]);
    hide Says, Pending, Prefix;
  }

  lemma BeginsWriting(b: seq<Content>, p: Party, q: Party, out: Outgoing, st: seq<Frame>)
    requires Channel(b, p, q) && p.h.open && q.h.open && !Reading(p.stack) && !Writes(p.stack) && Facing(p, q)
    ensures Channel(b + [Meaning(out)], p.(stack := st + [Gc(out)]), q.(inbox := q.inbox + []))
  {
    BegunPrefix(b, p, q, Meaning(out));
    PopPush(st, Gc(out));
    Writing(b + [Meaning(out)], p, q, p.(stack := st + [Gc(out)]), []);
    hide Channel;
  }

  lemma CallSpeaks(x: Side, p: Party, q: Party, args: seq<Val>, tag: nat, b: seq<Content>)
    requires Channel(b, p, q) && p.h.open && q.h.open && Facing(p, q) && DoCall(x, p, args).Next?
    ensures Channel(b + BeginsAt(x, p, BeginCall(args), tag), DoCall(x, p, args).p, q.(inbox := q.inbox + []))
  {
    BeginsWriting(b, p, q, Call(args), p.stack);
    hide Channel, Holds, Pins;
  }

  lemma AnswerSpeaks(x: Side, p: Party, q: Party, thrown: bool, vals: seq<Val>, tag: nat, b: seq<Content>)
    requires Channel(b, p, q) && p.h.open && q.h.open && Facing(p, q) && DoAnswer(p, thrown, vals).Next?
    ensures Channel(b + BeginsAt(x, p, BeginAnswer(thrown, vals), tag), DoAnswer(p, thrown, vals).p,
                    q.(inbox := q.inbox + []))
  {
    BeginsWriting(b, p, q, Answer(Top(p.stack).tag, thrown, vals), Pop(p.stack));
    hide Channel, Holds, Pins;
  }

  /** What is written is in front of the other end. */
  lemma WrittenSpeaks(b: seq<Content>, p: Party, q: Party, c: Content, p': Party, q': Party)
    requires Prefix(b, q.handed) && OneMore(b, q.handed) && b[|b| - 1] == c
    requires Facing(p, q) && !Reading(p.stack) && Wrote(p, q, c, p', q')
    ensures Channel(b, p', q')
  {
    NowForProgram(p, q, c, p', q');
    hide Says, Prefix, Wrote, Facing, Pending, ForProgram;
  }

  lemma SendSpeaks(x: Side, p: Party, q: Party, tag: nat, b: seq<Content>)
    requires Channel(b, p, q) && PartyOk(x, p) && p.h.open && q.h.open && Facing(p, q) && DoSend(p, tag, true).Next?
    ensures Channel(b, DoSend(p, tag, true).p, q.(inbox := q.inbox + DoSend(p, tag, true).out))
  {
    MayWrite(x, p);
    SendWrites(p, q, tag);
    hide PartyOk, LocalsKeyed, Wrote, SerializeAll, Says, Prefix;
    WrittenSpeaks(b, p, q, Meaning(Top(p.stack).out), DoSend(p, tag, true).p,
                  q.(inbox := q.inbox + DoSend(p, tag, true).out));
  }

  lemma StartSpeaks(p: Party, q: Party, vals: seq<Val>, b: seq<Content>)
    requires Channel(b, p, q) && PartyOk(Server, p) && p.h.open && q.h.open && Facing(p, q)
    requires DoStart(p, vals, true).Next?
    ensures Channel(b + [Tells(0, false, vals)], DoStart(p, vals, true).p,
                    q.(inbox := q.inbox + DoStart(p, vals, true).out))
  {
    var c := Tells(0, false, vals);
    assert !Reading(p.stack) && !Writes(p.stack);
    MayWrite(Server, p);
    StartWrites(p, q, vals);
    BegunPrefix(b, p, q, c);
    hide PartyOk, LocalsKeyed, Wrote, SerializeAll, Says, Prefix, Channel, Holds;
    WrittenSpeaks(b + [c], p, q, c, DoStart(p, vals, true).p, q.(inbox := q.inbox + DoStart(p, vals, true).out));
  }

  lemma CollectSpeaks(x: Side, p: Party, q: Party, tag: nat, sent: bool, b: seq<Content>)
    requires Channel(b, p, q) && PartyOk(x, p) && p.h.open && q.h.open && Facing(p, q) && DoCollect(p, tag, sent).Next?
    ensures Channel(b, DoCollect(p, tag, sent).p, q.(inbox := q.inbox + DoCollect(p, tag, sent).out))
  {
    var n := DoCollect(p, tag, sent);
    var id := Least(p.h.cand);
    assert b + [] == b;
    if n.out == [] {
      if p.h.remote[id].refcount != 0 {
        Quiet(b, p, q, n.p);
      } else {
        FinishLostCloses(p.h.(cand := p.h.cand - {id}), id);
        Quiet(b, p, q, n.p);
      }
    } else {
      PopPush(p.stack, Dying(tag, id));
      Writing(b, p, q, n.p, n.out);
    }
  }

  lemma ReceiveSpeaks(x: Side, p: Party, q: Party, answered: bool, b: seq<Content>)
    requires Channel(b, p, q) && PartyOk(x, p) && InboxOk(p) && p.h.open && q.h.open && Facing(p, q)
    requires DoReceive(p, answered).Next?
    ensures Channel(b, DoReceive(p, answered).p, q.(inbox := q.inbox + DoReceive(p, answered).out))
  {
    var n := DoReceive(p, answered);
    assert b + [] == b;
    ReceiveStands(x, p, answered);
    if n.out == [] {
      Quiet(b, p, q, n.p);
    } else {
      hide DoReceive, PartyOk, InboxOk, Says, Prefix, Pending;
    }
  }

  /** Receiving does not end or start a write, and only op_destroy is answered at once. */
  lemma ReceiveStands(x: Side, p: Party, answered: bool)
    requires PartyOk(x, p) && InboxOk(p) && p.h.open && DoReceive(p, answered).Next?
    ensures var n := DoReceive(p, answered);
      && (n.p.h.open ==> (Writes(p.stack) <==> Writes(n.p.stack)))
      && (forall c :: n.p.h.open && Pending(p.stack, c) ==> Pending(n.p.stack, c))
      && (n.out != [] ==> p.inbox[0].Destroy? && |n.out| == 1 && n.out[0].Reply? && n.p.stack == p.stack)
  {
    var m, q := p.inbox[0], p.(inbox := p.inbox[1..]);
    match m {
      case Request(t, rs) =>
        PopPush(p.stack, Exec(t));
        DeserializeAllReceives(MarkRead(p.h), rs);
      case Destroy(t, id) => AbandonCloses(q, MarkWrite(EraseLocal(MarkRead(p.h), p.h.local[id])));
      case Reply(t, thrown, rs) =>
        DeserializeAllReceives(MarkRead(p.h), rs);
        BelowReading(x, p.stack);
        assert Linked(x, Pop(p.stack));
    }
  }

  lemma SenderKeeps(x: Side, p: Party, q: Party, a: Action, tag: nat, b: seq<Content>)
    requires Channel(b, p, q) && PartyOk(x, p) && InboxOk(p) && Local(x, p, a, tag).Next?
    requires p.h.open && q.h.open ==> Facing(p, q)
    ensures var n := Local(x, p, a, tag); Channel(b + BeginsAt(x, p, a, tag), n.p, q.(inbox := q.inbox + n.out))
  {
    var n := Local(x, p, a, tag);
    if !q.h.open {
      PrefixGrows(b, q.handed, BeginsAt(x, p, a, tag));
      hide Local, BeginsAt, Prefix;
    } else if !p.h.open {
      StaysClosed(x, p, a, tag);
      SendsOnlyOpen(x, p, a, tag);
      assert b + [] == b && q.(inbox := q.inbox + []) == q;
      hide Local, Prefix, Says;
    } else {
      OpenSpeaks(x, p, q, a, tag, b);
    }
  }

  lemma OpenSpeaks(x: Side, p: Party, q: Party, a: Action, tag: nat, b: seq<Content>)
    requires Channel(b, p, q) && PartyOk(x, p) && InboxOk(p) && Local(x, p, a, tag).Next?
    requires p.h.open && q.h.open && Facing(p, q)
    ensures var n := Local(x, p, a, tag); Channel(b + BeginsAt(x, p, a, tag), n.p, q.(inbox := q.inbox + n.out))
  {
    var n := Local(x, p, a, tag);
    assert b + [] == b;
    hide Channel, PartyOk, InboxOk, Facing;
    match a {
      case Start(vals, sent) => StartedSpeaks(x, p, q, vals, sent, tag, b);
      case BeginCall(args) => CallSpeaks(x, p, q, args, tag, b);
      case BeginAnswer(thrown, vals) => AnswerSpeaks(x, p, q, thrown, vals, tag, b);
      case Collect1(sent) => CollectSpeaks(x, p, q, tag, sent, b);
      case Send(sent) =>
        if sent {
          SendSpeaks(x, p, q, tag, b);
        } else {
          SendLostCloses(p, tag);
          Quiet(b, p, q, n.p);
        }
      case Receive(answered) => ReceiveSpeaks(x, p, q, answered, b);
      case LoseRead =>
        LoseReadCloses(p);
        Quiet(b, p, q, n.p);
      case Drop(_, _) => DropSpeaks(x, p, q, a, b);
      case Copy(_) => Quiet(b, p, q, n.p);
    }
  }

  lemma DropSpeaks(x: Side, p: Party, q: Party, a: Action, b: seq<Content>)
    requires Channel(b, p, q) && a.Drop? && p.h.open && DoDrop(p, a.id, a.noMemory).Next?
    ensures Channel(b, DoDrop(p, a.id, a.noMemory).p, q.(inbox := q.inbox + []))
  {
    Quiet(b, p, q, DoDrop(p, a.id, a.noMemory).p);
    assert b + [] == b;
    hide Channel, Release;
  }

  lemma SendLostCloses(p: Party, tag: nat)
    requires DoSend(p, tag, false).Next?
    ensures !DoSend(p, tag, false).p.h.open && DoSend(p, tag, false).out == []
  {
    ClosedIsClosed(p.h);
    ClosedIsClosed(MarkWrite(SerializeAll(p.h, if Top(p.stack).out.Call? then Top(p.stack).out.args
                                               else Top(p.stack).out.vals).0));
    hide SerializeAll, Close;
  }

  lemma StartedSpeaks(x: Side, p: Party, q: Party, vals: seq<Val>, sent: bool, tag: nat, b: seq<Content>)
    requires Channel(b, p, q) && PartyOk(x, p) && p.h.open && q.h.open && Facing(p, q) && DoStart(p, vals, sent).Next?
    ensures var n := DoStart(p, vals, sent);
      Channel(b + BeginsAt(x, p, Start(vals, sent), tag), n.p, q.(inbox := q.inbox + n.out))
  {
    var c := Tells(0, false, vals);
    BootIsServer(x, p);
    if sent {
      StartSpeaks(p, q, vals, b);
    } else {
      BegunPrefix(b, p, q, c);
      ClosedIsClosed(MarkWrite(SerializeAll(p.h, vals).0));
      NothingFront(p, q);
    }
    hide PartyOk, Holds, SerializeAll, Close, Prefix, Says;
  }

  lemma BootIsServer(x: Side, p: Party)
    requires PartyOk(x, p) && TopIs(p.stack, (f: Frame) => f.Boot?)
    ensures x == Server && !Reading(p.stack) && !Writes(p.stack)
  {
  }

  lemma NothingFront(p: Party, q: Party)
    requires Facing(p, q) && !Reading(p.stack)
    ensures !ForProgram(q.(inbox := q.inbox + []))
  {
  }

  // ---------------------------------------------------------------- a step of the end that hears

  lemma PrefixHanded(b: seq<Content>, d: seq<Content>, d': seq<Content>)
    requires Prefix(b, d) && OneMore(b, d) && d <= d' && |d'| == |d| + 1 && Carried(b[|d|], d'[|d|])
    ensures Prefix(b, d') && |b| == |d'|
  {
    forall i | 0 <= i < |d'| ensures Carried(b[i], d'[i]) {
      if i < |d| {
        assert d[i] == d'[i];
      }
    }
    hide Carried;
  }

  lemma Heard(b: seq<Content>, p: Party, q: Party, out: seq<Msg>, q': Party)
    requires Channel(b, p, q) && q.h.open && ForProgram(q) && |q.inbox| == 1
    requires p.h.open ==> !Writes(p.stack)
    requires HandsOver(q, b[|b| - 1], q')
    ensures Channel(b, p.(inbox := p.inbox + out), q')
  {
    PrefixHanded(b, q.handed, q'.handed);
    hide Carried, Says, Prefix, Pending;
  }

  /** Anything else an end does leaves what it has been handed, and what is in front of its program, alone. */
  lemma Unheard(y: Side, q: Party, a: Action, tag: nat)
    requires PartyOk(y, q) && InboxOk(q) && Local(y, q, a, tag).Next?
    requires !(a.Receive? && q.h.open && ForProgram(q))
    ensures var n := Local(y, q, a, tag);
      && n.p.handed == q.handed && (n.p.h.open ==> q.h.open)
      && (n.p.h.open ==> (ForProgram(n.p) <==> ForProgram(q)) && (ForProgram(q) ==> n.p.inbox == q.inbox))
  {
    HandedKept(y, q, a, tag);
    if !q.h.open {
      StaysClosed(y, q, a, tag);
    } else {
      OwnInbox(y, q, a, tag);
      if !a.Receive? && q.inbox != [] {
        WaitingKept(y, q, a, tag);
      }
      hide Local, PartyOk, HandleOk, Known;
    }
  }

  lemma HandedKept(y: Side, q: Party, a: Action, tag: nat)
    requires PartyOk(y, q) && InboxOk(q) && Local(y, q, a, tag).Next?
    requires !(a.Receive? && q.h.open && ForProgram(q))
    ensures Local(y, q, a, tag).p.handed == q.handed
  {
    hide HandleOk, Holds, SerializeAll, DeserializeAll, Close, Drain, Release;
  }

  lemma HearerKeeps(y: Side, q: Party, p: Party, a: Action, tag: nat, b: seq<Content>)
    requires Channel(b, p, q) && PartyOk(y, q) && InboxOk(q) && Local(y, q, a, tag).Next?
    requires p.h.open && q.h.open ==> Facing(p, q)
    ensures var n := Local(y, q, a, tag); Channel(b, p.(inbox := p.inbox + n.out), n.p)
  {
    var n := Local(y, q, a, tag);
    if a.Receive? && q.h.open && ForProgram(q) {
      ReceiveHandsOver(y, q, a.answered, b[|b| - 1]);
      Heard(b, p, q, n.out, n.p);
      hide Local, PartyOk, Says, Prefix, HandsOver, Pending;
    } else {
      Unheard(y, q, a, tag);
      hide Local, PartyOk, InboxOk, Says, Prefix, Pending, ForProgram;
    }
  }

  // ---------------------------------------------------------------- over whole runs

  ghost predicate Channels(s: Sys, x: Side, b: seq<Content>) {
    Channel(b, Get(s, x), Get(s, Other(x)))
  }

  lemma StepChannels(s: Sys, x: Side, b: seq<Content>, m: (Side, Action))
    requires SysOk(s) && Channels(s, x, b)
    ensures Channels(Step(s, m.0, m.1), x, b + Begins(s, x, m))
  {
    var z := m.0;
    var n := Local(z, Get(s, z), m.1, s.tags);
    assert b + [] == b;
    EndOk(s, z);
    if BothOpen(s) {
      EndsFace(s, x);
    }
    hide SysOk, PartyOk, InboxOk, Facing, Channel, Local;
    if n.Next? {
      Stepped(s, z, m.1, n);
      if z == x {
        SenderKeeps(x, Get(s, x), Get(s, Other(x)), m.1, s.tags, b);
      } else {
        HearerKeeps(z, Get(s, z), Get(s, x), m.1, s.tags, b);
      }
    }
  }

  lemma {:induction false} RunChannels(s: Sys, moves: seq<(Side, Action)>, x: Side, b: seq<Content>)
    requires SysOk(s) && Channels(s, x, b)
    ensures Channels(Run(s, moves), x, b + Begun(s, moves, x))
    decreases moves
  {
    hide SysOk, Channels, Step, Begins;
    if moves == [] {
      assert b + [] == b;
    } else {
      var m := moves[0];
      var more := Begins(s, x, m);
      StepChannels(s, x, b, m);
      StepOk(s, m.0, m.1);
      RunChannels(Step(s, m.0, m.1), moves[1..], x, b + more);
      var rest := Begun(Step(s, m.0, m.1), moves[1..], x);
      assert (b + more) + rest == b + (more + rest);
    }
  }

  /** Over every run, what an end's program has been handed is, in order and one for one, what the other end's program
      began to say: each request with its objects, each outcome with its objects, thrown or not, and for the request
      that was answered. With both streams open at most one is still on its way, and then it is being written or in
      front of its reader. */
  lemma SaidIsHeard(moves: seq<(Side, Action)>, x: Side)
    ensures var s := Run(Init(), moves); var b, d := Begun(Init(), moves, x), Get(s, Other(x)).handed;
      && |d| <= |b| && (forall i :: 0 <= i < |d| ==> Carried(b[i], d[i]))
      && (BothOpen(s) ==> |b| == |d| + if Writes(Get(s, x).stack) || ForProgram(Get(s, Other(x))) then 1 else 0)
  {
    var s := Run(Init(), moves);
    var b := Begun(Init(), moves, x);
    InitOk();
    InitChannels(x);
    hide SysOk, Run, Init, Begun, Channels;
    RunChannels(Init(), moves, x, []);
    assert [] + b == b;
    ChannelMeans(b, s, x);
  }

  lemma InitChannels(x: Side)
    ensures Channels(Init(), x, [])
  {
  }

  lemma ChannelMeans(b: seq<Content>, s: Sys, x: Side)
    requires Channels(s, x, b)
    ensures var d := Get(s, Other(x)).handed;
      && |d| <= |b| && (forall i :: 0 <= i < |d| ==> Carried(b[i], d[i]))
      && (BothOpen(s) ==> |b| == |d| + if Writes(Get(s, x).stack) || ForProgram(Get(s, Other(x))) then 1 else 0)
  {
    hide Carried, Says, Pending, Writes, ForProgram;
  }

  // ---------------------------------------------------------------- a whole call or answer

  lemma {:induction false} RunOn(s: Sys, moves: seq<(Side, Action)>, more: seq<(Side, Action)>)
    ensures Run(s, moves + more) == Run(Run(s, moves), more)
    decreases moves
  {
    hide Step;
    if moves == [] {
      assert moves + more == more;
    } else {
      assert (moves + more)[1..] == moves[1..] + more;
      RunOn(Step(s, moves[0].0, moves[0].1), moves[1..], more);
    }
  }

  lemma ReachesOn(s: Sys, more: seq<(Side, Action)>)
    requires Reachable(s)
    ensures Reachable(Run(s, more))
  {
    hide Run;
    var moves :| s == Run(Init(), moves);
    RunOn(Init(), moves, more);
  }

  /** What a program that has control says by beginning a call, or an answer to the request it serves. */
  ghost predicate Utters(p: Party, x: Side, a: Action, c: Content) {
    match c
    case Asks(args) => a == BeginCall(args) && InProgram(x, p.stack)
    case Tells(tag, thrown, vals) =>
      a == BeginAnswer(thrown, vals) && p.stack != [] && Top(p.stack).Exec? && Top(p.stack).tag == tag
  }

  lemma UtterStep(s: Sys, x: Side, a: Action, c: Content, s': Sys)
    requires Utters(Get(s, x), x, a, c) && Holds(Get(s, x).h, Pins(c.vals)) && s' == Step(s, x, a)
    ensures Get(s', x).stack != [] && Top(Get(s', x).stack).Gc? && Meaning(Top(Get(s', x).stack).out) == c
    ensures Get(s', x).h == Get(s, x).h && Get(s', Other(x)) == Get(s, Other(x))
  {
    var q := Get(s, Other(x));
    assert q.(inbox := q.inbox + []) == q;
    hide Holds, Pins;
  }

  lemma CompletedWrites(x: Side, p: Party, q: Party, moves: seq<(Side, Action)>, p': Party, q': Party)
    requires Completed(x, p, q, moves, p', q')
    ensures p'.stack == p.stack && p'.h.cand == {} && q'.h.open
  {
    hide Dead, Holds;
  }

  lemma CollectingOpen(s: Sys, x: Side, moves: seq<(Side, Action)>)
    requires Reachable(s) && BothOpen(s) && TopIs(Get(s, x).stack, (f: Frame) => f.Gc?) && Follows(s, x, moves)
    ensures BothOpen(Run(s, moves))
  {
    var ph, calls := CollectsAt(s, x);
    var ph' := RunGoes(s, x, ph, calls, moves, Run(s, moves));
    assert AmidAt(Run(s, moves), x, ph', calls);
    hide Run, Reachable, Follows;
  }

  /** A call or an answer gets through: whatever its program has references to can be sent, and once the collection that
      comes first has taken all its moves, one write and one read later the other end's program has been handed it and
      has control. */
  lemma GetsThrough(s: Sys, x: Side, a: Action, c: Content, moves: seq<(Side, Action)>)
    requires Reachable(s) && BothOpen(s) && Utters(Get(s, x), x, a, c) && Holds(Get(s, x).h, Pins(c.vals))
    requires Follows(Step(s, x, a), x, moves)
    requires Working(moves) == |Get(s, x).h.cand| + 2 * |Dead(Get(s, x).h)|
    ensures var s1 := Run(Step(s, x, a), moves); var s2 := Step(s1, x, Send(true));
      && Get(s1, x).stack != [] && Top(Get(s1, x).stack).Gc? && Meaning(Top(Get(s1, x).stack).out) == c
      && Exchanged(s1, x, s2, Step(s2, Other(x), Receive(true)))
  {
    var s0 := Step(s, x, a);
    var s1 := Run(s0, moves);
    UtterStep(s, x, a, c, s0);
    assert s0 == Run(s, [(x, a)]);
    hide Step, Run, Exchanged, Meaning, Utters, Holds, Pins, Follows, Working, Dead, Reachable, Completed;
    ReachesOn(s, [(x, a)]);
    CollectionBeforeWrite(s0, x, moves);
    CompletedWrites(x, Get(s0, x), Get(s0, Other(x)), moves, Get(s1, x), Get(s1, Other(x)));
    CollectingOpen(s0, x, moves);
    ReachesOn(s0, moves);
    ContentArrives(s1, x);
  }
}
