/** Two `remote_handle`s joined by one stream: what each end does at each of its program points, and the
    interleaving of the two. Each end keeps its own C++ stack; nothing here says that the stacks fit together. */
module RemoteSystem {
  import opened RemoteHandle

  datatype Side = Client | Server

  function Other(x: Side): Side {
    if x == Client then Server else Client
  }

  /** Packets. A request is numbered; an answer carries the number of the request it answers.
      The numbers are not on the wire: no step below looks at them. */
  datatype Msg =
    | Request(tag: nat, refs: seq<Ref>)
    | Destroy(tag: nat, id: int)
    | Reply(tag: nat, thrown: bool, refs: seq<Ref>)

  /** What a `packet_write` that is still collecting will send. */
  datatype Outgoing = Call(args: seq<Val>) | Answer(tag: nat, thrown: bool, vals: seq<Val>)

  /** Activations on one end's stack.
      Connect: the client's first packet_read.        Boot: the server before its first packet_write.
      Root: the server's outermost event loop.        Loop: the event loop inside call_remote.
      Exec: execute_request, with program code on it. Gc: garbage_collect inside packet_write.
      Dying: the event loop inside garbage_collect. */
  datatype Frame =
    | Connect
    | Boot
    | Root
    | Loop(tag: nat)
    | Exec(tag: nat)
    | Gc(out: Outgoing)
    | Dying(tag: nat, id: int)

  /** What a packet means to a program: a request with its objects, or what came of request `tag`. */
  datatype Content = Asks(vals: seq<Val>) | Tells(tag: nat, thrown: bool, vals: seq<Val>)

  /** `handed` is the history of what this end's event loops have handed over: to `execute_request`, or to the program
      as the result of a call. It is not in the code. */
  datatype Party = Party(h: Handle, stack: seq<Frame>, inbox: seq<Msg>, handed: seq<Content>)

  datatype Sys = Sys(client: Party, server: Party, tags: nat)

  function Get(s: Sys, x: Side): Party {
    if x == Client then s.client else s.server
  }

  function Init(): Sys {
    Sys(Party(NewHandle(true), [Connect], [], []), Party(NewHandle(false), [Boot], [], []), 1)
  }

  // ---------------------------------------------------------------- steps of one end

  /** What the environment decides: the program's moves, and whether reads and writes succeed. */
  datatype Action =
    | Start(vals: seq<Val>, sent: bool)
    | BeginCall(args: seq<Val>)
    | BeginAnswer(thrown: bool, vals: seq<Val>)
    | Collect1(sent: bool)
    | Send(sent: bool)
    | Receive(answered: bool)
    | LoseRead
    | Drop(id: int, noMemory: bool)
    | Copy(id: int)

  datatype Next = Disabled | Next(p: Party, out: seq<Msg>)

  function Pop(st: seq<Frame>): seq<Frame> {
    if st == [] then [] else st[..|st| - 1]
  }

  predicate TopIs(st: seq<Frame>, test: Frame -> bool) {
    st != [] && test(st[|st| - 1])
  }

  function Top(st: seq<Frame>): Frame
    requires st != []
  {
    st[|st| - 1]
  }

  /** An end that waits for a packet. */
  predicate Reading(st: seq<Frame>) {
    st != [] && (Top(st).Connect? || Top(st).Root? || Top(st).Loop? || Top(st).Dying?)
  }

  /** An end whose program has control. */
  predicate InProgram(x: Side, st: seq<Frame>) {
    if st == [] then x == Client else Top(st).Exec?
  }

  ghost function Pinned(st: seq<Frame>): multiset<int> {
    if st == [] then multiset{}
    else if Top(st).Dying? then Pinned(Pop(st))
    else if Top(st).Gc? then Pins(if Top(st).out.Call? then Top(st).out.args else Top(st).out.vals)
    else multiset{}
  }

  /** The server sends its top variant, which refers to these objects; a failure ends the server. */
  ghost function DoStart(p: Party, vals: seq<Val>, sent: bool): Next {
    if !TopIs(p.stack, (f: Frame) => f.Boot?) || !Holds(p.h, Pins(vals)) then Disabled
    else
      var (h, rs) := SerializeAll(p.h, vals);
      if !p.h.open then Next(p.(stack := []), [])
      else if sent then Next(p.(h := MarkWrite(h), stack := [Root]), [Reply(0, false, rs)])
      else Next(p.(h := Close(MarkWrite(h)), stack := []), [])
  }

  ghost function DoCall(x: Side, p: Party, args: seq<Val>): Next {
    if InProgram(x, p.stack) && Holds(p.h, Pins(args))
    then Next(p.(stack := p.stack + [Gc(Call(args))]), [])
    else Disabled
  }

  ghost function DoAnswer(p: Party, thrown: bool, vals: seq<Val>): Next {
    if TopIs(p.stack, (f: Frame) => f.Exec?) && Holds(p.h, Pins(vals))
    then Next(p.(stack := Pop(p.stack) + [Gc(Answer(Top(p.stack).tag, thrown, vals))]), [])
    else Disabled
  }

  /** One round of the loop in `garbage_collect`. */
  ghost function DoCollect(p: Party, tag: nat, sent: bool): Next {
    if !TopIs(p.stack, (f: Frame) => f.Gc?) || p.h.cand == {} then Disabled
    else
      var id := Least(p.h.cand);
      var h := p.h.(cand := p.h.cand - {id});
      if id !in h.remote then Next(p.(h := h.(fault := true)), [])
      else if h.remote[id].refcount != 0 then Next(p.(h := h), [])
      else if !h.open then Next(p.(h := Delete(h, id)), [])
      else if sent then Next(p.(h := MarkWrite(h), stack := p.stack + [Dying(tag, id)]), [Destroy(tag, id)])
      else Next(p.(h := Finish(h, id, WriteLost)), [])
  }

  /** An exception leaves packet_write: a call fails in the program, an answer ends the event loop below. */
  function Unwind(st: seq<Frame>): seq<Frame>
    requires st != [] && Top(st).Gc?
  {
    if Top(st).out.Call? then Pop(st) else Pop(Pop(st))
  }

  /** The rest of `packet_write` once the collection is over. */
  ghost function DoSend(p: Party, tag: nat, sent: bool): Next {
    if !TopIs(p.stack, (f: Frame) => f.Gc?) || p.h.cand != {} then Disabled
    else if !p.h.open then Next(p.(h := Close(p.h), stack := Unwind(p.stack)), [])
    else
      var out := Top(p.stack).out;
      var (h, rs) := SerializeAll(p.h, if out.Call? then out.args else out.vals);
      if !sent then Next(p.(h := Close(MarkWrite(h)), stack := Unwind(p.stack)), [])
      else if out.Call? then Next(p.(h := MarkWrite(h), stack := Pop(p.stack) + [Loop(tag)]), [Request(tag, rs)])
      else Next(p.(h := MarkWrite(h), stack := Pop(p.stack)), [Reply(out.tag, out.thrown, rs)])
  }

  /** A read fails, or the connection is found closed: the event loop closes it and is left by the exception. */
  ghost function DoLoseRead(p: Party): Next {
    if !Reading(p.stack) then Disabled
    else
      var h := Close(MarkRead(p.h));
      var g := if Top(p.stack).Dying? then Delete(h, Top(p.stack).id) else h;
      Next(p.(h := g, stack := Pop(p.stack)), [])
  }

  /** `packet_read` and what the waiting activation does with the packet. */
  ghost function DoReceive(p: Party, answered: bool): Next {
    if !Reading(p.stack) || !p.h.open || p.inbox == [] then Disabled
    else
      var q := p.(inbox := p.inbox[1..]);
      match p.inbox[0]
      case Request(t, rs) => ReceiveRequest(q, t, rs)
      case Destroy(t, id) => ReceiveDestroy(q, t, id, answered)
      case Reply(t, thrown, rs) => ReceiveReply(q, thrown, rs)
  }

  /** The reading activation gives up: as in DoLoseRead, but the packet has been read. */
  ghost function Abandon(p: Party, h: Handle): Next
    requires Reading(p.stack)
  {
    var c := Close(h);
    var g := if Top(p.stack).Dying? then Delete(c, Top(p.stack).id) else c;
    Next(p.(h := g, stack := Pop(p.stack)), [])
  }

  ghost function ReceiveRequest(p: Party, t: nat, rs: seq<Ref>): Next
    requires Reading(p.stack)
  {
    var (h, ok, vs) := DeserializeAll(MarkRead(p.h), rs);
    if !ok || Top(p.stack).Connect? then Abandon(p, h)
    else Next(p.(h := h, stack := p.stack + [Exec(t)], handed := p.handed + [Asks(vs)]), [])
  }

  /** op_destroy is executed and answered at once, without a collection. */
  ghost function ReceiveDestroy(p: Party, t: nat, id: int, answered: bool): Next
    requires Reading(p.stack)
  {
    var h := MarkRead(p.h);
    if id !in h.local || Top(p.stack).Connect? then Abandon(p, h)
    else
      var w := MarkWrite(EraseLocal(h, h.local[id]));
      if answered then Next(p.(h := w), [Reply(t, false, [])])
      else Abandon(p, w)
  }

  /** An answer goes to whichever activation is innermost. */
  ghost function ReceiveReply(p: Party, thrown: bool, rs: seq<Ref>): Next
    requires Reading(p.stack)
  {
    var (h, ok, vs) := DeserializeAll(MarkRead(p.h), rs);
    if !ok then Abandon(p, h)
    else
      match Top(p.stack)
      case Loop(t) => Next(p.(h := h, stack := Pop(p.stack), handed := p.handed + [Tells(t, thrown, vs)]), [])
      case Dying(_, id) =>
        if thrown then Next(p.(h := Drain(Delete(h.(open := false), id)), stack := Pop(p.stack)), [])
        else Next(p.(h := Delete(h, id), stack := Pop(p.stack)), [])
      case Connect =>
        if thrown then Abandon(p, h) else Next(p.(h := h, stack := [], handed := p.handed + [Tells(0, false, vs)]), [])
      case _ => Abandon(p, h)
  }

  ghost function DoDrop(p: Party, id: int, noMemory: bool): Next {
    if id in p.h.remote && p.h.remote[id].refcount > Pinned(p.stack)[id] && (noMemory ==> id !in p.h.cand)
    then Next(p.(h := Release(p.h, id, noMemory)), [])
    else Disabled
  }

  ghost function DoCopy(p: Party, id: int): Next {
    if id in p.h.remote && p.h.remote[id].refcount > 0 then Next(p.(h := AddRef(p.h, id)), []) else Disabled
  }

  ghost function Local(x: Side, p: Party, a: Action, tag: nat): Next {
    match a
    case Start(vals, sent) => DoStart(p, vals, sent)
    case BeginCall(args) => DoCall(x, p, args)
    case BeginAnswer(thrown, vals) => DoAnswer(p, thrown, vals)
    case Collect1(sent) => DoCollect(p, tag, sent)
    case Send(sent) => DoSend(p, tag, sent)
    case Receive(answered) => DoReceive(p, answered)
    case LoseRead => DoLoseRead(p)
    case Drop(id, noMemory) => DoDrop(p, id, noMemory)
    case Copy(id) => DoCopy(p, id)
  }

  // ---------------------------------------------------------------- the system

  function Put(s: Sys, x: Side, p: Party, out: seq<Msg>): Sys {
    if x == Client then Sys(p, s.server.(inbox := s.server.inbox + out), s.tags + 1)
    else Sys(s.client.(inbox := s.client.inbox + out), p, s.tags + 1)
  }

  ghost function Step(s: Sys, x: Side, a: Action): Sys {
    match Local(x, Get(s, x), a, s.tags)
    case Disabled => s
    case Next(p, out) => Put(s, x, p, out)
  }

  /** Any interleaving of the two ends. */
  ghost function Run(s: Sys, moves: seq<(Side, Action)>): Sys
    decreases moves
  {
    if moves == [] then s else Run(Step(s, moves[0].0, moves[0].1), moves[1..])
  }
}
