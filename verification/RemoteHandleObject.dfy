/** `remote_handle` as an object whose methods update its tables in place, each proved to do what the
    corresponding operation of RemoteHandle does; the two-party results are about those operations. */
module RemoteHandleObject {
  import opened RemoteHandle
  import opened RemoteReferences

  datatype Sending = Sent(refs: seq<Ref>) | WriteFailed | ConnClosed

  /** An open handle may collect when it is in order and has the turn; a closed one may at any time. */
  ghost predicate CanCollect(h: Handle, dying: set<int>) {
    if h.open then dying == {} && HandleOk(h, {}) && h.lastOp != Write
    else !h.fault && Accounted(h) && ProxiesOk(h, dying)
  }

  class HandleObject {
    const isClient: bool
    var open: bool
    var lastOp: LastOp
    var remote: map<int, Proxy>
    var cand: set<int>
    var local: map<int, Obj>
    var born: nat
    ghost var freed: seq<nat>

    ghost function State(): Handle
      reads this
    {
      Handle(isClient, open, lastOp, remote, cand, local, born, freed, false)
    }

    constructor (isClient: bool)
      ensures State() == NewHandle(isClient)
    {
      this.isClient := isClient;
      open, lastOp, remote, cand, local, born, freed := true, Idle, map[], {}, map[], 0, [];
    }

    /** `~remote_object`. */
    method DeleteProxy(id: int)
      requires id in remote
      modifies this`remote, this`freed
      ensures State() == Delete(old(State()), id)
    {
      freed := freed + [remote[id].serial];
      remote := remote - {id};
    }

    method SerializeObject(v: Val) returns (r: Ref)
      modifies this`local
      ensures (State(), r) == Serialize(old(State()), v)
      ensures Named(v, r) && (v.Mine? ==> r.id in local && (r.id !in old(local) ==> local[r.id] == v.obj))
      ensures forall id :: id in old(local) ==> id in local && local[id] == old(local[id])
      ensures forall id :: id in local && id !in old(local) ==> v.Mine? && id == r.id
    {
      match v {
        case Theirs(id) => r := Ref(true, id);
        case Mine(o) =>
          var id := o.Id();
          if id !in local {
            local := local[id := o];
          }
          r := Ref(false, id);
      }
    }

    method DeserializeObject(r: Ref) returns (f: Found)
      modifies this`remote, this`born
      ensures (State(), f) == Deserialize(old(State()), r)
      ensures if r.remote && r.id !in local then f == Unknown else f.Found? && Meant(State(), r, f.v)
      ensures SameProxies(old(State()), State())
      ensures forall id :: Count(State(), id) == Count(old(State()), id) + if r == Ref(false, id) then 1 else 0
    {
      if r.remote {
        if r.id !in local {
          return Unknown;
        }
        return Found(Mine(local[r.id]));
      }
      if r.id in remote {
        remote := remote[r.id := remote[r.id].(refcount := remote[r.id].refcount + 1)];
      } else {
        remote := remote[r.id := Proxy(born, 1, isClient && remote == map[])];
        born := born + 1;
      }
      return Found(Theirs(r.id));
    }

    method LocalObjectErase(o: Obj)
      modifies this`local
      ensures State() == EraseLocal(old(State()), o)
    {
      local := local - {o.Id()};
    }

    /** `garbage_collect`; `net` says how each handshake with the peer ends. */
    method GarbageCollect(net: nat -> Outcome, ghost dying: set<int>) returns (handshakes: nat)
      requires CanCollect(State(), dying)
      modifies this
      ensures (State(), handshakes) == Collect(old(State()), net, 0)
      decreases cand, 1
    {
      handshakes := 0;
      while cand != {}
        invariant CanCollect(State(), dying)
        invariant cand <= old(cand)
        invariant Collect(State(), net, handshakes) == Collect(old(State()), net, 0)
        decreases cand
      {
        var asked := CollectNext(net, handshakes, dying);
        handshakes := if asked then handshakes + 1 else handshakes;
      }
      if !open {
        local := map[];
      }
    }

    /** The body of its loop. The candidate taken is always mapped. */
    method CollectNext(net: nat -> Outcome, k: nat, ghost dying: set<int>) returns (asked: bool)
      requires CanCollect(State(), dying) && cand != {}
      modifies this
      ensures CanCollect(State(), dying) && cand < old(cand)
      ensures Collect(State(), net, if asked then k + 1 else k) == Collect(old(State()), net, k)
      decreases cand, 0
    {
      LeastExists(cand);
      var id :| id in cand && forall i :: i in cand ==> id <= i;
      RoundOk(State(), id, net, k, dying);
      asked := false;
      cand := cand - {id};
      if remote[id].refcount == 0 {
        if open {
          DestroyHandshake(id, net(k));
          asked := true;
        }
        DeleteProxy(id);
      }
    }

    /** op_destroy and its answer. The abort() on the turn is unreachable. */
    method DestroyHandshake(id: int, o: Outcome)
      requires HandleOk(State(), {id}) && open && lastOp != Write
      modifies this
      ensures State() == Handshake(old(State()), o)
      ensures id in remote && remote[id].refcount == 0 && cand <= old(cand)
      decreases cand, 3
    {
      HandshakeClosable(State(), id);
      lastOp := Write;
      match o {
        case Answered => lastOp := Read;
        case WriteLost => open := false;
        case ReadLost =>
          lastOp := Read;
          CloseConnection({id});
      }
    }

    method CloseConnection(ghost dying: set<int>)
      requires CanCollect(State().(open := false), dying)
      modifies this
      ensures State() == Close(old(State()))
      ensures HandleOk(State(), dying) && !open && cand == {}
      decreases cand, 2
    {
      open := false;
      ghost var now := State();
      var n := GarbageCollect(k => WriteLost, dying);
      CollectClosed(now, k => WriteLost, 0);
      DrainedOk(now, dying);
      DrainStaysClosed(now);
    }

    /** `remote_object::release`. */
    method ReleaseProxy(id: int, noMemory: bool, ghost dying: set<int>)
      requires HandleOk(State(), dying)
      requires id in remote && remote[id].refcount > 0
      requires noMemory ==> id !in cand
      modifies this
      ensures State() == Release(old(State()), id, noMemory)
      ensures HandleOk(State(), dying)
    {
      ReleaseOk(State(), id, noMemory, dying);
      ghost var before := State();
      var p := remote[id].(refcount := remote[id].refcount - 1);
      remote := remote[id := p];
      if p.refcount != 0 {
        return;
      }
      if !open {
        DeleteProxy(id);
      } else if p.owner || noMemory {
        UnreferencedCloses(before, id, dying);
        CloseConnection(dying + {id});
        DeleteProxy(id);
      } else {
        cand := cand + {id};
      }
    }

    /** `packet_write`: collect, check the connection, serialize, take the turn, write. */
    method PacketWrite(vs: seq<Val>, net: nat -> Outcome, sent: bool) returns (result: Sending)
      requires HandleOk(State(), {}) && (open ==> lastOp != Write)
      modifies this
      ensures var g := Collect(old(State()), net, 0).0;
        if !g.open then result == ConnClosed && State() == g
        else
          && State() == MarkWrite(SerializeAll(g, vs).0)
          && result == (if sent then Sent(SerializeAll(g, vs).1) else WriteFailed)
    {
      ghost var before := State();
      var n := GarbageCollect(net, {});
      if !open {
        return ConnClosed;
      }
      CollectReady(before, net);
      ghost var g := State();
      var refs := [];
      assert vs[0..] == vs && refs + SerializeAll(g, vs).1 == SerializeAll(g, vs).1;
      for i := 0 to |vs|
        invariant State() == g.(local := local)
        invariant SerializeAll(g, vs)
               == (SerializeAll(State(), vs[i..]).0, refs + SerializeAll(State(), vs[i..]).1)
      {
        ghost var h := State();
        var r := SerializeObject(vs[i]);
        SerializeNext(h, vs, i, refs);
        refs := refs + [r];
      }
      assert lastOp != Write;
      lastOp := Write;
      return if sent then Sent(refs) else WriteFailed;
    }
  }

  lemma SerializeNext(h: Handle, vs: seq<Val>, i: nat, refs: seq<Ref>)
    requires i < |vs|
    ensures var (h1, r) := Serialize(h, vs[i]);
      && SerializeAll(h, vs[i..]).0 == SerializeAll(h1, vs[i + 1..]).0
      && refs + SerializeAll(h, vs[i..]).1 == (refs + [r]) + SerializeAll(h1, vs[i + 1..]).1
  {
    assert vs[i..][0] == vs[i] && vs[i..][1..] == vs[i + 1..];
  }

  lemma HandshakeClosable(h: Handle, id: int)
    requires HandleOk(h, {id}) && h.open && h.lastOp != Write
    ensures !MarkWrite(h).fault && !MarkRead(MarkWrite(h)).fault
    ensures CanCollect(MarkRead(MarkWrite(h)).(open := false), {id})
  {
    SameSerialsAccounted(h, MarkRead(MarkWrite(h)).(open := false));
  }

  lemma DrainedOk(h: Handle, dying: set<int>)
    requires CanCollect(h, dying) && !h.open
    ensures HandleOk(Drain(h), dying) && Drain(h).cand == {}
  {
    DrainOk(h, dying);
  }

  lemma CollectReady(h: Handle, net: nat -> Outcome)
    requires HandleOk(h, {}) && (h.open ==> h.lastOp != Write)
    ensures var g := Collect(h, net, 0).0; g.open ==> g.lastOp != Write
  {
    if h.open {
      CollectOk(h, net, 0);
    } else {
      CollectClosed(h, net, 0);
      DrainStaysClosed(h);
    }
  }

  lemma UnreferencedCloses(h: Handle, id: int, dying: set<int>)
    requires HandleOk(h, dying)
    requires id in h.remote && h.remote[id].refcount == 1 && id !in h.cand
    ensures id !in dying && CanCollect(Dropped(h, id).(open := false), dying + {id})
  {
    DroppedAccounted(h, id, false, h.cand);
  }

  lemma TakenReferenced(h: Handle, id: int, dying: set<int>)
    requires CanCollect(h, dying) && id in h.cand && h.remote[id].refcount != 0
    ensures CanCollect(h.(cand := h.cand - {id}), dying)
  {
    SameSerialsAccounted(h, h.(cand := h.cand - {id}));
    DropCandidate(h, id, dying);
  }

  lemma TakenClosed(h: Handle, id: int, dying: set<int>)
    requires CanCollect(h, dying) && id in h.cand && h.remote[id].refcount == 0 && !h.open
    ensures CanCollect(Delete(h.(cand := h.cand - {id}), id), dying)
  {
    var h1 := h.(cand := h.cand - {id});
    SameSerialsAccounted(h, h1);
    DeleteAccounted(h1, id);
    DeleteCandidate(h, id, dying);
  }

  lemma TakenOpen(h: Handle, id: int, o: Outcome)
    requires CanCollect(h, {}) && id in h.cand && h.remote[id].refcount == 0 && h.open
    ensures HandleOk(h.(cand := h.cand - {id}), {id})
    ensures CanCollect(Delete(Handshake(h.(cand := h.cand - {id}), o), id), {})
  {
    var h1 := h.(cand := h.cand - {id});
    BeginDying(h, id);
    match o {
      case Answered => AnsweredOk(h1, id);
      case WriteLost =>
        var w := MarkWrite(h1).(open := false);
        SameSerialsAccounted(h1, w);
        DeleteAccounted(w, id);
      case ReadLost =>
        MarksOk(h1, {id});
        MarksOk(MarkWrite(h1), {id});
        CloseDeletes(MarkRead(MarkWrite(h1)), id);
    }
  }

  /** One round of the loop, as the specification takes it. */
  lemma RoundOk(h: Handle, id: int, net: nat -> Outcome, k: nat, dying: set<int>)
    requires CanCollect(h, dying) && id in h.cand && forall i :: i in h.cand ==> id <= i
    ensures id in h.remote
    ensures var h1 := h.(cand := h.cand - {id});
      if h.remote[id].refcount != 0 then
        CanCollect(h1, dying) && Collect(h, net, k) == Collect(h1, net, k)
      else if !h.open then
        CanCollect(Delete(h1, id), dying) && Collect(h, net, k) == Collect(Delete(h1, id), net, k)
      else
        && HandleOk(h1, {id})
        && CanCollect(Delete(Handshake(h1, net(k)), id), dying)
        && Collect(h, net, k) == Collect(Delete(Handshake(h1, net(k)), id), net, k + 1)
  {
    assert id == Least(h.cand);
    if h.remote[id].refcount != 0 {
      TakenReferenced(h, id, dying);
    } else if !h.open {
      TakenClosed(h, id, dying);
    } else {
      TakenOpen(h, id, net(k));
    }
  }
}
