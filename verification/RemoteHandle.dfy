/** One end of a remoting connection: the tables of `remote_handle` and what its methods do to them.
    Everything here is about a single end; the two-party protocol is in RemoteSystem. */
module RemoteHandle {

  /** An `ase_variant` that refers to an object: vtable address and rep pointer. */
  datatype Obj = Obj(vtable: int, rep: int) {
    /** `get_local_object_id`: the rep pointer, or the vtable address when the pointer is null. */
    function Id(): int {
      if rep != 0 then rep else vtable
    }
  }

  /** A `remote_object`. `serial` numbers the allocations of one handle. */
  datatype Proxy = Proxy(serial: nat, refcount: nat, owner: bool)

  /** `last_op`. */
  datatype LastOp = Idle | Read | Write

  /** An object reference on the wire. `remote` is from the sender's point of view. */
  datatype Ref = Ref(remote: bool, id: int)

  /** An object as one program sees it: its own, or a proxy of this handle for one of the peer's. */
  datatype Val = Mine(obj: Obj) | Theirs(id: int)

  /** The fields of `remote_handle`, plus the allocation history of its proxies.
      `fault` records an `abort()` or a dereference of a missing map entry. */
  datatype Handle = Handle(
    isClient: bool,
    open: bool,
    lastOp: LastOp,
    remote: map<int, Proxy>,
    cand: set<int>,
    local: map<int, Obj>,
    born: nat,
    freed: seq<nat>,
    fault: bool)

  function NewHandle(isClient: bool): Handle {
    Handle(isClient, true, Idle, map[], {}, map[], 0, [], false)
  }

  // ---------------------------------------------------------------- operations

  /** The least element, the one `begin()` yields. */
  ghost function Least(s: set<int>): (m: int)
    requires s != {}
    ensures m in s && forall x :: x in s ==> m <= x
  {
    LeastExists(s);
    var m :| m in s && forall x :: x in s ==> m <= x;
    m
  }

  ghost function Pick<T>(s: set<T>): (r: T)
    requires s != {}
    ensures r in s
  {
    var r :| r in s;
    r
  }

  ghost function Below(s: set<int>, y: int): set<int> {
    set x | x in s && x < y
  }

  lemma LeastExists(s: set<int>)
    requires s != {}
    ensures exists m :: m in s && forall x :: x in s ==> m <= x
  {
    var y := Pick(s);
    LeastBelow(s, y);
  }

  lemma {:induction false} LeastBelow(s: set<int>, y: int)
    requires y in s
    ensures exists m :: m in s && forall x :: x in s ==> m <= x
    decreases Below(s, y)
  {
    if z :| z in s && z < y {
      assert z in Below(s, y) && z !in Below(s, z);
      LeastBelow(s, z);
    }
  }

  /** `delete robj`: the destructor unmaps the proxy. */
  function Delete(h: Handle, id: int): Handle {
    if id !in h.remote then h.(fault := true)
    else h.(remote := h.remote - {id}, freed := h.freed + [h.remote[id].serial])
  }

  /** `last_op` check and update before a write or a read. */
  function MarkWrite(h: Handle): Handle {
    if h.lastOp == Write then h.(fault := true) else h.(lastOp := Write)
  }

  function MarkRead(h: Handle): Handle {
    if h.lastOp == Read then h.(fault := true) else h.(lastOp := Read)
  }

  /** `garbage_collect` on a handle whose stream is gone: nothing is sent. */
  ghost function Drain(h: Handle): (d: Handle)
    requires !h.open
    ensures d.cand <= h.cand
    decreases h.cand
  {
    if h.cand == {} then h.(local := map[])
    else
      var id := Least(h.cand);
      var h1 := h.(cand := h.cand - {id});
      if id !in h.remote then h1.(fault := true)
      else if h.remote[id].refcount != 0 then Drain(h1)
      else Drain(Delete(h1, id))
  }

  /** `close_connection`. */
  ghost function Close(h: Handle): Handle {
    Drain(h.(open := false))
  }

  function AddRef(h: Handle, id: int): Handle {
    if id !in h.remote then h.(fault := true)
    else h.(remote := h.remote[id := h.remote[id].(refcount := h.remote[id].refcount + 1)])
  }

  /** `remote_object::release`; `noMemory` says that the insertion into the candidate set throws,
      which it can only do when it has to allocate a node. */
  ghost function Release(h: Handle, id: int, noMemory: bool): Handle
    requires id in h.remote && h.remote[id].refcount > 0
    requires noMemory ==> id !in h.cand
  {
    var p := h.remote[id].(refcount := h.remote[id].refcount - 1);
    var h1 := h.(remote := h.remote[id := p]);
    if p.refcount != 0 then h1
    else if !h.open then Delete(h1, id)
    else if p.owner || noMemory then Delete(Close(h1), id)
    else h1.(cand := h1.cand + {id})
  }

  /** `serialize_object` on an object that is not passed by value. */
  function Serialize(h: Handle, v: Val): (Handle, Ref) {
    match v
    case Theirs(id) => (h, Ref(true, id))
    case Mine(o) =>
      (if o.Id() in h.local then h else h.(local := h.local[o.Id() := o]), Ref(false, o.Id()))
  }

  function SerializeAll(h: Handle, vs: seq<Val>): (Handle, seq<Ref>)
    decreases vs
  {
    if vs == [] then (h, [])
    else
      var (h1, r) := Serialize(h, vs[0]);
      var (h2, rs) := SerializeAll(h1, vs[1..]);
      (h2, [r] + rs)
  }

  datatype Found = Unknown | Found(v: Val)

  /** `deserialize_object`; `Unknown` is the thrown ASERemoteUnknownLocalObject. */
  function Deserialize(h: Handle, r: Ref): (Handle, Found) {
    if r.remote then
      if r.id !in h.local then (h, Unknown) else (h, Found(Mine(h.local[r.id])))
    else if r.id in h.remote then (AddRef(h, r.id), Found(Theirs(r.id)))
    else
      (h.(remote := h.remote[r.id := Proxy(h.born, 1, h.isClient && h.remote == map[])], born := h.born + 1),
       Found(Theirs(r.id)))
  }

  /** All references of a packet in order; the objects they resolve to are `vals`. */
  function DeserializeAll(h: Handle, rs: seq<Ref>): (res: (Handle, bool, seq<Val>))
    decreases rs
  {
    if rs == [] then (h, true, [])
    else
      var (h1, f) := Deserialize(h, rs[0]);
      if f == Unknown then (h1, false, [])
      else
        var (h2, ok, vs) := DeserializeAll(h1, rs[1..]);
        (h2, ok, [f.v] + vs)
  }

  /** `local_object_erase`. */
  function EraseLocal(h: Handle, o: Obj): Handle {
    h.(local := h.local - {o.Id()})
  }

  // ---------------------------------------------------------------- invariant

  /** Every allocated serial is either mapped, once, or freed, once. */
  ghost predicate Accounted(h: Handle) {
    && (forall i, j :: i in h.remote && j in h.remote && i != j ==> h.remote[i].serial != h.remote[j].serial)
    && (forall i :: i in h.remote ==> h.remote[i].serial < h.born && h.remote[i].serial !in h.freed)
    && (forall k, l :: 0 <= k < l < |h.freed| ==> h.freed[k] != h.freed[l])
    && (forall k :: 0 <= k < |h.freed| ==> h.freed[k] < h.born)
    && (forall n :: 0 <= n < h.born ==> n in h.freed || Mapped(h, n))
  }

  ghost predicate Mapped(h: Handle, serial: nat) {
    exists i :: i in h.remote && h.remote[i].serial == serial
  }

  ghost predicate LocalsKeyed(h: Handle) {
    forall i :: i in h.local ==> h.local[i].Id() == i
  }

  /** Candidates and owners. `dying` is what an unfinished destroy handshake is about to free. */
  ghost predicate ProxiesOk(h: Handle, dying: set<int>) {
    && h.cand <= h.remote.Keys
    && dying <= h.remote.Keys
    && h.cand !! dying
    && (forall i :: i in dying ==> h.remote[i].refcount == 0)
    && (forall i :: i in h.remote && h.remote[i].refcount == 0 ==> i in h.cand || i in dying)
    && (forall i :: i in h.remote && h.remote[i].owner ==>
          h.isClient && i !in h.cand && (h.open ==> h.remote[i].refcount > 0))
    && (forall i, j :: i in h.remote && j in h.remote && h.remote[i].owner && h.remote[j].owner ==> i == j)
    && (h.open && h.isClient && h.remote != map[] ==> HasOwner(h))
  }

  ghost predicate HasOwner(h: Handle) {
    exists i :: i in h.remote && h.remote[i].owner
  }

  ghost predicate ClosedOk(h: Handle) {
    !h.open ==> h.cand == {} && h.local == map[]
  }

  ghost predicate HandleOk(h: Handle, dying: set<int>) {
    && !h.fault
    && Accounted(h)
    && LocalsKeyed(h)
    && ProxiesOk(h, dying)
    && ClosedOk(h)
  }

  // ---------------------------------------------------------------- what the operations keep

  lemma DeleteAccounted(h: Handle, id: int)
    requires Accounted(h) && id in h.remote
    ensures Accounted(Delete(h, id))
  {
    var d := Delete(h, id);
    forall n | 0 <= n < d.born
      ensures n in d.freed || Mapped(d, n)
    {
      if n !in h.freed && n != h.remote[id].serial {
        assert d.freed[..|h.freed|] == h.freed;
        var i :| i in h.remote && h.remote[i].serial == n;
        assert i in d.remote && d.remote[i].serial == n;
      } else if n == h.remote[id].serial {
        assert d.freed[|h.freed|] == n;
      } else {
        var k :| 0 <= k < |h.freed| && h.freed[k] == n;
        assert d.freed[k] == n;
      }
    }
  }

  lemma SameSerialsAccounted(h: Handle, g: Handle)
    requires Accounted(h)
    requires g.remote.Keys == h.remote.Keys && g.born == h.born && g.freed == h.freed
    requires forall i :: i in h.remote ==> g.remote[i].serial == h.remote[i].serial
    ensures Accounted(g)
  {
    forall n | 0 <= n < g.born
      ensures n in g.freed || Mapped(g, n)
    {
      if n !in h.freed {
        var i :| i in h.remote && h.remote[i].serial == n;
        assert i in g.remote && g.remote[i].serial == n;
      }
    }
  }

  /** The proxies that survive a drain: the candidates nobody refers to are gone. */
  ghost function Survivors(h: Handle): map<int, Proxy> {
    map i | i in h.remote && !(i in h.cand && h.remote[i].refcount == 0) :: h.remote[i]
  }

  lemma DropCandidate(h: Handle, id: int, dying: set<int>)
    requires ProxiesOk(h, dying) && id in h.cand && h.remote[id].refcount != 0
    ensures var h1 := h.(cand := h.cand - {id});
      ProxiesOk(h1, dying) && Survivors(h1) == Survivors(h)
  {
  }

  lemma DeleteCandidate(h: Handle, id: int, dying: set<int>)
    requires ProxiesOk(h, dying) && id in h.cand && h.remote[id].refcount == 0
    ensures var h1 := Delete(h.(cand := h.cand - {id}), id);
      ProxiesOk(h1, dying) && Survivors(h1) == Survivors(h)
  {
    var h1 := Delete(h.(cand := h.cand - {id}), id);
    if h1.open && h1.isClient && h1.remote != map[] {
      assert h.remote != map[];
      var o :| o in h.remote && h.remote[o].owner;
      assert o in h1.remote && h1.remote[o].owner;
    }
  }

  ghost predicate Drained(h: Handle, d: Handle) {
    && d.remote == Survivors(h)
    && d.cand == {} && d.local == map[]
    && d.open == h.open && d.lastOp == h.lastOp && d.isClient == h.isClient && d.born == h.born
  }

  /** What draining keeps and removes: exactly the candidates without references are freed. */
  lemma {:induction false} DrainOk(h: Handle, dying: set<int>)
    requires !h.open && !h.fault && Accounted(h) && ProxiesOk(h, dying)
    ensures HandleOk(Drain(h), dying) && Drained(h, Drain(h))
    decreases h.cand
  {
    if h.cand == {} {
      SameSerialsAccounted(h, h.(local := map[]));
      assert Survivors(h) == h.remote;
    } else {
      var id := Least(h.cand);
      var h1 := h.(cand := h.cand - {id});
      SameSerialsAccounted(h, h1);
      if h.remote[id].refcount != 0 {
        DropCandidate(h, id, dying);
        DrainOk(h1, dying);
      } else {
        DeleteAccounted(h1, id);
        DeleteCandidate(h, id, dying);
        DrainOk(Delete(h1, id), dying);
      }
    }
  }

  /** Closing: the stream is gone, no zero-count proxy stays mapped but the dying one. */
  lemma CloseOk(h: Handle, dying: set<int>)
    requires HandleOk(h, dying)
    ensures HandleOk(Close(h), dying) && Drained(h.(open := false), Close(h))
  {
    SameSerialsAccounted(h, h.(open := false));
    DrainOk(h.(open := false), dying);
  }

  // ---------------------------------------------------------------- references held by the program

  /** How often each proxy occurs among `vs`. */
  ghost function Pins(vs: seq<Val>): multiset<int> {
    if vs == [] then multiset{}
    else (if vs[0].Theirs? then multiset{vs[0].id} else multiset{}) + Pins(vs[1..])
  }

  /** The program holds at least the references counted in `pins`. */
  ghost predicate Holds(h: Handle, pins: multiset<int>) {
    forall i :: i in pins ==> i in h.remote && h.remote[i].refcount >= pins[i]
  }

  /** What a step that touches only counts and candidates leaves as it was. */
  ghost predicate SameTables(h: Handle, g: Handle) {
    && g.remote.Keys == h.remote.Keys && g.local == h.local
    && g.open == h.open && g.lastOp == h.lastOp && g.isClient == h.isClient
  }

  lemma AddRefOk(h: Handle, id: int, dying: set<int>)
    requires HandleOk(h, dying) && id in h.remote && id !in dying
    ensures HandleOk(AddRef(h, id), dying) && SameTables(h, AddRef(h, id))
    ensures forall pins :: Holds(h, pins) ==> Holds(AddRef(h, id), pins)
  {
    hide ProxiesOk, Accounted, Holds;
    SameSerialsAccounted(h, AddRef(h, id));
    AddRefProxies(h, id, dying);
    forall pins | Holds(h, pins)
      ensures Holds(AddRef(h, id), pins)
    {
      AddRefHolds(h, id, pins);
    }
  }

  lemma AddRefProxies(h: Handle, id: int, dying: set<int>)
    requires ProxiesOk(h, dying) && id in h.remote && id !in dying
    ensures ProxiesOk(AddRef(h, id), dying)
  {
    var g := AddRef(h, id);
    if HasOwner(h) {
      var o :| o in h.remote && h.remote[o].owner;
      assert o in g.remote && g.remote[o].owner;
    }
  }

  lemma AddRefHolds(h: Handle, id: int, pins: multiset<int>)
    requires Holds(h, pins)
    ensures Holds(AddRef(h, id), pins)
  {
  }

  lemma DeleteDying(h: Handle, id: int, dying: set<int>)
    requires HandleOk(h, dying + {id}) && id !in dying
    ensures HandleOk(Delete(h, id), dying)
  {
    DeleteAccounted(h, id);
    var d := Delete(h, id);
    if d.open && d.isClient && d.remote != map[] {
      assert h.remote != map[];
      var o :| o in h.remote && h.remote[o].owner;
      assert o in d.remote && d.remote[o].owner;
    }
  }

  /** The handle right after the count of `id` went down, before anything else happens. */
  function Dropped(h: Handle, id: int): Handle
    requires id in h.remote && h.remote[id].refcount > 0
  {
    h.(remote := h.remote[id := h.remote[id].(refcount := h.remote[id].refcount - 1)])
  }

  lemma DroppedAccounted(h: Handle, id: int, open: bool, cand: set<int>)
    requires Accounted(h)
    requires id in h.remote && h.remote[id].refcount > 0
    ensures Accounted(Dropped(h, id).(open := open, cand := cand))
  {
    SameSerialsAccounted(h, Dropped(h, id).(open := open, cand := cand));
  }

  lemma DroppedOwner(h: Handle, id: int)
    requires HasOwner(h)
    requires id in h.remote && h.remote[id].refcount > 0
    ensures HasOwner(Dropped(h, id))
  {
    var o :| o in h.remote && h.remote[o].owner;
    assert o in Dropped(h, id).remote && Dropped(h, id).remote[o].owner;
  }

  lemma ReleaseKeeps(h: Handle, id: int, dying: set<int>)
    requires HandleOk(h, dying)
    requires id in h.remote && h.remote[id].refcount > 1
    ensures HandleOk(Release(h, id, false), dying)
  {
    DroppedAccounted(h, id, h.open, h.cand);
    if HasOwner(h) {
      DroppedOwner(h, id);
    }
  }

  lemma ReleaseMarks(h: Handle, id: int, dying: set<int>)
    requires HandleOk(h, dying) && h.open
    requires id in h.remote && h.remote[id].refcount == 1 && !h.remote[id].owner
    ensures HandleOk(Release(h, id, false), dying)
  {
    DroppedAccounted(h, id, true, h.cand + {id});
    if HasOwner(h) {
      DroppedOwner(h, id);
    }
  }

  lemma ReleaseFrees(h: Handle, id: int, dying: set<int>)
    requires HandleOk(h, dying)
    requires id in h.remote && h.remote[id].refcount == 1 && id !in h.cand
    ensures var c := Close(Dropped(h, id));
      HandleOk(Delete(c, id), dying) && !c.open && c.lastOp == h.lastOp && c.isClient == h.isClient
    ensures Close(Dropped(h, id)).remote == Survivors(Dropped(h, id))
  {
    var h1 := Dropped(h, id).(open := false);
    DroppedAccounted(h, id, false, h.cand);
    assert ProxiesOk(h1, dying + {id});
    DrainOk(h1, dying + {id});
    DeleteDying(Drain(h1), id, dying);
  }

  lemma FreeUnreferenced(h: Handle, id: int, dying: set<int>)
    requires HandleOk(h, dying) && !h.open
    requires id in h.remote && h.remote[id].refcount == 1
    ensures HandleOk(Delete(Dropped(h, id), id), dying)
  {
    var h1 := Dropped(h, id);
    DroppedAccounted(h, id, false, h.cand);
    DeleteDying(h1, id, dying);
  }

  /** `release` keeps the handle in order in all its cases. */
  lemma ReleaseOk(h: Handle, id: int, noMemory: bool, dying: set<int>)
    requires HandleOk(h, dying)
    requires id in h.remote && h.remote[id].refcount > 0
    requires noMemory ==> id !in h.cand
    ensures HandleOk(Release(h, id, noMemory), dying)
  {
    if h.remote[id].refcount > 1 {
      ReleaseKeeps(h, id, dying);
    } else if !h.open {
      FreeUnreferenced(h, id, dying);
    } else if h.remote[id].owner || noMemory {
      ReleaseFrees(h, id, dying);
    } else {
      ReleaseMarks(h, id, dying);
    }
  }

  /** The references to other proxies, and the other ones to `id`, are untouched by a release. */
  ghost predicate Released(h: Handle, g: Handle, id: int)
    requires id in h.remote && h.remote[id].refcount > 0
  {
    && (forall i :: i in h.remote && i != id && h.remote[i].refcount > 0 ==>
          i in g.remote && g.remote[i].refcount == h.remote[i].refcount)
    && (h.remote[id].refcount > 1 ==> id in g.remote && g.remote[id].refcount == h.remote[id].refcount - 1)
  }

  lemma ReleaseFrameOpen(h: Handle, id: int)
    requires id in h.remote && h.remote[id].refcount > 0
    requires h.remote[id].refcount > 1 || !h.open || !h.remote[id].owner
    ensures var g := Release(h, id, false);
      && g.lastOp == h.lastOp && g.isClient == h.isClient && (g.open ==> SameTables(h, g))
      && Released(h, g, id)
  {
  }

  lemma ReleaseFrameClosing(h: Handle, id: int, dying: set<int>)
    requires HandleOk(h, dying)
    requires id in h.remote && h.remote[id].refcount == 1 && id !in h.cand
    ensures var g := Delete(Close(Dropped(h, id)), id);
      g.lastOp == h.lastOp && g.isClient == h.isClient && !g.open && Released(h, g, id)
  {
    ReleaseFrees(h, id, dying);
    hide HandleOk, Drain;
  }

  lemma ReleaseFrame(h: Handle, id: int, noMemory: bool, dying: set<int>)
    requires HandleOk(h, dying)
    requires id in h.remote && h.remote[id].refcount > 0
    requires noMemory ==> id !in h.cand
    ensures var g := Release(h, id, noMemory);
      && g.lastOp == h.lastOp && g.isClient == h.isClient && (g.open ==> SameTables(h, g))
      && Released(h, g, id)
  {
    hide Drain, Accounted;
    if h.remote[id].refcount == 1 && h.open && (h.remote[id].owner || noMemory) {
      ReleaseFrameClosing(h, id, dying);
    } else {
      ReleaseFrameOpen(h, id);
    }
  }

  // ---------------------------------------------------------------- references on the wire

  ghost function RemoteIds(rs: seq<Ref>): set<int> {
    if rs == [] then {} else (if rs[0].remote then {rs[0].id} else {}) + RemoteIds(rs[1..])
  }

  ghost function LocalIds(rs: seq<Ref>): set<int> {
    if rs == [] then {} else (if rs[0].remote then {} else {rs[0].id}) + LocalIds(rs[1..])
  }

  /** Sending registers the sender's own objects and nothing else. */
  ghost predicate Sent(h: Handle, g: Handle, rs: seq<Ref>) {
    && g == h.(local := g.local)
    && g.local.Keys == h.local.Keys + LocalIds(rs)
    && (forall i :: i in h.local ==> g.local[i] == h.local[i])
  }

  lemma SentCons(h: Handle, h1: Handle, h2: Handle, r: Ref, rs: seq<Ref>)
    requires h1 == h.(local := h1.local) && h1.local.Keys == h.local.Keys + (if r.remote then {} else {r.id})
    requires forall i :: i in h.local ==> h1.local[i] == h.local[i]
    requires Sent(h1, h2, rs)
    ensures Sent(h, h2, [r] + rs)
  {
    assert ([r] + rs)[1..] == rs;
  }

  lemma {:induction false} SerializeAllSends(h: Handle, vs: seq<Val>)
    requires LocalsKeyed(h)
    ensures var (g, rs) := SerializeAll(h, vs); Sent(h, g, rs) && LocalsKeyed(g)
    decreases vs
  {
    if vs != [] {
      var (h1, r) := Serialize(h, vs[0]);
      SerializeAllSends(h1, vs[1..]);
      var (h2, rs) := SerializeAll(h1, vs[1..]);
      SentCons(h, h1, h2, r, rs);
    }
  }

  /** The references sent as "remote" are the proxies among the values. */
  lemma {:induction false} SerializeAllPins(h: Handle, vs: seq<Val>)
    ensures forall i :: i in RemoteIds(SerializeAll(h, vs).1) <==> i in Pins(vs)
    decreases vs
  {
    if vs != [] {
      var (h1, r) := Serialize(h, vs[0]);
      SerializeAllPins(h1, vs[1..]);
      var (h2, rs) := SerializeAll(h1, vs[1..]);
      assert ([r] + rs)[1..] == rs;
    }
  }

  lemma SerializeAllOk(h: Handle, vs: seq<Val>, dying: set<int>)
    requires HandleOk(h, dying) && h.open
    ensures var (g, rs) := SerializeAll(h, vs);
      && HandleOk(g, dying) && Sent(h, g, rs)
      && (forall i :: i in RemoteIds(rs) <==> i in Pins(vs))
  {
    SerializeAllSends(h, vs);
    SerializeAllPins(h, vs);
    SameSerialsAccounted(h, SerializeAll(h, vs).0);
  }

  lemma DeserializeOk(h: Handle, r: Ref, dying: set<int>)
    requires HandleOk(h, dying) && h.open
    requires !r.remote ==> r.id !in dying
    ensures HandleOk(Deserialize(h, r).0, dying)
  {
    if !r.remote {
      if r.id in h.remote {
        AddRefOk(h, r.id, dying);
      } else {
        NewProxyAccounted(h, r.id);
        NewProxyOwner(h, r.id, dying);
      }
    }
  }

  lemma NewProxyAccounted(h: Handle, id: int)
    requires Accounted(h) && id !in h.remote
    ensures Accounted(Deserialize(h, Ref(false, id)).0)
  {
    var g := Deserialize(h, Ref(false, id)).0;
    forall n | 0 <= n < g.born
      ensures n in g.freed || Mapped(g, n)
    {
      if n == h.born {
        assert id in g.remote && g.remote[id].serial == n;
      } else if n !in h.freed {
        var i :| i in h.remote && h.remote[i].serial == n;
        assert i in g.remote && g.remote[i].serial == n;
      }
    }
  }

  lemma NewProxyOwner(h: Handle, id: int, dying: set<int>)
    requires ProxiesOk(h, dying) && h.open && id !in h.remote
    ensures ProxiesOk(Deserialize(h, Ref(false, id)).0, dying)
  {
    var g := Deserialize(h, Ref(false, id)).0;
    if h.isClient {
      if h.remote == map[] {
        assert id in g.remote && g.remote[id].owner;
      } else {
        var o :| o in h.remote && h.remote[o].owner;
        assert o in g.remote && g.remote[o].owner;
      }
    }
  }

  ghost predicate Resolves(h: Handle, rs: seq<Ref>) {
    RemoteIds(rs) <= h.local.Keys
  }

  /** What reading a packet changes: proxies are added for the peer's objects, no count goes down. */
  ghost predicate Received(h: Handle, g: Handle, rs: seq<Ref>) {
    && g == h.(remote := g.remote, born := g.born)
    && g.remote.Keys == h.remote.Keys + LocalIds(rs)
    && (forall i :: i in h.remote ==> g.remote[i].refcount >= h.remote[i].refcount)
  }

  lemma ReceivedCons(h: Handle, g: Handle, rs: seq<Ref>)
    requires rs != [] && Received(Deserialize(h, rs[0]).0, g, rs[1..])
    ensures Received(h, g, rs)
  {
  }

  /** Reading throws exactly when some "remote" reference of the packet is unknown. */
  lemma {:induction false} DeserializeAllReceives(h: Handle, rs: seq<Ref>)
    ensures DeserializeAll(h, rs).1 <==> Resolves(h, rs)
    ensures Resolves(h, rs) ==> Received(h, DeserializeAll(h, rs).0, rs)
    decreases rs
  {
    if rs != [] {
      var (h1, f) := Deserialize(h, rs[0]);
      if f.Found? {
        DeserializeAllReceives(h1, rs[1..]);
        if Resolves(h1, rs[1..]) {
          ReceivedCons(h, DeserializeAll(h1, rs[1..]).0, rs);
        }
      }
    }
  }

  lemma {:induction false} DeserializeAllOk(h: Handle, rs: seq<Ref>, dying: set<int>)
    requires HandleOk(h, dying) && h.open && LocalIds(rs) !! dying
    ensures HandleOk(DeserializeAll(h, rs).0, dying)
    decreases rs
  {
    if rs != [] {
      DeserializeOk(h, rs[0], dying);
      var (h1, f) := Deserialize(h, rs[0]);
      if f.Found? {
        DeserializeAllOk(h1, rs[1..], dying);
      }
    }
  }

  // ---------------------------------------------------------------- collection

  /** How one op_destroy handshake ends: with the answer, in the write, or in the read. */
  datatype Outcome = Answered | WriteLost | ReadLost

  /** The handle after the handshake for one proxy, just before that proxy is deleted. A failed read closes
      the connection from inside the event loop, which collects the remaining candidates on its own. */
  ghost function Handshake(h: Handle, o: Outcome): Handle
    requires h.open
  {
    match o
    case Answered => MarkRead(MarkWrite(h))
    case WriteLost => MarkWrite(h).(open := false)
    case ReadLost => Close(MarkRead(MarkWrite(h)))
  }

  /** `garbage_collect`, where the k-th handshake ends as `net(k)` says; also the number of handshakes. */
  ghost function Collect(h: Handle, net: nat -> Outcome, k: nat): (Handle, nat)
    decreases h.cand
  {
    if h.cand == {} then (if h.open then h else h.(local := map[]), k)
    else
      var id := Least(h.cand);
      var h1 := h.(cand := h.cand - {id});
      if id !in h.remote then (h1.(fault := true), k)
      else if h.remote[id].refcount != 0 then Collect(h1, net, k)
      else if !h.open then Collect(Delete(h1, id), net, k)
      else Collect(Delete(Handshake(h1, net(k)), id), net, k + 1)
  }

  /** The candidates a collection has to free. */
  ghost function Dead(h: Handle): set<int> {
    set i | i in h.cand && i in h.remote && h.remote[i].refcount == 0
  }

  lemma BeginDying(h: Handle, id: int)
    requires HandleOk(h, {}) && id in h.cand && h.remote[id].refcount == 0
    ensures HandleOk(h.(cand := h.cand - {id}), {id})
  {
    SameSerialsAccounted(h, h.(cand := h.cand - {id}));
  }

  lemma SkipCandidate(h: Handle, id: int)
    requires HandleOk(h, {}) && id in h.cand && h.remote[id].refcount != 0
    ensures var h1 := h.(cand := h.cand - {id});
      HandleOk(h1, {}) && Survivors(h1) == Survivors(h) && Dead(h1) == Dead(h)
  {
    SameSerialsAccounted(h, h.(cand := h.cand - {id}));
  }

  lemma MarksOk(h: Handle, dying: set<int>)
    requires HandleOk(h, dying)
    ensures h.lastOp != Write ==> HandleOk(MarkWrite(h), dying)
    ensures h.lastOp != Read ==> HandleOk(MarkRead(h), dying)
  {
    SameSerialsAccounted(h, MarkWrite(h));
    SameSerialsAccounted(h, MarkRead(h));
  }

  /** With the stream gone, collecting is draining. */
  lemma {:induction false} CollectClosed(h: Handle, net: nat -> Outcome, k: nat)
    requires !h.open
    ensures Collect(h, net, k) == (Drain(h), k)
    decreases h.cand
  {
    if h.cand != {} {
      var id := Least(h.cand);
      var h1 := h.(cand := h.cand - {id});
      if id in h.remote {
        CollectClosed(if h.remote[id].refcount != 0 then h1 else Delete(h1, id), net, k);
      }
    }
  }

  /** The handle once the proxy is deleted and, if the stream broke, everything collected. */
  ghost function Finish(h: Handle, id: int, o: Outcome): Handle
    requires h.open
  {
    var g := Delete(Handshake(h, o), id);
    if g.open then g else Drain(g)
  }

  lemma AnsweredOk(h: Handle, id: int)
    requires HandleOk(h, {id}) && h.open && h.lastOp != Write
    ensures var g := Finish(h, id, Answered);
      HandleOk(g, {}) && g == Delete(h, id).(lastOp := Read)
  {
    MarksOk(h, {id});
    MarksOk(MarkWrite(h), {id});
    DeleteDying(MarkRead(MarkWrite(h)), id, {});
  }

  lemma WriteLostOk(h: Handle, id: int)
    requires HandleOk(h, {id}) && h.open && h.lastOp != Write
    ensures var g := Finish(h, id, WriteLost);
      HandleOk(g, {}) && !g.open && g.remote == Survivors(Delete(h, id))
  {
    var w := MarkWrite(h).(open := false);
    SameSerialsAccounted(h, w);
    DeleteAccounted(w, id);
    DrainOk(Delete(w, id), {});
  }

  lemma ReadLostOk(h: Handle, id: int)
    requires HandleOk(h, {id}) && h.open && h.lastOp != Write
    ensures var g := Finish(h, id, ReadLost);
      HandleOk(g, {}) && !g.open && g.remote == Survivors(Delete(h, id))
  {
    MarksOk(h, {id});
    MarksOk(MarkWrite(h), {id});
    CloseDeletes(MarkRead(MarkWrite(h)), id);
  }

  lemma CloseDeletes(h: Handle, id: int)
    requires HandleOk(h, {id})
    ensures var g := Delete(Close(h), id);
      HandleOk(g, {}) && !g.open && Drain(g) == g && g.remote == Survivors(Delete(h, id))
  {
    CloseOk(h, {id});
    DeleteDying(Close(h), id, {});
    DrainEmpty(Delete(Close(h), id));
    SurvivorsDelete(h.(open := false), id);
    assert Survivors(Delete(h, id)) == Survivors(Delete(h.(open := false), id));
  }

  lemma DrainEmpty(h: Handle)
    requires !h.open && h.cand == {} && h.local == map[]
    ensures Drain(h) == h
  {
  }

  lemma SurvivorsDelete(h: Handle, id: int)
    requires id in h.remote
    ensures Survivors(h) - {id} == Survivors(Delete(h, id))
  {
  }

  /** The result of a collection: no candidate is left and exactly the dead proxies are gone; if the stream
      survives, the exported objects are untouched and there was one handshake for each dead proxy. */
  ghost predicate Collected(h: Handle, g: Handle, handshakes: int) {
    && g.cand == {} && g.remote == Survivors(h)
    && (g.open ==> g.local == h.local && g.lastOp != Write && handshakes == |Dead(h)|)
  }

  lemma CollectedStep(h: Handle, id: int, g: Handle, g': Handle, n: int)
    requires h.cand <= h.remote.Keys && id in h.cand && h.remote[id].refcount == 0
    requires g.remote == h.remote - {id} && g.cand == h.cand - {id} && g.local == h.local
    requires Collected(g, g', n)
    ensures Collected(h, g', n + 1)
  {
    assert Survivors(h) == Survivors(g);
    assert Dead(h) == Dead(g) + {id};
  }

  lemma CollectBroken(h: Handle, id: int, o: Outcome, net: nat -> Outcome, k: nat)
    requires HandleOk(h, {id}) && h.open && h.lastOp != Write && o != Answered
    ensures Collect(Delete(Handshake(h, o), id), net, k) == (Finish(h, id, o), k)
    ensures !Finish(h, id, o).open && HandleOk(Finish(h, id, o), {})
    ensures Finish(h, id, o).remote == Survivors(Delete(h, id))
  {
    if o == WriteLost {
      WriteLostOk(h, id);
    } else {
      ReadLostOk(h, id);
      HandshakeCloses(h);
    }
    CollectClosed(Delete(Handshake(h, o), id), net, k);
  }

  lemma HandshakeCloses(h: Handle)
    requires h.open
    ensures !Handshake(h, ReadLost).open
  {
    DrainStaysClosed(MarkRead(MarkWrite(h)).(open := false));
  }

  lemma {:induction false} DrainStaysClosed(h: Handle)
    requires !h.open
    ensures !Drain(h).open
    decreases h.cand
  {
    if h.cand != {} {
      var id := Least(h.cand);
      var h1 := h.(cand := h.cand - {id});
      if id in h.remote {
        DrainStaysClosed(if h.remote[id].refcount != 0 then h1 else Delete(h1, id));
      }
    }
  }

  lemma CollectAnswered(h: Handle, id: int)
    requires HandleOk(h, {}) && h.open && h.lastOp != Write
    requires id in h.cand && h.remote[id].refcount == 0
    ensures var h1 := h.(cand := h.cand - {id});
      var g := Finish(h1, id, Answered);
      && HandleOk(g, {}) && g.open && g.lastOp == Read
      && g.remote == h.remote - {id} && g.cand == h1.cand && g.local == h.local
      && g == Delete(Handshake(h1, Answered), id)
  {
    BeginDying(h, id);
    AnsweredOk(h.(cand := h.cand - {id}), id);
  }

  lemma CollectBrokenOk(h: Handle, net: nat -> Outcome, k: nat)
    requires HandleOk(h, {}) && h.open && h.lastOp != Write && h.cand != {}
    requires h.remote[Least(h.cand)].refcount == 0 && net(k) != Answered
    ensures HandleOk(Collect(h, net, k).0, {}) && Collected(h, Collect(h, net, k).0, Collect(h, net, k).1 - k)
  {
    var id := Least(h.cand);
    var h1 := h.(cand := h.cand - {id});
    BeginDying(h, id);
    CollectBroken(h1, id, net(k), net, k + 1);
    assert Survivors(h) == Survivors(Delete(h1, id));
    var g := Finish(h1, id, net(k));
    assert Collect(h, net, k) == (g, k + 1);
  }

  lemma CollectSkips(h: Handle, net: nat -> Outcome, k: nat)
    requires h.cand != {}
    requires Least(h.cand) in h.remote && h.remote[Least(h.cand)].refcount != 0
    ensures Collect(h, net, k) == Collect(h.(cand := h.cand - {Least(h.cand)}), net, k)
  {
  }

  lemma CollectFrees(h: Handle, net: nat -> Outcome, k: nat)
    requires h.cand != {} && h.open && net(k) == Answered
    requires Least(h.cand) in h.remote && h.remote[Least(h.cand)].refcount == 0
    ensures var h1 := h.(cand := h.cand - {Least(h.cand)});
      Collect(h, net, k) == Collect(Delete(Handshake(h1, Answered), Least(h.cand)), net, k + 1)
  {
  }

  /** Collecting on an open stream, whatever happens to it, faults nowhere and frees what it should. */
  lemma {:induction false} CollectOk(h: Handle, net: nat -> Outcome, k: nat)
    requires HandleOk(h, {}) && h.open && h.lastOp != Write
    ensures HandleOk(Collect(h, net, k).0, {}) && Collected(h, Collect(h, net, k).0, Collect(h, net, k).1 - k)
    decreases h.cand
  {
    if h.cand == {} {
      assert Survivors(h) == h.remote && Dead(h) == {};
    } else {
      var id := Least(h.cand);
      if h.remote[id].refcount != 0 {
        SkipCandidate(h, id);
        CollectSkips(h, net, k);
        CollectOk(h.(cand := h.cand - {id}), net, k);
      } else if net(k) == Answered {
        CollectAnsweredOk(h, net, k);
      } else {
        CollectBrokenOk(h, net, k);
      }
    }
  }

  lemma {:induction false} CollectAnsweredOk(h: Handle, net: nat -> Outcome, k: nat)
    requires HandleOk(h, {}) && h.open && h.lastOp != Write && h.cand != {}
    requires h.remote[Least(h.cand)].refcount == 0 && net(k) == Answered
    ensures HandleOk(Collect(h, net, k).0, {}) && Collected(h, Collect(h, net, k).0, Collect(h, net, k).1 - k)
    decreases h.cand, 0
  {
    var id := Least(h.cand);
    CollectAnswered(h, id);
    CollectFrees(h, net, k);
    var g := Finish(h.(cand := h.cand - {id}), id, Answered);
    CollectOk(g, net, k + 1);
    var (g', n) := Collect(g, net, k + 1);
    CollectedStep(h, id, g, g', n - (k + 1));
  }
}
