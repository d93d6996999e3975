/** What the references of one end mean: which objects share an identifier, how objects are named on the wire and what
    names resolve to, and how often each proxy is counted. */
module RemoteReferences {
  import opened RemoteHandle

  // ---------------------------------------------------------------- identity

  /** Two views of one object. Objects are told apart by their rep pointers, those without one by their classes. */
  predicate OneObject(o: Obj, o': Obj) {
    if o.rep != 0 && o'.rep != 0 then o.rep == o'.rep
    else if o.rep == 0 && o'.rep == 0 then o.vtable == o'.vtable
    else if o.rep == 0 then o.vtable == o'.rep
    else o.rep == o'.vtable
  }

  lemma Identity(o: Obj, o': Obj)
    ensures o.Id() == o'.Id() <==> OneObject(o, o')
  {
  }

  // ---------------------------------------------------------------- naming

  /** An object on the wire: a proxy by its identifier, which is the peer's, an object of one's own by its address. */
  predicate Named(v: Val, r: Ref) {
    match v
    case Theirs(id) => r == Ref(true, id)
    case Mine(o) => r == Ref(false, if o.rep != 0 then o.rep else o.vtable)
  }

  ghost predicate AllNamed(vs: seq<Val>, rs: seq<Ref>) {
    |rs| == |vs| && forall i :: 0 <= i < |vs| ==> Named(vs[i], rs[i])
  }

  /** The first of these objects that goes by this identifier. */
  ghost predicate FirstOf(vs: seq<Val>, id: int, o: Obj) {
    exists i :: 0 <= i < |vs| && vs[i] == Mine(o) && Named(vs[i], Ref(false, id))
                && forall j :: 0 <= j < i ==> !Named(vs[j], Ref(false, id))
  }

  lemma FirstOfCons(v: Val, vs: seq<Val>, id: int, o: Obj)
    requires if Named(v, Ref(false, id)) then v == Mine(o) else FirstOf(vs, id, o)
    ensures FirstOf([v] + vs, id, o)
  {
    var us := [v] + vs;
    if Named(v, Ref(false, id)) {
      assert us[0] == Mine(o);
    } else {
      var i :| 0 <= i < |vs| && vs[i] == Mine(o) && Named(vs[i], Ref(false, id))
        && forall j :: 0 <= j < i ==> !Named(vs[j], Ref(false, id));
      assert us[i + 1] == vs[i];
      assert forall j :: 0 <= j < i + 1 ==> us[j] == if j == 0 then v else vs[j - 1];
    }
  }

  /** Serializing the objects of a packet names each, in order; an object stays exported as it was exported first. */
  lemma {:induction false} SerializeAllNames(h: Handle, vs: seq<Val>)
    ensures var (g, rs) := SerializeAll(h, vs);
      && AllNamed(vs, rs)
      && (forall i :: 0 <= i < |vs| && vs[i].Mine? ==> rs[i].id in g.local)
      && (forall id :: id in h.local ==> id in g.local && g.local[id] == h.local[id])
      && (forall id :: id in g.local && id !in h.local ==> FirstOf(vs, id, g.local[id]))
    decreases vs
  {
    if vs != [] {
      var (h1, r) := Serialize(h, vs[0]);
      SerializeAllNames(h1, vs[1..]);
      var (g, rs) := SerializeAll(h1, vs[1..]);
      assert vs == [vs[0]] + vs[1..];
      forall id | id in g.local && id !in h.local
        ensures FirstOf(vs, id, g.local[id])
      {
        FirstOfCons(vs[0], vs[1..], id, g.local[id]);
      }
    }
  }

  // ---------------------------------------------------------------- resolving

  /** What a name means to the end that reads it: an object it has exported itself, or its proxy. */
  ghost predicate Meant(h: Handle, r: Ref, v: Val) {
    if r.remote then r.id in h.local && v == Mine(h.local[r.id]) else v == Theirs(r.id)
  }

  /** The references the program has to a proxy, none if there is no proxy. */
  ghost function Count(h: Handle, id: int): nat {
    if id in h.remote then h.remote[id].refcount else 0
  }

  ghost predicate SameProxies(h: Handle, g: Handle) {
    forall id :: id in h.remote ==> id in g.remote && g.remote[id].serial == h.remote[id].serial
  }

  lemma DeserializeMeans(h: Handle, r: Ref)
    requires r.remote ==> r.id in h.local
    ensures var (g, f) := Deserialize(h, r);
      && f.Found? && Meant(h, r, f.v) && g.local == h.local && SameProxies(h, g)
      && forall id :: Count(g, id) == Count(h, id) + if r == Ref(false, id) then 1 else 0
  {
  }

  lemma MeantCons(h: Handle, h1: Handle, r: Ref, rs: seq<Ref>, v: Val, vs: seq<Val>)
    requires Meant(h, r, v) && |vs| == |rs| && h1.local == h.local
    requires forall i :: 0 <= i < |rs| ==> Meant(h1, rs[i], vs[i])
    ensures forall i :: 0 <= i < |rs| + 1 ==> Meant(h, ([r] + rs)[i], ([v] + vs)[i])
  {
  }

  lemma SameProxiesOn(h: Handle, h1: Handle, g: Handle)
    requires SameProxies(h, h1) && SameProxies(h1, g)
    ensures SameProxies(h, g)
  {
  }

  /** Reading the references of a packet resolves each, in order, and counts each proxy once for each time it is named;
      it throws only when a name is not known. */
  lemma {:induction false} DeserializeAllMeans(h: Handle, rs: seq<Ref>)
    requires forall r :: r in rs && r.remote ==> r.id in h.local
    ensures var (g, ok, vs) := DeserializeAll(h, rs);
      && ok && |vs| == |rs| && (forall i :: 0 <= i < |rs| ==> Meant(h, rs[i], vs[i]))
      && g.local == h.local && SameProxies(h, g)
      && forall id :: Count(g, id) == Count(h, id) + multiset(rs)[Ref(false, id)]
    decreases rs
  {
    if rs != [] {
      var (h1, f) := Deserialize(h, rs[0]);
      hide Deserialize, Count, SameProxies;
      DeserializeMeans(h, rs[0]);
      DeserializeAllMeans(h1, rs[1..]);
      var (g, ok, vs) := DeserializeAll(h1, rs[1..]);
      assert rs == [rs[0]] + rs[1..];
      assert DeserializeAll(h, rs) == (g, true, [f.v] + vs);
      MeantCons(h, h1, rs[0], rs[1..], f.v, vs);
      SameProxiesOn(h, h1, g);
    }
  }

  // ---------------------------------------------------------------- there and back

  /** Whether an object goes out as another view of one that is exported already, or named earlier in the packet. */
  ghost predicate Seen(h: Handle, vs: seq<Val>, i: nat)
    requires i < |vs| && vs[i].Mine?
  {
    || (exists id :: id in h.local && OneObject(vs[i].obj, h.local[id]))
    || (exists j :: 0 <= j < i && vs[j].Mine? && OneObject(vs[i].obj, vs[j].obj))
  }

  lemma ExportedAs(h: Handle, vs: seq<Val>, i: nat)
    requires LocalsKeyed(h) && i < |vs| && vs[i].Mine?
    ensures var g, o := SerializeAll(h, vs).0, vs[i].obj;
      o.Id() in g.local && OneObject(o, g.local[o.Id()]) && (!Seen(h, vs, i) ==> g.local[o.Id()] == o)
  {
    var (g, rs) := SerializeAll(h, vs);
    var o := vs[i].obj;
    SerializeAllNames(h, vs);
    hide SerializeAll;
    assert Named(vs[i], rs[i]);
    var id := o.Id();
    Identity(o, g.local[id]);
    if id !in h.local {
      FirstIsFirst(vs, i, id, g.local[id]);
    }
  }

  lemma FirstIsFirst(vs: seq<Val>, i: nat, id: int, o: Obj)
    requires i < |vs| && vs[i].Mine? && Named(vs[i], Ref(false, id)) && FirstOf(vs, id, o)
    ensures OneObject(vs[i].obj, o)
    ensures (forall j :: 0 <= j < i && vs[j].Mine? ==> !OneObject(vs[i].obj, vs[j].obj)) ==> vs[i].obj == o
  {
    var k :| 0 <= k < |vs| && vs[k] == Mine(o) && Named(vs[k], Ref(false, id))
      && forall j :: 0 <= j < k ==> !Named(vs[j], Ref(false, id));
    Identity(vs[i].obj, o);
  }

  /** An object that is sent reaches the peer as a proxy; sent back, it is an object of the same identity as long as it
      stays exported, and the very object unless another view of it went before. */
  lemma SentAndReturned(h: Handle, vs: seq<Val>, i: nat, peer: Handle, later: Handle, back: Handle)
    requires LocalsKeyed(h) && i < |vs| && vs[i].Mine?
    requires forall id :: id in SerializeAll(h, vs).0.local ==>
               id in back.local && back.local[id] == SerializeAll(h, vs).0.local[id]
    ensures var there := Deserialize(peer, Ref(false, vs[i].obj.Id())).1;
      && there.Found?
      && var found := Deserialize(back, Serialize(later, there.v).1).1;
        && found.Found? && found.v.Mine? && OneObject(vs[i].obj, found.v.obj)
        && (!Seen(h, vs, i) ==> found.v.obj == vs[i].obj)
  {
    ExportedAs(h, vs, i);
    DeserializeMeans(peer, Ref(false, vs[i].obj.Id()));
    hide SerializeAll, OneObject, Seen;
  }

  // ---------------------------------------------------------------- what letting go does

  /** A release takes one reference away; the last one makes a candidate of a proxy on an open stream, and deletes it on
      a closed one; that of the handle owner, or of a proxy there is no memory to remember, closes the stream. */
  lemma ReleaseDecides(h: Handle, id: int, noMemory: bool, dying: set<int>)
    requires HandleOk(h, dying)
    requires id in h.remote && h.remote[id].refcount > 0
    requires noMemory ==> id !in h.cand
    ensures var g := Release(h, id, noMemory); var last := h.remote[id].refcount == 1;
      && (g.open <==> h.open && !(last && (h.remote[id].owner || noMemory)))
      && (id in g.remote <==> !last || g.open)
      && (g.open ==> g.cand == if last then h.cand + {id} else h.cand)
      && forall i :: Count(g, i) == Count(h, i) - if i == id then 1 else 0
  {
    hide Accounted;
    if h.remote[id].refcount == 1 && h.open && (h.remote[id].owner || noMemory) {
      ReleaseFrees(h, id, dying);
      ReleaseFrameClosing(h, id, dying);
      hide HandleOk, Drain;
    } else {
      hide Drain;
    }
  }

  /** A collection changes no count: what it deletes had none. */
  lemma CollectedCounts(h: Handle, g: Handle)
    requires g.remote == Survivors(h)
    ensures forall i :: Count(g, i) == Count(h, i)
  {
  }

  /** Every handshake from the k-th to the one before the n-th was answered, but the last if the stream closed. */
  predicate Stops(net: nat -> Outcome, k: nat, open: bool, n: nat) {
    && n >= k
    && (open <==> forall i :: k <= i < n ==> net(i) == Answered)
    && (!open ==> n > k && net(n - 1) != Answered && forall i :: k <= i < n - 1 ==> net(i) == Answered)
  }

  lemma StopsLater(net: nat -> Outcome, k: nat, open: bool, n: nat)
    requires net(k) == Answered && Stops(net, k + 1, open, n)
    ensures Stops(net, k, open, n)
  {
  }

  /** A collection asks until the first handshake that fails; that one closes the stream, and only that. */
  lemma {:induction false} CollectStopsAtFailure(h: Handle, net: nat -> Outcome, k: nat)
    requires HandleOk(h, {}) && h.open && h.lastOp != Write
    ensures var (g, n) := Collect(h, net, k); Stops(net, k, g.open, n)
    decreases h.cand
  {
    if h.cand != {} {
      var id := Least(h.cand);
      if h.remote[id].refcount != 0 {
        SkipCandidate(h, id);
        CollectSkips(h, net, k);
        hide Stops, HandleOk, Collect;
        CollectStopsAtFailure(h.(cand := h.cand - {id}), net, k);
      } else if net(k) == Answered {
        var g := Finish(h.(cand := h.cand - {id}), id, Answered);
        CollectAnswered(h, id);
        CollectFrees(h, net, k);
        hide Stops, HandleOk, Collect, Handshake, Finish;
        CollectStopsAtFailure(g, net, k + 1);
        StopsLater(net, k, Collect(g, net, k + 1).0.open, Collect(g, net, k + 1).1);
      } else {
        CollectStopsNow(h, net, k);
        hide HandleOk, Collect;
      }
    }
  }

  lemma CollectStopsNow(h: Handle, net: nat -> Outcome, k: nat)
    requires HandleOk(h, {}) && h.open && h.lastOp != Write && h.cand != {}
    requires h.remote[Least(h.cand)].refcount == 0 && net(k) != Answered
    ensures !Collect(h, net, k).0.open && Collect(h, net, k).1 == k + 1
  {
    var id := Least(h.cand);
    var h1 := h.(cand := h.cand - {id});
    BeginDying(h, id);
    CollectBroken(h1, id, net(k), net, k + 1);
    assert Collect(h, net, k) == (Finish(h1, id, net(k)), k + 1);
  }

  /** A proxy that comes in is not collected before it is released again, whatever became of it before. */
  lemma ReceivedSurvives(h: Handle, rs: seq<Ref>, id: int, net: nat -> Outcome, k: nat)
    requires HandleOk(h, {}) && h.open && (forall r :: r in rs && r.remote ==> r.id in h.local)
    requires Ref(false, id) in rs
    ensures var g := DeserializeAll(h, rs).0.(lastOp := Read); var c := Collect(g, net, k).0;
      && Count(c, id) == Count(h, id) + multiset(rs)[Ref(false, id)] >= 1
      && id in c.remote && (id in h.remote ==> c.remote[id].serial == h.remote[id].serial)
  {
    var g := DeserializeAll(h, rs).0;
    DeserializeAllMeans(h, rs);
    assert Resolves(h, rs) by {
      KnownResolve(h, rs);
    }
    DeserializeAllReceives(h, rs);
    DeserializeAllOk(h, rs, {});
    var r := g.(lastOp := Read);
    SameSerialsAccounted(g, r);
    CollectOk(r, net, k);
    CollectedCounts(r, Collect(r, net, k).0);
    assert multiset(rs)[Ref(false, id)] >= 1;
    hide HandleOk, Collect, DeserializeAll, Resolves, Received;
  }

  lemma {:induction false} KnownResolve(h: Handle, rs: seq<Ref>)
    ensures (forall r :: r in rs && r.remote ==> r.id in h.local) <==> Resolves(h, rs)
    decreases rs
  {
    if rs != [] {
      KnownResolve(h, rs[1..]);
      assert rs == [rs[0]] + rs[1..];
    }
  }
}
