/** The guards around every crossing between ASE and Lua: a recursive mutex shared by the threads, the contexts
    (`lua_State`s) waiting in `cached_contexts`, and each thread's nest of live guards. The constructors and destructors
    are cut into their single accesses to the mutex and to the vector, and the threads' accesses interleave freely. */
module LuaGuards {
  import opened Wrappers

  type Tid = nat
  type Ctx = nat

  /** A live guard. The first five are stages of a `callfromase_guard`: locked but without a context; with `luactx` read
      from the back of the vector but not popped; inside `lua_newthread`, the vector having been found empty;
      constructed; context given back but not yet unlocked. `InAse` is a `callfromlua_guard` with its `unlock_flag`. */
  datatype Frame = Entering | Peeked(ctx: Ctx) | Making | InLua(ctx: Ctx) | Leaving | InAse(unlock: bool)

  /** `created` counts the contexts made by `lua_newthread`, which are numbered from 0; `closed` are those dropped from
      the registry because they could not be cached; `fault` is set by an unlock from a thread that is not the owner and
      by `pop_back` on an empty vector. */
  datatype Engine = Engine(
    owner: Option<Tid>, count: nat, cached: seq<Ctx>, created: nat, closed: set<Ctx>,
    stacks: map<Tid, seq<Frame>>, fault: bool)

  const START := Engine(None, 0, [], 0, {}, map[], false)

  function Stack(e: Engine, t: Tid): seq<Frame> {
    if t in e.stacks then e.stacks[t] else []
  }

  function WithStack(e: Engine, t: Tid, fs: seq<Frame>): Engine {
    e.(stacks := e.stacks[t := fs])
  }

  predicate LuaSide(f: Frame) {
    !f.InAse?
  }

  /** Inside which guards another one may be constructed. In Lua and in ASE any code may run; `lua_newthread` may
      collect garbage, and a finalizer may release the last reference to a Lua object or call out itself. */
  predicate Hosts(f: Frame) {
    f.Making? || f.InLua? || f.InAse?
  }

  function Front(fs: seq<Frame>): seq<Frame>
    requires fs != []
  {
    fs[..|fs| - 1]
  }

  function Top(fs: seq<Frame>): Frame
    requires fs != []
  {
    fs[|fs| - 1]
  }

  function Retop(fs: seq<Frame>, f: Frame): seq<Frame>
    requires fs != []
  {
    Front(fs) + [f]
  }

  // ---------------------------------------------------------------- the mutex

  predicate Available(e: Engine, t: Tid) {
    e.owner == None || e.owner == Some(t)
  }

  function Lock(e: Engine, t: Tid): Engine {
    e.(owner := Some(t), count := e.count + 1)
  }

  function Unlock(e: Engine, t: Tid): Engine {
    if e.owner != Some(t) || e.count == 0 then e.(fault := true)
    else if e.count == 1 then e.(owner := None, count := 0)
    else e.(count := e.count - 1)
  }

  // ---------------------------------------------------------------- the steps

  /** Constructing a `callfromase_guard`: `Enter`, then `Peek` and `Pop`, or `Miss` and `Create`. Destroying it: `Save`,
      where `room` tells whether `push_back` found memory, then `Leave`. Constructing and destroying a
      `callfromlua_guard`: `CallOut` and `Return`. */
  datatype Action = Enter | Peek | Pop | Miss | Create | Save(room: bool) | Leave | CallOut(unlock: bool) | Return

  /** Whether the thread is at that point; `lock` blocks until the mutex is available. A `callfromlua_guard` is
      constructed by Lua code, so inside some other guard. */
  predicate Enabled(e: Engine, t: Tid, a: Action) {
    var fs := Stack(e, t);
    match a
    case Enter => (fs == [] || Hosts(Top(fs))) && Available(e, t)
    case Peek => fs != [] && Top(fs).Entering? && e.cached != []
    case Pop => fs != [] && Top(fs).Peeked?
    case Miss => fs != [] && Top(fs).Entering? && e.cached == []
    case Create => fs != [] && Top(fs).Making?
    case Save(room) => fs != [] && Top(fs).InLua?
    case Leave => fs != [] && Top(fs).Leaving?
    case CallOut(unlock) => fs != [] && Hosts(Top(fs))
    case Return => fs != [] && Top(fs).InAse? && (Top(fs).unlock ==> Available(e, t))
  }

  function Do(e: Engine, t: Tid, a: Action): Engine
    requires Enabled(e, t, a)
  {
    var fs := Stack(e, t);
    match a
    case Enter => WithStack(Lock(e, t), t, fs + [Entering])
    case Peek => WithStack(e, t, Retop(fs, Peeked(e.cached[|e.cached| - 1])))
    case Pop =>
      if e.cached == [] then e.(fault := true)
      else WithStack(e.(cached := e.cached[..|e.cached| - 1]), t, Retop(fs, InLua(Top(fs).ctx)))
    case Miss => WithStack(e, t, Retop(fs, Making))
    case Create => WithStack(e.(created := e.created + 1), t, Retop(fs, InLua(e.created)))
    case Save(room) =>
      var c := Top(fs).ctx;
      WithStack(if room then e.(cached := e.cached + [c]) else e.(closed := e.closed + {c}), t, Retop(fs, Leaving))
    case Leave => WithStack(Unlock(e, t), t, Front(fs))
    case CallOut(unlock) => WithStack(if unlock then Unlock(e, t) else e, t, fs + [InAse(unlock)])
    case Return => WithStack(if Top(fs).unlock then Lock(e, t) else e, t, Front(fs))
  }

  ghost predicate Run(e: Engine, moves: seq<(Tid, Action)>, e': Engine)
    decreases |moves|
  {
    if moves == [] then e' == e
    else Enabled(e, moves[0].0, moves[0].1) && Run(Do(e, moves[0].0, moves[0].1), moves[1..], e')
  }

  // ---------------------------------------------------------------- the invariant

  /** How often the guards of one thread have locked the mutex, less how often they unlocked it. */
  function Depth(fs: seq<Frame>): int
    decreases |fs|
  {
    if fs == [] then 0
    else Depth(Front(fs)) + (if LuaSide(Top(fs)) then 1 else if Top(fs).unlock then -1 else 0)
  }

  /** The outermost guard is a `callfromase_guard`, guards are constructed inside ones that host them, and one that
      unlocked had something to unlock. */
  predicate Nested(fs: seq<Frame>)
    decreases |fs|
  {
    || fs == []
    || (Nested(Front(fs))
        && if LuaSide(Top(fs)) then Front(fs) == [] || Hosts(Top(Front(fs)))
           else Front(fs) != [] && Hosts(Top(Front(fs))) && (Top(fs).unlock ==> Depth(Front(fs)) >= 1))
  }

  /** The mutex is held as often as its owner's guards say, and by no one else. */
  ghost predicate MutexOk(e: Engine) {
    && (e.owner == None <==> e.count == 0)
    && (e.owner.Some? ==> e.owner.value in e.stacks)
    && forall t :: t in e.stacks ==>
         Nested(e.stacks[t]) && Depth(e.stacks[t]) == if e.owner == Some(t) then e.count else 0
  }

  predicate Holds(e: Engine, t: Tid, i: nat, c: Ctx) {
    t in e.stacks && i < |e.stacks[t]| && e.stacks[t][i] == InLua(c)
  }

  ghost predicate Held(e: Engine, c: Ctx) {
    exists t: Tid, i: nat :: Holds(e, t, i, c)
  }

  predicate NoTwice(s: seq<Ctx>) {
    forall i, j :: 0 <= i < j < |s| ==> s[i] != s[j]
  }

  /** Every context created is in exactly one place: once in the vector, with one live guard, or closed. */
  ghost predicate ContextsOk(e: Engine) {
    && NoTwice(e.cached)
    && (forall c: Ctx :: c in e.cached ==> c < e.created && c !in e.closed)
    && (forall c: Ctx :: c in e.closed ==> c < e.created)
    && (forall t: Tid, i: nat, c: Ctx :: Holds(e, t, i, c) ==> c < e.created && c !in e.cached && c !in e.closed)
    && (forall t: Tid, i: nat, t': Tid, i': nat, c: Ctx ::
          Holds(e, t, i, c) && Holds(e, t', i', c) ==> t == t' && i == i')
    && (forall c: Ctx :: c < e.created ==> c in e.cached || c in e.closed || Held(e, c))
  }

  /** A context that was read from the back of the vector is still there. */
  ghost predicate PeeksOk(e: Engine) {
    forall t :: t in e.stacks && e.stacks[t] != [] && Top(e.stacks[t]).Peeked? ==>
      e.cached != [] && e.cached[|e.cached| - 1] == Top(e.stacks[t]).ctx
  }

  ghost predicate Inv(e: Engine) {
    !e.fault && MutexOk(e) && ContextsOk(e) && PeeksOk(e)
  }

  // ---------------------------------------------------------------- one thread's nest

  lemma {:induction false} DepthNested(fs: seq<Frame>)
    requires Nested(fs)
    ensures Depth(fs) >= 0
    ensures fs != [] && LuaSide(Top(fs)) ==> Depth(fs) >= 1
    decreases |fs|
  {
    if fs != [] {
      DepthNested(Front(fs));
    }
  }

  lemma Pushed(fs: seq<Frame>, f: Frame)
    ensures fs + [f] != [] && Front(fs + [f]) == fs && Top(fs + [f]) == f
  {
  }

  /** A change of stage keeps nest and depth. */
  lemma Retopped(fs: seq<Frame>, f: Frame)
    requires fs != [] && LuaSide(Top(fs)) && LuaSide(f)
    ensures Nested(fs) ==> Nested(Retop(fs, f))
    ensures Depth(Retop(fs, f)) == Depth(fs)
    ensures Retop(fs, f) != [] && Top(Retop(fs, f)) == f && Front(Retop(fs, f)) == Front(fs)
  {
    Pushed(Front(fs), f);
  }

  // ---------------------------------------------------------------- the mutex is kept

  /** Whoever is on the Lua side of its innermost guard owns the mutex. */
  lemma LuaSideOwns(e: Engine, t: Tid)
    requires MutexOk(e) && Stack(e, t) != [] && LuaSide(Top(Stack(e, t)))
    ensures e.owner == Some(t) && e.count >= 1
  {
    DepthNested(Stack(e, t));
  }

  lemma StackOk(e: Engine, t: Tid)
    requires MutexOk(e)
    ensures Nested(Stack(e, t)) && Depth(Stack(e, t)) == if e.owner == Some(t) then e.count else 0
  {
  }

  lemma MutexAfter(e: Engine, t: Tid, e': Engine, fs: seq<Frame>)
    requires MutexOk(e) && e'.stacks == e.stacks[t := fs]
    requires e'.owner == None <==> e'.count == 0
    requires e'.owner == Some(t) || e'.owner == None || (e'.owner == e.owner && e'.count == e.count)
    requires e.owner.Some? && e.owner != Some(t) ==> e'.owner == e.owner && e'.count == e.count
    requires Nested(fs) && Depth(fs) == if e'.owner == Some(t) then e'.count else 0
    ensures MutexOk(e')
  {
    forall u: Tid | u in e'.stacks
      ensures Nested(e'.stacks[u]) && Depth(e'.stacks[u]) == if e'.owner == Some(u) then e'.count else 0
    {
      if u != t {
        assert u in e.stacks;
      }
    }
  }

  /** The live `callfromase_guard`s of a nest, and its `callfromlua_guard`s that unlocked. */
  function FromAse(fs: seq<Frame>): nat
    decreases |fs|
  {
    if fs == [] then 0 else FromAse(Front(fs)) + if LuaSide(Top(fs)) then 1 else 0
  }

  function Unlocking(fs: seq<Frame>): nat
    decreases |fs|
  {
    if fs == [] then 0 else Unlocking(Front(fs)) + if Top(fs) == InAse(true) then 1 else 0
  }

  lemma {:induction false} DepthCounts(fs: seq<Frame>)
    ensures Depth(fs) == FromAse(fs) - Unlocking(fs)
    decreases |fs|
  {
    if fs != [] {
      DepthCounts(Front(fs));
    }
  }

  /** The one step that goes wrong: a `callfromlua_guard` that unlocks, constructed on a thread with as many unlocking
      ones alive as `callfromase_guard`s. */
  predicate Misplaced(e: Engine, t: Tid, a: Action) {
    a == CallOut(true) && FromAse(Stack(e, t)) == Unlocking(Stack(e, t))
  }

  /** Which is to say that the thread has no lock left, and so is inside a `callfromlua_guard`. */
  lemma MisplacedUnlocks(e: Engine, t: Tid, a: Action)
    requires MutexOk(e) && Enabled(e, t, a)
    ensures Misplaced(e, t, a) <==> a == CallOut(true) && e.owner != Some(t)
    ensures Misplaced(e, t, a) ==> Top(Stack(e, t)).InAse?
  {
    StackOk(e, t);
    DepthCounts(Stack(e, t));
    DepthNested(Stack(e, t));
  }

  lemma StepMutex(e: Engine, t: Tid, a: Action)
    requires MutexOk(e) && PeeksOk(e) && !e.fault && Enabled(e, t, a) && !Misplaced(e, t, a)
    ensures MutexOk(Do(e, t, a)) && !Do(e, t, a).fault
  {
    var fs := Stack(e, t);
    MisplacedUnlocks(e, t, a);
    StackOk(e, t);
    if fs != [] {
      DepthNested(Front(fs));
      if LuaSide(Top(fs)) {
        LuaSideOwns(e, t);
      }
    }
    match a
    case Enter =>
      Pushed(fs, Entering);
      MutexAfter(e, t, Do(e, t, a), fs + [Entering]);
    case Peek => Retopped(fs, Peeked(e.cached[|e.cached| - 1])); MutexAfter(e, t, Do(e, t, a), Do(e, t, a).stacks[t]);
    case Pop => Retopped(fs, InLua(Top(fs).ctx)); MutexAfter(e, t, Do(e, t, a), Do(e, t, a).stacks[t]);
    case Miss => Retopped(fs, Making); MutexAfter(e, t, Do(e, t, a), Do(e, t, a).stacks[t]);
    case Create => Retopped(fs, InLua(e.created)); MutexAfter(e, t, Do(e, t, a), Do(e, t, a).stacks[t]);
    case Save(room) => Retopped(fs, Leaving); MutexAfter(e, t, Do(e, t, a), Do(e, t, a).stacks[t]);
    case Leave => MutexAfter(e, t, Do(e, t, a), Front(fs));
    case CallOut(unlock) =>
      Pushed(fs, InAse(unlock));
      MutexAfter(e, t, Do(e, t, a), fs + [InAse(unlock)]);
    case Return => MutexAfter(e, t, Do(e, t, a), Front(fs));
  }

  // ---------------------------------------------------------------- the vector is kept

  /** The vector changes only under the mutex, so what a thread read from its back is there until it pops it. */
  lemma StepPeeks(e: Engine, t: Tid, a: Action)
    requires MutexOk(e) && PeeksOk(e) && Enabled(e, t, a)
    ensures PeeksOk(Do(e, t, a))
    ensures Do(e, t, a).cached != e.cached ==> e.owner == Some(t)
  {
    var fs, e' := Stack(e, t), Do(e, t, a);
    if fs != [] && LuaSide(Top(fs)) {
      LuaSideOwns(e, t);
    }
    if (a.Leave? || a.Return?) && Front(fs) != [] {
      NestedBelow(fs);
    }
    forall u: Tid | u in e'.stacks && e'.stacks[u] != [] && Top(e'.stacks[u]).Peeked?
      ensures e'.cached != [] && e'.cached[|e'.cached| - 1] == Top(e'.stacks[u]).ctx
    {
      if u != t {
        LuaSideOwns(e, u);
      }
    }
  }

  lemma NestedBelow(fs: seq<Frame>)
    requires Nested(fs) && fs != [] && Front(fs) != []
    ensures Hosts(Top(Front(fs)))
  {
  }

  // ---------------------------------------------------------------- the contexts are kept

  ghost predicate SamePlaces(e: Engine, e': Engine) {
    e'.cached == e.cached && e'.closed == e.closed && e'.created == e.created
  }

  lemma SameHolders(e: Engine, e': Engine)
    requires ContextsOk(e) && SamePlaces(e, e')
    requires forall t: Tid, i: nat, c: Ctx :: Holds(e', t, i, c) <==> Holds(e, t, i, c)
    ensures ContextsOk(e')
  {
    forall c: Ctx | c < e'.created ensures c in e'.cached || c in e'.closed || Held(e', c) {
      if Held(e, c) {
        var t: Tid, i: nat :| Holds(e, t, i, c);
        assert Holds(e', t, i, c);
      }
    }
  }

  /** A context that no one else has moves to a guard. */
  lemma Taken(e: Engine, t0: Tid, i0: nat, c0: Ctx, e': Engine)
    requires ContextsOk(e) && e'.closed == e.closed && e.created <= e'.created
    requires c0 < e'.created && c0 !in e.closed && !Held(e, c0)
    requires NoTwice(e'.cached) && c0 !in e'.cached && forall c: Ctx :: c in e'.cached ==> c in e.cached
    requires forall c: Ctx :: c < e'.created && c != c0 ==> c < e.created && (c in e.cached ==> c in e'.cached)
    requires forall t: Tid, i: nat, c: Ctx ::
      Holds(e', t, i, c) <==> Holds(e, t, i, c) || (t == t0 && i == i0 && c == c0)
    ensures ContextsOk(e')
  {
    assert Holds(e', t0, i0, c0);
    forall t: Tid, i: nat | Holds(e, t, i, c0) ensures false {
      assert Held(e, c0);
    }
    forall c: Ctx | c < e'.created ensures c in e'.cached || c in e'.closed || Held(e', c) {
      if c != c0 && Held(e, c) {
        var t: Tid, i: nat :| Holds(e, t, i, c);
        assert Holds(e', t, i, c);
      }
    }
  }

  lemma PoppedVector(s: seq<Ctx>)
    requires s != [] && NoTwice(s)
    ensures var c0, s' := s[|s| - 1], s[..|s| - 1];
      NoTwice(s') && c0 !in s' && c0 in s && forall c: Ctx :: c in s <==> c in s' || c == c0
  {
    var c0, s' := s[|s| - 1], s[..|s| - 1];
    assert s == s' + [c0];
  }

  /** A guard gives its context back to the vector, or has it closed. */
  lemma GivenBack(e: Engine, t0: Tid, i0: nat, c0: Ctx, e': Engine)
    requires ContextsOk(e) && Holds(e, t0, i0, c0) && e'.created == e.created
    requires || (e'.cached == e.cached + [c0] && e'.closed == e.closed)
             || (e'.cached == e.cached && e'.closed == e.closed + {c0})
    requires forall t: Tid, i: nat, c: Ctx :: Holds(e', t, i, c) <==> Holds(e, t, i, c) && !(t == t0 && i == i0)
    ensures ContextsOk(e')
  {
    assert forall c: Ctx :: c in e'.cached ==> c in e.cached || c == c0;
    forall c: Ctx | c < e'.created ensures c in e'.cached || c in e'.closed || Held(e', c) {
      if c == c0 {
        assert c0 in e'.closed || e'.cached[|e'.cached| - 1] == c0;
      } else if Held(e, c) {
        var t: Tid, i: nat :| Holds(e, t, i, c);
        assert Holds(e', t, i, c);
      } else if c in e.cached {
        var k :| 0 <= k < |e.cached| && e.cached[k] == c;
        assert e'.cached[k] == c;
      }
    }
  }

  predicate At(fs: seq<Frame>, i: nat, c: Ctx) {
    i < |fs| && fs[i] == InLua(c)
  }

  lemma HoldsAfter(e: Engine, t: Tid, fs: seq<Frame>, e': Engine)
    requires e'.stacks == e.stacks[t := fs]
    ensures forall u: Tid, i: nat, c: Ctx :: Holds(e', u, i, c) <==> if u == t then At(fs, i, c) else Holds(e, u, i, c)
    ensures forall i: nat, c: Ctx :: Holds(e, t, i, c) <==> At(Stack(e, t), i, c)
  {
  }

  /** Changes at the top of a nest that hold no context before or after. */
  lemma NoContextMoves(e: Engine, t: Tid, fs: seq<Frame>, e': Engine)
    requires ContextsOk(e) && SamePlaces(e, e') && e'.stacks == e.stacks[t := fs]
    requires forall i: nat, c: Ctx :: At(fs, i, c) <==> At(Stack(e, t), i, c)
    ensures ContextsOk(e')
  {
    HoldsAfter(e, t, fs, e');
    SameHolders(e, e');
  }

  lemma StepContexts(e: Engine, t: Tid, a: Action)
    requires ContextsOk(e) && PeeksOk(e) && Enabled(e, t, a)
    ensures ContextsOk(Do(e, t, a))
  {
    var fs, e' := Stack(e, t), Do(e, t, a);
    if a.Pop? || a.Create? || a.Save? {
      StepMoves(e, t, a);
    } else {
      NoContextMoves(e, t, e'.stacks[t], e');
    }
  }

  lemma StepMoves(e: Engine, t: Tid, a: Action)
    requires ContextsOk(e) && PeeksOk(e) && Enabled(e, t, a) && (a.Pop? || a.Create? || a.Save?)
    ensures ContextsOk(Do(e, t, a))
  {
    var fs, e' := Stack(e, t), Do(e, t, a);
    HoldsAfter(e, t, e'.stacks[t], e');
    if a.Pop? {
      PoppedVector(e.cached);
      Taken(e, t, |fs| - 1, Top(fs).ctx, e');
    } else if a.Create? {
      Taken(e, t, |fs| - 1, e.created, e');
    } else {
      assert Holds(e, t, |fs| - 1, Top(fs).ctx);
      GivenBack(e, t, |fs| - 1, Top(fs).ctx, e');
    }
  }

  // ---------------------------------------------------------------- over every run

  lemma StepKeeps(e: Engine, t: Tid, a: Action)
    requires Inv(e) && Enabled(e, t, a) && !Misplaced(e, t, a)
    ensures Inv(Do(e, t, a))
  {
    StepMutex(e, t, a);
    StepPeeks(e, t, a);
    StepContexts(e, t, a);
  }

  /** A fault stays on record. */
  lemma {:induction false} FaultStays(e: Engine, moves: seq<(Tid, Action)>, e': Engine)
    requires e.fault && Run(e, moves, e')
    ensures e'.fault
    decreases |moves|
  {
    if moves != [] {
      FaultStays(Do(e, moves[0].0, moves[0].1), moves[1..], e');
    }
  }

  lemma MisplacedFaults(e: Engine, t: Tid, a: Action)
    requires MutexOk(e) && Enabled(e, t, a) && Misplaced(e, t, a)
    ensures Do(e, t, a).fault
  {
    MisplacedUnlocks(e, t, a);
  }

  lemma {:induction false} RunKeeps(e: Engine, moves: seq<(Tid, Action)>, e': Engine)
    requires Inv(e) && Run(e, moves, e')
    ensures e'.fault || Inv(e')
    decreases |moves|
  {
    if moves != [] {
      var (t, a) := moves[0];
      if Misplaced(e, t, a) {
        MisplacedFaults(e, t, a);
        FaultStays(Do(e, t, a), moves[1..], e');
      } else {
        StepKeeps(e, t, a);
        RunKeeps(Do(e, t, a), moves[1..], e');
      }
    }
  }

  ghost predicate Reachable(e: Engine) {
    exists moves :: Run(START, moves, e)
  }

  lemma ReachableOk(e: Engine)
    requires Reachable(e) && !e.fault
    ensures Inv(e)
  {
    var moves :| Run(START, moves, e);
    RunKeeps(START, moves, e);
  }

  /** A thread on the Lua side of its innermost guard owns the mutex, so no second thread is. */
  lemma OneThreadInLua(e: Engine, t: Tid)
    requires Reachable(e) && !e.fault && Stack(e, t) != [] && LuaSide(Top(Stack(e, t)))
    ensures e.owner == Some(t)
    ensures forall u: Tid :: u != t && Stack(e, u) != [] ==> Top(Stack(e, u)).InAse?
  {
    ReachableOk(e);
    LuaSideOwns(e, t);
    forall u: Tid | u != t && Stack(e, u) != [] ensures Top(Stack(e, u)).InAse? {
      if LuaSide(Top(Stack(e, u))) {
        LuaSideOwns(e, u);
      }
    }
  }

  predicate Unlocks(a: Action) {
    a.Leave? || (a.CallOut? && a.unlock)
  }

  predicate UsesVector(a: Action) {
    a.Peek? || a.Pop? || a.Miss? || a.Save?
  }

  /** A step goes wrong exactly when it is a call-out that unlocks where the guards of its thread have already unlocked
      as often as locked; in every other one the unlocks and the accesses to `cached_contexts` are made by the thread
      that owns the mutex, and `pop_back` removes the very context that was read. */
  lemma OnlyTheOwner(e: Engine, t: Tid, a: Action)
    requires Reachable(e) && !e.fault && Enabled(e, t, a)
    ensures Do(e, t, a).fault <==> a == CallOut(true) && FromAse(Stack(e, t)) == Unlocking(Stack(e, t))
    ensures Unlocks(a) && !Misplaced(e, t, a) ==> e.owner == Some(t)
    ensures UsesVector(a) ==> e.owner == Some(t)
    ensures a.Pop? ==> e.cached == Do(e, t, a).cached + [Top(Stack(e, t)).ctx]
  {
    ReachableOk(e);
    if a.Pop? {
      PopsPeeked(e, t);
    }
    hide MutexOk, PeeksOk, ContextsOk, Do, Enabled, Reachable;
    if Misplaced(e, t, a) {
      MisplacedFaults(e, t, a);
    } else {
      StepMutex(e, t, a);
    }
    OwnersUse(e, t, a);
  }

  lemma PopsPeeked(e: Engine, t: Tid)
    requires PeeksOk(e) && Enabled(e, t, Pop)
    ensures e.cached == Do(e, t, Pop).cached + [Top(Stack(e, t)).ctx]
  {
  }

  lemma OwnersUse(e: Engine, t: Tid, a: Action)
    requires MutexOk(e) && Enabled(e, t, a)
    ensures (Unlocks(a) && !Misplaced(e, t, a)) || UsesVector(a) ==> e.owner == Some(t)
  {
    MisplacedUnlocks(e, t, a);
    if (Unlocks(a) || UsesVector(a)) && LuaSide(Top(Stack(e, t))) {
      LuaSideOwns(e, t);
    }
  }

  /** Every context created is in one place: cached, once; or closed; or held by one live guard. */
  lemma EachContextOnce(e: Engine, c: Ctx)
    requires Reachable(e) && !e.fault && c < e.created
    ensures (if c in e.cached then 1 else 0) + (if c in e.closed then 1 else 0) + (if Held(e, c) then 1 else 0) == 1
    ensures forall i, j :: 0 <= i < j < |e.cached| && e.cached[i] == c ==> e.cached[j] != c
    ensures forall t: Tid, i: nat, t': Tid, i': nat :: Holds(e, t, i, c) && Holds(e, t', i', c) ==> t == t' && i == i'
  {
    ReachableOk(e);
  }

  /** When all guards are gone the mutex is free and no context is lost. */
  lemma QuietIsClean(e: Engine)
    requires Reachable(e) && !e.fault && forall t: Tid :: Stack(e, t) == []
    ensures e.owner == None && e.count == 0
    ensures forall c: Ctx :: c < e.created ==> (c in e.cached) != (c in e.closed)
  {
    ReachableOk(e);
    if e.owner.Some? {
      assert Stack(e, e.owner.value) == [];
      StackOk(e, e.owner.value);
    }
    forall c: Ctx | c < e.created ensures (c in e.cached) != (c in e.closed) {
      if Held(e, c) {
        var t: Tid, i: nat :| Holds(e, t, i, c);
        HolderIsLive(e, t, i, c);
        assert false;
      }
    }
  }

  lemma HolderIsLive(e: Engine, t: Tid, i: nat, c: Ctx)
    requires Holds(e, t, i, c)
    ensures Stack(e, t) != []
  {
  }

  // ---------------------------------------------------------------- letting other threads in

  /** Every `callfromlua_guard` was constructed directly inside a `callfromase_guard`. */
  predicate OutOfLua(fs: seq<Frame>) {
    forall i :: 0 < i < |fs| && fs[i].InAse? ==> LuaSide(fs[i - 1])
  }

  /** Directly inside every `callfromase_guard` but the innermost guard is a `callfromlua_guard` that unlocked. */
  predicate AllLetGo(fs: seq<Frame>) {
    forall i :: 0 <= i < |fs| - 1 && LuaSide(fs[i]) ==> fs[i + 1] == InAse(true)
  }

  lemma {:induction false} LetGoDepth(fs: seq<Frame>)
    requires Nested(fs) && OutOfLua(fs) && fs != []
    ensures LuaSide(Top(fs)) ==> (AllLetGo(fs) <==> Depth(fs) == 1)
    ensures Top(fs).InAse? ==> (AllLetGo(fs) <==> Depth(fs) == 0)
    decreases |fs|
  {
    var g := Front(fs);
    assert forall i :: 0 <= i < |g| ==> fs[i] == g[i];
    if g != [] {
      LetGoDepth(g);
      DepthNested(g);
      LetGoFront(fs);
    }
  }

  lemma LetGoFront(fs: seq<Frame>)
    requires |fs| >= 2
    ensures AllLetGo(fs) <==> AllLetGo(Front(fs)) && (LuaSide(Top(Front(fs))) ==> Top(fs) == InAse(true))
  {
    var g := Front(fs);
    assert forall i :: 0 <= i < |g| ==> fs[i] == g[i];
    if AllLetGo(g) && (LuaSide(Top(g)) ==> Top(fs) == InAse(true)) {
      forall i | 0 <= i < |fs| - 1 && LuaSide(fs[i]) ensures fs[i + 1] == InAse(true) {
        if i < |g| - 1 {
          assert g[i + 1] == InAse(true);
        }
      }
    }
  }

  /** The mutex being recursive, a call out of Lua that unlocks frees it exactly when this thread has as many unlocking
      call-outs around it as guards into Lua but one; with fewer it keeps it, with one more the unlock fails. If all
      call-outs were made directly from Lua, it frees it exactly when an unlocking one stands directly inside each of
      the guards further out. */
  lemma CallOutReleases(e: Engine, t: Tid)
    requires Reachable(e) && !e.fault && Enabled(e, t, CallOut(true))
    ensures var fs, e' := Stack(e, t), Do(e, t, CallOut(true));
      && FromAse(fs) >= Unlocking(fs)
      && (FromAse(fs) == Unlocking(fs) <==> e'.fault)
      && (FromAse(fs) == Unlocking(fs) + 1 <==> !e'.fault && e'.owner == None)
      && (FromAse(fs) > Unlocking(fs) + 1 <==> !e'.fault && e'.owner == Some(t))
      && (LuaSide(Top(fs)) && OutOfLua(fs) ==> !e'.fault && (e'.owner == None <==> AllLetGo(fs)))
  {
    ReachableOk(e);
    var fs := Stack(e, t);
    StackOk(e, t);
    DepthCounts(fs);
    DepthNested(fs);
    if LuaSide(Top(fs)) && OutOfLua(fs) {
      LetGoDepth(fs);
    }
  }

  lemma {:induction false} RunsOn(e: Engine, moves: seq<(Tid, Action)>, e1: Engine, t: Tid, a: Action)
    requires Run(e, moves, e1) && Enabled(e1, t, a)
    ensures Run(e, moves + [(t, a)], Do(e1, t, a))
    decreases |moves|
  {
    hide Do, Enabled;
    var more := moves + [(t, a)];
    if moves == [] {
      assert more[1..] == [];
    } else {
      RunsOn(Do(e, moves[0].0, moves[0].1), moves[1..], e1, t, a);
      assert more[1..] == moves[1..] + [(t, a)];
    }
  }

  lemma ReachableStep(e: Engine, t: Tid, a: Action)
    requires Reachable(e) && Enabled(e, t, a)
    ensures Reachable(Do(e, t, a))
  {
    var moves :| Run(START, moves, e);
    RunsOn(START, moves, e, t, a);
  }

  /** The state of one thread alone whose nest is `fs`. */
  function Alone(count: nat, created: nat, fs: seq<Frame>): Engine {
    Engine(if count == 0 then None else Some(0), count, [], created, {}, map[0 := fs], false)
  }

  lemma AloneEnters(count: nat, created: nat, fs: seq<Frame>)
    requires fs == [] || Hosts(Top(fs))
    ensures Enabled(Alone(count, created, fs), 0, Enter)
    ensures Do(Alone(count, created, fs), 0, Enter) == Alone(count + 1, created, fs + [Entering])
  {
  }

  lemma AloneMisses(count: nat, created: nat, fs: seq<Frame>)
    ensures Enabled(Alone(count, created, fs + [Entering]), 0, Miss)
    ensures Do(Alone(count, created, fs + [Entering]), 0, Miss) == Alone(count, created, fs + [Making])
  {
    Pushed(fs, Entering);
  }

  lemma AloneCreates(count: nat, created: nat, fs: seq<Frame>)
    ensures Enabled(Alone(count, created, fs + [Making]), 0, Create)
    ensures Do(Alone(count, created, fs + [Making]), 0, Create) == Alone(count, created + 1, fs + [InLua(created)])
  {
    Pushed(fs, Making);
  }

  /** One more guard into Lua. */
  lemma AloneGoesIn(count: nat, created: nat, fs: seq<Frame>)
    requires Reachable(Alone(count, created, fs + [Entering]))
    ensures Reachable(Alone(count, created + 1, fs + [InLua(created)]))
  {
    hide Do, Enabled, Alone;
    AloneMisses(count, created, fs);
    ReachableStep(Alone(count, created, fs + [Entering]), 0, Miss);
    AloneCreates(count, created, fs);
    ReachableStep(Alone(count, created, fs + [Making]), 0, Create);
  }

  lemma FirstGuard()
    ensures Reachable(Alone(1, 1, [InLua(0)]))
  {
    assert Run(START, [], START);
    ReachableStep(START, 0, Enter);
    assert [] + [Entering] == [Entering] && [] + [InLua(0)] == [InLua(0)];
    assert Do(START, 0, Enter).stacks == map[0 := [Entering]];
    assert Do(START, 0, Enter) == Alone(1, 0, [] + [Entering]);
    AloneGoesIn(1, 0, []);
  }

  /** No live call-out is in the way, and still nothing is let in: Lua calls, by its number, a method of an object that
      is not multithreaded, for which no guard is made; that calls a Lua function, which reads a property of one that
      is. */
  lemma GuardInsideGuard() returns (e: Engine)
    ensures Reachable(e) && !e.fault && Stack(e, 0) == [InLua(0), InLua(1)] && Enabled(e, 0, CallOut(true))
    ensures Do(e, 0, CallOut(true)).owner == Some(0)
  {
    FirstGuard();
    AloneEnters(1, 1, [InLua(0)]);
    ReachableStep(Alone(1, 1, [InLua(0)]), 0, Enter);
    AloneGoesIn(2, 1, [InLua(0)]);
    assert [InLua(0)] + [InLua(1)] == [InLua(0), InLua(1)];
    e := Alone(2, 2, [InLua(0), InLua(1)]);
  }

  /** The misplaced step can come up: a call-out that unlocked pushes its result while its guard is alive, the collector
      runs a finalizer written in Lua, and that calls out to a multithreaded object. */
  lemma MisplacedHappens() returns (e: Engine)
    ensures Reachable(e) && !e.fault && Stack(e, 0) == [InLua(0), InAse(true)]
    ensures Enabled(e, 0, CallOut(true)) && Misplaced(e, 0, CallOut(true)) && Do(e, 0, CallOut(true)).fault
  {
    FirstGuard();
    var e0 := Alone(1, 1, [InLua(0)]);
    e := Alone(0, 1, [InLua(0), InAse(true)]);
    assert [InLua(0)] + [InAse(true)] == [InLua(0), InAse(true)];
    assert Do(e0, 0, CallOut(true)) == e;
    ReachableStep(e0, 0, CallOut(true));
  }

  /** A thread that waits for the mutex waits for a thread that does not. */
  lemma SomeoneMoves(e: Engine, t: Tid)
    requires Reachable(e) && !e.fault
    ensures var u := if e.owner.Some? then e.owner.value else t; exists a :: Enabled(e, u, a)
  {
    ReachableOk(e);
    var u := if e.owner.Some? then e.owner.value else t;
    var fs := Stack(e, u);
    StackOk(e, u);
    if fs == [] {
      assert Enabled(e, u, Enter);
    } else {
      match Top(fs)
      case Entering => assert Enabled(e, u, if e.cached == [] then Miss else Peek);
      case Making => assert Enabled(e, u, Create);
      case Peeked(c) => assert Enabled(e, u, Pop);
      case InLua(c) => assert Enabled(e, u, CallOut(false));
      case Leaving => assert Enabled(e, u, Leave);
      case InAse(unlock) => assert Enabled(e, u, Return);
    }
  }

  lemma FirstThread()
    ensures Reachable(Alone(1, 0, [Making]))
  {
    assert Run(START, [], START);
    ReachableStep(START, 0, Enter);
    assert [] + [Entering] == [Entering] && [] + [Making] == [Making];
    assert Do(START, 0, Enter).stacks == map[0 := [Entering]];
    assert Do(START, 0, Enter) == Alone(1, 0, [] + [Entering]);
    AloneMisses(1, 0, []);
    hide Do, Enabled;
    ReachableStep(Alone(1, 0, [Entering]), 0, Miss);
  }

  lemma FinalizerCallsOut()
    ensures Reachable(Alone(0, 0, [Making, InAse(true)]))
  {
    FirstThread();
    var e0 := Alone(1, 0, [Making]);
    assert [Making] + [InAse(true)] == [Making, InAse(true)];
    assert Do(e0, 0, CallOut(true)) == Alone(0, 0, [Making, InAse(true)]);
    ReachableStep(e0, 0, CallOut(true));
    hide Reachable;
  }

  /** A finalizer that runs inside `lua_newthread` may call out, and let another thread in while the context is still
      being made. */
  lemma FinalizerLetsIn() returns (e: Engine)
    ensures Reachable(e) && !e.fault && Stack(e, 0) == [Making, InAse(true)] && Stack(e, 1) == [Entering]
    ensures e.owner == Some(1) && !Enabled(e, 0, Return)
  {
    FinalizerCallsOut();
    var e0 := Alone(0, 0, [Making, InAse(true)]);
    ReachableStep(e0, 1, Enter);
    e := Do(e0, 1, Enter);
    assert [] + [Entering] == [Entering];
    hide Reachable, Run;
  }

  lemma {:induction false} ClosedStays(e: Engine, moves: seq<(Tid, Action)>, e': Engine)
    requires Run(e, moves, e')
    ensures e.closed <= e'.closed
    decreases |moves|
  {
    if moves != [] {
      ClosedStays(Do(e, moves[0].0, moves[0].1), moves[1..], e');
    }
  }

  lemma {:induction false} RunAppend(e: Engine, moves: seq<(Tid, Action)>, e1: Engine, more: seq<(Tid, Action)>,
                                     e': Engine)
    requires Run(e, moves, e1) && Run(e1, more, e')
    ensures Run(e, moves + more, e')
    decreases |moves|
  {
    hide Do, Enabled;
    if moves == [] {
      assert moves + more == more;
    } else {
      RunAppend(Do(e, moves[0].0, moves[0].1), moves[1..], e1, more, e');
      assert (moves + more)[1..] == moves[1..] + more;
    }
  }

  /** A context there is no memory to cache is closed, and whatever the threads do from then on, no guard gets it
      again. */
  lemma NotCachedIsClosed(e: Engine, t: Tid, moves: seq<(Tid, Action)>, e': Engine)
    requires Reachable(e) && !e.fault && Enabled(e, t, Save(false))
    requires Run(Do(e, t, Save(false)), moves, e') && !e'.fault
    ensures var c, e1 := Top(Stack(e, t)).ctx, Do(e, t, Save(false));
      e1.cached == e.cached && c in e1.closed && c in e'.closed && c !in e'.cached && !Held(e', c)
  {
    var c, e1 := Top(Stack(e, t)).ctx, Do(e, t, Save(false));
    ReachableStep(e, t, Save(false));
    ClosedStays(e1, moves, e');
    var before :| Run(START, before, e1);
    RunAppend(START, before, e1, moves, e');
    ReachableOk(e');
    hide Do, Run, Enabled, MutexOk, PeeksOk;
  }
}
