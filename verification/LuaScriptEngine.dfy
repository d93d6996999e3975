/** One thread's guards as the source writes them, on the engine object that all threads share, when no other thread
    comes in between: each constructor and destructor is the steps of `LuaGuards` it is cut into. */
module LuaScriptEngine {
  import opened LuaGuards
  import opened Wrappers

  /** `callfromase_guard::callfromase_guard`. */
  function EnterLua(e: Engine, t: Tid): Engine
    requires Enabled(e, t, Enter)
  {
    var e1 := Do(e, t, Enter);
    if e.cached != [] then Do(Do(e1, t, Peek), t, Pop) else Do(Do(e1, t, Miss), t, Create)
  }

  /** `callfromase_guard::~callfromase_guard`. */
  function LeaveLua(e: Engine, t: Tid, room: bool): Engine
    requires Enabled(e, t, Save(room))
  {
    Do(Do(e, t, Save(room)), t, Leave)
  }

  lemma RetopTwice(fs: seq<Frame>, f: Frame, g: Frame)
    ensures fs + [f] != [] && Retop(fs + [f], g) == fs + [g] && Front(fs + [g]) == fs && Top(fs + [g]) == g
  {
  }

  lemma StackAfter(e: Engine, t: Tid, fs: seq<Frame>)
    ensures Stack(WithStack(e, t, fs), t) == fs
    ensures forall gs :: WithStack(WithStack(e, t, fs), t, gs) == WithStack(e, t, gs)
  {
    forall gs: seq<Frame> ensures WithStack(WithStack(e, t, fs), t, gs) == WithStack(e, t, gs) {
      assert e.stacks[t := fs][t := gs] == e.stacks[t := gs];
    }
  }

  /** The mutex once more and a guard that holds `c`. */
  function Guarded(e: Engine, t: Tid, c: Ctx): Engine {
    WithStack(Lock(e, t), t, Stack(e, t) + [InLua(c)])
  }

  lemma ReusesContext(e: Engine, t: Tid)
    requires Enabled(e, t, Enter) && e.cached != []
    ensures EnterLua(e, t) == Guarded(e.(cached := e.cached[..|e.cached| - 1]), t, e.cached[|e.cached| - 1])
  {
    var fs, l, c := Stack(e, t), Lock(e, t), e.cached[|e.cached| - 1];
    var e1 := Do(e, t, Enter);
    StackAfter(l, t, fs + [Entering]);
    RetopTwice(fs, Entering, Peeked(c));
    var e2 := Do(e1, t, Peek);
    assert e2 == WithStack(l, t, fs + [Peeked(c)]);
    StackAfter(l, t, fs + [Peeked(c)]);
    RetopTwice(fs, Peeked(c), InLua(c));
    var l' := l.(cached := e.cached[..|e.cached| - 1]);
    StackAfter(l', t, fs + [Peeked(c)]);
    assert Do(e2, t, Pop) == WithStack(WithStack(l', t, fs + [Peeked(c)]), t, fs + [InLua(c)]);
  }

  lemma MakesContext(e: Engine, t: Tid)
    requires Enabled(e, t, Enter) && e.cached == []
    ensures EnterLua(e, t) == Guarded(e.(created := e.created + 1), t, e.created)
  {
    var fs, l, c := Stack(e, t), Lock(e, t), e.created;
    var e1 := Do(e, t, Enter);
    StackAfter(l, t, fs + [Entering]);
    RetopTwice(fs, Entering, Making);
    var e2 := Do(e1, t, Miss);
    assert e2 == WithStack(l, t, fs + [Making]);
    StackAfter(l, t, fs + [Making]);
    RetopTwice(fs, Making, InLua(c));
    var l' := l.(created := c + 1);
    StackAfter(l', t, fs + [Making]);
    assert Do(e2, t, Create) == WithStack(WithStack(l', t, fs + [Making]), t, fs + [InLua(c)]);
  }

  /** What the constructor comes to: the mutex once more, and the context from the back of the vector or a new one. */
  function Entered(e: Engine, t: Tid): Engine {
    if e.cached != [] then Guarded(e.(cached := e.cached[..|e.cached| - 1]), t, e.cached[|e.cached| - 1])
    else Guarded(e.(created := e.created + 1), t, e.created)
  }

  lemma EnterLuaIs(e: Engine, t: Tid)
    requires Enabled(e, t, Enter)
    ensures EnterLua(e, t) == Entered(e, t)
  {
    if e.cached != [] {
      ReusesContext(e, t);
    } else {
      MakesContext(e, t);
    }
  }

  lemma LeaveLuaIs(e: Engine, t: Tid, room: bool)
    requires Enabled(e, t, Save(room))
    ensures var fs := Stack(e, t); var c := Top(fs).ctx;
      var s := if room then e.(cached := e.cached + [c]) else e.(closed := e.closed + {c});
      LeaveLua(e, t, room) == WithStack(Unlock(s, t), t, Front(fs))
  {
    var fs := Stack(e, t);
    var s := if room then e.(cached := e.cached + [Top(fs).ctx]) else e.(closed := e.closed + {Top(fs).ctx});
    StackAfter(s, t, Retop(fs, Leaving));
    Pushed(Front(fs), Leaving);
    assert Unlock(WithStack(s, t, Retop(fs, Leaving)), t) == WithStack(Unlock(s, t), t, Retop(fs, Leaving));
    StackAfter(Unlock(s, t), t, Retop(fs, Leaving));
  }

  lemma GuardedLeaves(e: Engine, t: Tid, c: Ctx)
    requires e.owner == None <==> e.count == 0
    requires Available(e, t)
    ensures var e1 := Guarded(e, t, c);
      Enabled(e1, t, Save(true)) && LeaveLua(e1, t, true) == WithStack(e.(cached := e.cached + [c]), t, Stack(e, t))
  {
    var fs, e1 := Stack(e, t), Guarded(e, t, c);
    StackAfter(Lock(e, t), t, fs + [InLua(c)]);
    Pushed(fs, InLua(c));
    LeaveLuaIs(e1, t, true);
    assert e1.stacks[t := fs] == e.stacks[t := fs];
  }

  /** A guard that comes and goes leaves the mutex as it was, and the vector too unless it had to make a context, which
      it leaves there for the next one. */
  lemma GuardComesAndGoes(e: Engine, t: Tid)
    requires e.owner == None <==> e.count == 0
    requires Enabled(e, t, Enter)
    ensures var e1 := EnterLua(e, t);
      && Enabled(e1, t, Save(true))
      && LeaveLua(e1, t, true) ==
        if e.cached != [] then WithStack(e, t, Stack(e, t))
        else WithStack(e.(created := e.created + 1, cached := [e.created]), t, Stack(e, t))
  {
    hide EnterLua, LeaveLua, Guarded;
    EnterLuaIs(e, t);
    if e.cached != [] {
      var c, rest := e.cached[|e.cached| - 1], e.cached[..|e.cached| - 1];
      GuardedLeaves(e.(cached := rest), t, c);
      assert rest + [c] == e.cached;
    } else {
      GuardedLeaves(e.(created := e.created + 1), t, e.created);
      assert e.cached + [e.created] == [e.created];
    }
  }

  /** A call-out that comes back leaves everything as it was, unless it is the misplaced one. */
  lemma CallOutComesBack(e: Engine, t: Tid, unlock: bool)
    requires Inv(e) && Enabled(e, t, CallOut(unlock))
    ensures var e1 := Do(e, t, CallOut(unlock));
      Enabled(e1, t, Return) && Do(e1, t, Return) == e <==> !Misplaced(e, t, CallOut(unlock))
  {
    var fs, e1 := Stack(e, t), Do(e, t, CallOut(unlock));
    Pushed(fs, InAse(unlock));
    MisplacedUnlocks(e, t, CallOut(unlock));
    StackOk(e, t);
    assert e1.stacks[t := fs] == e.stacks;
  }

  class ScriptEngine {
    var owner: Option<Tid>
    var count: nat
    var cached: seq<Ctx>
    var created: nat
    var closed: set<Ctx>
    var stacks: map<Tid, seq<Frame>>
    var fault: bool

    ghost function State(): Engine
      reads this
    {
      Engine(owner, count, cached, created, closed, stacks, fault)
    }

    constructor ()
      ensures State() == START && Inv(State())
    {
      owner, count, cached, created, closed, stacks, fault := None, 0, [], 0, {}, map[], false;
    }

    function Nest(t: Tid): seq<Frame>
      reads this
    {
      if t in stacks then stacks[t] else []
    }

    /** `ase_recursive_mutex::lock`, which returns when the mutex is available. */
    method MutexLock(t: Tid)
      requires Available(State(), t)
      modifies this`owner, this`count
      ensures State() == Lock(old(State()), t)
    {
      owner, count := Some(t), count + 1;
    }

    method MutexUnlock(t: Tid)
      modifies this`owner, this`count, this`fault
      ensures State() == Unlock(old(State()), t)
    {
      if owner != Some(t) || count == 0 {
        fault := true;
      } else {
        count := count - 1;
        if count == 0 {
          owner := None;
        }
      }
    }

    /** The new state is that of the steps, by `EnterLuaIs`. */
    method ConstructCallFromAse(t: Tid) returns (luactx: Ctx)
      requires Enabled(State(), t, Enter)
      modifies this
      ensures State() == Entered(old(State()), t) && Top(Nest(t)) == InLua(luactx)
    {
      MutexLock(t);
      if |cached| != 0 {
        luactx := cached[|cached| - 1];
        cached := cached[..|cached| - 1];
      } else {
        luactx := created;
        created := created + 1;
      }
      stacks := stacks[t := Nest(t) + [InLua(luactx)]];
    }

    /** `room` tells whether `push_back` succeeds; if it throws, the context is dropped from the registry. */
    method DestroyCallFromAse(t: Tid, room: bool)
      requires Enabled(State(), t, Save(room))
      modifies this
      ensures State() == LeaveLua(old(State()), t, room)
    {
      LeaveLuaIs(State(), t, room);
      var nest := Nest(t);
      var luactx := Top(nest).ctx;
      var saved := false;
      if room {
        cached := cached + [luactx];
        saved := true;
      }
      if !saved {
        closed := closed + {luactx};
      }
      MutexUnlock(t);
      stacks := stacks[t := Front(nest)];
    }

    method ConstructCallFromLua(t: Tid, unlock: bool)
      requires Enabled(State(), t, CallOut(unlock))
      modifies this
      ensures State() == Do(old(State()), t, CallOut(unlock))
    {
      if unlock {
        MutexUnlock(t);
      }
      stacks := stacks[t := Nest(t) + [InAse(unlock)]];
    }

    method DestroyCallFromLua(t: Tid)
      requires Enabled(State(), t, Return)
      modifies this
      ensures State() == Do(old(State()), t, Return)
    {
      var nest := Nest(t);
      if Top(nest).unlock {
        MutexLock(t);
      }
      stacks := stacks[t := Front(nest)];
    }
  }
}
