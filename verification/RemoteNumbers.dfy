/** Requests are told apart by their numbers: the numbers of the open calls are all different, so the call an answer
    names is one call only. */
module RemoteNumbers {
  import opened RemoteHandle
  import opened RemoteSystem
  import opened RemoteSafety
  import opened RemoteCoupling
  import opened RemoteTheorems

  predicate HasNumber(f: Frame) {
    f.Loop? || f.Exec? || f.Dying?
  }

  /** The numbers on a stack increase towards its top and are below `n`. */
  predicate Numbered(st: seq<Frame>, n: nat)
    decreases |st|
  {
    || st == []
    || (if HasNumber(Top(st)) then Top(st).tag < n && Numbered(Pop(st), Top(st).tag) else Numbered(Pop(st), n))
  }

  /** And a request on its way is numbered above them. */
  predicate PartyNumbered(p: Party, n: nat) {
    && Numbered(p.stack, n)
    && (p.h.open && p.inbox != [] && p.inbox[0].Request? ==>
          p.inbox[0].tag < n && Numbered(p.stack, p.inbox[0].tag))
  }

  lemma {:induction false} NumberedBelow(st: seq<Frame>, n: nat, m: nat)
    requires Numbered(st, n) && n <= m
    ensures Numbered(st, m) && Numbered(Pop(st), m)
    decreases |st|
  {
    if st != [] {
      NumberedBelow(Pop(st), if HasNumber(Top(st)) then Top(st).tag else n, m);
    }
  }

  lemma NumberedPush(st: seq<Frame>, f: Frame, n: nat)
    requires if HasNumber(f) then f.tag < n && Numbered(st, f.tag) else Numbered(st, n)
    ensures Numbered(st + [f], n)
  {
    PopPush(st, f);
  }

  // ---------------------------------------------------------------- steps

  lemma ReceiveNumbered(p: Party, answered: bool, n: nat)
    requires PartyNumbered(p, n)
    ensures var r := DoReceive(p, answered); r.Next? ==> Numbered(r.p.stack, n)
    ensures var r := DoReceive(p, answered); r.Next? ==> forall i :: 0 <= i < |r.out| ==> !r.out[i].Request?
  {
    if Reading(p.stack) && p.h.open && p.inbox != [] {
      NumberedBelow(p.stack, n, n);
      if p.inbox[0].Request? {
        NumberedPush(p.stack, Exec(p.inbox[0].tag), n);
      }
    }
  }

  lemma SendNumbered(p: Party, tag: nat, sent: bool)
    requires Numbered(p.stack, tag)
    ensures var r := DoSend(p, tag, sent); r.Next? ==> Numbered(r.p.stack, tag + 1)
  {
    var st := p.stack;
    NumberedBelow(st, tag, tag);
    NumberedBelow(Pop(st), tag, tag + 1);
    NumberedPush(Pop(st), Loop(tag), tag + 1);
    hide Numbered, Close, SerializeAll;
  }

  lemma CollectNumbered(p: Party, tag: nat, sent: bool)
    requires Numbered(p.stack, tag)
    ensures var r := DoCollect(p, tag, sent); r.Next? ==> Numbered(r.p.stack, tag + 1)
  {
    NumberedBelow(p.stack, tag, tag + 1);
    if p.h.cand != {} {
      NumberedPush(p.stack, Dying(tag, Least(p.h.cand)), tag + 1);
    }
    hide Numbered, Finish;
  }

  lemma CallNumbered(x: Side, p: Party, args: seq<Val>, tag: nat)
    requires Numbered(p.stack, tag)
    ensures var r := DoCall(x, p, args); r.Next? ==> Numbered(r.p.stack, tag + 1)
  {
    NumberedBelow(p.stack, tag, tag + 1);
    NumberedPush(p.stack, Gc(Call(args)), tag + 1);
    hide Numbered, Holds, Pins;
  }

  lemma AnswerNumbered(p: Party, thrown: bool, vals: seq<Val>, tag: nat)
    requires Numbered(p.stack, tag)
    ensures var r := DoAnswer(p, thrown, vals); r.Next? ==> Numbered(r.p.stack, tag + 1)
  {
    var st := p.stack;
    NumberedBelow(st, tag, tag + 1);
    if st != [] && Top(st).Exec? {
      NumberedPush(Pop(st), Gc(Answer(Top(st).tag, thrown, vals)), tag + 1);
    }
    hide Numbered, Holds, Pins;
  }

  lemma StartNumbered(p: Party, vals: seq<Val>, sent: bool, tag: nat)
    ensures var r := DoStart(p, vals, sent); r.Next? ==> Numbered(r.p.stack, tag + 1)
  {
    NumberedPush([], Root, tag + 1);
    assert [] + [Root] == [Root];
    hide Close, SerializeAll, Holds, Pins;
  }

  lemma LocalNumbered(x: Side, p: Party, a: Action, tag: nat)
    requires PartyNumbered(p, tag)
    ensures var r := Local(x, p, a, tag); r.Next? ==> Numbered(r.p.stack, tag + 1)
  {
    match a {
      case Collect1(sent) => CollectNumbered(p, tag, sent);
      case Send(sent) => SendNumbered(p, tag, sent);
      case Receive(answered) =>
        ReceiveNumbered(p, answered, tag);
        if DoReceive(p, answered).Next? {
          NumberedBelow(DoReceive(p, answered).p.stack, tag, tag + 1);
        }
      case Drop(_, _) => NumberedBelow(p.stack, tag, tag + 1);
      case Copy(_) => NumberedBelow(p.stack, tag, tag + 1);
      case LoseRead => NumberedBelow(p.stack, tag, tag + 1);
      case BeginCall(args) => CallNumbered(x, p, args, tag);
      case BeginAnswer(thrown, vals) => AnswerNumbered(p, thrown, vals, tag);
      case Start(vals, sent) => StartNumbered(p, vals, sent, tag);
    }
    hide Numbered, DoCollect, DoSend, DoReceive, DoStart, DoCall, DoAnswer, Release;
  }

  lemma SentNumbered(x: Side, p: Party, a: Action, tag: nat)
    requires PartyNumbered(p, tag)
    ensures var r := Local(x, p, a, tag);
      r.Next? ==> forall i :: 0 <= i < |r.out| && r.out[i].Request? ==> r.out[i].tag == tag
  {
    if a.Receive? {
      ReceiveNumbered(p, a.answered, tag);
      hide DoReceive, Numbered;
    }
  }

  ghost predicate SysNumbered(s: Sys) {
    PartyNumbered(s.client, s.tags) && PartyNumbered(s.server, s.tags)
  }

  lemma OwnNumbered(x: Side, p: Party, a: Action, tag: nat)
    requires PartyOk(x, p) && InboxOk(p) && PartyNumbered(p, tag)
    ensures var n := Local(x, p, a, tag); n.Next? ==> PartyNumbered(n.p, tag + 1)
  {
    LocalNumbered(x, p, a, tag);
    if !p.h.open {
      StaysClosed(x, p, a, tag);
    } else if p.inbox == [] || a.Receive? {
      OwnInbox(x, p, a, tag);
      hide Local, Numbered;
    } else {
      WaitingKept(x, p, a, tag);
      OwnInbox(x, p, a, tag);
      hide Local, Numbered;
    }
  }

  lemma OtherNumbered(q: Party, out: seq<Msg>, tag: nat)
    requires PartyNumbered(q, tag) && forall i :: 0 <= i < |out| && out[i].Request? ==> out[i].tag == tag
    ensures PartyNumbered(q.(inbox := q.inbox + out), tag + 1)
  {
    NumberedBelow(q.stack, tag, tag + 1);
  }

  lemma PutNumbered(s: Sys, x: Side, p: Party, out: seq<Msg>)
    requires PartyNumbered(p, s.tags + 1) && PartyNumbered(Get(s, Other(x)), s.tags)
    requires forall i :: 0 <= i < |out| && out[i].Request? ==> out[i].tag == s.tags
    ensures SysNumbered(Put(s, x, p, out))
  {
    OtherNumbered(Get(s, Other(x)), out, s.tags);
    hide PartyNumbered;
  }

  lemma StepIs(s: Sys, x: Side, a: Action)
    ensures var n := Local(x, Get(s, x), a, s.tags); Step(s, x, a) == if n.Next? then Put(s, x, n.p, n.out) else s
  {
    hide Local, Put;
  }

  lemma BothNumbered(s: Sys, x: Side)
    requires SysOk(s) && SysNumbered(s)
    ensures PartyOk(x, Get(s, x)) && InboxOk(Get(s, x))
    ensures PartyNumbered(Get(s, x), s.tags) && PartyNumbered(Get(s, Other(x)), s.tags)
  {
    hide PartyNumbered, PartyOk, InboxOk, CoupledSys;
  }

  lemma StepNumbered(s: Sys, x: Side, a: Action)
    requires SysOk(s) && SysNumbered(s)
    ensures SysNumbered(Step(s, x, a))
  {
    hide *;
    var p, n := Get(s, x), Local(x, Get(s, x), a, s.tags);
    StepIs(s, x, a);
    BothNumbered(s, x);
    OwnNumbered(x, p, a, s.tags);
    SentNumbered(x, p, a, s.tags);
    if n.Next? {
      PutNumbered(s, x, n.p, n.out);
    }
  }

  lemma {:induction false} RunNumbered(s: Sys, moves: seq<(Side, Action)>)
    requires SysOk(s) && SysNumbered(s)
    ensures SysNumbered(Run(s, moves))
    decreases moves
  {
    if moves != [] {
      StepNumbered(s, moves[0].0, moves[0].1);
      StepOk(s, moves[0].0, moves[0].1);
      RunNumbered(Step(s, moves[0].0, moves[0].1), moves[1..]);
    }
  }

  lemma InitNumbered()
    ensures SysNumbered(Init())
  {
    NumberedPush([], Connect, 1);
    NumberedPush([], Boot, 1);
    assert [] + [Connect] == [Connect] && [] + [Boot] == [Boot];
  }

  lemma ReachableNumbered(s: Sys)
    requires Reachable(s)
    ensures SysNumbered(s)
  {
    var moves :| s == Run(Init(), moves);
    InitOk();
    InitNumbered();
    hide SysOk, PartyNumbered, Run, Init;
    RunNumbered(Init(), moves);
  }

  // ---------------------------------------------------------------- the open calls

  /** Strictly increasing, and below `n`. */
  predicate Increasing(calls: Calls, n: nat) {
    && (forall i, j :: 0 <= i < j < |calls| ==> calls[i] < calls[j])
    && (forall i :: 0 <= i < |calls| ==> calls[i] < n)
  }

  lemma ViewNumber(x: Side, calls: Calls, n: nat)
    requires calls != [] && Numbered(View(x, calls), n)
    ensures Innermost(calls) < n && Numbered(View(x, Outer(calls)), Innermost(calls))
  {
    var t := Innermost(calls);
    PopPush(View(x, Outer(calls)), if CallerAt(|calls| - 1) == x then Loop(t) else Exec(t));
  }

  lemma {:induction false} ViewNumbers(x: Side, calls: Calls, n: nat)
    requires Numbered(View(x, calls), n)
    ensures Increasing(calls, n)
    decreases |calls|
  {
    hide Numbered, View;
    if calls != [] {
      ViewNumber(x, calls, n);
      ViewNumbers(x, Outer(calls), Innermost(calls));
      assert calls == Outer(calls) + [Innermost(calls)];
    }
  }

  /** In every reachable state the open calls, as the stack of either end shows them, have different numbers, each above
      those of the calls around it and below the next one to be given. */
  lemma OpenCallsDiffer(s: Sys, x: Side, calls: Calls)
    requires Reachable(s) && View(x, calls) <= Get(s, x).stack
    ensures Increasing(calls, s.tags)
  {
    ReachableNumbered(s);
    hide View, Numbered, Reachable;
    var st, v := Get(s, x).stack, View(x, calls);
    NumberedPrefix(st, |v|, s.tags);
    assert st[..|v|] == v;
    ViewNumbers(x, calls, s.tags);
  }

  lemma {:induction false} NumberedPrefix(st: seq<Frame>, k: nat, n: nat)
    requires k <= |st| && Numbered(st, n)
    ensures Numbered(st[..k], n)
    decreases |st|
  {
    if k < |st| {
      NumberedBelow(st, n, n);
      NumberedPrefix(Pop(st), k, n);
      assert Pop(st)[..k] == st[..k];
    } else {
      assert st[..k] == st;
    }
  }

  lemma {:induction false} NumbersDiffer(st: seq<Frame>, n: nat, i: nat, j: nat)
    requires Numbered(st, n) && i < j < |st| && HasNumber(st[i]) && HasNumber(st[j])
    ensures st[i].tag < st[j].tag < n
    decreases |st|
  {
    var g := Pop(st);
    if j < |g| {
      NumberedBelow(st, n, n);
      NumbersDiffer(g, n, i, j);
    } else {
      InStackBelow(g, st[j].tag, i);
    }
  }

  lemma {:induction false} InStackBelow(st: seq<Frame>, n: nat, i: nat)
    requires Numbered(st, n) && i < |st| && HasNumber(st[i])
    ensures st[i].tag < n
    decreases |st|
  {
    if i < |st| - 1 {
      NumberedBelow(st, n, n);
      InStackBelow(Pop(st), n, i);
    }
  }

  /** An activation waits for this answer. */
  predicate Awaits(f: Frame, t: nat) {
    (f.Loop? || f.Dying?) && f.tag == t
  }

  /** So no two activations of one end wait for the same answer: the one that gets it is the only one it can be for. */
  lemma AnswerNamesOneCall(s: Sys, x: Side, t: nat)
    requires Reachable(s)
    ensures var st := Get(s, x).stack;
      forall i, j :: 0 <= i < |st| && 0 <= j < |st| && Awaits(st[i], t) && Awaits(st[j], t) ==> i == j
  {
    ReachableNumbered(s);
    hide Numbered;
    var st := Get(s, x).stack;
    forall i, j | 0 <= i < |st| && 0 <= j < |st| && Awaits(st[i], t) && Awaits(st[j], t) ensures i == j {
      if i < j {
        NumbersDiffer(st, s.tags, i, j);
      } else if j < i {
        NumbersDiffer(st, s.tags, j, i);
      }
    }
  }
}
