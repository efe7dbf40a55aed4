/** What the scheduler does to one run queue: in every run it is the run of a sequential
    deque, and only its own worker pushes, puts and pops. */
module SchedulerQueues {
  import opened Base
  import opened Scheduler
  import opened SchedulerInv
  import opened SchedulerSteps
  import opened SchedulerTheorems
  import Q = RunQueueTsoInv
  import D = RunQueueTsoTheorems

  /** What the callback after a switch does to the queue of its own worker. */
  function CallbackOp(me: Worker): Q.Op {
    match me.pc
    case CreateCb(_) => if me.cur.Some? then Q.AddTop(me.cur.value) else Q.Nop
    case YieldCb(t, _) => Q.AddBase(t)
    case _ => Q.Nop
  }

  function PopOp(s: State, w: Wid, found: bool): Q.Op
    requires Pops(s, w, found)
  {
    if found then Q.RemTop(Top(s, w)) else Q.Nop
  }

  /** What a step does to the queue of the worker that makes it. */
  function OwnOp(s: State, a: Act): Q.Op
    requires Enabled(s, a)
  {
    var me := s.wk[a.w];
    match a
    case Pop(w) => PopOp(s, w, true)
    case ParentFirst(w) => Q.AddTop(me.pc.n)
    case Yield(w, u) => if u == w then PopOp(s, w, true) else Q.Nop
    case Block(w, _, found) => PopOp(s, w, found)
    case Join(w, _, found) => PopOp(s, w, found)
    case ExitNext(w, found) => if L(s, JoinOf(me.pc.x)) == [] then PopOp(s, w, found) else Q.Nop
    case PassTry(w, ok, _) => if ok && me.pc.v == w then Q.AddBase(me.pc.t) else Q.Nop
    case Push(w) => Q.AddTop(L(s, Hand(w))[0])
    case Callback(w) => CallbackOp(me)
    case _ => Q.Nop
  }

  /** And to the queue of another worker v. */
  function OtherOp(s: State, a: Act, v: Wid): Q.Op
    requires Enabled(s, a)
  {
    match a
    case Steal(w, u) => if u == v then Q.RemBase(L(s, RunQ(v))[0]) else Q.Nop
    case Yield(w, u) => if u == v then Q.RemBase(L(s, RunQ(v))[0]) else Q.Nop
    case PassTry(w, ok, _) => if ok && s.wk[w].pc.v == v then Q.AddBase(s.wk[w].pc.t) else Q.Nop
    case _ => Q.Nop
  }

  function OpOn(s: State, a: Act, v: Wid): Q.Op
    requires Enabled(s, a)
  {
    if a.w == v then OwnOp(s, a) else OtherOp(s, a, v)
  }

  /** Queue v of s becomes that of s' by the operation. */
  ghost predicate Becomes(s: State, s': State, v: Wid, op: Q.Op) {
    Q.Apply(L(s, RunQ(v)), op) == Some(L(s', RunQ(v)))
  }

  // ----- the parts of a step

  /** A thread moved between places other than the queue. */
  lemma MovedPast(s: State, p: Place, i: nat, q: Place, j: nat, r: Thread, v: Wid)
    requires CanMove(s, p, i, q, j) && p != RunQ(v) && q != RunQ(v)
    ensures L(Move(s, p, i, q, j, r), RunQ(v)) == L(s, RunQ(v))
  {
  }

  lemma MovedIn(s: State, p: Place, i: nat, j: nat, r: Thread, v: Wid)
    requires p != RunQ(v) && i < |L(s, p)| && (j == 0 || j == |L(s, RunQ(v))|)
    ensures var t := L(s, p)[i]; var l := L(Move(s, p, i, RunQ(v), j, r), RunQ(v));
      (j == 0 ==> l == [t] + L(s, RunQ(v))) && (j != 0 || L(s, RunQ(v)) == [] ==> l == L(s, RunQ(v)) + [t])
  {
  }

  lemma MovedOut(s: State, i: nat, q: Place, j: nat, r: Thread, v: Wid)
    requires q != RunQ(v) && i < |L(s, RunQ(v))| && j <= |L(s, q)|
    ensures var l := L(s, RunQ(v)); var l' := L(Move(s, RunQ(v), i, q, j, r), RunQ(v));
      (i == 0 ==> l' == l[1..]) && (i == |l| - 1 ==> l' == l[..i])
  {
  }

  /** A thread taken from the queue of u by worker w. */
  lemma GrabOn(s: State, w: Wid, u: Wid, i: nat, r: Thread, v: Wid)
    requires i < |L(s, RunQ(u))| && (i == 0 || i == |L(s, RunQ(u))| - 1)
    ensures var s' := Grab(s, w, RunQ(u), i, r);
      && (v != u ==> Becomes(s, s', v, Q.Nop))
      && (i == 0 ==> Becomes(s, s', u, Q.RemBase(L(s, RunQ(u))[0])))
      && (i == |L(s, RunQ(u))| - 1 ==> Becomes(s, s', u, Q.RemTop(L(s, RunQ(u))[i])))
  {
    var j := |L(s, Hand(w))|;
    if v != u { MovedPast(s, RunQ(u), i, Hand(w), j, r, v); }
    MovedOut(s, i, Hand(w), j, r, u);
  }

  /** A thread put from the hand of w into the queue of u. */
  lemma PutOn(s: State, w: Wid, u: Wid, j: nat, r: Thread, v: Wid)
    requires L(s, Hand(w)) != [] && (j == 0 || j == |L(s, RunQ(u))|)
    ensures var t := L(s, Hand(w))[0]; var s' := Move(s, Hand(w), 0, RunQ(u), j, r);
      && (v != u ==> Becomes(s, s', v, Q.Nop))
      && (j == 0 ==> Becomes(s, s', u, Q.AddBase(t)))
      && (j == |L(s, RunQ(u))| ==> Becomes(s, s', u, Q.AddTop(t)))
  {
    if v != u { MovedPast(s, Hand(w), 0, RunQ(u), j, r, v); }
    MovedIn(s, Hand(w), 0, j, r, u);
    if L(s, RunQ(u)) == [] { assert [L(s, Hand(w))[0]] + L(s, RunQ(u)) == L(s, RunQ(u)) + [L(s, Hand(w))[0]]; }
  }

  lemma PopHandOn(s: State, w: Wid, found: bool, own: bool, v: Wid)
    requires Pops(s, w, found)
    ensures Becomes(s, PopHand(s, w, found, own), v, if v == w then PopOp(s, w, found) else Q.Nop)
  {
    hide Grab, Becomes;
    if found {
      var r := R(s, Top(s, w));
      GrabOn(s, w, w, |L(s, RunQ(w))| - 1, if own then r.(env := w) else r, v);
    } else {
      Still(s, s, v);
    }
  }

  lemma Still(s: State, s': State, v: Wid)
    requires L(s', RunQ(v)) == L(s, RunQ(v))
    ensures Becomes(s, s', v, Q.Nop)
  {
  }

  /** What only other fields have changed after. */
  lemma Beside(s: State, s1: State, s2: State, v: Wid, op: Q.Op)
    requires Becomes(s, s1, v, op) && s2.at == s1.at
    ensures Becomes(s, s2, v, op)
  {
  }

  lemma SwapOn(s: State, w: Wid, t: Tid, n: Option<Tid>, pc: Pc, cur: Option<Tid>, v: Wid)
    ensures Becomes(s, Swap(s, w, t, n, pc, cur), v, Q.Nop)
  {
  }

  // ----- the steps

  lemma PopOn(s: State, w: Wid, v: Wid)
    requires L(s, RunQ(w)) != []
    ensures Becomes(s, PopStep(s, w), v, if v == w then PopOp(s, w, true) else Q.Nop)
  {
    hide Grab, Becomes;
    var i := |L(s, RunQ(w))| - 1;
    GrabOn(s, w, w, i, R(s, Top(s, w)), v);
    Beside(s, Grab(s, w, RunQ(w), i, R(s, Top(s, w))), PopStep(s, w), v, if v == w then PopOp(s, w, true) else Q.Nop);
  }

  lemma StealOn(s: State, w: Wid, u: Wid, v: Wid)
    requires L(s, RunQ(u)) != [] && R(s, L(s, RunQ(u))[0]).status == Ready
    ensures Becomes(s, StealStep(s, w, u), v, if v == u then Q.RemBase(L(s, RunQ(u))[0]) else Q.Nop)
  {
    hide Grab, Becomes;
    var n := L(s, RunQ(u))[0];
    GrabOn(s, w, u, 0, R(s, n), v);
    Beside(s, Grab(s, w, RunQ(u), 0, R(s, n)), StealStep(s, w, u), v, if v == u then Q.RemBase(n) else Q.Nop);
  }

  lemma YieldOn(s: State, w: Wid, u: Wid, cur: Option<Tid>, v: Wid)
    requires L(s, RunQ(u)) != [] && cur.Some? && R(s, L(s, RunQ(u))[0]).status == Ready
    ensures Becomes(s, YieldStep(s, w, u, cur), v,
      if v != u then Q.Nop else if u == w then PopOp(s, w, true) else Q.RemBase(L(s, RunQ(u))[0]))
  {
    hide Grab, Becomes;
    var i := if u == w then |L(s, RunQ(u))| - 1 else 0;
    var n := L(s, RunQ(u))[i];
    var op := if v != u then Q.Nop else if u == w then PopOp(s, w, true) else Q.RemBase(L(s, RunQ(u))[0]);
    GrabOn(s, w, u, i, R(s, n).(env := w), v);
    Beside(s, Grab(s, w, RunQ(u), i, R(s, n).(env := w)), YieldStep(s, w, u, cur), v, op);
  }

  lemma BlockOn(s: State, w: Wid, o: nat, found: bool, cur: Option<Tid>, v: Wid)
    requires Pops(s, w, found) && cur.Some?
    ensures Becomes(s, BlockStep(s, w, o, found, cur), v, if v == w then PopOp(s, w, found) else Q.Nop)
  {
    hide PopHand, Becomes;
    PopHandOn(s, w, found, true, v);
    Beside(s, PopHand(s, w, found, true), BlockStep(s, w, o, found, cur), v, if v == w then PopOp(s, w, found) else Q.Nop);
  }

  lemma JoinOn(s: State, w: Wid, x: Tid, found: bool, cur: Option<Tid>, v: Wid)
    requires Pops(s, w, found) && cur.Some? && cur.value in s.th
    ensures Becomes(s, JoinStep(s, w, x, found, cur), v, if v == w then PopOp(s, w, found) else Q.Nop)
  {
    var s2 := JoinMark(s, w, x, cur.value);
    assert s2.at == s.at && Pops(s2, w, found) && PopOp(s2, w, found) == PopOp(s, w, found);
    JoinStepIs(s, w, x, found, cur);
    hide PopHand, JoinStep, JoinMark, PopOp;
    PopHandOn(s2, w, found, true, v);
  }

  lemma ExitNextOn(s: State, w: Wid, x: Tid, found: bool, cur: Option<Tid>, v: Wid)
    requires Pops(s, w, found)
    ensures Becomes(s, ExitNextStep(s, w, x, found, cur), v,
      if v == w && L(s, JoinOf(x)) == [] then PopOp(s, w, found) else Q.Nop)
  {
    hide PopHand;
    if L(s, JoinOf(x)) == [] { PopHandOn(s, w, found, false, v); }
  }

  lemma PushOn(s: State, w: Wid, v: Wid)
    requires L(s, Hand(w)) != []
    ensures Becomes(s, PushHand(s, w), v, if v == w then Q.AddTop(L(s, Hand(w))[0]) else Q.Nop)
  {
    hide Becomes, Move;
    PutOn(s, w, w, |L(s, RunQ(w))|, R(s, L(s, Hand(w))[0]), v);
  }

  lemma ParentFirstOn(s: State, w: Wid, n: Tid, cur: Option<Tid>, v: Wid)
    requires L(s, Hand(w)) == [n]
    ensures Becomes(s, ParentFirstStep(s, w, n, cur), v, if v == w then Q.AddTop(n) else Q.Nop)
  {
    hide Becomes, PushHand;
    PushOn(s, w, v);
    Beside(s, PushHand(s, w), ParentFirstStep(s, w, n, cur), v, if v == w then Q.AddTop(n) else Q.Nop);
  }

  lemma PassTryOn(s: State, w: Wid, t: Tid, u: Wid, ok: bool, other: Wid, cur: Option<Tid>, v: Wid)
    requires L(s, Hand(w)) == [t] && t in s.th
    ensures Becomes(s, PassTryStep(s, w, t, u, ok, other, cur), v, if ok && v == u then Q.AddBase(t) else Q.Nop)
  {
    hide Becomes, Move;
    var s' := PassTryStep(s, w, t, u, ok, other, cur);
    if ok {
      PutOn(s, w, u, 0, R(s, t), v);
      Beside(s, Move(s, Hand(w), 0, RunQ(u), 0, R(s, t)), s', v, if v == u then Q.AddBase(t) else Q.Nop);
    } else {
      Still(s, s', v);
    }
  }

  lemma CallbackOn(s: State, w: Wid, me: Worker, v: Wid)
    requires w in s.wk && s.wk[w] == me && PcOk(s, w, me)
    ensures Becomes(s, CallbackStep(s, w, me), v, if v == w then CallbackOp(me) else Q.Nop)
  {
    hide Becomes, Move;
    var s' := CallbackStep(s, w, me);
    match me.pc
    case CreateCb(n) =>
      PushOn(s, w, v);
      Beside(s, PushHand(s, w), s', v, if v == w then CallbackOp(me) else Q.Nop);
    case YieldCb(t, n) =>
      PutOn(s, w, w, 0, R(s, t), v);
      Beside(s, Move(s, Hand(w), 0, RunQ(w), 0, R(s, t)), s', v, if v == w then CallbackOp(me) else Q.Nop);
    case BlockCb(t, o, _) =>
      MovedPast(s, Hand(w), 0, Sleep(o), |L(s, Sleep(o))|, R(s, t), v);
      Still(s, s', v);
    case JoinCb(t, x, _) =>
      MovedPast(s, Hand(w), 0, JoinOf(x), |L(s, JoinOf(x))|, R(s, t), v);
      Still(s, s', v);
    case ExitCb(_, _) => Still(s, s', v);
    case _ => Still(s, s', v);
  }

  lemma SwitchOn(s: State, w: Wid, me: Worker, v: Wid)
    ensures Becomes(s, SwitchStep(s, w, me), v, Q.Nop)
  {
    hide Becomes, Swap, LeaveStep;
    match me.pc
    case YieldGot(t, n) => SwapOn(s, w, t, Some(n), YieldCb(t, n), me.cur, v);
    case BlockGot(t, o, next) => SwapOn(s, w, t, next, BlockCb(t, o, next), me.cur, v);
    case JoinGot(t, x, next) => SwapOn(s, w, t, next, JoinCb(t, x, next), me.cur, v);
    case ExitGot(x, next) => LeaveOn(s, w, x, next, me.cur, v);
    case _ => Still(s, s, v);
  }

  lemma LeaveOn(s: State, w: Wid, x: Tid, next: Option<Tid>, cur: Option<Tid>, v: Wid)
    ensures Becomes(s, LeaveStep(s, w, x, next, cur), v, Q.Nop)
  {
  }

  /** The steps that concern no run queue. */
  lemma RestOn(s: State, a: Act, v: Wid)
    requires Enabled(s, a)
    requires a.Run? || a.Make? || a.ChildFirst? || a.Exit? || a.Pass? || a.Wake? || a.Deq? || a.WakeEnd?
    ensures Becomes(s, Next(s, a), v, Q.Nop)
  {
    hide ChildFirstStep, PassStep, DeqStep, RunStep;
    match a
    case Run(w) => RunOn(s, w, s.wk[w].pc.n, v);
    case Make(_, _) =>
    case ChildFirst(w) => ChildFirstOn(s, w, s.wk[w].pc.n, s.wk[w].cur, v);
    case Exit(_) =>
    case Pass(w, u) => PassOn(s, w, u, s.wk[w].cur, v);
    case Wake(_) =>
    case Deq(w, o, i) => DeqOn(s, w, o, i, v);
    case WakeEnd(_) =>
  }

  lemma RunOn(s: State, w: Wid, n: Tid, v: Wid)
    ensures Becomes(s, RunStep(s, w, n), v, Q.Nop)
  {
  }

  lemma ChildFirstOn(s: State, w: Wid, n: Tid, cur: Option<Tid>, v: Wid)
    ensures Becomes(s, ChildFirstStep(s, w, n, cur), v, Q.Nop)
  {
    hide Becomes, Swap;
    match cur
    case None => Still(s, ChildFirstStep(s, w, n, cur), v);
    case Some(t) => SwapOn(s, w, t, Some(n), CreateCb(n), cur, v);
  }

  lemma PassOn(s: State, w: Wid, u: Wid, cur: Option<Tid>, v: Wid)
    ensures Becomes(s, PassStep(s, w, u, cur), v, Q.Nop)
  {
  }

  lemma DeqOn(s: State, w: Wid, o: nat, i: nat, v: Wid)
    requires i < |L(s, Sleep(o))|
    ensures Becomes(s, DeqStep(s, w, o, i), v, Q.Nop)
  {
  }

  /** Every step is one operation, or none, on every queue. */
  lemma StepIsOp(s: State, a: Act, v: Wid)
    requires Inv(s) && Enabled(s, a)
    ensures Becomes(s, Next(s, a), v, OpOn(s, a, v))
  {
    hide Inv, Becomes, PcOk, PopStep, StealStep, YieldStep, BlockStep, JoinStep, ExitNextStep, PushHand, CallbackStep;
    hide ParentFirstStep, PassTryStep, SwitchStep;
    var me := s.wk[a.w];
    StepFacts(s, a);
    match a
    case Pop(w) => PopOn(s, w, v);
    case Steal(w, u) => StealOn(s, w, u, v);
    case Yield(w, u) => YieldOn(s, w, u, me.cur, v);
    case Block(w, o, found) => BlockOn(s, w, o, found, me.cur, v);
    case Join(w, x, found) => JoinOn(s, w, x, found, me.cur, v);
    case ExitNext(w, found) => ExitNextOn(s, w, me.pc.x, found, me.cur, v);
    case Push(w) => PushOn(s, w, v);
    case ParentFirst(w) => ParentFirstOn(s, w, me.pc.n, me.cur, v);
    case PassTry(w, ok, other) => PassTryOn(s, w, me.pc.t, me.pc.v, ok, other, me.cur, v);
    case Callback(w) => CallbackOn(s, w, me, v);
    case Switch(w) => SwitchOn(s, w, me, v);
    case _ => RestOn(s, a, v);
  }

  /** What the steps rely on. */
  lemma StepFacts(s: State, a: Act)
    requires Inv(s) && Enabled(s, a)
    ensures var me := s.wk[a.w];
      && PcOk(s, a.w, me)
      && (a.Yield? || a.Block? || a.Join? ==> me.cur.Some? && me.cur.value in s.th)
      && (a.ParentFirst? ==> L(s, Hand(a.w)) == [me.pc.n])
      && (a.PassTry? ==> L(s, Hand(a.w)) == [me.pc.t] && me.pc.t in s.th)
    ensures forall u :: L(s, RunQ(u)) != [] ==> R(s, L(s, RunQ(u))[0]).status == Ready
  {
    Apart(s, a.w);
    QueuedReady(s);
    hide Inv, Rest, LocksOk, JoinsOk;
    AtPc(s, a);
  }

  lemma AtPc(s: State, a: Act)
    requires Enabled(s, a) && PcOk(s, a.w, s.wk[a.w])
    ensures var me := s.wk[a.w];
      && (a.Yield? || a.Block? || a.Join? ==> me.cur.Some? && me.cur.value in s.th)
      && (a.ParentFirst? ==> L(s, Hand(a.w)) == [me.pc.n])
      && (a.PassTry? ==> L(s, Hand(a.w)) == [me.pc.t] && me.pc.t in s.th)
  {
    hide L;
  }

  lemma QueuedReady(s: State)
    requires Inv(s)
    ensures forall u :: L(s, RunQ(u)) != [] ==> R(s, L(s, RunQ(u))[0]).status == Ready
  {
    hide PcOk, LocksOk, JoinsOk, L, NoDup;
    forall u | L(s, RunQ(u)) != [] ensures R(s, L(s, RunQ(u))[0]).status == Ready {
      assert L(s, RunQ(u))[0] in L(s, RunQ(u));
    }
  }

  // ----- whole runs

  function OpsOn(s: State, acts: seq<Act>, v: Wid): seq<Q.Op>
    requires Runs(s, acts)
    decreases |acts|
  {
    if acts == [] then [] else [OpOn(s, acts[0], v)] + OpsOn(Next(s, acts[0]), acts[1..], v)
  }

  lemma {:induction false} RunReplays(s: State, acts: seq<Act>, v: Wid)
    requires Inv(s) && Runs(s, acts)
    ensures |OpsOn(s, acts, v)| == |acts|
    ensures D.Replay(L(s, RunQ(v)), OpsOn(s, acts, v)) == Some(L(Exec(s, acts), RunQ(v)))
    ensures forall k :: 0 <= k < |acts| && acts[k].w != v ==>
      var op := OpsOn(s, acts, v)[k]; op.Nop? || op.RemBase? || op.AddBase?
    decreases |acts|
  {
    hide Inv, Enabled, Next, OpOn;
    if acts != [] {
      StepIsOp(s, acts[0], v);
      NextKeeps(s, acts[0]);
      if acts[0].w != v { OthersAtTheBase(s, acts[0], v); }
      RunReplays(Next(s, acts[0]), acts[1..], v);
    }
  }

  lemma OthersAtTheBase(s: State, a: Act, v: Wid)
    requires Enabled(s, a) && a.w != v
    ensures var op := OpOn(s, a, v); op.Nop? || op.RemBase? || op.AddBase?
  {
  }

  /** In every run each run queue is a sequential deque: the threads that the code pushes, puts
      and passes go in, and those it pops and steals come out, at the ends of the source; and
      only the queue's own worker works at the top, others take from the base or pass to it. */
  lemma EveryQueueIsADeque(s: State, m: Tid, acts: seq<Act>, v: Wid)
    requires Init(s, m) && Runs(s, acts)
    ensures |OpsOn(s, acts, v)| == |acts|
    ensures D.Replay(L(s, RunQ(v)), OpsOn(s, acts, v)) == Some(L(Exec(s, acts), RunQ(v)))
    ensures forall k :: 0 <= k < |acts| && acts[k].w != v ==>
      var op := OpsOn(s, acts, v)[k]; op.Nop? || op.RemBase? || op.AddBase?
  {
    hide Inv, Init;
    InitGood(s, m);
    RunReplays(s, acts, v);
  }

  /** What goes into a queue was in the hand of the worker that makes the step, what comes out is
      then in its hand. */
  lemma HandToHand(s: State, m: Tid, acts: seq<Act>, a: Act, v: Wid)
    requires Init(s, m) && Runs(s, acts) && Enabled(Exec(s, acts), a)
    ensures var e := Exec(s, acts); var op := OpOn(e, a, v);
      && (op.AddTop? || op.AddBase? ==> L(e, Hand(a.w)) != [] && L(e, Hand(a.w))[0] == op.th)
      && (op.RemTop? || op.RemBase? ==> op.th in L(Next(e, a), Hand(a.w)))
  {
    hide Inv, Init, Runs, Exec, OpOn, Next, Enabled;
    var e := Exec(s, acts);
    Reachable(s, m, acts);
    var op := OpOn(e, a, v);
    if op.AddTop? || op.AddBase? { GivenFromHand(e, a, v); }
    if op.RemTop? || op.RemBase? {
      TakenPlace(e, a, v);
      NextKeeps(e, a);
      InPlace(Next(e, a), op.th);
    }
  }

  lemma InPlace(s: State, t: Tid)
    requires Inv(s) && t in s.th
    ensures t in L(s, s.th[t].place)
  {
  }

  lemma GivenFromHand(s: State, a: Act, v: Wid)
    requires Inv(s) && Enabled(s, a) && (OpOn(s, a, v).AddTop? || OpOn(s, a, v).AddBase?)
    ensures L(s, Hand(a.w)) != [] && L(s, Hand(a.w))[0] == OpOn(s, a, v).th
  {
    hide Inv, LocksOk, JoinsOk;
    StepFacts(s, a);
  }

  lemma TakenPlace(s: State, a: Act, v: Wid)
    requires Inv(s) && Enabled(s, a) && (OpOn(s, a, v).RemTop? || OpOn(s, a, v).RemBase?)
    ensures InHand(Next(s, a), a.w, OpOn(s, a, v).th)
  {
    hide Inv, OwnOp, OtherOp, Next, Enabled;
    StepFacts(s, a);
    if a.w == v { TakenOwn(s, a); } else { TakenOther(s, a, v); }
  }

  lemma TakenOwn(s: State, a: Act)
    requires Enabled(s, a) && (OwnOp(s, a).RemTop? || OwnOp(s, a).RemBase?)
    requires a.Yield? || a.Block? || a.Join? ==> s.wk[a.w].cur.Some? && s.wk[a.w].cur.value in s.th
    requires forall u :: L(s, RunQ(u)) != [] ==> R(s, L(s, RunQ(u))[0]).status == Ready
    ensures InHand(Next(s, a), a.w, OwnOp(s, a).th)
  {
    hide L, R, Top, InHand, PopStep, YieldStep, BlockStep, JoinStep, ExitNextStep, CallbackStep, PassTryStep, PushHand;
    match a
    case Pop(w) => TakenByPop(s, w);
    case Yield(w, u) => TakenByYield(s, w, u, s.wk[w].cur);
    case Block(w, o, found) => TakenByBlock(s, w, o, found, s.wk[w].cur);
    case Join(w, x, found) => TakenByJoin(s, w, x, found, s.wk[w].cur);
    case ExitNext(w, found) => TakenByExit(s, w, s.wk[w].pc.x, found, s.wk[w].cur);
    case _ =>
  }

  lemma TakenOther(s: State, a: Act, v: Wid)
    requires Enabled(s, a) && a.w != v && (OtherOp(s, a, v).RemTop? || OtherOp(s, a, v).RemBase?)
    requires a.Yield? ==> s.wk[a.w].cur.Some?
    requires forall u :: L(s, RunQ(u)) != [] ==> R(s, L(s, RunQ(u))[0]).status == Ready
    ensures InHand(Next(s, a), a.w, OtherOp(s, a, v).th)
  {
    hide L, R, Top, InHand, StealStep, YieldStep;
    match a
    case Steal(w, u) => TakenBySteal(s, w, u);
    case Yield(w, u) => TakenByYield(s, w, u, s.wk[w].cur);
    case _ =>
  }

  predicate InHand(s: State, w: Wid, t: Tid) {
    t in s.th && s.th[t].place == Hand(w)
  }

  lemma TakenByPop(s: State, w: Wid)
    requires L(s, RunQ(w)) != []
    ensures InHand(PopStep(s, w), w, Top(s, w))
  {
  }

  lemma TakenBySteal(s: State, w: Wid, u: Wid)
    requires L(s, RunQ(u)) != [] && R(s, L(s, RunQ(u))[0]).status == Ready
    ensures InHand(StealStep(s, w, u), w, L(s, RunQ(u))[0])
  {
  }

  lemma TakenByYield(s: State, w: Wid, u: Wid, cur: Option<Tid>)
    requires L(s, RunQ(u)) != [] && cur.Some? && R(s, L(s, RunQ(u))[0]).status == Ready
    ensures InHand(YieldStep(s, w, u, cur), w, if u == w then Top(s, w) else L(s, RunQ(u))[0])
  {
  }

  lemma TakenByBlock(s: State, w: Wid, o: nat, found: bool, cur: Option<Tid>)
    requires found && Pops(s, w, found) && cur.Some?
    ensures InHand(BlockStep(s, w, o, found, cur), w, Top(s, w))
  {
  }

  lemma TakenByExit(s: State, w: Wid, x: Tid, found: bool, cur: Option<Tid>)
    requires found && Pops(s, w, found) && L(s, JoinOf(x)) == []
    ensures InHand(ExitNextStep(s, w, x, found, cur), w, Top(s, w))
  {
  }

  lemma TakenByJoin(s: State, w: Wid, x: Tid, found: bool, cur: Option<Tid>)
    requires found && Pops(s, w, found) && cur.Some? && cur.value in s.th
    ensures var t := Top(s, w); var s' := JoinStep(s, w, x, found, cur); InHand(s', w, t)
  {
    JoinStepIs(s, w, x, found, cur);
    assert Top(JoinMark(s, w, x, cur.value), w) == Top(s, w);
  }
}
