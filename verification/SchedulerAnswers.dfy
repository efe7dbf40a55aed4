/** What threads ask of the scheduler, read off the acts of a run: a thread waits where it asked to
    wait, and is gone because it exited. */
module SchedulerAnswers {
  import opened Base
  import opened Scheduler
  import opened SchedulerInv
  import opened SchedulerSteps
  import opened SchedulerTheorems

  datatype Ask = ToWait(p: Place) | ToLeave

  /** What thread t, running on the worker of the act, asks for. */
  function AskOf(s: State, a: Act, t: Tid): Option<Ask>
    requires Enabled(s, a)
  {
    match a
    case Block(w, o, _) => if s.wk[w].cur == Some(t) then Some(ToWait(Sleep(o))) else None
    case Join(w, x, _) => if s.wk[w].cur == Some(t) then Some(ToWait(JoinOf(x))) else None
    case Exit(w) => if s.wk[w].cur == Some(t) then Some(ToLeave) else None
    case _ => None
  }

  function Later(c: Option<Ask>, before: Option<Ask>): Option<Ask> {
    if c.Some? then c else before
  }

  function LastAsk(s: State, acts: seq<Act>, t: Tid, before: Option<Ask>): Option<Ask>
    requires Runs(s, acts)
    decreases |acts|
  {
    if acts == [] then before
    else LastAsk(Next(s, acts[0]), acts[1..], t, Later(AskOf(s, acts[0], t), before))
  }

  /** Where a program point is taking thread t. */
  function Bound(pc: Pc, t: Tid): Option<Ask> {
    match pc
    case BlockGot(u, o, _) => if u == t then Some(ToWait(Sleep(o))) else None
    case BlockCb(u, o, _) => if u == t then Some(ToWait(Sleep(o))) else None
    case JoinGot(u, x, _) => if u == t then Some(ToWait(JoinOf(x))) else None
    case JoinCb(u, x, _) => if u == t then Some(ToWait(JoinOf(x))) else None
    case ExitLocked(x) => if x == t then Some(ToLeave) else None
    case ExitGot(x, _) => if x == t then Some(ToLeave) else None
    case _ => None
  }

  predicate Parked(p: Place) { p.Sleep? || p.JoinOf? }

  /** A thread that waits or is gone, or is on its way there, is where c says. */
  ghost predicate Where(s: State, t: Tid, c: Option<Ask>) {
    && (t in s.th && Parked(s.th[t].place) ==> c == Some(ToWait(s.th[t].place)))
    && (t in s.gone ==> c == Some(ToLeave))
    && (forall w :: w in s.wk && Bound(s.wk[w].pc, t).Some? ==> c == Bound(s.wk[w].pc, t))
  }

  /** A step from s to s' parks t nowhere, unless where b says. */
  predicate Parks(s: State, s': State, t: Tid, b: Option<Ask>) {
    t in s'.th && Parked(s'.th[t].place) ==>
      (t in s.th && s.th[t].place == s'.th[t].place) || b == Some(ToWait(s'.th[t].place))
  }

  lemma MoveParks(s: State, p: Place, i: nat, q: Place, j: nat, r: Thread, t: Tid)
    requires CanMove(s, p, i, q, j)
    ensures Parks(s, Move(s, p, i, q, j, r), t, if Parked(q) && L(s, p)[i] == t then Some(ToWait(q)) else None)
  {
  }

  /** What only other fields have changed before or after. */
  lemma Beside(s: State, s1: State, s2: State, t: Tid, b: Option<Ask>)
    requires Parks(s, s1, t, b) && (t in s2.th <==> t in s1.th) && (t in s1.th ==> s2.th[t].place == s1.th[t].place)
    ensures Parks(s, s2, t, b)
  {
  }

  lemma EnterParks(s: State, w: Wid, n: Option<Tid>, t: Tid)
    requires n.Some? ==> L(s, Hand(w)) != []
    ensures Parks(s, Enter(s, w, n), t, None)
  {
  }

  lemma Twice(s: State, s1: State, s2: State, t: Tid)
    requires Parks(s, s1, t, None) && Parks(s1, s2, t, None)
    ensures Parks(s, s2, t, None)
  {
  }

  lemma GrabParks(s: State, w: Wid, p: Place, i: nat, r: Thread, t: Tid)
    requires CanMove(s, p, i, Hand(w), |L(s, Hand(w))|)
    ensures Parks(s, Grab(s, w, p, i, r), t, None)
  {
  }

  lemma SwapParks(s: State, w: Wid, u: Tid, n: Option<Tid>, pc: Pc, cur: Option<Tid>, t: Tid)
    ensures Parks(s, Swap(s, w, u, n, pc, cur), t, None)
  {
    var s' := Swap(s, w, u, n, pc, cur);
    if L(s, Cpu(w)) != [u] || L(s, Hand(w)) != Opt(n) {
      SameParks(s, t);
      Beside(s, s, s', t, None);
    } else {
      var s1 := Grab(s, w, Cpu(w), 0, R(s, u).(saved := true));
      assert n.Some? ==> L(s1, Hand(w)) != [];
      hide Grab, Enter, Parks, L, R;
      GrabParks(s, w, Cpu(w), 0, R(s, u).(saved := true), t);
      EnterParks(s1, w, n, t);
      Twice(s, s1, Enter(s1, w, n), t);
      Beside(s, Enter(s1, w, n), s', t, None);
    }
  }

  lemma SwitchParks(s: State, w: Wid, me: Worker, t: Tid)
    ensures Parks(s, SwitchStep(s, w, me), t, None)
  {
    hide Swap, LeaveStep, Parks;
    match me.pc
    case YieldGot(u, n) => SwapParks(s, w, u, Some(n), YieldCb(u, n), me.cur, t);
    case BlockGot(u, o, next) => SwapParks(s, w, u, next, BlockCb(u, o, next), me.cur, t);
    case JoinGot(u, x, next) => SwapParks(s, w, u, next, JoinCb(u, x, next), me.cur, t);
    case ExitGot(x, next) => LeaveParks(s, w, x, next, me.cur, t);
    case _ => SameParks(s, t);
  }

  lemma SameParks(s: State, t: Tid)
    ensures Parks(s, s, t, None)
  {
  }

  lemma LeaveParks(s: State, w: Wid, x: Tid, next: Option<Tid>, cur: Option<Tid>, t: Tid)
    ensures Parks(s, LeaveStep(s, w, x, next, cur), t, None)
  {
  }

  /** Only the callbacks of block and join park a thread, and where they were told to. */
  lemma CallbackParks(s: State, w: Wid, me: Worker, t: Tid)
    requires PcOk(s, w, me)
    ensures Parks(s, CallbackStep(s, w, me), t, Bound(me.pc, t))
  {
    match me.pc
    case CreateCb(_) => hide L;
    case YieldCb(_, _) => hide L;
    case BlockCb(u, o, _) => MoveParks(s, Hand(w), 0, Sleep(o), |L(s, Sleep(o))|, R(s, u), t); hide Move;
    case JoinCb(u, x, _) => MoveParks(s, Hand(w), 0, JoinOf(x), |L(s, JoinOf(x))|, R(s, u), t); hide Move;
    case ExitCb(_, _) =>
    case _ =>
  }

  lemma TakeParks(s: State, a: Act, t: Tid)
    requires Enabled(s, a) && (a.Pop? || a.Steal? || a.Yield? || a.Deq?)
    ensures Parks(s, Next(s, a), t, None)
  {
    hide L, Top, R;
    match a
    case Pop(_) =>
    case Steal(_, _) =>
    case Yield(_, _) =>
    case Deq(_, _, _) =>
  }

  lemma PopHandParks(s: State, w: Wid, found: bool, own: bool, t: Tid)
    requires Pops(s, w, found)
    ensures Parks(s, PopHand(s, w, found, own), t, None)
  {
  }

  lemma AskParks(s: State, a: Act, t: Tid)
    requires Enabled(s, a) && (a.Block? || a.ExitNext?)
    ensures Parks(s, Next(s, a), t, None)
  {
    hide PopHand;
    PopHandParks(s, a.w, a.found, true, t);
    PopHandParks(s, a.w, a.found, false, t);
  }

  lemma JoinParks(s: State, w: Wid, x: Tid, found: bool, cur: Option<Tid>, t: Tid)
    requires Pops(s, w, found)
    ensures Parks(s, JoinStep(s, w, x, found, cur), t, None)
  {
    if cur.Some? && cur.value in s.th {
      JoinStepIs(s, w, x, found, cur);
      hide PopHand, JoinStep;
      PopHandParks(JoinMark(s, w, x, cur.value), w, found, true, t);
    }
  }

  lemma RestParks(s: State, a: Act, t: Tid)
    requires Enabled(s, a)
    requires a.Run? || a.Make? || a.ChildFirst? || a.ParentFirst? || a.Exit? || a.Pass? || a.PassTry? || a.Wake? || a.Push? || a.WakeEnd?
    ensures Parks(s, Next(s, a), t, None)
  {
    hide Parks, ChildFirstStep, PassTryStep, PassStep, RunStep, ParentFirstStep, PushHand;
    match a
    case ChildFirst(w) => ChildFirstParks(s, w, s.wk[w].pc.n, s.wk[w].cur, t);
    case PassTry(w, ok, v) => PassTryParks(s, w, s.wk[w].pc.t, s.wk[w].pc.v, ok, v, s.wk[w].cur, t);
    case Pass(w, v) => PassParks(s, w, v, s.wk[w].cur, t);
    case Run(w) => RunParks(s, w, s.wk[w].pc.n, t);
    case ParentFirst(w) => ParentFirstParks(s, w, s.wk[w].pc.n, s.wk[w].cur, t);
    case Push(w) => PushParks(s, w, t);
    case _ => LocalParks(s, a, t);
  }

  lemma ChildFirstParks(s: State, w: Wid, n: Tid, cur: Option<Tid>, t: Tid)
    ensures Parks(s, ChildFirstStep(s, w, n, cur), t, None)
  {
    hide Swap, Parks;
    match cur
    case None => SameParks(s, t); Beside(s, s, ChildFirstStep(s, w, n, cur), t, None);
    case Some(u) => SwapParks(s, w, u, Some(n), CreateCb(n), cur, t);
  }

  lemma PassTryParks(s: State, w: Wid, u: Tid, v: Wid, ok: bool, other: Wid, cur: Option<Tid>, t: Tid)
    ensures Parks(s, PassTryStep(s, w, u, v, ok, other, cur), t, None)
  {
  }

  lemma PassParks(s: State, w: Wid, v: Wid, cur: Option<Tid>, t: Tid)
    ensures Parks(s, PassStep(s, w, v, cur), t, None)
  {
  }

  lemma RunParks(s: State, w: Wid, n: Tid, t: Tid)
    ensures Parks(s, RunStep(s, w, n), t, None)
  {
  }

  lemma ParentFirstParks(s: State, w: Wid, n: Tid, cur: Option<Tid>, t: Tid)
    ensures Parks(s, ParentFirstStep(s, w, n, cur), t, None)
  {
  }

  lemma PushParks(s: State, w: Wid, t: Tid)
    requires L(s, Hand(w)) != []
    ensures Parks(s, PushHand(s, w), t, None)
  {
  }

  lemma LocalParks(s: State, a: Act, t: Tid)
    requires Enabled(s, a) && (a.Make? || a.Exit? || a.Wake? || a.WakeEnd?)
    ensures Parks(s, Next(s, a), t, None)
  {
    match a
    case Make(_, _) =>
    case Exit(_) =>
    case Wake(_) =>
    case WakeEnd(_) =>
  }

  lemma ActParks(s: State, a: Act, t: Tid)
    requires Enabled(s, a) && PcOk(s, a.w, s.wk[a.w])
    ensures Parks(s, Next(s, a), t, Bound(s.wk[a.w].pc, t))
  {
    hide Parks, PcOk, SwitchStep, CallbackStep, JoinStep;
    var me := s.wk[a.w];
    var s' := Next(s, a);
    match a
    case Callback(w) => CallbackParks(s, w, me, t);
    case Switch(w) => SwitchParks(s, w, me, t); Weaken(s, s', t, Bound(me.pc, t));
    case Join(w, x, found) => JoinParks(s, w, x, found, me.cur, t); Weaken(s, s', t, Bound(me.pc, t));
    case Block(_, _, _) => AskParks(s, a, t); Weaken(s, s', t, Bound(me.pc, t));
    case ExitNext(_, _) => AskParks(s, a, t); Weaken(s, s', t, Bound(me.pc, t));
    case Pop(_) => TakeParks(s, a, t); Weaken(s, s', t, Bound(me.pc, t));
    case Steal(_, _) => TakeParks(s, a, t); Weaken(s, s', t, Bound(me.pc, t));
    case Yield(_, _) => TakeParks(s, a, t); Weaken(s, s', t, Bound(me.pc, t));
    case Deq(_, _, _) => TakeParks(s, a, t); Weaken(s, s', t, Bound(me.pc, t));
    case _ => RestParks(s, a, t); Weaken(s, s', t, Bound(me.pc, t));
  }

  lemma Weaken(s: State, s': State, t: Tid, b: Option<Ask>)
    requires Parks(s, s', t, None)
    ensures Parks(s, s', t, b)
  {
  }

  // ----- the program points on the way

  /** Only worker w goes on; t is gone only if that is where it was going. */
  ghost predicate OnlyWorker(s: State, s': State, w: Wid, t: Tid) {
    && w in s.wk && w in s'.wk
    && (forall v :: v != w ==> (v in s'.wk <==> v in s.wk) && (v in s.wk ==> s'.wk[v] == s.wk[v]))
    && (t in s'.gone ==> t in s.gone || Bound(s.wk[w].pc, t) == Some(ToLeave))
  }

  lemma SwitchBinds(s: State, w: Wid, t: Tid)
    requires w in s.wk
    ensures var s' := SwitchStep(s, w, s.wk[w]);
      OnlyWorker(s, s', w, t) && (Bound(s'.wk[w].pc, t) == None || Bound(s'.wk[w].pc, t) == Bound(s.wk[w].pc, t))
  {
    hide L;
    match s.wk[w].pc
    case YieldGot(_, _) =>
    case BlockGot(_, _, _) =>
    case JoinGot(_, _, _) =>
    case ExitGot(_, _) =>
    case _ =>
  }

  lemma CallbackBinds(s: State, w: Wid, t: Tid)
    requires w in s.wk && CallsBack(s.wk[w].pc)
    ensures var s' := CallbackStep(s, w, s.wk[w]); OnlyWorker(s, s', w, t) && Bound(s'.wk[w].pc, t) == None
  {
    hide L;
    match s.wk[w].pc
    case CreateCb(_) =>
    case YieldCb(_, _) =>
    case BlockCb(_, _, _) =>
    case JoinCb(_, _, _) =>
    case ExitCb(_, _) =>
  }

  lemma AskBinds(s: State, a: Act, t: Tid)
    requires Enabled(s, a) && (a.Block? || a.Join? || a.Exit?)
    ensures var s' := Next(s, a);
      OnlyWorker(s, s', a.w, t) && (Bound(s'.wk[a.w].pc, t) == None || Bound(s'.wk[a.w].pc, t) == AskOf(s, a, t))
  {
    hide L;
    match a
    case Join(_, _, _) =>
    case Block(_, _, _) =>
    case Exit(_) =>
  }

  lemma TakeBinds(s: State, a: Act, t: Tid)
    requires Enabled(s, a) && (a.Pop? || a.Steal? || a.Yield? || a.Deq?)
    ensures var s' := Next(s, a); OnlyWorker(s, s', a.w, t) && (Bound(s'.wk[a.w].pc, t) == None || s'.wk == s.wk)
  {
    hide L;
    match a
    case Pop(_) =>
    case Steal(_, _) =>
    case Yield(_, _) =>
    case Deq(_, _, _) =>
  }

  lemma ExitNextBinds(s: State, w: Wid, found: bool, t: Tid)
    requires Enabled(s, ExitNext(w, found))
    ensures var s' := Next(s, ExitNext(w, found));
      OnlyWorker(s, s', w, t) && (Bound(s'.wk[w].pc, t) == None || Bound(s'.wk[w].pc, t) == Bound(s.wk[w].pc, t))
  {
    hide L;
  }

  lemma RestBinds(s: State, a: Act, t: Tid)
    requires Enabled(s, a)
    requires a.Run? || a.Make? || a.ChildFirst? || a.ParentFirst? || a.Pass? || a.PassTry? || a.Wake? || a.Push? || a.WakeEnd?
    ensures var s' := Next(s, a); OnlyWorker(s, s', a.w, t) && (Bound(s'.wk[a.w].pc, t) == None || s'.wk == s.wk)
  {
    hide L, ChildFirstStep, PassTryStep, PassStep, RunStep, ParentFirstStep, OnlyWorker;
    match a
    case ChildFirst(w) => ChildFirstBinds(s, w, s.wk[w].pc.n, s.wk[w].cur, t);
    case PassTry(w, ok, v) => PassTryBinds(s, w, s.wk[w].pc.t, s.wk[w].pc.v, ok, v, s.wk[w].cur, t);
    case Pass(w, v) => PassBinds(s, w, v, s.wk[w].cur, t);
    case Run(w) => RunBinds(s, w, s.wk[w].pc.n, t);
    case ParentFirst(w) => ParentFirstBinds(s, w, s.wk[w].pc.n, s.wk[w].cur, t);
    case _ => LocalBinds(s, a, t);
  }

  ghost predicate Unbound(s: State, s': State, w: Wid, t: Tid) {
    OnlyWorker(s, s', w, t) && Bound(s'.wk[w].pc, t) == None
  }

  lemma ChildFirstBinds(s: State, w: Wid, n: Tid, cur: Option<Tid>, t: Tid)
    requires w in s.wk
    ensures Unbound(s, ChildFirstStep(s, w, n, cur), w, t)
  {
  }

  lemma PassTryBinds(s: State, w: Wid, u: Tid, v: Wid, ok: bool, other: Wid, cur: Option<Tid>, t: Tid)
    requires w in s.wk
    ensures Unbound(s, PassTryStep(s, w, u, v, ok, other, cur), w, t)
  {
  }

  lemma PassBinds(s: State, w: Wid, v: Wid, cur: Option<Tid>, t: Tid)
    requires w in s.wk
    ensures Unbound(s, PassStep(s, w, v, cur), w, t)
  {
  }

  lemma RunBinds(s: State, w: Wid, n: Tid, t: Tid)
    requires w in s.wk
    ensures Unbound(s, RunStep(s, w, n), w, t)
  {
  }

  lemma ParentFirstBinds(s: State, w: Wid, n: Tid, cur: Option<Tid>, t: Tid)
    requires w in s.wk
    ensures Unbound(s, ParentFirstStep(s, w, n, cur), w, t)
  {
  }

  lemma LocalBinds(s: State, a: Act, t: Tid)
    requires Enabled(s, a) && (a.Make? || a.Wake? || a.Push? || a.WakeEnd?)
    ensures var s' := Next(s, a); OnlyWorker(s, s', a.w, t) && (Bound(s'.wk[a.w].pc, t) == None || s'.wk == s.wk)
  {
    hide L;
    match a
    case Make(_, _) =>
    case Wake(_) =>
    case Push(_) =>
    case WakeEnd(_) =>
  }

  /** Only block, join and exit set out, for the thread that asks; the switch passes it on. */
  lemma ActBinds(s: State, a: Act, t: Tid)
    requires Enabled(s, a)
    ensures var s' := Next(s, a);
      && OnlyWorker(s, s', a.w, t)
      && (Bound(s'.wk[a.w].pc, t) == None || Bound(s'.wk[a.w].pc, t) == AskOf(s, a, t)
          || Bound(s'.wk[a.w].pc, t) == Bound(s.wk[a.w].pc, t))
  {
    hide L, SwitchStep, CallbackStep, OnlyWorker, Bound;
    match a
    case Switch(w) => SwitchBinds(s, w, t);
    case Callback(w) => CallbackBinds(s, w, t);
    case Join(_, _, _) => AskBinds(s, a, t);
    case Block(_, _, _) => AskBinds(s, a, t);
    case Exit(_) => AskBinds(s, a, t);
    case Pop(_) => TakeBinds(s, a, t);
    case Steal(_, _) => TakeBinds(s, a, t);
    case Yield(_, _) => TakeBinds(s, a, t);
    case Deq(_, _, _) => TakeBinds(s, a, t);
    case ExitNext(w, found) => ExitNextBinds(s, w, found, t);
    case _ => RestBinds(s, a, t);
  }

  // ----- waiting where one asked to

  /** Who asks is on its worker: in no list, and on its way nowhere else. */
  lemma AskerIsFree(s: State, a: Act, t: Tid)
    requires Inv(s) && Enabled(s, a) && AskOf(s, a, t).Some?
    ensures t in s.th && t !in s.gone && s.th[t].place == Cpu(a.w)
    ensures forall v :: v in s.wk ==> Bound(s.wk[v].pc, t) == None
  {
    hide Inv, Bound;
    assert s.wk[a.w] == Worker(User, Some(t));
    RunsThere(s, a.w, t);
    forall v | v in s.wk ensures Bound(s.wk[v].pc, t) == None {
      if Bound(s.wk[v].pc, t).Some? { BoundHolds(s, v, t); }
    }
  }

  lemma RunsThere(s: State, w: Wid, t: Tid)
    requires Inv(s) && w in s.wk && s.wk[w] == Worker(User, Some(t))
    ensures t in s.th && t !in s.gone && s.th[t].place == Cpu(w)
  {
    Apart(s, w);
    Known(s, t);
    hide Inv, Rest, LocksOk, JoinsOk;
    OnCpu(s, w, t);
  }

  lemma Known(s: State, t: Tid)
    requires Inv(s)
    ensures t in s.th ==> t !in s.gone
  {
  }

  lemma BoundHolds(s: State, v: Wid, t: Tid)
    requires Inv(s) && v in s.wk && Bound(s.wk[v].pc, t).Some?
    ensures t in s.th && (s.th[t].place == Hand(v) || (s.th[t].place == Cpu(v) && s.wk[v].pc != User))
  {
    BoundListed(s, v, t);
    if t in L(s, Cpu(v)) { IsThere(s, t, Cpu(v)); } else { IsThere(s, t, Hand(v)); }
  }

  lemma BoundListed(s: State, v: Wid, t: Tid)
    requires Inv(s) && v in s.wk && Bound(s.wk[v].pc, t).Some?
    ensures t in L(s, Cpu(v)) || t in L(s, Hand(v))
  {
    hide Inv, Rest, LocksOk, JoinsOk, PcOk;
    Apart(s, v);
    BoundAt(s, v, s.wk[v], t);
  }

  lemma BoundAt(s: State, v: Wid, me: Worker, t: Tid)
    requires PcOk(s, v, me) && Bound(me.pc, t).Some?
    ensures t in L(s, Cpu(v)) || t in L(s, Hand(v))
  {
    hide L;
    match me.pc
    case BlockGot(u, _, _) => assert u in L(s, Cpu(v));
    case BlockCb(u, _, _) => assert u in L(s, Hand(v));
    case JoinGot(u, _, _) => assert u in L(s, Cpu(v));
    case JoinCb(u, _, _) => assert u in L(s, Hand(v));
    case ExitLocked(x) => assert x in L(s, Cpu(v));
    case ExitGot(x, _) => assert x in L(s, Cpu(v));
  }

  lemma ActWaits(s: State, a: Act, t: Tid, c: Option<Ask>)
    requires Inv(s) && Enabled(s, a) && Where(s, t, c)
    ensures Where(Next(s, a), t, Later(AskOf(s, a, t), c))
  {
    hide Inv, Next, AskOf, Bound, Rest, LocksOk, JoinsOk, PcOk;
    Apart(s, a.w);
    ActParks(s, a, t);
    ActBinds(s, a, t);
    if AskOf(s, a, t).Some? { AskerIsFree(s, a, t); }
  }

  lemma {:induction false} RunWaits(s: State, acts: seq<Act>, t: Tid, c: Option<Ask>)
    requires Inv(s) && Runs(s, acts) && Where(s, t, c)
    ensures Where(Exec(s, acts), t, LastAsk(s, acts, t, c))
    decreases |acts|
  {
    hide Inv, Enabled, Next, Where, AskOf;
    if acts != [] {
      NextKeeps(s, acts[0]);
      ActWaits(s, acts[0], t, c);
      RunWaits(Next(s, acts[0]), acts[1..], t, Later(AskOf(s, acts[0], t), c));
    }
  }

  lemma NobodyWaits(s: State, m: Tid, t: Tid)
    requires Init(s, m)
    ensures Where(s, t, None)
  {
  }

  /** In every run a thread in a sleep queue or a join slot is in the one that it last asked for, and
      only who has exited, and asked for nothing since, is gone. */
  lemma IsWhereItAsked(s: State, m: Tid, acts: seq<Act>, t: Tid)
    requires Init(s, m) && Runs(s, acts)
    ensures forall p :: Parked(p) && t in L(Exec(s, acts), p) ==> LastAsk(s, acts, t, None) == Some(ToWait(p))
    ensures t in Exec(s, acts).gone ==> LastAsk(s, acts, t, None) == Some(ToLeave)
  {
    hide Init, Runs, Exec, L;
    InitGood(s, m);
    NobodyWaits(s, m, t);
    Reachable(s, m, acts);
    RunWaits(s, acts, t, None);
    forall p | Parked(p) && t in L(Exec(s, acts), p) ensures LastAsk(s, acts, t, None) == Some(ToWait(p)) {
      IsThere(Exec(s, acts), t, p);
    }
  }

  lemma IsThere(s: State, t: Tid, p: Place)
    requires Inv(s) && t in L(s, p)
    ensures t in s.th && s.th[t].place == p
  {
  }
}
