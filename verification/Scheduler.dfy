/** The scheduler: run queues, sleep queues and join slots between which threads are
    handed over.  A context switch is two steps: the context is saved and the next
    one entered, then the callback runs on the next context; what the code does
    between two shared accesses is one step.

    A program point `Failed` stands for an assertion that fails and for a context that
    would be saved into the descriptor of another thread.  The queues are the abstract
    deques that the run queue machine refines: the top is the end of the sequence, the
    base its start, and a pop or take may also find nothing. */
module Scheduler {
  import opened Base

  type Tid = nat
  type Wid = nat

  /** Where a thread can be.  `Hand(w)` is what worker w holds in the middle of a hand-over,
      `Cpu(w)` the thread whose stack worker w runs on. */
  datatype Place = RunQ(w: Wid) | Sleep(o: nat) | JoinOf(x: Tid) | Hand(w: Wid) | Cpu(w: Wid)

  datatype Status = Ready | Blocked

  /** `place` is a history variable: it repeats which of the lists holds the thread. */
  datatype Thread = Thread(env: Wid, status: Status, saved: bool, place: Place)

  datatype Pc =
    | Sched
    | SchedGot(n: Tid)
    | User
    | Made(n: Tid)
    | CreateCb(n: Tid)
    | YieldGot(t: Tid, n: Tid)
    | YieldCb(t: Tid, n: Tid)
    | BlockGot(t: Tid, o: nat, next: Option<Tid>)
    | BlockCb(t: Tid, o: nat, next: Option<Tid>)
    | Waking(next: Option<Tid>)
    | JoinGot(t: Tid, x: Tid, next: Option<Tid>)
    | JoinCb(t: Tid, x: Tid, next: Option<Tid>)
    | ExitLocked(x: Tid)
    | ExitGot(x: Tid, next: Option<Tid>)
    | ExitCb(x: Tid, next: Option<Tid>)
    | PassCb(t: Tid, v: Wid)
    | Failed

  /** `cur` is the field this_thread of the worker. */
  datatype Worker = Worker(pc: Pc, cur: Option<Tid>)

  datatype State = State(
    th: map<Tid, Thread>, at: map<Place, seq<Tid>>, wk: map<Wid, Worker>, lock: map<Tid, Wid>, gone: set<Tid>)

  function L(s: State, p: Place): seq<Tid> {
    if p in s.at then s.at[p] else []
  }

  function Opt(n: Option<Tid>): seq<Tid> {
    match n
    case None => []
    case Some(t) => [t]
  }

  function RemoveAt(l: seq<Tid>, i: nat): seq<Tid>
    requires i < |l|
  {
    l[..i] + l[i + 1..]
  }

  function InsertAt(l: seq<Tid>, j: nat, t: Tid): seq<Tid>
    requires j <= |l|
  {
    l[..j] + [t] + l[j..]
  }

  // ----- what a step is made of

  predicate CanMove(s: State, p: Place, i: nat, q: Place, j: nat) {
    p != q && i < |L(s, p)| && j <= |L(s, q)|
  }

  /** Thread at index i of p goes to index j of q, with its record changed to r. */
  function Move(s: State, p: Place, i: nat, q: Place, j: nat, r: Thread): State
    requires CanMove(s, p, i, q, j)
  {
    var t := L(s, p)[i];
    s.(at := s.at[p := RemoveAt(L(s, p), i)][q := InsertAt(L(s, q), j, t)], th := s.th[t := r.(place := q)])
  }

  function SetT(s: State, t: Tid, r: Thread): State
    requires t in s.th
  {
    s.(th := s.th[t := r.(place := s.th[t].place)])
  }

  function SetW(s: State, w: Wid, pc: Pc, cur: Option<Tid>): State {
    s.(wk := s.wk[w := Worker(pc, cur)])
  }

  function Fail(s: State, w: Wid): State {
    SetW(s, w, Failed, None)
  }

  function Land(s: State, w: Wid, n: Option<Tid>): State {
    SetW(s, w, if n.Some? then User else Sched, n)
  }

  /** A thread taken from index i of p into the hand of w. */
  function Grab(s: State, w: Wid, p: Place, i: nat, r: Thread): State
    requires CanMove(s, p, i, Hand(w), |L(s, Hand(w))|)
  {
    Move(s, p, i, Hand(w), |L(s, Hand(w))|, r)
  }

  /** The record of a thread; threads that are gone have an arbitrary one. */
  function R(s: State, t: Tid): Thread {
    if t in s.th then s.th[t] else Thread(0, Blocked, false, Sleep(0))
  }

  /** The pop of the own queue; `found` is false when it yields nothing. */
  predicate Pops(s: State, w: Wid, found: bool) {
    found ==> L(s, RunQ(w)) != []
  }

  function Top(s: State, w: Wid): Tid
    requires L(s, RunQ(w)) != []
  {
    L(s, RunQ(w))[|L(s, RunQ(w))| - 1]
  }

  /** `own` says whether the code then points the thread's env to this worker. */
  function PopHand(s: State, w: Wid, found: bool, own: bool): State
    requires Pops(s, w, found)
  {
    if found then
      var r := R(s, Top(s, w));
      Grab(s, w, RunQ(w), |L(s, RunQ(w))| - 1, if own then r.(env := w) else r)
    else s
  }

  /** The next context is entered: a thread in hand, or the scheduler's own. */
  function Enter(s: State, w: Wid, n: Option<Tid>): State
    requires n.Some? ==> L(s, Hand(w)) != []
  {
    match n
    case None => s
    case Some(t) => Move(s, Hand(w), 0, Cpu(w), |L(s, Cpu(w))|, R(s, t).(saved := false))
  }

  /** The running context is saved into the descriptor t and the next one entered. */
  function Swap(s: State, w: Wid, t: Tid, n: Option<Tid>, pc: Pc, cur: Option<Tid>): State {
    if L(s, Cpu(w)) != [t] || L(s, Hand(w)) != Opt(n) then Fail(s, w)
    else SetW(Enter(Grab(s, w, Cpu(w), 0, R(s, t).(saved := true)), w, n), w, pc, cur)
  }

  // ----- the steps

  datatype Act =
    | Pop(w: Wid) | Steal(w: Wid, v: Wid) | Run(w: Wid)
    | Make(w: Wid, n: Tid) | ChildFirst(w: Wid) | ParentFirst(w: Wid)
    | Yield(w: Wid, v: Wid)
    | Block(w: Wid, o: nat, found: bool)
    | Join(w: Wid, x: Tid, found: bool)
    | Exit(w: Wid) | ExitNext(w: Wid, found: bool)
    | Pass(w: Wid, v: Wid) | PassTry(w: Wid, ok: bool, v: Wid)
    | Wake(w: Wid) | Deq(w: Wid, o: nat, i: nat) | Push(w: Wid) | WakeEnd(w: Wid)
    | Switch(w: Wid) | Callback(w: Wid)

  predicate Switches(pc: Pc) { pc.YieldGot? || pc.BlockGot? || pc.JoinGot? || pc.ExitGot? }

  predicate CallsBack(pc: Pc) { pc.CreateCb? || pc.YieldCb? || pc.BlockCb? || pc.JoinCb? || pc.ExitCb? }

  predicate Enabled(s: State, a: Act) {
    a.w in s.wk &&
    var pc := s.wk[a.w].pc;
    match a
    case Pop(w) => pc == Sched && L(s, RunQ(w)) != []
    case Steal(w, v) => pc == Sched && v in s.wk && v != w && L(s, RunQ(v)) != []
    case Run(w) => pc.SchedGot?
    case Make(w, n) => pc == User && n !in s.th && n !in s.gone
    case ChildFirst(w) => pc.Made?
    case ParentFirst(w) => pc.Made?
    case Yield(w, v) => pc == User && v in s.wk && L(s, RunQ(v)) != []
    case Block(w, o, found) => pc == User && Pops(s, w, found)
    // a second joiner is excluded by the caller; a finished target returns at once
    case Join(w, x, found) => pc == User && x in s.th && x !in s.lock && L(s, JoinOf(x)) == [] && Pops(s, w, found)
    case Exit(w) => pc == User && (forall x :: s.wk[w].cur == Some(x) ==> x !in s.lock)
    case ExitNext(w, found) => pc.ExitLocked? && Pops(s, w, found)
    case Pass(w, v) => pc == User && v in s.wk
    case PassTry(w, _, v) => pc.PassCb? && v in s.wk
    case Wake(w) => pc == User
    case Deq(w, o, i) => pc.Waking? && i < |L(s, Sleep(o))|
    case Push(w) => pc.Waking? && L(s, Hand(w)) != []
    case WakeEnd(w) => pc.Waking? && L(s, Hand(w)) == []
    case Switch(w) => Switches(pc)
    case Callback(w) => CallsBack(pc)
  }

  /** The scheduler loop pops its own queue. */
  function PopStep(s: State, w: Wid): State
    requires L(s, RunQ(w)) != []
  {
    var n := Top(s, w);
    SetW(Grab(s, w, RunQ(w), |L(s, RunQ(w))| - 1, R(s, n)), w, SchedGot(n), None)
  }

  /** Or it takes from the base of another one, and asserts that the thread is ready. */
  function StealStep(s: State, w: Wid, v: Wid): State
    requires L(s, RunQ(v)) != []
  {
    var n := L(s, RunQ(v))[0];
    if R(s, n).status != Ready then Fail(s, w)
    else SetW(Grab(s, w, RunQ(v), 0, R(s, n)), w, SchedGot(n), None)
  }

  function RunStep(s: State, w: Wid, n: Tid): State {
    if R(s, n).status != Ready || L(s, Hand(w)) != [n] then Fail(s, w)
    else SetW(Move(s, Hand(w), 0, Cpu(w), 0, R(s, n).(env := w, saved := false)), w, User, Some(n))
  }

  function Fresh(s: State, w: Wid, n: Tid): State {
    s.(th := s.th[n := Thread(w, Ready, true, Hand(w))], at := s.at[Hand(w) := L(s, Hand(w)) + [n]])
  }

  function MakeStep(s: State, w: Wid, n: Tid, cur: Option<Tid>): State {
    SetW(Fresh(s, w, n), w, Made(n), cur)
  }

  function ChildFirstStep(s: State, w: Wid, n: Tid, cur: Option<Tid>): State {
    match cur
    case None => Fail(s, w)
    case Some(t) => Swap(s, w, t, Some(n), CreateCb(n), cur)
  }

  /** What is in hand goes to the top of the own run queue. */
  function PushHand(s: State, w: Wid): State
    requires L(s, Hand(w)) != []
  {
    Move(s, Hand(w), 0, RunQ(w), |L(s, RunQ(w))|, R(s, L(s, Hand(w))[0]))
  }

  function ParentFirstStep(s: State, w: Wid, n: Tid, cur: Option<Tid>): State {
    if L(s, Hand(w)) != [n] then Fail(s, w) else SetW(PushHand(s, w), w, User, cur)
  }

  /** The callback of create pushes this_thread, the field, and then overwrites it. */
  function CreateCbStep(s: State, w: Wid, n: Tid, cur: Option<Tid>): State {
    if cur.None? || L(s, Hand(w)) != [cur.value] then Fail(s, w) else SetW(PushHand(s, w), w, User, Some(n))
  }

  /** The next thread comes from the top of the own queue or the base of another. */
  function YieldStep(s: State, w: Wid, v: Wid, cur: Option<Tid>): State
    requires L(s, RunQ(v)) != []
  {
    var i := if v == w then |L(s, RunQ(v))| - 1 else 0;
    var n := L(s, RunQ(v))[i];
    if cur.None? || (v != w && R(s, n).status != Ready) then Fail(s, w)
    else SetW(Grab(s, w, RunQ(v), i, R(s, n).(env := w)), w, YieldGot(cur.value, n), cur)
  }

  /** The yielder goes to the base of the own queue. */
  function YieldCbStep(s: State, w: Wid, t: Tid, n: Tid): State {
    if L(s, Hand(w)) != [t] || n !in s.th then Fail(s, w)
    else SetW(SetT(Move(s, Hand(w), 0, RunQ(w), 0, R(s, t)), n, R(s, n).(env := w)), w, User, Some(n))
  }

  function BlockStep(s: State, w: Wid, o: nat, found: bool, cur: Option<Tid>): State
    requires Pops(s, w, found)
  {
    var next := if found then Some(Top(s, w)) else None;
    if cur.None? then Fail(s, w)
    else SetW(PopHand(s, w, found, true), w, BlockGot(cur.value, o, next), next)
  }

  /** The callback enters the sleep queue, and may then unlock a mutex and so wake a thread. */
  function BlockCbStep(s: State, w: Wid, t: Tid, o: nat, next: Option<Tid>, cur: Option<Tid>): State {
    if L(s, Hand(w)) != [t] then Fail(s, w)
    else SetW(Move(s, Hand(w), 0, Sleep(o), |L(s, Sleep(o))|, R(s, t)), w, Waking(next), cur)
  }

  function DeqStep(s: State, w: Wid, o: nat, i: nat): State
    requires i < |L(s, Sleep(o))|
  {
    Grab(s, w, Sleep(o), i, R(s, L(s, Sleep(o))[i]).(env := w))
  }

  function JoinStep(s: State, w: Wid, x: Tid, found: bool, cur: Option<Tid>): State
    requires Pops(s, w, found)
  {
    var next := if found then Some(Top(s, w)) else None;
    if cur.None? || cur.value !in s.th then Fail(s, w)
    else
      var s1 := SetT(s, cur.value, R(s, cur.value).(status := Blocked));
      SetW(PopHand(s1.(lock := s1.lock[x := w]), w, found, true), w, JoinGot(cur.value, x, next), cur)
  }

  /** With a next thread the callback stores this_thread, without one its argument. */
  function JoinCbStep(s: State, w: Wid, t: Tid, x: Tid, next: Option<Tid>, cur: Option<Tid>): State {
    if L(s, Hand(w)) != [t] || (next.Some? && cur != Some(t)) then Fail(s, w)
    else
      var s1 := Move(s, Hand(w), 0, JoinOf(x), |L(s, JoinOf(x))|, R(s, t));
      Land(s1.(lock := s1.lock - {x}), w, next)
  }

  /** Cleanup asserts that the thread's env is the worker whose this_thread it is. */
  function ExitStep(s: State, w: Wid, cur: Option<Tid>): State {
    if |L(s, Cpu(w))| != 1 || cur != Some(L(s, Cpu(w))[0]) || R(s, L(s, Cpu(w))[0]).env != w then Fail(s, w)
    else SetW(s.(lock := s.lock[cur.value := w]), w, ExitLocked(cur.value), cur)
  }

  /** A waiter must be blocked; without one the pop's result is used as it is. */
  function ExitNextStep(s: State, w: Wid, x: Tid, found: bool, cur: Option<Tid>): State
    requires Pops(s, w, found)
  {
    if L(s, JoinOf(x)) != [] then
      var j := L(s, JoinOf(x))[0];
      if R(s, j).status != Blocked then Fail(s, w)
      else SetW(Grab(s, w, JoinOf(x), 0, R(s, j).(env := w, status := Ready)), w, ExitGot(x, Some(j)), cur)
    else
      SetW(PopHand(s, w, found, false), w, ExitGot(x, if found then Some(Top(s, w)) else None), cur)
  }

  /** Control leaves x for good. */
  function LeaveStep(s: State, w: Wid, x: Tid, next: Option<Tid>, cur: Option<Tid>): State {
    if L(s, Cpu(w)) != [x] || L(s, Hand(w)) != Opt(next) then Fail(s, w)
    else SetW(Enter(Gone(s, w, x), w, next), w, ExitCb(x, next), cur)
  }

  function Gone(s: State, w: Wid, x: Tid): State {
    s.(th := s.th - {x}, at := s.at[Cpu(w) := []], gone := s.gone + {x})
  }

  function ExitCbStep(s: State, w: Wid, x: Tid, next: Option<Tid>): State {
    Land(s.(lock := s.lock - {x}), w, next)
  }

  /** The main thread goes home: it leaves for the scheduler and is passed to its worker,
      or, while the queue refuses, to some other. */
  function PassStep(s: State, w: Wid, v: Wid, cur: Option<Tid>): State {
    if cur.None? || L(s, Cpu(w)) != [cur.value] || L(s, Hand(w)) != [] then Fail(s, w)
    else SetW(Grab(s, w, Cpu(w), 0, R(s, cur.value).(saved := true, env := v)), w, PassCb(cur.value, v), cur)
  }

  function PassTryStep(s: State, w: Wid, t: Tid, v: Wid, ok: bool, other: Wid, cur: Option<Tid>): State {
    if L(s, Hand(w)) != [t] || t !in s.th then Fail(s, w)
    else if ok then Land(Move(s, Hand(w), 0, RunQ(v), 0, R(s, t)), w, None)
    else SetW(SetT(s, t, R(s, t).(env := other)), w, PassCb(t, other), cur)
  }

  function SwitchStep(s: State, w: Wid, me: Worker): State {
    match me.pc
    case YieldGot(t, n) => Swap(s, w, t, Some(n), YieldCb(t, n), me.cur)
    case BlockGot(t, o, next) => Swap(s, w, t, next, BlockCb(t, o, next), me.cur)
    case JoinGot(t, x, next) => Swap(s, w, t, next, JoinCb(t, x, next), me.cur)
    case ExitGot(x, next) => LeaveStep(s, w, x, next, me.cur)
    case _ => s
  }

  function CallbackStep(s: State, w: Wid, me: Worker): State {
    match me.pc
    case CreateCb(n) => CreateCbStep(s, w, n, me.cur)
    case YieldCb(t, n) => YieldCbStep(s, w, t, n)
    case BlockCb(t, o, next) => BlockCbStep(s, w, t, o, next, me.cur)
    case JoinCb(t, x, next) => JoinCbStep(s, w, t, x, next, me.cur)
    case ExitCb(x, next) => ExitCbStep(s, w, x, next)
    case _ => s
  }

  function Next(s: State, a: Act): State
    requires Enabled(s, a)
  {
    var me := s.wk[a.w];
    match a
    case Pop(w) => PopStep(s, w)
    case Steal(w, v) => StealStep(s, w, v)
    case Run(w) => RunStep(s, w, me.pc.n)
    case Make(w, n) => MakeStep(s, w, n, me.cur)
    case ChildFirst(w) => ChildFirstStep(s, w, me.pc.n, me.cur)
    case ParentFirst(w) => ParentFirstStep(s, w, me.pc.n, me.cur)
    case Yield(w, v) => YieldStep(s, w, v, me.cur)
    case Block(w, o, found) => BlockStep(s, w, o, found, me.cur)
    case Join(w, x, found) => JoinStep(s, w, x, found, me.cur)
    case Exit(w) => ExitStep(s, w, me.cur)
    case ExitNext(w, found) => ExitNextStep(s, w, me.pc.x, found, me.cur)
    case Pass(w, v) => PassStep(s, w, v, me.cur)
    case PassTry(w, ok, v) => PassTryStep(s, w, me.pc.t, me.pc.v, ok, v, me.cur)
    case Wake(w) => SetW(s, w, Waking(me.cur), me.cur)
    case Deq(w, o, i) => DeqStep(s, w, o, i)
    case Push(w) => PushHand(s, w)
    case WakeEnd(w) => Land(s, w, me.pc.next)
    case Switch(w) => SwitchStep(s, w, me)
    case Callback(w) => CallbackStep(s, w, me)
  }
}
