/** The full/empty lock: a mutex, a status and one condition variable for either status.  A
    waiter that finds the other status leaves its worker holding the mutex; the
    callback enters the condition's queue and only then unlocks the mutex.

    The mutex is the machine of module Mutex with its word, its sleep queue and its program
    points, in the field `mx`: whatever this machine does to the mutex is a step of that one.
    `disciplined` says that every section opened by wait_and_lock ends in mark_and_signal. */
module Felock {
  import opened Base
  import C = Counting
  import M = Mutex

  type Tid = nat

  datatype Pc =
    | Idle
    | Locking                          // lock: in the mutex
    | Holding
    | Waiting(st: bool)                // wait_and_lock: in the mutex
    | Testing(st: bool)
    | Leaving(st: bool, w: M.Worker)   // the context is saved; the callback has the mutex
    | Asleep(st: bool)                 // in the condition's queue
    | Signalled(st: bool)              // dequeued, not yet in a run queue
    | Woken(st: bool)                  // in a run queue, to lock the mutex again
    | In(st: bool)                     // wait_and_lock has returned
    | SigDeq(st: bool)                 // mark_and_signal: the status is set
    | SigPush(u: Tid)
    | Unlocking

  datatype State = State(
    disciplined: bool, workers: nat, status: bool, q0: seq<Tid>, q1: seq<Tid>, pc: map<Tid, Pc>, mx: M.State)

  datatype Act =
    | CallLock(t: Tid) | CallUnlock(t: Tid)
    | CallWait(t: Tid, st: bool) | CallMark(t: Tid, st: bool)
    | Relock(t: Tid)
    | Go(t: Tid)                       // a step outside the mutex
    | Lock(t: Tid)                     // a step of the mutex's lock or unlock
    | Enqueue(t: Tid)                  // the callback's first step
    | Cb(w: M.Worker) | CbEnd(w: M.Worker)
    | Dispatch(t: Tid, w: M.Worker) | Leave(t: Tid)

  function Q(s: State, st: bool): seq<Tid> {
    if st then s.q1 else s.q0
  }

  function SetQ(s: State, st: bool, q: seq<Tid>): State {
    if st then s.(q1 := q) else s.(q0 := q)
  }

  /** Waiting for a condition: not to be picked by a worker. */
  predicate Blocked(pc: Pc) { pc.Leaving? || pc.Asleep? || pc.Signalled? }

  predicate Running(s: State, t: Tid) { t in s.pc && M.Thread(t) in s.mx.on }

  predicate Ready(s: State, a: Act) {
    match a
    case CallLock(t) => Running(s, t) && s.pc[t] == Idle
    case CallWait(t, _) => Running(s, t) && s.pc[t] == Idle
    case CallUnlock(t) => Running(s, t) && (s.pc[t] == Holding || (s.pc[t].In? && !s.disciplined))
    case CallMark(t, _) => Running(s, t) && (s.pc[t] == Holding || s.pc[t].In?)
    case Relock(t) => Running(s, t) && s.pc[t].Woken?
    case Go(t) => Running(s, t) && (s.pc[t].Testing? || s.pc[t].SigDeq? || s.pc[t].SigPush?)
    case Lock(t) => t in s.pc && (s.pc[t] == Locking || s.pc[t].Waiting? || s.pc[t] == Unlocking)
    case Enqueue(t) => t in s.pc && s.pc[t].Leaving?
    case Cb(w) => true
    case CbEnd(w) => true
    case Dispatch(t, w) => t in s.pc && !Blocked(s.pc[t]) && w < s.workers
    // user code may yield
    case Leave(t) => t in s.pc && (s.pc[t] == Idle || s.pc[t] == Holding || s.pc[t].In?)
  }

  /** What a step does to the mutex. */
  function MutexAct(s: State, a: Act): Option<M.Act>
    requires Ready(s, a)
  {
    match a
    case CallLock(t) => Some(M.CallLock(M.Thread(t)))
    case CallWait(t, _) => Some(M.CallLock(M.Thread(t)))
    case Relock(t) => Some(M.CallLock(M.Thread(t)))
    case CallUnlock(t) => Some(M.CallUnlock(M.Thread(t)))
    case CallMark(_, _) => None
    case Go(t) =>
      (match s.pc[t]
       case Testing(st) => if s.status == st then None else Some(M.HandOver(M.Thread(t)))
       case SigDeq(st) => if Q(s, st) == [] then Some(M.CallUnlock(M.Thread(t))) else None
       case _ => Some(M.CallUnlock(M.Thread(t))))
    case Lock(t) => Some(M.Step(M.Thread(t)))
    case Enqueue(t) => Some(M.CallUnlock(M.Callback(s.pc[t].w)))
    case Cb(w) => Some(M.Step(M.Callback(w)))
    case CbEnd(w) => Some(M.Leave(M.Callback(w)))
    case Dispatch(t, w) => Some(M.Dispatch(M.Thread(t), w))
    case Leave(t) => Some(M.Leave(M.Thread(t)))
  }

  predicate Enabled(s: State, a: Act) {
    && Ready(s, a)
    && match MutexAct(s, a)
       case None => true
       case Some(m) => M.Enabled(s.mx, m) && (a.CbEnd? ==> s.mx.pc[M.Callback(a.w)] == M.Out)
  }

  function MutexNext(s: State, a: Act): M.State
    requires Enabled(s, a)
  {
    match MutexAct(s, a)
    case None => s.mx
    case Some(m) => M.Next(s.mx, m)
  }

  function To(s: State, t: Tid, pc: Pc): State {
    s.(pc := s.pc[t := pc])
  }

  /** Where a thread is after a step in the mutex. */
  function Settle(pc: Pc, m: M.Pc): Pc {
    if m == M.Held && pc == Locking then Holding
    else if m == M.Held && pc.Waiting? then Testing(pc.st)
    else if m == M.Out && pc == Unlocking then Idle
    else pc
  }

  /** Signalling takes the first in the queue, if any. */
  function Signal(s: State, t: Tid, st: bool): State {
    if Q(s, st) == [] then To(s, t, Unlocking)
    else
      var u := Q(s, st)[0];
      To(To(SetQ(s, st, Q(s, st)[1..]), u, Signalled(st)), t, SigPush(u))
  }

  function PushOne(s: State, t: Tid, u: Tid): State {
    To(if u in s.pc && s.pc[u].Signalled? then To(s, u, Woken(s.pc[u].st)) else s, t, Unlocking)
  }

  /** The step of thread t outside the mutex, running on worker w. */
  function GoNext(s: State, t: Tid, w: M.Worker): State
    requires t in s.pc
  {
    match s.pc[t]
    case Testing(st) => To(s, t, if s.status == st then In(st) else Leaving(st, w))
    case SigDeq(st) => Signal(s, t, st)
    case SigPush(u) => PushOne(s, t, u)
    case _ => s
  }

  /** All but the mutex, whose next state is given. */
  function Own(s: State, a: Act, mx: M.State): State
    requires Ready(s, a)
  {
    match a
    case CallLock(t) => To(s, t, Locking)
    case CallWait(t, st) => To(s, t, Waiting(st))
    case Relock(t) => To(s, t, Waiting(s.pc[t].st))
    case CallUnlock(t) => To(s, t, Unlocking)
    case CallMark(t, st) => To(s.(status := st), t, SigDeq(st))
    case Go(t) => GoNext(s, t, s.mx.on[M.Thread(t)])
    case Lock(t) => if M.Thread(t) in mx.pc then To(s, t, Settle(s.pc[t], mx.pc[M.Thread(t)])) else s
    case Enqueue(t) => To(SetQ(s, s.pc[t].st, Q(s, s.pc[t].st) + [t]), t, Asleep(s.pc[t].st))
    case _ => s
  }

  function Next(s: State, a: Act): State
    requires Enabled(s, a)
  {
    Own(s, a, MutexNext(s, a)).(mx := MutexNext(s, a))
  }

  ghost predicate Init(s: State) {
    && s.status == false && s.q0 == [] && s.q1 == [] && s.workers > 0
    && (forall t :: t in s.pc ==> s.pc[t] == Idle)
    && M.Init(s.mx)
    && (forall t :: t in s.pc <==> M.Thread(t) in s.mx.pc)
    && forall w: nat :: M.Callback(w) in s.mx.pc <==> w < s.workers
  }

  // ----- the invariant

  /** Where a thread is in the mutex. */
  predicate Fits(pc: Pc, m: M.Pc) {
    match pc
    case Idle => m.Out?
    case Locking => M.InLock(m)
    case Waiting(_) => M.InLock(m)
    case Holding => m.Held?
    case Testing(_) => m.Held?
    case In(_) => m.Held?
    case SigDeq(_) => m.Held?
    case SigPush(_) => m.Held?
    case Unlocking => M.InUnlock(m)
    case _ => m.Out?
  }

  ghost predicate SyncOk(s: State) {
    && (forall t :: t in s.pc ==> M.Thread(t) in s.mx.pc && Fits(s.pc[t], s.mx.pc[M.Thread(t)]))
    && (forall t :: M.Thread(t) in s.mx.pc ==> t in s.pc)
    && (forall w :: M.Callback(w) in s.mx.pc ==> var m := s.mx.pc[M.Callback(w)]; m.Out? || m.Held? || M.InUnlock(m))
    && (forall t :: t in s.pc && Blocked(s.pc[t]) ==> M.Thread(t) !in s.mx.on)
  }

  ghost predicate CallbacksOk(s: State) {
    && (forall t :: t in s.pc && s.pc[t].Leaving? ==>
          M.Callback(s.pc[t].w) in s.mx.pc && s.mx.pc[M.Callback(s.pc[t].w)] == M.Held)
    && (forall t, u :: t in s.pc && u in s.pc && s.pc[t].Leaving? && s.pc[u].Leaving? && s.pc[t].w == s.pc[u].w ==> t == u)
    && (forall w :: M.Callback(w) in s.mx.on ==> s.mx.on[M.Callback(w)] == w)
    && (forall w :: M.Callback(w) in s.mx.pc && !s.mx.pc[M.Callback(w)].Out? ==> M.Callback(w) in s.mx.on)
    && (forall w: nat :: M.Callback(w) in s.mx.pc <==> w < s.workers)
    && (forall a :: a in s.mx.on ==> s.mx.on[a] < s.workers)
  }

  ghost predicate Listed(s: State, st: bool) {
    && (forall i, j :: 0 <= i < j < |Q(s, st)| ==> Q(s, st)[i] != Q(s, st)[j])
    && (forall t :: t in Q(s, st) <==> t in s.pc && s.pc[t] == Asleep(st))
  }

  ghost predicate SignalsOk(s: State) {
    && (forall t :: t in s.pc && s.pc[t].SigPush? ==> s.pc[t].u in s.pc && s.pc[s.pc[t].u] == Signalled(s.status))
    && (forall u :: u in s.pc && s.pc[u].Signalled? ==> exists t :: t in s.pc && s.pc[t] == SigPush(u))
  }

  /** What the owner, or the thread whose callback is the owner, knows about the status. */
  predicate KnowsStatus(s: State, pc: Pc) {
    match pc
    case In(st) => s.status == st
    case SigDeq(st) => s.status == st
    case Leaving(st, _) => s.status != st
    case _ => true
  }

  ghost predicate StatusOk(s: State) {
    forall t :: t in s.pc ==> KnowsStatus(s, s.pc[t])
  }

  /** Wanting the present status, and not asleep on a condition: it is in the mutex, about to
      enter it, or about to test the status. */
  predicate Contends(s: State, pc: Pc) {
    pc == Waiting(s.status) || pc == Woken(s.status) || pc == Testing(s.status) || pc == Signalled(s.status)
  }

  /** Bound to signal before it lets go of the mutex. */
  predicate WillSignal(pc: Pc) { pc.In? || pc.SigDeq? }

  predicate Hopeful(s: State, pc: Pc) { Contends(s, pc) || WillSignal(pc) }

  ghost predicate HopeOk(s: State) {
    s.disciplined && Q(s, s.status) != [] ==> exists t :: t in s.pc && Hopeful(s, s.pc[t])
  }

  ghost predicate Inv(s: State) {
    && M.Inv(s.mx) && SyncOk(s) && CallbacksOk(s)
    && Listed(s, false) && Listed(s, true) && SignalsOk(s) && StatusOk(s) && HopeOk(s)
  }

  // ----- what a step of the mutex leaves alone

  predicate Sleeps(m: M.Pc) { m.Asleep? || m.InHand? }

  /** Agent a has moved; a thread that it dequeues or pushes stays inside lock. */
  ghost predicate Touches(m: M.State, m': M.State, a: M.Tid) {
    && (forall b :: b in m'.pc <==> b in m.pc)
    && (forall b :: b in m.pc && b != a ==> m'.pc[b] == m.pc[b] || (Sleeps(m.pc[b]) && M.InLock(m'.pc[b])))
    && (forall b :: b != a ==> (b in m'.on <==> b in m.on) && (b in m.on ==> m'.on[b] == m.on[b]))
  }

  lemma Touch(m: M.State, act: M.Act)
    requires M.Inv(m) && M.Enabled(m, act) && !act.HandOver?
    ensures Touches(m, M.Next(m, act), act.t)
  {
    if act.Step? { TouchStep(m, act.t); }
  }

  lemma TouchStep(m: M.State, a: M.Tid)
    requires M.QueueOk(m) && M.HandsOk(m) && M.Enabled(m, M.Step(a))
    ensures Touches(m, M.StepNext(m, a), a)
    ensures M.StepNext(m, a).on == m.on || M.StepNext(m, a).on == m.on - {a}
  {
    hide Touches, M.StepNext, M.QueueOk, M.HandsOk;
    if m.pc[a].UnDeq? { TouchDequeue(m, a); }
    else if m.pc[a].UnPush? { TouchPush(m, a); }
    else { TouchAlone(m, a); }
  }

  lemma TouchDequeue(m: M.State, a: M.Tid)
    requires M.QueueOk(m) && M.Enabled(m, M.Step(a)) && m.pc[a].UnDeq?
    ensures Touches(m, M.StepNext(m, a), a) && M.StepNext(m, a).on == m.on
  {
    assert m.queue[0] in m.queue;
  }

  lemma TouchPush(m: M.State, a: M.Tid)
    requires M.HandsOk(m) && M.Enabled(m, M.Step(a)) && m.pc[a].UnPush?
    ensures Touches(m, M.StepNext(m, a), a) && M.StepNext(m, a).on == m.on
  {
  }

  lemma TouchAlone(m: M.State, a: M.Tid)
    requires M.Enabled(m, M.Step(a)) && !m.pc[a].UnDeq? && !m.pc[a].UnPush?
    ensures Touches(m, M.StepNext(m, a), a)
    ensures M.StepNext(m, a).on == m.on || M.StepNext(m, a).on == m.on - {a}
  {
    hide M.InLock, Sleeps;
    match m.pc[a]
    case LockRead(_) =>
    case LockCas(_, _) =>
    case Reserved =>
    case TryRead =>
    case TryCas(_) =>
    case UnRead =>
    case UnCas(_) =>
    case UnClear(_) =>
  }

  /** Inside lock a thread stays inside or has the mutex; inside unlock it stays or is through. */
  lemma StepOwn(m: M.State, a: M.Tid)
    requires M.Inv(m) && M.Enabled(m, M.Step(a))
    ensures a in M.StepNext(m, a).pc
    ensures var m' := M.StepNext(m, a);
      && (M.InLock(m.pc[a]) ==> M.InLock(m'.pc[a]) || m'.pc[a].Held?)
      && (M.InUnlock(m.pc[a]) ==> m'.on == m.on && (M.InUnlock(m'.pc[a]) || m'.pc[a].Out?))
  {
    hide M.WakeOk, M.PlacesOk, M.QueueOk, M.WordOk, M.HandsOk, M.LocalsOk;
    match m.pc[a]
    case UnRead => OneOwner(m, a, a);
    case UnDeq => NotOwnWakee(m, a);
    case UnPush(_) =>
    case LockRead(_) =>
    case LockCas(_, _) =>
    case Reserved =>
    case TryRead =>
    case TryCas(_) =>
    case UnCas(_) =>
    case UnClear(_) =>
  }

  lemma NotOwnWakee(m: M.State, a: M.Tid)
    requires M.QueueOk(m) && a in m.pc && m.pc[a].UnDeq? && m.queue != []
    ensures m.queue[0] != a
  {
    assert m.queue[0] in m.queue;
  }

  lemma OneOwner(m: M.State, a: M.Tid, b: M.Tid)
    requires M.Inv(m) && a in m.pc && b in m.pc && M.Owns(m.pc[a]) && M.Owns(m.pc[b])
    ensures a == b && m.word % 2 == 1
  {
    C.CountMember(m.pc, a, M.Owns);
    C.CountOne(m.pc, a, b, M.Owns);
  }

  // ----- preservation: what thread t does

  /** Thread t has gone to pc; the mutex was touched by t alone or not at all. */
  ghost predicate Moved(s: State, s': State, t: Tid, pc: Pc) {
    && t in s.pc && s'.pc == s.pc[t := pc] && s'.disciplined == s.disciplined && s'.workers == s.workers
    && Touches(s.mx, s'.mx, M.Thread(t)) && M.Thread(t) in s'.mx.pc
    && Fits(pc, s'.mx.pc[M.Thread(t)]) && (Blocked(pc) ==> M.Thread(t) !in s'.mx.on)
    && (M.Thread(t) in s'.mx.on ==> s'.mx.on[M.Thread(t)] < s.workers)
  }

  lemma SyncKept(s: State, s': State, t: Tid, pc: Pc)
    requires SyncOk(s) && Moved(s, s', t, pc)
    ensures SyncOk(s')
  {
    forall u | u in s'.pc
      ensures M.Thread(u) in s'.mx.pc && Fits(s'.pc[u], s'.mx.pc[M.Thread(u)])
      ensures Blocked(s'.pc[u]) ==> M.Thread(u) !in s'.mx.on
    {
      if u != t { assert Fits(s.pc[u], s.mx.pc[M.Thread(u)]); }
    }
  }

  /** What is known of callbacks rests on where they are and on who is leaving. */
  lemma CallbacksFrame(s: State, s': State)
    requires forall w :: M.Callback(w) in s'.mx.pc <==> M.Callback(w) in s.mx.pc
    requires forall w :: M.Callback(w) in s.mx.pc ==> s'.mx.pc[M.Callback(w)] == s.mx.pc[M.Callback(w)]
    requires forall w :: M.Callback(w) in s'.mx.on <==> M.Callback(w) in s.mx.on
    requires forall w :: M.Callback(w) in s.mx.on ==> s'.mx.on[M.Callback(w)] == s.mx.on[M.Callback(w)]
    requires forall a :: a in s'.mx.on ==> s'.mx.on[a] < s.workers
    requires forall t :: t in s'.pc && s'.pc[t].Leaving? ==> t in s.pc && s'.pc[t] == s.pc[t]
    requires s'.workers == s.workers && CallbacksOk(s)
    ensures CallbacksOk(s')
  {
  }

  lemma CallbacksKept(s: State, s': State, t: Tid, pc: Pc)
    requires SyncOk(s) && CallbacksOk(s) && Moved(s, s', t, pc) && !pc.Leaving?
    ensures CallbacksOk(s')
  {
    hide Fits;
    assert forall w :: M.Callback(w) in s.mx.pc ==> !Sleeps(s.mx.pc[M.Callback(w)]);
    assert forall a :: a in s'.mx.on ==> s'.mx.on[a] < s.workers;
    hide CallbacksOk, SyncOk;
    CallbacksFrame(s, s');
  }

  lemma ListedKept(s: State, s': State, st: bool)
    requires Q(s', st) == Q(s, st)
    requires forall t :: (t in s'.pc && s'.pc[t] == Asleep(st)) <==> (t in s.pc && s.pc[t] == Asleep(st))
    requires Listed(s, st)
    ensures Listed(s', st)
  {
  }

  /** Whoever gives hope still does after thread t has moved, unless it was t. */
  lemma HopeKept(s: State, s': State, t: Tid)
    requires HopeOk(s) && t in s.pc && t in s'.pc && s'.disciplined == s.disciplined && s'.status == s.status
    requires forall u :: u in s.pc && u != t ==> u in s'.pc && s'.pc[u] == s.pc[u]
    requires Q(s', s.status) != [] ==> Q(s, s.status) != []
    requires s.disciplined && Hopeful(s, s.pc[t]) ==> Hopeful(s', s'.pc[t])
    ensures HopeOk(s')
  {
    if s'.disciplined && Q(s', s'.status) != [] {
      var u :| u in s.pc && Hopeful(s, s.pc[u]);
      assert Hopeful(s', s'.pc[u]);
    }
  }

  predicate Plain(pc: Pc) { !pc.Asleep? && !pc.Signalled? && !pc.SigPush? }

  /** A move that touches neither queue, hand nor status. */
  ghost predicate PlainMove(s: State, s': State, t: Tid, pc: Pc) {
    && Moved(s, s', t, pc) && !pc.Leaving? && s'.q0 == s.q0 && s'.q1 == s.q1 && s'.status == s.status
    && Plain(s.pc[t]) && Plain(pc) && KnowsStatus(s, pc)
  }

  lemma PlainKeeps(s: State, s': State, t: Tid, pc: Pc)
    requires PlainMove(s, s', t, pc) && M.Inv(s'.mx)
    requires (s.disciplined && Hopeful(s, s.pc[t]) ==> Hopeful(s, pc)) || Q(s, s.status) == []
    requires Inv(s)
    ensures Inv(s')
  {
    hide SyncOk, CallbacksOk, Listed, HopeOk, M.Inv, Moved, SignalsOk, StatusOk, Touches;
    Shape(s, s', t, pc);
    SyncKept(s, s', t, pc);
    CallbacksKept(s, s', t, pc);
    ListedKept(s, s', false);
    ListedKept(s, s', true);
    SignalsKept(s, s', t, pc);
    StatusKept(s, s', t, pc);
    if Q(s, s.status) == [] { NoHopeNeeded(s'); } else { HopeKept(s, s', t); }
  }

  lemma NoHopeNeeded(s: State)
    requires Q(s, s.status) == []
    ensures HopeOk(s)
  {
  }

  lemma Shape(s: State, s': State, t: Tid, pc: Pc)
    requires Moved(s, s', t, pc)
    ensures t in s.pc && s'.pc == s.pc[t := pc] && s'.disciplined == s.disciplined
  {
  }

  lemma SignalsKept(s: State, s': State, t: Tid, pc: Pc)
    requires SignalsOk(s) && t in s.pc && s'.pc == s.pc[t := pc] && s'.status == s.status && Plain(s.pc[t]) && Plain(pc)
    ensures SignalsOk(s')
  {
    forall u | u in s'.pc && s'.pc[u].Signalled? ensures exists v :: v in s'.pc && s'.pc[v] == SigPush(u) {
      var v :| v in s.pc && s.pc[v] == SigPush(u);
      assert s'.pc[v] == SigPush(u);
    }
  }

  lemma StatusKept(s: State, s': State, t: Tid, pc: Pc)
    requires StatusOk(s) && t in s.pc && s'.pc == s.pc[t := pc] && s'.status == s.status && KnowsStatus(s, pc)
    ensures StatusOk(s')
  {
    forall u | u in s'.pc ensures KnowsStatus(s', s'.pc[u]) {
      if u != t { assert KnowsStatus(s, s.pc[u]); }
    }
  }

  // ----- calls and steps in the mutex

  lemma MutexKeeps(s: State, a: Act)
    requires Enabled(s, a) && M.Inv(s.mx)
    ensures M.Inv(MutexNext(s, a))
  {
    hide M.Inv;
    match MutexAct(s, a)
    case None =>
    case Some(m) => M.NextKeeps(s.mx, m);
  }

  predicate Calls(a: Act) { a.CallLock? || a.CallWait? || a.Relock? || a.CallUnlock? }

  /** Calling lock or unlock changes the caller's own program point and nothing else. */
  lemma MutexCall(m: M.State, a: M.Tid, act: M.Act)
    requires M.Enabled(m, act) && (act == M.CallLock(a) || act == M.CallUnlock(a))
    ensures var m' := M.Next(m, act); Touches(m, m', a) && m'.on == m.on && a in m'.pc
    ensures M.Next(m, act).pc[a] == (if act.CallLock? then M.LockRead(false) else M.UnRead)
  {
  }

  lemma CallMoves(s: State, a: Act)
    requires Calls(a) && Enabled(s, a) && CallbacksOk(s)
    ensures PlainMove(s, Next(s, a), a.t, Next(s, a).pc[a.t])
  {
    hide M.Enabled, M.Next, Touches, CallbacksOk;
    var act := MutexAct(s, a).value;
    MutexCall(s.mx, M.Thread(a.t), act);
    match a
    case CallLock(t) => Called(s, t, Locking, act);
    case CallWait(t, st) => Called(s, t, Waiting(st), act);
    case CallUnlock(t) => Called(s, t, Unlocking, act);
    case Relock(t) => Called(s, t, Waiting(s.pc[t].st), act);
  }

  lemma Called(s: State, t: Tid, pc: Pc, act: M.Act)
    requires Running(s, t) && M.Thread(t) in s.mx.pc && Plain(s.pc[t]) && M.Enabled(s.mx, act) && CallbacksOk(s)
    requires act == if pc == Unlocking then M.CallUnlock(M.Thread(t)) else M.CallLock(M.Thread(t))
    requires pc == Unlocking || pc == Locking || pc.Waiting?
    ensures PlainMove(s, To(s, t, pc).(mx := M.Next(s.mx, act)), t, pc)
  {
    hide M.Enabled, M.Next, Touches;
    MutexCall(s.mx, M.Thread(t), act);
  }

  lemma CallKeeps(s: State, a: Act)
    requires Calls(a) && Enabled(s, a) && Inv(s)
    ensures Inv(Next(s, a))
  {
    hide Inv, SyncOk, CallbacksOk, M.Inv, Enabled, Next, PlainMove;
    Parts(s);
    CallMoves(s, a);
    MutexKeeps(s, a);
    CallHope(s, a);
    PlainKeeps(s, Next(s, a), a.t, Next(s, a).pc[a.t]);
  }

  lemma CallHope(s: State, a: Act)
    requires Calls(a) && Enabled(s, a)
    ensures a.t in s.pc && a.t in Next(s, a).pc && Next(s, a).mx == MutexNext(s, a)
    ensures s.disciplined && Hopeful(s, s.pc[a.t]) ==> Hopeful(s, Next(s, a).pc[a.t])
  {
  }

  lemma Parts(s: State)
    requires Inv(s)
    ensures M.Inv(s.mx) && SyncOk(s) && CallbacksOk(s) && SignalsOk(s) && StatusOk(s) && HopeOk(s)
    ensures Listed(s, false) && Listed(s, true)
  {
  }

  lemma LockMoves(s: State, t: Tid)
    requires t in s.pc && Enabled(s, Lock(t)) && M.Inv(s.mx) && SyncOk(s) && CallbacksOk(s)
    ensures PlainMove(s, Next(s, Lock(t)), t, Next(s, Lock(t)).pc[t])
  {
    hide M.Inv, M.StepNext, Touches, CallbacksOk;
    Touch(s.mx, M.Step(M.Thread(t)));
    TouchOn(s.mx, M.Thread(t));
    StepOwn(s.mx, M.Thread(t));
    LockPlace(s, t);
    assert Fits(s.pc[t], s.mx.pc[M.Thread(t)]);
  }

  lemma LockPlace(s: State, t: Tid)
    requires Enabled(s, Lock(t)) && CallbacksOk(s) && M.Inv(s.mx)
    ensures var m := MutexNext(s, Lock(t)); M.Thread(t) in m.on ==> m.on[M.Thread(t)] < s.workers
  {
    hide M.Inv, M.StepNext;
    TouchOn(s.mx, M.Thread(t));
  }

  lemma TouchOn(m: M.State, a: M.Tid)
    requires M.Inv(m) && M.Enabled(m, M.Step(a))
    ensures M.StepNext(m, a).on == m.on || M.StepNext(m, a).on == m.on - {a}
  {
    TouchStep(m, a);
  }

  lemma LockKeeps(s: State, t: Tid)
    requires Enabled(s, Lock(t)) && Inv(s)
    ensures Inv(Next(s, Lock(t)))
  {
    hide SyncOk, CallbacksOk, M.Inv, SignalsOk, StatusOk, HopeOk, Listed, PlainMove;
    LockMoves(s, t);
    MutexKeeps(s, Lock(t));
    PlainKeeps(s, Next(s, Lock(t)), t, Next(s, Lock(t)).pc[t]);
  }

  // ----- dispatching, yielding and callbacks: no thread's program point changes

  lemma StillKeeps(s: State, s': State)
    requires Inv(s) && s' == s.(mx := s'.mx) && M.Inv(s'.mx) && SyncOk(s') && CallbacksOk(s')
    ensures Inv(s')
  {
    hide SyncOk, CallbacksOk, M.Inv;
  }

  lemma PlaceKeeps(s: State, a: Act)
    requires (a.Dispatch? || a.Leave?) && Enabled(s, a) && Inv(s)
    ensures Inv(Next(s, a))
  {
    hide M.Inv, Listed, SignalsOk, StatusOk, HopeOk;
    var s' := Next(s, a);
    MutexKeeps(s, a);
    Touch(s.mx, MutexAct(s, a).value);
    PlaceSync(s, a);
    StillKeeps(s, s');
  }

  lemma PlaceSync(s: State, a: Act)
    requires (a.Dispatch? || a.Leave?) && Enabled(s, a) && SyncOk(s) && CallbacksOk(s) && M.Inv(s.mx)
    requires Touches(s.mx, MutexNext(s, a), M.Thread(a.t))
    ensures SyncOk(Next(s, a)) && CallbacksOk(Next(s, a))
  {
    hide M.Inv;
    assert s.pc[a.t := s.pc[a.t]] == s.pc;
    assert Moved(s, Next(s, a), a.t, s.pc[a.t]);
    SyncKept(s, Next(s, a), a.t, s.pc[a.t]);
    CallbacksKept(s, Next(s, a), a.t, s.pc[a.t]);
  }

  lemma CbKeeps(s: State, a: Act)
    requires (a.Cb? || a.CbEnd?) && Enabled(s, a) && Inv(s)
    ensures Inv(Next(s, a))
  {
    hide M.Inv, Listed, SignalsOk, StatusOk, HopeOk;
    var s' := Next(s, a);
    MutexKeeps(s, a);
    Touch(s.mx, MutexAct(s, a).value);
    if a.Cb? { StepOwn(s.mx, M.Callback(a.w)); }
    CbSync(s, s', a.w);
    CbCallbacks(s, s', a.w);
    StillKeeps(s, s');
  }

  lemma CbSync(s: State, s': State, w: M.Worker)
    requires SyncOk(s) && s' == s.(mx := s'.mx) && Touches(s.mx, s'.mx, M.Callback(w)) && M.Callback(w) in s'.mx.pc
    requires var m := s'.mx.pc[M.Callback(w)]; m.Out? || M.InUnlock(m)
    ensures SyncOk(s')
  {
    forall u | u in s'.pc ensures M.Thread(u) in s'.mx.pc && Fits(s'.pc[u], s'.mx.pc[M.Thread(u)]) {
      assert Fits(s.pc[u], s.mx.pc[M.Thread(u)]);
    }
  }

  lemma CbCallbacks(s: State, s': State, w: M.Worker)
    requires SyncOk(s) && CallbacksOk(s) && s' == s.(mx := s'.mx) && Touches(s.mx, s'.mx, M.Callback(w))
    requires M.Callback(w) in s.mx.pc && !s.mx.pc[M.Callback(w)].Held?
    requires s'.mx.on == s.mx.on || (s'.mx.pc[M.Callback(w)].Out? && s'.mx.on == s.mx.on - {M.Callback(w)})
    requires s'.mx.pc[M.Callback(w)].Out? || M.Callback(w) in s.mx.on
    ensures CallbacksOk(s')
  {
  }

  // ----- steps outside the mutex

  lemma TestPasses(s: State, t: Tid)
    requires Enabled(s, Go(t)) && s.pc[t] == Testing(s.status) && Inv(s)
    ensures Inv(Next(s, Go(t)))
  {
    hide M.Inv, SignalsOk, StatusOk, HopeOk, Listed, Inv;
    Parts(s);
    PlainKeeps(s, Next(s, Go(t)), t, In(s.status));
  }

  lemma TestFails(s: State, t: Tid)
    requires Enabled(s, Go(t)) && s.pc[t].Testing? && s.pc[t].st != s.status && Inv(s)
    ensures Inv(Next(s, Go(t)))
  {
    hide Inv, M.Inv, SyncOk, CallbacksOk, SignalsOk, StatusOk, HopeOk, Listed, M.Enabled;
    var s' := Next(s, Go(t));
    Parts(s);
    MutexKeeps(s, Go(t));
    Handed(s, t);
    SwitchSync(s, t);
    SwitchCallbacks(s, t);
    ListedKept(s, s', false);
    ListedKept(s, s', true);
    SignalsKept(s, s', t, s'.pc[t]);
    StatusKept(s, s', t, s'.pc[t]);
    HopeKept(s, s', t);
    Whole(s');
  }

  lemma Whole(s: State)
    requires M.Inv(s.mx) && SyncOk(s) && CallbacksOk(s) && SignalsOk(s) && StatusOk(s) && HopeOk(s)
    requires Listed(s, false) && Listed(s, true)
    ensures Inv(s)
  {
  }

  /** The switch to the callback, which now holds the mutex. */
  ghost predicate Switched(s: State, s': State, t: Tid) {
    && M.Thread(t) in s.mx.on && M.Thread(t) in s.mx.pc
    && var w := s.mx.on[M.Thread(t)];
    && var c := M.Callback(w);
    && t in s.pc && s.pc[t].Testing?
    && c in s.mx.pc && c !in s.mx.on && s.mx.pc[c] == M.Out && s.mx.pc[M.Thread(t)] == M.Held
    && s' == s.(pc := s.pc[t := Leaving(s.pc[t].st, w)], mx := s'.mx)
    && s'.mx.pc == s.mx.pc[M.Thread(t) := M.Out][c := M.Held]
    && s'.mx.on == (s.mx.on - {M.Thread(t)})[c := w]
  }

  lemma Handed(s: State, t: Tid)
    requires Enabled(s, Go(t)) && s.pc[t].Testing? && s.pc[t].st != s.status
    ensures Switched(s, Next(s, Go(t)), t)
  {
  }

  lemma SwitchSync(s: State, t: Tid)
    requires Enabled(s, Go(t)) && s.pc[t].Testing? && SyncOk(s) && Switched(s, Next(s, Go(t)), t)
    ensures SyncOk(Next(s, Go(t)))
  {
    hide Enabled, Next;
    var s' := Next(s, Go(t));
    forall u | u in s'.pc ensures M.Thread(u) in s'.mx.pc && Fits(s'.pc[u], s'.mx.pc[M.Thread(u)]) {
      assert Fits(s.pc[u], s.mx.pc[M.Thread(u)]);
    }
  }

  lemma SwitchCallbacks(s: State, t: Tid)
    requires Enabled(s, Go(t)) && s.pc[t].Testing? && CallbacksOk(s) && Switched(s, Next(s, Go(t)), t)
    ensures CallbacksOk(Next(s, Go(t)))
  {
    hide Enabled, Next;
  }

  /** Two threads have moved, and the mutex was touched by t alone or not at all. */
  ghost predicate Moved2(s: State, s': State, u: Tid, pu: Pc, t: Tid, pc: Pc) {
    && t in s.pc && u in s.pc && t != u && s.pc[t].SigDeq? != s.pc[t].SigPush?
    && s'.pc == s.pc[u := pu][t := pc] && s'.disciplined == s.disciplined && s'.workers == s.workers
    && Touches(s.mx, s'.mx, M.Thread(t)) && M.Thread(t) in s'.mx.pc
    && Fits(pc, s'.mx.pc[M.Thread(t)]) && !Blocked(pc) && Blocked(s.pc[u]) && !pu.Leaving?
    && M.Thread(u) in s'.mx.pc && s'.mx.pc[M.Thread(u)].Out? && s'.mx.on == s.mx.on
  }

  lemma SyncKept2(s: State, s': State, u: Tid, pu: Pc, t: Tid, pc: Pc)
    requires SyncOk(s) && Moved2(s, s', u, pu, t, pc) && (pu.Signalled? || pu.Woken?)
    ensures SyncOk(s')
  {
    forall v | v in s'.pc ensures M.Thread(v) in s'.mx.pc && Fits(s'.pc[v], s'.mx.pc[M.Thread(v)]) {
      if v != t && v != u { assert Fits(s.pc[v], s.mx.pc[M.Thread(v)]); }
    }
  }

  lemma CallbacksKept2(s: State, s': State, u: Tid, pu: Pc, t: Tid, pc: Pc)
    requires SyncOk(s) && CallbacksOk(s) && Moved2(s, s', u, pu, t, pc)
    ensures CallbacksOk(s')
  {
    hide Fits;
    assert forall w :: M.Callback(w) in s.mx.pc ==> !Sleeps(s.mx.pc[M.Callback(w)]);
    assert forall a :: a in s.mx.on ==> s.mx.on[a] < s.workers;
    hide CallbacksOk, SyncOk;
    CallbacksFrame(s, s');
  }

  lemma SignalMoves(s: State, t: Tid)
    requires Enabled(s, Go(t)) && s.pc[t].SigDeq? && Q(s, s.pc[t].st) != [] && SyncOk(s) && Listed(s, s.pc[t].st)
    ensures var u := Q(s, s.pc[t].st)[0];
      && u in s.pc && s.pc[u] == Asleep(s.pc[t].st)
      && Moved2(s, Next(s, Go(t)), u, Signalled(s.pc[t].st), t, SigPush(u))
    ensures Next(s, Go(t)).mx == s.mx && Next(s, Go(t)).status == s.status
    ensures var d := s.pc[t].st; Q(Next(s, Go(t)), d) == Q(s, d)[1..] && Q(Next(s, Go(t)), !d) == Q(s, !d)
  {
    var u := Q(s, s.pc[t].st)[0];
    assert u in Q(s, s.pc[t].st);
    assert Fits(s.pc[u], s.mx.pc[M.Thread(u)]);
    assert Fits(s.pc[t], s.mx.pc[M.Thread(t)]);
  }

  lemma SignalShape(s: State, t: Tid)
    requires t in s.pc && s.pc[t].SigDeq? && Q(s, s.pc[t].st) != [] && Enabled(s, Go(t))
    ensures var d := s.pc[t].st; var u := Q(s, d)[0]; var s' := Next(s, Go(t));
      && s'.pc == s.pc[u := Signalled(d)][t := SigPush(u)] && s'.disciplined == s.disciplined
      && (forall v :: v != u && v != t ==> (v in s'.pc <==> v in s.pc) && (v in s.pc ==> s'.pc[v] == s.pc[v]))
  {
  }

  lemma SignalListed(s: State, s': State, u: Tid, t: Tid, st: bool)
    requires Listed(s, st) && Q(s, st) != [] && u == Q(s, st)[0] && t in s.pc && s.pc[t].SigDeq?
    requires s'.pc == s.pc[u := Signalled(st)][t := SigPush(u)] && Q(s', st) == Q(s, st)[1..]
    ensures Listed(s', st)
  {
    assert u in Q(s, st);
    assert Q(s, st) == [u] + Q(s', st);
    assert forall v :: v in Q(s, st) <==> v == u || v in Q(s', st);
  }

  lemma SignalHands(s: State, s': State, u: Tid, t: Tid)
    requires SignalsOk(s) && t in s.pc && s.pc[t].SigDeq? && u in s.pc && s.pc[u].Asleep? && s'.status == s.status
    requires s'.pc == s.pc[u := Signalled(s.status)][t := SigPush(u)]
    ensures SignalsOk(s')
  {
    forall v | v in s'.pc && s'.pc[v].Signalled? ensures exists x :: x in s'.pc && s'.pc[x] == SigPush(v) {
      if v == u {
        assert s'.pc[t] == SigPush(u);
      } else {
        var x :| x in s.pc && s.pc[x] == SigPush(v);
        assert s'.pc[x] == SigPush(v);
      }
    }
  }

  lemma StatusKept2(s: State, s': State, u: Tid, pu: Pc, t: Tid, pc: Pc)
    requires StatusOk(s) && s'.pc == s.pc[u := pu][t := pc] && s'.status == s.status
    requires KnowsStatus(s, pu) && KnowsStatus(s, pc)
    ensures StatusOk(s')
  {
    forall v | v in s'.pc ensures KnowsStatus(s', s'.pc[v]) {
      if v != t && v != u { assert KnowsStatus(s, s.pc[v]); }
    }
  }

  lemma HopeBy(s: State, u: Tid)
    requires u in s.pc && Hopeful(s, s.pc[u])
    ensures HopeOk(s)
  {
  }

  lemma Knows(s: State, t: Tid)
    requires StatusOk(s) && t in s.pc
    ensures KnowsStatus(s, s.pc[t])
  {
  }

  lemma SignalKeeps(s: State, t: Tid)
    requires t in s.pc && s.pc[t].SigDeq? && Q(s, s.pc[t].st) != [] && Enabled(s, Go(t)) && Inv(s)
    ensures Inv(Next(s, Go(t)))
  {
    hide Inv, M.Inv, SyncOk, CallbacksOk, SignalsOk, StatusOk, HopeOk, Listed, Next, Enabled, Q;
    Parts(s);
    Knows(s, t);
    var s' := Next(s, Go(t));
    var u := Q(s, s.pc[t].st)[0];
    SignalMoves(s, t);
    SignalShape(s, t);
    hide Moved2;
    SyncKept2(s, s', u, Signalled(s.status), t, SigPush(u));
    CallbacksKept2(s, s', u, Signalled(s.status), t, SigPush(u));
    SignalListed(s, s', u, t, s.status);
    ListedKept(s, s', !s.status);
    SignalHands(s, s', u, t);
    StatusKept2(s, s', u, Signalled(s.status), t, SigPush(u));
    HopeBy(s', u);
    Whole(s');
  }

  /** Nobody in the queue: mark_and_signal goes on to unlock. */
  lemma SignalNobody(s: State, t: Tid)
    requires Enabled(s, Go(t)) && s.pc[t].SigDeq? && Q(s, s.pc[t].st) == [] && Inv(s)
    ensures Inv(Next(s, Go(t)))
  {
    hide Inv, M.Inv, SyncOk, CallbacksOk, SignalsOk, StatusOk, HopeOk, Listed, PlainMove;
    Parts(s);
    Knows(s, t);
    MutexKeeps(s, Go(t));
    NobodyMoves(s, t);
    PlainKeeps(s, Next(s, Go(t)), t, Unlocking);
  }

  lemma NobodyMoves(s: State, t: Tid)
    requires Enabled(s, Go(t)) && s.pc[t].SigDeq? && Q(s, s.pc[t].st) == [] && CallbacksOk(s)
    ensures PlainMove(s, Next(s, Go(t)), t, Unlocking)
  {
    hide M.Enabled, M.Next, Touches;
    MutexCall(s.mx, M.Thread(t), MutexAct(s, Go(t)).value);
  }

  lemma PushShape(s: State, t: Tid)
    requires t in s.pc && s.pc[t].SigPush? && Enabled(s, Go(t)) && SignalsOk(s)
    ensures var u := s.pc[t].u; var act := M.CallUnlock(M.Thread(t));
      && u in s.pc && s.pc[u] == Signalled(s.status) && M.Enabled(s.mx, act)
      && Next(s, Go(t)) == s.(pc := s.pc[u := Woken(s.status)][t := Unlocking], mx := M.Next(s.mx, act))
  {
    hide M.Enabled, M.Next;
  }

  lemma PushMoves(s: State, t: Tid)
    requires t in s.pc && s.pc[t].SigPush? && Enabled(s, Go(t)) && SyncOk(s) && SignalsOk(s)
    ensures var u := s.pc[t].u; u in s.pc && Moved2(s, Next(s, Go(t)), u, Woken(s.status), t, Unlocking)
  {
    hide M.Enabled, M.Next, Next, Enabled, SignalsOk;
    PushShape(s, t);
    MutexCall(s.mx, M.Thread(t), M.CallUnlock(M.Thread(t)));
    assert Fits(s.pc[s.pc[t].u], s.mx.pc[M.Thread(s.pc[t].u)]);
  }

  /** Only one thread is pushing: it has the mutex. */
  lemma PushHands(s: State, s': State, u: Tid, t: Tid)
    requires SignalsOk(s) && SyncOk(s) && M.Inv(s.mx) && t in s.pc && s.pc[t] == SigPush(u) && u != t
    requires s'.pc == s.pc[u := Woken(s.status)][t := Unlocking]
    ensures SignalsOk(s')
  {
    hide M.Inv;
    forall x | x in s.pc && s.pc[x].SigPush? ensures x == t {
      assert Fits(s.pc[x], s.mx.pc[M.Thread(x)]) && Fits(s.pc[t], s.mx.pc[M.Thread(t)]);
      OneOwner(s.mx, M.Thread(x), M.Thread(t));
    }
  }

  lemma PushKeeps(s: State, t: Tid)
    requires t in s.pc && s.pc[t].SigPush? && Enabled(s, Go(t)) && Inv(s)
    ensures Inv(Next(s, Go(t)))
  {
    hide Inv, M.Inv, SyncOk, CallbacksOk, SignalsOk, StatusOk, HopeOk, Listed, Next, Enabled, Moved2, M.Next, M.Enabled;
    hide Q, Fits;
    Parts(s);
    MutexKeeps(s, Go(t));
    var s' := Next(s, Go(t));
    var u := s.pc[t].u;
    PushShape(s, t);
    PushMoves(s, t);
    Advanced(s, Go(t));
    SyncKept2(s, s', u, Woken(s.status), t, Unlocking);
    CallbacksKept2(s, s', u, Woken(s.status), t, Unlocking);
    PushListed(s, s', t, u, false);
    PushListed(s, s', t, u, true);
    PushHands(s, s', u, t);
    StatusKept2(s, s', u, Woken(s.status), t, Unlocking);
    HopeBy(s', u);
    Whole(s');
  }

  lemma PushListed(s: State, s': State, t: Tid, u: Tid, st: bool)
    requires t in s.pc && s.pc[t].SigPush? && u in s.pc && s.pc[u].Signalled? && Listed(s, st)
    requires s' == s.(pc := s.pc[u := Woken(s.status)][t := Unlocking], mx := s'.mx)
    ensures Listed(s', st)
  {
    hide Listed;
    ListedKept(s, s', st);
  }

  lemma Advanced(s: State, a: Act)
    requires Enabled(s, a)
    ensures Next(s, a).mx == MutexNext(s, a)
  {
  }

  // ----- the callback's first step, and the change of the status

  /** Thread t is queued and its callback c goes on to unlock. */
  ghost predicate Queued(s: State, s': State, t: Tid, c: M.Tid) {
    && t in s.pc && s.pc[t].Leaving? && c == M.Callback(s.pc[t].w)
    && s'.pc == s.pc[t := Asleep(s.pc[t].st)] && s'.workers == s.workers
    && Touches(s.mx, s'.mx, c) && c in s.mx.pc && c in s.mx.on && s'.mx.on == s.mx.on && s'.mx.pc[c] == M.UnRead
  }

  lemma EnqueueMoves(s: State, t: Tid)
    requires Enabled(s, Enqueue(t))
    ensures Queued(s, Next(s, Enqueue(t)), t, M.Callback(s.pc[t].w))
  {
    var c := M.Callback(s.pc[t].w);
    MutexCall(s.mx, c, M.CallUnlock(c));
  }

  lemma EnqueueFits(s: State, s': State, t: Tid, c: M.Tid, u: Tid)
    requires Queued(s, s', t, c) && SyncOk(s) && u in s'.pc
    ensures M.Thread(u) in s'.mx.pc && Fits(s'.pc[u], s'.mx.pc[M.Thread(u)])
  {
    assert Fits(s.pc[u], s.mx.pc[M.Thread(u)]);
  }

  lemma EnqueueSync(s: State, s': State, t: Tid, c: M.Tid)
    requires Queued(s, s', t, c) && SyncOk(s)
    ensures SyncOk(s')
  {
    hide Fits;
    forall u | u in s'.pc ensures M.Thread(u) in s'.mx.pc && Fits(s'.pc[u], s'.mx.pc[M.Thread(u)]) {
      EnqueueFits(s, s', t, c, u);
    }
  }

  lemma EnqueueCallbacks(s: State, s': State, t: Tid, c: M.Tid)
    requires Queued(s, s', t, c) && CallbacksOk(s)
    ensures CallbacksOk(s')
  {
  }

  lemma EnqueueListed(s: State, t: Tid, st: bool)
    requires Enabled(s, Enqueue(t)) && Listed(s, st)
    ensures Listed(Next(s, Enqueue(t)), st)
  {
    var s' := Next(s, Enqueue(t));
    var d := s.pc[t].st;
    assert s'.pc == s.pc[t := Asleep(d)];
    assert Q(s', st) == if st == d then Q(s, st) + [t] else Q(s, st);
    hide M.Enabled, M.Next, Enabled, Next, Q, Listed;
    if st == d { AppendListed(s, s', t, d); } else { ListedKept(s, s', st); }
  }

  lemma AppendListed(s: State, s': State, t: Tid, st: bool)
    requires t in s.pc && s.pc[t].Leaving? && s'.pc == s.pc[t := Asleep(st)] && Q(s', st) == Q(s, st) + [t]
    requires Listed(s, st)
    ensures Listed(s', st)
  {
    hide Q;
    assert t !in Q(s, st);
    assert forall u :: u in Q(s', st) <==> u == t || u in Q(s, st);
  }

  lemma EnqueueSignals(s: State, s': State, t: Tid, st: bool)
    requires SignalsOk(s) && t in s.pc && s.pc[t].Leaving? && s'.pc == s.pc[t := Asleep(st)] && s'.status == s.status
    ensures SignalsOk(s')
  {
    forall u | u in s'.pc && s'.pc[u].Signalled? ensures exists v :: v in s'.pc && s'.pc[v] == SigPush(u) {
      var v :| v in s.pc && s.pc[v] == SigPush(u);
      assert s'.pc[v] == SigPush(u);
    }
  }

  lemma EnqueueShape(s: State, t: Tid)
    requires Enabled(s, Enqueue(t)) && StatusOk(s)
    ensures var s' := Next(s, Enqueue(t));
      && s'.pc == s.pc[t := Asleep(s.pc[t].st)] && s'.status == s.status && s'.disciplined == s.disciplined
      && Q(s', s.status) == Q(s, s.status) && s.pc[t].Leaving?
    ensures !Hopeful(s, s.pc[t])
  {
    Knows(s, t);
  }

  lemma EnqueueKeeps(s: State, t: Tid)
    requires Enabled(s, Enqueue(t)) && Inv(s)
    ensures Inv(Next(s, Enqueue(t)))
  {
    hide Inv, M.Inv, SyncOk, CallbacksOk, SignalsOk, StatusOk, HopeOk, Listed, Next;
    Parts(s);
    MutexKeeps(s, Enqueue(t));
    Advanced(s, Enqueue(t));
    var s' := Next(s, Enqueue(t));
    var c := M.Callback(s.pc[t].w);
    EnqueueMoves(s, t);
    EnqueueSync(s, s', t, c);
    EnqueueCallbacks(s, s', t, c);
    EnqueueListed(s, t, false);
    EnqueueListed(s, t, true);
    EnqueueShape(s, t);
    EnqueueSignals(s, s', t, s.pc[t].st);
    StatusKept(s, s', t, s'.pc[t]);
    HopeKept(s, s', t);
    Whole(s');
  }

  /** Whoever is inside while another owns the mutex knows nothing of the status. */
  lemma OthersIgnorant(s: State, t: Tid, u: Tid)
    requires SyncOk(s) && CallbacksOk(s) && M.Inv(s.mx) && t in s.pc && u in s.pc && u != t && Fits(s.pc[t], M.Held)
    requires s.pc[t] == Holding || s.pc[t].In?
    ensures !(s.pc[u].In? || s.pc[u].SigDeq? || s.pc[u].SigPush? || s.pc[u].Leaving?)
  {
    hide M.Inv;
    assert Fits(s.pc[u], s.mx.pc[M.Thread(u)]) && Fits(s.pc[t], s.mx.pc[M.Thread(t)]);
    if s.pc[u].Leaving? {
      OneOwner(s.mx, M.Thread(t), M.Callback(s.pc[u].w));
    } else if s.pc[u].In? || s.pc[u].SigDeq? || s.pc[u].SigPush? {
      OneOwner(s.mx, M.Thread(t), M.Thread(u));
    }
  }

  lemma MarkStatus(s: State, t: Tid, st: bool)
    requires Enabled(s, CallMark(t, st)) && SyncOk(s) && CallbacksOk(s) && M.Inv(s.mx) && SignalsOk(s)
    ensures StatusOk(Next(s, CallMark(t, st))) && SignalsOk(Next(s, CallMark(t, st)))
  {
    hide M.Inv, SyncOk, CallbacksOk;
    var s' := Next(s, CallMark(t, st));
    forall u | u in s.pc && u != t
      ensures !(s.pc[u].In? || s.pc[u].SigDeq? || s.pc[u].SigPush? || s.pc[u].Leaving?)
    {
      OthersIgnorant(s, t, u);
    }
  }

  lemma MarkKeeps(s: State, t: Tid, st: bool)
    requires Enabled(s, CallMark(t, st)) && Inv(s)
    ensures Inv(Next(s, CallMark(t, st)))
  {
    hide Inv, M.Inv, SyncOk, CallbacksOk, SignalsOk, StatusOk, HopeOk, Listed;
    Parts(s);
    var s' := Next(s, CallMark(t, st));
    MarkMoves(s, t, st);
    SyncKept(s, s', t, SigDeq(st));
    CallbacksKept(s, s', t, SigDeq(st));
    ListedKept(s, s', false);
    ListedKept(s, s', true);
    MarkStatus(s, t, st);
    HopeBy(s', t);
    Whole(s');
  }

  lemma MarkMoves(s: State, t: Tid, st: bool)
    requires Enabled(s, CallMark(t, st)) && SyncOk(s) && CallbacksOk(s)
    ensures Moved(s, Next(s, CallMark(t, st)), t, SigDeq(st))
  {
    assert Fits(s.pc[t], s.mx.pc[M.Thread(t)]);
  }

  lemma GoKeeps(s: State, t: Tid)
    requires Enabled(s, Go(t)) && Inv(s)
    ensures Inv(Next(s, Go(t)))
  {
    hide Inv, Next;
    match s.pc[t]
    case Testing(st) => if s.status == st { TestPasses(s, t); } else { TestFails(s, t); }
    case SigDeq(st) => if Q(s, st) == [] { SignalNobody(s, t); } else { SignalKeeps(s, t); }
    case SigPush(_) => PushKeeps(s, t);
  }

  lemma NextKeeps(s: State, a: Act)
    requires Inv(s) && Enabled(s, a)
    ensures Inv(Next(s, a))
  {
    hide Inv, Next, Enabled;
    match a
    case CallMark(t, st) => MarkKeeps(s, t, st);
    case Go(t) => GoKeeps(s, t);
    case Lock(t) => LockKeeps(s, t);
    case Enqueue(t) => EnqueueKeeps(s, t);
    case Cb(_) => CbKeeps(s, a);
    case CbEnd(_) => CbKeeps(s, a);
    case Dispatch(_, _) => PlaceKeeps(s, a);
    case Leave(_) => PlaceKeeps(s, a);
    case _ => CallKeeps(s, a);
  }

  // ----- whole runs

  predicate Runs(s: State, acts: seq<Act>)
    decreases |acts|
  {
    acts == [] || (Enabled(s, acts[0]) && Runs(Next(s, acts[0]), acts[1..]))
  }

  function Exec(s: State, acts: seq<Act>): State
    requires Runs(s, acts)
    decreases |acts|
  {
    if acts == [] then s else Exec(Next(s, acts[0]), acts[1..])
  }

  lemma Starts(s: State)
    requires Init(s)
    ensures Inv(s)
  {
    hide M.Inv;
    M.Reachable(s.mx, []);
  }

  lemma {:induction false} RunKeeps(s: State, acts: seq<Act>)
    requires Inv(s) && Runs(s, acts)
    ensures Inv(Exec(s, acts)) && Exec(s, acts).disciplined == s.disciplined
    decreases |acts|
  {
    hide Inv;
    if acts != [] {
      NextKeeps(s, acts[0]);
      RunKeeps(Next(s, acts[0]), acts[1..]);
    }
  }

  lemma Reachable(s: State, acts: seq<Act>)
    requires Init(s) && Runs(s, acts)
    ensures Inv(Exec(s, acts)) && Exec(s, acts).disciplined == s.disciplined
  {
    Starts(s);
    RunKeeps(s, acts);
  }
}
