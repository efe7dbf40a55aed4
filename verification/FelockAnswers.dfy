/** What the calls of the full/empty lock are about, read off the acts of a run: the status is that
    of the last mark, and every thread is where its last call puts it. */
module FelockAnswers {
  import opened Base
  import opened Felock
  import M = Mutex

  datatype Call = ToLock | ToUnlock | ToWait(st: bool) | ToMark(st: bool)

  function CallOf(a: Act, t: Tid): Option<Call> {
    match a
    case CallLock(u) => if t == u then Some(ToLock) else None
    case CallUnlock(u) => if t == u then Some(ToUnlock) else None
    case CallWait(u, st) => if t == u then Some(ToWait(st)) else None
    case CallMark(u, st) => if t == u then Some(ToMark(st)) else None
    case _ => None
  }

  function Later(c: Option<Call>, before: Option<Call>): Option<Call> {
    if c.Some? then c else before
  }

  /** The last call of thread t in the acts, or the one before them. */
  function LastCall(acts: seq<Act>, t: Tid, before: Option<Call>): Option<Call>
    decreases |acts|
  {
    if acts == [] then before else LastCall(acts[1..], t, Later(CallOf(acts[0], t), before))
  }

  /** The status of the last mark, by whichever thread. */
  function LastMark(acts: seq<Act>, before: bool): bool
    decreases |acts|
  {
    if acts == [] then before else LastMark(acts[1..], if acts[0].CallMark? then acts[0].st else before)
  }

  /** Outside a thread has no lock or wait that was not granted; inside it is in the call it made,
      with the status that it asked for. */
  predicate Serves(pc: Pc, c: Option<Call>) {
    match pc
    case Idle => c == None || c == Some(ToUnlock) || (c.Some? && c.value.ToMark?)
    case Locking => c == Some(ToLock)
    case Holding => c == Some(ToLock)
    case Waiting(st) => c == Some(ToWait(st))
    case Testing(st) => c == Some(ToWait(st))
    case Leaving(st, _) => c == Some(ToWait(st))
    case Asleep(st) => c == Some(ToWait(st))
    case Signalled(st) => c == Some(ToWait(st))
    case Woken(st) => c == Some(ToWait(st))
    case In(st) => c == Some(ToWait(st))
    case SigDeq(st) => c == Some(ToMark(st))
    case SigPush(_) => c.Some? && c.value.ToMark?
    case Unlocking => c == Some(ToUnlock) || (c.Some? && c.value.ToMark?)
  }

  lemma ActServes(s: State, a: Act, t: Tid, c: Option<Call>)
    requires Inv(s) && Enabled(s, a) && t in s.pc && Serves(s.pc[t], c)
    ensures t in Next(s, a).pc && Serves(Next(s, a).pc[t], Later(CallOf(a, t), c))
    ensures Next(s, a).status == if a.CallMark? then a.st else s.status
  {
    Parts(s);
    hide Inv, M.Inv, M.Enabled, M.Next, SyncOk, CallbacksOk, SignalsOk, StatusOk, HopeOk, Listed, Serves, GoNext;
    if a.Go? { GoServes(s, a.t, s.mx.on[M.Thread(a.t)], t, c); } else { OtherActs(s, a, t, c); }
  }

  lemma OtherActs(s: State, a: Act, t: Tid, c: Option<Call>)
    requires Enabled(s, a) && !a.Go? && t in s.pc && Serves(s.pc[t], c)
    ensures t in Next(s, a).pc && Serves(Next(s, a).pc[t], Later(CallOf(a, t), c))
    ensures Next(s, a).status == if a.CallMark? then a.st else s.status
  {
    hide Serves, Next, Enabled;
    if a.CallLock? || a.CallUnlock? || a.CallWait? || a.CallMark? { CallServes(s, a, t, c); } else { StepServes(s, a, t, c); }
  }

  lemma CallServes(s: State, a: Act, t: Tid, c: Option<Call>)
    requires Enabled(s, a) && (a.CallLock? || a.CallUnlock? || a.CallWait? || a.CallMark?) && t in s.pc && Serves(s.pc[t], c)
    ensures t in Next(s, a).pc && Serves(Next(s, a).pc[t], Later(CallOf(a, t), c))
    ensures Next(s, a).status == if a.CallMark? then a.st else s.status
  {
    hide M.Enabled, M.Next;
    if t != a.t { hide Serves; }
  }

  lemma StepServes(s: State, a: Act, t: Tid, c: Option<Call>)
    requires Enabled(s, a) && !a.Go? && !a.CallLock? && !a.CallUnlock? && !a.CallWait? && !a.CallMark?
    requires t in s.pc && Serves(s.pc[t], c)
    ensures CallOf(a, t) == None && t in Next(s, a).pc && Serves(Next(s, a).pc[t], c) && Next(s, a).status == s.status
  {
    hide M.Enabled, M.Next;
    match a
    case Relock(_) =>
    case Lock(_) =>
    case Enqueue(_) =>
    case _ =>
  }

  lemma GoServes(s: State, u: Tid, w: M.Worker, t: Tid, c: Option<Call>)
    requires u in s.pc && t in s.pc && Serves(s.pc[t], c) && Listed(s, false) && Listed(s, true)
    ensures t in GoNext(s, u, w).pc && Serves(GoNext(s, u, w).pc[t], c) && GoNext(s, u, w).status == s.status
  {
    match s.pc[u]
    case Testing(_) =>
    case SigDeq(st) => hide GoNext; SignalServes(s, u, w, t, c);
    case SigPush(_) => hide GoNext; PushServes(s, u, w, t, c);
    case _ =>
  }

  lemma SignalServes(s: State, u: Tid, w: M.Worker, t: Tid, c: Option<Call>)
    requires u in s.pc && s.pc[u].SigDeq? && t in s.pc && Serves(s.pc[t], c) && Listed(s, s.pc[u].st)
    ensures t in GoNext(s, u, w).pc && Serves(GoNext(s, u, w).pc[t], c) && GoNext(s, u, w).status == s.status
  {
    var st := s.pc[u].st;
    if Q(s, st) != [] { assert Q(s, st)[0] in Q(s, st); }
    hide Listed;
  }

  lemma PushServes(s: State, u: Tid, w: M.Worker, t: Tid, c: Option<Call>)
    requires u in s.pc && s.pc[u].SigPush? && t in s.pc && Serves(s.pc[t], c)
    ensures t in GoNext(s, u, w).pc && Serves(GoNext(s, u, w).pc[t], c) && GoNext(s, u, w).status == s.status
  {
  }

  lemma {:induction false} RunServes(s: State, acts: seq<Act>, t: Tid, c: Option<Call>)
    requires Inv(s) && Runs(s, acts) && t in s.pc && Serves(s.pc[t], c)
    ensures t in Exec(s, acts).pc && Serves(Exec(s, acts).pc[t], LastCall(acts, t, c))
    ensures Exec(s, acts).status == LastMark(acts, s.status)
    decreases |acts|
  {
    hide Inv, Enabled, Next, Serves, CallOf;
    if acts != [] {
      NextKeeps(s, acts[0]);
      ActServes(s, acts[0], t, c);
      RunServes(Next(s, acts[0]), acts[1..], t, Later(CallOf(acts[0], t), c));
    }
  }

  /** In every run the status is that of the last mark, or false, and each thread is in or
      behind the call that it made last. */
  lemma EveryPointServesTheCall(s: State, acts: seq<Act>, t: Tid)
    requires Init(s) && Runs(s, acts) && t in s.pc
    ensures t in Exec(s, acts).pc && Serves(Exec(s, acts).pc[t], LastCall(acts, t, None))
    ensures Exec(s, acts).status == LastMark(acts, false)
  {
    hide Inv;
    Starts(s);
    RunServes(s, acts, t, None);
  }

  lemma {:induction false} BackThen(s: State, acts: seq<Act>, t: Tid)
    requires Inv(s) && Runs(s, acts) && t in Exec(s, acts).pc
    ensures t in s.pc
    decreases |acts|
  {
    hide Inv, Enabled, Next;
    if acts != [] {
      NextKeeps(s, acts[0]);
      BackThen(Next(s, acts[0]), acts[1..], t);
      NobodyNew(s, acts[0], t);
    }
  }

  lemma NobodyNew(s: State, a: Act, t: Tid)
    requires Inv(s) && Enabled(s, a) && t in Next(s, a).pc
    ensures t in s.pc
  {
    Parts(s);
    hide Inv, M.Inv, M.Enabled, M.Next, SyncOk, CallbacksOk, SignalsOk, StatusOk, HopeOk, Listed, GoNext;
    if a.Go? { NobodyNewGoing(s, a.t, s.mx.on[M.Thread(a.t)], t); }
  }

  lemma NobodyNewGoing(s: State, u: Tid, w: M.Worker, t: Tid)
    requires u in s.pc && t in GoNext(s, u, w).pc && Listed(s, false) && Listed(s, true)
    ensures t in s.pc
  {
    match s.pc[u]
    case Testing(_) =>
    case SigDeq(st) => if Q(s, st) != [] { assert Q(s, st)[0] in Q(s, st); }
    case SigPush(_) =>
    case _ =>
  }
}
