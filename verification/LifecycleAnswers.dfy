/** What join, tryjoin and detach answer, said of the calls made. */
module LifecycleAnswers {
  import opened Base
  import opened Lifecycle

  datatype Call = ToTry | ToJoin | ToDetach

  function CallOf(a: Act): Option<Call> {
    match a
    case CallTry => Some(ToTry)
    case CallJoin => Some(ToJoin)
    case CallDetach => Some(ToDetach)
    case _ => None
  }

  function LastCall(acts: seq<Act>, before: Option<Call>): Option<Call>
    decreases |acts|
  {
    if acts == [] then before
    else LastCall(acts[1..], if CallOf(acts[0]).Some? then CallOf(acts[0]) else before)
  }

  /** Disposing with the result taken. */
  predicate WithResult(d: DPc) {
    match d
    case FinUnlock(j) => j
    case Spin(j) => j
    case TakeResult => true
    case FreeDesc(j) => j
    case DDone(j) => j
    case _ => false
  }

  /** Disposing for a join or a try has the result taken, for a detach not. */
  predicate Serves(d: DPc, c: Option<Call>) {
    && (d == DIdle ==> c == None || c == Some(ToTry))
    && (Trying(d) ==> c == Some(ToTry))
    && (Joining(d) || d.JoinAsleep? ==> c == Some(ToJoin))
    && (Detaching(d) ==> c == Some(ToDetach))
    && (Taking(d) || d.DDone? ==> if WithResult(d) then c == Some(ToTry) || c == Some(ToJoin) else c == Some(ToDetach))
  }

  /** What an act may do to the caller: begin a call; refuse a tryjoin while the thread has not begun
      to exit; put a joiner to sleep likewise; dispose of a finished thread; leave one that has not
      begun to exit detached. */
  predicate Right(s: State, a: Act)
    requires Enabled(s, a)
  {
    var d, d' := s.d, Next(s, a).d;
    match a
    case CallTry => d == DIdle && Trying(d')
    case CallJoin => d == DIdle && Joining(d')
    case CallDetach => d == DIdle && Detaching(d')
    case Exit(_) => d' == d
    case X => d' == d || (d.JoinAsleep? && d' == Spin(true) && s.status == FreeReady2)
    case D =>
      && (Trying(d) ==> Trying(d') || (d' == FinUnlock(true) && s.status == FreeReady2) || (d' == DIdle && Quiet(s.x)))
      && (Joining(d) ==> Joining(d') || (d' == FinUnlock(true) && s.status == FreeReady2) || (d' == JoinAsleep && Quiet(s.x)))
      && (Detaching(d) ==>
            || Detaching(d')
            || ((d' == FinUnlock(false) || d' == FreeDesc(false)) && s.status == FreeReady2)
            || (d' == DDone(false) && s.detached && Quiet(s.x)))
      && (Taking(d) ==> (Taking(d') || d'.DDone?) && WithResult(d') == WithResult(d) && Next(s, a).status == FreeReady2)
  }

  lemma ActIsRight(s: State, a: Act)
    requires Inv(s) && Enabled(s, a)
    ensures Right(s, a)
  {
    hide LockOk, ExitOk, WaiterOk, FreesOk, NoStale;
    match a
    case X => ExitIsRight(s);
    case D => CallerIsRight(s);
    case _ =>
  }

  lemma ExitIsRight(s: State)
    requires Inv(s) && Enabled(s, X)
    ensures Right(s, X)
  {
    if s.x == XJump(true) { JumpsToSleeper(s); }
    hide Inv;
  }

  lemma JumpsToSleeper(s: State)
    requires Inv(s) && s.x == XJump(true)
    ensures s.d.JoinAsleep? && s.status == FreeReady2
  {
  }

  lemma CallerIsRight(s: State)
    requires Inv(s) && Enabled(s, D)
    ensures Right(s, D)
  {
    hide Right, DNext, Inv, Taking, Trying, Detaching;
    if Taking(s.d) { TakingIsRight(s); }
    else if Trying(s.d) { TryIsRight(s); }
    else if Detaching(s.d) { DetachIsRight(s); }
    else { JoinIsRight(s); }
  }

  lemma TakingIsRight(s: State)
    requires Inv(s) && Enabled(s, D) && Taking(s.d)
    ensures Right(s, D)
  {
    hide TryNext, JoinNext, DetachNext;
    match s.d
    case FinUnlock(_) =>
    case Spin(_) =>
    case TakeResult =>
    case FreeDesc(_) =>
  }

  lemma TryIsRight(s: State)
    requires Inv(s) && Enabled(s, D) && Trying(s.d)
    ensures Right(s, D)
  {
    hide FinNext, JoinNext, DetachNext;
    match s.d
    case TryLock =>
    case TryTest =>
    case TryBusy =>
  }

  lemma DetachIsRight(s: State)
    requires Inv(s) && Enabled(s, D) && Detaching(s.d)
    ensures Right(s, D)
  {
    hide FinNext, JoinNext, TryNext;
    match s.d
    case DetTest =>
    case DetLock =>
    case DetLocked =>
    case DetSet =>
    case DetUnlock =>
  }

  lemma JoinIsRight(s: State)
    requires Inv(s) && Enabled(s, D) && !Taking(s.d) && !Trying(s.d) && !Detaching(s.d)
    ensures Right(s, D)
  {
    hide FinNext, DetachNext, TryNext;
    match s.d
    case JoinLock =>
    case JoinTest =>
    case JoinBlock =>
    case JoinSave =>
    case JoinSet =>
    case JoinUnlock =>
  }

  lemma ActServes(s: State, a: Act, c: Option<Call>)
    requires Inv(s) && Enabled(s, a) && Serves(s.d, c)
    ensures Serves(Next(s, a).d, if CallOf(a).Some? then CallOf(a) else c)
  {
    hide Inv, Next;
    ActIsRight(s, a);
  }

  lemma {:induction false} RunServes(s: State, acts: seq<Act>, c: Option<Call>)
    requires Inv(s) && Runs(s, acts) && Serves(s.d, c)
    ensures Serves(Exec(s, acts).d, LastCall(acts, c))
    decreases |acts|
  {
    hide Inv, Enabled, Next, Serves, CallOf;
    if acts != [] {
      NextKeeps(s, acts[0]);
      ActServes(s, acts[0], c);
      RunServes(Next(s, acts[0]), acts[1..], if CallOf(acts[0]).Some? then CallOf(acts[0]) else c);
    }
  }

  /** In every run the caller is in or behind the call that it made last: only a join or a try ends
      with a result, and only a try is refused. */
  lemma EveryPointServesTheCall(acts: seq<Act>)
    requires Runs(START, acts)
    ensures Serves(Exec(START, acts).d, LastCall(acts, None))
  {
    hide Inv;
    StartGood();
    RunServes(START, acts, None);
  }

  /** In every run every act answers the call as it should or leaves it pending: a try is refused,
      and a join sleeps, only while the thread has not begun to exit. */
  lemma EveryAnswerIsRight(acts: seq<Act>, a: Act)
    requires Runs(START, acts) && Enabled(Exec(START, acts), a)
    ensures Right(Exec(START, acts), a)
  {
    hide Inv, Right;
    Reachable(acts);
    ActIsRight(Exec(START, acts), a);
  }

  lemma {:induction false} RunExits(s: State, acts: seq<Act>)
    requires Runs(s, acts)
    ensures Exec(s, acts).x == XRun <==> s.x == XRun && LastExit(acts) == None
    decreases |acts|
  {
    hide Enabled, Next;
    if acts != [] {
      ExitBegins(s, acts[0]);
      RunExits(Next(s, acts[0]), acts[1..]);
      LastExitFirst(acts);
    }
  }

  lemma ExitBegins(s: State, a: Act)
    requires Enabled(s, a)
    ensures Next(s, a).x == XRun <==> s.x == XRun && !a.Exit?
  {
    hide TryNext, JoinNext, FinNext, DetachNext;
  }

  /** The thread leaves its function exactly by its exit. */
  lemma ExitsWhenTold(acts: seq<Act>)
    requires Runs(START, acts)
    ensures Exec(START, acts).x == XRun <==> LastExit(acts) == None
  {
    RunExits(START, acts);
  }
}
