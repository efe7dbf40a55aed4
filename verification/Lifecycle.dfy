/** The end of one thread: its exit races with the one caller that joins,
    successfully try-joins or detaches it.  The descriptor lock is held across the
    context switch on both sides; what runs after the switch is the callback,
    on the next context, when the old context has been saved or left.

    `onStack`, `stackFrees`, `descFrees`, `stale`, `fastDetach` and `resumes` are history
    variables: no step looks at them to decide what to do. */
module Lifecycle {
  import opened Base

  datatype Lock = Free | ByExiter | ByDisposer
  datatype Status = Live | FreeReady2
  datatype WaiterStatus = Ready | Blocked

  /** The exiting thread, from its user function to the jump to the next context. */
  datatype XPc =
    | XRun
    | XLock
    | XReadWaiter
    | XWakeWaiter
    | XLeave(waiter: bool)         // pop the next context, switch without saving
    | XFreeStack(waiter: bool)
    | XTestDetached(waiter: bool)
    | XSetStatus(waiter: bool)
    | XUnlock(waiter: bool)
    | XDetachedUnlock(waiter: bool)
    | XFreeDesc(waiter: bool)
    | XJump(waiter: bool)
    | XDone

  /** The caller that disposes of it. */
  datatype DPc =
    | DIdle
    | TryLock | TryTest | TryBusy
    | JoinLock | JoinTest | JoinBlock | JoinSave | JoinSet | JoinUnlock | JoinAsleep
    | FinUnlock(join: bool) | Spin(join: bool) | TakeResult | FreeDesc(join: bool)
    | DetTest | DetLock | DetLocked | DetSet | DetUnlock
    | DDone(join: bool)

  datatype State = State(
    lock: Lock, status: Status, joinThread: bool, detached: bool, result: Option<int>,
    wstatus: WaiterStatus, saved: bool, got: Option<int>,
    x: XPc, d: DPc,
    onStack: bool, stackFrees: nat, descFrees: nat, resumes: nat, fastDetach: bool, stale: bool)

  datatype Act = Exit(v: int) | X | CallTry | CallJoin | CallDetach | D

  /** A step on the descriptor after it went back to the free list is recorded. */
  function Touch(s: State): State {
    s.(stale := s.stale || s.descFrees > 0)
  }

  predicate Enabled(s: State, a: Act) {
    match a
    case Exit(_) => s.x == XRun
    case X => s.x != XRun && s.x != XDone && (s.x == XLock ==> s.lock == Free)
    case CallTry => s.d == DIdle
    case CallJoin => s.d == DIdle
    case CallDetach => s.d == DIdle
    case D =>
      && !s.d.DIdle? && !s.d.DDone? && !s.d.JoinAsleep?
      && (s.d == TryLock || s.d == JoinLock || s.d == DetLock ==> s.lock == Free)
      && (s.d.Spin? ==> s.status == FreeReady2)
      && (s.d == TakeResult ==> s.result.Some?)
  }

  /** The exiting thread on its own stack, up to the switch. */
  function LeaveNext(s: State): (s': State)
    ensures s'.result == s.result && s'.d == s.d
  {
    match s.x
    case XLock => Touch(s).(lock := ByExiter, x := XReadWaiter)
    case XReadWaiter => Touch(s).(x := if s.joinThread then XWakeWaiter else XLeave(false))
    case XWakeWaiter => s.(wstatus := Ready, x := XLeave(true))
    case XLeave(w) => s.(onStack := false, x := XFreeStack(w))
    case _ => s
  }

  /** The callback after the switch, up to the jump. */
  function CleanNext(s: State): (s': State)
    ensures s'.result == s.result && (s.x == XJump(true) || s'.d == s.d)
  {
    match s.x
    case XFreeStack(w) => Touch(s).(stackFrees := s.stackFrees + 1, x := XTestDetached(w))
    case XTestDetached(w) => Touch(s).(x := if s.detached then XDetachedUnlock(w) else XSetStatus(w))
    case XSetStatus(w) => Touch(s).(status := FreeReady2, x := XUnlock(w))
    case XUnlock(w) => Touch(s).(lock := Free, x := XJump(w))
    case XDetachedUnlock(w) => Touch(s).(lock := Free, x := XFreeDesc(w))
    case XFreeDesc(w) => Touch(s).(descFrees := s.descFrees + 1, x := XJump(w))
    case XJump(w) => if w then s.(resumes := s.resumes + 1, d := Spin(true), x := XDone) else s.(x := XDone)
    case _ => s
  }

  predicate OnOwnStack(x: XPc) { x.XLock? || x.XReadWaiter? || x.XWakeWaiter? || x.XLeave? }

  function XNext(s: State): (s': State)
    ensures s'.result == s.result && (s.x == XJump(true) || s'.d == s.d)
  {
    if OnOwnStack(s.x) then LeaveNext(s) else CleanNext(s)
  }

  function TryNext(s: State): (s': State)
    ensures s'.result == s.result && s'.x == s.x
  {
    match s.d
    case TryLock => Touch(s).(lock := ByDisposer, d := TryTest)
    case TryTest => Touch(s).(d := if s.status == FreeReady2 then FinUnlock(true) else TryBusy)
    case TryBusy => Touch(s).(lock := Free, d := DIdle)
    case _ => s
  }

  /** join, up to its callback. */
  function JoinNext(s: State): (s': State)
    ensures s'.result == s.result && s'.x == s.x
  {
    match s.d
    case JoinLock => Touch(s).(lock := ByDisposer, d := JoinTest)
    case JoinTest => Touch(s).(d := if s.status == FreeReady2 then FinUnlock(true) else JoinBlock)
    case JoinBlock => s.(wstatus := Blocked, d := JoinSave)
    case JoinSave => s.(saved := true, d := JoinSet)
    case JoinSet => Touch(s).(joinThread := true, d := JoinUnlock)
    case JoinUnlock => Touch(s).(lock := Free, d := JoinAsleep)
    case _ => s
  }

  /** Disposing of a finished thread. */
  function FinNext(s: State): (s': State)
    ensures s'.result == s.result && s'.x == s.x
  {
    match s.d
    case FinUnlock(j) => Touch(s).(lock := Free, d := Spin(j))
    case Spin(j) => Touch(s).(d := if j then TakeResult else FreeDesc(false))
    case TakeResult => Touch(s).(got := s.result, d := FreeDesc(true))
    case FreeDesc(j) => Touch(s).(descFrees := s.descFrees + 1, d := DDone(j))
    case _ => s
  }

  function DetachNext(s: State): (s': State)
    ensures s'.result == s.result && s'.x == s.x
  {
    match s.d
    case DetTest =>
      if s.status == FreeReady2 then Touch(s).(fastDetach := true, d := FreeDesc(false))
      else Touch(s).(d := DetLock)
    case DetLock => Touch(s).(lock := ByDisposer, d := DetLocked)
    case DetLocked => Touch(s).(d := if s.status == FreeReady2 then FinUnlock(false) else DetSet)
    case DetSet => Touch(s).(detached := true, d := DetUnlock)
    case DetUnlock => Touch(s).(lock := Free, d := DDone(false))
    case _ => s
  }

  predicate Taking(d: DPc) { d.FinUnlock? || d.Spin? || d.TakeResult? || d.FreeDesc? }

  predicate Trying(d: DPc) { d.TryLock? || d.TryTest? || d.TryBusy? }

  predicate Joining(d: DPc) {
    d.JoinLock? || d.JoinTest? || d.JoinBlock? || d.JoinSave? || d.JoinSet? || d.JoinUnlock?
  }

  predicate Detaching(d: DPc) { d.DetTest? || d.DetLock? || d.DetLocked? || d.DetSet? || d.DetUnlock? }

  function DNext(s: State): (s': State)
    ensures s'.result == s.result && s'.x == s.x
  {
    if Taking(s.d) then FinNext(s)
    else if Detaching(s.d) then DetachNext(s)
    else if Trying(s.d) then TryNext(s)
    else JoinNext(s)
  }

  function Next(s: State, a: Act): State
    requires Enabled(s, a)
  {
    match a
    case Exit(v) => Touch(s).(result := Some(v), x := XLock)
    case X => XNext(s)
    case CallTry => s.(d := TryLock)
    case CallJoin => s.(d := JoinLock)
    case CallDetach => s.(d := DetTest)
    case D => DNext(s)
  }

  const START := State(Free, Live, false, false, None, Ready, false, None, XRun, DIdle, true, 0, 0, 0, false, false)

  // ----- the invariant

  predicate XHolds(x: XPc) {
    x.XReadWaiter? || x.XWakeWaiter? || x.XLeave? || x.XFreeStack? || x.XTestDetached? || x.XSetStatus? || x.XUnlock?
    || x.XDetachedUnlock?
  }

  predicate DHolds(d: DPc) {
    d.TryTest? || d.TryBusy? || d.JoinTest? || d.JoinBlock? || d.JoinSave? || d.JoinSet? || d.JoinUnlock?
    || d.FinUnlock? || d.DetLocked? || d.DetSet? || d.DetUnlock?
  }

  predicate LockOk(s: State) {
    && (s.lock == ByExiter <==> XHolds(s.x))
    && (s.lock == ByDisposer <==> DHolds(s.d))
  }

  /** The exiter carries the joiner exactly while it is the joiner's only hope. */
  predicate Carries(x: XPc) {
    match x
    case XWakeWaiter => true
    case XLeave(w) => w
    case XFreeStack(w) => w
    case XTestDetached(w) => w
    case XSetStatus(w) => w
    case XUnlock(w) => w
    case XDetachedUnlock(w) => w
    case XFreeDesc(w) => w
    case XJump(w) => w
    case _ => false
  }

  predicate BeforeRead(x: XPc) { x.XRun? || x.XLock? || x.XReadWaiter? }

  predicate Finished(x: XPc) { x.XUnlock? || x.XJump? || x.XDone? }

  predicate ExitOk(s: State) {
    && (s.result.Some? <==> !s.x.XRun?)
    && s.onStack == (BeforeRead(s.x) || s.x.XWakeWaiter? || s.x.XLeave?)
    && s.stackFrees == (if s.onStack || s.x.XFreeStack? then 0 else 1)
    && (s.status == FreeReady2 <==> Finished(s.x) && !s.detached)
    && (s.x.XDetachedUnlock? || s.x.XFreeDesc? ==> s.detached)
    && (s.x.XSetStatus? || s.x.XUnlock? ==> !s.detached)
  }

  /** The exiter cannot have read the waiter field yet. */
  predicate Quiet(x: XPc) { x.XRun? || x.XLock? }

  /** The disposer holds the lock and has seen the thread unfinished. */
  predicate SawLive(d: DPc) {
    d.TryBusy? || d.JoinBlock? || d.JoinSave? || d.JoinSet? || d.JoinUnlock? || d.DetSet? || d.DetUnlock?
  }

  predicate JoinOk(s: State) {
    && (SawLive(s.d) ==> Quiet(s.x))
    && (s.d.JoinAsleep? ==> s.joinThread && s.saved && (BeforeRead(s.x) || Carries(s.x)))
    && (Carries(s.x) ==> s.d.JoinAsleep?)
    && (s.joinThread ==> s.d.JoinUnlock? || s.d.JoinAsleep? || s.resumes == 1)
    && (s.d.JoinUnlock? ==> s.joinThread)
    && (s.joinThread ==> !s.detached)
    && s.resumes == (if s.joinThread && s.x.XDone? then 1 else 0)
  }

  /** The joiner is marked blocked, and its context saved, before it can be found. */
  predicate WaiterOk(s: State) {
    && (s.d.JoinSave? || s.d.JoinSet? || s.d.JoinUnlock? ==> s.wstatus == Blocked)
    && (s.d.JoinSet? || s.d.JoinUnlock? ==> s.saved)
    && (s.d.JoinAsleep? && (BeforeRead(s.x) || s.x.XWakeWaiter?) ==> s.wstatus == Blocked)
  }

  predicate DisposeOk(s: State) {
    && (s.detached ==> s.d.DetUnlock? || s.d.DDone?)
    && (s.d.DetUnlock? ==> s.detached)
    && (Taking(s.d) || (s.d.DDone? && !s.detached) ==> s.status == FreeReady2)
    && (s.fastDetach ==> (s.d.FreeDesc? || s.d.DDone?) && !s.detached)
  }

  predicate FreesOk(s: State) {
    && s.descFrees == (if s.detached then (if s.x.XJump? || s.x.XDone? then 1 else 0) else if s.d.DDone? then 1 else 0)
    && (s.d == FreeDesc(true) || s.d == DDone(true) ==> s.got.Some?)
    && (s.got.Some? ==> s.got == s.result)
  }

  predicate LetGo(x: XPc) { x.XJump? || x.XDone? }

  /** Without the unlocked test of detach, the exiter has let go before the
      disposer takes the descriptor away. */
  predicate NoStale(s: State) {
    && (s.d.Spin? || s.d.TakeResult? || (s.d.FreeDesc? && !s.fastDetach) ==> LetGo(s.x))
    && (s.d.DDone? && !s.detached && !s.fastDetach ==> LetGo(s.x))
    && (s.stale ==> s.fastDetach && s.d.DDone?)
  }

  predicate Inv(s: State) {
    LockOk(s) && ExitOk(s) && JoinOk(s) && WaiterOk(s) && DisposeOk(s) && FreesOk(s) && NoStale(s)
  }

  // ----- a measure

  function XRank(x: XPc): nat {
    match x
    case XRun => 11
    case XLock => 10
    case XReadWaiter => 9
    case XWakeWaiter => 8
    case XLeave(_) => 7
    case XFreeStack(_) => 6
    case XTestDetached(_) => 5
    case XSetStatus(_) => 4
    case XUnlock(_) => 3
    case XDetachedUnlock(_) => 3
    case XFreeDesc(_) => 2
    case XJump(_) => 1
    case XDone => 0
  }

  function DRank(d: DPc): nat {
    match d
    case JoinLock => 10
    case JoinTest => 9
    case JoinBlock => 8
    case JoinSave => 7
    case JoinSet => 6
    case JoinUnlock => 5
    case JoinAsleep => 4
    case DetTest => 8
    case DetLock => 7
    case DetLocked => 6
    case DetSet => 3
    case DetUnlock => 2
    case TryLock => 7
    case TryTest => 6
    case TryBusy => 1
    case FinUnlock(_) => 4
    case Spin(_) => 3
    case TakeResult => 2
    case FreeDesc(_) => 1
    case DIdle => 0
    case DDone(_) => 0
  }

  // ----- how far a step goes

  lemma LeaveDescends(s: State)
    requires OnOwnStack(s.x)
    ensures XRank(LeaveNext(s).x) < XRank(s.x)
  {
    match s.x
    case XLock =>
    case XReadWaiter =>
    case XWakeWaiter =>
    case XLeave(_) =>
  }

  lemma CleanDescends(s: State)
    requires !s.x.XRun? && !s.x.XDone? && !OnOwnStack(s.x)
    ensures XRank(CleanNext(s).x) < XRank(s.x)
  {
    hide Touch;
    match s.x
    case XFreeStack(_) =>
    case XTestDetached(_) =>
    case XSetStatus(_) =>
    case XUnlock(_) =>
    case XDetachedUnlock(_) =>
    case XFreeDesc(_) =>
    case XJump(_) =>
  }

  lemma ExitDescends(s: State)
    requires !s.x.XRun? && !s.x.XDone?
    ensures XRank(XNext(s).x) < XRank(s.x)
  {
    hide LeaveNext, CleanNext, XRank;
    if OnOwnStack(s.x) { LeaveDescends(s); } else { CleanDescends(s); }
  }

  lemma TryDescends(s: State)
    requires Trying(s.d)
    ensures DRank(TryNext(s).d) < DRank(s.d)
  {
    match s.d
    case TryLock =>
    case TryTest =>
    case TryBusy =>
  }

  lemma JoinDescends(s: State)
    requires Joining(s.d)
    ensures DRank(JoinNext(s).d) < DRank(s.d)
  {
    match s.d
    case JoinLock =>
    case JoinTest =>
    case JoinBlock =>
    case JoinSave =>
    case JoinSet =>
    case JoinUnlock =>
  }

  lemma FinDescends(s: State)
    requires Enabled(s, D) && Taking(s.d)
    ensures DRank(FinNext(s).d) < DRank(s.d)
  {
    match s.d
    case FinUnlock(_) =>
    case Spin(_) =>
    case TakeResult =>
    case FreeDesc(_) =>
  }

  lemma DetachDescends(s: State)
    requires Enabled(s, D) && Detaching(s.d)
    ensures DRank(DetachNext(s).d) < DRank(s.d)
  {
    match s.d
    case DetTest =>
    case DetLock =>
    case DetLocked =>
    case DetSet =>
    case DetUnlock =>
  }

  lemma DisposerDescends(s: State)
    requires Enabled(s, D)
    ensures DRank(DNext(s).d) < DRank(s.d)
  {
    hide TryNext, JoinNext, FinNext, DetachNext, DRank;
    if Taking(s.d) { FinDescends(s); }
    else if Detaching(s.d) { DetachDescends(s); }
    else if Trying(s.d) { TryDescends(s); }
    else { JoinDescends(s); }
  }

  // ----- preservation, one conjunct at a time

  lemma LeaveKeepsLock(s: State)
    requires Inv(s) && Enabled(s, X) && OnOwnStack(s.x)
    ensures LockOk(LeaveNext(s)) && ExitOk(LeaveNext(s))
  {
  }

  lemma LeaveKeepsJoin(s: State)
    requires Inv(s) && Enabled(s, X) && OnOwnStack(s.x)
    ensures JoinOk(LeaveNext(s)) && WaiterOk(LeaveNext(s))
  {
  }

  lemma LeaveKeepsFree(s: State)
    requires Inv(s) && Enabled(s, X) && OnOwnStack(s.x)
    ensures DisposeOk(LeaveNext(s)) && FreesOk(LeaveNext(s)) && NoStale(LeaveNext(s))
  {
  }

  lemma CleanKeepsLock(s: State)
    requires Inv(s) && Enabled(s, X) && !OnOwnStack(s.x)
    ensures LockOk(CleanNext(s)) && ExitOk(CleanNext(s))
  {
  }

  lemma CleanKeepsJoin(s: State)
    requires Inv(s) && Enabled(s, X) && !OnOwnStack(s.x)
    ensures JoinOk(CleanNext(s)) && WaiterOk(CleanNext(s))
  {
  }

  lemma CleanKeepsFree(s: State)
    requires Inv(s) && Enabled(s, X) && !OnOwnStack(s.x)
    ensures DisposeOk(CleanNext(s)) && FreesOk(CleanNext(s)) && NoStale(CleanNext(s))
  {
  }

  lemma TryKeepsLock(s: State)
    requires Inv(s) && Enabled(s, D) && Trying(s.d)
    ensures LockOk(TryNext(s)) && ExitOk(TryNext(s))
  {
  }

  lemma TryKeepsJoin(s: State)
    requires Inv(s) && Enabled(s, D) && Trying(s.d)
    ensures JoinOk(TryNext(s)) && WaiterOk(TryNext(s))
  {
  }

  lemma TryKeepsFree(s: State)
    requires Inv(s) && Enabled(s, D) && Trying(s.d)
    ensures DisposeOk(TryNext(s)) && FreesOk(TryNext(s)) && NoStale(TryNext(s))
  {
  }

  lemma JoinKeepsLock(s: State)
    requires Inv(s) && Enabled(s, D) && Joining(s.d)
    ensures LockOk(JoinNext(s)) && ExitOk(JoinNext(s))
  {
  }

  lemma JoinKeepsJoin(s: State)
    requires Inv(s) && Enabled(s, D) && Joining(s.d)
    ensures JoinOk(JoinNext(s)) && WaiterOk(JoinNext(s))
  {
  }

  lemma JoinKeepsFree(s: State)
    requires Inv(s) && Enabled(s, D) && Joining(s.d)
    ensures DisposeOk(JoinNext(s)) && FreesOk(JoinNext(s)) && NoStale(JoinNext(s))
  {
  }

  lemma FinKeepsLock(s: State)
    requires Inv(s) && Enabled(s, D) && Taking(s.d)
    ensures LockOk(FinNext(s)) && ExitOk(FinNext(s))
  {
  }

  lemma FinKeepsJoin(s: State)
    requires Inv(s) && Enabled(s, D) && Taking(s.d)
    ensures JoinOk(FinNext(s)) && WaiterOk(FinNext(s))
  {
  }

  lemma FinKeepsFree(s: State)
    requires Inv(s) && Enabled(s, D) && Taking(s.d)
    ensures DisposeOk(FinNext(s)) && FreesOk(FinNext(s)) && NoStale(FinNext(s))
  {
  }

  lemma DetachKeepsLock(s: State)
    requires Inv(s) && Enabled(s, D) && Detaching(s.d)
    ensures LockOk(DetachNext(s)) && ExitOk(DetachNext(s))
  {
  }

  lemma DetachKeepsJoin(s: State)
    requires Inv(s) && Enabled(s, D) && Detaching(s.d)
    ensures JoinOk(DetachNext(s)) && WaiterOk(DetachNext(s))
  {
  }

  lemma DetachKeepsFree(s: State)
    requires Inv(s) && Enabled(s, D) && Detaching(s.d)
    ensures DisposeOk(DetachNext(s)) && FreesOk(DetachNext(s)) && NoStale(DetachNext(s))
  {
  }

  lemma NextKeeps(s: State, a: Act)
    requires Inv(s) && Enabled(s, a)
    ensures Inv(Next(s, a))
  {
    hide LockOk, ExitOk, JoinOk, WaiterOk, DisposeOk, FreesOk, NoStale;
    hide LeaveNext, CleanNext, TryNext, JoinNext, FinNext, DetachNext, OnOwnStack, Taking, Detaching, Trying;
    match a
    case X => if OnOwnStack(s.x) { LeaveKeepsLock(s); LeaveKeepsJoin(s); LeaveKeepsFree(s); } else { CleanKeepsLock(s); CleanKeepsJoin(s); CleanKeepsFree(s); }
    case D => DisposerKeeps(s);
    case _ => CallKeeps(s, a);
  }

  lemma DisposerKeeps(s: State)
    requires Inv(s) && Enabled(s, D)
    ensures Inv(DNext(s))
  {
    hide LockOk, ExitOk, JoinOk, WaiterOk, DisposeOk, FreesOk, NoStale;
    hide TryNext, JoinNext, FinNext, DetachNext;
    if Taking(s.d) { FinKeepsLock(s); FinKeepsJoin(s); FinKeepsFree(s); }
    else if Detaching(s.d) { DetachKeepsLock(s); DetachKeepsJoin(s); DetachKeepsFree(s); }
    else if Trying(s.d) { TryKeepsLock(s); TryKeepsJoin(s); TryKeepsFree(s); }
    else { JoinKeepsLock(s); JoinKeepsJoin(s); JoinKeepsFree(s); }
  }

  lemma CallKeeps(s: State, a: Act)
    requires Inv(s) && Enabled(s, a) && !a.X? && !a.D?
    ensures Inv(Next(s, a))
  {
  }

  // ----- whole runs

  predicate Runs(s: State, acts: seq<Act>)
    decreases |acts|
  {
    acts == [] || (Enabled(s, acts[0]) && Runs(Next(s, acts[0]), acts[1..]))
  }

  function Exec(s: State, acts: seq<Act>): State
    requires Runs(s, acts)
    decreases |acts|
  {
    if acts == [] then s else Exec(Next(s, acts[0]), acts[1..])
  }

  lemma {:induction false} RunKeeps(s: State, acts: seq<Act>)
    requires Runs(s, acts) && Inv(s)
    ensures Inv(Exec(s, acts))
    decreases |acts|
  {
    hide Inv, Enabled, Next;
    if acts != [] {
      NextKeeps(s, acts[0]);
      RunKeeps(Next(s, acts[0]), acts[1..]);
    }
  }

  lemma StartGood()
    ensures Inv(START)
  {
  }

  lemma Reachable(acts: seq<Act>)
    requires Runs(START, acts)
    ensures Inv(Exec(START, acts))
  {
    StartGood();
    RunKeeps(START, acts);
  }

  /** The descriptor is released at most once, and exactly once when both sides are
      through; so is the stack, and only after control has left it. */
  lemma FreedExactlyOnce(acts: seq<Act>)
    requires Runs(START, acts)
    ensures var e := Exec(START, acts);
      && e.descFrees <= 1 && e.stackFrees <= 1
      && (e.x.XDone? && e.d.DDone? ==> e.descFrees == 1)
      && (e.x.XDone? ==> e.stackFrees == 1)
      && (e.stackFrees > 0 ==> !e.onStack)
  {
    Reachable(acts);
  }

  /** A joiner that goes to sleep is resumed once, after its context was saved; when the
      exiter jumps to it, it need not wait any more. */
  lemma JoinerResumesOnce(acts: seq<Act>)
    requires Runs(START, acts)
    ensures var e := Exec(START, acts);
      && e.resumes <= 1
      && (e.resumes == 1 ==> e.joinThread && e.x.XDone? && e.status == FreeReady2)
      && (e.x == XJump(true) ==>
            e.saved && e.resumes == 0 && e.status == FreeReady2 && e.d.JoinAsleep? && Enabled(Next(e, X), D))
  {
    Reachable(acts);
  }

  function LastExit(acts: seq<Act>): Option<int> {
    if acts == [] then None
    else if acts[|acts| - 1].Exit? then Some(acts[|acts| - 1].v) else LastExit(acts[..|acts| - 1])
  }

  lemma {:induction false} ResultIsLastExit(s: State, acts: seq<Act>)
    requires Runs(s, acts)
    ensures Exec(s, acts).result == if LastExit(acts).Some? then LastExit(acts) else s.result
    decreases |acts|
  {
    hide Enabled, Next;
    if acts != [] {
      ResultStep(s, acts[0]);
      ResultIsLastExit(Next(s, acts[0]), acts[1..]);
      LastExitFirst(acts);
    }
  }

  lemma ResultStep(s: State, a: Act)
    requires Enabled(s, a)
    ensures Next(s, a).result == if a.Exit? then Some(a.v) else s.result
  {
  }

  lemma {:induction false} LastExitFirst(acts: seq<Act>)
    requires acts != []
    ensures LastExit(acts) ==
      if LastExit(acts[1..]).Some? then LastExit(acts[1..]) else if acts[0].Exit? then Some(acts[0].v) else None
    decreases |acts|
  {
    if |acts| > 1 {
      LastExitFirst(acts[..|acts| - 1]);
      assert acts[..|acts| - 1][1..] == acts[1..][..|acts[1..]| - 1];
    }
  }

  /** What a finished join returns is the value the thread exited with. */
  lemma JoinReturnsExitValue(acts: seq<Act>)
    requires Runs(START, acts) && Exec(START, acts).d == DDone(true)
    ensures LastExit(acts).Some? && Exec(START, acts).got == LastExit(acts)
  {
    Reachable(acts);
    ResultIsLastExit(START, acts);
  }

  /** The check of the exiter: a waiter it finds is marked blocked. */
  lemma WaiterIsBlocked(acts: seq<Act>)
    requires Runs(START, acts) && Exec(START, acts).x == XWakeWaiter
    ensures Exec(START, acts).wstatus == Blocked && Exec(START, acts).d.JoinAsleep?
  {
    Reachable(acts);
  }

  // ----- progress

  /** A call, once made, and the exit take a bounded number of steps between them. */
  lemma StepsRunOut(s: State, a: Act)
    requires Inv(s) && Enabled(s, a) && (a.Exit? || a.X? || a.D?)
    ensures XRank(Next(s, a).x) + DRank(Next(s, a).d) < XRank(s.x) + DRank(s.d)
  {
    if a.X? { ExitDescends(s); }
    if a.D? { DisposerDescends(s); }
  }

  /** Whoever holds the lock can go on. */
  lemma HolderCanStep(s: State)
    requires LockOk(s) && ExitOk(s) && DisposeOk(s) && s.lock != Free
    ensures if s.lock == ByExiter then Enabled(s, X) else Enabled(s, D)
  {
  }

  lemma UnlockedCanStep(s: State)
    requires s.lock == Free && Inv(s)
    ensures s.x.XRun? || s.x.XDone? || Enabled(s, X)
    ensures s.d.DIdle? || s.d.DDone? || s.d.JoinAsleep? || Enabled(s, D)
    ensures s.d.JoinAsleep? ==> !s.x.XDone?
  {
  }

  /** Nobody waits for ever: when no step is left, the thread is gone and the
      caller is through. */
  lemma OnlyFinishedStatesStop(acts: seq<Act>, v: int)
    requires Runs(START, acts)
    requires var e := Exec(START, acts); !Enabled(e, Exit(v)) && !Enabled(e, X) && !Enabled(e, D)
    ensures var e := Exec(START, acts); e.x.XDone? && (e.d.DIdle? || e.d.DDone?)
  {
    var e := Exec(START, acts);
    Reachable(acts);
    if e.lock != Free { HolderCanStep(e); } else { UnlockedCanStep(e); }
  }

  // ----- the unlocked test of detach

  /** Only that test lets go of the descriptor while the exiter still uses it. */
  lemma StaleOnlyAfterFastDetach(acts: seq<Act>)
    requires Runs(START, acts) && Exec(START, acts).stale
    ensures Exec(START, acts).fastDetach
  {
    Reachable(acts);
  }

  lemma {:induction false} LetGoStaysClean(s: State, acts: seq<Act>)
    requires Runs(s, acts) && LetGo(s.x) && !s.stale && Inv(s)
    ensures !Exec(s, acts).stale
    decreases |acts|
  {
    if acts != [] {
      LetGoStep(s, acts[0]);
      NextKeeps(s, acts[0]);
      LetGoStaysClean(Next(s, acts[0]), acts[1..]);
    }
  }

  lemma LetGoStep(s: State, a: Act)
    requires LetGo(s.x) && !s.stale && Inv(s) && Enabled(s, a)
    ensures LetGo(Next(s, a).x) && !Next(s, a).stale
  {
  }

  /** Where the test succeeds, the exiter may still store into a freed descriptor if
      and only if it still holds the descriptor's lock. */
  lemma FastDetachIsUnsafeIffLocked(acts: seq<Act>)
    requires Runs(START, acts)
    requires Exec(START, acts).d == DetTest && Exec(START, acts).status == FreeReady2
    ensures var e := Exec(START, acts);
      (exists more :: Runs(e, more) && Exec(e, more).stale) <==> e.lock == ByExiter
  {
    var e := Exec(START, acts);
    Reachable(acts);
    if e.lock == ByExiter {
      FastDetachRace(e);
    } else {
      forall more | Runs(e, more) ensures !Exec(e, more).stale {
        LetGoStaysClean(e, more);
      }
    }
  }

  lemma FastDetachRace(s: State)
    requires Inv(s) && s.d == DetTest && s.status == FreeReady2 && s.lock == ByExiter
    ensures Runs(s, [D, D, X]) && Exec(s, [D, D, X]).stale
  {
    hide Runs, Exec;
    var s1 := Next(s, D);
    var s2 := Next(s1, D);
    assert s2.descFrees == 1 && s2.x.XUnlock?;
    hide Inv, DetachNext, FinNext;
    NoSteps(Next(s2, X));
    assert [X][1..] == [] && [D, X][1..] == [X] && [D, D, X][1..] == [D, X];
    Stepping(s2, X, [X]);
    Stepping(s1, D, [D, X]);
    Stepping(s, D, [D, D, X]);
  }

  /** Such a state is reached: the exiter has set the status and not unlocked yet when detach makes
      its test. */
  lemma FastDetachDoesRace()
    ensures exists acts :: Runs(START, acts) && Exec(START, acts).stale
  {
    hide Inv, Enabled, Next, Runs, Exec;
    var toTest := [CallDetach, Exit(7), X, X, X, X, X, X];
    ReachesTest();
    FastDetachRace(Exec(START, toTest));
    RunsOn(START, toTest, [D, D, X]);
  }

  lemma {:induction false} RunsOn(s: State, a: seq<Act>, b: seq<Act>)
    requires Runs(s, a) && Runs(Exec(s, a), b)
    ensures Runs(s, a + b) && Exec(s, a + b) == Exec(Exec(s, a), b)
    decreases |a|
  {
    hide Enabled, Next;
    if a == [] {
      assert a + b == b;
    } else {
      assert (a + b)[1..] == a[1..] + b;
      RunsOn(Next(s, a[0]), a[1..], b);
    }
  }

  lemma Stepping(s: State, a: Act, acts: seq<Act>)
    requires acts != [] && acts[0] == a && Enabled(s, a) && Runs(Next(s, a), acts[1..])
    ensures Runs(s, acts) && Exec(s, acts) == Exec(Next(s, a), acts[1..])
  {
  }

  /** Three steps of the exiter, to a given state. */
  lemma ThreeSteps(s: State, s1: State, s2: State, s3: State, rest: seq<Act>)
    requires Enabled(s, X) && s1 == XNext(s) && Enabled(s1, X) && s2 == XNext(s1) && Enabled(s2, X) && s3 == XNext(s2)
    requires Runs(s3, rest)
    ensures Runs(s, [X, X, X] + rest) && Exec(s, [X, X, X] + rest) == Exec(s3, rest)
  {
    hide XNext, Enabled;
    var a3 := [X] + rest;
    var a2 := [X] + a3;
    var a1 := [X] + a2;
    assert a3[1..] == rest && a2[1..] == a3 && a1[1..] == a2 && a1 == [X, X, X] + rest;
    Stepping(s2, X, a3);
    Stepping(s1, X, a2);
    Stepping(s, X, a1);
  }

  /** Nobody joins and detach is at its test: the exiter sets the status. */
  lemma SixMore(s: State)
    requires s.x == XLock && s.lock == Free && !s.joinThread && !s.detached
    ensures Runs(s, [X, X, X, X, X, X])
    ensures var e := Exec(s, [X, X, X, X, X, X]); e.d == s.d && e.status == FreeReady2 && e.lock == ByExiter
  {
    hide Runs, Exec;
    var s1 := XNext(s);
    assert s1.x == XReadWaiter && s1.lock == ByExiter && s1.d == s.d && !s1.joinThread && !s1.detached;
    var s2 := XNext(s1);
    assert s2.x == XLeave(false) && s2.lock == ByExiter && s2.d == s.d && !s2.detached;
    var s3 := XNext(s2);
    assert s3.x == XFreeStack(false) && s3.lock == ByExiter && s3.d == s.d && !s3.detached;
    ThreeMore(s3);
    ThreeSteps(s, s1, s2, s3, [X, X, X]);
    assert [X, X, X] + [X, X, X] == [X, X, X, X, X, X];
  }

  lemma ThreeMore(s: State)
    requires s.x == XFreeStack(false) && s.lock == ByExiter && !s.detached
    ensures Runs(s, [X, X, X])
    ensures var e := Exec(s, [X, X, X]); e.d == s.d && e.status == FreeReady2 && e.lock == ByExiter
  {
    hide Runs, Exec;
    var s1 := XNext(s);
    assert s1.x == XTestDetached(false) && s1.lock == ByExiter && s1.d == s.d && !s1.detached;
    var s2 := XNext(s1);
    assert s2.x == XSetStatus(false) && s2.lock == ByExiter && s2.d == s.d;
    var s3 := XNext(s2);
    assert s3.status == FreeReady2 && s3.lock == ByExiter && s3.d == s.d;
    NoSteps(s3);
    ThreeSteps(s, s1, s2, s3, []);
    assert [X, X, X] + [] == [X, X, X];
  }

  lemma NoSteps(s: State)
    ensures Runs(s, []) && Exec(s, []) == s
  {
  }

  lemma ReachesTest()
    ensures var acts := [CallDetach, Exit(7), X, X, X, X, X, X];
      && Runs(START, acts) && Inv(Exec(START, acts))
      && var e := Exec(START, acts); e.d == DetTest && e.status == FreeReady2 && e.lock == ByExiter
  {
    hide Inv;
    var s1 := Next(START, CallDetach);
    var s2 := Next(s1, Exit(7));
    SixMore(s2);
    Stepping(s1, Exit(7), [Exit(7), X, X, X, X, X, X]);
    Stepping(START, CallDetach, [CallDetach, Exit(7), X, X, X, X, X, X]);
    Reachable([CallDetach, Exit(7), X, X, X, X, X, X]);
  }
}
