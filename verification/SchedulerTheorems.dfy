/** What holds in every reachable state of the scheduler. */
module SchedulerTheorems {
  import opened Base
  import opened Scheduler
  import opened SchedulerInv
  import opened SchedulerSteps

  /** All workers are in their loop, and the main thread m is queued at worker 0. */
  ghost predicate Init(s: State, m: Tid) {
    && s.th == map[m := Thread(0, Ready, true, RunQ(0))]
    && s.at == map[RunQ(0) := [m]]
    && 0 in s.wk && (forall w :: w in s.wk ==> s.wk[w] == Worker(Sched, None))
    && s.lock == map[] && s.gone == {}
  }

  predicate Runs(s: State, acts: seq<Act>)
    decreases |acts|
  {
    acts == [] || (Enabled(s, acts[0]) && Runs(Next(s, acts[0]), acts[1..]))
  }

  function Exec(s: State, acts: seq<Act>): State
    requires Runs(s, acts)
    decreases |acts|
  {
    if acts == [] then s else Exec(Next(s, acts[0]), acts[1..])
  }

  lemma {:induction false} RunKeepsInv(s: State, acts: seq<Act>)
    requires Runs(s, acts) && Inv(s)
    ensures Inv(Exec(s, acts))
    decreases |acts|
  {
    hide Inv, Enabled, Next;
    if acts != [] {
      NextKeeps(s, acts[0]);
      RunKeepsInv(Next(s, acts[0]), acts[1..]);
    }
  }

  lemma InitGood(s: State, m: Tid)
    requires Init(s, m)
    ensures Inv(s)
  {
    assert forall p :: L(s, p) == if p == RunQ(0) then [m] else [];
  }

  lemma Reachable(s: State, m: Tid, acts: seq<Act>)
    requires Init(s, m) && Runs(s, acts)
    ensures Inv(Exec(s, acts))
  {
    hide Inv, Init;
    InitGood(s, m);
    RunKeepsInv(s, acts);
  }

  predicate At(s: State, t: Tid, p: Place, i: nat) {
    i < |L(s, p)| && L(s, p)[i] == t
  }

  /** Every live thread is in exactly one place: one position of one run queue, sleep queue
      or join slot, in one worker's hand or on one worker. */
  lemma OnePlace(s: State, m: Tid, acts: seq<Act>, t: Tid)
    requires Init(s, m) && Runs(s, acts) && t in Exec(s, acts).th
    ensures exists p: Place, i: nat {:trigger At(Exec(s, acts), t, p, i)} ::
      At(Exec(s, acts), t, p, i) && forall q, j :: At(Exec(s, acts), t, q, j) ==> q == p && j == i
  {
    var e := Exec(s, acts);
    Reachable(s, m, acts);
    var p := e.th[t].place;
    assert t in L(e, p);
    var i :| 0 <= i < |L(e, p)| && L(e, p)[i] == t;
    forall q: Place, j: nat | At(e, t, q, j) ensures q == p && j == i {
      assert t in L(e, q) && NoDup(L(e, p));
    }
    assert At(e, t, p, i);
  }

  function IndexOf(l: seq<Tid>, t: Tid): (i: nat)
    requires t in l
    ensures i < |l| && l[i] == t
  {
    if l[0] == t then 0 else 1 + IndexOf(l[1..], t)
  }

  /** Who follows index i in a list, if anyone. */
  function After(l: seq<Tid>, i: nat): Option<Tid> {
    if i + 1 < |l| then Some(l[i + 1]) else None
  }

  /** One field per thread holds the links of every sleep queue and of every waker's list. */
  ghost predicate Links(s: State, next: map<Tid, Option<Tid>>) {
    forall p: Place, i: nat :: (p.Sleep? || p.Hand?) && i < |L(s, p)| ==>
      L(s, p)[i] in next && next[L(s, p)[i]] == After(L(s, p), i)
  }

  function NextFields(s: State): map<Tid, Option<Tid>> {
    map t | t in s.th && t in L(s, s.th[t].place) :: After(L(s, s.th[t].place), IndexOf(L(s, s.th[t].place), t))
  }

  lemma LinkRight(s: State, p: Place, i: nat)
    requires Placed(s) && i < |L(s, p)|
    ensures L(s, p)[i] in NextFields(s) && NextFields(s)[L(s, p)[i]] == After(L(s, p), i)
  {
    hide L;
    assert L(s, p)[i] in L(s, p) && NoDup(L(s, p));
  }

  /** A thread's field `next` serves one list at a time: whatever sleep queues and private lists
      of wakers there are, one value for each thread is right for all of them. */
  lemma NextServesOneList(s: State, m: Tid, acts: seq<Act>)
    requires Init(s, m) && Runs(s, acts)
    ensures exists next: map<Tid, Option<Tid>> :: Links(Exec(s, acts), next)
  {
    hide Init, Runs, Exec, L, NextFields, Placed, Shared, LocksOk, JoinsOk, PcOk;
    var e := Exec(s, acts);
    Reachable(s, m, acts);
    forall p: Place, i: nat | (p.Sleep? || p.Hand?) && i < |L(e, p)|
      ensures L(e, p)[i] in NextFields(e) && NextFields(e)[L(e, p)[i]] == After(L(e, p), i)
    {
      LinkRight(e, p, i);
    }
    assert Links(e, NextFields(e));
  }

  /** No stack is run by two workers, and no worker runs on two. */
  lemma NoSharedStack(s: State, m: Tid, acts: seq<Act>, w: Wid, v: Wid, t: Tid)
    requires Init(s, m) && Runs(s, acts)
    ensures var e := Exec(s, acts);
      && (t in L(e, Cpu(w)) && t in L(e, Cpu(v)) ==> w == v)
      && (w in e.wk ==> |L(e, Cpu(w))| <= 1)
  {
    var e := Exec(s, acts);
    Reachable(s, m, acts);
    if w in e.wk { CpuHasOne(e, w, e.wk[w]); }
    if t in L(e, Cpu(w)) && t in L(e, Cpu(v)) {
      assert e.th[t].place == Cpu(w) && e.th[t].place == Cpu(v);
    }
  }

  lemma CpuHasOne(s: State, w: Wid, me: Worker)
    requires PcOk(s, w, me)
    ensures |L(s, Cpu(w))| <= 1
  {
  }

  /** What another worker can reach has its context saved, and is ready or, in a join
      slot, blocked. */
  lemma VisibleMeansSaved(s: State, m: Tid, acts: seq<Act>, p: Place, t: Tid)
    requires Init(s, m) && Runs(s, acts) && (p.RunQ? || p.Sleep? || p.JoinOf?) && t in L(Exec(s, acts), p)
    ensures var e := Exec(s, acts);
      && t in e.th && e.th[t].saved
      && e.th[t].status == (if p.JoinOf? then Blocked else Ready)
      && (p.RunQ? ==> e.th[t].env == p.w)
      && forall w :: w in e.wk ==> t !in L(e, Cpu(w))
  {
    Reachable(s, m, acts);
  }

  /** The assertions of cleanup, of stealing and of the scheduler loop, and the wrong
      descriptor for a context: none is ever reached. */
  lemma AssertionsHold(s: State, m: Tid, acts: seq<Act>, w: Wid)
    requires Init(s, m) && Runs(s, acts) && w in Exec(s, acts).wk
    ensures Exec(s, acts).wk[w].pc != Failed
  {
    Reachable(s, m, acts);
    assert PcOk(Exec(s, acts), w, Exec(s, acts).wk[w]);
  }

  /** Between switches this_thread is the thread that runs, its env is this worker, and it
      is ready. */
  lemma ThisThreadRuns(s: State, m: Tid, acts: seq<Act>, w: Wid)
    requires Init(s, m) && Runs(s, acts) && w in Exec(s, acts).wk && Exec(s, acts).wk[w].pc == User
    ensures var e := Exec(s, acts);
      && e.wk[w].cur.Some? && L(e, Cpu(w)) == [e.wk[w].cur.value] && L(e, Hand(w)) == []
      && Fit(e, e.wk[w].cur.value, w, false)
  {
    Reachable(s, m, acts);
    assert PcOk(Exec(s, acts), w, Exec(s, acts).wk[w]);
  }

  /** Who waits in a join slot waits for a thread that is still to exit. */
  lemma JoinersHaveATarget(s: State, m: Tid, acts: seq<Act>, x: Tid)
    requires Init(s, m) && Runs(s, acts) && L(Exec(s, acts), JoinOf(x)) != []
    ensures x in Exec(s, acts).th && |L(Exec(s, acts), JoinOf(x))| == 1
    ensures forall w :: w in Exec(s, acts).wk ==> !(Exec(s, acts).wk[w].pc.ExitGot? && Exec(s, acts).wk[w].pc.x == x)
  {
    Reachable(s, m, acts);
    var e := Exec(s, acts);
    forall w | w in e.wk ensures !(e.wk[w].pc.ExitGot? && e.wk[w].pc.x == x) {
      JoinPcHeld(e, w);
    }
  }

  // ----- nobody is lost

  ghost predicate Keeps(s: State, s': State) {
    (forall t :: t in s.th || t in s.gone ==> t in s'.th || t in s'.gone) && forall t :: t in s.gone ==> t in s'.gone
  }

  lemma KeepsStep(s: State, a: Act)
    requires Enabled(s, a)
    ensures Keeps(s, Next(s, a))
  {
    hide SwitchStep, CallbackStep, PopStep, StealStep, YieldStep, BlockStep, JoinStep, ExitNextStep, PopHand, Keeps;
    match a
    case Switch(w) => KeepsSwitch(s, w, s.wk[w]);
    case Callback(w) => KeepsCallback(s, w, s.wk[w]);
    case Pop(w) => KeepsTake(s, w, w);
    case Steal(w, v) => KeepsTake(s, w, v);
    case Yield(w, v) => KeepsYield(s, w, v, s.wk[w].cur);
    case Block(w, o, found) => KeepsBlock(s, w, o, found, s.wk[w].cur);
    case Join(w, x, found) => KeepsJoin(s, w, x, found, s.wk[w].cur);
    case ExitNext(w, found) => KeepsExitNext(s, w, s.wk[w].pc.x, found, s.wk[w].cur);
    case _ => KeepsRest(s, a);
  }

  lemma KeepsTake(s: State, w: Wid, v: Wid)
    requires L(s, RunQ(v)) != []
    ensures Keeps(s, StealStep(s, w, v)) && (v == w ==> Keeps(s, PopStep(s, w)))
  {
  }

  lemma KeepsYield(s: State, w: Wid, v: Wid, cur: Option<Tid>)
    requires L(s, RunQ(v)) != []
    ensures Keeps(s, YieldStep(s, w, v, cur))
  {
  }

  lemma KeepsBlock(s: State, w: Wid, o: nat, found: bool, cur: Option<Tid>)
    requires Pops(s, w, found)
    ensures Keeps(s, BlockStep(s, w, o, found, cur))
  {
  }

  lemma KeepsJoin(s: State, w: Wid, x: Tid, found: bool, cur: Option<Tid>)
    requires Pops(s, w, found)
    ensures Keeps(s, JoinStep(s, w, x, found, cur))
  {
  }

  lemma KeepsExitNext(s: State, w: Wid, x: Tid, found: bool, cur: Option<Tid>)
    requires Pops(s, w, found)
    ensures Keeps(s, ExitNextStep(s, w, x, found, cur))
  {
  }

  lemma KeepsRest(s: State, a: Act)
    requires Enabled(s, a) && !a.Switch? && !a.Callback? && !a.Pop? && !a.Steal?
    requires !a.Yield? && !a.Block? && !a.Join? && !a.ExitNext?
    ensures Keeps(s, Next(s, a))
  {
    match a
    case Make(_, _) =>
    case ChildFirst(_) =>
    case ParentFirst(_) =>
    case Pass(_, _) =>
    case PassTry(_, _, _) =>
    case Deq(_, _, _) =>
    case Push(_) =>
    case _ =>
  }

  lemma KeepsSwitch(s: State, w: Wid, me: Worker)
    ensures Keeps(s, SwitchStep(s, w, me))
  {
    match me.pc
    case YieldGot(_, _) =>
    case BlockGot(_, _, _) =>
    case JoinGot(_, _, _) =>
    case ExitGot(_, _) =>
    case _ =>
  }

  lemma KeepsCallback(s: State, w: Wid, me: Worker)
    ensures Keeps(s, CallbackStep(s, w, me))
  {
    match me.pc
    case CreateCb(_) =>
    case YieldCb(_, _) =>
    case BlockCb(_, _, _) =>
    case JoinCb(_, _, _) =>
    case ExitCb(_, _) =>
    case _ =>
  }

  lemma {:induction false} RunLosesNobody(s: State, acts: seq<Act>)
    requires Runs(s, acts)
    ensures Keeps(s, Exec(s, acts))
    decreases |acts|
  {
    hide Enabled, Next;
    if acts != [] {
      KeepsStep(s, acts[0]);
      RunLosesNobody(Next(s, acts[0]), acts[1..]);
    }
  }

  /** A thread known after some steps is, after any more, in its one place or has exited. */
  lemma NobodyLost(s: State, m: Tid, acts: seq<Act>, more: seq<Act>, t: Tid)
    requires Init(s, m) && Runs(s, acts) && Runs(Exec(s, acts), more) && t in Exec(s, acts).th
    ensures var e := Exec(Exec(s, acts), more); t in e.gone <==> t !in e.th
  {
    Reachable(s, m, acts);
    RunKeepsInv(Exec(s, acts), more);
    RunLosesNobody(Exec(s, acts), more);
  }
}
