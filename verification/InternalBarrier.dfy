/** The barrier of the worker threads: a counter for either phase, under a mutex and a
    condition variable that may wake its waiters for no reason.  A critical section, from
    taking the mutex to releasing it or waiting, is one step.

    `gen` and `entered` are history variables: the phases completed, and how often each
    thread has entered. */
module InternalBarrier {
  import opened Counting

  type Tid = nat

  datatype Pc = Out | Waiting(p: bool, awake: bool)

  datatype State = State(n: nat, phase: bool, c0: int, c1: int, pc: map<Tid, Pc>, gen: int, entered: map<Tid, int>)

  datatype Act = Enter(t: Tid) | Spurious(t: Tid) | Resume(t: Tid)

  function Cur(s: State, p: bool): int {
    if p then s.c1 else s.c0
  }

  function SetCur(s: State, p: bool, c: int): State {
    if p then s.(c1 := c) else s.(c0 := c)
  }

  predicate Enabled(s: State, a: Act) {
    a.t in s.pc && a.t in s.entered &&
    match a
    case Enter(t) => s.pc[t] == Out
    case Spurious(t) => s.pc[t].Waiting?
    case Resume(t) => s.pc[t].Waiting? && s.pc[t].awake
  }

  function Broadcast(pc: map<Tid, Pc>): map<Tid, Pc> {
    map t | t in pc :: if pc[t].Waiting? then Waiting(pc[t].p, true) else Out
  }

  function EnterStep(s: State, t: Tid): State
    requires t in s.entered
  {
    var c := Cur(s, s.phase) + 1;
    var s1 := SetCur(s, s.phase, c).(entered := s.entered[t := s.entered[t] + 1]);
    if c < s.n then s1.(pc := s.pc[t := Waiting(s.phase, false)])
    else SetCur(s1.(phase := !s.phase), !s.phase, 0).(pc := Broadcast(s.pc), gen := s.gen + 1)
  }

  function ResumeStep(s: State, t: Tid, p: bool): State {
    s.(pc := s.pc[t := if Cur(s, p) == s.n then Out else Waiting(p, false)])
  }

  function Next(s: State, a: Act): State
    requires Enabled(s, a)
  {
    match a
    case Enter(t) => EnterStep(s, t)
    case Spurious(t) => s.(pc := s.pc[t := Waiting(s.pc[t].p, true)])
    case Resume(t) => ResumeStep(s, t, s.pc[t].p)
  }

  ghost predicate Init(s: State) {
    && s.n == |s.pc| && !s.phase && s.c0 == 0 && s.c1 == 0 && s.gen == 0
    && s.entered.Keys == s.pc.Keys
    && forall t :: t in s.pc ==> s.pc[t] == Out && s.entered[t] == 0
  }

  // ----- the invariant

  function Past(g: int): int -> bool {
    v => v > g
  }

  /** Threads that have entered the phase under way. */
  function Here(s: State): nat {
    Count(s.entered, Past(s.gen))
  }

  /** A thread is in the phase under way, or has at least entered the one before. */
  predicate ThreadOk(s: State, pc: Pc, entered: int) {
    && s.gen <= entered <= s.gen + 1
    && (pc == Out ==> entered == s.gen)
    && (pc.Waiting? && pc.p == s.phase ==> entered == s.gen + 1)
    && (pc.Waiting? && pc.p != s.phase ==> entered == s.gen && s.gen > 0 && pc.awake)
  }

  ghost predicate Inv(s: State) {
    && s.n == |s.entered| && (forall t :: t in s.pc <==> t in s.entered)
    && Cur(s, s.phase) == Here(s) && 0 <= Cur(s, s.phase) <= s.n
    && (s.n > 0 ==> Cur(s, s.phase) < s.n)
    && s.gen >= 0 && (s.gen > 0 ==> Cur(s, !s.phase) == s.n)
    && forall t :: t in s.pc ==> ThreadOk(s, s.pc[t], s.entered[t])
  }

  lemma CountAtMost(m: map<Tid, int>, g: int)
    ensures Count(m, Past(g)) <= |m|
    ensures Count(m, Past(g)) == |m| ==> forall t :: t in m ==> m[t] > g
  {
    var w := Where(m, Past(g));
    assert w <= m.Keys;
    Smaller(w, m.Keys);
    assert |m.Keys| == |m|;
    if |w| == |m| {
      assert m.Keys == w + (m.Keys - w);
      assert m.Keys - w == {};
    }
  }

  lemma InitGood(s: State)
    requires Init(s)
    ensures Inv(s)
  {
    CountNone(s.entered, Past(s.gen));
    assert |s.pc.Keys| == |s.pc| && |s.entered.Keys| == |s.entered|;
  }

  lemma EnterKeeps(s: State, t: Tid)
    requires Inv(s) && Enabled(s, Enter(t))
    ensures Inv(EnterStep(s, t))
  {
    var e' := s.entered[t := s.entered[t] + 1];
    assert ThreadOk(s, s.pc[t], s.entered[t]);
    CountMoves(s.entered, t, s.entered[t] + 1, Past(s.gen));
    assert e'.Keys == s.entered.Keys;
    assert |e'| == |e'.Keys| == |s.entered.Keys| == |s.entered|;
    if Cur(s, s.phase) + 1 < s.n {
      EnterWaits(s, t);
    } else {
      CountAtMost(e', s.gen);
      LastEnters(s, t);
    }
  }

  lemma EnterWaits(s: State, t: Tid)
    requires Inv(s) && Enabled(s, Enter(t)) && Cur(s, s.phase) + 1 < s.n
    requires var e' := s.entered[t := s.entered[t] + 1];
      |e'| == |s.entered| && Count(e', Past(s.gen)) == Here(s) + 1
    ensures Inv(EnterStep(s, t))
  {
    var s' := EnterStep(s, t);
    forall u | u in s'.pc ensures ThreadOk(s', s'.pc[u], s'.entered[u]) {
      assert ThreadOk(s, s.pc[u], s.entered[u]);
    }
  }

  /** The last to enter finds everybody in the phase under way: nobody is left in the one
      before, whose counter is now reset. */
  lemma LastEnters(s: State, t: Tid)
    requires Inv(s) && Enabled(s, Enter(t)) && Cur(s, s.phase) + 1 >= s.n
    requires var e' := s.entered[t := s.entered[t] + 1];
      |e'| == |s.entered| && Count(e', Past(s.gen)) == Here(s) + 1 <= |e'|
      && (Count(e', Past(s.gen)) == |e'| ==> forall u :: u in e' ==> e'[u] > s.gen)
    ensures Inv(EnterStep(s, t))
  {
    var s' := EnterStep(s, t);
    CountNone(s'.entered, Past(s'.gen)) by {
      forall u | u in s'.entered ensures s'.entered[u] <= s'.gen {
        assert ThreadOk(s, s.pc[u], s.entered[u]);
      }
    }
    forall u | u in s'.pc ensures ThreadOk(s', s'.pc[u], s'.entered[u]) {
      assert ThreadOk(s, s.pc[u], s.entered[u]);
    }
  }

  lemma NextKeeps(s: State, a: Act)
    requires Inv(s) && Enabled(s, a)
    ensures Inv(Next(s, a))
  {
    match a
    case Enter(t) => EnterKeeps(s, t);
    case Spurious(t) => OtherKeeps(s, a);
    case Resume(t) => OtherKeeps(s, a);
  }

  lemma OtherKeeps(s: State, a: Act)
    requires Inv(s) && Enabled(s, a) && !a.Enter?
    ensures Inv(Next(s, a))
  {
    var s' := Next(s, a);
    forall u | u in s'.pc ensures ThreadOk(s', s'.pc[u], s'.entered[u]) {
      assert ThreadOk(s, s.pc[u], s.entered[u]);
    }
  }

  // ----- whole runs

  predicate Runs(s: State, acts: seq<Act>)
    decreases |acts|
  {
    acts == [] || (Enabled(s, acts[0]) && Runs(Next(s, acts[0]), acts[1..]))
  }

  function Exec(s: State, acts: seq<Act>): State
    requires Runs(s, acts)
    decreases |acts|
  {
    if acts == [] then s else Exec(Next(s, acts[0]), acts[1..])
  }

  lemma {:induction false} RunKeeps(s: State, acts: seq<Act>)
    requires Runs(s, acts) && Inv(s)
    ensures Inv(Exec(s, acts))
    decreases |acts|
  {
    hide Inv, Enabled, Next;
    if acts != [] {
      NextKeeps(s, acts[0]);
      RunKeeps(Next(s, acts[0]), acts[1..]);
    }
  }

  lemma Reachable(s: State, acts: seq<Act>)
    requires Init(s) && Runs(s, acts)
    ensures Inv(Exec(s, acts))
  {
    InitGood(s);
    RunKeeps(s, acts);
  }

  /** A waiter whose phase is complete is awake and still finds its counter at n, however late
      it comes; one that sleeps is in the phase under way, which is not complete. */
  lemma NoWaiterMissesItsPhase(s: State, acts: seq<Act>, t: Tid)
    requires Init(s) && Runs(s, acts) && t in Exec(s, acts).pc && Exec(s, acts).pc[t].Waiting?
    ensures t in Exec(s, acts).entered
    ensures var e := Exec(s, acts);
      if e.pc[t].p == e.phase then e.entered[t] == e.gen + 1 && Cur(e, e.phase) < e.n
      else e.pc[t].awake && Cur(e, e.pc[t].p) == e.n && ResumeStep(e, t, e.pc[t].p).pc[t] == Out
  {
    Reachable(s, acts);
    var e := Exec(s, acts);
    assert ThreadOk(e, e.pc[t], e.entered[t]);
    assert t in e.entered.Keys && |e.entered.Keys| == |e.entered|;
  }

  /** Nobody returns before all have entered, and nobody is two phases ahead of another. */
  lemma NobodyRunsAhead(s: State, acts: seq<Act>, t: Tid, u: Tid)
    requires Init(s) && Runs(s, acts) && t in Exec(s, acts).pc && u in Exec(s, acts).pc
    ensures var e := Exec(s, acts);
      && t in e.entered && u in e.entered
      && (e.pc[t] == Out ==> e.entered[u] >= e.entered[t])
      && e.entered[t] <= e.entered[u] + 1
  {
    Reachable(s, acts);
    var e := Exec(s, acts);
    assert ThreadOk(e, e.pc[t], e.entered[t]) && ThreadOk(e, e.pc[u], e.entered[u]);
  }

  /** What the code asserts on entry. */
  lemma EntryAssertionsHold(s: State, acts: seq<Act>, t: Tid)
    requires Init(s) && Runs(s, acts) && t in Exec(s, acts).pc
    ensures var e := Exec(s, acts); 0 <= Cur(e, e.phase) < e.n && Cur(e, e.phase) == Here(e)
  {
    Reachable(s, acts);
    var e := Exec(s, acts);
    assert t in e.entered.Keys && |e.entered.Keys| == |e.entered|;
  }

  // ----- said of the calls and returns that a run shows

  function Enters(acts: seq<Act>, t: Tid): nat
    decreases |acts|
  {
    if acts == [] then 0 else (if acts[0] == Enter(t) then 1 else 0) + Enters(acts[1..], t)
  }

  /** The step ends a wait of t: one that begins with it, or one that was under way. */
  predicate GetsOut(s: State, a: Act, t: Tid)
    requires Enabled(s, a)
  {
    && t in s.pc && t in Next(s, a).pc && Next(s, a).pc[t] == Out
    && (a == Enter(t) || s.pc[t].Waiting?)
  }

  function Returns(s: State, acts: seq<Act>, t: Tid): nat
    requires Runs(s, acts)
    decreases |acts|
  {
    if acts == [] then 0
    else (if GetsOut(s, acts[0], t) then 1 else 0) + Returns(Next(s, acts[0]), acts[1..], t)
  }

  function Inside(pc: Pc): nat { if pc.Waiting? then 1 else 0 }

  lemma StepShows(s: State, a: Act, t: Tid)
    requires Inv(s) && Enabled(s, a) && t in s.pc
    ensures var s' := Next(s, a);
      && t in s'.pc && t in s.entered && t in s'.entered
      && s'.entered[t] == s.entered[t] + (if a == Enter(t) then 1 else 0)
      && (if a == Enter(t) then 1 else 0) + Inside(s.pc[t]) == (if GetsOut(s, a, t) then 1 else 0) + Inside(s'.pc[t])
  {
  }

  lemma {:induction false} RunShows(s: State, acts: seq<Act>, t: Tid)
    requires Inv(s) && Runs(s, acts) && t in s.pc
    ensures var e := Exec(s, acts);
      && t in e.pc && t in s.entered && t in e.entered
      && e.entered[t] == s.entered[t] + Enters(acts, t)
      && Enters(acts, t) + Inside(s.pc[t]) == Returns(s, acts, t) + Inside(e.pc[t])
    decreases |acts|
  {
    hide Inv, Enabled, Next, GetsOut;
    if acts == [] {
      InEntered(s, t);
    } else {
      StepShows(s, acts[0], t);
      NextKeeps(s, acts[0]);
      RunShows(Next(s, acts[0]), acts[1..], t);
    }
  }

  lemma InEntered(s: State, t: Tid)
    requires Inv(s) && t in s.pc
    ensures t in s.entered
  {
  }

  /** In every run: nobody has returned more often than everybody has entered, nobody has entered
      twice more often than another, and who has entered and not returned is waiting. */
  lemma NobodyPassesEarly(s: State, acts: seq<Act>, t: Tid, u: Tid)
    requires Init(s) && Runs(s, acts) && t in s.pc && u in s.pc
    ensures Returns(s, acts, t) <= Enters(acts, u) && Enters(acts, t) <= Enters(acts, u) + 1
    ensures t in Exec(s, acts).pc && Enters(acts, t) == Returns(s, acts, t) + Inside(Exec(s, acts).pc[t])
  {
    hide Inv, Enabled, Next, Runs, Exec, Returns;
    InitGood(s);
    RunShows(s, acts, t);
    RunShows(s, acts, u);
    Reachable(s, acts);
    Levels(Exec(s, acts), t);
    Levels(Exec(s, acts), u);
    AtFirst(s, t);
    AtFirst(s, u);
  }

  lemma AtFirst(s: State, t: Tid)
    requires Init(s) && t in s.pc
    ensures t in s.entered && s.entered[t] == 0 && s.pc[t] == Out
  {
  }

  lemma Levels(s: State, t: Tid)
    requires Inv(s) && t in s.pc
    ensures t in s.entered && s.gen <= s.entered[t] <= s.gen + 1 && (s.pc[t] == Out ==> s.entered[t] == s.gen)
  {
    assert ThreadOk(s, s.pc[t], s.entered[t]);
  }
}
