/** What the barrier promises, said of who arrives and who returns as a schedule shows it, not of
    what the machine writes down about itself. */
module BarrierAnswers {
  import opened Base
  import opened Barrier

  predicate Before(pc: Pc) { pc.Out? || pc.Read? || pc.Cas? }

  function Callers(s: State, s': State): set<Tid> {
    set t | t in s.pc && t in s'.pc && s.pc[t] == Out && s'.pc[t] != Out
  }

  /** Who gets past the compare-and-swap that counts it in. */
  function Arrivers(s: State, s': State): set<Tid> {
    set t | t in s.pc && t in s'.pc && Before(s.pc[t]) && !Before(s'.pc[t]) && !s'.pc[t].Excess?
  }

  /** Who leaves barrier_wait, from wherever. */
  function Leavers(s: State, s': State): set<Tid> {
    set t | t in s.pc && t in s'.pc && s.pc[t] != Out && s'.pc[t] == Out
  }

  /** Who leaves as the one that has woken the others: with the answer for the serial thread. */
  function SerialLeavers(s: State, s': State): set<Tid> {
    set t | t in Leavers(s, s') && Leads(s.pc[t])
  }

  function One(t: Tid, ts: set<Tid>): nat { if t in ts then 1 else 0 }

  function Calls(s: State, who: seq<Tid>, t: Tid): nat
    requires Runs(s, who)
    decreases |who|
  {
    if who == [] then 0 else One(t, Callers(s, Next(s, who[0]))) + Calls(Next(s, who[0]), who[1..], t)
  }

  function Arrivals(s: State, who: seq<Tid>, t: Tid): nat
    requires Runs(s, who)
    decreases |who|
  {
    if who == [] then 0 else One(t, Arrivers(s, Next(s, who[0]))) + Arrivals(Next(s, who[0]), who[1..], t)
  }

  function Returns(s: State, who: seq<Tid>, t: Tid): nat
    requires Runs(s, who)
    decreases |who|
  {
    if who == [] then 0 else One(t, Leavers(s, Next(s, who[0]))) + Returns(Next(s, who[0]), who[1..], t)
  }

  function SerialReturns(s: State, who: seq<Tid>): nat
    requires Runs(s, who)
    decreases |who|
  {
    if who == [] then 0 else |SerialLeavers(s, Next(s, who[0]))| + SerialReturns(Next(s, who[0]), who[1..])
  }

  // ----- what one step shows is what the machine writes down

  /** A step moves its own thread; another only from the stack to the leader's hand, or from
      there to a run queue. */
  lemma OthersMove(s: State, t: Tid, u: Tid)
    requires Inv(s) && Enabled(s, t) && u in s.pc && u != t
    ensures u in Next(s, t).pc
    ensures var p, p' := s.pc[u], Next(s, t).pc[u];
      p' == p || (p.Asleep? && p'.Collected?) || (p.Collected? && p'.Woken?)
  {
    if s.pc[t].PopCas? { LocalIs(s, t); }
    if s.pc[t].WakePush? { WakeReady(s, t); }
    hide Inv;
    if s.pc[t].PopCas? || s.pc[t].WakePush? { OthersTaken(s, t, u); } else { OthersStill(s, t, u); }
  }

  lemma OthersTaken(s: State, t: Tid, u: Tid)
    requires Enabled(s, t) && u in s.pc && u != t && (s.pc[t].PopCas? || s.pc[t].WakePush?)
    requires s.pc[t].PopCas? ==> s.pc[s.pc[t].x] == Asleep
    requires s.pc[t].WakePush? ==> s.pc[s.pc[t].cur.value] == Collected
    ensures u in Next(s, t).pc
    ensures var p, p' := s.pc[u], Next(s, t).pc[u];
      p' == p || (p.Asleep? && p'.Collected?) || (p.Collected? && p'.Woken?)
  {
  }

  lemma OthersStill(s: State, t: Tid, u: Tid)
    requires Enabled(s, t) && u in s.pc && u != t && !s.pc[t].PopCas? && !s.pc[t].WakePush?
    ensures u in Next(s, t).pc && Next(s, t).pc[u] == s.pc[u]
  {
    match s.pc[t]
    case Out =>
    case Read =>
    case Cas(_) =>
    case PushRead =>
    case PushLink(_) =>
    case PushCas(_) =>
    case Woken =>
    case Reset(_) =>
    case PopRead(_, _, _, _) =>
    case PopNext(_, _, _, _, _) =>
    case Link(_, _, _, _, _) =>
    case WakeRead(_, _, _) =>
  }

  lemma LocalIs(s: State, t: Tid)
    requires Inv(s) && t in s.pc && s.pc[t].PopCas?
    ensures s.pc[t].x in s.pc && s.pc[s.pc[t].x] == Asleep && s.pc[t].x != t
  {
    hide LeaderOk, HistoryOk, WordOk, CountsOk, ListOk, Chain, Distinct;
    assert LocalOk(s, t);
  }

  /** What the history fields make of the step of t. */
  predicate Shown(s: State, s': State, t: Tid) {
    && t in s.pc && t in s'.pc && s'.pc[t] != Excess && t in s.returned && t in s.arrived
    && s'.returned == (if s.pc[t] != Out && s'.pc[t] == Out then s.returned[t := s.returned[t] + 1] else s.returned)
    && s'.arrived == (if Before(s.pc[t]) && !Before(s'.pc[t]) then s.arrived[t := s.arrived[t] + 1] else s.arrived)
    && |s'.serials| == |s.serials| + (if s'.pc[t] == Out && Leads(s.pc[t]) then 1 else 0)
  }

  lemma OwnMoves(s: State, t: Tid)
    requires Inv(s) && Enabled(s, t)
    ensures Shown(s, Next(s, t), t)
  {
    if s.pc[t].Read? { NotExcess(s, t); }
    if s.pc[t].PopCas? { LocalIs(s, t); }
    if s.pc[t].WakePush? { WakeReady(s, t); }
    hide Inv, Shown, Next;
    if Leads(s.pc[t]) { LeaderMoves(s, t); } else { OthersOwnMoves(s, t); }
  }

  lemma LeaderMoves(s: State, t: Tid)
    requires Enabled(s, t) && Leads(s.pc[t]) && (s.pc[t].PopCas? ==> s.pc[t].x != t)
    requires s.pc[t].WakePush? ==> s.pc[t].cur.value != t
    ensures Shown(s, Next(s, t), t)
  {
    match s.pc[t]
    case Reset(_) =>
    case PopRead(_, _, _, _) =>
    case PopNext(_, _, _, _, _) =>
    case PopCas(_, _, _, _, _, _) =>
    case Link(_, _, _, _, _) =>
    case WakeRead(_, _, _) =>
    case WakePush(_, _, _, _) =>
  }

  lemma OthersOwnMoves(s: State, t: Tid)
    requires Enabled(s, t) && !Leads(s.pc[t]) && (s.pc[t].Read? ==> s.word < N(s))
    ensures Shown(s, Next(s, t), t)
  {
    match s.pc[t]
    case Out =>
    case Read =>
    case Cas(_) =>
    case PushRead =>
    case PushLink(_) =>
    case PushCas(_) =>
    case Woken =>
  }

  lemma StepShows(s: State, t: Tid, u: Tid)
    requires Inv(s) && Enabled(s, t) && u in s.pc
    ensures var s' := Next(s, t);
      && u in s'.pc && Shaped(s) && Shaped(s')
      && s'.returned[u] == s.returned[u] + One(u, Leavers(s, s'))
      && s'.arrived[u] == s.arrived[u] + One(u, Arrivers(s, s'))
      && |s'.serials| == |s.serials| + |SerialLeavers(s, s')|
  {
    hide Inv, Next, SerialLeavers;
    OwnMoves(s, t);
    NextKeeps(s, t);
    Shapes(s);
    Shapes(Next(s, t));
    if u != t { OthersMove(s, t, u); }
    SerialAlone(s, t);
  }

  lemma SerialAlone(s: State, t: Tid)
    requires Inv(s) && Enabled(s, t) && t in Next(s, t).pc
    ensures |SerialLeavers(s, Next(s, t))| == if Next(s, t).pc[t] == Out && Leads(s.pc[t]) then 1 else 0
  {
    hide Inv, Next;
    var s' := Next(s, t);
    forall v | v in SerialLeavers(s, s') ensures v == t {
      if v != t { OthersMove(s, t, v); }
    }
    assert SerialLeavers(s, s') == if t in SerialLeavers(s, s') then {t} else {};
  }

  /** In every run the fields are the counts that the run shows. */
  lemma {:induction false} RunShows(s: State, who: seq<Tid>, u: Tid)
    requires Inv(s) && Runs(s, who) && u in s.pc
    ensures var e := Exec(s, who);
      && u in e.pc && Shaped(s) && Shaped(e)
      && e.returned[u] == s.returned[u] + Returns(s, who, u)
      && e.arrived[u] == s.arrived[u] + Arrivals(s, who, u)
      && |e.serials| == |s.serials| + SerialReturns(s, who)
    decreases |who|
  {
    hide Inv, Enabled, Next, Leavers, Arrivers, SerialLeavers;
    Shapes(s);
    if who != [] {
      NextKeeps(s, who[0]);
      StepShows(s, who[0], u);
      RunShows(Next(s, who[0]), who[1..], u);
    }
  }

  lemma Shapes(s: State)
    requires Inv(s)
    ensures Shaped(s)
  {
  }

  // ----- the theorems

  /** In every run: nobody has returned more often than everybody has arrived, and nobody has
      arrived twice more often than another; who has arrived and not returned is inside. */
  lemma NobodyPassesEarly(s: State, who: seq<Tid>, t: Tid, u: Tid)
    requires Init(s) && Runs(s, who) && t in s.pc && u in s.pc
    ensures Returns(s, who, t) <= Arrivals(s, who, u) && Arrivals(s, who, t) <= Arrivals(s, who, u) + 1
    ensures var e := Exec(s, who);
      t in e.pc && Arrivals(s, who, t) == Returns(s, who, t) + if Before(e.pc[t]) then 0 else 1
  {
    hide Inv;
    InitInv(s);
    Reachable(s, who);
    RunShows(s, who, t);
    RunShows(s, who, u);
    Starts(s);
    Levels(Exec(s, who), t);
    Levels(Exec(s, who), u);
  }

  lemma Starts(s: State)
    requires Init(s)
    ensures Shaped(s) && s.serials == [] && forall t :: t in s.pc ==> s.arrived[t] == 0 && s.returned[t] == 0
  {
  }

  lemma Levels(s: State, t: Tid)
    requires Inv(s) && t in s.pc
    ensures Shaped(s) && s.gen <= s.arrived[t] <= s.gen + 1 && s.returned[t] <= s.gen
    ensures s.arrived[t] == s.returned[t] + if Before(s.pc[t]) then 0 else 1
    ensures !Gathering(s.pc[t]) ==> s.arrived[t] == s.gen
    ensures s.gen == |s.serials| + if s.leader.Some? then 1 else 0
    ensures s.leader.Some? ==> s.leader.value in s.pc && Leads(s.pc[s.leader.value])
    ensures Leads(s.pc[t]) ==> s.leader == Some(t)
  {
    hide WordOk, StackOk, ListOk, LocalsOk, CountsOk;
  }

  /** Exactly one return of each round is serial: the k-th serial return is the k-th return of
      its thread, no other thread returns more than once between two of them, and when nobody
      is inside each has returned as often as there were serial returns. */
  lemma OneSerialPerGeneration(s: State, who: seq<Tid>, t: Tid)
    requires Init(s) && Runs(s, who) && t in s.pc
    ensures var e := Exec(s, who); var k := SerialReturns(s, who);
      && t in e.pc
      && Returns(s, who, t) <= k + 1 && k <= Arrivals(s, who, t) <= k + 2
      && (Enabled(e, t) && Leads(e.pc[t]) && t in Leavers(e, Next(e, t)) ==> Returns(s, who, t) == k)
      && ((forall u :: u in e.pc ==> Before(e.pc[u])) ==> Returns(s, who, t) == k)
  {
    hide Inv, Init, Runs, Exec, Leavers, SerialReturns, Returns, Arrivals, Next, Enabled;
    InitInv(s);
    Reachable(s, who);
    RunShows(s, who, t);
    Starts(s);
    Levels(Exec(s, who), t);
  }

  /** Each call arrives, once, before it can return. */
  lemma CallsComeFirst(s: State, who: seq<Tid>, t: Tid)
    requires Init(s) && Runs(s, who) && t in s.pc
    ensures t in Exec(s, who).pc
    ensures var p := Exec(s, who).pc[t];
      Calls(s, who, t) == Arrivals(s, who, t) + if p.Read? || p.Cas? then 1 else 0
  {
    hide Inv;
    InitInv(s);
    RunCalls(s, who, t);
  }

  lemma {:induction false} RunCalls(s: State, who: seq<Tid>, t: Tid)
    requires Inv(s) && Runs(s, who) && t in s.pc
    ensures t in Exec(s, who).pc
    ensures var p, p' := s.pc[t], Exec(s, who).pc[t];
      Calls(s, who, t) + (if p.Read? || p.Cas? then 1 else 0)
        == Arrivals(s, who, t) + (if p'.Read? || p'.Cas? then 1 else 0)
    decreases |who|
  {
    hide Inv, Enabled, Next;
    if who != [] {
      NextKeeps(s, who[0]);
      CallStep(s, who[0], t);
      RunCalls(Next(s, who[0]), who[1..], t);
    }
  }

  lemma CallStep(s: State, u: Tid, t: Tid)
    requires Inv(s) && Enabled(s, u) && t in s.pc
    ensures t in Next(s, u).pc
    ensures var s' := Next(s, u); var p, p' := s.pc[t], s'.pc[t];
      One(t, Callers(s, s')) + (if p.Read? || p.Cas? then 1 else 0) == One(t, Arrivers(s, s')) + (if p'.Read? || p'.Cas? then 1 else 0)
  {
    OwnMoves(s, u);
    if t != u { OthersMove(s, u, t); } else { OwnPoint(s, t); }
    hide Inv, Next;
  }

  lemma OwnPoint(s: State, t: Tid)
    requires Enabled(s, t) && t in Next(s, t).pc && Inv(s)
    ensures var p, p' := s.pc[t], Next(s, t).pc[t];
      && (p == Out ==> p' == Read) && (p.Read? ==> p'.Cas? || p'.Excess?) && (p.Cas? ==> p' == Read || !Before(p'))
      && (!Before(p) ==> !p'.Read? && !p'.Cas?)
  {
    hide Inv, Next;
    if Leads(s.pc[t]) { LeaderPoint(s, t); } else { OtherPoint(s, t); }
  }

  lemma LeaderPoint(s: State, t: Tid)
    requires Enabled(s, t) && t in Next(s, t).pc && Leads(s.pc[t])
    ensures !Next(s, t).pc[t].Read? && !Next(s, t).pc[t].Cas?
  {
    match s.pc[t]
    case Reset(_) =>
    case PopRead(_, _, _, _) =>
    case PopNext(_, _, _, _, _) =>
    case PopCas(_, _, _, _, _, _) =>
    case Link(_, _, _, _, _) =>
    case WakeRead(_, _, _) =>
    case WakePush(_, _, _, _) =>
  }

  lemma OtherPoint(s: State, t: Tid)
    requires Enabled(s, t) && t in Next(s, t).pc && !Leads(s.pc[t])
    ensures var p, p' := s.pc[t], Next(s, t).pc[t];
      && (p == Out ==> p' == Read) && (p.Read? ==> p'.Cas? || p'.Excess?) && (p.Cas? ==> p' == Read || !Before(p'))
      && (!Before(p) ==> !p'.Read? && !p'.Cas?)
  {
    match s.pc[t]
    case Out =>
    case Read =>
    case Cas(_) =>
    case PushRead =>
    case PushLink(_) =>
    case PushCas(_) =>
    case Woken =>
  }

  // ----- a call left alone

  function Alone(t: Tid, k: nat): seq<Tid> {
    if k == 0 then [] else [t] + Alone(t, k - 1)
  }

  lemma Onward(s: State, t: Tid, k: nat)
    requires Enabled(s, t) && Runs(Next(s, t), Alone(t, k))
    ensures Runs(s, Alone(t, k + 1)) && Exec(s, Alone(t, k + 1)) == Exec(Next(s, t), Alone(t, k))
  {
    assert Alone(t, k + 1)[1..] == Alone(t, k);
  }

  function ToArrive(s: State, pc: Pc): nat {
    match pc
    case Read => 2
    case Cas(c) => if c == s.word then 1 else 3
    case _ => 0
  }

  /** A participant left alone arrives: to sleep, or as the last, who resets the word. */
  lemma {:induction false} ArrivesAlone(s: State, t: Tid)
    requires Inv(s) && t in s.pc && (s.pc[t].Read? || s.pc[t].Cas?)
    ensures Runs(s, Alone(t, ToArrive(s, s.pc[t]))) && t in Exec(s, Alone(t, ToArrive(s, s.pc[t]))).pc
    ensures var e := Exec(s, Alone(t, ToArrive(s, s.pc[t])));
      e.word == s.word + 1 && e.pc[t] == if s.word == N(s) - 1 then Reset(s.word) else PushRead
    decreases ToArrive(s, s.pc[t])
  {
    hide LeaderOk, HistoryOk, WordOk, StackOk, ListOk, LocalsOk, CountsOk, Next, N;
    ArriveStep(s, t);
    NextKeeps(s, t);
    var s' := Next(s, t);
    hide Inv;
    if s'.pc[t].Read? || s'.pc[t].Cas? {
      ArrivesAlone(s', t);
    } else {
      assert Runs(s', Alone(t, 0));
    }
    Onward(s, t, ToArrive(s', s'.pc[t]));
  }

  lemma ArriveStep(s: State, t: Tid)
    requires Shaped(s) && t in s.pc && (s.pc[t].Read? || s.pc[t].Cas?) && LeaderOk(s) && WordOk(s)
    ensures Enabled(s, t) && t in Next(s, t).pc
    ensures var s' := Next(s, t); var p, p' := s.pc[t], s'.pc[t];
      if p.Cas? && p.c == s.word then s'.word == s.word + 1 && p' == if s.word == N(s) - 1 then Reset(s.word) else PushRead
      else s'.word == s.word && N(s') == N(s) && p' == if p.Read? then Cas(s.word) else Read
  {
    if s.pc[t].Read? { NotExcess(s, t); }
    hide LeaderOk, WordOk;
  }

  function ToSleep(s: State, pc: Pc): nat {
    match pc
    case PushRead => 3
    case PushLink(p) => if p == s.top then 2 else 5
    case PushCas(p) => if p == s.top then 1 else 4
    case _ => 0
  }

  /** Who has arrived, left alone, comes to sleep at the top of the stack. */
  lemma {:induction false} SleepsAlone(s: State, t: Tid)
    requires Shaped(s) && t in s.pc && (s.pc[t].PushRead? || s.pc[t].PushLink? || s.pc[t].PushCas?)
    ensures Runs(s, Alone(t, ToSleep(s, s.pc[t])))
    ensures var e := Exec(s, Alone(t, ToSleep(s, s.pc[t])));
      e.pc == s.pc[t := Asleep] && e.stack == [t] + s.stack && e.top == Some(t) && e.word == s.word
    decreases ToSleep(s, s.pc[t])
  {
    var s' := Next(s, t);
    if s'.pc[t] == Asleep {
      assert Runs(s', Alone(t, 0));
    } else {
      SleepsAlone(s', t);
      assert s.pc[t := s'.pc[t]][t := Asleep] == s.pc[t := Asleep];
    }
    Onward(s, t, ToSleep(s', s'.pc[t]));
  }

  /** What the last arriver still has to do; a top that has changed costs it a round. */
  function ToLead(s: State, pc: Pc): int {
    match pc
    case Reset(want) => 7 * want + 6
    case PopRead(want, i, _, _) => 7 * want - 5 * i + 5
    case PopNext(want, i, _, _, x) => 7 * want - 5 * i + if s.top == Some(x) then 4 else 7
    case PopCas(want, i, _, _, x, _) => 7 * want - 5 * i + if s.top == Some(x) then 3 else 6
    case Link(want, i, _, _, _) => 7 * want - 5 * i + 2
    case WakeRead(want, i, _) => 2 * (want - i) + 1
    case WakePush(want, i, _, _) => 2 * (want - i)
    case _ => 0
  }

  /** Each of its steps, undisturbed, is one less of them, and the last is its return; a sleeper
      it has woken returns in one step. */
  lemma LeadingRunsOut(s: State, t: Tid)
    requires Inv(s) && Enabled(s, t) && Leads(s.pc[t])
    ensures t in Next(s, t).pc && 0 <= ToLead(Next(s, t), Next(s, t).pc[t]) < ToLead(s, s.pc[t])
    ensures ToLead(Next(s, t), Next(s, t).pc[t]) == 0 ==> Next(s, t).pc[t] == Out
  {
    LeaderIs(s, t);
    OwnMoves(s, t);
    LeadBounds(s, t);
    hide Inv, Shown, Leavers;
    LeadStep(s, t);
  }

  /** The loop counters of the leader. */
  predicate InRange(pc: Pc) {
    match pc
    case Reset(want) => 0 <= want
    case PopRead(want, i, _, _) => 0 <= i < want
    case PopNext(want, i, _, _, _) => 0 <= i < want
    case PopCas(want, i, _, _, _, _) => 0 <= i < want
    case Link(want, i, _, _, _) => 0 <= i < want
    case WakeRead(want, i, _) => 0 <= i <= want
    case WakePush(want, i, _, _) => 0 <= i < want
    case _ => true
  }

  lemma LeadBounds(s: State, t: Tid)
    requires Inv(s) && t in s.pc && s.leader == Some(t)
    ensures InRange(s.pc[t])
  {
    hide LeaderOk, HistoryOk, StackOk, ListOk, LocalsOk;
  }

  lemma LeadStep(s: State, t: Tid)
    requires Enabled(s, t) && Leads(s.pc[t]) && t in Next(s, t).pc && InRange(s.pc[t])
    ensures 0 <= ToLead(Next(s, t), Next(s, t).pc[t]) < ToLead(s, s.pc[t])
    ensures ToLead(Next(s, t), Next(s, t).pc[t]) == 0 ==> Next(s, t).pc[t] == Out
  {
    hide Next, ToLead, InRange;
    if s.pc[t].WakeRead? || s.pc[t].WakePush? || s.pc[t].Reset? { EndStep(s, t); } else { PopStep(s, t); }
  }

  lemma EndStep(s: State, t: Tid)
    requires Enabled(s, t) && t in Next(s, t).pc && InRange(s.pc[t])
    requires s.pc[t].WakeRead? || s.pc[t].WakePush? || s.pc[t].Reset?
    ensures 0 <= ToLead(Next(s, t), Next(s, t).pc[t]) < ToLead(s, s.pc[t])
    ensures ToLead(Next(s, t), Next(s, t).pc[t]) == 0 ==> Next(s, t).pc[t] == Out
  {
    match s.pc[t]
    case Reset(_) =>
    case WakeRead(_, _, _) =>
    case WakePush(_, _, _, _) =>
  }

  lemma PopStep(s: State, t: Tid)
    requires Enabled(s, t) && t in Next(s, t).pc && InRange(s.pc[t])
    requires s.pc[t].PopRead? || s.pc[t].PopNext? || s.pc[t].PopCas? || s.pc[t].Link?
    ensures 0 < ToLead(Next(s, t), Next(s, t).pc[t]) < ToLead(s, s.pc[t])
  {
    match s.pc[t]
    case PopRead(_, _, _, _) =>
    case PopNext(_, _, _, _, _) =>
    case PopCas(_, _, _, _, _, _) =>
    case Link(_, _, _, _, _) =>
  }
}
