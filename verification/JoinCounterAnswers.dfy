/** When wait and dec of a join counter return, said of the calls and returns that a run shows,
    not of what the machine writes down about itself. */
module JoinCounterAnswers {
  import opened Arithmetic
  import opened Base
  import opened JoinCounter

  /** In dec, before its decrement. */
  predicate Deciding(pc: Pc) { pc.DecRead? || pc.DecCas? }

  predicate InDec(pc: Pc) { Deciding(pc) || pc.Waking? || pc.Pushing? }

  /** Who gets past the decrement of dec in a step. */
  function Passers(s: State, s': State): set<Tid> {
    set t | t in s.pc && t in s'.pc && Deciding(s.pc[t]) && !Deciding(s'.pc[t]) && !s'.pc[t].Excess?
  }

  /** The calls of dec that have passed their decrement. */
  function DecsPassed(s: State, acts: seq<Act>): nat
    requires Runs(s, acts)
    decreases |acts|
  {
    if acts == [] then 0 else |Passers(s, Next(s, acts[0]))| + DecsPassed(Next(s, acts[0]), acts[1..])
  }

  /** What an act may do to thread t, when d calls of dec have passed. */
  predicate Right(s: State, a: Act, t: Tid, d: nat)
    requires Enabled(s, a) && t in s.pc && t in Next(s, a).pc
  {
    var p, p' := s.pc[t], Next(s, a).pc[t];
    if a == CallWait(t) then p == Out && InWait(p')
    else if a == CallDec(t) then p == Out && Deciding(p')
    else
      && (p == Out || p.Excess? ==> p' == p)
      && (InWait(p) ==> InWait(p') || (p' == Out && d == s.n))
      && (Deciding(p) ==> Deciding(p') || (p'.Excess? && d == s.n) || (d < s.n && if d + 1 == s.n then p'.Waking? else p' == Out))
      && (p.Waking? || p.Pushing? ==> p'.Waking? || p'.Pushing? || p' == Out)
  }

  lemma OneMoves(s: State, a: Act, t: Tid)
    requires Inv(s) && Enabled(s, a) && t in s.pc
    ensures t in Next(s, a).pc
    ensures t != a.t ==> var p, p' := s.pc[t], Next(s, a).pc[t];
      p' == p || (p.Asleep? && p'.Collected?) || (p.Collected? && p'.WaitRead?)
  {
    hide Pow2, Decs, Waiters, WordOk, SeatsOk, LeaderOk, LocalsOk, PlacesOk;
    if a.Step? && s.pc[a.t].Waking? && s.queue != [] { assert s.queue[0] in s.queue; }
    if a.Step? && s.pc[a.t].Pushing? && s.pc[a.t].hand != [] { assert s.pc[a.t].hand[0] in s.pc[a.t].hand; }
  }

  lemma OwnMoves(s: State, a: Act)
    requires Inv(s) && Enabled(s, a) && a.t in Next(s, a).pc
    ensures Right(s, a, a.t, s.decs)
    ensures Next(s, a).n == s.n
    ensures Next(s, a).decs == s.decs + (if a.t in Passers(s, Next(s, a)) then 1 else 0)
  {
    FieldsOf(s);
    assert LocalOk(s, s.pc[a.t]) && s.decs <= s.n;
    hide Inv, Pow2, Decs, Waiters;
    if a.Step? { OwnSteps(s, a.t); }
  }

  lemma OwnSteps(s: State, t: Tid)
    requires Enabled(s, Step(t)) && LocalOk(s, s.pc[t]) && s.decs <= s.n && Decs(s.word, Pow2(s.bits)) == s.decs
    requires t in StepNext(s, t).pc
    ensures Right(s, Step(t), t, s.decs) && StepNext(s, t).n == s.n
    ensures StepNext(s, t).decs == s.decs + (if t in Passers(s, StepNext(s, t)) then 1 else 0)
  {
    hide Pow2, Decs, Waiters;
    match s.pc[t]
    case WaitRead(_) =>
    case WaitCas(_, _) =>
    case Reserved =>
    case DecRead =>
    case DecCas(_) =>
    case Waking(_, _) =>
    case Pushing(_) =>
  }

  lemma ActIsRight(s: State, a: Act, t: Tid)
    requires Inv(s) && Enabled(s, a) && t in s.pc
    ensures t in Next(s, a).pc && Right(s, a, t, s.decs)
  {
    hide Inv, Next;
    OneMoves(s, a, t);
    if t == a.t { OwnMoves(s, a); }
  }

  lemma Counted(s: State, a: Act)
    requires Inv(s) && Enabled(s, a)
    ensures Next(s, a).decs == s.decs + |Passers(s, Next(s, a))| && Next(s, a).n == s.n
  {
    hide Inv, Next;
    var s' := Next(s, a);
    OneMoves(s, a, a.t);
    OwnMoves(s, a);
    forall t | t in Passers(s, s') ensures t == a.t { OneMoves(s, a, t); }
    assert Passers(s, s') == if a.t in Passers(s, s') then {a.t} else {};
  }

  lemma {:induction false} RunCounts(s: State, acts: seq<Act>)
    requires Inv(s) && Runs(s, acts)
    ensures Exec(s, acts).decs == s.decs + DecsPassed(s, acts) && Exec(s, acts).n == s.n
    decreases |acts|
  {
    hide Inv, Passers, Enabled, Next;
    if acts != [] {
      NextKeeps(s, acts[0]);
      Counted(s, acts[0]);
      RunCounts(Next(s, acts[0]), acts[1..]);
    }
  }

  /** In every run the calls of dec that have passed are what the word says, at most n. */
  lemma DecsArePassed(s: State, acts: seq<Act>)
    requires Init(s) && Runs(s, acts)
    ensures DecsPassed(s, acts) <= s.n && Decs(Exec(s, acts).word, Pow2(s.bits)) == DecsPassed(s, acts)
  {
    hide Inv;
    Reachable(s, []);
    RunCounts(s, acts);
    FieldsNeverMix(s, acts);
    SameBits(s, acts);
  }

  lemma {:induction false} SameBits(s: State, acts: seq<Act>)
    requires Runs(s, acts)
    ensures Exec(s, acts).bits == s.bits
    decreases |acts|
  {
    hide Enabled, Next;
    if acts != [] {
      BitsStay(s, acts[0]);
      SameBits(Next(s, acts[0]), acts[1..]);
    }
  }

  lemma BitsStay(s: State, a: Act)
    requires Enabled(s, a)
    ensures Next(s, a).bits == s.bits
  {
    hide Pow2, Decs, Waiters;
  }

  /** In every run: wait returns only when n calls of dec have passed, whatever way it goes; dec
      passes when fewer have, and exits only when n have; the last to pass collects the sleepers. */
  lemma EveryAnswerIsRight(s: State, acts: seq<Act>, a: Act, t: Tid)
    requires Init(s) && Runs(s, acts) && Enabled(Exec(s, acts), a) && t in Exec(s, acts).pc
    ensures t in Next(Exec(s, acts), a).pc && Right(Exec(s, acts), a, t, DecsPassed(s, acts))
  {
    hide Inv, Right;
    Reachable(s, []);
    Reachable(s, acts);
    RunCounts(s, acts);
    StartsAtNone(s);
    ActIsRight(Exec(s, acts), a, t);
  }

  lemma StartsAtNone(s: State)
    requires Init(s)
    ensures s.decs == 0
  {
  }

  // ----- a call left alone

  function Solo(t: Tid, k: nat): seq<Act> {
    if k == 0 then [] else [Step(t)] + Solo(t, k - 1)
  }

  lemma Onward(s: State, t: Tid, k: nat)
    requires Enabled(s, Step(t)) && Runs(StepNext(s, t), Solo(t, k))
    ensures Runs(s, Solo(t, k + 1)) && Exec(s, Solo(t, k + 1)) == Exec(StepNext(s, t), Solo(t, k))
  {
    assert Solo(t, k + 1)[1..] == Solo(t, k);
  }

  /** The steps that a call still needs, until it sleeps, returns or collects. */
  function Need(s: State, pc: Pc): nat {
    var through := Decs(s.word, Pow2(s.bits)) == s.n;
    match pc
    case WaitRead(_) => if through then 1 else 3
    case WaitCas(seen, _) => if seen == s.word then 2 else if through then 2 else 4
    case Reserved => 1
    case DecRead => if Decs(s.word, Pow2(s.bits)) >= s.n then 1 else 2
    case DecCas(seen) => if seen == s.word then 1 else if Decs(s.word, Pow2(s.bits)) >= s.n then 2 else 3
    case _ => 0
  }

  /** wait, left alone, returns when all decrements are done and else sleeps in the queue. */
  lemma {:induction false} WaitAlone(s: State, t: Tid)
    requires t in s.pc && t in s.on && (s.pc[t].WaitRead? || s.pc[t].WaitCas? || s.pc[t].Reserved?) && Inv(s)
    ensures Runs(s, Solo(t, Need(s, s.pc[t]))) && t in Exec(s, Solo(t, Need(s, s.pc[t]))).pc
    ensures var e := Exec(s, Solo(t, Need(s, s.pc[t])));
      if Decs(s.word, Pow2(s.bits)) == s.n && !s.pc[t].Reserved? then e.pc[t] == Out && e.word == s.word
      else e.pc[t] == Asleep && e.queue == s.queue + [t]
    decreases Need(s, s.pc[t])
  {
    FieldsOf(s);
    assert LocalOk(s, s.pc[t]);
    NextKeeps(s, Step(t));
    var s' := StepNext(s, t);
    FieldsOf(s');
    hide Inv, Pow2, Decs, Waiters;
    assert s'.decs == s.decs && s'.n == s.n && t in s'.pc;
    if s'.pc[t].Out? || s'.pc[t].Asleep? {
      assert Runs(s', Solo(t, 0));
    } else {
      WaitAlone(s', t);
    }
    Onward(s, t, Need(s', s'.pc[t]));
  }

  /** dec, left alone, does its decrement, and goes on to wake if it is the last. */
  lemma {:induction false} DecAlone(s: State, t: Tid)
    requires t in s.pc && t in s.on && Deciding(s.pc[t]) && Inv(s)
    ensures Runs(s, Solo(t, Need(s, s.pc[t]))) && t in Exec(s, Solo(t, Need(s, s.pc[t]))).pc
    ensures var e := Exec(s, Solo(t, Need(s, s.pc[t])));
      var d := Decs(s.word, Pow2(s.bits));
      if d == s.n then e.pc[t].Excess?
      else e.word == s.word + 1 && if d + 1 == s.n then e.pc[t].Waking? else e.pc[t] == Out
    decreases Need(s, s.pc[t])
  {
    hide StepNext, Pow2, Decs, Waiters, QueueOk, SeatsOk, LeaderOk, HandOk, PlacesOk;
    FieldsOf(s);
    assert LocalOk(s, s.pc[t]) && s.decs <= s.n;
    DecStep(s, t);
    NextKeeps(s, Step(t));
    hide Inv, LocalOk;
    var s' := StepNext(s, t);
    if Deciding(s'.pc[t]) {
      DecAlone(s', t);
    } else {
      assert Runs(s', Solo(t, 0));
    }
    Onward(s, t, Need(s', s'.pc[t]));
  }

  lemma DecStep(s: State, t: Tid)
    requires t in s.pc && t in s.on && Deciding(s.pc[t])
    requires LocalOk(s, s.pc[t]) && s.decs <= s.n && Decs(s.word, Pow2(s.bits)) == s.decs
    ensures Enabled(s, Step(t)) && t in StepNext(s, t).pc
    ensures var s' := StepNext(s, t); var p' := s'.pc[t];
      && s'.n == s.n && s'.bits == s.bits
      && (s.pc[t].DecCas? && s.pc[t].seen == s.word ==>
            s.decs < s.n && s'.word == s.word + 1 && if s.decs + 1 == s.n then p'.Waking? else p' == Out)
      && (s.pc[t].DecRead? && s.decs == s.n ==> p'.Excess? && s'.word == s.word)
      && (s.pc[t].DecRead? && s.decs < s.n ==> p' == DecCas(s.word) && s'.word == s.word && s'.decs == s.decs)
      && (s.pc[t].DecCas? && s.pc[t].seen != s.word ==> p' == DecRead && s'.word == s.word && s'.decs == s.decs)
      && (Deciding(p') ==> s'.on == s.on)
  {
    hide Pow2, Decs, Waiters;
  }

  /** What the last dec still has to do to wake the sleepers. */
  function ToWake(pc: Pc): int {
    match pc
    case Waking(want, hand) => 2 * want - |hand| + 2
    case Pushing(hand) => |hand| + 1
    case _ => 0
  }

  /** Each of its steps is one less of them, and the last returns. */
  lemma WakingRunsOut(s: State, t: Tid)
    requires Inv(s) && Enabled(s, Step(t)) && (s.pc[t].Waking? || s.pc[t].Pushing?)
    ensures t in StepNext(s, t).pc && 0 <= ToWake(StepNext(s, t).pc[t]) < ToWake(s.pc[t])
    ensures ToWake(StepNext(s, t).pc[t]) == 0 ==> StepNext(s, t).pc[t] == Out
  {
    hide Pow2, Decs, Waiters, WordOk, QueueOk, SeatsOk, LeaderOk, LocalsOk, PlacesOk;
  }
}
