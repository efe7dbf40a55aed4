/** What lock, trylock and unlock answer, said of the calls made: every program point serves the
    thread's last call, and a call left alone is soon answered. */
module MutexAnswers {
  import opened Base
  import opened Mutex

  datatype Call = ToLock | ToTry | ToUnlock | Given

  /** The call that an act is for agent t; a hand-over is an unlock to come for the callback. */
  function CallOf(s: State, a: Act, t: Tid): Option<Call>
    requires Enabled(s, a)
  {
    match a
    case CallLock(u) => if t == u then Some(ToLock) else None
    case CallTry(u) => if t == u then Some(ToTry) else None
    case CallUnlock(u) => if t == u then Some(ToUnlock) else None
    case HandOver(u) => if t == u then Some(ToUnlock) else if t == Callback(s.on[u]) then Some(Given) else None
    case _ => None
  }

  function Later(c: Option<Call>, before: Option<Call>): Option<Call> {
    if c.Some? then c else before
  }

  /** The last call of t in a run, or the one before it. */
  function LastCall(s: State, acts: seq<Act>, t: Tid, before: Option<Call>): Option<Call>
    requires Runs(s, acts)
    decreases |acts|
  {
    if acts == [] then before
    else LastCall(Next(s, acts[0]), acts[1..], t, Later(CallOf(s, acts[0], t), before))
  }

  /** Outside there is no lock that was not granted and nothing given that was not let go. */
  predicate Serves(pc: Pc, c: Option<Call>) {
    match pc
    case Out => c != Some(ToLock) && c != Some(Given)
    case Held => c == Some(ToLock) || c == Some(ToTry) || c == Some(Given)
    case Exit => false
    case _ =>
      && (InLock(pc) ==> c == Some(ToLock))
      && (InTry(pc) ==> c == Some(ToTry))
      && (InUnlock(pc) ==> c == Some(ToUnlock))
  }

  lemma CallServes(s: State, a: Act, t: Tid, c: Option<Call>)
    requires Enabled(s, a) && !a.Step? && t in s.pc && Serves(s.pc[t], c)
    ensures t in Next(s, a).pc && Serves(Next(s, a).pc[t], Later(CallOf(s, a, t), c))
  {
  }

  lemma StepServes(s: State, u: Tid, t: Tid, c: Option<Call>)
    requires Inv(s) && Enabled(s, Step(u)) && t in s.pc && Serves(s.pc[t], c)
    ensures t in StepNext(s, u).pc && Serves(StepNext(s, u).pc[t], c)
  {
    if t == u { OwnStep(s, t); } else { OtherStep(s, u, t); }
  }

  /** A step answers its own call, or not yet; who is dequeued or pushed stays inside lock. */
  lemma OtherStep(s: State, u: Tid, t: Tid)
    requires Inv(s) && Enabled(s, Step(u)) && t in s.pc && t != u
    ensures var s' := StepNext(s, u);
      t in s'.pc && (s'.pc[t] == s.pc[t] || (s.pc[t].Asleep? && s'.pc[t].InHand?) || (s.pc[t].InHand? && s'.pc[t].LockRead?))
  {
    hide WordOk, WakeOk, PlacesOk, LocalsOk;
    if s.pc[u].UnDeq? { assert s.queue[0] in s.queue; }
  }

  /** lock ends with the lock bit, which was clear; trylock too, or with a refusal, when it was
      set; unlock ends outside. */
  ghost predicate Answered(s: State, s': State, t: Tid)
    requires t in s.pc && t in s'.pc
  {
    var p, p' := s.pc[t], s'.pc[t];
    && (InLock(p) ==> InLock(p') || (p' == Held && s.word % 2 == 0 && s'.word == s.word + 1))
    && (InTry(p) ==>
          || InTry(p')
          || (p' == Held && s.word % 2 == 0 && s'.word == s.word + 1)
          || (p' == Out && s.word % 2 == 1 && s'.word == s.word))
    && (InUnlock(p) ==> InUnlock(p') || p' == Out)
    && (Owns(p) && !Owns(p') <==> s.word % 2 == 1 && s'.word % 2 == 0)
    && (!Owns(p) && Owns(p') <==> s.word % 2 == 0 && s'.word % 2 == 1)
  }

  lemma OwnStep(s: State, t: Tid)
    requires Inv(s) && Enabled(s, Step(t))
    ensures t in StepNext(s, t).pc && Answered(s, StepNext(s, t), t)
  {
    WordAt(s, t);
    hide Inv, StepNext, Answered;
    if InLock(s.pc[t]) { LockStep(s, t); }
    else if InTry(s.pc[t]) { TryStep(s, t); }
    else { UnlockStep(s, t); }
  }

  lemma LockStep(s: State, t: Tid)
    requires Enabled(s, Step(t)) && InLock(s.pc[t]) && s.word >= 0 && LocalOk(s.pc[t])
    ensures t in StepNext(s, t).pc && Answered(s, StepNext(s, t), t)
  {
    match s.pc[t]
    case LockRead(_) =>
    case LockCas(_, _) =>
    case Reserved =>
  }

  lemma TryStep(s: State, t: Tid)
    requires Enabled(s, Step(t)) && InTry(s.pc[t]) && s.word >= 0 && LocalOk(s.pc[t])
    ensures t in StepNext(s, t).pc && Answered(s, StepNext(s, t), t)
  {
    match s.pc[t]
    case TryRead =>
    case TryCas(_) =>
  }

  lemma UnlockStep(s: State, t: Tid)
    requires Enabled(s, Step(t)) && InUnlock(s.pc[t]) && s.word >= 0 && LocalOk(s.pc[t])
    requires Owns(s.pc[t]) ==> s.word % 2 == 1
    requires (s.pc[t].UnDeq? ==> s.queue[0] != t) && (s.pc[t].UnPush? ==> s.pc[t].wakee != t)
    ensures t in StepNext(s, t).pc && Answered(s, StepNext(s, t), t)
  {
    match s.pc[t]
    case UnRead =>
    case UnCas(_) =>
    case UnDeq =>
    case UnClear(_) =>
    case UnPush(_) =>
  }

  /** What t knows of the word, and that it is not its own wakee. */
  lemma WordAt(s: State, t: Tid)
    requires Inv(s) && Enabled(s, Step(t))
    ensures s.word >= 0 && LocalOk(s.pc[t]) && (Owns(s.pc[t]) ==> s.word % 2 == 1)
    ensures s.pc[t].UnDeq? ==> s.queue[0] != t
    ensures s.pc[t].UnPush? ==> s.pc[t].wakee != t
  {
    if Owns(s.pc[t]) { Counting.CountMember(s.pc, t, Owns); }
    if s.pc[t].UnDeq? { assert s.queue[0] in s.queue; }
  }

  lemma {:induction false} RunServes(s: State, acts: seq<Act>, t: Tid, c: Option<Call>)
    requires Inv(s) && Runs(s, acts) && t in s.pc && Serves(s.pc[t], c)
    ensures t in Exec(s, acts).pc && Serves(Exec(s, acts).pc[t], LastCall(s, acts, t, c))
    decreases |acts|
  {
    hide Inv, Serves, CallOf;
    if acts != [] {
      var a := acts[0];
      NextKeeps(s, a);
      ActServes(s, a, t, c);
      RunServes(Next(s, a), acts[1..], t, Later(CallOf(s, a, t), c));
    }
  }

  lemma ActServes(s: State, a: Act, t: Tid, c: Option<Call>)
    requires Inv(s) && Enabled(s, a) && t in s.pc && Serves(s.pc[t], c)
    ensures t in Next(s, a).pc && Serves(Next(s, a).pc[t], Later(CallOf(s, a, t), c))
  {
    hide Inv, Serves, StepNext;
    if a.Step? { StepServes(s, a.t, t, c); } else { CallServes(s, a, t, c); }
  }

  /** In every run each agent is where its last call puts it: inside that call, holding what lock
      or trylock or a hand-over gave it, or outside; never outside after lock. */
  lemma EveryPointServesTheCall(s: State, acts: seq<Act>, t: Tid)
    requires Init(s) && Runs(s, acts) && t in s.pc
    ensures t in Exec(s, acts).pc && Serves(Exec(s, acts).pc[t], LastCall(s, acts, t, None))
  {
    hide Inv;
    Reachable(s, []);
    RunServes(s, acts, t, None);
  }

  /** What any act may do to agent t: begin a call, answer it or leave it pending, hand the mutex
      over; and nothing else, but that a sleeper of lock is on its way back. */
  ghost predicate Right(s: State, a: Act, t: Tid)
    requires Enabled(s, a) && t in s.pc && t in Next(s, a).pc
  {
    var p, p' := s.pc[t], Next(s, a).pc[t];
    if a == Step(t) then Answered(s, Next(s, a), t)
    else match CallOf(s, a, t)
      case Some(ToLock) => p == Out && InLock(p')
      case Some(ToTry) => p == Out && InTry(p')
      case Some(ToUnlock) => p == Held && if a.HandOver? then p' == Out else InUnlock(p')
      case Some(Given) => p == Out && p' == Held
      case None => p' == p || (InLock(p) && InLock(p'))
  }

  lemma ActIsRight(s: State, a: Act, t: Tid)
    requires Inv(s) && Enabled(s, a) && t in s.pc
    ensures t in Next(s, a).pc && Right(s, a, t)
  {
    hide Inv, StepNext, Answered;
    if a == Step(t) { OwnStep(s, t); }
    else if a.Step? { OtherStep(s, a.t, t); }
  }

  /** In every run every act answers each call as it should or leaves it pending: trylock is
      refused only while the lock bit is set. */
  lemma EveryAnswerIsRight(s: State, acts: seq<Act>, a: Act, t: Tid)
    requires Init(s) && Runs(s, acts) && Enabled(Exec(s, acts), a) && t in Exec(s, acts).pc
    ensures t in Next(Exec(s, acts), a).pc && Right(Exec(s, acts), a, t)
  {
    hide Inv, Right;
    Reachable(s, acts);
    ActIsRight(Exec(s, acts), a, t);
  }

  // ----- a call left alone

  function Solo(t: Tid, n: nat): seq<Act> {
    if n == 0 then [] else [Step(t)] + Solo(t, n - 1)
  }

  lemma Onward(s: State, t: Tid, n: nat)
    requires Enabled(s, Step(t)) && Runs(StepNext(s, t), Solo(t, n))
    ensures Runs(s, Solo(t, n + 1)) && Exec(s, Solo(t, n + 1)) == Exec(StepNext(s, t), Solo(t, n))
  {
    assert Solo(t, n + 1)[1..] == Solo(t, n);
  }

  /** How many steps of its own a call of lock or trylock still needs. */
  function Need(s: State, pc: Pc): nat {
    match pc
    case LockRead(_) => if s.word % 2 == 0 then 2 else 3
    case LockCas(seen, _) => if s.word % 2 == 0 then (if seen == s.word then 1 else 3) else (if seen == s.word then 2 else 4)
    case Reserved => 1
    case TryRead => if s.word % 2 == 0 then 2 else 1
    case TryCas(seen) => if s.word % 2 == 0 then (if seen == s.word then 1 else 3) else 2
    case _ => 0
  }

  /** lock, left alone, takes a free mutex; a taken one it waits for in the queue. */
  lemma {:induction false} LockAlone(s: State, t: Tid)
    requires t in s.pc && t in s.on && (s.pc[t].LockRead? || s.pc[t].LockCas? || s.pc[t].Reserved?) && s.word >= 0
    ensures Runs(s, Solo(t, Need(s, s.pc[t])))
    ensures var e := Exec(s, Solo(t, Need(s, s.pc[t])));
      if s.pc[t].Reserved? then e.pc == s.pc[t := Asleep] && e.queue == s.queue + [t] && e.word == s.word
      else if s.word % 2 == 0 then e.pc == s.pc[t := Held] && e.queue == s.queue && e.word == s.word + 1
      else e.pc == s.pc[t := Asleep] && e.queue == s.queue + [t] && e.word == s.word + 2
    decreases Need(s, s.pc[t])
  {
    var s' := StepNext(s, t);
    if s'.pc[t].Held? || s'.pc[t].Asleep? {
      assert Runs(s', Solo(t, 0));
    } else {
      LockAlone(s', t);
      assert s.pc[t := s'.pc[t]][t := Held] == s.pc[t := Held] && s.pc[t := s'.pc[t]][t := Asleep] == s.pc[t := Asleep];
    }
    Onward(s, t, Need(s', s'.pc[t]));
  }

  /** trylock, left alone, takes a free mutex and refuses a taken one. */
  lemma {:induction false} TryAlone(s: State, t: Tid)
    requires t in s.pc && t in s.on && InTry(s.pc[t]) && LocalOk(s.pc[t]) && s.word >= 0
    ensures Runs(s, Solo(t, Need(s, s.pc[t])))
    ensures Exec(s, Solo(t, Need(s, s.pc[t]))) ==
      if s.word % 2 == 0 then s.(word := s.word + 1, pc := s.pc[t := Held]) else s.(pc := s.pc[t := Out])
    decreases Need(s, s.pc[t])
  {
    var s' := StepNext(s, t);
    if s'.pc[t].Held? || s'.pc[t].Out? {
      assert Runs(s', Solo(t, 0));
    } else {
      TryAlone(s', t);
      assert s.pc[t := s'.pc[t]][t := Held] == s.pc[t := Held] && s.pc[t := s'.pc[t]][t := Out] == s.pc[t := Out];
    }
    Onward(s, t, Need(s', s'.pc[t]));
  }

  /** unlock, left alone, clears the word when nobody waits. */
  lemma UnlockAlone(s: State, t: Tid)
    requires t in s.pc && t in s.on && s.pc[t] == UnRead && s.word == 1
    ensures Runs(s, Solo(t, 2)) && Exec(s, Solo(t, 2)) == s.(word := 0, pc := s.pc[t := Out])
  {
    var s1 := StepNext(s, t);
    var s2 := StepNext(s1, t);
    assert s.pc[t := UnCas(1)][t := Out] == s.pc[t := Out];
    assert Runs(s2, Solo(t, 0));
    Onward(s1, t, 0);
    Onward(s, t, 1);
  }

  /** Otherwise it wakes the first sleeper, which is then about to retry the free mutex. */
  lemma UnlockWakes(s: State, t: Tid, w: Tid)
    requires t in s.pc && t in s.on && s.pc[t] == UnRead && s.word > 1 && s.word % 2 == 1
    requires s.queue != [] && s.queue[0] == w && w in s.pc && w != t
    ensures Runs(s, Solo(t, 5))
    ensures Exec(s, Solo(t, 5)) == s.(word := s.word - 3, queue := s.queue[1..], pc := s.pc[w := LockRead(true)][t := Out])
  {
    var s1 := StepNext(s, t);
    var s2 := StepNext(s1, t);
    assert s2 == s.(word := s.word - 2, pc := s2.pc) && s2.pc == s.pc[t := UnDeq];
    assert Enabled(s1, Step(t));
    hide StepNext;
    Wakes(s2, t, w);
    assert s2.pc[w := LockRead(true)][t := Out] == s.pc[w := LockRead(true)][t := Out];
    Onward(s1, t, 3);
    Onward(s, t, 4);
  }

  lemma Wakes(s: State, t: Tid, w: Tid)
    requires t in s.pc && t in s.on && s.pc[t] == UnDeq && s.queue != [] && s.queue[0] == w && w in s.pc && w != t
    ensures Runs(s, Solo(t, 3))
    ensures Exec(s, Solo(t, 3)) == s.(word := s.word - 1, queue := s.queue[1..], pc := s.pc[w := LockRead(true)][t := Out])
  {
    var s1 := StepNext(s, t);
    assert s1.pc == s.pc[w := InHand(t)][t := UnClear(w)];
    var s2 := StepNext(s1, t);
    assert s2.pc == s.pc[w := InHand(t)][t := UnPush(w)];
    var s3 := StepNext(s2, t);
    assert s3.pc == s.pc[w := LockRead(true)][t := Out];
    assert Enabled(s1, Step(t)) && Enabled(s2, Step(t));
    hide StepNext;
    assert Runs(s3, Solo(t, 0));
    Onward(s2, t, 0);
    Onward(s1, t, 1);
    Onward(s, t, 2);
  }
}
