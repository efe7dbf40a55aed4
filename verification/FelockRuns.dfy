/** Two runs of the full/empty lock, on one worker, that leave a sleeper without help: three
    threads of which one skips mark_and_signal, and four threads that all keep to it. */
module FelockRuns {
  import opened Felock
  import M = Mutex

  ghost predicate Reach(s: State, s': State) {
    exists acts :: Runs(s, acts) && Exec(s, acts) == s'
  }

  lemma {:induction false} RunsOn(s: State, acts: seq<Act>, a: Act)
    requires Runs(s, acts) && Enabled(Exec(s, acts), a)
    ensures Runs(s, acts + [a]) && Exec(s, acts + [a]) == Next(Exec(s, acts), a)
    decreases |acts|
  {
    hide Enabled, Next;
    if acts == [] {
      assert acts + [a] == [a];
      assert [a][1..] == [];
    } else {
      RunsOn(Next(s, acts[0]), acts[1..], a);
      assert (acts + [a])[1..] == acts[1..] + [a];
    }
  }

  lemma Then(s0: State, s: State, a: Act)
    requires Reach(s0, s) && Enabled(s, a)
    ensures Reach(s0, Next(s, a))
  {
    hide Enabled, Next, Runs, Exec;
    var acts :| Runs(s0, acts) && Exec(s0, acts) == s;
    RunsOn(s0, acts, a);
  }

  lemma Here(s: State)
    ensures Reach(s, s)
  {
    assert Runs(s, []) && Exec(s, []) == s;
  }

  /** Thread t at pc, and at m in the mutex; the word and the workers as given. */
  function At(s: State, t: Tid, pc: Pc, m: M.Pc, word: int, on: map<M.Tid, M.Worker>): State {
    s.(pc := s.pc[t := pc], mx := s.mx.(word := word, pc := s.mx.pc[M.Thread(t) := m], on := on))
  }

  function On(a: M.Tid): map<M.Tid, M.Worker> { map[a := 0] }

  lemma Over(s: State, t: Tid, pc: Pc, m: M.Pc, word: int, on: map<M.Tid, M.Worker>,
             pc': Pc, m': M.Pc, word': int, on': map<M.Tid, M.Worker>)
    ensures At(At(s, t, pc, m, word, on), t, pc', m', word', on') == At(s, t, pc', m', word', on')
  {
    assert s.pc[t := pc][t := pc'] == s.pc[t := pc'];
    assert s.mx.pc[M.Thread(t) := m][M.Thread(t) := m'] == s.mx.pc[M.Thread(t) := m'];
  }

  /** A step of t alone, on its worker. */
  lemma Steps(s0: State, s: State, t: Tid, pc: Pc, m: M.Pc, word: int, a: Act, pc': Pc, m': M.Pc, word': int)
    requires var c := At(s, t, pc, m, word, On(M.Thread(t)));
      Reach(s0, c) && Enabled(c, a) && Next(c, a) == At(c, t, pc', m', word', On(M.Thread(t)))
    ensures Reach(s0, At(s, t, pc', m', word', On(M.Thread(t))))
  {
    hide Enabled, Next, Reach;
    var c := At(s, t, pc, m, word, On(M.Thread(t)));
    Then(s0, c, a);
    Over(s, t, pc, m, word, On(M.Thread(t)), pc', m', word', On(M.Thread(t)));
  }

  /** Nobody on a worker, and t free to run. */
  ghost predicate Rests(s0: State, s: State, t: Tid) {
    && Reach(s0, s) && s.workers > 0 && s.mx.on == map[] && t in s.pc && M.Thread(t) in s.mx.pc
    && M.Callback(0) in s.mx.pc && s.mx.pc[M.Callback(0)] == M.Out && s.mx.word >= 0
  }

  lemma Dispatched(s0: State, s: State, t: Tid)
    requires Rests(s0, s, t) && !Blocked(s.pc[t]) && (s.mx.pc[M.Thread(t)].Out? || s.mx.pc[M.Thread(t)].Held?)
    ensures Reach(s0, At(s, t, s.pc[t], s.mx.pc[M.Thread(t)], s.mx.word, On(M.Thread(t))))
  {
    hide Reach;
    Then(s0, s, Dispatch(t, 0));
    assert s.pc[t := s.pc[t]] == s.pc && s.mx.pc[M.Thread(t) := s.mx.pc[M.Thread(t)]] == s.mx.pc;
    assert Next(s, Dispatch(t, 0)).mx.on == On(M.Thread(t));
  }

  lemma Yields(s0: State, s: State, t: Tid, pc: Pc, m: M.Pc, word: int)
    requires Reach(s0, At(s, t, pc, m, word, On(M.Thread(t)))) && ((pc == Idle && m == M.Out) || (pc == Holding && m == M.Held))
    ensures Reach(s0, At(s, t, pc, m, word, map[]))
  {
    hide Reach;
    var c := At(s, t, pc, m, word, On(M.Thread(t)));
    Then(s0, c, Leave(t));
    assert Next(c, Leave(t)).mx.on == map[];
  }

  function Wanting(s: State, a: Act): Pc
    requires a.CallWait? || (a.Relock? ==> a.t in s.pc && s.pc[a.t].Woken?)
  {
    if a.CallWait? then Waiting(a.st) else if a.Relock? then Waiting(s.pc[a.t].st) else Locking
  }

  /** t enters lock. */
  lemma Enters(s0: State, s: State, t: Tid, a: Act)
    requires Rests(s0, s, t) && s.mx.pc[M.Thread(t)].Out?
    requires if s.pc[t].Woken? then a == Relock(t) else s.pc[t] == Idle && (a == CallLock(t) || a == CallWait(t, true))
    ensures Reach(s0, At(s, t, Wanting(s, a), M.LockRead(false), s.mx.word, On(M.Thread(t))))
  {
    hide Reach;
    Dispatched(s0, s, t);
    Steps(s0, s, t, s.pc[t], M.Out, s.mx.word, a, Wanting(s, a), M.LockRead(false), s.mx.word);
  }

  lemma LockThen(s0: State, s: State, t: Tid, mx: M.State)
    requires Reach(s0, s) && t in s.pc && (s.pc[t] == Locking || s.pc[t].Waiting? || s.pc[t] == Unlocking)
    requires M.Enabled(s.mx, M.Step(M.Thread(t))) && mx == M.StepNext(s.mx, M.Thread(t)) && M.Thread(t) in mx.pc
    ensures Reach(s0, To(s, t, Settle(s.pc[t], mx.pc[M.Thread(t)])).(mx := mx))
  {
    hide Reach, M.Enabled, M.StepNext;
    Then(s0, s, Lock(t));
  }

  /** A step of t in the mutex that moves t alone. */
  lemma Locks(s0: State, s: State, t: Tid, pc: Pc, m: M.Pc, word: int, m': M.Pc, word': int)
    requires Reach(s0, At(s, t, pc, m, word, On(M.Thread(t)))) && (pc == Locking || pc.Waiting? || pc == Unlocking)
    requires var c := At(s, t, pc, m, word, On(M.Thread(t))).mx;
      M.Enabled(c, M.Step(M.Thread(t))) && M.StepNext(c, M.Thread(t)) == M.Go(c.(word := word'), M.Thread(t), m')
    ensures Reach(s0, At(s, t, Settle(pc, m'), m', word', On(M.Thread(t))))
  {
    hide Reach, M.Enabled, M.StepNext;
    Steps(s0, s, t, pc, m, word, Lock(t), Settle(pc, m'), m', word');
  }

  /** The mutex is free: t has it. */
  lemma Gets(s0: State, s: State, t: Tid, pc: Pc)
    requires Reach(s0, At(s, t, pc, M.LockRead(false), 0, On(M.Thread(t)))) && (pc == Locking || pc.Waiting?)
    ensures Reach(s0, At(s, t, Settle(pc, M.Held), M.Held, 1, On(M.Thread(t))))
  {
    hide Reach;
    Locks(s0, s, t, pc, M.LockRead(false), 0, M.LockCas(0, false), 0);
    Locks(s0, s, t, pc, M.LockCas(0, false), 0, M.Held, 1);
  }

  function Seat(s: State, t: Tid, pc: Pc): State {
    var c := At(s, t, pc, M.Asleep, s.mx.word + 2, map[]);
    c.(mx := c.mx.(queue := s.mx.queue + [M.Thread(t)]))
  }

  /** The mutex is taken: t sleeps in its queue. */
  lemma Seats(s0: State, s: State, t: Tid, pc: Pc)
    requires s.mx.word > 0 && s.mx.word % 2 == 1 && (pc == Locking || pc.Waiting?)
    requires Reach(s0, At(s, t, pc, M.LockRead(false), s.mx.word, On(M.Thread(t))))
    ensures Reach(s0, Seat(s, t, pc))
  {
    hide Reach;
    var w := s.mx.word;
    Locks(s0, s, t, pc, M.LockRead(false), w, M.LockCas(w, false), w);
    Locks(s0, s, t, pc, M.LockCas(w, false), w, M.Reserved, w + 2);
    Sits(s0, s, t, pc);
  }

  lemma Sits(s0: State, s: State, t: Tid, pc: Pc)
    requires pc == Locking || pc.Waiting?
    requires Reach(s0, At(s, t, pc, M.Reserved, s.mx.word + 2, On(M.Thread(t))))
    ensures Reach(s0, Seat(s, t, pc))
  {
    hide Reach, Enabled, Next;
    var w := s.mx.word;
    var c := At(s, t, pc, M.Reserved, w + 2, On(M.Thread(t)));
    LockThen(s0, c, t, M.StepNext(c.mx, M.Thread(t)));
    Over(s, t, pc, M.Reserved, w + 2, On(M.Thread(t)), pc, M.Asleep, w + 2, map[]);
    assert On(M.Thread(t)) - {M.Thread(t)} == map[];
  }

  /** The mutex is t's, and nobody waits for it: it is free again. */
  lemma Frees(s0: State, s: State, t: Tid)
    requires Reach(s0, At(s, t, Unlocking, M.UnRead, 1, On(M.Thread(t))))
    ensures Reach(s0, At(s, t, Idle, M.Out, 0, On(M.Thread(t))))
  {
    hide Reach;
    Locks(s0, s, t, Unlocking, M.UnRead, 1, M.UnCas(1), 1);
    Locks(s0, s, t, Unlocking, M.UnCas(1), 1, M.Out, 0);
  }

  /** The mutex with d taken from its queue and put at point m. */
  function Popped(s: State, d: Tid, m: M.Pc): State
    requires s.mx.queue != []
  {
    s.(mx := s.mx.(queue := s.mx.queue[1..], pc := s.mx.pc[M.Thread(d) := m]))
  }

  /** t unlocks with d first in the mutex's queue. */
  lemma Hands(s0: State, s: State, t: Tid, d: Tid)
    requires s.mx.queue != [] && s.mx.queue[0] == M.Thread(d) && M.Thread(d) in s.mx.pc && t != d
    requires Reach(s0, At(s, t, Unlocking, M.UnRead, 5, On(M.Thread(t))))
    ensures Reach(s0, At(Popped(s, d, M.LockRead(true)), t, Idle, M.Out, 2, On(M.Thread(t))))
  {
    hide Reach, Popped, At;
    Announces(s0, s, t);
    Pops(s0, s, t, d);
    Clears(s0, Popped(s, d, M.InHand(M.Thread(t))), t, d);
    Pushes(s0, s, t, d);
  }

  lemma Announces(s0: State, s: State, t: Tid)
    requires Reach(s0, At(s, t, Unlocking, M.UnRead, 5, On(M.Thread(t))))
    ensures Reach(s0, At(s, t, Unlocking, M.UnDeq, 3, On(M.Thread(t))))
  {
    hide Reach;
    Locks(s0, s, t, Unlocking, M.UnRead, 5, M.UnCas(5), 5);
    Locks(s0, s, t, Unlocking, M.UnCas(5), 5, M.UnDeq, 3);
  }

  lemma Clears(s0: State, s: State, t: Tid, d: Tid)
    requires Reach(s0, At(s, t, Unlocking, M.UnClear(M.Thread(d)), 3, On(M.Thread(t))))
    ensures Reach(s0, At(s, t, Unlocking, M.UnPush(M.Thread(d)), 2, On(M.Thread(t))))
  {
    hide Reach;
    Locks(s0, s, t, Unlocking, M.UnClear(M.Thread(d)), 3, M.UnPush(M.Thread(d)), 2);
  }

  lemma Pops(s0: State, s: State, t: Tid, d: Tid)
    requires s.mx.queue != [] && s.mx.queue[0] == M.Thread(d) && M.Thread(d) in s.mx.pc && t != d
    requires Reach(s0, At(s, t, Unlocking, M.UnDeq, 3, On(M.Thread(t))))
    ensures Reach(s0, At(Popped(s, d, M.InHand(M.Thread(t))), t, Unlocking, M.UnClear(M.Thread(d)), 3, On(M.Thread(t))))
  {
    hide Reach, Enabled, Next;
    var a := M.Thread(t);
    var c := At(s, t, Unlocking, M.UnDeq, 3, On(a));
    PopsTo(s, t, d);
    hide M.Enabled, M.StepNext;
    LockThen(s0, c, t, M.StepNext(c.mx, a));
    assert s.pc[t := Unlocking][t := Unlocking] == s.pc[t := Unlocking];
  }

  lemma PopsTo(s: State, t: Tid, d: Tid)
    requires s.mx.queue != [] && s.mx.queue[0] == M.Thread(d) && M.Thread(d) in s.mx.pc && t != d
    ensures var a := M.Thread(t); var mx := At(s, t, Unlocking, M.UnDeq, 3, On(a)).mx;
      && M.Enabled(mx, M.Step(a))
      && M.StepNext(mx, a) == At(Popped(s, d, M.InHand(a)), t, Unlocking, M.UnClear(M.Thread(d)), 3, On(a)).mx
  {
    var a, b, p := M.Thread(t), M.Thread(d), M.UnClear(M.Thread(d));
    assert s.mx.pc[a := M.UnDeq][b := M.InHand(a)][a := p] == s.mx.pc[b := M.InHand(a)][a := p];
  }

  lemma Pushes(s0: State, s: State, t: Tid, d: Tid)
    requires s.mx.queue != [] && M.Thread(d) in s.mx.pc && t != d
    requires Reach(s0, At(Popped(s, d, M.InHand(M.Thread(t))), t, Unlocking, M.UnPush(M.Thread(d)), 2, On(M.Thread(t))))
    ensures Reach(s0, At(Popped(s, d, M.LockRead(true)), t, Idle, M.Out, 2, On(M.Thread(t))))
  {
    hide Reach, Enabled, Next;
    var a, b, r := M.Thread(t), M.Thread(d), M.LockRead(true);
    var c := At(Popped(s, d, M.InHand(a)), t, Unlocking, M.UnPush(b), 2, On(a));
    LockThen(s0, c, t, M.StepNext(c.mx, a));
    assert s.mx.pc[b := M.InHand(a)][a := M.UnPush(b)][b := r][a := M.Out] == s.mx.pc[b := r][a := M.Out];
    assert s.pc[t := Unlocking][t := Idle] == s.pc[t := Idle];
  }

  // ----- a waiter falls asleep

  /** The thread t is on its way to sleep for true; its callback is at m in the mutex. */
  function Slept(s: State, t: Tid, pc: Pc, q: seq<Tid>, m: M.Pc, word: int, on: map<M.Tid, M.Worker>): State {
    s.(pc := s.pc[t := pc], q1 := q, mx := s.mx.(word := word, pc := s.mx.pc[M.Callback(0) := m], on := on))
  }

  lemma Sleeps1(s0: State, s: State, t: Tid)
    requires Reach(s0, At(s, t, Testing(true), M.Held, 1, On(M.Thread(t)))) && !s.status
    requires M.Callback(0) in s.mx.pc && s.mx.pc[M.Callback(0)] == M.Out
    requires M.Thread(t) in s.mx.pc && s.mx.pc[M.Thread(t)] == M.Out
    ensures Reach(s0, Slept(s, t, Leaving(true, 0), s.q1, M.Held, 1, On(M.Callback(0))))
  {
    hide Reach;
    var c := At(s, t, Testing(true), M.Held, 1, On(M.Thread(t)));
    Then(s0, c, Go(t));
    assert s.mx.pc[M.Thread(t) := M.Held][M.Thread(t) := M.Out][M.Callback(0) := M.Held] == s.mx.pc[M.Callback(0) := M.Held];
    assert s.pc[t := Testing(true)][t := Leaving(true, 0)] == s.pc[t := Leaving(true, 0)];
    assert Next(c, Go(t)).mx.on == On(M.Callback(0));
  }

  lemma Sleeps2(s0: State, s: State, t: Tid)
    requires Reach(s0, Slept(s, t, Leaving(true, 0), s.q1, M.Held, 1, On(M.Callback(0))))
    ensures Reach(s0, Slept(s, t, Asleep(true), s.q1 + [t], M.UnRead, 1, On(M.Callback(0))))
  {
    hide Reach;
    var c := Slept(s, t, Leaving(true, 0), s.q1, M.Held, 1, On(M.Callback(0)));
    Then(s0, c, Enqueue(t));
    assert s.mx.pc[M.Callback(0) := M.Held][M.Callback(0) := M.UnRead] == s.mx.pc[M.Callback(0) := M.UnRead];
    assert s.pc[t := Leaving(true, 0)][t := Asleep(true)] == s.pc[t := Asleep(true)];
  }

  lemma Sleeps3(s0: State, s: State, t: Tid, q: seq<Tid>, m: M.Pc, m': M.Pc, word: int, word': int)
    requires Reach(s0, Slept(s, t, Asleep(true), q, m, word, On(M.Callback(0))))
    requires var c := Slept(s, t, Asleep(true), q, m, word, On(M.Callback(0))).mx;
      M.Enabled(c, M.Step(M.Callback(0))) && M.StepNext(c, M.Callback(0)) == M.Go(c.(word := word'), M.Callback(0), m')
    ensures Reach(s0, Slept(s, t, Asleep(true), q, m', word', On(M.Callback(0))))
  {
    hide Reach, M.Enabled, M.StepNext;
    var c := Slept(s, t, Asleep(true), q, m, word, On(M.Callback(0)));
    Then(s0, c, Cb(0));
    assert s.mx.pc[M.Callback(0) := m][M.Callback(0) := m'] == s.mx.pc[M.Callback(0) := m'];
  }

  lemma Sleeps4(s0: State, s: State, t: Tid)
    requires Reach(s0, Slept(s, t, Asleep(true), s.q1 + [t], M.UnRead, 1, On(M.Callback(0))))
    requires M.Callback(0) in s.mx.pc && s.mx.pc[M.Callback(0)] == M.Out && s.mx.on == map[] && s.mx.word == 0
    ensures Reach(s0, s.(pc := s.pc[t := Asleep(true)], q1 := s.q1 + [t]))
  {
    hide Reach;
    Sleeps3(s0, s, t, s.q1 + [t], M.UnRead, M.UnCas(1), 1, 1);
    Sleeps3(s0, s, t, s.q1 + [t], M.UnCas(1), M.Out, 1, 0);
    var c := Slept(s, t, Asleep(true), s.q1 + [t], M.Out, 0, On(M.Callback(0)));
    Then(s0, c, CbEnd(0));
    assert s.mx.pc[M.Callback(0) := M.Out] == s.mx.pc;
    assert Next(c, CbEnd(0)).mx.on == map[];
  }

  /** t waits for true, finds false, and sleeps. */
  lemma FallsAsleep(s0: State, s: State, t: Tid)
    requires Rests(s0, s, t) && s.pc[t] == Idle && s.mx.pc[M.Thread(t)] == M.Out && s.mx.word == 0 && !s.status
    ensures Reach(s0, s.(pc := s.pc[t := Asleep(true)], q1 := s.q1 + [t]))
  {
    hide Reach, At, Slept;
    Enters(s0, s, t, CallWait(t, true));
    Gets(s0, s, t, Waiting(true));
    Sleeps1(s0, s, t);
    Sleeps2(s0, s, t);
    Sleeps4(s0, s, t);
  }

  // ----- a mark wakes the first sleeper

  function Signalling(s: State, t: Tid, pc: Pc, u: Tid, pu: Pc, q: seq<Tid>, m: M.Pc): State {
    s.(status := true, q1 := q, pc := s.pc[u := pu][t := pc],
       mx := s.mx.(word := 1, pc := s.mx.pc[M.Thread(t) := m], on := On(M.Thread(t))))
  }

  lemma Marks1(s0: State, s: State, t: Tid, u: Tid)
    requires Reach(s0, At(s, t, Holding, M.Held, 1, On(M.Thread(t))))
    requires u in s.pc && t in s.pc && t != u && s.q1 != [] && s.q1[0] == u
    ensures Reach(s0, Signalling(s, t, SigPush(u), u, Signalled(true), s.q1[1..], M.Held))
  {
    hide Reach;
    var c := At(s, t, Holding, M.Held, 1, On(M.Thread(t)));
    Then(s0, c, CallMark(t, true));
    var c' := Next(c, CallMark(t, true));
    Then(s0, c', Go(t));
    assert s.pc[t := Holding][t := SigDeq(true)][u := Signalled(true)][t := SigPush(u)] == s.pc[u := Signalled(true)][t := SigPush(u)];
  }

  lemma Marks2(s0: State, s: State, t: Tid, u: Tid, q: seq<Tid>)
    requires Reach(s0, Signalling(s, t, SigPush(u), u, Signalled(true), q, M.Held)) && u in s.pc && t in s.pc && t != u
    ensures Reach(s0, Signalling(s, t, Unlocking, u, Woken(true), q, M.UnRead))
  {
    hide Reach;
    var c := Signalling(s, t, SigPush(u), u, Signalled(true), q, M.Held);
    Then(s0, c, Go(t));
    assert s.pc[u := Signalled(true)][t := SigPush(u)][u := Woken(true)][t := Unlocking] == s.pc[u := Woken(true)][t := Unlocking];
    assert s.mx.pc[M.Thread(t) := M.Held][M.Thread(t) := M.UnRead] == s.mx.pc[M.Thread(t) := M.UnRead];
  }

  /** t takes the free mutex, marks true, signals u and unlocks. */
  lemma MarksOne(s0: State, s: State, t: Tid, u: Tid)
    requires Rests(s0, s, t) && s.pc[t] == Idle && s.mx.pc[M.Thread(t)] == M.Out && s.mx.word == 0
    requires u in s.pc && t != u && s.q1 != [] && s.q1[0] == u
    ensures Reach(s0, s.(status := true, q1 := s.q1[1..], pc := s.pc[u := Woken(true)]))
  {
    hide Reach;
    Enters(s0, s, t, CallLock(t));
    Gets(s0, s, t, Locking);
    Marks1(s0, s, t, u);
    Marks2(s0, s, t, u, s.q1[1..]);
    var s1 := s.(status := true, q1 := s.q1[1..], pc := s.pc[u := Woken(true)]);
    Frees(s0, s1, t);
    Yields(s0, s1, t, Idle, M.Out, 0);
    assert s1.pc[t := Idle] == s1.pc && s1.mx.pc[M.Thread(t) := M.Out] == s1.mx.pc;
  }

  /** The woken thread gets the mutex and its status, and unlocks without a mark. */
  lemma LeavesPlainly(s0: State, s: State, t: Tid)
    requires Rests(s0, s, t) && s.pc[t] == Woken(true) && s.mx.pc[M.Thread(t)] == M.Out && s.mx.word == 0
    requires s.status && !s.disciplined
    ensures Reach(s0, s.(pc := s.pc[t := Idle]))
  {
    hide Reach;
    Enters(s0, s, t, Relock(t));
    Gets(s0, s, t, Waiting(true));
    PlainUnlock(s0, s, t);
    Frees(s0, s, t);
    Yields(s0, s, t, Idle, M.Out, 0);
    assert s.mx.pc[M.Thread(t) := M.Out] == s.mx.pc;
  }

  lemma PlainUnlock(s0: State, s: State, t: Tid)
    requires Reach(s0, At(s, t, Testing(true), M.Held, 1, On(M.Thread(t)))) && s.status && !s.disciplined
    ensures Reach(s0, At(s, t, Unlocking, M.UnRead, 1, On(M.Thread(t))))
  {
    hide Reach;
    Steps(s0, s, t, Testing(true), M.Held, 1, Go(t), In(true), M.Held, 1);
    Steps(s0, s, t, In(true), M.Held, 1, CallUnlock(t), Unlocking, M.UnRead, 1);
  }

  // ----- the two runs

  /** a and b sleep for true; c marks true, which wakes a. */
  lemma TwoSleepOneWakes(s: State, a: Tid, b: Tid, c: Tid)
    requires Init(s) && a in s.pc && b in s.pc && c in s.pc && a != b && a != c && b != c
    ensures Reach(s, s.(status := true, q1 := [b], pc := s.pc[a := Woken(true)][b := Asleep(true)]))
  {
    hide Reach;
    Here(s);
    FallsAsleep(s, s, a);
    var s1 := s.(pc := s.pc[a := Asleep(true)], q1 := s.q1 + [a]);
    FallsAsleep(s, s1, b);
    var s2 := s1.(pc := s1.pc[b := Asleep(true)], q1 := s1.q1 + [b]);
    MarksOne(s, s2, c, a);
    assert s2.q1[1..] == [b];
    assert s2.pc[a := Woken(true)] == s.pc[a := Woken(true)][b := Asleep(true)];
  }

  /** Then a returns and unlocks plainly: b sleeps, with its status, and all others are idle. */
  lemma StrandingRun(s: State, a: Tid, b: Tid, c: Tid)
    requires Init(s) && !s.disciplined && a in s.pc && b in s.pc && c in s.pc && a != b && a != c && b != c
    ensures Reach(s, s.(status := true, q1 := [b], pc := s.pc[b := Asleep(true)]))
  {
    hide Reach;
    TwoSleepOneWakes(s, a, b, c);
    var s1 := s.(status := true, q1 := [b], pc := s.pc[a := Woken(true)][b := Asleep(true)]);
    LeavesPlainly(s, s1, a);
    assert s1.pc[a := Idle] == s.pc[b := Asleep(true)];
  }

  function Seated3(s: State, a: Tid, c: Tid, d: Tid): State {
    s.(pc := s.pc[c := Holding][d := Locking][a := Waiting(true)],
       mx := s.mx.(word := 5, queue := [M.Thread(d), M.Thread(a)],
                   pc := s.mx.pc[M.Thread(c) := M.Held][M.Thread(d) := M.Asleep][M.Thread(a) := M.Asleep]))
  }

  /** c takes the mutex; d and then a sleep in its queue. */
  lemma OneHoldsTwoSeats(s0: State, s: State, a: Tid, c: Tid, d: Tid)
    requires a != c && a != d && c != d && s.mx.word == 0 && s.mx.queue == []
    requires Rests(s0, s, a) && Rests(s0, s, c) && Rests(s0, s, d)
    requires s.mx.pc[M.Thread(a)] == M.Out && s.mx.pc[M.Thread(c)] == M.Out && s.mx.pc[M.Thread(d)] == M.Out
    requires s.pc[a] == Woken(true) && s.pc[c] == Idle && s.pc[d] == Idle
    ensures Reach(s0, Seated3(s, a, c, d))
  {
    hide Reach;
    OneHoldsOneSeat(s0, s, c, d);
    Arrives(s0, Seat(At(s, c, Holding, M.Held, 1, map[]), d, Locking), a, Relock(a), Waiting(true));
    assert s.mx.queue + [M.Thread(d)] + [M.Thread(a)] == [M.Thread(d), M.Thread(a)];
  }

  lemma OneHoldsOneSeat(s0: State, s: State, c: Tid, d: Tid)
    requires c != d && s.mx.word == 0 && Rests(s0, s, c) && Rests(s0, s, d) && s.pc[c] == Idle && s.pc[d] == Idle
    requires s.mx.pc[M.Thread(c)] == M.Out && s.mx.pc[M.Thread(d)] == M.Out
    ensures Reach(s0, Seat(At(s, c, Holding, M.Held, 1, map[]), d, Locking))
  {
    hide Reach;
    Takes(s0, s, c);
    Arrives(s0, At(s, c, Holding, M.Held, 1, map[]), d, CallLock(d), Locking);
  }

  /** t gets the free mutex, and yields. */
  lemma Takes(s0: State, s: State, t: Tid)
    requires Rests(s0, s, t) && s.mx.pc[M.Thread(t)] == M.Out && s.mx.word == 0 && s.pc[t] == Idle
    ensures Reach(s0, At(s, t, Holding, M.Held, 1, map[]))
  {
    hide Reach;
    Enters(s0, s, t, CallLock(t));
    Gets(s0, s, t, Locking);
    Yields(s0, s, t, Holding, M.Held, 1);
  }

  /** t finds the mutex taken and sleeps in its queue. */
  lemma Arrives(s0: State, s: State, t: Tid, a: Act, pc: Pc)
    requires Rests(s0, s, t) && s.mx.pc[M.Thread(t)] == M.Out && s.mx.word > 0 && s.mx.word % 2 == 1
    requires (s.pc[t] == Idle && a == CallLock(t) && pc == Locking) || (s.pc[t] == Woken(true) && a == Relock(t) && pc == Waiting(true))
    ensures Reach(s0, Seat(s, t, pc))
  {
    hide Reach;
    Enters(s0, s, t, a);
    Seats(s0, s, t, pc);
  }

  /** The state after c has unlocked: d is awake, a still in the mutex's queue and b asleep. */
  function LeftBehind(s: State, a: Tid, b: Tid, d: Tid): State {
    s.(status := true, q1 := [b], pc := s.pc[b := Asleep(true)][d := Locking][a := Waiting(true)],
       mx := s.mx.(word := 2, queue := [M.Thread(a)], pc := s.mx.pc[M.Thread(d) := M.LockRead(true)][M.Thread(a) := M.Asleep]))
  }

  lemma LeavingBehindRun(s: State, a: Tid, b: Tid, c: Tid, d: Tid)
    requires Init(s) && a in s.pc && b in s.pc && c in s.pc && d in s.pc
    requires a != b && a != c && a != d && b != c && b != d && c != d
    ensures Reach(s, LeftBehind(s, a, b, d))
  {
    hide Reach;
    TwoSleepOneWakes(s, a, b, c);
    var s1 := s.(status := true, q1 := [b], pc := s.pc[a := Woken(true)][b := Asleep(true)]);
    OneHoldsTwoSeats(s, s1, a, c, d);
    UnlocksToD(s, s1, a, c, d);
    assert s1.pc[d := Locking][a := Waiting(true)][c := Idle] == LeftBehind(s, a, b, d).pc;
  }

  lemma BeginsUnlock(s0: State, s: State, t: Tid)
    requires Rests(s0, s, t) && s.pc[t] == Holding && s.mx.pc[M.Thread(t)] == M.Held
    ensures Reach(s0, At(s, t, Unlocking, M.UnRead, s.mx.word, On(M.Thread(t))))
  {
    hide Reach;
    Dispatched(s0, s, t);
    Steps(s0, s, t, Holding, M.Held, s.mx.word, CallUnlock(t), Unlocking, M.UnRead, s.mx.word);
  }

  lemma UnlocksToD(s0: State, s: State, a: Tid, c: Tid, d: Tid)
    requires Reach(s0, Seated3(s, a, c, d)) && a != c && a != d && c != d && s.workers > 0 && s.mx.on == map[]
    requires a in s.pc && c in s.pc && d in s.pc && M.Callback(0) in s.mx.pc && s.mx.pc[M.Callback(0)] == M.Out
    requires M.Thread(c) in s.mx.pc && s.mx.pc[M.Thread(c)] == M.Out
    ensures Reach(s0, s.(pc := s.pc[d := Locking][a := Waiting(true)][c := Idle],
      mx := s.mx.(word := 2, queue := [M.Thread(a)], pc := s.mx.pc[M.Thread(d) := M.LockRead(true)][M.Thread(a) := M.Asleep])))
  {
    hide Reach;
    var s1 := Seated3(s, a, c, d);
    BeginsUnlock(s0, s1, c);
    Hands(s0, s1, c, d);
    var s2 := Popped(s1, d, M.LockRead(true));
    Yields(s0, s2, c, Idle, M.Out, 2);
    assert s2.mx.pc[M.Thread(c) := M.Out] == s.mx.pc[M.Thread(d) := M.LockRead(true)][M.Thread(a) := M.Asleep];
    assert s2.pc[c := Idle] == s.pc[d := Locking][a := Waiting(true)][c := Idle];
  }
}
