/** What every run of the full/empty lock keeps: a waiter returns to its status, no signal is
    missed, and who is there to serve the sleepers of the present status when the mutex is free. */
module FelockTheorems {
  import opened Base
  import opened Felock
  import opened FelockAnswers
  import R = FelockRuns
  import C = Counting
  import M = Mutex

  /** Every run uses the mutex as a run of module Mutex does, whose theorems therefore hold of it. */
  lemma {:induction false} EveryRunIsAMutexRun(s: State, acts: seq<Act>)
    requires Runs(s, acts)
    ensures exists steps :: M.Runs(s.mx, steps) && M.Exec(s.mx, steps) == Exec(s, acts).mx
    decreases |acts|
  {
    hide Ready, MutexAct, Own, M.Enabled, M.Next;
    if acts == [] {
      assert M.Runs(s.mx, []) && M.Exec(s.mx, []) == s.mx;
    } else {
      var s' := Next(s, acts[0]);
      EveryRunIsAMutexRun(s', acts[1..]);
      var rest :| M.Runs(s'.mx, rest) && M.Exec(s'.mx, rest) == Exec(s, acts).mx;
      match MutexAct(s, acts[0])
      case None => assert s'.mx == s.mx;
      case Some(m) =>
        var steps := [m] + rest;
        assert steps[1..] == rest;
        assert M.Runs(s.mx, steps) && M.Exec(s.mx, steps) == Exec(s, acts).mx;
    }
  }

  /** wait_and_lock returns to the one owner of the mutex, with the status that its caller asked
      for and that the last mark has set. */
  lemma ReturnsWithStatus(s: State, acts: seq<Act>, t: Tid)
    requires Init(s) && Runs(s, acts) && t in Exec(s, acts).pc && Exec(s, acts).pc[t].In?
    ensures LastCall(acts, t, None) == Some(ToWait(LastMark(acts, false)))
    ensures var e := Exec(s, acts);
      && e.pc[t].st == e.status == LastMark(acts, false) && e.mx.word % 2 == 1
      && M.Thread(t) in e.mx.pc && e.mx.pc[M.Thread(t)] == M.Held
      && forall a :: a in e.mx.pc && M.Owns(e.mx.pc[a]) ==> a == M.Thread(t)
  {
    hide M.Inv, Runs, Exec, Init;
    var e := Exec(s, acts);
    Reachable(s, acts);
    Starts(s);
    BackThen(s, acts, t);
    EveryPointServesTheCall(s, acts, t);
    assert KnowsStatus(e, e.pc[t]) && Fits(e.pc[t], e.mx.pc[M.Thread(t)]);
    OneOwner(e.mx, M.Thread(t), M.Thread(t));
    forall a | a in e.mx.pc && M.Owns(e.mx.pc[a]) ensures a == M.Thread(t) {
      OneOwner(e.mx, a, M.Thread(t));
    }
  }

  /** A waiter is in the queue of the status it asked for before any other thread can own the mutex,
      so the signal of whoever sets that status finds it there. */
  lemma NoMissedSignal(s: State, acts: seq<Act>, t: Tid, u: Tid)
    requires Init(s) && Runs(s, acts)
    requires t in Exec(s, acts).pc && (Exec(s, acts).pc[t].Leaving? || Exec(s, acts).pc[t].Asleep?)
    requires M.Thread(u) in Exec(s, acts).mx.pc && M.Owns(Exec(s, acts).mx.pc[M.Thread(u)])
    ensures var c := LastCall(acts, t, None);
      c.Some? && c.value.ToWait? && t in Q(Exec(s, acts), c.value.st)
  {
    hide M.Inv, Runs, Exec, Init;
    var e := Exec(s, acts);
    Reachable(s, acts);
    Starts(s);
    BackThen(s, acts, t);
    EveryPointServesTheCall(s, acts, t);
    if e.pc[t].Leaving? {
      OneOwner(e.mx, M.Callback(e.pc[t].w), M.Thread(u));
    }
  }

  /** No step outside the mutex has to wait: the holder may unlock, and the worker it leaves has its
      callback free to take the mutex over. */
  lemma NeverRefused(s: State, acts: seq<Act>, a: Act)
    requires Init(s) && Runs(s, acts) && (a.Go? || a.Enqueue?) && Ready(Exec(s, acts), a)
    ensures Enabled(Exec(s, acts), a)
  {
    hide Runs, Exec, Inv, Enabled;
    Reachable(s, acts);
    if a.Go? { GoAllowed(Exec(s, acts), a.t); } else { EnqueueAllowed(Exec(s, acts), a.t); }
  }

  lemma GoAllowed(s: State, t: Tid)
    requires Inv(s) && Ready(s, Go(t))
    ensures Enabled(s, Go(t))
  {
    hide M.Inv;
    assert Fits(s.pc[t], s.mx.pc[M.Thread(t)]);
    if s.pc[t].Testing? { CallbackIsFree(s, t); }
  }

  lemma CallbackIsFree(s: State, t: Tid)
    requires CallbacksOk(s) && M.Inv(s.mx) && Running(s, t)
    ensures var c := M.Callback(s.mx.on[M.Thread(t)]); c in s.mx.pc && c !in s.mx.on && s.mx.pc[c] == M.Out
  {
    hide M.WordOk, M.QueueOk, M.HandsOk, M.WakeOk, M.LocalsOk;
  }

  lemma EnqueueAllowed(s: State, t: Tid)
    requires Inv(s) && Ready(s, Enqueue(t))
    ensures Enabled(s, Enqueue(t))
  {
    hide M.Inv;
  }

  /** Waiting for the present status and on the way to the test of it. */
  predicate Seeks(s: State, pc: Pc) { pc == Waiting(s.status) || pc == Woken(s.status) }

  predicate Seated(m: M.Pc) { m.Reserved? || m.Asleep? }

  predicate Free(s: State) { s.mx.word % 2 == 0 }

  /** While the mutex is free its owners are none. */
  lemma FreeIsOwned(m: M.State, a: M.Tid)
    requires M.Inv(m) && m.word % 2 == 0 && a in m.pc
    ensures !M.Owns(m.pc[a])
  {
    if M.Owns(m.pc[a]) { OneOwner(m, a, a); }
  }

  /** A seat in the mutex implies, while it is free, a woken thread that is to retry. */
  lemma SeatMeansRetry(m: M.State, a: M.Tid)
    requires M.Inv(m) && m.word % 2 == 0 && a in m.pc && Seated(m.pc[a])
    ensures exists b :: b in m.pc && M.Contending(m.pc[b])
  {
    if C.Count(m.pc, M.IsUnDeq) > 0 {
      C.CountSome(m.pc, M.IsUnDeq);
      var b :| b in m.pc && M.IsUnDeq(m.pc[b]);
      FreeIsOwned(m, b);
    }
    if m.pc[a].Reserved? {
      C.CountMember(m.pc, a, M.IsReserved);
    } else {
      assert a in m.queue;
    }
  }

  lemma HopeWhenFree(s: State)
    requires Inv(s) && s.disciplined && Free(s) && Q(s, s.status) != []
    ensures exists t :: t in s.pc && Seeks(s, s.pc[t])
  {
    hide M.Inv;
    var t :| t in s.pc && Hopeful(s, s.pc[t]);
    NoneAtWork(s, t);
    hide Inv;
    assert Seeks(s, s.pc[t]);
  }

  /** While the mutex is free nobody is past the lock, and nobody is being signalled. */
  lemma NoneAtWork(s: State, t: Tid)
    requires Inv(s) && Free(s) && t in s.pc
    ensures !s.pc[t].Testing? && !s.pc[t].In? && !s.pc[t].SigDeq? && !s.pc[t].SigPush? && !s.pc[t].Signalled?
  {
    hide M.Inv, CallbacksOk, Listed, StatusOk, HopeOk;
    NotPast(s, t);
    if s.pc[t].Signalled? {
      var x :| x in s.pc && s.pc[x] == SigPush(t);
      NotPast(s, x);
    }
  }

  lemma NotPast(s: State, t: Tid)
    requires M.Inv(s.mx) && SyncOk(s) && Free(s) && t in s.pc
    ensures !s.pc[t].Testing? && !s.pc[t].In? && !s.pc[t].SigDeq? && !s.pc[t].SigPush?
  {
    hide M.Inv;
    assert Fits(s.pc[t], s.mx.pc[M.Thread(t)]);
    FreeIsOwned(s.mx, M.Thread(t));
  }

  /** When every wait_and_lock ends in mark_and_signal: a free mutex with sleepers of the present
      status has a thread contending for that status; if that one has a seat in the mutex, some
      woken thread is to retry the mutex. */
  lemma FreeMeansContended(s: State, acts: seq<Act>)
    requires Init(s) && s.disciplined && Runs(s, acts)
    requires Free(Exec(s, acts)) && Q(Exec(s, acts), Exec(s, acts).status) != []
    ensures var e := Exec(s, acts);
      exists t ::
        && t in e.pc && Seeks(e, e.pc[t]) && M.Thread(t) in e.mx.pc
        && (Seated(e.mx.pc[M.Thread(t)]) ==> exists b :: M.Thread(b) in e.mx.pc && M.Contending(e.mx.pc[M.Thread(b)]))
  {
    hide Inv, Init, Runs, Exec, Seeks;
    var e := Exec(s, acts);
    Reachable(s, acts);
    HopeWhenFree(e);
    var t :| t in e.pc && Seeks(e, e.pc[t]);
    SeatServed(e, t);
  }

  lemma SeatServed(s: State, t: Tid)
    requires Inv(s) && Free(s) && t in s.pc
    ensures M.Thread(t) in s.mx.pc
    ensures Seated(s.mx.pc[M.Thread(t)]) ==> exists b :: M.Thread(b) in s.mx.pc && M.Contending(s.mx.pc[M.Thread(b)])
  {
    hide M.Inv, CallbacksOk, Listed, StatusOk, HopeOk, SignalsOk;
    assert M.Thread(t) in s.mx.pc;
    if Seated(s.mx.pc[M.Thread(t)]) {
      SeatMeansRetry(s.mx, M.Thread(t));
      var b :| b in s.mx.pc && M.Contending(s.mx.pc[b]);
      assert b.Thread?;
      assert M.Thread(b.id) in s.mx.pc;
    }
  }

  // ----- with few threads

  /** Some thread contending for the present status is awake. */
  ghost predicate AwakeOk(s: State) {
    Free(s) && Q(s, s.status) != [] ==>
      exists t :: t in s.pc && Seeks(s, s.pc[t]) && M.Thread(t) in s.mx.pc && !Seated(s.mx.pc[M.Thread(t)])
  }

  /** Sleepers have their status and nobody is about to wake one. */
  ghost predicate Stranded(s: State) {
    Free(s) && Q(s, s.status) != [] && forall t :: t in s.pc ==> !Hopeful(s, s.pc[t])
  }

  lemma SameThreads(s: State, a: Act)
    requires Enabled(s, a) && Listed(s, false) && Listed(s, true)
    ensures Next(s, a).pc.Keys == s.pc.Keys
  {
    hide M.Enabled, M.Next, GoNext, Listed, Settle;
    if a.Go? { GoThreads(s, a.t, s.mx.on[M.Thread(a.t)]); }
  }

  lemma GoThreads(s: State, t: Tid, w: M.Worker)
    requires t in s.pc && Listed(s, false) && Listed(s, true)
    ensures GoNext(s, t, w).pc.Keys == s.pc.Keys
  {
    if s.pc[t].SigDeq? && Q(s, s.pc[t].st) != [] {
      assert Q(s, s.pc[t].st)[0] in Q(s, s.pc[t].st);
    }
  }

  /** But for a mark, the status stays and its sleepers become no more. */
  lemma SleepersKept(s: State, a: Act)
    requires Enabled(s, a) && StatusOk(s) && !a.CallMark?
    ensures Next(s, a).status == s.status && (Q(Next(s, a), s.status) != [] ==> Q(s, s.status) != [])
  {
    hide M.Enabled, M.Next;
    if a.Enqueue? { Knows(s, a.t); }
  }

  predicate Moves(a: Act, t: Tid) { !a.Cb? && !a.CbEnd? && a.t == t }

  /** A step moves its own thread; others only if they are being signalled. */
  lemma OthersStay(s: State, a: Act, t: Tid)
    requires Enabled(s, a) && Listed(s, false) && Listed(s, true) && t in s.pc && !Moves(a, t)
    ensures var pc := s.pc[t]; var s' := Next(s, a);
      && t in s'.pc
      && (!pc.Asleep? && !pc.Signalled? ==> s'.pc[t] == pc)
      && (pc.Signalled? ==> s'.pc[t] == pc || s'.pc[t] == Woken(pc.st))
      && (pc.Asleep? && !(a.Go? && s.pc[a.t].SigDeq?) ==> s'.pc[t] == pc)
  {
    hide M.Enabled, M.Next, GoNext, Listed, Settle;
    if a.Go? { OthersWhenGoing(s, a.t, s.mx.on[M.Thread(a.t)], t); }
  }

  lemma OthersWhenGoing(s: State, u: Tid, w: M.Worker, t: Tid)
    requires u in s.pc && Listed(s, false) && Listed(s, true) && t in s.pc && t != u
    ensures var pc := s.pc[t]; var s' := GoNext(s, u, w);
      && t in s'.pc
      && (!pc.Asleep? && !pc.Signalled? ==> s'.pc[t] == pc)
      && (pc.Signalled? ==> s'.pc[t] == pc || s'.pc[t] == Woken(pc.st))
      && (pc.Asleep? && !s.pc[u].SigDeq? ==> s'.pc[t] == pc)
  {
    if s.pc[u].SigDeq? && Q(s, s.pc[u].st) != [] {
      assert Q(s, s.pc[u].st)[0] in Q(s, s.pc[u].st);
    }
  }

  /** Signalling with sleepers to spare: the signaller, the one signalled, and a third. */
  lemma SignalFew(s: State, t: Tid) returns (u: Tid, y: Tid)
    requires Inv(s) && Enabled(s, Go(t)) && s.pc[t].SigDeq? && Q(Next(s, Go(t)), s.status) != []
    ensures t in s.pc && u in s.pc && y in s.pc && u != t && y != t && u != y
    ensures var s' := Next(s, Go(t));
      && s'.pc == s.pc[u := Signalled(s.status)][t := SigPush(u)] && s'.mx == s.mx && s'.status == s.status
      && s.pc[y] == Asleep(s.status)
  {
    hide M.Inv, M.Enabled, M.Next, SyncOk, CallbacksOk, SignalsOk, HopeOk;
    Knows(s, t);
    var q := Q(s, s.status);
    assert q != [] && |q| > 1;
    u, y := q[0], q[1];
    assert u in q && y in q;
  }

  lemma NotFour(s: State, a: Tid, b: Tid, c: Tid, d: Tid)
    requires |s.pc| <= 3 && a in s.pc && b in s.pc && c in s.pc && d in s.pc && a != b && a != c && b != c
    ensures d in {a, b, c}
  {
    if d !in {a, b, c} { C.Smaller({a, b, c, d}, s.pc.Keys); }
  }

  // ----- two threads

  /** Two threads: the only sleeper is being signalled. */
  ghost predicate DuoOk(s: State) {
    Q(s, s.status) != [] ==> exists t :: t in s.pc && s.pc[t].SigDeq?
  }

  lemma DuoKeeps(s: State, a: Act)
    requires Inv(s) && DuoOk(s) && |s.pc| < 3 && Enabled(s, a)
    ensures DuoOk(Next(s, a))
  {
    hide M.Inv, SyncOk, CallbacksOk, SignalsOk, HopeOk, Listed, Next, M.Enabled;
    var s' := Next(s, a);
    if Q(s', s'.status) != [] {
      if a.CallMark? {
        MarkSignals(s, a);
      } else {
        SleepersKept(s, a);
        var t :| t in s.pc && s.pc[t].SigDeq?;
        if a == Go(t) {
          var u, y := SignalFew(s, t);
          C.Smaller({t, u, y}, s.pc.Keys);
        } else {
          SigDeqStays(s, a, t);
        }
      }
    }
  }

  lemma MarkSignals(s: State, a: Act)
    requires Enabled(s, a) && a.CallMark?
    ensures a.t in Next(s, a).pc && Next(s, a).pc[a.t].SigDeq?
  {
  }

  lemma SigDeqStays(s: State, a: Act, t: Tid)
    requires Inv(s) && Enabled(s, a) && t in s.pc && s.pc[t].SigDeq? && a != Go(t)
    ensures t in Next(s, a).pc && Next(s, a).pc[t] == s.pc[t]
  {
    hide M.Inv, SyncOk, CallbacksOk, SignalsOk, HopeOk, Listed, M.Enabled, M.Next;
    if !Moves(a, t) { OthersStay(s, a, t); }
  }

  lemma DuoAwake(s: State)
    requires Inv(s) && DuoOk(s)
    ensures AwakeOk(s) && !Stranded(s)
  {
    hide M.Inv;
    if Free(s) && Q(s, s.status) != [] {
      var t :| t in s.pc && s.pc[t].SigDeq?;
      assert Fits(s.pc[t], s.mx.pc[M.Thread(t)]);
      FreeIsOwned(s.mx, M.Thread(t));
    }
  }

  lemma {:induction false} DuoRuns(s: State, acts: seq<Act>)
    requires Inv(s) && DuoOk(s) && |s.pc| < 3 && Runs(s, acts)
    ensures AwakeOk(Exec(s, acts)) && !Stranded(Exec(s, acts))
    decreases |acts|
  {
    hide Inv, DuoOk, AwakeOk, Stranded, Enabled, Next;
    if acts == [] {
      DuoAwake(s);
    } else {
      Parts(s);
      NextKeeps(s, acts[0]);
      DuoKeeps(s, acts[0]);
      SameThreads(s, acts[0]);
      DuoRuns(Next(s, acts[0]), acts[1..]);
    }
  }

  // ----- three threads that keep the discipline

  /** Has the mutex and the wanted status, or is about to signal. */
  predicate Obliged(s: State, pc: Pc) { pc == Testing(s.status) || pc.In? || pc.SigDeq? }

  /** Neither sleeping in the mutex nor woken from it. */
  predicate Clear(m: M.Pc) {
    !m.Reserved? && !m.Asleep? && !m.InHand? && (m.LockRead? || m.LockCas? ==> !m.woken)
  }

  predicate Wants(s: State, pc: Pc) { Seeks(s, pc) || pc == Signalled(s.status) }

  ghost predicate CallbackOwns(s: State) {
    exists w :: M.Callback(w) in s.mx.pc && M.Owns(s.mx.pc[M.Callback(w)])
  }

  predicate Waits(s: State, pc: Pc) { (pc.Leaving? || pc.Asleep?) && pc.st != s.status }

  /** Thread k was signalled; m, who signalled it, can only meet k in the mutex; the others sleep. */
  ghost predicate Poised(s: State, k: Tid, m: Tid) {
    && k in s.pc && m in s.pc && k != m && Wants(s, s.pc[k])
    && (forall u :: u in s.pc && u != k && u != m ==> s.pc[u] == Asleep(s.status))
    && M.Thread(m) in s.mx.pc && Clear(s.mx.pc[M.Thread(m)])
    && (CallbackOwns(s) ==> Waits(s, s.pc[m]))
  }

  ghost predicate SomeObliged(s: State) { exists t :: t in s.pc && Obliged(s, s.pc[t]) }

  ghost predicate TrioOk(s: State) {
    Q(s, s.status) != [] ==> SomeObliged(s) || exists k, m :: Poised(s, k, m)
  }

  lemma ObligedGoesOn(s: State, a: Act, t: Tid)
    requires Inv(s) && s.disciplined && Enabled(s, a) && t in s.pc && Obliged(s, s.pc[t]) && !a.CallMark?
    requires !(a == Go(t) && s.pc[t].SigDeq?)
    ensures SomeObliged(Next(s, a))
  {
    hide M.Inv, SyncOk, CallbacksOk, SignalsOk, HopeOk, Listed, M.Enabled, M.Next;
    SleepersKept(s, a);
    if Moves(a, t) {
      assert Obliged(Next(s, a), Next(s, a).pc[t]);
    } else {
      OthersStay(s, a, t);
      assert Obliged(Next(s, a), Next(s, a).pc[t]);
    }
  }

  lemma SignalPoises(s: State, t: Tid)
    requires Inv(s) && |s.pc| <= 3 && Enabled(s, Go(t)) && s.pc[t].SigDeq? && Q(Next(s, Go(t)), s.status) != []
    ensures exists k :: Poised(Next(s, Go(t)), k, t)
  {
    hide Inv, Enabled, Next, CallbackOwns, Clear;
    var u, y := SignalFew(s, t);
    var s' := Next(s, Go(t));
    forall v | v in s'.pc && v != u && v != t ensures s'.pc[v] == Asleep(s.status) { NotFour(s, t, u, y, v); }
    SignallerOwns(s, s', t);
    assert Poised(s', u, t);
  }

  lemma SignallerOwns(s: State, s': State, t: Tid)
    requires Inv(s) && t in s.pc && s.pc[t].SigDeq? && s'.mx == s.mx
    ensures M.Thread(t) in s'.mx.pc && Clear(s'.mx.pc[M.Thread(t)]) && !CallbackOwns(s')
  {
    hide M.Inv, CallbacksOk, Listed, StatusOk, HopeOk, SignalsOk;
    assert Fits(s.pc[t], s.mx.pc[M.Thread(t)]);
    if CallbackOwns(s') {
      var w :| M.Callback(w) in s.mx.pc && M.Owns(s.mx.pc[M.Callback(w)]);
      OneOwner(s.mx, M.Callback(w), M.Thread(t));
    }
  }

  /** The one contending goes on to contend, or gets the mutex. */
  lemma WantsOn(s: State, a: Act, k: Tid)
    requires Inv(s) && Enabled(s, a) && k in s.pc && Wants(s, s.pc[k]) && !a.CallMark?
    ensures var s' := Next(s, a);
      k in s'.pc && s'.status == s.status && (Wants(s', s'.pc[k]) || s'.pc[k] == Testing(s'.status))
  {
    hide M.Inv, SyncOk, CallbacksOk, SignalsOk, HopeOk, Listed, M.Enabled, M.Next;
    SleepersKept(s, a);
    if !Moves(a, k) { OthersStay(s, a, k); }
  }

  lemma RestSleeps(s: State, a: Act, u: Tid)
    requires Inv(s) && Enabled(s, a) && !SomeObliged(s) && u in s.pc && s.pc[u] == Asleep(s.status)
    ensures u in Next(s, a).pc && Next(s, a).pc[u] == Asleep(s.status) && !Moves(a, u)
  {
    hide M.Inv, SyncOk, CallbacksOk, SignalsOk, HopeOk, Listed, M.Enabled, M.Next, Next;
    assert a.Go? ==> !Obliged(s, s.pc[a.t]);
    OthersStay(s, a, u);
  }

  lemma NotOwner(s: State, k: Tid, m: Tid, b: M.Tid)
    requires Inv(s) && Poised(s, k, m) && !M.Owns(s.mx.pc[M.Thread(m)]) && !CallbackOwns(s) && b in s.mx.pc
    ensures !M.Owns(s.mx.pc[b])
  {
    hide M.Inv;
    if b.Thread? { assert Fits(s.pc[b.id], s.mx.pc[b]); }
  }

  /** Only k could own the mutex while m contends with it, and it does not. */
  lemma PoisedFree(s: State, k: Tid, m: Tid)
    requires Inv(s) && Poised(s, k, m) && !M.Owns(s.mx.pc[M.Thread(m)]) && !CallbackOwns(s)
    ensures Free(s)
  {
    hide M.Inv;
    if !Free(s) {
      var b := Owner(s.mx);
      NotOwner(s, k, m, b);
    }
  }

  lemma Owner(m: M.State) returns (b: M.Tid)
    requires M.Inv(m) && m.word % 2 == 1
    ensures b in m.pc && M.Owns(m.pc[b])
  {
    C.CountSome(m.pc, M.Owns);
    b :| b in m.pc && M.Owns(m.pc[b]);
  }

  lemma ClearStep(m: M.State, a: M.Tid)
    requires M.Inv(m) && M.Enabled(m, M.Step(a)) && Clear(m.pc[a]) && (m.pc[a].LockCas? ==> m.word % 2 == 0)
    ensures a in M.StepNext(m, a).pc && Clear(M.StepNext(m, a).pc[a])
  {
    hide M.WakeOk, M.PlacesOk, M.QueueOk, M.WordOk, M.HandsOk, M.LocalsOk;
    match m.pc[a]
    case UnRead =>
    case UnDeq => NotOwnWakee(m, a);
    case UnPush(_) =>
    case LockRead(_) =>
    case LockCas(_, _) =>
    case TryRead =>
    case TryCas(_) =>
    case UnCas(_) =>
    case UnClear(_) =>
  }

  /** The step does nothing to the mutex, or as another than b. */
  predicate Apart(s: State, a: Act, b: M.Tid)
    requires Enabled(s, a)
  {
    match MutexAct(s, a)
    case None => true
    case Some(act) => act.t != b && !act.HandOver?
  }

  /** Another's step leaves a mutex point alone that neither sleeps there nor was handed over. */
  lemma AwayFrom(s: State, a: Act, b: M.Tid)
    requires Inv(s) && Enabled(s, a) && b in s.mx.pc && !Sleeps(s.mx.pc[b]) && Apart(s, a, b)
    ensures b in Next(s, a).mx.pc && Next(s, a).mx.pc[b] == s.mx.pc[b]
  {
    hide M.Inv, M.Next, M.Enabled;
    match MutexAct(s, a)
    case None =>
    case Some(act) => Touch(s.mx, act);
  }

  lemma StaysClear(s: State, a: Act, k: Tid, m: Tid)
    requires Inv(s) && Enabled(s, a) && Poised(s, k, m)
    ensures M.Thread(m) in Next(s, a).mx.pc && Clear(Next(s, a).mx.pc[M.Thread(m)])
  {
    hide M.Inv, Inv, Next;
    if Apart(s, a, M.Thread(m)) {
      AwayFrom(s, a, M.Thread(m));
    } else if a == Lock(m) {
      LockStaysClear(s, k, m);
    } else {
      OtherStaysClear(s, a, m);
    }
  }

  lemma LockStaysClear(s: State, k: Tid, m: Tid)
    requires Inv(s) && Enabled(s, Lock(m)) && Poised(s, k, m)
    ensures M.Thread(m) in Next(s, Lock(m)).mx.pc && Clear(Next(s, Lock(m)).mx.pc[M.Thread(m)])
  {
    hide M.Inv, M.StepNext;
    if s.mx.pc[M.Thread(m)].LockCas? {
      assert Fits(s.pc[m], s.mx.pc[M.Thread(m)]);
      PoisedFree(s, k, m);
    }
    ClearStep(s.mx, M.Thread(m));
  }

  lemma OtherStaysClear(s: State, a: Act, m: Tid)
    requires Enabled(s, a) && M.Thread(m) in s.mx.pc && Clear(s.mx.pc[M.Thread(m)]) && !a.Lock? && !a.Cb?
    requires !Apart(s, a, M.Thread(m))
    ensures M.Thread(m) in Next(s, a).mx.pc && Clear(Next(s, a).mx.pc[M.Thread(m)])
  {
    hide M.StepNext;
  }

  /** A callback comes to own the mutex only when a waiter hands it over. */
  lemma CallbackOwner(s: State, a: Act)
    requires Inv(s) && Enabled(s, a) && CallbackOwns(Next(s, a)) && !CallbackOwns(s)
    ensures a.Go? && s.pc[a.t].Testing? && s.pc[a.t].st != s.status
  {
    hide M.Inv, Next, Inv, Enabled;
    var w :| M.Callback(w) in Next(s, a).mx.pc && M.Owns(Next(s, a).mx.pc[M.Callback(w)]);
    if !HandsOver(s, a) {
      NewOwner(s, a, M.Callback(w));
    }
  }

  predicate HandsOver(s: State, a: Act)
    requires Enabled(s, a)
  {
    a.Go? && s.pc[a.t].Testing? && s.pc[a.t].st != s.status
  }

  lemma NewOwner(s: State, a: Act, b: M.Tid)
    requires Inv(s) && Enabled(s, a) && !HandsOver(s, a) && b.Callback?
    requires b in Next(s, a).mx.pc && M.Owns(Next(s, a).mx.pc[b])
    ensures b in s.mx.pc && M.Owns(s.mx.pc[b])
  {
    hide Inv, Next, Enabled, HandsOver, Apart, M.Owns;
    SameAgents(s, a, b);
    if Apart(s, a, b) { OwnerApart(s, a, b); } else { OwnerAtWork(s, a, b); }
  }

  lemma OwnerApart(s: State, a: Act, b: M.Tid)
    requires Inv(s) && Enabled(s, a) && b.Callback? && b in s.mx.pc && Apart(s, a, b)
    requires b in Next(s, a).mx.pc && M.Owns(Next(s, a).mx.pc[b])
    ensures M.Owns(s.mx.pc[b])
  {
    hide M.Inv, CallbacksOk, Listed, StatusOk, HopeOk, SignalsOk, Next, Apart, Enabled;
    assert !Sleeps(s.mx.pc[b]);
    AwayFrom(s, a, b);
  }

  lemma OwnerAtWork(s: State, a: Act, b: M.Tid)
    requires Inv(s) && Enabled(s, a) && b.Callback? && b in s.mx.pc && !Apart(s, a, b) && !HandsOver(s, a)
    requires b in Next(s, a).mx.pc && M.Owns(Next(s, a).mx.pc[b])
    ensures M.Owns(s.mx.pc[b])
  {
    hide M.Inv, M.StepNext, CallbacksOk, Listed, StatusOk, HopeOk, SignalsOk;
    if a.Cb? { OwnsNoMore(s.mx, b); }
  }

  lemma SameAgents(s: State, a: Act, b: M.Tid)
    requires Inv(s) && Enabled(s, a) && b in Next(s, a).mx.pc
    ensures b in s.mx.pc
  {
    hide M.Inv, M.StepNext;
    match MutexAct(s, a)
    case None =>
    case Some(act) => if !act.HandOver? { Touch(s.mx, act); }
  }

  lemma OwnsNoMore(m: M.State, a: M.Tid)
    requires M.Inv(m) && M.Enabled(m, M.Step(a)) && M.InUnlock(m.pc[a])
    ensures a in M.StepNext(m, a).pc && (M.Owns(M.StepNext(m, a).pc[a]) ==> M.Owns(m.pc[a]))
  {
    hide M.WakeOk, M.PlacesOk, M.QueueOk;
    match m.pc[a]
    case UnRead =>
    case UnDeq => NotOwnWakee(m, a);
    case UnPush(_) =>
    case UnCas(_) =>
    case UnClear(_) =>
  }

  lemma WaitsOn(s: State, a: Act, k: Tid, m: Tid)
    requires Inv(s) && Enabled(s, a) && Poised(s, k, m) && !SomeObliged(s) && !a.CallMark?
    requires CallbackOwns(Next(s, a))
    ensures m in Next(s, a).pc && Waits(Next(s, a), Next(s, a).pc[m])
  {
    hide M.Inv, SyncOk, CallbacksOk, SignalsOk, HopeOk, Listed;
    SleepersKept(s, a);
    if !CallbackOwns(s) {
      CallbackOwner(s, a);
      assert a.t == m;
    } else if !Moves(a, m) {
      assert a.Go? ==> !Obliged(s, s.pc[a.t]);
      OthersStay(s, a, m);
    }
  }

  lemma PoisedGoesOn(s: State, a: Act, k: Tid, m: Tid)
    requires Inv(s) && Enabled(s, a) && Poised(s, k, m) && !SomeObliged(s) && !a.CallMark?
    ensures SomeObliged(Next(s, a)) || Poised(Next(s, a), k, m)
  {
    hide M.Inv, Inv, Next, Enabled;
    var s' := Next(s, a);
    Parts(s);
    WantsOn(s, a, k);
    if s'.pc[k] == Testing(s'.status) {
      assert Obliged(s', s'.pc[k]);
    } else {
      SameThreads(s, a);
      forall u | u in s'.pc && u != k && u != m ensures s'.pc[u] == Asleep(s.status) { RestSleeps(s, a, u); }
      StaysClear(s, a, k, m);
      if CallbackOwns(s') { WaitsOn(s, a, k, m); }
      assert m in s.pc.Keys;
    }
  }

  lemma TrioKeeps(s: State, a: Act)
    requires Inv(s) && s.disciplined && |s.pc| <= 3 && TrioOk(s) && Enabled(s, a)
    ensures TrioOk(Next(s, a))
  {
    hide M.Inv, Inv, Next, Enabled, Poised;
    var s' := Next(s, a);
    Parts(s);
    if Q(s', s'.status) != [] {
      if a.CallMark? {
        MarkSignals(s, a);
        assert Obliged(s', s'.pc[a.t]);
      } else {
        SleepersKept(s, a);
        if SomeObliged(s) {
          var t :| t in s.pc && Obliged(s, s.pc[t]);
          if a == Go(t) && s.pc[t].SigDeq? { SignalPoises(s, t); } else { ObligedGoesOn(s, a, t); }
        } else {
          var k, m :| Poised(s, k, m);
          PoisedGoesOn(s, a, k, m);
        }
      }
    }
  }

  lemma TrioAwake(s: State)
    requires Inv(s) && TrioOk(s)
    ensures AwakeOk(s)
  {
    hide M.Inv, Poised;
    if Free(s) && Q(s, s.status) != [] {
      if SomeObliged(s) {
        var t :| t in s.pc && Obliged(s, s.pc[t]);
        assert Fits(s.pc[t], s.mx.pc[M.Thread(t)]);
        FreeIsOwned(s.mx, M.Thread(t));
      } else {
        var k, m :| Poised(s, k, m);
        PoisedAwake(s, k, m);
      }
    }
  }

  lemma PoisedAwake(s: State, k: Tid, m: Tid)
    requires Inv(s) && Poised(s, k, m) && Free(s)
    ensures Seeks(s, s.pc[k]) && M.Thread(k) in s.mx.pc && !Seated(s.mx.pc[M.Thread(k)])
  {
    hide M.Inv;
    if s.pc[k].Signalled? {
      var x :| x in s.pc && s.pc[x] == SigPush(k);
      assert Fits(s.pc[x], s.mx.pc[M.Thread(x)]);
      FreeIsOwned(s.mx, M.Thread(x));
    }
    if Seated(s.mx.pc[M.Thread(k)]) {
      SeatMeansRetry(s.mx, M.Thread(k));
      var b :| b in s.mx.pc && M.Contending(s.mx.pc[b]);
      NobodyRetries(s, k, m, b);
    }
  }

  lemma NobodyRetries(s: State, k: Tid, m: Tid, b: M.Tid)
    requires Inv(s) && Poised(s, k, m) && Seated(s.mx.pc[M.Thread(k)]) && b in s.mx.pc
    ensures !M.Contending(s.mx.pc[b])
  {
    hide M.Inv;
    if b.Thread? { assert Fits(s.pc[b.id], s.mx.pc[b]); }
  }

  lemma {:induction false} TrioRuns(s: State, acts: seq<Act>)
    requires Inv(s) && s.disciplined && |s.pc| <= 3 && TrioOk(s) && Runs(s, acts)
    ensures AwakeOk(Exec(s, acts))
    decreases |acts|
  {
    hide Inv, TrioOk, AwakeOk, Enabled, Next;
    if acts == [] {
      TrioAwake(s);
    } else {
      var s' := Next(s, acts[0]);
      Parts(s);
      NextKeeps(s, acts[0]);
      TrioKeeps(s, acts[0]);
      SameThreads(s, acts[0]);
      RunKeeps(s, [acts[0]]);
      TrioRuns(s', acts[1..]);
    }
  }

  // ----- the exact conditions

  lemma Pick(ts: set<Tid>) returns (t: Tid)
    requires |ts| > 0
    ensures t in ts && |ts - {t}| == |ts| - 1
  {
    t :| t in ts;
  }

  lemma RunTo(s: State, e: State)
    requires R.Reach(s, e)
    ensures exists acts :: Runs(s, acts) && Exec(s, acts) == e
  {
  }

  /** Sleepers are never stranded exactly when every wait_and_lock is to end in mark_and_signal, or
      there are fewer than three threads. */
  lemma StrandsIff(s: State)
    requires Init(s)
    ensures (forall acts :: Runs(s, acts) ==> !Stranded(Exec(s, acts))) <==> s.disciplined || |s.pc| < 3
  {
    hide Runs, Exec, Inv, Init, Stranded, DuoOk;
    if s.disciplined || |s.pc| < 3 {
      forall acts | Runs(s, acts) ensures !Stranded(Exec(s, acts)) {
        Reachable(s, acts);
        if s.disciplined { NotStranded(Exec(s, acts)); } else { FewRuns(s, acts); }
      }
    } else {
      Strands(s);
    }
  }

  lemma NotStranded(s: State)
    requires Inv(s) && s.disciplined
    ensures !Stranded(s)
  {
    hide M.Inv;
    if Free(s) && Q(s, s.status) != [] { HopeWhenFree(s); }
  }

  lemma FewRuns(s: State, acts: seq<Act>)
    requires Init(s) && Runs(s, acts) && |s.pc| < 3
    ensures AwakeOk(Exec(s, acts)) && !Stranded(Exec(s, acts))
  {
    hide Inv;
    Starts(s);
    DuoRuns(s, acts);
  }

  lemma Strands(s: State)
    requires Init(s) && !s.disciplined && |s.pc| >= 3
    ensures exists acts :: Runs(s, acts) && Stranded(Exec(s, acts))
  {
    hide Runs, Exec, R.Reach;
    var a := Pick(s.pc.Keys);
    var b := Pick(s.pc.Keys - {a});
    var c := Pick(s.pc.Keys - {a} - {b});
    R.StrandingRun(s, a, b, c);
    var e := s.(status := true, q1 := [b], pc := s.pc[b := Asleep(true)]);
    RunTo(s, e);
    assert Stranded(e);
  }

  /** While the mutex is free some thread contending for the present status is awake, whenever that
      status has sleepers: exactly when there are fewer than three threads, or three that end every
      wait_and_lock in mark_and_signal. */
  lemma AwakeIff(s: State)
    requires Init(s)
    ensures (forall acts :: Runs(s, acts) ==> AwakeOk(Exec(s, acts))) <==> |s.pc| < 3 || (s.disciplined && |s.pc| < 4)
  {
    hide Runs, Exec, Inv, Init, Stranded, DuoOk, TrioOk, AwakeOk;
    if |s.pc| < 3 || (s.disciplined && |s.pc| < 4) {
      forall acts | Runs(s, acts) ensures AwakeOk(Exec(s, acts)) {
        if |s.pc| < 3 { FewRuns(s, acts); } else { ThreeRuns(s, acts); }
      }
    } else if s.disciplined {
      LeavesBehind(s);
    } else {
      Strands(s);
      var acts :| Runs(s, acts) && Stranded(Exec(s, acts));
      StrandedAlone(Exec(s, acts));
    }
  }

  lemma ThreeRuns(s: State, acts: seq<Act>)
    requires Init(s) && Runs(s, acts) && s.disciplined && |s.pc| < 4
    ensures AwakeOk(Exec(s, acts))
  {
    hide Inv;
    Starts(s);
    TrioRuns(s, acts);
  }

  lemma StrandedAlone(s: State)
    requires Stranded(s)
    ensures !AwakeOk(s)
  {
  }

  lemma LeavesBehind(s: State)
    requires Init(s) && |s.pc| >= 4
    ensures exists acts :: Runs(s, acts) && !AwakeOk(Exec(s, acts))
  {
    hide Runs, Exec, R.Reach;
    var a := Pick(s.pc.Keys);
    var b := Pick(s.pc.Keys - {a});
    var c := Pick(s.pc.Keys - {a} - {b});
    var d := Pick(s.pc.Keys - {a} - {b} - {c});
    R.LeavingBehindRun(s, a, b, c, d);
    var e := R.LeftBehind(s, a, b, d);
    RunTo(s, e);
    assert e.mx.word == 2 && e.q1 == [b] && Free(e);
    assert forall t :: t in e.pc && Seeks(e, e.pc[t]) ==> t == a;
    assert Seated(e.mx.pc[M.Thread(a)]);
  }
}
