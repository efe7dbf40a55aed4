/** The scheduler's invariant, and how the parts of a step keep what they do not touch. */
module SchedulerInv {
  import opened Base
  import opened Scheduler

  // ----- one place

  predicate NoDup(l: seq<Tid>) {
    forall i, j :: 0 <= i < j < |l| ==> l[i] != l[j]
  }

  ghost predicate Placed(s: State) {
    && (forall p :: NoDup(L(s, p)))
    && (forall p, t :: t in L(s, p) <==> t in s.th && s.th[t].place == p)
    && (forall t :: t in s.th ==> t !in s.gone)
  }

  predicate Personal(p: Place) { p.Hand? || p.Cpu? }

  /** What must be true of a thread that other workers can reach. */
  predicate SharedOk(r: Thread) {
    match r.place
    case RunQ(v) => r.env == v && r.status == Ready && r.saved
    case Sleep(_) => r.status == Ready && r.saved
    case JoinOf(_) => r.status == Blocked && r.saved
    case _ => true
  }

  ghost predicate Shared(s: State) {
    forall t :: t in s.th ==> SharedOk(s.th[t])
  }

  // ----- what each program point knows

  /** Ready, and belonging to worker w; on the processor or with its context saved. */
  predicate Fit(s: State, t: Tid, w: Wid, saved: bool) {
    t in s.th && s.th[t].env == w && s.th[t].status == Ready && s.th[t].saved == saved
  }

  predicate FitOpt(s: State, n: Option<Tid>, w: Wid, saved: bool) {
    n.Some? ==> Fit(s, n.value, w, saved)
  }

  ghost predicate PcOk(s: State, w: Wid, me: Worker) {
    var h := L(s, Hand(w));
    var c := L(s, Cpu(w));
    match me.pc
    case Sched => h == [] && c == [] && me.cur == None
    case SchedGot(n) => h == [n] && c == [] && n in s.th && s.th[n].status == Ready && s.th[n].saved
    case User => h == [] && me.cur.Some? && c == Opt(me.cur) && FitOpt(s, me.cur, w, false)
    case Made(n) => h == [n] && me.cur.Some? && c == Opt(me.cur) && FitOpt(s, me.cur, w, false) && Fit(s, n, w, true)
    case CreateCb(n) => me.cur.Some? && h == Opt(me.cur) && c == [n] && FitOpt(s, me.cur, w, true) && Fit(s, n, w, false)
    case YieldGot(t, n) => me.cur == Some(t) && h == [n] && c == [t] && Fit(s, n, w, true) && Fit(s, t, w, false)
    case YieldCb(t, n) => h == [t] && c == [n] && Fit(s, t, w, true) && Fit(s, n, w, false)
    case BlockGot(t, o, next) =>
      me.cur == next && h == Opt(next) && c == [t] && FitOpt(s, next, w, true) && Fit(s, t, w, false)
    case BlockCb(t, o, next) =>
      me.cur == next && h == [t] && c == Opt(next) && FitOpt(s, next, w, false) && Fit(s, t, w, true)
    case Waking(next) =>
      me.cur == next && c == Opt(next) && FitOpt(s, next, w, false) && forall i :: 0 <= i < |h| ==> Fit(s, h[i], w, true)
    case JoinGot(t, x, next) =>
      me.cur == Some(t) && h == Opt(next) && c == [t] && FitOpt(s, next, w, true)
      && t in s.th && s.th[t].status == Blocked && !s.th[t].saved
    case JoinCb(t, x, next) =>
      me.cur == Some(t) && h == [t] && c == Opt(next) && FitOpt(s, next, w, false)
      && t in s.th && s.th[t].status == Blocked && s.th[t].saved
    case ExitLocked(x) => me.cur == Some(x) && h == [] && c == [x] && Fit(s, x, w, false)
    case ExitGot(x, next) => me.cur == Some(x) && h == Opt(next) && c == [x] && FitOpt(s, next, w, true)
    case ExitCb(x, next) => h == [] && c == Opt(next) && FitOpt(s, next, w, false)
    case PassCb(t, v) => h == [t] && c == [] && Fit(s, t, v, true) && v in s.wk
    case Failed => false
  }

  // ----- descriptor locks and join slots

  function Holds(pc: Pc): Option<Tid> {
    match pc
    case JoinGot(_, x, _) => Some(x)
    case JoinCb(_, x, _) => Some(x)
    case ExitLocked(x) => Some(x)
    case ExitGot(x, _) => Some(x)
    case ExitCb(x, _) => Some(x)
    case _ => None
  }

  ghost predicate LocksOk(s: State) {
    && (forall w, x :: w in s.wk && Holds(s.wk[w].pc) == Some(x) ==> x in s.lock && s.lock[x] == w)
    && (forall x :: x in s.lock ==> s.lock[x] in s.wk && Holds(s.wk[s.lock[x]].pc) == Some(x))
  }

  /** Joining a thread that is not through, and that nobody else joins. */
  ghost predicate JoinPcOk(s: State, pc: Pc) {
    match pc
    case JoinGot(_, x, _) => x in s.th && L(s, JoinOf(x)) == []
    case JoinCb(_, x, _) => x in s.th && L(s, JoinOf(x)) == []
    case ExitGot(x, _) => L(s, JoinOf(x)) == []
    case _ => true
  }

  ghost predicate JoinsOk(s: State) {
    && (forall x :: L(s, JoinOf(x)) != [] ==> x in s.th && |L(s, JoinOf(x))| == 1)
    && (forall w :: w in s.wk ==> JoinPcOk(s, s.wk[w].pc))
  }

  ghost predicate OthersOk(s: State, w: Wid) {
    forall v :: v in s.wk && v != w ==> PcOk(s, v, s.wk[v])
  }

  /** All of the invariant that worker w's own program point says nothing about. */
  ghost predicate Rest(s: State, w: Wid) {
    w in s.wk && Placed(s) && Shared(s) && OthersOk(s, w)
  }

  ghost predicate Inv(s: State) {
    Placed(s) && Shared(s) && LocksOk(s) && JoinsOk(s) && forall w :: w in s.wk ==> PcOk(s, w, s.wk[w])
  }

  // ----- moving a thread

  lemma Removing(l: seq<Tid>, i: nat)
    requires i < |l| && NoDup(l)
    ensures NoDup(RemoveAt(l, i))
    ensures forall u :: u in RemoveAt(l, i) <==> u in l && u != l[i]
  {
    var l' := RemoveAt(l, i);
    forall u | u in l && u != l[i] ensures u in l' {
      var k :| 0 <= k < |l| && l[k] == u;
      assert l'[if k < i then k else k - 1] == u;
    }
  }

  lemma Inserting(l: seq<Tid>, j: nat, t: Tid)
    requires j <= |l| && NoDup(l) && t !in l
    ensures NoDup(InsertAt(l, j, t))
    ensures forall u :: u in InsertAt(l, j, t) <==> u in l || u == t
  {
    var l' := InsertAt(l, j, t);
    assert l'[j] == t;
    forall u | u in l ensures u in l' {
      var k :| 0 <= k < |l| && l[k] == u;
      assert l'[if k < j then k else k + 1] == u;
    }
  }

  lemma MovePlaced(s: State, p: Place, i: nat, q: Place, j: nat, r: Thread)
    requires CanMove(s, p, i, q, j) && Placed(s)
    ensures Placed(Move(s, p, i, q, j, r))
  {
    hide NoDup, RemoveAt, InsertAt;
    var t := L(s, p)[i];
    var s' := Move(s, p, i, q, j, r);
    assert t in L(s, p) && s.th[t].place == p && t !in L(s, q);
    Removing(L(s, p), i);
    Inserting(L(s, q), j, t);
    assert L(s', p) == RemoveAt(L(s, p), i) && L(s', q) == InsertAt(L(s, q), j, t);
    forall e ensures NoDup(L(s', e)) {
      if e != p && e != q { assert L(s', e) == L(s, e); }
    }
    forall e, u ensures u in L(s', e) <==> u in s'.th && s'.th[u].place == e {
      assert u in L(s, e) <==> u in s.th && s.th[u].place == e;
      if e != p && e != q { assert L(s', e) == L(s, e); }
    }
  }

  predicate Mine(p: Place, w: Wid) { p == Hand(w) || p == Cpu(w) || !Personal(p) }

  lemma MoveEffect(s: State, p: Place, i: nat, q: Place, j: nat, r: Thread)
    requires CanMove(s, p, i, q, j)
    ensures var t := L(s, p)[i]; var s' := Move(s, p, i, q, j, r);
      && L(s', p) == RemoveAt(L(s, p), i) && L(s', q) == InsertAt(L(s, q), j, t)
      && (forall e :: e != p && e != q ==> L(s', e) == L(s, e))
      && t in s'.th && s'.th[t] == r.(place := q)
      && (forall u :: u != t ==> (u in s'.th <==> u in s.th) && (u in s.th ==> s'.th[u] == s.th[u]))
      && s'.wk == s.wk && s'.lock == s.lock && s'.gone == s.gone
  {
  }

  /** Another worker's program point only looks at what it holds. */
  lemma PcFrame(s: State, s': State, v: Wid, me: Worker)
    requires L(s', Hand(v)) == L(s, Hand(v)) && L(s', Cpu(v)) == L(s, Cpu(v))
    requires forall t :: t in L(s, Hand(v)) || t in L(s, Cpu(v)) ==> t in s.th && t in s'.th && s'.th[t] == s.th[t]
    requires forall u :: u in s.wk ==> u in s'.wk
    requires PcOk(s, v, me)
    ensures PcOk(s', v, me)
  {
    match me.pc
    case Sched =>
    case SchedGot(n) => assert n in L(s, Hand(v));
    case User => assert me.cur.value in L(s, Cpu(v));
    case Made(n) => assert n in L(s, Hand(v)) && me.cur.value in L(s, Cpu(v));
    case CreateCb(n) => assert n in L(s, Cpu(v)) && me.cur.value in L(s, Hand(v));
    case YieldGot(t, n) => assert n in L(s, Hand(v)) && t in L(s, Cpu(v));
    case YieldCb(t, n) => assert t in L(s, Hand(v)) && n in L(s, Cpu(v));
    case BlockGot(t, o, next) => assert t in L(s, Cpu(v)) && (next.Some? ==> next.value in L(s, Hand(v)));
    case BlockCb(t, o, next) => assert t in L(s, Hand(v)) && (next.Some? ==> next.value in L(s, Cpu(v)));
    case Waking(next) =>
      assert next.Some? ==> next.value in L(s, Cpu(v));
      assert forall i :: 0 <= i < |L(s, Hand(v))| ==> L(s, Hand(v))[i] in L(s, Hand(v));
    case JoinGot(t, x, next) => assert t in L(s, Cpu(v)) && (next.Some? ==> next.value in L(s, Hand(v)));
    case JoinCb(t, x, next) => assert t in L(s, Hand(v)) && (next.Some? ==> next.value in L(s, Cpu(v)));
    case ExitLocked(x) => assert x in L(s, Cpu(v));
    case ExitGot(x, next) => assert x in L(s, Cpu(v)) && (next.Some? ==> next.value in L(s, Hand(v)));
    case ExitCb(x, next) => assert next.Some? ==> next.value in L(s, Cpu(v));
    case PassCb(t, u) => assert t in L(s, Hand(v));
    case Failed =>
  }

  /** A step of worker w: at most thread t changes, and it is not in another's hands. */
  ghost predicate Touches(s: State, s': State, w: Wid, t: Tid) {
    && w in s.wk && (forall v :: v in s'.wk <==> v in s.wk)
    && (forall v :: v in s.wk && v != w ==> s'.wk[v] == s.wk[v])
    && (forall e :: !Mine(e, w) ==> L(s', e) == L(s, e))
    && (t in s.th ==> Mine(s.th[t].place, w))
    && (forall u :: u in s.th && u != t ==> u in s'.th && s'.th[u] == s.th[u])
  }

  lemma OthersFrame(s: State, s': State, w: Wid, t: Tid)
    requires Touches(s, s', w, t) && Placed(s) && OthersOk(s, w)
    ensures OthersOk(s', w)
  {
    hide PcOk;
    forall v | v in s'.wk && v != w ensures PcOk(s', v, s'.wk[v]) {
      assert !Mine(Hand(v), w) && !Mine(Cpu(v), w);
      forall u | u in L(s, Hand(v)) || u in L(s, Cpu(v))
        ensures u in s.th && u in s'.th && s'.th[u] == s.th[u]
      {
      }
      PcFrame(s, s', v, s.wk[v]);
    }
  }

  lemma SharedFrame(s: State, s': State, t: Tid)
    requires Shared(s) && (t in s'.th ==> SharedOk(s'.th[t]))
    requires forall u :: u in s'.th && u != t ==> u in s.th && s'.th[u] == s.th[u]
    ensures Shared(s')
  {
  }

  lemma MoveRest(s: State, w: Wid, p: Place, i: nat, q: Place, j: nat, r: Thread)
    requires CanMove(s, p, i, q, j) && Mine(p, w) && Mine(q, w) && SharedOk(r.(place := q))
    requires Rest(s, w)
    ensures Rest(Move(s, p, i, q, j, r), w)
  {
    hide Move, OthersOk, L, SharedOk, RemoveAt, InsertAt, NoDup, Shared;
    var s' := Move(s, p, i, q, j, r);
    var t := L(s, p)[i];
    MovePlaced(s, p, i, q, j, r);
    MoveEffect(s, p, i, q, j, r);
    assert t in L(s, p) && s.th[t].place == p;
    SharedFrame(s, s', t);
    assert Touches(s, s', w, t);
    OthersFrame(s, s', w, t);
  }

  lemma SetRest(s: State, w: Wid, t: Tid, r: Thread)
    requires t in s.th && (s.th[t].place == Hand(w) || s.th[t].place == Cpu(w))
    requires Rest(s, w)
    ensures Rest(SetT(s, t, r), w)
  {
    var s' := SetT(s, t, r);
    assert forall e :: L(s', e) == L(s, e);
    SharedFrame(s, s', t);
    assert Touches(s, s', w, t);
    OthersFrame(s, s', w, t);
  }

  lemma FreshRest(s: State, w: Wid, n: Tid)
    requires n !in s.th && n !in s.gone
    requires Rest(s, w)
    ensures Rest(Fresh(s, w, n), w)
  {
    hide OthersOk;
    var s' := Fresh(s, w, n);
    assert forall e :: e != Hand(w) ==> L(s', e) == L(s, e);
    assert L(s', Hand(w)) == L(s, Hand(w)) + [n];
    SharedFrame(s, s', n);
    assert Touches(s, s', w, n);
    OthersFrame(s, s', w, n);
  }

  lemma GoneRest(s: State, w: Wid, x: Tid)
    requires L(s, Cpu(w)) == [x]
    requires Rest(s, w)
    ensures Rest(Gone(s, w, x), w)
  {
    hide OthersOk;
    var s' := Gone(s, w, x);
    assert forall e :: e != Cpu(w) ==> L(s', e) == L(s, e);
    assert L(s', Cpu(w)) == [] && x in L(s, Cpu(w));
    SharedFrame(s, s', x);
    assert Touches(s, s', w, x);
    OthersFrame(s, s', w, x);
  }

  /** The worker's own fields and the descriptor locks concern no other worker's lists. */
  lemma LocalRest(s: State, s': State, w: Wid)
    requires s'.th == s.th && s'.at == s.at && s'.gone == s.gone
    requires w in s'.wk && (forall v :: v in s'.wk <==> v in s.wk) && forall v :: v in s.wk && v != w ==> s'.wk[v] == s.wk[v]
    requires Rest(s, w)
    ensures Rest(s', w)
  {
    hide PcOk;
    assert forall e :: L(s', e) == L(s, e);
    forall v | v in s'.wk && v != w ensures PcOk(s', v, s'.wk[v]) {
      PcFrame(s, s', v, s.wk[v]) by {
        assert L(s', Hand(v)) == L(s, Hand(v)) && L(s', Cpu(v)) == L(s, Cpu(v));
      }
    }
  }

  // ----- putting the invariant together again

  ghost predicate Alone(s: State, s': State, w: Wid) {
    w in s.wk && w in s'.wk && (forall v :: v in s'.wk <==> v in s.wk) && forall v :: v in s.wk && v != w ==> s'.wk[v] == s.wk[v]
  }

  /** A step that has nothing to do with join slots or descriptor locks. */
  lemma Plain(s: State, s': State, w: Wid)
    requires LocksOk(s) && JoinsOk(s) && Alone(s, s', w)
    requires Rest(s', w) && PcOk(s', w, s'.wk[w])
    requires s'.lock == s.lock && Holds(s.wk[w].pc) == Holds(s'.wk[w].pc) == None
    requires (forall x :: L(s', JoinOf(x)) == L(s, JoinOf(x))) && forall t :: t in s.th ==> t in s'.th
    ensures Inv(s')
  {
    hide Placed, Shared, PcOk;
    forall v | v in s'.wk ensures JoinPcOk(s', s'.wk[v].pc) {
      if v != w { assert JoinPcOk(s, s.wk[v].pc); }
    }
    Assemble(s', w);
  }

  /** What Plain asks of a step. */
  ghost predicate PlainStep(s: State, s': State, w: Wid) {
    && Alone(s, s', w) && Rest(s', w) && PcOk(s', w, s'.wk[w])
    && s'.lock == s.lock && Holds(s.wk[w].pc) == Holds(s'.wk[w].pc) == None
    && (forall x :: L(s', JoinOf(x)) == L(s, JoinOf(x))) && forall t :: t in s.th ==> t in s'.th
  }

  lemma PlainInv(s: State, s': State, w: Wid)
    requires LocksOk(s) && JoinsOk(s) && PlainStep(s, s', w)
    ensures Inv(s')
  {
    hide LocksOk, JoinsOk, Alone, Rest, PcOk, L;
    Plain(s, s', w);
  }

  lemma Assemble(s: State, w: Wid)
    requires Rest(s, w) && PcOk(s, w, s.wk[w]) && LocksOk(s) && JoinsOk(s)
    ensures Inv(s)
  {
    hide Placed, Shared, PcOk, LocksOk, JoinsOk;
  }

  lemma Apart(s: State, w: Wid)
    requires Inv(s) && w in s.wk
    ensures Rest(s, w) && PcOk(s, w, s.wk[w]) && LocksOk(s) && JoinsOk(s)
  {
    hide Placed, Shared, PcOk, LocksOk, JoinsOk;
  }

  /** One thread moves and the worker goes on to pc. */
  lemma Handed(s: State, w: Wid, p: Place, i: nat, q: Place, j: nat, r: Thread, pc: Pc, cur: Option<Tid>)
    requires CanMove(s, p, i, q, j) && Mine(p, w) && Mine(q, w) && SharedOk(r.(place := q))
    requires w in s.wk && Rest(s, w)
    ensures var t := L(s, p)[i]; var s' := SetW(Move(s, p, i, q, j, r), w, pc, cur);
      && Rest(s', w) && Alone(s, s', w) && s'.wk[w] == Worker(pc, cur) && s'.lock == s.lock
      && L(s', p) == RemoveAt(L(s, p), i) && L(s', q) == InsertAt(L(s, q), j, t)
      && (forall e :: e != p && e != q ==> L(s', e) == L(s, e))
      && t in s'.th && s'.th[t] == r.(place := q)
      && (forall u :: u != t ==> (u in s'.th <==> u in s.th) && (u in s.th ==> s'.th[u] == s.th[u]))
  {
    hide Rest, Mine, SharedOk;
    var s1 := Move(s, p, i, q, j, r);
    MoveRest(s, w, p, i, q, j, r);
    MoveEffect(s, p, i, q, j, r);
    Local(s1, w, pc, cur);
    assert forall e :: L(SetW(s1, w, pc, cur), e) == L(s1, e);
  }

  lemma Local(s: State, w: Wid, pc: Pc, cur: Option<Tid>)
    requires Rest(s, w)
    ensures Rest(SetW(s, w, pc, cur), w)
  {
    LocalRest(s, SetW(s, w, pc, cur), w);
  }

  lemma One(t: Tid)
    ensures RemoveAt([t], 0) == [] && InsertAt([], 0, t) == [t]
  {
  }

  lemma Two(n: Tid, t: Tid)
    ensures InsertAt([n], 1, t) == [n, t] && RemoveAt([n, t], 0) == [t]
  {
  }

  lemma LocksKept(s: State, s': State, w: Wid)
    requires LocksOk(s) && Alone(s, s', w) && s'.lock == s.lock && Holds(s'.wk[w].pc) == Holds(s.wk[w].pc)
    ensures LocksOk(s')
  {
  }

  lemma LockTaken(s: State, s': State, w: Wid, x: Tid)
    requires LocksOk(s) && Alone(s, s', w) && x !in s.lock && s'.lock == s.lock[x := w]
    requires Holds(s.wk[w].pc) == None && Holds(s'.wk[w].pc) == Some(x)
    ensures LocksOk(s')
  {
    hide Holds;
  }

  lemma LockLeft(s: State, s': State, w: Wid, x: Tid)
    requires LocksOk(s) && Alone(s, s', w) && s'.lock == s.lock - {x}
    requires Holds(s.wk[w].pc) == Some(x) && Holds(s'.wk[w].pc) == None
    ensures LocksOk(s')
  {
    hide Holds;
  }

  /** Who holds the lock of x may change what is known about joining x. */
  lemma JoinsHeld(s: State, s': State, w: Wid, x: Tid)
    requires LocksOk(s) && JoinsOk(s) && Alone(s, s', w)
    requires x in s.lock ==> s.lock[x] == w
    requires forall y :: y != x ==> L(s', JoinOf(y)) == L(s, JoinOf(y)) && (y in s.th ==> y in s'.th)
    requires L(s', JoinOf(x)) != [] ==> x in s'.th && |L(s', JoinOf(x))| == 1
    requires JoinPcOk(s', s'.wk[w].pc)
    ensures JoinsOk(s')
  {
    forall v | v in s'.wk ensures JoinPcOk(s', s'.wk[v].pc) {
      if v != w {
        assert JoinPcOk(s, s.wk[v].pc);
        assert Holds(s.wk[v].pc) != Some(x);
      }
    }
  }

  /** A step under the lock of x. */
  lemma UnderLock(s: State, s': State, w: Wid, x: Tid)
    requires LocksOk(s) && JoinsOk(s) && Alone(s, s', w) && s'.lock == s.lock
    requires Holds(s.wk[w].pc) == Holds(s'.wk[w].pc) == Some(x)
    requires Rest(s', w) && PcOk(s', w, s'.wk[w])
    requires forall y :: y != x ==> L(s', JoinOf(y)) == L(s, JoinOf(y)) && (y in s.th ==> y in s'.th)
    requires L(s', JoinOf(x)) != [] ==> x in s'.th && |L(s', JoinOf(x))| == 1
    requires JoinPcOk(s', s'.wk[w].pc)
    ensures Inv(s')
  {
    hide PcOk, Rest, JoinPcOk;
    LocksKept(s, s', w);
    JoinsHeld(s, s', w, x);
    Assemble(s', w);
  }
}
