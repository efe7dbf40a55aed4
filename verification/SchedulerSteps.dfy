/** Every step of the scheduler keeps its invariant. */
module SchedulerSteps {
  import opened Base
  import opened Scheduler
  import opened SchedulerInv

  // ----- what waits in the lists

  lemma Queued(s: State, w: Wid, v: Wid, i: nat)
    requires Rest(s, w) && i < |L(s, RunQ(v))|
    ensures var n := L(s, RunQ(v))[i]; Fit(s, n, v, true) && s.th[n].place == RunQ(v)
  {
    assert L(s, RunQ(v))[i] in L(s, RunQ(v));
  }

  lemma Sleeping(s: State, w: Wid, o: nat, i: nat)
    requires Rest(s, w) && i < |L(s, Sleep(o))|
    ensures var t := L(s, Sleep(o))[i]; t in s.th && s.th[t].status == Ready && s.th[t].saved
  {
    assert L(s, Sleep(o))[i] in L(s, Sleep(o));
  }

  lemma Joining(s: State, w: Wid, x: Tid)
    requires Rest(s, w) && L(s, JoinOf(x)) != []
    ensures var t := L(s, JoinOf(x))[0]; t in s.th && s.th[t].status == Blocked && s.th[t].saved
  {
    assert L(s, JoinOf(x))[0] in L(s, JoinOf(x));
  }

  // ----- the scheduler loop

  lemma PopKeeps(s: State, w: Wid)
    requires Inv(s) && w in s.wk && s.wk[w].pc == Sched && L(s, RunQ(w)) != []
    ensures Inv(PopStep(s, w))
  {
    hide Inv, Rest, LocksOk, JoinsOk, Move, RemoveAt, InsertAt;
    var i := |L(s, RunQ(w))| - 1;
    var n := Top(s, w);
    Apart(s, w);
    Queued(s, w, w, i);
    Handed(s, w, RunQ(w), i, Hand(w), 0, R(s, n), SchedGot(n), None);
    One(n);
    Plain(s, PopStep(s, w), w);
  }

  lemma StealKeeps(s: State, w: Wid, v: Wid)
    requires Inv(s) && w in s.wk && s.wk[w].pc == Sched && L(s, RunQ(v)) != []
    ensures Inv(StealStep(s, w, v))
  {
    hide Inv, Rest, LocksOk, JoinsOk, Move, RemoveAt, InsertAt;
    var n := L(s, RunQ(v))[0];
    Apart(s, w);
    Queued(s, w, v, 0);
    Handed(s, w, RunQ(v), 0, Hand(w), 0, R(s, n), SchedGot(n), None);
    One(n);
    Plain(s, StealStep(s, w, v), w);
  }

  lemma RunKeeps(s: State, w: Wid, n: Tid)
    requires Inv(s) && w in s.wk && s.wk[w].pc == SchedGot(n)
    ensures Inv(RunStep(s, w, n))
  {
    hide Inv, Rest, LocksOk, JoinsOk, Move, RemoveAt, InsertAt;
    Apart(s, w);
    Handed(s, w, Hand(w), 0, Cpu(w), 0, R(s, n).(env := w, saved := false), User, Some(n));
    One(n);
    Plain(s, RunStep(s, w, n), w);
  }

  // ----- creation

  lemma MakeKeeps(s: State, w: Wid, n: Tid, cur: Option<Tid>)
    requires Inv(s) && w in s.wk && s.wk[w] == Worker(User, cur) && n !in s.th && n !in s.gone
    ensures Inv(MakeStep(s, w, n, cur))
  {
    hide Inv, Rest, LocksOk, JoinsOk;
    Apart(s, w);
    FreshRest(s, w, n);
    Local(Fresh(s, w, n), w, Made(n), cur);
    Plain(s, MakeStep(s, w, n, cur), w);
  }

  lemma Distinct(s: State, w: Wid, t: Tid, n: Tid)
    requires Rest(s, w) && L(s, Cpu(w)) == [t] && L(s, Hand(w)) == [n]
    ensures t != n
  {
    assert t in L(s, Cpu(w)) && n in L(s, Hand(w));
    assert s.th[t].place == Cpu(w) && s.th[n].place == Hand(w);
  }

  /** The running context is saved; t is in hand after what was there. */
  lemma Saved(s: State, w: Wid, t: Tid, r: Thread)
    requires w in s.wk && Rest(s, w) && L(s, Cpu(w)) == [t] && t in s.th
    ensures CanMove(s, Cpu(w), 0, Hand(w), |L(s, Hand(w))|)
    ensures var s' := Grab(s, w, Cpu(w), 0, r);
      && Rest(s', w) && s'.wk == s.wk && s'.lock == s.lock
      && L(s', Hand(w)) == L(s, Hand(w)) + [t] && L(s', Cpu(w)) == []
      && (forall e :: e != Hand(w) && e != Cpu(w) ==> L(s', e) == L(s, e))
      && t in s'.th && s'.th[t] == r.(place := Hand(w))
      && (forall u :: u != t ==> (u in s'.th <==> u in s.th) && (u in s.th ==> s'.th[u] == s.th[u]))
  {
    hide Rest, Move, RemoveAt, InsertAt;
    MoveRest(s, w, Cpu(w), 0, Hand(w), |L(s, Hand(w))|, r);
    MoveEffect(s, Cpu(w), 0, Hand(w), |L(s, Hand(w))|, r);
    One(t);
    AtEnd(L(s, Hand(w)), t);
  }

  lemma AtEnd(l: seq<Tid>, t: Tid)
    ensures InsertAt(l, |l|, t) == l + [t]
  {
  }

  /** Entering the next context; its thread was first in hand. */
  lemma Entered(s: State, w: Wid, next: Option<Tid>, rest: seq<Tid>)
    requires w in s.wk && Rest(s, w) && L(s, Cpu(w)) == [] && L(s, Hand(w)) == Opt(next) + rest
    requires next.Some? ==> next.value in s.th
    ensures var s' := Enter(s, w, next);
      && Rest(s', w) && s'.wk == s.wk && s'.lock == s.lock
      && L(s', Hand(w)) == rest && L(s', Cpu(w)) == Opt(next)
      && (forall e :: e != Hand(w) && e != Cpu(w) ==> L(s', e) == L(s, e))
      && (next.Some? ==> next.value in s'.th && s'.th[next.value] == s.th[next.value].(saved := false, place := Cpu(w)))
      && (forall u :: u in s'.th <==> u in s.th)
      && (forall u :: u in s.th && next != Some(u) ==> s'.th[u] == s.th[u])
  {
    hide Rest, Move, InsertAt;
    if next.Some? {
      var n := next.value;
      MoveRest(s, w, Hand(w), 0, Cpu(w), 0, s.th[n].(saved := false));
      MoveEffect(s, Hand(w), 0, Cpu(w), 0, s.th[n].(saved := false));
      One(n);
      assert RemoveAt(L(s, Hand(w)), 0) == rest;
    } else {
      assert Opt(next) + rest == rest;
    }
  }

  /** A switch: t's context is saved and it is in hand; the next one is on the processor. */
  lemma Swapped(s: State, w: Wid, t: Tid, next: Option<Tid>, pc: Pc, cur: Option<Tid>)
    requires w in s.wk && Rest(s, w) && L(s, Cpu(w)) == [t] && L(s, Hand(w)) == Opt(next)
    requires t in s.th && (next.Some? ==> next.value in s.th)
    ensures var s' := Swap(s, w, t, next, pc, cur);
      && Rest(s', w) && Alone(s, s', w) && s'.wk[w] == Worker(pc, cur) && s'.lock == s.lock
      && L(s', Hand(w)) == [t] && L(s', Cpu(w)) == Opt(next)
      && (forall e :: e != Hand(w) && e != Cpu(w) ==> L(s', e) == L(s, e))
      && t in s'.th && s'.th[t] == s.th[t].(saved := true, place := Hand(w))
      && (next.Some? ==> next.value in s'.th && s'.th[next.value] == s.th[next.value].(saved := false, place := Cpu(w)))
      && (forall u :: u in s.th <==> u in s'.th)
  {
    hide Rest, Move, RemoveAt, InsertAt, Enter, Grab;
    if next.Some? { Distinct(s, w, t, next.value); }
    var s1 := Grab(s, w, Cpu(w), 0, R(s, t).(saved := true));
    Saved(s, w, t, R(s, t).(saved := true));
    Entered(s1, w, next, [t]);
    var s2 := Enter(s1, w, next);
    Local(s2, w, pc, cur);
    assert forall e :: L(SetW(s2, w, pc, cur), e) == L(s2, e);
  }

  lemma ChildFirstKeeps(s: State, w: Wid, n: Tid, cur: Option<Tid>)
    requires Inv(s) && w in s.wk && s.wk[w] == Worker(Made(n), cur)
    ensures Inv(ChildFirstStep(s, w, n, cur))
  {
    hide Inv, Rest, LocksOk, JoinsOk, Swap;
    Apart(s, w);
    Distinct(s, w, cur.value, n);
    Swapped(s, w, cur.value, Some(n), CreateCb(n), cur);
    Plain(s, ChildFirstStep(s, w, n, cur), w);
  }

  /** The first thread in hand goes to the run queue's top or base. */
  lemma ParentFirstKeeps(s: State, w: Wid, n: Tid, cur: Option<Tid>)
    requires Inv(s) && w in s.wk && s.wk[w] == Worker(Made(n), cur)
    ensures Inv(ParentFirstStep(s, w, n, cur))
  {
    hide Inv, Rest, LocksOk, JoinsOk, Move, RemoveAt, InsertAt;
    Apart(s, w);
    Distinct(s, w, cur.value, n);
    Handed(s, w, Hand(w), 0, RunQ(w), |L(s, RunQ(w))|, R(s, n), User, cur);
    One(n);
    Plain(s, ParentFirstStep(s, w, n, cur), w);
  }

  lemma CreateCbKeeps(s: State, w: Wid, n: Tid, cur: Option<Tid>)
    requires Inv(s) && w in s.wk && s.wk[w] == Worker(CreateCb(n), cur)
    ensures Inv(CreateCbStep(s, w, n, cur))
  {
    hide Inv, Rest, LocksOk, JoinsOk, Move, RemoveAt, InsertAt;
    Apart(s, w);
    Distinct(s, w, n, cur.value);
    Handed(s, w, Hand(w), 0, RunQ(w), |L(s, RunQ(w))|, R(s, cur.value), User, Some(n));
    One(cur.value);
    Plain(s, CreateCbStep(s, w, n, cur), w);
  }

  // ----- yield

  lemma YieldKeeps(s: State, w: Wid, v: Wid, cur: Option<Tid>)
    requires Inv(s) && w in s.wk && s.wk[w] == Worker(User, cur) && L(s, RunQ(v)) != []
    ensures Inv(YieldStep(s, w, v, cur))
  {
    hide Inv, Rest, LocksOk, JoinsOk, Move, RemoveAt, InsertAt;
    var i := if v == w then |L(s, RunQ(v))| - 1 else 0;
    var n := L(s, RunQ(v))[i];
    Apart(s, w);
    Queued(s, w, v, i);
    OnCpu(s, w, cur.value);
    Handed(s, w, RunQ(v), i, Hand(w), 0, R(s, n).(env := w), YieldGot(cur.value, n), cur);
    One(n);
    Plain(s, YieldStep(s, w, v, cur), w);
  }

  lemma OnCpu(s: State, w: Wid, t: Tid)
    requires Rest(s, w) && L(s, Cpu(w)) == [t]
    ensures t in s.th && s.th[t].place == Cpu(w)
  {
    assert t in L(s, Cpu(w));
  }

  lemma YieldCbKeeps(s: State, w: Wid, t: Tid, n: Tid)
    requires Inv(s) && w in s.wk && s.wk[w].pc == YieldCb(t, n)
    ensures Inv(YieldCbStep(s, w, t, n))
  {
    hide Inv, Rest, LocksOk, JoinsOk, Move, RemoveAt, InsertAt;
    Apart(s, w);
    Distinct(s, w, n, t);
    OnCpu(s, w, n);
    var s1 := Move(s, Hand(w), 0, RunQ(w), 0, R(s, t));
    MoveRest(s, w, Hand(w), 0, RunQ(w), 0, R(s, t));
    MoveEffect(s, Hand(w), 0, RunQ(w), 0, R(s, t));
    One(t);
    var s2 := SetT(s1, n, R(s1, n).(env := w));
    SetRest(s1, w, n, R(s1, n).(env := w));
    assert forall e :: L(s2, e) == L(s1, e);
    Local(s2, w, User, Some(n));
    var s3 := YieldCbStep(s, w, t, n);
    assert forall e :: L(s3, e) == L(s2, e);
    Plain(s, s3, w);
  }

  lemma YieldSwitchKeeps(s: State, w: Wid, t: Tid, n: Tid, cur: Option<Tid>)
    requires Inv(s) && w in s.wk && s.wk[w] == Worker(YieldGot(t, n), cur)
    ensures Inv(Swap(s, w, t, Some(n), YieldCb(t, n), cur))
  {
    hide Inv, Rest, LocksOk, JoinsOk, Swap;
    Apart(s, w);
    Distinct(s, w, t, n);
    Swapped(s, w, t, Some(n), YieldCb(t, n), cur);
    Plain(s, Swap(s, w, t, Some(n), YieldCb(t, n), cur), w);
  }

  // ----- blocking and waking

  /** Popping the own queue, or finding nothing, on the way to a switch. */
  lemma Popped(s: State, w: Wid, found: bool, own: bool)
    requires w in s.wk && Rest(s, w) && Pops(s, w, found) && L(s, Hand(w)) == []
    ensures var next := if found then Some(Top(s, w)) else None; var s' := PopHand(s, w, found, own);
      && Rest(s', w) && s'.wk == s.wk && s'.lock == s.lock
      && L(s', Hand(w)) == Opt(next)
      && (forall e :: e != Hand(w) && e != RunQ(w) ==> L(s', e) == L(s, e))
      && (next.Some? ==> next.value in s.th && s.th[next.value].place == RunQ(w) && Fit(s', next.value, w, true))
      && (forall u :: next != Some(u) ==> (u in s'.th <==> u in s.th) && (u in s.th ==> s'.th[u] == s.th[u]))
  {
    hide Rest, Move, RemoveAt, InsertAt;
    if found {
      var i := |L(s, RunQ(w))| - 1;
      var n := Top(s, w);
      Queued(s, w, w, i);
      var r := if own then R(s, n).(env := w) else R(s, n);
      MoveRest(s, w, RunQ(w), i, Hand(w), 0, r);
      MoveEffect(s, RunQ(w), i, Hand(w), 0, r);
      One(n);
    }
  }

  lemma BlockKeeps(s: State, w: Wid, o: nat, found: bool, cur: Option<Tid>)
    requires Inv(s) && w in s.wk && s.wk[w] == Worker(User, cur) && Pops(s, w, found)
    ensures Inv(BlockStep(s, w, o, found, cur))
  {
    hide Inv, Rest, LocksOk, JoinsOk, PopHand;
    var next := if found then Some(Top(s, w)) else None;
    Apart(s, w);
    OnCpu(s, w, cur.value);
    Popped(s, w, found, true);
    var s1 := PopHand(s, w, found, true);
    Local(s1, w, BlockGot(cur.value, o, next), next);
    var s2 := BlockStep(s, w, o, found, cur);
    assert forall e :: L(s2, e) == L(s1, e);
    Plain(s, s2, w);
  }

  lemma BlockSwitchKeeps(s: State, w: Wid, t: Tid, o: nat, next: Option<Tid>, cur: Option<Tid>)
    requires Inv(s) && w in s.wk && s.wk[w] == Worker(BlockGot(t, o, next), cur)
    ensures Inv(Swap(s, w, t, next, BlockCb(t, o, next), cur))
  {
    hide Inv, Rest, LocksOk, JoinsOk, Swap;
    Apart(s, w);
    Swapped(s, w, t, next, BlockCb(t, o, next), cur);
    Plain(s, Swap(s, w, t, next, BlockCb(t, o, next), cur), w);
  }

  lemma BlockCbKeeps(s: State, w: Wid, t: Tid, o: nat, next: Option<Tid>, cur: Option<Tid>)
    requires Inv(s) && w in s.wk && s.wk[w] == Worker(BlockCb(t, o, next), cur)
    ensures Inv(BlockCbStep(s, w, t, o, next, cur))
  {
    hide Inv, Rest, LocksOk, JoinsOk, Move, RemoveAt, InsertAt;
    Apart(s, w);
    if next.Some? { Distinct(s, w, next.value, t); }
    Handed(s, w, Hand(w), 0, Sleep(o), |L(s, Sleep(o))|, R(s, t), Waking(next), cur);
    One(t);
    Plain(s, BlockCbStep(s, w, t, o, next, cur), w);
  }

  lemma WakeKeeps(s: State, w: Wid, cur: Option<Tid>)
    requires Inv(s) && w in s.wk && s.wk[w] == Worker(User, cur)
    ensures Inv(SetW(s, w, Waking(cur), cur))
  {
    hide Inv, Rest, LocksOk, JoinsOk;
    var s' := SetW(s, w, Waking(cur), cur);
    Apart(s, w);
    Local(s, w, Waking(cur), cur);
    assert forall e :: L(s', e) == L(s, e);
    Plain(s, s', w);
  }

  /** Threads in hand stay in hand and fit while one more is added or one removed. */
  lemma DeqKeeps(s: State, w: Wid, o: nat, i: nat, next: Option<Tid>, cur: Option<Tid>)
    requires Inv(s) && w in s.wk && s.wk[w] == Worker(Waking(next), cur) && i < |L(s, Sleep(o))|
    ensures Inv(DeqStep(s, w, o, i))
  {
    hide Inv, Rest, LocksOk, JoinsOk, Move, RemoveAt, InsertAt;
    var h := L(s, Hand(w));
    var t := L(s, Sleep(o))[i];
    var r := R(s, t).(env := w);
    Apart(s, w);
    Sleeping(s, w, o, i);
    NotHeld(s, w, Sleep(o), i, next);
    MoveRest(s, w, Sleep(o), i, Hand(w), |h|, r);
    MoveEffect(s, Sleep(o), i, Hand(w), |h|, r);
    AtEnd(h, t);
    var s' := DeqStep(s, w, o, i);
    assert forall k :: 0 <= k < |h| ==> h[k] != t && Fit(s, h[k], w, true);
    Plain(s, s', w);
  }

  /** What lies elsewhere is neither in hand nor on the processor. */
  lemma NotHeld(s: State, w: Wid, p: Place, i: nat, next: Option<Tid>)
    requires Rest(s, w) && p != Hand(w) && p != Cpu(w) && i < |L(s, p)| && L(s, Cpu(w)) == Opt(next)
    ensures forall k :: 0 <= k < |L(s, Hand(w))| ==> L(s, Hand(w))[k] != L(s, p)[i]
    ensures next != Some(L(s, p)[i])
  {
    hide Rest;
    IsAt(s, w, p, i);
    forall k | 0 <= k < |L(s, Hand(w))| ensures L(s, Hand(w))[k] != L(s, p)[i] {
      IsAt(s, w, Hand(w), k);
    }
    if next.Some? { OnCpu(s, w, next.value); }
  }

  lemma IsAt(s: State, w: Wid, p: Place, i: nat)
    requires Rest(s, w) && i < |L(s, p)|
    ensures var t := L(s, p)[i]; t in s.th && s.th[t].place == p
  {
    assert L(s, p)[i] in L(s, p);
  }

  lemma HandDistinct(s: State, w: Wid, next: Option<Tid>)
    requires Rest(s, w) && L(s, Hand(w)) != [] && L(s, Cpu(w)) == Opt(next)
    ensures forall k :: 0 < k < |L(s, Hand(w))| ==> L(s, Hand(w))[k] != L(s, Hand(w))[0]
    ensures next != Some(L(s, Hand(w))[0])
  {
    assert NoDup(L(s, Hand(w)));
    var u := L(s, Hand(w))[0];
    assert u in L(s, Hand(w)) && s.th[u].place == Hand(w);
    if next.Some? { OnCpu(s, w, next.value); }
  }

  lemma PushKeeps(s: State, w: Wid, next: Option<Tid>, cur: Option<Tid>)
    requires Inv(s) && w in s.wk && s.wk[w] == Worker(Waking(next), cur) && L(s, Hand(w)) != []
    ensures Inv(PushHand(s, w))
  {
    hide Inv, Rest, LocksOk, JoinsOk, PushHand, PcOk, PlainStep, L;
    Apart(s, w);
    Pushed(s, w, next, cur);
    PlainInv(s, PushHand(s, w), w);
  }

  lemma Pushed(s: State, w: Wid, next: Option<Tid>, cur: Option<Tid>)
    requires w in s.wk && s.wk[w] == Worker(Waking(next), cur) && PcOk(s, w, s.wk[w]) && L(s, Hand(w)) != [] && Rest(s, w)
    ensures PlainStep(s, PushHand(s, w), w)
  {
    hide Rest, Move, InsertAt, RemoveAt, L;
    var h := L(s, Hand(w));
    HandDistinct(s, w, next);
    assert Fit(s, h[0], w, true);
    MoveRest(s, w, Hand(w), 0, RunQ(w), |L(s, RunQ(w))|, R(s, h[0]));
    MoveEffect(s, Hand(w), 0, RunQ(w), |L(s, RunQ(w))|, R(s, h[0]));
    FirstGone(h);
    var s' := PushHand(s, w);
    forall k | 0 <= k < |h[1..]| ensures Fit(s', h[1..][k], w, true) {
      assert h[1..][k] == h[k + 1] && Fit(s, h[k + 1], w, true);
    }
  }

  lemma FirstGone(h: seq<Tid>)
    requires h != []
    ensures RemoveAt(h, 0) == h[1..]
  {
  }

  lemma WakeEndKeeps(s: State, w: Wid, next: Option<Tid>, cur: Option<Tid>)
    requires Inv(s) && w in s.wk && s.wk[w] == Worker(Waking(next), cur) && L(s, Hand(w)) == []
    ensures Inv(Land(s, w, next))
  {
    hide Inv, Rest, LocksOk, JoinsOk;
    var s' := Land(s, w, next);
    Apart(s, w);
    Local(s, w, s'.wk[w].pc, next);
    assert forall e :: L(s', e) == L(s, e);
    Plain(s, s', w);
  }

  // ----- join

  /** The joiner is marked blocked and takes the lock of x. */
  function JoinMark(s: State, w: Wid, x: Tid, t: Tid): State
    requires t in s.th
  {
    var s1 := SetT(s, t, R(s, t).(status := Blocked));
    s1.(lock := s1.lock[x := w])
  }

  lemma JoinMarked(s: State, w: Wid, x: Tid, t: Tid)
    requires w in s.wk && Rest(s, w) && L(s, Cpu(w)) == [t] && t in s.th
    ensures var s' := JoinMark(s, w, x, t);
      && Rest(s', w) && s'.wk == s.wk && s'.lock == s.lock[x := w] && (forall e :: L(s', e) == L(s, e))
      && t in s'.th && s'.th[t] == s.th[t].(status := Blocked)
      && (forall u :: u in s'.th <==> u in s.th)
  {
    hide Rest;
    OnCpu(s, w, t);
    var s1 := SetT(s, t, R(s, t).(status := Blocked));
    SetRest(s, w, t, R(s, t).(status := Blocked));
    LocalRest(s1, JoinMark(s, w, x, t), w);
  }

  lemma JoinKeeps(s: State, w: Wid, x: Tid, found: bool, cur: Option<Tid>)
    requires Inv(s) && w in s.wk && s.wk[w] == Worker(User, cur) && Pops(s, w, found)
    requires x in s.th && x !in s.lock && L(s, JoinOf(x)) == []
    ensures Inv(JoinStep(s, w, x, found, cur))
  {
    hide Inv, Rest, LocksOk, JoinsOk, PcOk, Alone, JoinStep, L;
    Apart(s, w);
    HasMarked(s, w, x, found, cur);
    var s' := JoinStep(s, w, x, found, cur);
    LockTaken(s, s', w, x);
    JoinsHeld(s, s', w, x);
    Assemble(s', w);
  }

  lemma HasMarked(s: State, w: Wid, x: Tid, found: bool, cur: Option<Tid>)
    requires w in s.wk && s.wk[w] == Worker(User, cur) && Pops(s, w, found) && x in s.th && L(s, JoinOf(x)) == []
    requires PcOk(s, w, s.wk[w]) && Rest(s, w)
    ensures var s' := JoinStep(s, w, x, found, cur);
      && Alone(s, s', w) && s'.lock == s.lock[x := w] && Holds(s'.wk[w].pc) == Some(x) && Rest(s', w)
      && PcOk(s', w, s'.wk[w]) && JoinPcOk(s', s'.wk[w].pc)
      && (forall y :: L(s', JoinOf(y)) == L(s, JoinOf(y))) && (forall y :: y in s.th ==> y in s'.th)
  {
    hide Rest, PopHand, JoinStep;
    var t := cur.value;
    OnCpu(s, w, t);
    var s2 := JoinMark(s, w, x, t);
    JoinMarked(s, w, x, t);
    Popped(s2, w, found, true);
    var s3 := PopHand(s2, w, found, true);
    var next := if found then Some(Top(s2, w)) else None;
    Local(s3, w, JoinGot(t, x, next), cur);
    JoinStepIs(s, w, x, found, cur);
    assert forall e :: L(SetW(s3, w, JoinGot(t, x, next), cur), e) == L(s3, e);
    hide L, JoinMark;
  }

  lemma JoinStepIs(s: State, w: Wid, x: Tid, found: bool, cur: Option<Tid>)
    requires cur.Some? && cur.value in s.th && Pops(s, w, found)
    ensures Pops(JoinMark(s, w, x, cur.value), w, found)
    ensures JoinStep(s, w, x, found, cur) ==
      (var s2 := JoinMark(s, w, x, cur.value);
       SetW(PopHand(s2, w, found, true), w, JoinGot(cur.value, x, if found then Some(Top(s2, w)) else None), cur))
  {
    var s2 := JoinMark(s, w, x, cur.value);
    assert forall e :: L(s2, e) == L(s, e);
  }

  lemma JoinSwitchKeeps(s: State, w: Wid, t: Tid, x: Tid, next: Option<Tid>, cur: Option<Tid>)
    requires Inv(s) && w in s.wk && s.wk[w] == Worker(JoinGot(t, x, next), cur)
    ensures Inv(Swap(s, w, t, next, JoinCb(t, x, next), cur))
  {
    hide Inv, Rest, LocksOk, JoinsOk, Swap;
    Apart(s, w);
    JoinPcHeld(s, w);
    Swapped(s, w, t, next, JoinCb(t, x, next), cur);
    UnderLock(s, Swap(s, w, t, next, JoinCb(t, x, next), cur), w, x);
  }

  lemma LockHeld(s: State, w: Wid, x: Tid)
    requires LocksOk(s) && w in s.wk && Holds(s.wk[w].pc) == Some(x)
    ensures x in s.lock && s.lock[x] == w
  {
  }

  lemma JoinCbKeeps(s: State, w: Wid, t: Tid, x: Tid, next: Option<Tid>, cur: Option<Tid>)
    requires Inv(s) && w in s.wk && s.wk[w] == Worker(JoinCb(t, x, next), cur)
    ensures Inv(JoinCbStep(s, w, t, x, next, cur))
  {
    hide Inv, Rest, LocksOk, JoinsOk, Move, RemoveAt, InsertAt;
    Apart(s, w);
    JoinPcHeld(s, w);
    if next.Some? { Distinct(s, w, next.value, t); }
    One(t);
    var pc := if next.Some? then User else Sched;
    Handed(s, w, Hand(w), 0, JoinOf(x), 0, R(s, t), pc, next);
    var s1 := SetW(Move(s, Hand(w), 0, JoinOf(x), 0, R(s, t)), w, pc, next);
    var s2 := JoinCbStep(s, w, t, x, next, cur);
    assert s2 == s1.(lock := s.lock - {x});
    LocalRest(s1, s2, w);
    assert forall e :: L(s2, e) == L(s1, e);
    Unlocked(s, s2, w, x);
  }

  /** A step that gives up the lock of x. */
  lemma Unlocked(s: State, s': State, w: Wid, x: Tid)
    requires LocksOk(s) && JoinsOk(s) && Alone(s, s', w) && s'.lock == s.lock - {x}
    requires Holds(s.wk[w].pc) == Some(x) && Holds(s'.wk[w].pc) == None
    requires Rest(s', w) && PcOk(s', w, s'.wk[w])
    requires forall y :: y != x ==> L(s', JoinOf(y)) == L(s, JoinOf(y)) && (y in s.th ==> y in s'.th)
    requires L(s', JoinOf(x)) != [] ==> x in s'.th && |L(s', JoinOf(x))| == 1
    ensures Inv(s')
  {
    hide PcOk, Rest;
    LockHeld(s, w, x);
    LockLeft(s, s', w, x);
    JoinsHeld(s, s', w, x);
    Assemble(s', w);
  }

  // ----- exit

  lemma ExitKeeps(s: State, w: Wid, cur: Option<Tid>)
    requires Inv(s) && w in s.wk && s.wk[w] == Worker(User, cur) && forall x :: cur == Some(x) ==> x !in s.lock
    ensures Inv(ExitStep(s, w, cur))
  {
    hide Inv, Rest, LocksOk;
    Apart(s, w);
    var x := cur.value;
    var s' := ExitStep(s, w, cur);
    LocalRest(s, s', w);
    assert forall e :: L(s', e) == L(s, e);
    LockTaken(s, s', w, x);
    JoinsHeld(s, s', w, x);
    Assemble(s', w);
  }

  lemma ExitNextKeeps(s: State, w: Wid, x: Tid, found: bool, cur: Option<Tid>)
    requires Inv(s) && w in s.wk && s.wk[w] == Worker(ExitLocked(x), cur) && Pops(s, w, found)
    ensures Inv(ExitNextStep(s, w, x, found, cur))
  {
    if L(s, JoinOf(x)) != [] { ExitWaiterKeeps(s, w, x, cur); } else { ExitPopKeeps(s, w, x, found, cur); }
  }

  lemma ExitWaiterKeeps(s: State, w: Wid, x: Tid, cur: Option<Tid>)
    requires Inv(s) && w in s.wk && s.wk[w] == Worker(ExitLocked(x), cur) && L(s, JoinOf(x)) != []
    ensures Inv(ExitNextStep(s, w, x, false, cur))
  {
    hide Inv, Rest, LocksOk, JoinsOk, Move, RemoveAt, InsertAt, PopHand;
    var s' := ExitNextStep(s, w, x, false, cur);
    Apart(s, w);
    OneJoiner(s, x);
    OnCpu(s, w, x);
    var j := L(s, JoinOf(x))[0];
    Joining(s, w, x);
    IsAt(s, w, JoinOf(x), 0);
    Handed(s, w, JoinOf(x), 0, Hand(w), 0, R(s, j).(env := w, status := Ready), ExitGot(x, Some(j)), cur);
    assert L(s, JoinOf(x)) == [j];
    One(j);
    UnderLock(s, s', w, x);
  }

  lemma OneJoiner(s: State, x: Tid)
    requires JoinsOk(s) && L(s, JoinOf(x)) != []
    ensures x in s.th && L(s, JoinOf(x)) == [L(s, JoinOf(x))[0]]
  {
  }

  lemma ExitPopKeeps(s: State, w: Wid, x: Tid, found: bool, cur: Option<Tid>)
    requires Inv(s) && w in s.wk && s.wk[w] == Worker(ExitLocked(x), cur) && Pops(s, w, found) && L(s, JoinOf(x)) == []
    ensures Inv(ExitNextStep(s, w, x, found, cur))
  {
    hide Inv, Rest, LocksOk, JoinsOk, PopHand;
    var s' := ExitNextStep(s, w, x, found, cur);
    Apart(s, w);
    OnCpu(s, w, x);
    Popped(s, w, found, false);
    var s1 := PopHand(s, w, found, false);
    Local(s1, w, s'.wk[w].pc, cur);
    assert forall e :: L(s', e) == L(s1, e);
    UnderLock(s, s', w, x);
  }

  lemma LeaveKeeps(s: State, w: Wid, x: Tid, next: Option<Tid>, cur: Option<Tid>)
    requires Inv(s) && w in s.wk && s.wk[w] == Worker(ExitGot(x, next), cur)
    ensures Inv(LeaveStep(s, w, x, next, cur))
  {
    hide Inv, Rest, LocksOk, JoinsOk, LeaveStep, PcOk, L, Alone;
    Apart(s, w);
    JoinPcHeld(s, w);
    HasLeft(s, w, x, next, cur);
    UnderLock(s, LeaveStep(s, w, x, next, cur), w, x);
  }

  lemma HasLeft(s: State, w: Wid, x: Tid, next: Option<Tid>, cur: Option<Tid>)
    requires w in s.wk && s.wk[w] == Worker(ExitGot(x, next), cur) && PcOk(s, w, s.wk[w]) && Rest(s, w)
    ensures var s' := LeaveStep(s, w, x, next, cur);
      && Alone(s, s', w) && s'.wk[w].pc == ExitCb(x, next) && s'.lock == s.lock && Rest(s', w) && PcOk(s', w, s'.wk[w])
      && (forall y :: L(s', JoinOf(y)) == L(s, JoinOf(y))) && (forall y :: y != x && y in s.th ==> y in s'.th)
  {
    hide Rest, Enter, Gone;
    if next.Some? { Distinct(s, w, x, next.value); }
    var s1 := Gone(s, w, x);
    Left(s, w, x);
    assert L(s, Hand(w)) == Opt(next) + [];
    Entered(s1, w, next, []);
    var s2 := Enter(s1, w, next);
    var s' := LeaveStep(s, w, x, next, cur);
    Local(s2, w, ExitCb(x, next), cur);
    assert forall e :: L(s', e) == L(s2, e);
    hide L;
  }

  lemma JoinPcHeld(s: State, w: Wid)
    requires JoinsOk(s) && w in s.wk
    ensures JoinPcOk(s, s.wk[w].pc)
  {
  }

  lemma Left(s: State, w: Wid, x: Tid)
    requires w in s.wk && Rest(s, w) && L(s, Cpu(w)) == [x]
    ensures var s' := Gone(s, w, x);
      && Rest(s', w) && s'.wk == s.wk && s'.lock == s.lock
      && L(s', Cpu(w)) == [] && (forall e :: e != Cpu(w) ==> L(s', e) == L(s, e))
      && (forall u :: u != x ==> (u in s'.th <==> u in s.th) && (u in s.th ==> s'.th[u] == s.th[u]))
  {
    hide Rest;
    GoneRest(s, w, x);
  }

  lemma ExitCbKeeps(s: State, w: Wid, x: Tid, next: Option<Tid>, cur: Option<Tid>)
    requires Inv(s) && w in s.wk && s.wk[w] == Worker(ExitCb(x, next), cur)
    ensures Inv(ExitCbStep(s, w, x, next))
  {
    hide Inv, Rest, LocksOk;
    Apart(s, w);
    LockHeld(s, w, x);
    var s' := ExitCbStep(s, w, x, next);
    LocalRest(s, s', w);
    assert forall e :: L(s', e) == L(s, e);
    Unlocked(s, s', w, x);
  }

  // ----- the way home of the main thread

  lemma PassKeeps(s: State, w: Wid, v: Wid, cur: Option<Tid>)
    requires Inv(s) && w in s.wk && v in s.wk && s.wk[w] == Worker(User, cur)
    ensures Inv(PassStep(s, w, v, cur))
  {
    hide Inv, Rest, LocksOk, JoinsOk, PassStep, PcOk, PlainStep;
    Apart(s, w);
    Passed(s, w, v, cur);
    PlainInv(s, PassStep(s, w, v, cur), w);
  }

  lemma Passed(s: State, w: Wid, v: Wid, cur: Option<Tid>)
    requires w in s.wk && v in s.wk && s.wk[w] == Worker(User, cur) && PcOk(s, w, s.wk[w]) && Rest(s, w)
    ensures PlainStep(s, PassStep(s, w, v, cur), w)
  {
    hide Rest, Grab;
    var t := cur.value;
    OnCpu(s, w, t);
    var r := R(s, t).(saved := true, env := v);
    Saved(s, w, t, r);
    var s1 := Grab(s, w, Cpu(w), 0, r);
    Local(s1, w, PassCb(t, v), cur);
    var s' := PassStep(s, w, v, cur);
    assert forall e :: L(s', e) == L(s1, e);
    hide L;
    assert L(s', Hand(w)) == [t] && L(s', Cpu(w)) == [];
  }

  lemma PassTryKeeps(s: State, w: Wid, t: Tid, v: Wid, ok: bool, other: Wid, cur: Option<Tid>)
    requires Inv(s) && w in s.wk && other in s.wk && s.wk[w] == Worker(PassCb(t, v), cur)
    ensures Inv(PassTryStep(s, w, t, v, ok, other, cur))
  {
    hide Inv, Rest, LocksOk, JoinsOk, Move, RemoveAt, InsertAt;
    Apart(s, w);
    var s' := PassTryStep(s, w, t, v, ok, other, cur);
    if ok {
      Handed(s, w, Hand(w), 0, RunQ(v), 0, R(s, t), Sched, None);
      One(t);
    } else {
      InHand(s, w, t);
      var s1 := SetT(s, t, R(s, t).(env := other));
      SetRest(s, w, t, R(s, t).(env := other));
      Local(s1, w, PassCb(t, other), cur);
      assert forall e :: L(s', e) == L(s, e);
    }
    Plain(s, s', w);
  }

  lemma InHand(s: State, w: Wid, t: Tid)
    requires Rest(s, w) && L(s, Hand(w)) == [t]
    ensures t in s.th && s.th[t].place == Hand(w)
  {
    assert t in L(s, Hand(w));
  }

  // ----- all steps

  lemma SwitchKeeps(s: State, w: Wid, me: Worker)
    requires Inv(s) && w in s.wk && s.wk[w] == me && Switches(me.pc)
    ensures Inv(SwitchStep(s, w, me))
  {
    hide Inv, Swap, LeaveStep;
    match me.pc
    case YieldGot(t, n) => YieldSwitchKeeps(s, w, t, n, me.cur);
    case BlockGot(t, o, next) => BlockSwitchKeeps(s, w, t, o, next, me.cur);
    case JoinGot(t, x, next) => JoinSwitchKeeps(s, w, t, x, next, me.cur);
    case ExitGot(x, next) => LeaveKeeps(s, w, x, next, me.cur);
  }

  lemma CallbackKeeps(s: State, w: Wid, me: Worker)
    requires Inv(s) && w in s.wk && s.wk[w] == me && CallsBack(me.pc)
    ensures Inv(CallbackStep(s, w, me))
  {
    hide Inv, CreateCbStep, YieldCbStep, BlockCbStep, JoinCbStep, ExitCbStep;
    match me.pc
    case CreateCb(n) => CreateCbKeeps(s, w, n, me.cur);
    case YieldCb(t, n) => YieldCbKeeps(s, w, t, n);
    case BlockCb(t, o, next) => BlockCbKeeps(s, w, t, o, next, me.cur);
    case JoinCb(t, x, next) => JoinCbKeeps(s, w, t, x, next, me.cur);
    case ExitCb(x, next) => ExitCbKeeps(s, w, x, next, me.cur);
  }

  lemma NextKeeps(s: State, a: Act)
    requires Enabled(s, a) && Inv(s)
    ensures Inv(Next(s, a))
  {
    hide Inv, PopStep, StealStep, RunStep, MakeStep, ChildFirstStep, ParentFirstStep, YieldStep, BlockStep, JoinStep,
      ExitStep, ExitNextStep, PassStep, PassTryStep, SetW, DeqStep, PushHand, Land, SwitchStep, CallbackStep, L;
    var me := s.wk[a.w];
    match a
    case Pop(w) => PopKeeps(s, w);
    case Steal(w, v) => StealKeeps(s, w, v);
    case Run(w) => RunKeeps(s, w, me.pc.n);
    case Make(w, n) => MakeKeeps(s, w, n, me.cur);
    case ChildFirst(w) => ChildFirstKeeps(s, w, me.pc.n, me.cur);
    case ParentFirst(w) => ParentFirstKeeps(s, w, me.pc.n, me.cur);
    case Yield(w, v) => YieldKeeps(s, w, v, me.cur);
    case Block(w, o, found) => BlockKeeps(s, w, o, found, me.cur);
    case Join(w, x, found) => JoinKeeps(s, w, x, found, me.cur);
    case Exit(w) => ExitKeeps(s, w, me.cur);
    case ExitNext(w, found) => ExitNextKeeps(s, w, me.pc.x, found, me.cur);
    case Pass(w, v) => PassKeeps(s, w, v, me.cur);
    case PassTry(w, ok, v) => PassTryKeeps(s, w, me.pc.t, me.pc.v, ok, v, me.cur);
    case Wake(w) => WakeKeeps(s, w, me.cur);
    case Deq(w, o, i) => DeqKeeps(s, w, o, i, me.pc.next, me.cur);
    case Push(w) => PushKeeps(s, w, me.pc.next, me.cur);
    case WakeEnd(w) => WakeEndKeeps(s, w, me.pc.next, me.cur);
    case Switch(w) => SwitchKeeps(s, w, me);
    case Callback(w) => CallbackKeeps(s, w, me);
  }
}
