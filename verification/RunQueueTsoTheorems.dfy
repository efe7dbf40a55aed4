/** What the run queue guarantees over whole runs of one owner and any number of
    thieves, peekers and passers on x86-TSO. */
module RunQueueTsoTheorems {
  import opened Base
  import opened RunQueueTso
  import opened RunQueueTsoInv
  import opened RunQueueTsoSteps

  // ----- runs

  predicate Runs(s: State, acts: seq<Act>)
    decreases |acts|
  {
    acts == [] || (Enabled(s, acts[0]) && Runs(Next(s, acts[0]), acts[1..]))
  }

  function Exec(s: State, acts: seq<Act>): State
    requires Runs(s, acts)
    decreases |acts|
  {
    if acts == [] then s else Exec(Next(s, acts[0]), acts[1..])
  }

  /** The deque operations of a run in the order of their linearization points. */
  function Ops(s: State, acts: seq<Act>): seq<Op>
    requires Runs(s, acts)
    decreases |acts|
  {
    if acts == [] then [] else [OpOf(s, acts[0])] + Ops(Next(s, acts[0]), acts[1..])
  }

  function Replay(q: seq<Thread>, ops: seq<Op>): Option<seq<Thread>>
    decreases |ops|
  {
    if ops == [] then Some(q)
    else match Apply(q, ops[0]) case None => None case Some(q') => Replay(q', ops[1..])
  }

  function AddedBy(op: Op): multiset<Thread> {
    match op case AddTop(th) => multiset{th} case AddBase(th) => multiset{th} case _ => multiset{}
  }

  function RemovedBy(op: Op): multiset<Thread> {
    match op case RemTop(th) => multiset{th} case RemBase(th) => multiset{th} case _ => multiset{}
  }

  function Added(ops: seq<Op>): multiset<Thread>
    decreases |ops|
  {
    if ops == [] then multiset{} else AddedBy(ops[0]) + Added(ops[1..])
  }

  function Removed(ops: seq<Op>): multiset<Thread>
    decreases |ops|
  {
    if ops == [] then multiset{} else RemovedBy(ops[0]) + Removed(ops[1..])
  }

  // ----- what each worker is handed

  /** The threads that a step takes out of the queue for worker `w`. */
  function TakenBy(w: Agent, s: State, a: Act): seq<Thread>
    requires Enabled(s, a)
  {
    match OpOf(s, a)
    case RemTop(th) => if w == Owner then [th] else []
    case RemBase(th) => if a.PeerStep? && w == Peer(a.id) then [th] else []
    case _ => []
  }

  /** The threads that a step returns from pop or take to its caller `w`. */
  function ReturnedTo(w: Agent, s: State, a: Act): seq<Thread>
    requires Enabled(s, a)
  {
    match a
    case OwnerStep =>
      if w != Owner then []
      else (match s.opc
            case PopFast(top) => [At(Drain(s.mem, s.obuf).slots, top)]
            case PopUnlock(Some(th)) => [th]
            case _ => [])
    case PeerStep(id, _) =>
      if w != Peer(id) then []
      else (match s.peers[id].pc case TakeUnlock(Some(th)) => [th] case _ => [])
    case _ => []
  }

  /** A thread taken out of the queue but not yet returned. */
  function InHand(w: Agent, s: State): seq<Thread> {
    match w
    case Owner => (match s.opc case PopUnlock(Some(th)) => [th] case _ => [])
    case Peer(id) =>
      if id !in s.peers then [] else match s.peers[id].pc case TakeUnlock(Some(th)) => [th] case _ => []
  }

  function AllTakenBy(w: Agent, s: State, acts: seq<Act>): seq<Thread>
    requires Runs(s, acts)
    decreases |acts|
  {
    if acts == [] then [] else TakenBy(w, s, acts[0]) + AllTakenBy(w, Next(s, acts[0]), acts[1..])
  }

  function AllReturnedTo(w: Agent, s: State, acts: seq<Act>): seq<Thread>
    requires Runs(s, acts)
    decreases |acts|
  {
    if acts == [] then [] else ReturnedTo(w, s, acts[0]) + AllReturnedTo(w, Next(s, acts[0]), acts[1..])
  }

  // ----- the theorems

  lemma {:induction false} RunKeepsInv(s: State, acts: seq<Act>)
    requires Inv(s) && Runs(s, acts)
    ensures Inv(Exec(s, acts)) && |Exec(s, acts).mem.slots| == |s.mem.slots|
    ensures Replay(Abs(s), Ops(s, acts)) == Some(Abs(Exec(s, acts)))
    decreases |acts|
  {
    if acts != [] {
      StepGood(s, acts[0]);
      RunKeepsInv(Next(s, acts[0]), acts[1..]);
    }
  }

  /** Every run is a run of a sequential deque: the threads that pop reads at the
      top and take reads at the base, with the loads the code performs, are
      the ends of the sequential queue at that moment. */
  lemma EveryRunIsADequeRun(s: State, acts: seq<Act>)
    requires Init(s) && Runs(s, acts)
    ensures Replay([], Ops(s, acts)) == Some(Abs(Exec(s, acts)))
  {
    InitGood(s);
    RunKeepsInv(s, acts);
  }

  lemma ApplyConserves(q: seq<Thread>, op: Op)
    requires Apply(q, op).Some?
    ensures multiset(q) + AddedBy(op) == RemovedBy(op) + multiset(Apply(q, op).value)
  {
    match op
    case Nop =>
    case AddTop(th) => OneMore(q, q + [th], th);
    case AddBase(th) => OneMore(q, [th] + q, th);
    case RemTop(th) => OneLess(q, q[..|q| - 1], th);
    case RemBase(th) => OneLess(q, q[1..], th);
  }

  lemma OneMore(q: seq<Thread>, q': seq<Thread>, th: Thread)
    requires q' == q + [th] || q' == [th] + q
    ensures multiset(q) + multiset{th} == multiset{} + multiset(q')
  {
    assert multiset(q + [th]) == multiset(q) + multiset{th} && multiset([th] + q) == multiset{th} + multiset(q);
  }

  lemma OneLess(q: seq<Thread>, q': seq<Thread>, th: Thread)
    requires q != [] && ((q' == q[..|q| - 1] && th == q[|q| - 1]) || (q' == q[1..] && th == q[0]))
    ensures multiset(q) + multiset{} == multiset{th} + multiset(q')
  {
    assert q == q' + [th] || q == [th] + q';
    assert multiset(q' + [th]) == multiset(q') + multiset{th} && multiset([th] + q') == multiset{th} + multiset(q');
  }

  lemma Balance(q: multiset<Thread>, a: multiset<Thread>, later: multiset<Thread>,
                r: multiset<Thread>, q1: multiset<Thread>, rs: multiset<Thread>, q2: multiset<Thread>)
    requires q + a == r + q1 && q1 + later == rs + q2
    ensures q + (a + later) == (r + rs) + q2
  {
    assert q + (a + later) == (q + a) + later;
    assert (r + q1) + later == r + (q1 + later);
  }

  lemma {:induction false} ReplayConserves(q: seq<Thread>, ops: seq<Op>)
    requires Replay(q, ops).Some?
    ensures multiset(q) + Added(ops) == Removed(ops) + multiset(Replay(q, ops).value)
    decreases |ops|
  {
    if ops != [] {
      var q' := Apply(q, ops[0]).value;
      ApplyConserves(q, ops[0]);
      ReplayConserves(q', ops[1..]);
      Balance(multiset(q), AddedBy(ops[0]), Added(ops[1..]),
        RemovedBy(ops[0]), multiset(q'), Removed(ops[1..]), multiset(Replay(q', ops[1..]).value));
    }
  }

  /** Exactly once: what was inserted is what was removed plus what is queued. */
  lemma NothingLostNothingDoubled(s: State, acts: seq<Act>)
    requires Init(s) && Runs(s, acts)
    ensures Added(Ops(s, acts)) == Removed(Ops(s, acts)) + multiset(Abs(Exec(s, acts)))
  {
    EveryRunIsADequeRun(s, acts);
    ReplayConserves([], Ops(s, acts));
  }

  lemma OwnerHands(w: Agent, s: State)
    requires Enabled(s, OwnerStep)
    ensures InHand(w, s) + TakenBy(w, s, OwnerStep) == ReturnedTo(w, s, OwnerStep) + InHand(w, Next(s, OwnerStep))
  {
    assert Next(s, OwnerStep).peers == s.peers;
    match s.opc
    case PopCs(_) =>
    case PopUnlock(_) =>
    case PopFast(_) =>
    case _ =>
  }

  lemma PeerHands(w: Agent, s: State, id: nat, accept: bool)
    requires Enabled(s, PeerStep(id, accept))
    ensures var a := PeerStep(id, accept);
      InHand(w, s) + TakenBy(w, s, a) == ReturnedTo(w, s, a) + InHand(w, Next(s, a))
  {
    assert Next(s, PeerStep(id, accept)).opc == s.opc;
  }

  lemma StepHands(w: Agent, s: State, a: Act)
    requires Enabled(s, a)
    ensures InHand(w, s) + TakenBy(w, s, a) == ReturnedTo(w, s, a) + InHand(w, Next(s, a))
  {
    match a
    case OwnerStep => OwnerHands(w, s);
    case PeerStep(id, accept) => PeerHands(w, s, id, accept);
    case _ => assert InHand(w, Next(s, a)) == InHand(w, s);
  }

  lemma Regroup<T>(h: seq<T>, t: seq<T>, ts: seq<T>, r: seq<T>, h1: seq<T>, rs: seq<T>, h2: seq<T>)
    requires h + t == r + h1 && h1 + ts == rs + h2
    ensures h + (t + ts) == (r + rs) + h2
  {
    assert h + (t + ts) == (h + t) + ts;
    assert (r + h1) + ts == r + (h1 + ts);
  }

  /** Each worker is returned exactly the threads it took, in the same order; at
      most the last one is still in its hand. */
  lemma {:induction false} EachWorkerGetsWhatItTook(w: Agent, s: State, acts: seq<Act>)
    requires Runs(s, acts)
    ensures InHand(w, s) + AllTakenBy(w, s, acts) == AllReturnedTo(w, s, acts) + InHand(w, Exec(s, acts))
    decreases |acts|
  {
    if acts != [] {
      var s1 := Next(s, acts[0]);
      StepHands(w, s, acts[0]);
      EachWorkerGetsWhatItTook(w, s1, acts[1..]);
      Regroup(InHand(w, s), TakenBy(w, s, acts[0]), AllTakenBy(w, s1, acts[1..]),
        ReturnedTo(w, s, acts[0]), InHand(w, s1), AllReturnedTo(w, s1, acts[1..]), InHand(w, Exec(s1, acts[1..])));
    }
  }

  lemma FullAt(s: State)
    requires Inv(s) && (s.opc.PushShift? || s.opc.PutCs?)
    ensures Enabled(s, OwnerStep)
    ensures Next(s, OwnerStep).opc.Overflow? <==> |Abs(s)| == |s.mem.slots|
  {
    assert Full(s) == s.mem;
  }

  lemma EmptyAt(s: State)
    requires Inv(s) && s.opc.PopCs? && Next(s, OwnerStep).opc == PopUnlock(None)
    ensures Abs(s) == [] == Abs(Next(s, OwnerStep))
  {
    StepGood(s, OwnerStep);
    assert Full(s) == s.mem;
  }

  /** The slots that a step reads, or hands to the store buffer. */
  function SlotsUsed(s: State, a: Act): seq<int>
    requires Enabled(s, a)
  {
    match a
    case OwnerStep =>
      var v := Drain(s.mem, s.obuf);
      (match s.opc
       case PushFence(_) => if s.mem.top == |s.mem.slots| then [] else [s.mem.top]
       case PushUnlock(_) => [s.mem.top]
       case PushShift(_) => if v.base == 0 || v.base == v.top then []
                            else var offset := -((v.base + 1) / 2); [v.base, v.top - 1, v.base + offset, v.top + offset - 1]
       case PopFast(top) => [top]
       case PopCs(top) => if v.base <= top then [top] else []
       case PutCs(_) =>
         var offset := (|s.mem.slots| - v.top + 1) / 2;
         if v.base != 0 then [v.base - 1]
         else if v.top == |s.mem.slots| then []
         else [offset - 1] + if v.top == 0 then [] else [0, v.top - 1, offset, v.top + offset - 1]
       case _ => [])
    case PeerStep(id, _) =>
      (match s.peers[id].pc
       case TakeLoad(_, b) => [b]
       case PassCs(_) => if s.mem.base == 0 then [] else [s.mem.base - 1]
       case _ => [])
    case _ => []
  }

  lemma BoundsAt(s: State, a: Act)
    requires Inv(s) && Enabled(s, a)
    ensures forall i :: i in SlotsUsed(s, a) ==> 0 <= i < |s.mem.slots|
  {
    HolderFacts(s);
    if a.OwnerStep? && s.opc.PopFast? {
      QuietFacts(s);
    } else if a.OwnerStep? && OwnerInCs(s.opc) {
      assert Full(s) == Drain(s.mem, s.obuf);
    } else if a.PeerStep? && s.peers[a.id].pc.PassCs? {
      QuietFacts(s);
    }
  }

  /** The hinted thread is the thread at the base, unless a store that replaces it is already on
      its way from a worker that holds the lock. */
  ghost predicate HintGood(s: State) {
    || (Abs(s) != [] && s.mem.cache == Abs(s)[0])
    || (s.mem.lock != None && exists th :: SetCache(th) in HolderBuf(s) + s.obuf)
  }

  lemma HintAt(s: State)
    requires Inv(s) && s.hinted && s.mem.cache != NULL
    ensures HintGood(s)
  {
    HolderFacts(s);
    if forall th :: SetCache(th) !in HolderBuf(s) + s.obuf {
      NoNewHint(s);
      assert Lo(s) < Cap(s) && s.mem.cache == At(Full(s).slots, Lo(s));
      assert Abs(s)[0] == Full(s).slots[Lo(s)];
    } else {
      var th :| SetCache(th) in HolderBuf(s) + s.obuf;
      LockHeld(s, th);
    }
  }

  lemma NoNewHint(s: State)
    requires forall th :: SetCache(th) !in HolderBuf(s) + s.obuf
    ensures Full(s).cache == s.mem.cache
  {
    forall k | 0 <= k < |HolderBuf(s)| ensures !HolderBuf(s)[k].SetCache? {
      assert HolderBuf(s)[k] in HolderBuf(s) + s.obuf;
    }
    forall k | 0 <= k < |s.obuf| ensures !s.obuf[k].SetCache? {
      assert s.obuf[k] in HolderBuf(s) + s.obuf;
    }
    DrainNoCache(s.mem, HolderBuf(s));
    DrainNoCache(Drain(s.mem, HolderBuf(s)), s.obuf);
  }

  /** Only a lock holder replaces the hint. */
  lemma LockHeld(s: State, th: Thread)
    requires Inv(s) && SetCache(th) in HolderBuf(s) + s.obuf
    ensures s.mem.lock != None
  {
    if !OwnerInCs(s.opc) { QuietNoHint(s, th); }
  }

  lemma QuietNoHint(s: State, th: Thread)
    requires OwnerQuiet(s)
    ensures SetCache(th) !in s.obuf
  {
    forall k | 0 <= k < |s.obuf| ensures s.obuf[k] != SetCache(th) {
      assert QuietStore(s.obuf[k], k, s.obuf, s.mem.top, Lo(s), Hi(s));
    }
  }

  // ----- in every reachable state

  lemma Reachable(s: State, acts: seq<Act>)
    requires Init(s) && Runs(s, acts)
    ensures Inv(Exec(s, acts)) && |Exec(s, acts).mem.slots| == |s.mem.slots|
  {
    InitGood(s);
    RunKeepsInv(s, acts);
  }

  /** Under the lock push and put go on to their overflow abort exactly when every slot of the
      array is queued. */
  lemma OverflowMeansFull(s: State, acts: seq<Act>)
    requires Init(s) && Runs(s, acts) && (Exec(s, acts).opc.PushShift? || Exec(s, acts).opc.PutCs?)
    ensures var e := Exec(s, acts);
      Enabled(e, OwnerStep) && (Next(e, OwnerStep).opc.Overflow? <==> |Abs(e)| == |s.mem.slots|)
  {
    Reachable(s, acts);
    FullAt(Exec(s, acts));
  }

  /** Pop answers NULL under the lock only when the queue is empty. */
  lemma LockedNullMeansEmpty(s: State, acts: seq<Act>)
    requires Init(s) && Runs(s, acts) && Exec(s, acts).opc.PopCs?
    requires Enabled(Exec(s, acts), OwnerStep) && Next(Exec(s, acts), OwnerStep).opc == PopUnlock(None)
    ensures Abs(Exec(s, acts)) == [] == Abs(Next(Exec(s, acts), OwnerStep))
  {
    Reachable(s, acts);
    EmptyAt(Exec(s, acts));
  }

  /** No access leaves the array, whatever tentative values base and top show. */
  lemma AccessesInBounds(s: State, acts: seq<Act>, a: Act, i: int)
    requires Init(s) && Runs(s, acts) && Enabled(Exec(s, acts), a) && i in SlotsUsed(Exec(s, acts), a)
    ensures 0 <= i < |s.mem.slots|
  {
    Reachable(s, acts);
    BoundsAt(Exec(s, acts), a);
  }

  /** With push, pop, hinted take and hinted peek running, a cached thread is a good hint. */
  lemma HintIsTheBase(s: State, acts: seq<Act>)
    requires Init(s) && s.hinted && Runs(s, acts) && Exec(s, acts).mem.cache != NULL
    ensures HintGood(Exec(s, acts))
  {
    Reachable(s, acts);
    StaysHinted(s, acts);
    HintAt(Exec(s, acts));
  }

  lemma {:induction false} StaysHinted(s: State, acts: seq<Act>)
    requires Runs(s, acts)
    ensures Exec(s, acts).hinted == s.hinted
    decreases |acts|
  {
    if acts != [] {
      HintedStep(s, acts[0]);
      StaysHinted(Next(s, acts[0]), acts[1..]);
    }
  }

  lemma HintedStep(s: State, a: Act)
    requires Enabled(s, a)
    ensures Next(s, a).hinted == s.hinted
  {
    hide Drain, Copy;
  }
}
