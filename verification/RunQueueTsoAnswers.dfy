/** What the calls on the run queue ask for and are answered, read off the acts of a run: every
    push, put and pass adds the thread that it was called with, at its end, or is refused; NULL is
    answered for an empty queue; and a call left alone comes to an end. */
module RunQueueTsoAnswers {
  import opened Base
  import opened RunQueueTso
  import opened RunQueueTsoInv
  import opened RunQueueTsoSteps
  import opened RunQueueTsoTheorems

  // ----- every addition was asked for

  /** What agent w asks to have added. */
  function AskedBy(w: Agent, a: Act): seq<Op> {
    match a
    case CallPush(th) => if w == Owner then [AddTop(th)] else []
    case CallPut(th) => if w == Owner then [AddBase(th)] else []
    case CallPass(id, th) => if w == Peer(id) then [AddBase(th)] else []
    case _ => []
  }

  /** How a request ends: with the addition, or with a refusal or the overflow abort. */
  datatype Settled = Done(op: Op) | Refused(op: Op)

  function SettledBy(w: Agent, s: State, a: Act): seq<Settled>
    requires Enabled(s, a)
  {
    var op := OpOf(s, a);
    if (op.AddTop? || op.AddBase?) && w == (if a.PeerStep? then Peer(a.id) else Owner) then [Done(op)]
    else match a
      case OwnerStep =>
        if w != Owner || !OwnerNext(s).opc.Overflow? || s.opc.Overflow? then []
        else (match s.opc
              case PushShift(th) => [Refused(AddTop(th))]
              case PutCs(th) => [Refused(AddBase(th))]
              case _ => [])
      case PeerStep(id, _) => if w == Peer(id) && s.peers[id].pc.PassCs? then [Refused(AddBase(s.peers[id].pc.th))] else []
      case TryFail(id) => if w == Peer(id) && s.peers[id].pc.PassLock? then [Refused(AddBase(s.peers[id].pc.th))] else []
      case _ => []
  }

  /** The request under way. */
  function InFlight(w: Agent, s: State): seq<Op> {
    match w
    case Owner =>
      (match s.opc
       case PushFence(th) => [AddTop(th)]
       case PushLock(th) => [AddTop(th)]
       case PushShift(th) => [AddTop(th)]
       case PushUnlock(th) => [AddTop(th)]
       case PutLock(th) => [AddBase(th)]
       case PutCs(th) => [AddBase(th)]
       case _ => [])
    case Peer(id) =>
      if id !in s.peers then []
      else (match s.peers[id].pc
            case PassLock(th) => [AddBase(th)]
            case PassCs(th) => [AddBase(th)]
            case _ => [])
  }

  function Requests(x: seq<Settled>): seq<Op> {
    seq(|x|, k requires 0 <= k < |x| => x[k].op)
  }

  lemma StepSettles(w: Agent, s: State, a: Act)
    requires Enabled(s, a)
    ensures InFlight(w, s) + AskedBy(w, a) == Requests(SettledBy(w, s, a)) + InFlight(w, Next(s, a))
  {
    hide OwnerNext, PeerNext, Drain;
    OneEach();
    match a
    case OwnerStep => OwnerSettles(w, s);
    case PeerStep(id, accept) => PeerSettles(w, s, id, accept);
    case CallPush(_) =>
    case CallPop =>
    case CallPut(_) =>
    case CallTake(_, _) =>
    case CallPass(_, _) =>
    case OwnerFlush =>
    case TryFail(_) =>
    case PeerFlush(_) =>
  }

  lemma OwnerSettles(w: Agent, s: State)
    requires Enabled(s, OwnerStep)
    ensures InFlight(w, s) == Requests(SettledBy(w, s, OwnerStep)) + InFlight(w, Next(s, OwnerStep))
  {
    hide Drain, Copy;
    assert Next(s, OwnerStep).peers == s.peers;
    if w == Owner {
      OneEach();
      match s.opc
      case PushFence(_) =>
      case PushLock(_) =>
      case PushShift(_) =>
      case PushUnlock(_) =>
      case PopDec =>
      case PopFence(_) =>
      case PopFast(_) =>
      case PopLock(_) =>
      case PopCs(_) =>
      case PopUnlock(_) =>
      case PutLock(_) =>
      case PutCs(_) => DrainSize(s.mem, s.obuf);
      case PutUnlock =>
    }
  }

  lemma OneEach()
    ensures Requests([]) == [] && forall x: Settled :: Requests([x]) == [x.op]
  {
  }

  lemma PeerSettles(w: Agent, s: State, id: nat, accept: bool)
    requires Enabled(s, PeerStep(id, accept))
    ensures InFlight(w, s) == Requests(SettledBy(w, s, PeerStep(id, accept))) + InFlight(w, Next(s, PeerStep(id, accept)))
  {
    hide Drain, Copy;
  }

  function AllAsked(w: Agent, acts: seq<Act>): seq<Op>
    decreases |acts|
  {
    if acts == [] then [] else AskedBy(w, acts[0]) + AllAsked(w, acts[1..])
  }

  function AllSettled(w: Agent, s: State, acts: seq<Act>): seq<Settled>
    requires Runs(s, acts)
    decreases |acts|
  {
    if acts == [] then [] else SettledBy(w, s, acts[0]) + AllSettled(w, Next(s, acts[0]), acts[1..])
  }

  lemma RequestsOf(x: seq<Settled>, y: seq<Settled>)
    ensures Requests(x + y) == Requests(x) + Requests(y)
  {
  }

  lemma {:induction false} RunSettles(w: Agent, s: State, acts: seq<Act>)
    requires Runs(s, acts)
    ensures InFlight(w, s) + AllAsked(w, acts) == Requests(AllSettled(w, s, acts)) + InFlight(w, Exec(s, acts))
    decreases |acts|
  {
    hide Enabled, Next, SettledBy, AskedBy, InFlight;
    if acts == [] {
      OneEach();
    } else {
      var s1 := Next(s, acts[0]);
      StepSettles(w, s, acts[0]);
      RunSettles(w, s1, acts[1..]);
      RequestsOf(SettledBy(w, s, acts[0]), AllSettled(w, s1, acts[1..]));
      Regroup(InFlight(w, s), AskedBy(w, acts[0]), AllAsked(w, acts[1..]),
        Requests(SettledBy(w, s, acts[0])), InFlight(w, s1), Requests(AllSettled(w, s1, acts[1..])), InFlight(w, Exec(s, acts)));
    }
  }

  /** In every run what each worker was asked to push, put or pass is settled in that order, at the
      end that the call names: added by the operation of the deque, or refused; at most the last
      request is still under way. */
  lemma EveryRequestIsSettled(w: Agent, s: State, acts: seq<Act>)
    requires Init(s) && Runs(s, acts)
    ensures AllAsked(w, acts) == Requests(AllSettled(w, s, acts)) + InFlight(w, Exec(s, acts))
  {
    hide Runs, Exec;
    RunSettles(w, s, acts);
    assert InFlight(w, s) == [];
  }

  /** A request is refused exactly for a full array, or, of a pass, when its trylock fails or the
      base is at the bottom; and the answer of pass says so. */
  lemma RefusalIsRight(s: State, acts: seq<Act>, a: Act, w: Agent, op: Op)
    requires Init(s) && Runs(s, acts) && Enabled(Exec(s, acts), a) && Refused(op) in SettledBy(w, Exec(s, acts), a)
    ensures var e := Exec(s, acts);
      match a
      case OwnerStep => |Abs(e)| == |s.mem.slots|
      case PeerStep(id, _) => e.mem.base == 0 && Next(e, a).peers[id].pc == PassUnlock(false)
      case TryFail(id) => e.mem.lock != None && Next(e, a).peers[id].pc == PIdle
      case _ => false
  {
    hide Runs, Exec, Inv, Abs, Drain;
    Reachable(s, acts);
    var e := Exec(s, acts);
    if a.OwnerStep? { OverflowMeansFull(s, acts); }
  }

  lemma PassIsAnswered(s: State, id: nat, accept: bool)
    requires Enabled(s, PeerStep(id, accept)) && s.peers[id].pc.PassCs?
    ensures var p := Next(s, PeerStep(id, accept)).peers[id].pc; var op := OpOf(s, PeerStep(id, accept));
      p.PassUnlock? && (p.ok <==> op == AddBase(s.peers[id].pc.th)) && (!p.ok <==> op == Nop && s.mem.base == 0)
  {
  }

  // ----- what NULL means

  /** Nobody holds the lock and the owner has nothing tentative or buffered. */
  predicate Calm(s: State) {
    s.obuf == [] && s.mem.lock == None && !Popping(s.opc)
  }

  /** Then the queue is what lies in memory. */
  lemma CalmQueue(s: State)
    requires Inv(s) && Calm(s)
    ensures 0 <= s.mem.base <= s.mem.top <= |s.mem.slots| && Abs(s) == s.mem.slots[s.mem.base..s.mem.top]
  {
    assert HolderBuf(s) == [] && HolderPc(s) == PIdle;
    assert Full(s) == s.mem;
  }

  /** pop answers NULL at once only for an empty queue, or for a single thread that a peer, holding
      the lock, is about to take or has just put back or passed; and always for an empty queue that
      no peer is at work on. */
  lemma QuickPopNull(s: State, acts: seq<Act>)
    requires Init(s) && Runs(s, acts) && Enabled(Exec(s, acts), CallPop)
    ensures var e := Exec(s, acts); Next(e, CallPop).opc == OIdle ==>
      Next(e, CallPop) == e && |Abs(e)| <= 1 && (Abs(e) != [] ==> HolderPc(e) != PIdle)
    ensures var e := Exec(s, acts); Abs(e) == [] && HolderPc(e) == PIdle ==> Next(e, CallPop).opc == OIdle
  {
    Reachable(s, acts);
    QuickPopAt(Exec(s, acts));
  }

  lemma {:induction false} BaseNotBelow(m: Memory, buf: seq<Store>, bound: int)
    requires m.base >= bound && forall k :: 0 <= k < |buf| ==> buf[k].SetBase? ==> buf[k].v >= bound
    ensures Drain(m, buf).base >= bound
    decreases |buf|
  {
    if buf != [] { BaseNotBelow(Drain1(m, buf[0]), buf[1..], bound); }
  }

  /** The announced base is the logical one, or the next. */
  lemma BaseIsNear(s: State)
    requires Inv(s) && !OwnerInCs(s.opc)
    ensures s.mem.base - 1 <= Lo(s) <= s.mem.base
    ensures HolderPc(s) == PIdle ==> Lo(s) == s.mem.base
  {
    LoBelowBase(s);
    QuietFacts(s);
    var buf := HolderBuf(s);
    if HolderPc(s).TakeUnlock? || HolderPc(s).PassUnlock? {
      assert forall k :: 0 <= k < |buf| ==> HolderStore(buf[k], k, buf, s.mem.base);
      BaseNotBelow(s.mem, buf, s.mem.base - 1);
    } else {
      assert forall k :: 0 <= k < |buf| ==> !buf[k].SetBase? || HolderPc(s).TakeFence?;
      if !HolderPc(s).TakeFence? { DrainNoBase(s.mem, buf); }
    }
  }

  /** What the owner sees of its queue when it calls. */
  lemma OwnersView(s: State)
    requires Inv(s) && s.opc == OIdle
    ensures Drain(s.mem, s.obuf).top == Hi(s) && Drain(s.mem, s.obuf).base == s.mem.base
  {
    HolderFacts(s);
    TopsAgree(s.mem, Drain(s.mem, HolderBuf(s)), s.obuf);
    forall k | 0 <= k < |s.obuf| ensures !s.obuf[k].SetBase? {
      assert QuietStore(s.obuf[k], k, s.obuf, s.mem.top, Lo(s), Hi(s));
    }
    DrainNoBase(s.mem, s.obuf);
  }

  lemma QuickPopAt(s: State)
    requires Inv(s) && Enabled(s, CallPop)
    ensures Next(s, CallPop).opc == OIdle ==>
      Next(s, CallPop) == s && |Abs(s)| <= 1 && (Abs(s) != [] ==> HolderPc(s) != PIdle)
    ensures Abs(s) == [] && HolderPc(s) == PIdle ==> Next(s, CallPop).opc == OIdle
  {
    hide Drain, OwnerQuiet, PeersOk, SlotsApart, CacheOk;
    OwnersView(s);
    BaseIsNear(s);
    HolderFacts(s);
  }

  /** Where a take finds nothing under the lock, a calm owner has nothing queued. */
  lemma TakeNull(s: State, acts: seq<Act>, id: nat, accept: bool)
    requires Init(s) && Runs(s, acts) && Enabled(Exec(s, acts), PeerStep(id, accept))
    requires Exec(s, acts).peers[id].pc.TakeFence?
    ensures var e := Exec(s, acts); var p := Next(e, PeerStep(id, accept)).peers[id].pc;
      && (p.TakeLoad? || p == TakeUnlock(None))
      && (p.TakeLoad? ==> Abs(e) != [] && Lo(e) == p.b)
      && (p == TakeUnlock(None) && e.obuf == [] && !Popping(e.opc) ==> Abs(e) == [])
  {
    Reachable(s, acts);
    TakeNullAt(Exec(s, acts), id, accept);
  }

  lemma TakeNullAt(s: State, id: nat, accept: bool)
    requires Inv(s) && Enabled(s, PeerStep(id, accept)) && s.peers[id].pc.TakeFence?
    ensures var p := Next(s, PeerStep(id, accept)).peers[id].pc;
      && (p.TakeLoad? || p == TakeUnlock(None))
      && (p.TakeLoad? ==> Abs(s) != [] && Lo(s) == p.b)
      && (p == TakeUnlock(None) && s.obuf == [] && !Popping(s.opc) ==> Abs(s) == [])
  {
    HolderFacts(s);
    QuietFacts(s);
  }

  /** And at once a take answers NULL only for what it has just seen empty. */
  lemma QuickTakeNull(s: State, acts: seq<Act>, id: nat, accept: bool)
    requires Init(s) && Runs(s, acts) && Enabled(Exec(s, acts), PeerStep(id, accept))
    requires Exec(s, acts).peers[id].pc.QuickBase? && Calm(Exec(s, acts))
    requires Exec(s, acts).peers[id].pc.top == Exec(s, acts).mem.top
    ensures var e := Exec(s, acts); var p := Next(e, PeerStep(id, accept)).peers[id].pc;
      if Abs(e) == [] then p == PIdle else p == TakeLock(e.peers[id].pc.kind)
  {
    Reachable(s, acts);
    CalmQueue(Exec(s, acts));
  }

  // ----- which body a peer is in

  predicate InTake(pc: PeerPc) {
    pc.QuickTop? || pc.QuickBase? || pc.TakeLock? || pc.TakeCs? || pc.TakeFence? || pc.TakeLoad?
  }

  /** The last call of peer id: a take of some kind, or None for a pass. */
  function LastKind(acts: seq<Act>, id: nat, before: Option<Kind>): Option<Kind>
    decreases |acts|
  {
    if acts == [] then before
    else LastKind(acts[1..], id,
      match acts[0]
      case CallTake(i, k) => if i == id then Some(k) else before
      case CallPass(i, _) => if i == id then None else before
      case _ => before)
  }

  predicate Kinded(pc: PeerPc, k: Option<Kind>) {
    && (InTake(pc) ==> k == Some(pc.kind))
    && (pc.TakeUnlock? ==> k.Some?)
    && (pc.PassLock? || pc.PassCs? || pc.PassUnlock? ==> k == None)
  }

  lemma StepKinds(s: State, a: Act, id: nat, k: Option<Kind>)
    requires Enabled(s, a) && id in s.peers && Kinded(s.peers[id].pc, k)
    ensures id in Next(s, a).peers && Kinded(Next(s, a).peers[id].pc, LastKind([a], id, k))
    ensures a.CallTake? && a.id == id ==> InTake(Next(s, a).peers[id].pc)
    ensures a.CallPass? && a.id == id ==> Next(s, a).peers[id].pc == PassLock(a.th)
  {
    hide Drain, Copy;
    assert [a][1..] == [];
    if a.OwnerStep? { assert Next(s, a).peers == s.peers; }
  }

  lemma {:induction false} RunKinds(s: State, acts: seq<Act>, id: nat, k: Option<Kind>)
    requires Runs(s, acts) && id in s.peers && Kinded(s.peers[id].pc, k)
    ensures id in Exec(s, acts).peers && Kinded(Exec(s, acts).peers[id].pc, LastKind(acts, id, k))
    decreases |acts|
  {
    hide Enabled, Next, Kinded;
    if acts != [] {
      StepKinds(s, acts[0], id, k);
      assert [acts[0]][1..] == [];
      RunKinds(Next(s, acts[0]), acts[1..], id, LastKind([acts[0]], id, k));
    }
  }

  /** In every run a peer is in the body of the kind that it was last called for. */
  lemma EveryBodyIsTheOneCalled(s: State, acts: seq<Act>, id: nat)
    requires Init(s) && Runs(s, acts) && id in s.peers
    ensures id in Exec(s, acts).peers && Kinded(Exec(s, acts).peers[id].pc, LastKind(acts, id, None))
  {
    RunKinds(s, acts, id, None);
  }

  /** A take ends without a thread only where it has seen none, where it peeks, where the decision
      function declines or where a hinted take gives way to the lock holder; else with the one at
      the base. */
  ghost predicate TakeRight(s: State, a: Act, id: nat)
    requires Enabled(s, a) && id in s.peers && id in Next(s, a).peers && InTake(s.peers[id].pc)
  {
    var p, p' := s.peers[id].pc, Next(s, a).peers[id].pc;
    || (InTake(p') && p'.kind == p.kind && (p.QuickTop? ==> p' == p || p' == QuickBase(p.kind, s.mem.top)))
    || (p.QuickBase? && p.top <= s.mem.base && p' == PIdle)
    || (a == TryFail(id) && s.mem.lock != None && p.kind == WsTake && p' == PIdle)
    || (p.TakeFence? && s.mem.top <= p.b && p' == TakeUnlock(None))
    || (p.TakeCs? && p.kind == WsPeek && s.mem.cache != NULL && p' == TakeUnlock(None))
    || (p.TakeLoad? && p.kind == WsPeek && p' == TakeUnlock(None))
    || (p.TakeLoad? && p.kind == WsTake && a == PeerStep(id, false) && p' == TakeUnlock(None))
    || (p.TakeLoad? && Abs(s) != [] && p' == TakeUnlock(Some(Abs(s)[0])) && Abs(Next(s, a)) == Abs(s)[1..])
  }

  lemma EveryTakeIsAnswered(s: State, acts: seq<Act>, id: nat, a: Act)
    requires Init(s) && Runs(s, acts) && Enabled(Exec(s, acts), a)
    requires id in Exec(s, acts).peers && InTake(Exec(s, acts).peers[id].pc)
    ensures id in Next(Exec(s, acts), a).peers && TakeRight(Exec(s, acts), a, id)
  {
    hide Runs, Exec, Inv, TakeRight, Enabled, Next;
    Reachable(s, acts);
    TakeIsRight(Exec(s, acts), a, id);
  }

  lemma TakeIsRight(s: State, a: Act, id: nat)
    requires Inv(s) && Enabled(s, a) && id in s.peers && InTake(s.peers[id].pc)
    ensures id in Next(s, a).peers && TakeRight(s, a, id)
  {
    hide Inv, TakeRight, Next, Enabled;
    if a.PeerStep? && a.id == id {
      if s.peers[id].pc.TakeLoad? { LoadIsRight(s, id, a.accept); } else { BodyIsRight(s, id, a.accept); }
    } else {
      OthersAct(s, a, id);
    }
  }

  lemma BodyIsRight(s: State, id: nat, accept: bool)
    requires Enabled(s, PeerStep(id, accept)) && InTake(s.peers[id].pc) && !s.peers[id].pc.TakeLoad?
    ensures id in Next(s, PeerStep(id, accept)).peers && TakeRight(s, PeerStep(id, accept), id)
  {
    hide Abs, Drain;
    match s.peers[id].pc
    case QuickTop(_) =>
    case QuickBase(_, _) =>
    case TakeLock(_) =>
    case TakeCs(_) =>
    case TakeFence(_, _) =>
  }

  lemma OthersAct(s: State, a: Act, id: nat)
    requires Enabled(s, a) && id in s.peers && InTake(s.peers[id].pc) && !(a.PeerStep? && a.id == id)
    ensures id in Next(s, a).peers && TakeRight(s, a, id)
  {
    hide Abs, Drain, PeerNext;
    if a.OwnerStep? { assert Next(s, a).peers == s.peers; }
    hide OwnerNext;
  }

  lemma LoadIsRight(s: State, id: nat, accept: bool)
    requires Inv(s) && Enabled(s, PeerStep(id, accept)) && s.peers[id].pc.TakeLoad?
    ensures id in Next(s, PeerStep(id, accept)).peers && TakeRight(s, PeerStep(id, accept), id)
  {
    hide Drain, Full, Abs, OwnerOk, SlotsApart, Bounds, CacheOk, HintedOk;
    StepGood(s, PeerStep(id, accept));
    TakeReads(s, id);
    hide Inv;
  }

  // ----- a call left alone

  function OwnerWeight(opc: OwnerPc): nat {
    match opc
    case OIdle => 0
    case Overflow => 0
    case PushFence(_) => 4
    case PushLock(_) => 3
    case PushShift(_) => 2
    case PushUnlock(_) => 1
    case PopDec => 5
    case PopFence(_) => 4
    case PopFast(_) => 1
    case PopLock(_) => 3
    case PopCs(_) => 2
    case PopUnlock(_) => 1
    case PutLock(_) => 3
    case PutCs(_) => 2
    case PutUnlock => 1
  }

  /** The steps and flushes that the owner's call still takes, at most. */
  function OwnerLeft(s: State): nat {
    OwnerWeight(s.opc) * (|s.mem.slots| + 6) + |s.obuf|
  }

  function PeerWeight(pc: PeerPc): nat {
    match pc
    case PIdle => 0
    case QuickTop(_) => 8
    case QuickBase(_, _) => 7
    case TakeLock(_) => 6
    case TakeCs(_) => 5
    case TakeFence(_, _) => 4
    case TakeLoad(_, _) => 3
    case TakeUnlock(_) => 1
    case PassLock(_) => 3
    case PassCs(_) => 2
    case PassUnlock(_) => 1
  }

  function PeerLeft(p: PeerState): nat { 4 * PeerWeight(p.pc) + |p.buf| }

  lemma Weigh(w: nat, w': nat, m: nat, k: nat, k': nat)
    requires w' < w && k' < k + m
    ensures w' * m + k' < w * m + k
  {
    Distribute(w', w - w', m);
    Distribute(1, w - w' - 1, m);
  }

  lemma Distribute(x: nat, y: nat, m: nat)
    ensures (x + y) * m == x * m + y * m && y * m >= 0
  {
  }

  lemma CopySize(slots: seq<Thread>, at: int, lo: int, hi: int)
    ensures |Copy(at, Slice(slots, lo, hi))| <= |slots|
  {
  }

  /** What a step of the owner adds to its buffer. */
  lemma OwnerAdds(s: State)
    requires Enabled(s, OwnerStep)
    ensures var s' := Next(s, OwnerStep);
      && OwnerWeight(s'.opc) < OwnerWeight(s.opc) && |s'.mem.slots| == |s.mem.slots| && |s'.obuf| <= |s.obuf| + |s.mem.slots| + 5
  {
    var v := Drain(s.mem, s.obuf);
    DrainSize(s.mem, s.obuf);
    hide Drain, Copy, Slice;
    match s.opc
    case PushShift(_) => CopySize(v.slots, v.base - (v.base + 1) / 2, v.base, v.top);
    case PutCs(_) => CopySize(v.slots, (|s.mem.slots| - v.top + 1) / 2, 0, v.top);
    case _ =>
  }

  /** Each step and each flush of the owner is one less of them; and unless another holds the lock
      that it needs, there is one. */
  lemma OwnerRunsOut(s: State, a: Act)
    requires Enabled(s, a) && (a.OwnerStep? || a.OwnerFlush?)
    ensures OwnerLeft(Next(s, a)) < OwnerLeft(s)
  {
    if a.OwnerStep? {
      OwnerAdds(s);
      hide Next, Enabled;
      var s' := Next(s, a);
      Weigh(OwnerWeight(s.opc), OwnerWeight(s'.opc), |s.mem.slots| + 6, |s.obuf|, |s'.obuf|);
    }
  }

  lemma OwnerGoesOn(s: State)
    requires s.opc != OIdle && !s.opc.Overflow?
    requires s.opc.PushLock? || s.opc.PopLock? || s.opc.PutLock? ==> s.mem.lock == None
    ensures Enabled(s, OwnerStep) || Enabled(s, OwnerFlush)
  {
  }

  lemma PeerRunsOut(s: State, id: nat, a: Act)
    requires Enabled(s, a) && (a == PeerFlush(id) || (a.PeerStep? && a.id == id))
    ensures id in Next(s, a).peers && PeerLeft(Next(s, a).peers[id]) < PeerLeft(s.peers[id])
  {
  }

  lemma PeerGoesOn(s: State, id: nat)
    requires id in s.peers && s.peers[id].pc != PIdle
    requires s.peers[id].pc.TakeLock? || s.peers[id].pc.PassLock? ==> s.mem.lock == None
    ensures Enabled(s, PeerStep(id, true)) || Enabled(s, PeerFlush(id))
  {
  }
}
