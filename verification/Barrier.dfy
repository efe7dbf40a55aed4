/** The thread barrier with its lock-free sleep stack, used again and again by a
    fixed set of participants.  Every shared access is a step: the stack's top
    and the `next` fields are real pointers, read and swung by separate steps.

    `stack`, `woken`, `leader`, `gen`, `arrived`, `returned` and `serials` are
    history variables: no step looks at them to decide what to do. */
module Barrier {
  import opened Base
  import opened Counting

  type Tid = nat
  type Ptr = Option<Tid>

  datatype Pc =
    | Out
    | Read
    | Cas(c: int)
    | PushRead                                             // about to enter the sleep stack
    | PushLink(t: Ptr)
    | PushCas(t: Ptr)
    | Asleep
    | Reset(want: int)                                     // the last arriver
    | PopRead(want: int, i: int, head: Ptr, tail: Ptr)
    | PopNext(want: int, i: int, head: Ptr, tail: Ptr, x: Tid)
    | PopCas(want: int, i: int, head: Ptr, tail: Ptr, x: Tid, nx: Ptr)
    | Link(want: int, i: int, head: Ptr, tail: Ptr, x: Tid)
    | WakeRead(want: int, i: int, cur: Ptr)
    | WakePush(want: int, i: int, cur: Ptr, nx: Ptr)
    | Collected                                            // popped, not yet in a run queue
    | Woken
    | Excess                                               // exit(1)

  datatype State = State(
    word: int, top: Ptr, next: map<Tid, Ptr>, pc: map<Tid, Pc>,
    stack: seq<Tid>, woken: seq<Tid>, leader: Option<Tid>,
    gen: nat, arrived: map<Tid, nat>, returned: map<Tid, nat>, serials: seq<Tid>)

  function N(s: State): int { |s.pc| }

  predicate Shaped(s: State) {
    forall t :: t in s.pc ==> t in s.next && t in s.arrived && t in s.returned
  }

  predicate Enabled(s: State, t: Tid) {
    && Shaped(s) && t in s.pc
    && match s.pc[t]
       case Asleep => false
       case Collected => false
       case Excess => false
       case PopRead(_, i, _, _) => s.top != None
       case PopNext(_, _, _, _, x) => x in s.pc
       case PopCas(_, _, _, _, x, _) => x in s.pc
       case Link(_, _, _, tail, x) => x in s.pc && (tail == None || tail.value in s.pc)
       case WakeRead(want, i, cur) => i < want ==> cur != None && cur.value in s.pc
       case WakePush(_, _, cur, _) => cur != None && cur.value in s.pc
       case _ => true
  }

  function Go(s: State, t: Tid, pc: Pc): State {
    s.(pc := s.pc[t := pc])
  }

  /** Thread t leaves barrier_wait. */
  function Return(s: State, t: Tid): State
    requires t in s.returned
  {
    Go(s.(returned := s.returned[t := s.returned[t] + 1]), t, Out)
  }

  function Pops(want: int, i: int, head: Ptr, tail: Ptr): Pc {
    if i < want then PopRead(want, i, head, tail) else WakeRead(want, 0, head)
  }

  function Tail(q: seq<Tid>): seq<Tid> { if q == [] then [] else q[1..] }

  // The steps that do more than read, one function each.

  function Arrive(s: State, t: Tid): State
    requires t in s.arrived
  {
    Go(s.(word := s.word + 1, arrived := s.arrived[t := s.arrived[t] + 1]), t, PushRead)
  }

  function ArriveLast(s: State, t: Tid): State
    requires t in s.arrived
  {
    Go(s.(word := s.word + 1, arrived := s.arrived[t := s.arrived[t] + 1], gen := s.gen + 1, leader := Some(t)), t, Reset(s.word))
  }

  function LinkTo(s: State, t: Tid, p: Ptr): State {
    Go(s.(next := s.next[t := p]), t, PushCas(p))
  }

  function Sleep(s: State, t: Tid): State {
    Go(s.(top := Some(t), stack := [t] + s.stack), t, Asleep)
  }

  function ResetWord(s: State, t: Tid, want: int): State {
    Go(s.(word := 0), t, Pops(want, 0, None, None))
  }

  function Pop(s: State, t: Tid, x: Tid, nx: Ptr, pc: Pc): State {
    Go(Go(s.(top := nx, stack := Tail(s.stack)), x, Collected), t, pc)
  }

  function Append(next: map<Tid, Ptr>, tail: Ptr, x: Tid): map<Tid, Ptr> {
    if tail == None then next[x := None] else next[x := None][tail.value := Some(x)]
  }

  function DoLink(s: State, t: Tid, want: int, i: int, head: Ptr, tail: Ptr, x: Tid): State {
    Go(s.(next := Append(s.next, tail, x), woken := s.woken + [x]), t,
       Pops(want, i + 1, if tail == None then Some(x) else head, Some(x)))
  }

  function DoWake(s: State, t: Tid, w: Tid, pc: Pc): State {
    Go(Go(s.(woken := Tail(s.woken)), w, Woken), t, pc)
  }

  function ReturnSerial(s: State, t: Tid): State
    requires t in s.returned
  {
    Return(s.(leader := None, serials := s.serials + [t]), t)
  }

  function Next(s: State, t: Tid): State
    requires Enabled(s, t)
  {
    match s.pc[t]
    case Out => Go(s, t, Read)
    case Read => Go(s, t, if s.word >= N(s) then Excess else Cas(s.word))
    case Cas(c) =>
      if c != s.word then Go(s, t, Read)
      else if c == N(s) - 1 then ArriveLast(s, t)
      else Arrive(s, t)
    case PushRead => Go(s, t, PushLink(s.top))
    case PushLink(p) => LinkTo(s, t, p)
    case PushCas(p) => if s.top != p then Go(s, t, PushRead) else Sleep(s, t)
    case Reset(want) => ResetWord(s, t, want)
    case PopRead(want, i, head, tail) => Go(s, t, PopNext(want, i, head, tail, s.top.value))
    case PopNext(want, i, head, tail, x) => Go(s, t, PopCas(want, i, head, tail, x, s.next[x]))
    case PopCas(want, i, head, tail, x, nx) =>
      if s.top != Some(x) then Go(s, t, PopRead(want, i, head, tail))
      else Pop(s, t, x, nx, Link(want, i, head, tail, x))
    case Link(want, i, head, tail, x) => DoLink(s, t, want, i, head, tail, x)
    case WakeRead(want, i, cur) =>
      if i < want then Go(s, t, WakePush(want, i, cur, s.next[cur.value])) else ReturnSerial(s, t)
    case WakePush(want, i, cur, nx) => DoWake(s, t, cur.value, WakeRead(want, i + 1, nx))
    case Woken => Return(s, t)
    case _ => s
  }

  ghost predicate Init(s: State) {
    && Shaped(s) && N(s) > 0
    && s.word == 0 && s.top == None && s.stack == [] && s.woken == [] && s.leader == None
    && s.gen == 0 && s.serials == []
    && forall t :: t in s.pc ==> s.pc[t] == Out && s.arrived[t] == 0 && s.returned[t] == 0
  }

  // ----- the invariant

  /** Arrived in the generation that is being gathered, or not yet popped. */
  predicate Gathering(pc: Pc) {
    pc.PushRead? || pc.PushLink? || pc.PushCas? || pc.Asleep?
  }

  predicate Drains(pc: Pc) {
    pc.Reset? || pc.PopRead? || pc.PopNext? || pc.PopCas? || pc.Link?
  }

  predicate Leads(pc: Pc) {
    Drains(pc) || pc.WakeRead? || pc.WakePush?
  }

  predicate Inside(pc: Pc) {
    Gathering(pc) || Leads(pc) || pc.Collected? || pc.Woken?
  }

  predicate Draining(s: State) {
    s.leader.Some? && s.leader.value in s.pc && Drains(s.pc[s.leader.value])
  }

  /** The thread that the leader has popped and not yet put in its list. */
  function Held(s: State): Ptr {
    if s.leader.Some? && s.leader.value in s.pc && s.pc[s.leader.value].Link? then Some(s.pc[s.leader.value].x) else None
  }

  ghost predicate LeaderOk(s: State) {
    && (forall t :: t in s.pc ==> (Leads(s.pc[t]) <==> s.leader == Some(t)))
    && (s.leader.Some? ==> s.leader.value in s.pc)
    && (Draining(s) ==> forall t :: t in s.pc && s.leader != Some(t) ==> Gathering(s.pc[t]) || s.pc[t].Collected?)
  }

  ghost predicate HistoryOk(s: State)
    requires Shaped(s)
  {
    && (forall t :: t in s.pc ==> s.pc[t] != Excess)
    && (forall t :: t in s.pc ==> s.arrived[t] == s.gen + if !Draining(s) && Gathering(s.pc[t]) then 1 else 0)
    && (forall t :: t in s.pc ==> s.returned[t] + (if Inside(s.pc[t]) then 1 else 0) == s.arrived[t])
    && |s.serials| + (if s.leader.Some? then 1 else 0) == s.gen
  }

  ghost predicate WordOk(s: State) {
    && N(s) > 0
    && (if Draining(s) then s.word == (if s.pc[s.leader.value].Reset? then N(s) else 0)
        else s.word == Count(s.pc, Gathering) < N(s))
  }

  /** `q` is the list that starts at `p` and follows `next`. */
  ghost predicate Chain(next: map<Tid, Ptr>, p: Ptr, q: seq<Tid>) {
    && (forall k :: 0 <= k < |q| ==> q[k] in next)
    && p == (if q == [] then None else Some(q[0]))
    && (forall k :: 0 <= k < |q| - 1 ==> next[q[k]] == Some(q[k + 1]))
    && (q != [] ==> next[q[|q| - 1]] == None)
  }

  ghost predicate Distinct(q: seq<Tid>) {
    forall i, j :: 0 <= i < j < |q| ==> q[i] != q[j]
  }

  ghost predicate StackOk(s: State) {
    && Distinct(s.stack)
    && (forall t :: t in s.stack <==> t in s.pc && s.pc[t] == Asleep)
    && Chain(s.next, s.top, s.stack)
  }

  function ListHead(pc: Pc): Ptr {
    match pc
    case PopRead(_, _, head, _) => head
    case PopNext(_, _, head, _, _) => head
    case PopCas(_, _, head, _, _, _) => head
    case Link(_, _, head, _, _) => head
    case WakeRead(_, _, cur) => cur
    case WakePush(_, _, cur, _) => cur
    case _ => None
  }

  function ListTail(pc: Pc): Ptr {
    match pc
    case PopRead(_, _, _, tail) => tail
    case PopNext(_, _, _, tail, _) => tail
    case PopCas(_, _, _, tail, _, _) => tail
    case Link(_, _, _, tail, _) => tail
    case _ => None
  }

  /** The threads popped so far form the leader's list. */
  ghost predicate ListOk(s: State) {
    && Distinct(s.woken)
    && (forall t :: t in s.woken ==> t in s.pc && s.pc[t].Collected? && Held(s) != Some(t))
    && (forall t :: t in s.pc && s.pc[t].Collected? ==> t in s.woken || Held(s) == Some(t))
    && (s.leader == None ==> s.woken == [])
    && (s.leader.Some? && s.leader.value in s.pc ==>
          Chain(s.next, ListHead(s.pc[s.leader.value]), s.woken))
    && (Draining(s) && !s.pc[s.leader.value].Reset? ==>
          ListTail(s.pc[s.leader.value]) == (if s.woken == [] then None else Some(s.woken[|s.woken| - 1])))
  }

  ghost predicate CountsOk(s: State) {
    s.leader.Some? && s.leader.value in s.pc ==>
      match s.pc[s.leader.value]
      case Reset(want) => want == N(s) - 1 && s.woken == [] && Count(s.pc, Gathering) == want
      case PopRead(want, i, _, _) => want == N(s) - 1 && i == |s.woken| < want && Count(s.pc, Gathering) + i == want
      case PopNext(want, i, _, _, _) => want == N(s) - 1 && i == |s.woken| < want && Count(s.pc, Gathering) + i == want
      case PopCas(want, i, _, _, _, _) => want == N(s) - 1 && i == |s.woken| < want && Count(s.pc, Gathering) + i == want
      case Link(want, i, _, _, _) => want == N(s) - 1 && i == |s.woken| < want && Count(s.pc, Gathering) + i + 1 == want
      case WakeRead(want, i, _) => want == N(s) - 1 && i + |s.woken| == want && i >= 0
      case WakePush(want, i, _, _) => want == N(s) - 1 && i + |s.woken| == want && 0 <= i < want
      case _ => true
  }

  /** What a thread has read and not yet acted on.  A leader about to swing the
      top still sees the successor that the node has now: no ABA. */
  ghost predicate LocalOk(s: State, t: Tid)
    requires t in s.pc && Shaped(s)
  {
    match s.pc[t]
    case PushCas(p) => s.next[t] == p
    case PopNext(_, _, _, _, x) => x in s.stack
    case PopCas(_, _, _, _, x, nx) => x in s.stack && x in s.next && s.next[x] == nx
    case Link(_, _, _, _, x) => x in s.pc && s.pc[x].Collected?
    case WakePush(_, _, cur, nx) => s.woken != [] && Some(s.woken[0]) == cur && s.woken[0] in s.next && nx == s.next[s.woken[0]]
    case _ => true
  }

  ghost predicate LocalsOk(s: State)
    requires Shaped(s)
  {
    forall t :: t in s.pc ==> LocalOk(s, t)
  }

  ghost predicate Inv(s: State) {
    && Shaped(s) && LeaderOk(s) && HistoryOk(s) && WordOk(s)
    && StackOk(s) && ListOk(s) && CountsOk(s) && LocalsOk(s)
  }

  // ----- preservation: what a step does not touch stays

  lemma StackFrame(s: State, s': State)
    requires StackOk(s) && s'.stack == s.stack && s'.top == s.top && s'.next == s.next
    requires forall u :: (u in s'.pc && s'.pc[u] == Asleep) <==> (u in s.pc && s.pc[u] == Asleep)
    ensures StackOk(s')
  {
    hide Chain, Distinct;
  }

  lemma ListFrame(s: State, s': State)
    requires ListOk(s) && s'.woken == s.woken && s'.next == s.next && s'.pc.Keys == s.pc.Keys
    requires Held(s') == Held(s) && forall u :: u in s.pc ==> s'.pc[u].Collected? == s.pc[u].Collected?
    requires s'.leader == None ==> s.woken == []
    requires s'.leader.Some? && s'.leader.value in s.pc ==>
      Chain(s.next, ListHead(s'.pc[s'.leader.value]), s.woken)
    requires Draining(s') && !s'.pc[s'.leader.value].Reset? ==>
      ListTail(s'.pc[s'.leader.value]) == (if s.woken == [] then None else Some(s.woken[|s.woken| - 1]))
    ensures ListOk(s')
  {
    hide Chain, Distinct;
  }

  /** Neither list is concerned with t, before or after, and nothing else has moved. */
  predicate Quiet(s: State, s': State, t: Tid, pc: Pc) {
    && t in s.pc && s'.pc == s.pc[t := pc] && s.leader != Some(t) && s'.leader == s.leader
    && !s.pc[t].Asleep? && !s.pc[t].Collected? && !pc.Asleep? && !pc.Collected?
    && s'.stack == s.stack && s'.top == s.top && s'.next == s.next && s'.woken == s.woken
  }

  lemma QuietStack(s: State, s': State, t: Tid, pc: Pc)
    requires Quiet(s, s', t, pc) && StackOk(s)
    ensures StackOk(s')
  {
    hide StackOk;
    StackFrame(s, s');
  }

  lemma QuietList(s: State, s': State, t: Tid, pc: Pc)
    requires Quiet(s, s', t, pc) && ListOk(s)
    ensures ListOk(s')
  {
    hide Chain, Distinct;
    assert Held(s') == Held(s) && Draining(s') == Draining(s);
  }

  lemma LocalsFrame(s: State, s': State, t: Tid)
    requires Shaped(s) && Shaped(s') && s'.pc.Keys == s.pc.Keys && t in s.pc
    requires s'.next == s.next && s'.stack == s.stack && s'.woken == s.woken
    requires forall u :: u in s.pc && u != t ==> s'.pc[u] == s.pc[u]
    requires s.pc[t].Collected? ==> s'.pc[t].Collected?
    requires LocalsOk(s) && LocalOk(s', t)
    ensures LocalsOk(s')
  {
    forall u | u in s.pc ensures LocalOk(s', u) { assert LocalOk(s, u); }
  }

  lemma HistoryFrame(s: State, s': State)
    requires Shaped(s) && Shaped(s') && HistoryOk(s)
    requires s'.gen == s.gen && s'.serials == s.serials && s'.leader.Some? == s.leader.Some?
    requires s'.arrived == s.arrived && s'.returned == s.returned && Draining(s') == Draining(s)
    requires forall u :: u in s'.pc ==>
      u in s.pc && Gathering(s'.pc[u]) == Gathering(s.pc[u]) && Inside(s'.pc[u]) == Inside(s.pc[u]) && s'.pc[u] != Excess
    ensures HistoryOk(s')
  {
    hide Draining, Gathering, Inside;
  }

  /** A change of program point inside one role. */
  predicate SameRole(a: Pc, b: Pc) {
    && Gathering(a) == Gathering(b) && Drains(a) == Drains(b) && Leads(a) == Leads(b) && Inside(a) == Inside(b)
    && !a.Asleep? && !b.Asleep? && !a.Collected? && !b.Collected? && !b.Excess? && !a.Link? && !b.Link?
    && ListHead(a) == ListHead(b) && ListTail(a) == ListTail(b) && a.Reset? == b.Reset?
  }

  lemma LocalMove(s: State, t: Tid, pc: Pc)
    requires Shaped(s) && t in s.pc && SameRole(s.pc[t], pc)
    requires CountsOk(Go(s, t, pc)) && LocalOk(Go(s, t, pc), t)
    requires Inv(s)
    ensures Inv(Go(s, t, pc))
  {
    hide StackOk, ListOk, LocalOk, LocalsOk, HistoryOk, LeaderOk, CountsOk, Inside, ListHead, ListTail;
    var s' := Go(s, t, pc);
    LocalMoveRoles(s, t, pc);
    LocalMoveList(s, t, pc);
    CountMoves(s.pc, t, pc, Gathering);
    StackFrame(s, s');
    LocalsFrame(s, s', t);
  }

  lemma LocalMoveRoles(s: State, t: Tid, pc: Pc)
    requires Shaped(s) && LeaderOk(s) && HistoryOk(s) && t in s.pc && SameRole(s.pc[t], pc)
    ensures var s' := Go(s, t, pc); Draining(s') == Draining(s) && LeaderOk(s') && HistoryOk(s')
  {
  }

  lemma LocalMoveList(s: State, t: Tid, pc: Pc)
    requires LeaderOk(s) && ListOk(s) && t in s.pc && SameRole(s.pc[t], pc)
    ensures ListOk(Go(s, t, pc))
  {
    hide Chain, Distinct;
    var s' := Go(s, t, pc);
    assert Draining(s') == Draining(s);
    assert Held(s') == Held(s);
  }

  /** With all but one participant gathering, everybody else is. */
  lemma AllOthers(s: State, t: Tid)
    requires t in s.pc && !Gathering(s.pc[t]) && Count(s.pc, Gathering) == N(s) - 1
    ensures forall u :: u in s.pc && u != t ==> Gathering(s.pc[u])
  {
    var g := Where(s.pc, Gathering);
    var rest := s.pc.Keys - {t};
    assert g <= rest;
    assert |rest| == N(s) - 1;
    if exists u :: u in rest && u !in g {
      var u :| u in rest && u !in g;
      Smaller(g, rest - {u});
    }
    forall u | u in s.pc && u != t ensures Gathering(s.pc[u]) {
      assert u in rest;
    }
  }

  lemma NobodyGathers(s: State)
    requires Count(s.pc, Gathering) == 0
    ensures forall u :: u in s.pc ==> !Gathering(s.pc[u])
  {
    forall u | u in s.pc ensures !Gathering(s.pc[u]) {
      if Gathering(s.pc[u]) { CountMember(s.pc, u, Gathering); }
    }
  }

  // ----- arriving

  lemma ArriveKeeps(s: State, t: Tid)
    requires Shaped(s) && t in s.pc && s.pc[t].Cas? && s.word != N(s) - 1
    requires Inv(s)
    ensures Inv(Arrive(s, t))
  {
    hide StackOk, ListOk, LocalOk, LocalsOk, HistoryOk, LeaderOk, Inside;
    ArriveRoles(s, t);
    ArriveLists(s, t);
    CountMoves(s.pc, t, PushRead, Gathering);
  }

  lemma ArriveRoles(s: State, t: Tid)
    requires Shaped(s) && t in s.pc && s.pc[t].Cas? && LeaderOk(s) && HistoryOk(s)
    ensures var s' := Arrive(s, t); !Draining(s) && !Draining(s') && s.leader != Some(t) && HistoryOk(s') && LeaderOk(s')
  {
    var s' := Arrive(s, t);
    ArriveLeader(s, t);
    hide LeaderOk, Draining, Leads;
  }

  lemma ArriveLeader(s: State, t: Tid)
    requires Shaped(s) && t in s.pc && s.pc[t].Cas? && LeaderOk(s)
    ensures var s' := Arrive(s, t); !Draining(s) && !Draining(s') && s.leader != Some(t) && LeaderOk(s')
  {
    assert !Draining(s) && s.leader != Some(t);
    assert !Draining(Arrive(s, t));
  }

  lemma ArriveLocals(s: State, t: Tid)
    requires Shaped(s) && t in s.pc && s.pc[t].Cas? && s.leader != Some(t)
    requires LocalsOk(s)
    ensures LocalsOk(Arrive(s, t))
  {
    hide Chain, Distinct;
    LocalsFrame(s, Arrive(s, t), t);
  }

  lemma ArriveLists(s: State, t: Tid)
    requires Shaped(s) && t in s.pc && s.pc[t].Cas? && s.leader != Some(t)
    requires StackOk(s) && ListOk(s) && LocalsOk(s)
    ensures var s' := Arrive(s, t); StackOk(s') && ListOk(s') && LocalsOk(s')
  {
    hide StackOk, ListOk, LocalsOk;
    ArriveLocals(s, t);
    QuietStack(s, Arrive(s, t), t, PushRead);
    QuietList(s, Arrive(s, t), t, PushRead);
  }

  lemma LastArrives(s: State, t: Tid)
    requires Shaped(s) && t in s.pc && s.pc[t].Cas? && s.word == N(s) - 1
    requires Inv(s)
    ensures Inv(ArriveLast(s, t))
  {
    hide StackOk, ListOk, LocalOk, LocalsOk, HistoryOk, LeaderOk, Inside;
    LastFacts(s, t);
    LastRoles(s, t);
    LastLists(s, t);
    CountMoves(s.pc, t, Reset(s.word), Gathering);
  }

  lemma LastFacts(s: State, t: Tid)
    requires t in s.pc && s.pc[t].Cas? && s.word == N(s) - 1
    requires LeaderOk(s) && WordOk(s)
    ensures s.leader == None && !Draining(s) && forall u :: u in s.pc && u != t ==> Gathering(s.pc[u])
  {
    assert !Draining(s);
    AllOthers(s, t);
  }

  lemma LastRoles(s: State, t: Tid)
    requires Shaped(s) && t in s.pc && s.pc[t].Cas? && s.leader == None
    requires forall u :: u in s.pc && u != t ==> Gathering(s.pc[u])
    requires LeaderOk(s) && HistoryOk(s)
    ensures var s' := ArriveLast(s, t); HistoryOk(s') && LeaderOk(s') && Draining(s')
  {
    assert Draining(ArriveLast(s, t));
  }

  lemma LastLists(s: State, t: Tid)
    requires Shaped(s) && t in s.pc && s.pc[t].Cas? && s.leader == None
    requires StackOk(s) && ListOk(s) && LocalsOk(s)
    ensures var s' := ArriveLast(s, t); StackOk(s') && ListOk(s') && LocalsOk(s') && s'.woken == []
  {
    var s' := ArriveLast(s, t);
    LocalsFrame(s, s', t);
    assert Chain(s.next, None, s.woken);
    hide Chain, Distinct, LocalsOk;
    StackFrame(s, s');
    assert Held(s') == None == Held(s);
    ListFrame(s, s');
  }

  // ----- entering the sleep stack

  /** A thread in neither list may have its `next` field written. */
  lemma ChainFrame(next: map<Tid, Ptr>, t: Tid, v: Ptr, p: Ptr, q: seq<Tid>)
    requires Chain(next, p, q) && t !in q
    ensures Chain(next[t := v], p, q)
  {
  }

  lemma PushLinkKeeps(s: State, t: Tid, p: Ptr)
    requires Shaped(s) && t in s.pc && s.pc[t] == PushLink(p)
    requires Inv(s)
    ensures Inv(LinkTo(s, t, p))
  {
    hide StackOk, ListOk, HistoryOk, LeaderOk, LocalsOk, CountsOk;
    var mid := s.(next := s.next[t := p]);
    PushLinkLists(s, t, p);
    PushLinkLocals(s, t, p);
    PushLinkCounts(s, t, p);
    PushLinkRoles(s, t, p);
    LocalMove(mid, t, PushCas(p));
  }

  lemma PushLinkRoles(s: State, t: Tid, p: Ptr)
    requires Shaped(s) && t in s.pc && LeaderOk(s) && HistoryOk(s) && CountsOk(s)
    ensures var mid := s.(next := s.next[t := p]);
      LeaderOk(mid) && HistoryOk(mid) && CountsOk(mid)
  {
    assert Draining(s.(next := s.next[t := p])) == Draining(s);
  }

  lemma PushLinkCounts(s: State, t: Tid, p: Ptr)
    requires Shaped(s) && t in s.pc && s.pc[t] == PushLink(p) && LeaderOk(s) && CountsOk(s)
    ensures CountsOk(LinkTo(s, t, p)) && s.leader != Some(t)
  {
    CountMoves(s.pc, t, PushCas(p), Gathering);
  }

  lemma PushLinkLists(s: State, t: Tid, p: Ptr)
    requires Shaped(s) && t in s.pc && s.pc[t].PushLink? && StackOk(s) && ListOk(s)
    ensures var mid := s.(next := s.next[t := p]); StackOk(mid) && ListOk(mid)
  {
    ChainFrame(s.next, t, p, s.top, s.stack);
    if s.leader.Some? && s.leader.value in s.pc {
      ChainFrame(s.next, t, p, ListHead(s.pc[s.leader.value]), s.woken);
    }
    hide Chain, Distinct;
    var mid := s.(next := s.next[t := p]);
    assert Held(mid) == Held(s);
  }

  lemma PushLinkLocals(s: State, t: Tid, p: Ptr)
    requires Shaped(s) && t in s.pc && s.pc[t].PushLink? && StackOk(s) && ListOk(s) && LocalsOk(s)
    ensures LocalsOk(s.(next := s.next[t := p]))
  {
    hide Chain, Distinct;
    var mid := s.(next := s.next[t := p]);
    forall u | u in s.pc ensures LocalOk(mid, u) {
      assert LocalOk(s, u);
      if s.pc[u].WakePush? { assert s.woken[0] in s.woken; }
    }
  }

  lemma SleepKeeps(s: State, t: Tid)
    requires Shaped(s) && t in s.pc && s.pc[t] == PushCas(s.top)
    requires Inv(s)
    ensures Inv(Sleep(s, t))
  {
    hide StackOk, ListOk, HistoryOk, LeaderOk, LocalsOk, LocalOk, Inside;
    SleepRoles(s, t);
    SleepList(s, t);
    SleepStack(s, t);
    SleepLocals(s, t);
    CountMoves(s.pc, t, Asleep, Gathering);
  }

  lemma SleepRoles(s: State, t: Tid)
    requires Shaped(s) && t in s.pc && s.pc[t].PushCas? && LeaderOk(s) && HistoryOk(s)
    ensures var s' := Sleep(s, t);
      Draining(s') == Draining(s) && LeaderOk(s') && HistoryOk(s') && s.leader != Some(t)
  {
    assert s.leader != Some(t);
    assert Draining(Sleep(s, t)) == Draining(s);
  }

  lemma SleepList(s: State, t: Tid)
    requires t in s.pc && s.pc[t].PushCas? && s.leader != Some(t) && ListOk(s)
    ensures ListOk(Sleep(s, t))
  {
    hide Chain, Distinct;
    var s' := Sleep(s, t);
    assert Held(s') == Held(s);
    assert Draining(s') == Draining(s);
    ListFrame(s, s');
  }

  lemma SleepStack(s: State, t: Tid)
    requires Shaped(s) && t in s.pc && s.pc[t] == PushCas(s.top) && StackOk(s) && LocalsOk(s)
    ensures StackOk(Sleep(s, t))
  {
    hide Chain, Distinct;
    assert LocalOk(s, t) && t !in s.stack;
    assert forall u :: u in [t] + s.stack <==> u == t || u in s.stack;
    PushChain(s.next, t, s.top, s.stack);
  }

  lemma PushChain(next: map<Tid, Ptr>, t: Tid, p: Ptr, q: seq<Tid>)
    requires Chain(next, p, q) && Distinct(q) && t !in q && t in next && next[t] == p
    ensures Chain(next, Some(t), [t] + q) && Distinct([t] + q)
  {
    var q' := [t] + q;
    forall k | 0 <= k < |q'| - 1 ensures next[q'[k]] == Some(q'[k + 1]) {
      if k > 0 { assert q'[k] == q[k - 1] && q'[k + 1] == q[k]; }
    }
    if q != [] { assert q'[|q'| - 1] == q[|q| - 1]; }
  }

  lemma SleepLocals(s: State, t: Tid)
    requires Shaped(s) && t in s.pc && s.pc[t].PushCas? && LocalsOk(s)
    ensures LocalsOk(Sleep(s, t))
  {
    forall u | u in s.pc ensures LocalOk(Sleep(s, t), u) { assert LocalOk(s, u); }
  }

  // ----- the last arriver collects the sleepers

  lemma ResetKeeps(s: State, t: Tid, want: int)
    requires Shaped(s) && t in s.pc && s.pc[t] == Reset(want)
    requires Inv(s)
    ensures Inv(ResetWord(s, t, want))
  {
    hide StackOk, ListOk, HistoryOk, LocalsOk, LocalOk, Inside;
    var s' := ResetWord(s, t, want);
    LeaderIs(s, t);
    hide LeaderOk;
    CountMoves(s.pc, t, s'.pc[t], Gathering);
    if want == 0 {
      NobodyGathers(s);
    }
    ResetRoles(s, t, want);
    ResetLists(s, t, want);
  }

  lemma LeaderIs(s: State, t: Tid)
    requires t in s.pc && Leads(s.pc[t]) && LeaderOk(s)
    ensures s.leader == Some(t)
  {
  }

  lemma ResetRoles(s: State, t: Tid, want: int)
    requires Shaped(s) && t in s.pc && s.pc[t] == Reset(want) && s.leader == Some(t)
    requires want <= 0 ==> forall u :: u in s.pc ==> !Gathering(s.pc[u])
    requires LeaderOk(s) && HistoryOk(s)
    ensures var s' := ResetWord(s, t, want); LeaderOk(s') && HistoryOk(s') && (Draining(s') <==> want > 0)
  {
    assert Draining(s);
    assert Draining(ResetWord(s, t, want)) <==> want > 0;
  }

  lemma ResetLists(s: State, t: Tid, want: int)
    requires Shaped(s) && t in s.pc && s.pc[t] == Reset(want) && s.leader == Some(t) && s.woken == []
    requires StackOk(s) && ListOk(s) && LocalsOk(s)
    ensures var s' := ResetWord(s, t, want); StackOk(s') && ListOk(s') && LocalsOk(s')
  {
    var s' := ResetWord(s, t, want);
    LocalsFrame(s, s', t);
    assert Chain(s.next, None, s.woken);
    hide Chain, Distinct, LocalsOk;
    StackFrame(s, s');
    assert Held(s') == None == Held(s);
    ListFrame(s, s');
  }

  ghost predicate CanPop(s: State, t: Tid, x: Tid, nx: Ptr) {
    && Shaped(s) && t in s.pc && x in s.pc && x != t
    && s.pc[t].PopCas? && s.pc[t].x == x && s.pc[t].nx == nx
    && s.top == Some(x) && s.pc[x] == Asleep && s.leader == Some(t)
    && x in s.stack && s.next[x] == nx
  }

  function Popped(pc: Pc): Pc
    requires pc.PopCas?
  {
    Link(pc.want, pc.i, pc.head, pc.tail, pc.x)
  }

  lemma PopKeeps(s: State, t: Tid, x: Tid, nx: Ptr)
    requires CanPop(s, t, x, nx)
    requires Inv(s)
    ensures Inv(Pop(s, t, x, nx, Popped(s.pc[t])))
  {
    hide StackOk, ListOk, HistoryOk, LeaderOk, LocalsOk, LocalOk, Inside;
    PopStack(s, t, x, nx);
    PopRoles(s, t, x, nx);
    PopList(s, t, x, nx);
    PopLocals(s, t, x, nx);
    PopCounts(s, t, x, nx);
  }

  lemma PopCounts(s: State, t: Tid, x: Tid, nx: Ptr)
    requires CanPop(s, t, x, nx) && WordOk(s) && CountsOk(s) && Draining(s)
    ensures var s' := Pop(s, t, x, nx, Popped(s.pc[t])); Draining(s') && WordOk(s') && CountsOk(s')
  {
    CountMoves(s.pc, x, Collected, Gathering);
    CountMoves(s.pc[x := Collected], t, Popped(s.pc[t]), Gathering);
  }

  lemma ChainTail(next: map<Tid, Ptr>, p: Ptr, q: seq<Tid>)
    requires Chain(next, p, q) && Distinct(q) && q != []
    ensures Chain(next, next[q[0]], Tail(q)) && Distinct(Tail(q)) && q[0] !in Tail(q)
    ensures forall u :: u in q <==> u == q[0] || u in Tail(q)
  {
    assert q == [q[0]] + Tail(q);
  }

  lemma PopStack(s: State, t: Tid, x: Tid, nx: Ptr)
    requires CanPop(s, t, x, nx) && StackOk(s)
    ensures StackOk(Pop(s, t, x, nx, Popped(s.pc[t]))) && s.stack[0] == x
  {
    assert s.stack[0] == x;
    ChainTail(s.next, s.top, s.stack);
    hide Chain, Distinct;
  }

  lemma PopRoles(s: State, t: Tid, x: Tid, nx: Ptr)
    requires CanPop(s, t, x, nx) && LeaderOk(s) && HistoryOk(s)
    ensures var s' := Pop(s, t, x, nx, Popped(s.pc[t])); LeaderOk(s') && HistoryOk(s') && Draining(s) && Draining(s')
  {
    assert Draining(s) && Draining(Pop(s, t, x, nx, Popped(s.pc[t])));
  }

  lemma PopList(s: State, t: Tid, x: Tid, nx: Ptr)
    requires CanPop(s, t, x, nx) && ListOk(s)
    ensures ListOk(Pop(s, t, x, nx, Popped(s.pc[t])))
  {
    hide Chain, Distinct;
    var s' := Pop(s, t, x, nx, Popped(s.pc[t]));
    assert Held(s') == Some(x) && Held(s) == None;
  }

  lemma PopLocals(s: State, t: Tid, x: Tid, nx: Ptr)
    requires CanPop(s, t, x, nx) && LeaderOk(s) && LocalsOk(s)
    ensures LocalsOk(Pop(s, t, x, nx, Popped(s.pc[t])))
  {
    var s' := Pop(s, t, x, nx, Popped(s.pc[t]));
    forall u | u in s.pc ensures LocalOk(s', u) {
      assert LocalOk(s, u);
      assert Leads(s.pc[u]) ==> u == t;
    }
  }

  /** The popped thread goes to the end of the leader's list. */
  lemma ExtendChain(next: map<Tid, Ptr>, head: Ptr, q: seq<Tid>, x: Tid)
    requires Chain(next, head, q) && x in next && x !in q
    ensures var tail := if q == [] then None else Some(q[|q| - 1]);
      Chain(Append(next, tail, x), if tail == None then Some(x) else head, q + [x])
  {
    var q' := q + [x];
    var n' := Append(next, if q == [] then None else Some(q[|q| - 1]), x);
    forall k | 0 <= k < |q'| - 1 ensures n'[q'[k]] == Some(q'[k + 1]) {
      if k < |q| - 1 {
        assert next[q[k]] == Some(q[k + 1]);
        assert q[k] != x;
      }
    }
  }

  ghost predicate CanLink(s: State, t: Tid, want: int, i: int, head: Ptr, tail: Ptr, x: Tid) {
    && Shaped(s) && t in s.pc && x in s.pc && x != t
    && s.pc[t] == Link(want, i, head, tail, x) && s.leader == Some(t)
    && s.pc[x] == Collected && x !in s.woken && x !in s.stack
  }

  lemma LinkKeeps(s: State, t: Tid, want: int, i: int, head: Ptr, tail: Ptr, x: Tid)
    requires CanLink(s, t, want, i, head, tail, x)
    requires Inv(s)
    ensures Inv(DoLink(s, t, want, i, head, tail, x))
  {
    hide StackOk, ListOk, HistoryOk, LeaderOk, LocalsOk, LocalOk, Inside;
    LinkCounts(s, t, want, i, head, tail, x);
    LinkRoles(s, t, want, i, head, tail, x);
    LinkStack(s, t, want, i, head, tail, x);
    LinkList(s, t, want, i, head, tail, x);
    LinkLocals(s, t, want, i, head, tail, x);
  }

  lemma LinkCounts(s: State, t: Tid, want: int, i: int, head: Ptr, tail: Ptr, x: Tid)
    requires CanLink(s, t, want, i, head, tail, x) && WordOk(s) && CountsOk(s)
    ensures var s' := DoLink(s, t, want, i, head, tail, x);
      CountsOk(s') && WordOk(s') && (Draining(s') <==> i + 1 < want)
    ensures i + 1 >= want ==> forall u :: u in s.pc ==> !Gathering(s.pc[u])
  {
    var s' := DoLink(s, t, want, i, head, tail, x);
    assert Draining(s);
    CountMoves(s.pc, t, s'.pc[t], Gathering);
    assert Draining(s') <==> i + 1 < want;
    if i + 1 >= want { NobodyGathers(s); }
  }

  lemma LinkRoles(s: State, t: Tid, want: int, i: int, head: Ptr, tail: Ptr, x: Tid)
    requires CanLink(s, t, want, i, head, tail, x)
    requires Draining(DoLink(s, t, want, i, head, tail, x)) <==> i + 1 < want
    requires i + 1 >= want ==> forall u :: u in s.pc ==> !Gathering(s.pc[u])
    requires LeaderOk(s) && HistoryOk(s)
    ensures var s' := DoLink(s, t, want, i, head, tail, x);
      && Shaped(s') && LeaderOk(s') && HistoryOk(s')
  {
    assert Draining(s);
    var pc := Pops(want, i + 1, if tail == None then Some(x) else head, Some(x));
    assert Leads(pc) && Drains(pc) == (i + 1 < want) && !Gathering(pc) && Inside(pc) && pc != Excess;
    LinkHistory(s, DoLink(s, t, want, i, head, tail, x), t, pc);
  }

  lemma LinkHistory(s: State, s': State, t: Tid, pc: Pc)
    requires Shaped(s) && Shaped(s') && t in s.pc && s.pc[t].Link? && s.leader == Some(t) && Draining(s)
    requires s'.pc == s.pc[t := pc] && s'.leader == s.leader && s'.gen == s.gen && s'.serials == s.serials
    requires s'.arrived == s.arrived && s'.returned == s.returned
    requires Leads(pc) && !Gathering(pc) && Inside(pc) && pc != Excess
    requires Draining(s') || forall u :: u in s.pc ==> !Gathering(s.pc[u])
    requires LeaderOk(s) && HistoryOk(s)
    ensures LeaderOk(s') && HistoryOk(s')
  {
    assert Inside(s.pc[t]);
  }

  lemma LinkStack(s: State, t: Tid, want: int, i: int, head: Ptr, tail: Ptr, x: Tid)
    requires CanLink(s, t, want, i, head, tail, x) && StackOk(s) && ListOk(s)
    ensures StackOk(DoLink(s, t, want, i, head, tail, x))
  {
    assert Draining(s);
    LinkTailAwake(s, tail);
    ChainFrame(s.next, x, None, s.top, s.stack);
    if tail != None {
      ChainFrame(s.next[x := None], tail.value, Some(x), s.top, s.stack);
    }
    assert !Pops(want, i + 1, if tail == None then Some(x) else head, Some(x)).Asleep?;
    hide Chain, Distinct, Pops;
  }

  lemma LinkTailAwake(s: State, tail: Ptr)
    requires ListOk(s) && StackOk(s) && Draining(s) && s.pc[s.leader.value].Link? && s.pc[s.leader.value].tail == tail
    ensures tail == (if s.woken == [] then None else Some(s.woken[|s.woken| - 1]))
    ensures tail != None ==> tail.value !in s.stack
  {
    hide Chain, Distinct;
    if s.woken != [] { assert s.woken[|s.woken| - 1] in s.woken; }
  }

  lemma LinkList(s: State, t: Tid, want: int, i: int, head: Ptr, tail: Ptr, x: Tid)
    requires CanLink(s, t, want, i, head, tail, x) && StackOk(s) && ListOk(s)
    ensures ListOk(DoLink(s, t, want, i, head, tail, x))
  {
    var s' := DoLink(s, t, want, i, head, tail, x);
    LinkHeads(s, t, want, i, head, tail, x);
    LinkChain(s, t, want, i, head, tail, x);
    hide ListOk, StackOk, Chain, Distinct, Append, Held, Draining, ListHead, ListTail;
    LinkListOk(s, s', t, x, s'.pc[t]);
  }

  lemma LinkHeads(s: State, t: Tid, want: int, i: int, head: Ptr, tail: Ptr, x: Tid)
    requires CanLink(s, t, want, i, head, tail, x)
    ensures var s' := DoLink(s, t, want, i, head, tail, x);
      && Held(s') == None && Held(s) == Some(x) && Draining(s) && ListHead(s.pc[t]) == head
      && ListHead(s'.pc[t]) == (if tail == None then Some(x) else head)
      && (Draining(s') ==> ListTail(s'.pc[t]) == Some(x) && !s'.pc[t].Reset?)
  {
    hide Append;
  }

  lemma LinkChain(s: State, t: Tid, want: int, i: int, head: Ptr, tail: Ptr, x: Tid)
    requires CanLink(s, t, want, i, head, tail, x) && StackOk(s) && ListOk(s)
    ensures var s' := DoLink(s, t, want, i, head, tail, x);
      && Chain(s'.next, ListHead(s'.pc[t]), s'.woken) && Distinct(s'.woken)
      && forall u :: u in s'.woken <==> u == x || u in s.woken
  {
    hide Chain, Distinct, StackOk, Append;
    LinkHeads(s, t, want, i, head, tail, x);
    LinkTailAwake(s, tail);
    ExtendChain(s.next, head, s.woken, x);
    LinkMembers(s, x);
  }

  lemma LinkListOk(s: State, s': State, t: Tid, x: Tid, pc: Pc)
    requires t in s.pc && x in s.pc && x != t && s.pc[x] == Collected && s.leader == Some(t) == s'.leader
    requires s'.pc == s.pc[t := pc] && !pc.Collected? && !s.pc[t].Collected? && s'.woken == s.woken + [x]
    requires Held(s') == None && Held(s) == Some(x) && Distinct(s'.woken)
    requires forall u :: u in s'.woken <==> u == x || u in s.woken
    requires Chain(s'.next, ListHead(pc), s'.woken)
    requires Draining(s') ==> ListTail(pc) == Some(x) && !pc.Reset?
    requires ListOk(s)
    ensures ListOk(s')
  {
    hide Chain, Distinct, Held, ListHead, ListTail;
  }

  lemma LinkMembers(s: State, x: Tid)
    requires Distinct(s.woken) && x !in s.woken
    ensures Distinct(s.woken + [x]) && forall u :: u in s.woken + [x] <==> u == x || u in s.woken
  {
  }

  lemma LinkLocals(s: State, t: Tid, want: int, i: int, head: Ptr, tail: Ptr, x: Tid)
    requires CanLink(s, t, want, i, head, tail, x) && LeaderOk(s) && ListOk(s) && LocalsOk(s)
    ensures LocalsOk(DoLink(s, t, want, i, head, tail, x))
  {
    hide Chain, Distinct;
    var s' := DoLink(s, t, want, i, head, tail, x);
    assert Draining(s);
    forall u | u in s.pc ensures LocalOk(s', u) {
      assert LocalOk(s, u);
      assert Leads(s.pc[u]) ==> u == t;
      if s.woken != [] { assert s.woken[|s.woken| - 1] in s.woken; }
    }
  }

  // ----- handing the sleepers to the run queue, and returning

  ghost predicate CanWake(s: State, t: Tid, w: Tid, nx: Ptr) {
    && Shaped(s) && t in s.pc && w in s.pc && w != t
    && s.pc[t].WakePush? && s.pc[t].cur == Some(w) && s.pc[t].nx == nx && s.leader == Some(t)
    && s.woken != [] && s.woken[0] == w && s.next[w] == nx && s.pc[w] == Collected
  }

  lemma WakeKeeps(s: State, t: Tid, w: Tid, nx: Ptr)
    requires CanWake(s, t, w, nx)
    requires Inv(s)
    ensures Inv(DoWake(s, t, w, WakeRead(s.pc[t].want, s.pc[t].i + 1, nx)))
  {
    hide StackOk, ListOk, HistoryOk, LeaderOk, LocalsOk, LocalOk, Inside;
    var pc := WakeRead(s.pc[t].want, s.pc[t].i + 1, nx);
    WakeRoles(s, t, w, nx, pc);
    WakeCounts(s, t, w, nx, pc);
    WakeLists(s, t, w, nx, pc);
    WakeLocals(s, t, w, nx, pc);
  }

  lemma WakeRoles(s: State, t: Tid, w: Tid, nx: Ptr, pc: Pc)
    requires CanWake(s, t, w, nx) && pc.WakeRead? && LeaderOk(s) && HistoryOk(s)
    ensures var s' := DoWake(s, t, w, pc); LeaderOk(s') && HistoryOk(s') && !Draining(s) && !Draining(s')
  {
    WakeLeader(s, t, w, nx, pc);
    hide LeaderOk, Draining, Leads;
    HistoryFrame(s, DoWake(s, t, w, pc));
  }

  lemma WakeLeader(s: State, t: Tid, w: Tid, nx: Ptr, pc: Pc)
    requires CanWake(s, t, w, nx) && pc.WakeRead? && LeaderOk(s)
    ensures var s' := DoWake(s, t, w, pc); LeaderOk(s') && !Draining(s) && !Draining(s')
    ensures Inside(s.pc[t]) && Inside(pc)
  {
    assert !Draining(s) && !Draining(DoWake(s, t, w, pc));
  }

  lemma WakeCounts(s: State, t: Tid, w: Tid, nx: Ptr, pc: Pc)
    requires CanWake(s, t, w, nx) && pc == WakeRead(s.pc[t].want, s.pc[t].i + 1, nx)
    requires !Draining(s) && WordOk(s) && CountsOk(s)
    ensures var s' := DoWake(s, t, w, pc); WordOk(s') && CountsOk(s')
  {
    CountMoves(s.pc, w, Woken, Gathering);
    CountMoves(s.pc[w := Woken], t, pc, Gathering);
    assert !Draining(DoWake(s, t, w, pc));
  }

  lemma WakeLists(s: State, t: Tid, w: Tid, nx: Ptr, pc: Pc)
    requires CanWake(s, t, w, nx) && pc == WakeRead(s.pc[t].want, s.pc[t].i + 1, nx) && StackOk(s) && ListOk(s)
    ensures var s' := DoWake(s, t, w, pc); StackOk(s') && ListOk(s')
  {
    var s' := DoWake(s, t, w, pc);
    assert Held(s) == None == Held(s') && !Draining(s');
    assert ListHead(s.pc[t]) == Some(w) && ListHead(pc) == nx;
    hide Chain, Distinct, StackOk, Held, Draining, ListHead, ListTail;
    WakeStack(s, t, w, nx, pc);
    ChainTail(s.next, ListHead(s.pc[t]), s.woken);
    hide ListOk, Tail;
    WakeListOk(s, s', t, w, pc);
  }

  lemma WakeListOk(s: State, s': State, t: Tid, w: Tid, pc: Pc)
    requires t in s.pc && w in s.pc && w != t && s.pc[w] == Collected && s.leader == Some(t) == s'.leader
    requires s'.pc == s.pc[w := Woken][t := pc] && !pc.Collected? && !s.pc[t].Collected?
    requires Held(s) == None == Held(s') && !Draining(s')
    requires w !in s'.woken && forall u :: u in s.woken <==> u == w || u in s'.woken
    requires Distinct(s'.woken) && Chain(s'.next, ListHead(pc), s'.woken) && ListOk(s)
    ensures ListOk(s')
  {
    hide Chain, Distinct, Held, Draining, ListHead, ListTail;
  }

  lemma WakeStack(s: State, t: Tid, w: Tid, nx: Ptr, pc: Pc)
    requires CanWake(s, t, w, nx) && pc.WakeRead? && StackOk(s)
    ensures StackOk(DoWake(s, t, w, pc))
  {
    hide Chain, Distinct;
  }

  lemma WakeLocals(s: State, t: Tid, w: Tid, nx: Ptr, pc: Pc)
    requires CanWake(s, t, w, nx) && pc.WakeRead? && LeaderOk(s) && LocalsOk(s)
    ensures LocalsOk(DoWake(s, t, w, pc))
  {
    var s' := DoWake(s, t, w, pc);
    forall u | u in s.pc ensures LocalOk(s', u) {
      assert LocalOk(s, u);
      assert Leads(s.pc[u]) ==> u == t;
    }
  }

  lemma SerialKeeps(s: State, t: Tid)
    requires Shaped(s) && t in s.pc && s.pc[t].WakeRead? && s.pc[t].i >= s.pc[t].want
    requires Inv(s)
    ensures Inv(ReturnSerial(s, t))
  {
    hide StackOk, ListOk, HistoryOk, LocalsOk, LocalOk, Inside;
    LeaderIs(s, t);
    hide LeaderOk;
    assert s.woken == [];
    SerialRoles(s, t);
    CountMoves(s.pc, t, Out, Gathering);
    SerialLists(s, t);
  }

  lemma SerialRoles(s: State, t: Tid)
    requires Shaped(s) && t in s.pc && s.pc[t].WakeRead? && s.leader == Some(t) && LeaderOk(s) && HistoryOk(s)
    ensures var s' := ReturnSerial(s, t); Shaped(s') && LeaderOk(s') && HistoryOk(s') && !Draining(s) && !Draining(s')
  {
    hide LeaderOk, HistoryOk;
    SerialLeader(s, t);
    SerialHistory(s, t);
    assert !Draining(s) && !Draining(ReturnSerial(s, t));
  }

  lemma SerialLeader(s: State, t: Tid)
    requires Shaped(s) && t in s.pc && s.pc[t].WakeRead? && s.leader == Some(t) && LeaderOk(s)
    ensures LeaderOk(ReturnSerial(s, t))
  {
  }

  lemma SerialHistory(s: State, t: Tid)
    requires Shaped(s) && t in s.pc && s.pc[t].WakeRead? && s.leader == Some(t) && LeaderOk(s) && HistoryOk(s)
    ensures HistoryOk(ReturnSerial(s, t))
  {
  }

  lemma SerialLocals(s: State, t: Tid)
    requires Shaped(s) && t in s.pc && s.pc[t].WakeRead? && s.leader == Some(t) && s.woken == []
    requires LocalsOk(s)
    ensures LocalsOk(ReturnSerial(s, t))
  {
    hide Chain, Distinct;
    LocalsFrame(s, ReturnSerial(s, t), t);
  }

  lemma SerialLists(s: State, t: Tid)
    requires Shaped(s) && t in s.pc && s.pc[t].WakeRead? && s.leader == Some(t) && s.woken == []
    requires StackOk(s) && ListOk(s) && LocalsOk(s)
    ensures var s' := ReturnSerial(s, t); StackOk(s') && ListOk(s') && LocalsOk(s')
  {
    var s' := ReturnSerial(s, t);
    hide Chain, Distinct, LocalsOk;
    SerialLocals(s, t);
    StackFrame(s, s');
    assert Held(s') == None == Held(s);
    assert !Draining(s');
    ListFrame(s, s');
  }

  lemma ReturnKeeps(s: State, t: Tid)
    requires Shaped(s) && t in s.pc && s.pc[t] == Woken
    requires Inv(s)
    ensures Inv(Return(s, t))
  {
    hide StackOk, ListOk, HistoryOk, LeaderOk, LocalsOk, LocalOk, Inside;
    ReturnRoles(s, t);
    CountMoves(s.pc, t, Out, Gathering);
    ReturnLists(s, t);
  }

  lemma ReturnRoles(s: State, t: Tid)
    requires Shaped(s) && t in s.pc && s.pc[t] == Woken && LeaderOk(s) && HistoryOk(s)
    ensures var s' := Return(s, t);
      Shaped(s') && LeaderOk(s') && HistoryOk(s') && !Draining(s) && !Draining(s') && s.leader != Some(t)
  {
    ReturnLeader(s, t);
    hide LeaderOk, Draining, Leads;
  }

  lemma ReturnLeader(s: State, t: Tid)
    requires Shaped(s) && t in s.pc && s.pc[t] == Woken && LeaderOk(s)
    ensures var s' := Return(s, t); LeaderOk(s') && !Draining(s) && !Draining(s') && s.leader != Some(t)
    ensures Inside(s.pc[t]) && !Inside(Out)
  {
    assert s.leader != Some(t);
    assert !Draining(s) && !Draining(Return(s, t));
  }

  lemma ReturnLocals(s: State, t: Tid)
    requires Shaped(s) && t in s.pc && s.pc[t] == Woken && s.leader != Some(t)
    requires LocalsOk(s)
    ensures LocalsOk(Return(s, t))
  {
    hide Chain, Distinct;
    LocalsFrame(s, Return(s, t), t);
  }

  lemma ReturnLists(s: State, t: Tid)
    requires Shaped(s) && t in s.pc && s.pc[t] == Woken && s.leader != Some(t)
    requires StackOk(s) && ListOk(s) && LocalsOk(s)
    ensures var s' := Return(s, t); StackOk(s') && ListOk(s') && LocalsOk(s')
  {
    hide StackOk, ListOk, LocalsOk;
    ReturnLocals(s, t);
    QuietStack(s, Return(s, t), t, Out);
    QuietList(s, Return(s, t), t, Out);
  }

  // ----- every step

  /** Reading, and failing a compare-and-swap, outside the leader's part. */
  predicate ReadsTo(s: State, t: Tid, pc: Pc)
    requires t in s.pc
  {
    match s.pc[t]
    case Out => pc == Read
    case Read => pc == Cas(s.word)
    case Cas(_) => pc == Read
    case PushRead => pc == PushLink(s.top)
    case PushCas(_) => pc == PushRead
    case _ => false
  }

  lemma ReadKeeps(s: State, t: Tid, pc: Pc)
    requires Shaped(s) && t in s.pc && ReadsTo(s, t, pc)
    requires Inv(s)
    ensures Inv(Go(s, t, pc))
  {
    hide StackOk, ListOk, HistoryOk, LocalsOk, WordOk;
    ReadCounts(s, t, pc);
    assert SameRole(s.pc[t], pc);
    assert LocalOk(Go(s, t, pc), t);
    hide LeaderOk, LocalOk, CountsOk, SameRole, ReadsTo;
    LocalMove(s, t, pc);
  }

  lemma ReadCounts(s: State, t: Tid, pc: Pc)
    requires t in s.pc && ReadsTo(s, t, pc) && LeaderOk(s) && CountsOk(s)
    ensures CountsOk(Go(s, t, pc))
  {
    CountMoves(s.pc, t, pc, Gathering);
    assert s.leader != Some(t);
  }

  /** Nobody outside can see the full word: everybody is inside until it is reset. */
  lemma NotExcess(s: State, t: Tid)
    requires t in s.pc && s.pc[t].Read? && LeaderOk(s) && WordOk(s)
    ensures s.word < N(s)
  {
  }

  /** The leader's own reads. */
  predicate LeadsTo(s: State, t: Tid, pc: Pc)
    requires t in s.pc
  {
    match s.pc[t]
    case PopRead(want, i, head, tail) => s.top != None && pc == PopNext(want, i, head, tail, s.top.value)
    case PopNext(want, i, head, tail, x) => x in s.next && pc == PopCas(want, i, head, tail, x, s.next[x])
    case PopCas(want, i, head, tail, _, _) => pc == PopRead(want, i, head, tail)
    case WakeRead(want, i, cur) =>
      i < want && cur != None && cur.value in s.next && pc == WakePush(want, i, cur, s.next[cur.value])
    case _ => false
  }

  lemma LeadKeeps(s: State, t: Tid, pc: Pc)
    requires Shaped(s) && t in s.pc && LeadsTo(s, t, pc)
    requires Inv(s)
    ensures Inv(Go(s, t, pc))
  {
    hide StackOk, ListOk, HistoryOk, WordOk;
    LeaderIs(s, t);
    hide LeaderOk;
    LeadCounts(s, t, pc);
    LeadLocal(s, t, pc);
    assert SameRole(s.pc[t], pc);
    hide LocalOk, LocalsOk, CountsOk, SameRole, LeadsTo;
    LocalMove(s, t, pc);
  }

  lemma LeadCounts(s: State, t: Tid, pc: Pc)
    requires t in s.pc && s.leader == Some(t) && LeadsTo(s, t, pc) && CountsOk(s)
    ensures CountsOk(Go(s, t, pc))
  {
    CountMoves(s.pc, t, pc, Gathering);
  }

  lemma LeadLocal(s: State, t: Tid, pc: Pc)
    requires Shaped(s) && t in s.pc && s.leader == Some(t) && LeadsTo(s, t, pc)
    requires StackOk(s) && ListOk(s) && CountsOk(s) && LocalsOk(s)
    ensures LocalOk(Go(s, t, pc), t)
  {
    assert LocalOk(s, t);
    if s.pc[t].WakeRead? {
      assert Chain(s.next, s.pc[t].cur, s.woken);
    }
  }

  lemma PopSucceeds(s: State, t: Tid)
    requires Enabled(s, t) && s.pc[t].PopCas? && s.top == Some(s.pc[t].x)
    requires Inv(s)
    ensures CanPop(s, t, s.pc[t].x, s.pc[t].nx)
  {
    hide ListOk, HistoryOk, WordOk, CountsOk;
    LeaderIs(s, t);
    hide LeaderOk;
    assert LocalOk(s, t);
  }

  lemma LinkReady(s: State, t: Tid)
    requires Enabled(s, t) && s.pc[t].Link?
    requires Inv(s)
    ensures var p := s.pc[t]; CanLink(s, t, p.want, p.i, p.head, p.tail, p.x)
  {
    hide HistoryOk, WordOk, CountsOk, Chain, Distinct;
    LeaderIs(s, t);
    hide LeaderOk;
    assert LocalOk(s, t);
    assert Held(s) == Some(s.pc[t].x);
  }

  lemma WakeReady(s: State, t: Tid)
    requires Enabled(s, t) && s.pc[t].WakePush?
    requires Inv(s)
    ensures CanWake(s, t, s.pc[t].cur.value, s.pc[t].nx)
  {
    hide HistoryOk, WordOk, CountsOk, Chain, Distinct, StackOk;
    LeaderIs(s, t);
    hide LeaderOk;
    assert LocalOk(s, t);
    assert s.woken[0] in s.woken;
  }

  lemma NextKeeps(s: State, t: Tid)
    requires Enabled(s, t)
    requires Inv(s)
    ensures Inv(Next(s, t))
  {
    hide StackOk, ListOk, HistoryOk, LeaderOk, LocalsOk, LocalOk, CountsOk, WordOk;
    match s.pc[t]
    case Out => ReadKeeps(s, t, Read);
    case Read => NotExcess(s, t); ReadKeeps(s, t, Cas(s.word));
    case Cas(c) =>
      if c != s.word { ReadKeeps(s, t, Read); }
      else if c == N(s) - 1 { LastArrives(s, t); }
      else { ArriveKeeps(s, t); }
    case PushRead => ReadKeeps(s, t, PushLink(s.top));
    case PushLink(p) => PushLinkKeeps(s, t, p);
    case PushCas(p) => if s.top != p { ReadKeeps(s, t, PushRead); } else { SleepKeeps(s, t); }
    case Woken => ReturnKeeps(s, t);
    case _ => LeaderKeeps(s, t);
  }

  lemma LeaderKeeps(s: State, t: Tid)
    requires Enabled(s, t) && Leads(s.pc[t])
    requires Inv(s)
    ensures Inv(Next(s, t))
  {
    hide StackOk, ListOk, HistoryOk, LeaderOk, LocalsOk, LocalOk, CountsOk, WordOk;
    match s.pc[t]
    case Reset(want) => ResetKeeps(s, t, want);
    case PopRead(want, i, head, tail) => LeadKeeps(s, t, PopNext(want, i, head, tail, s.top.value));
    case PopNext(want, i, head, tail, x) => LeadKeeps(s, t, PopCas(want, i, head, tail, x, s.next[x]));
    case PopCas(want, i, head, tail, x, nx) =>
      if s.top != Some(x) { LeadKeeps(s, t, PopRead(want, i, head, tail)); }
      else { PopSucceeds(s, t); PopKeeps(s, t, x, nx); }
    case Link(want, i, head, tail, x) => LinkReady(s, t); LinkKeeps(s, t, want, i, head, tail, x);
    case WakeRead(want, i, cur) =>
      if i < want { LeadKeeps(s, t, WakePush(want, i, cur, s.next[cur.value])); } else { SerialKeeps(s, t); }
    case WakePush(_, _, cur, nx) => WakeReady(s, t); WakeKeeps(s, t, cur.value, nx);
    case _ =>
  }

  // ----- whole runs

  predicate Runs(s: State, who: seq<Tid>)
    decreases |who|
  {
    who == [] || (Enabled(s, who[0]) && Runs(Next(s, who[0]), who[1..]))
  }

  function Exec(s: State, who: seq<Tid>): State
    requires Runs(s, who)
    decreases |who|
  {
    if who == [] then s else Exec(Next(s, who[0]), who[1..])
  }

  lemma {:induction false} RunKeeps(s: State, who: seq<Tid>)
    requires Runs(s, who)
    requires Inv(s)
    ensures Inv(Exec(s, who))
    decreases |who|
  {
    if who != [] {
      NextKeeps(s, who[0]);
      hide Inv;
      RunKeeps(Next(s, who[0]), who[1..]);
    }
  }

  lemma InitInv(s: State)
    requires Init(s)
    ensures Inv(s)
  {
    CountNone(s.pc, Gathering);
  }

  lemma Reachable(s: State, who: seq<Tid>)
    requires Init(s) && Runs(s, who)
    ensures Inv(Exec(s, who))
  {
    InitInv(s);
    RunKeeps(s, who);
  }

  /** Nobody returns from its k-th wait before everybody has arrived k times, and
      nobody is a whole round ahead. */
  lemma NobodyPassesEarly(s: State, who: seq<Tid>, t: Tid, u: Tid)
    requires Init(s) && Runs(s, who) && t in Exec(s, who).pc && u in Exec(s, who).pc
    ensures var e := Exec(s, who);
      Shaped(e) && e.returned[t] <= e.arrived[u] && e.arrived[t] <= e.arrived[u] + 1
  {
    Reachable(s, who);
    var e := Exec(s, who);
    hide StackOk, ListOk, LocalsOk, CountsOk, WordOk;
    assert e.arrived[t] <= e.gen + 1 && e.arrived[u] >= e.gen && e.arrived[t] >= e.gen;
  }

  /** Every completed generation has exactly one serial thread: the last arriver. */
  lemma OneSerialPerGeneration(s: State, who: seq<Tid>, t: Tid)
    requires Init(s) && Runs(s, who) && t in Exec(s, who).pc && Enabled(Exec(s, who), t)
    ensures var e := Exec(s, who);
      var e' := Next(e, t);
      && (|e'.serials| == |e.serials| <==> !(e.pc[t].WakeRead? && e.pc[t].i >= e.pc[t].want))
      && (e.pc[t].WakeRead? && e.pc[t].i >= e.pc[t].want ==>
            e'.serials == e.serials + [t] && |e'.serials| == e.gen == e'.returned[t])
  {
    hide StackOk, ListOk, LocalsOk, Next;
    Reachable(s, who);
    var e := Exec(s, who);
    SerialStep(e, t);
    if e.pc[t].WakeRead? && e.pc[t].i >= e.pc[t].want {
      LeaderIs(e, t);
    }
  }

  lemma SerialStep(s: State, t: Tid)
    requires Enabled(s, t)
    ensures var s' := Next(s, t);
      if s.pc[t].WakeRead? && s.pc[t].i >= s.pc[t].want then s' == ReturnSerial(s, t) else s'.serials == s.serials
  {
  }

  /** The exit for excess threads is unreachable for a fixed set of participants. */
  lemma NoExcess(s: State, who: seq<Tid>, t: Tid)
    requires Init(s) && Runs(s, who) && t in Exec(s, who).pc
    ensures Exec(s, who).pc[t] != Excess
  {
    Reachable(s, who);
  }

  /** No ABA: when the top still is the node that the leader read, the successor
      read earlier is the one to install. */
  lemma NoAba(s: State, who: seq<Tid>, t: Tid)
    requires Init(s) && Runs(s, who) && t in Exec(s, who).pc
    requires var e := Exec(s, who); e.pc[t].PopCas? && e.top == Some(e.pc[t].x)
    ensures var e := Exec(s, who);
      e.stack != [] && e.stack[0] == e.pc[t].x && Chain(e.next, e.pc[t].nx, e.stack[1..])
  {
    Reachable(s, who);
    var e := Exec(s, who);
    assert LocalOk(e, t);
    ChainTail(e.next, e.top, e.stack);
  }

  /** What the last arriver hands to the run queue is every other participant,
      each once: the sleepers of this generation and no others. */
  lemma LeaderCollectsAllOthers(s: State, who: seq<Tid>, t: Tid)
    requires Init(s) && Runs(s, who) && t in Exec(s, who).pc
    requires var e := Exec(s, who); e.pc[t].Link? && e.pc[t].i + 1 == e.pc[t].want
    requires Enabled(Exec(s, who), t)
    ensures var e' := Next(Exec(s, who), t);
      Distinct(e'.woken) && forall u :: u in e'.woken <==> u in e'.pc && u != t
  {
    Reachable(s, who);
    var e := Exec(s, who);
    hide StackOk, HistoryOk, WordOk, LocalOk, LocalsOk, Init, Runs, Exec;
    LeaderIs(e, t);
    CollectedAll(e, t);
    hide LeaderOk, CountsOk;
    LinkReady(e, t);
    var p := e.pc[t];
    assert Held(e) == Some(p.x);
    hide ListHead, ListTail, Draining, Chain;
    LinkMembers(e, p.x);
    assert Next(e, t).woken == e.woken + [p.x];
    assert forall u :: u in Next(e, t).pc <==> u in e.pc;
  }

  lemma CollectedAll(e: State, t: Tid)
    requires t in e.pc && e.pc[t].Link? && e.pc[t].i + 1 == e.pc[t].want && e.leader == Some(t)
    requires LeaderOk(e) && CountsOk(e)
    ensures forall u :: u in e.pc && u != t ==> e.pc[u].Collected?
  {
    assert Draining(e);
    NobodyGathers(e);
  }

  /** While the leader spins on an empty stack, somebody it waits for has arrived
      and is about to enter the stack. */
  lemma PopSpinIsServed(s: State, who: seq<Tid>, t: Tid)
    requires Init(s) && Runs(s, who) && t in Exec(s, who).pc
    requires Exec(s, who).pc[t].PopRead? && Exec(s, who).top == None
    ensures var e := Exec(s, who);
      exists u :: u in e.pc && (e.pc[u].PushRead? || e.pc[u].PushLink? || e.pc[u].PushCas?) && Enabled(e, u)
  {
    Reachable(s, who);
    var e := Exec(s, who);
    LeaderIs(e, t);
    CountSome(e.pc, Gathering);
    var u :| u in e.pc && Gathering(e.pc[u]);
    assert e.stack == [];
    assert u !in e.stack;
    assert Enabled(e, u);
  }
}
