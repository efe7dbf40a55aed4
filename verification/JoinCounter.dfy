/** The join counter: one word packs the number of waiters above the number of decrements.
    A waiter reserves its seat by compare-and-swap and enters the sleep queue after its
    context has been saved; the last decrement wakes as many as the word announced.

    `decs`, `reg`, `out` and `leader` are history variables: the decrements so far, the
    threads that have reserved a seat, those dequeued, and who made the last decrement.
    `on` says which threads occupy a worker: a thread leaves its worker only where the runtime
    switches context, and not between reserving a seat and entering the queue. */
module JoinCounter {
  import opened Arithmetic
  import opened Base

  type Tid = nat
  type Worker = nat

  predicate LeastBits(n: nat, b: nat) {
    n < Pow2(b) && (b > 0 ==> Pow2(b - 1) <= n)
  }

  /** The least number of bits that holds x. */
  method CalcBits(x: int) returns (b: nat)
    ensures x < Pow2(b)
    ensures forall c: nat :: x < Pow2(c) ==> b <= c
    ensures x >= 0 ==> LeastBits(x, b)
  {
    b := 0;
    while x >= Pow2(b)
      invariant forall c: nat :: c < b ==> x >= Pow2(c)
      decreases x - b
    {
      Pow2Exceeds(b);
      b := b + 1;
    }
  }

  /** The fields of the word: shifted down, and masked. */
  function Waiters(word: nat, p: nat): (w: nat)
    requires p > 0
  {
    assert word / p >= 0;
    word / p
  }

  function Decs(word: nat, p: nat): (d: nat)
    requires p > 0
    ensures d < p
  {
    word % p
  }

  datatype Pc =
    | Out
    | WaitRead(woken: bool)
    | WaitCas(seen: nat, woken: bool)
    | Reserved
    | Asleep
    | Collected
    | DecRead
    | DecCas(seen: nat)
    | Waking(want: nat, hand: seq<Tid>)
    | Pushing(hand: seq<Tid>)
    | Excess

  /** n decrements are awaited; `bits` is CalcBits(n). */
  datatype State = State(
    n: nat, bits: nat, word: nat, queue: seq<Tid>, pc: map<Tid, Pc>, on: map<Tid, Worker>,
    decs: nat, reg: set<Tid>, out: set<Tid>, leader: Option<Tid>)

  datatype Act =
    | CallWait(t: Tid) | CallDec(t: Tid) | Step(t: Tid)
    | Dispatch(t: Tid, w: Worker) | Leave(t: Tid)

  predicate Enabled(s: State, a: Act) {
    a.t in s.pc &&
    match a
    case CallWait(t) => t in s.on && s.pc[t] == Out
    case CallDec(t) => t in s.on && s.pc[t] == Out
    case Step(t) => t in s.on && CanStep(s, s.pc[t])
    // a worker picks a runnable thread
    case Dispatch(t, w) =>
      && t !in s.on && (s.pc[t].Out? || s.pc[t].WaitRead?)
      && forall u :: u in s.on ==> s.on[u] != w
    // user code may yield
    case Leave(t) => t in s.on && s.pc[t].Out?
  }

  predicate CanStep(s: State, pc: Pc) {
    match pc
    case Out => false
    case Asleep => false
    case Collected => false
    case Excess => false
    case Waking(want, hand) => |hand| < want ==> s.queue != []
    case _ => true
  }

  function Go(s: State, t: Tid, pc: Pc): State {
    s.(pc := s.pc[t := pc])
  }

  function Reserve(s: State, t: Tid): State {
    Go(s.(word := s.word + Pow2(s.bits), reg := s.reg + {t}), t, Reserved)
  }

  function Decrement(s: State, t: Tid): State {
    var s' := s.(word := s.word + 1, decs := s.decs + 1);
    if Decs(s.word, Pow2(s.bits)) + 1 == s.n then Go(s'.(leader := Some(t)), t, Waking(Waiters(s.word, Pow2(s.bits)), []))
    else Go(s', t, Out)
  }

  function Dequeue(s: State, t: Tid, want: nat, hand: seq<Tid>): State
    requires s.queue != []
  {
    var w := s.queue[0];
    Go(Go(s.(queue := s.queue[1..], out := s.out + {w}), w, Collected), t, Waking(want, hand + [w]))
  }

  function PushOne(s: State, t: Tid, hand: seq<Tid>): State
    requires hand != []
  {
    Go(Go(s, hand[0], WaitRead(true)), t, Pushing(hand[1..]))
  }

  function StepNext(s: State, t: Tid): State
    requires Enabled(s, Step(t))
  {
    var p := Pow2(s.bits);
    match s.pc[t]
    case WaitRead(w) => Go(s, t, if Decs(s.word, p) == s.n then Out else WaitCas(s.word, w))
    case WaitCas(seen, w) => if seen == s.word then Reserve(s, t) else Go(s, t, WaitRead(w))
    case Reserved => Go(s.(queue := s.queue + [t], on := s.on - {t}), t, Asleep)
    case DecRead => Go(s, t, if Decs(s.word, p) >= s.n then Excess else DecCas(s.word))
    case DecCas(seen) => if seen == s.word then Decrement(s, t) else Go(s, t, DecRead)
    case Waking(want, hand) => if |hand| < want then Dequeue(s, t, want, hand) else Go(s, t, Pushing(hand))
    case Pushing(hand) => if hand == [] then Go(s, t, Out) else PushOne(s, t, hand)
    case _ => s
  }

  function Next(s: State, a: Act): State
    requires Enabled(s, a)
  {
    match a
    case CallWait(t) => Go(s, t, WaitRead(false))
    case CallDec(t) => Go(s, t, DecRead)
    case Step(t) => StepNext(s, t)
    case Dispatch(t, w) => s.(on := s.on[t := w])
    case Leave(t) => s.(on := s.on - {t})
  }

  ghost predicate Init(s: State) {
    && LeastBits(s.n, s.bits)
    && s.word == 0 && s.queue == [] && (forall t :: t in s.pc ==> s.pc[t] == Out)
    && s.decs == 0 && s.reg == {} && s.out == {} && s.leader == None && s.on == map[]
  }

  predicate InWait(pc: Pc) { pc.WaitRead? || pc.WaitCas? || pc.Reserved? || pc.Asleep? || pc.Collected? }

  // ----- the invariant

  /** The two fields of the word never run into each other. */
  predicate WordOk(s: State) {
    && s.n < Pow2(s.bits) && s.decs <= s.n
    && s.word == |s.reg| * Pow2(s.bits) + s.decs
  }

  ghost predicate QueueOk(s: State) {
    && (forall i, j :: 0 <= i < j < |s.queue| ==> s.queue[i] != s.queue[j])
    && (forall t :: t in s.queue <==> t in s.pc && s.pc[t] == Asleep)
  }

  predicate Seated(pc: Pc) { pc.Reserved? || pc.Asleep? }

  ghost predicate SeatsOk(s: State) {
    && s.out <= s.reg
    && (forall t :: t in s.reg && t !in s.out <==> t in s.pc && Seated(s.pc[t]))
    && (forall t :: t in s.reg ==> t in s.pc)
  }

  /** Until the last decrement nobody is woken; then only its thread wakes. */
  ghost predicate LeaderOk(s: State) {
    && (s.leader == None ==> s.out == {} && if s.n > 0 then s.decs < s.n else s.reg == {})
    && (s.leader.Some? ==> s.decs == s.n && s.leader.value in s.pc)
    && (forall t :: t in s.pc && (s.pc[t].Waking? || s.pc[t].Pushing?) ==> s.leader == Some(t))
    && (forall t :: t in s.pc && s.pc[t] == Collected ==>
          s.leader.Some? && (s.pc[s.leader.value].Waking? || s.pc[s.leader.value].Pushing?) && t in s.pc[s.leader.value].hand)
    && (s.leader.Some? && !s.pc[s.leader.value].Waking? ==> s.out == s.reg)
  }

  ghost predicate HandOk(s: State) {
    forall t :: t in s.pc && (s.pc[t].Waking? || s.pc[t].Pushing?) ==>
      var hand := s.pc[t].hand;
      && (forall u :: u in hand ==> u in s.pc && s.pc[u] == Collected)
      && (forall i, j :: 0 <= i < j < |hand| ==> hand[i] != hand[j])
      && (s.pc[t].Waking? ==> s.pc[t].want == |s.reg| && |hand| == |s.out| <= |s.reg|)
  }

  /** A value read from the word is stale in the decrements once it differs. */
  predicate LocalOk(s: State, pc: Pc) {
    match pc
    case WaitRead(woken) => woken ==> s.decs == s.n
    case WaitCas(seen, woken) => Decs(seen, Pow2(s.bits)) != s.n && (woken ==> s.decs == s.n)
    case DecCas(seen) => Decs(seen, Pow2(s.bits)) < s.n
    case Excess => s.decs == s.n
    case _ => true
  }

  ghost predicate LocalsOk(s: State) {
    forall t :: t in s.pc ==> LocalOk(s, s.pc[t])
  }

  ghost predicate Core(s: State) {
    WordOk(s) && QueueOk(s) && SeatsOk(s) && LeaderOk(s) && HandOk(s) && LocalsOk(s)
  }

  predicate OnWorker(pc: Pc) {
    pc.WaitCas? || pc.Reserved? || pc.DecRead? || pc.DecCas? || pc.Waking? || pc.Pushing?
  }

  ghost predicate PlacesOk(s: State) {
    && (forall t :: t in s.on ==> t in s.pc && !s.pc[t].Asleep? && !s.pc[t].Collected?)
    && (forall t :: t in s.pc && OnWorker(s.pc[t]) ==> t in s.on)
    && (forall t, u :: t in s.on && u in s.on && s.on[t] == s.on[u] ==> t == u)
  }

  ghost predicate Inv(s: State) {
    Core(s) && PlacesOk(s)
  }

  lemma Unpack(w: nat, p: nat, d: nat)
    requires d < p
    ensures Decs(w * p + d, p) == d && Waiters(w * p + d, p) == w
  {
    DivMod(w * p + d, p, w, d);
  }

  // ----- preservation

  predicate Loose(pc: Pc) {
    pc.Out? || pc.WaitRead? || pc.WaitCas? || pc.DecRead? || pc.DecCas? || pc.Excess?
  }

  /** A move between program points that no list and no count speaks of. */
  lemma PlainKeeps(s: State, t: Tid, pc: Pc)
    requires t in s.pc && Loose(s.pc[t]) && Loose(pc) && LocalOk(s, pc)
    requires Core(s)
    ensures Core(Go(s, t, pc))
  {
    hide QueueOk, SeatsOk, LeaderOk, HandOk, LocalsOk, LocalOk;
    PlainLists(s, t, pc);
    PlainLeader(s, t, pc);
  }

  lemma PlainLists(s: State, t: Tid, pc: Pc)
    requires t in s.pc && Loose(s.pc[t]) && Loose(pc) && LocalOk(s, pc)
    requires QueueOk(s) && SeatsOk(s) && LocalsOk(s)
    ensures var s' := Go(s, t, pc); QueueOk(s') && SeatsOk(s') && LocalsOk(s')
  {
    var s' := Go(s, t, pc);
    forall u | u in s'.pc ensures LocalOk(s', s'.pc[u]) {
      if u != t { assert LocalOk(s, s.pc[u]); }
    }
  }

  lemma PlainLeader(s: State, t: Tid, pc: Pc)
    requires t in s.pc && Loose(s.pc[t]) && Loose(pc)
    requires LeaderOk(s) && HandOk(s)
    ensures var s' := Go(s, t, pc); LeaderOk(s') && HandOk(s')
  {
  }

  lemma FieldsOf(s: State)
    requires WordOk(s)
    ensures Decs(s.word, Pow2(s.bits)) == s.decs && Waiters(s.word, Pow2(s.bits)) == |s.reg|
  {
    Unpack(|s.reg|, Pow2(s.bits), s.decs);
  }

  lemma ReserveKeeps(s: State, t: Tid)
    requires t in s.pc && s.pc[t].WaitCas? && s.pc[t].seen == s.word && Core(s)
    ensures Core(Reserve(s, t))
  {
    hide Pow2, Decs, Waiters, QueueOk, SeatsOk, HandOk;
    FieldsOf(s);
    assert LocalOk(s, s.pc[t]);
    FreshSeat(s, t);
    ReserveWord(s, t);
    ReserveFrame(s, t);
  }

  lemma FreshSeat(s: State, t: Tid)
    requires t in s.pc && s.pc[t].WaitCas? && s.out == {} && SeatsOk(s)
    ensures t !in s.reg
  {
  }

  lemma ReserveFrame(s: State, t: Tid)
    requires t in s.pc && s.pc[t].WaitCas? && s.decs < s.n && s.leader == None && t !in s.reg
    requires QueueOk(s) && SeatsOk(s) && LeaderOk(s) && HandOk(s) && LocalsOk(s)
    ensures var s' := Reserve(s, t); QueueOk(s') && SeatsOk(s') && LeaderOk(s') && HandOk(s') && LocalsOk(s')
  {
    hide Pow2, Decs;
    var s' := Reserve(s, t);
    assert LocalsOk(s') by {
      forall u | u in s'.pc ensures LocalOk(s', s'.pc[u]) {
        if u != t { assert LocalOk(s, s.pc[u]); }
      }
    }
  }

  lemma ReserveWord(s: State, t: Tid)
    requires WordOk(s) && t !in s.reg
    ensures WordOk(Reserve(s, t))
  {
    var r := |s.reg|;
    assert |s.reg + {t}| == r + 1;
    assert (r + 1) * Pow2(s.bits) == r * Pow2(s.bits) + Pow2(s.bits);
  }

  lemma EnqueueKeeps(s: State, t: Tid)
    requires t in s.pc && s.pc[t] == Reserved && Core(s)
    ensures Core(Go(s.(queue := s.queue + [t], on := s.on - {t}), t, Asleep))
  {
    assert t !in s.queue;
  }

  lemma DecrementKeeps(s: State, t: Tid)
    requires t in s.pc && s.pc[t].DecCas? && s.pc[t].seen == s.word && Core(s)
    ensures Core(Decrement(s, t))
  {
    hide Pow2, Decs, Waiters, QueueOk, SeatsOk, HandOk;
    FieldsOf(s);
    assert LocalOk(s, s.pc[t]);
    DecrementLocals(s, t);
    if s.decs + 1 == s.n { LastKeeps(s, t); } else { NotLastKeeps(s, t); }
  }

  lemma NotLastKeeps(s: State, t: Tid)
    requires t in s.pc && s.pc[t].DecCas? && s.leader == None
    requires s.decs + 1 < s.n && Decs(s.word, Pow2(s.bits)) == s.decs
    requires WordOk(s) && QueueOk(s) && SeatsOk(s) && LeaderOk(s) && HandOk(s)
    ensures var s' := Decrement(s, t); WordOk(s') && QueueOk(s') && SeatsOk(s') && LeaderOk(s') && HandOk(s')
  {
    hide Pow2, Decs, Waiters;
  }

  lemma DecrementLocals(s: State, t: Tid)
    requires t in s.pc && s.decs < s.n && LocalsOk(s)
    ensures LocalsOk(Decrement(s, t))
  {
    var s' := Decrement(s, t);
    forall u | u in s'.pc ensures LocalOk(s', s'.pc[u]) {
      if u != t { assert LocalOk(s, s.pc[u]); }
    }
  }

  lemma LastKeeps(s: State, t: Tid)
    requires t in s.pc && s.pc[t].DecCas? && s.leader == None
    requires s.decs + 1 == s.n && Decs(s.word, Pow2(s.bits)) == s.decs
    requires Waiters(s.word, Pow2(s.bits)) == |s.reg|
    requires WordOk(s) && QueueOk(s) && SeatsOk(s) && LeaderOk(s) && HandOk(s)
    ensures var s' := Decrement(s, t); WordOk(s') && QueueOk(s') && SeatsOk(s') && LeaderOk(s') && HandOk(s')
  {
    hide Pow2, Decs, Waiters;
  }

  lemma DequeueKeeps(s: State, t: Tid, want: nat, hand: seq<Tid>)
    requires t in s.pc && s.pc[t] == Waking(want, hand) && s.queue != [] && Core(s)
    ensures Core(Dequeue(s, t, want, hand))
  {
    var w := s.queue[0];
    assert w in s.queue && w != t && w !in s.out && w !in hand;
    DequeueQueue(s, t, want, hand);
    DequeueSeats(s, t, want, hand);
    DequeueHands(s, t, want, hand);
  }

  lemma DequeueQueue(s: State, t: Tid, want: nat, hand: seq<Tid>)
    requires t in s.pc && s.pc[t] == Waking(want, hand) && s.queue != [] && s.queue[0] != t
    requires QueueOk(s) && WordOk(s) && LocalsOk(s)
    ensures var s' := Dequeue(s, t, want, hand); QueueOk(s') && WordOk(s') && LocalsOk(s')
  {
    var w := s.queue[0];
    assert s.queue == [w] + s.queue[1..];
    assert forall u :: u in s.queue <==> u == w || u in s.queue[1..];
  }

  lemma DequeueSeats(s: State, t: Tid, want: nat, hand: seq<Tid>)
    requires t in s.pc && s.pc[t] == Waking(want, hand) && s.queue != []
    requires s.queue[0] in s.pc && Seated(s.pc[s.queue[0]])
    requires SeatsOk(s)
    ensures SeatsOk(Dequeue(s, t, want, hand))
  {
  }

  lemma DequeueHands(s: State, t: Tid, want: nat, hand: seq<Tid>)
    requires t in s.pc && s.pc[t] == Waking(want, hand) && s.queue != []
    requires s.queue[0] in s.pc && s.pc[s.queue[0]] == Asleep
    requires s.queue[0] in s.reg && s.queue[0] !in s.out
    requires LeaderOk(s) && HandOk(s) && s.out <= s.reg
    ensures LeaderOk(Dequeue(s, t, want, hand)) && HandOk(Dequeue(s, t, want, hand))
  {
    var w := s.queue[0];
    Smaller(s.out + {w}, s.reg);
  }

  lemma Smaller<K>(a: set<K>, b: set<K>)
    requires a <= b
    ensures |a| <= |b|
    ensures |a| == |b| ==> a == b
  {
    assert b == a + (b - a);
  }

  lemma StopKeeps(s: State, t: Tid, want: nat, hand: seq<Tid>)
    requires t in s.pc && s.pc[t] == Waking(want, hand) && |hand| >= want && Core(s)
    ensures Core(Go(s, t, Pushing(hand)))
  {
    Smaller(s.out, s.reg);
  }

  lemma PushKeeps(s: State, t: Tid, hand: seq<Tid>)
    requires t in s.pc && s.pc[t] == Pushing(hand) && hand != [] && Core(s)
    ensures Core(PushOne(s, t, hand))
  {
    var w := hand[0];
    assert w in hand && w != t;
    assert hand == [w] + hand[1..];
    PushLists(s, t, hand);
    PushHands(s, t, hand);
  }

  lemma PushLists(s: State, t: Tid, hand: seq<Tid>)
    requires t in s.pc && s.pc[t] == Pushing(hand) && hand != []
    requires hand[0] in s.pc && s.pc[hand[0]] == Collected && s.decs == s.n
    requires WordOk(s) && QueueOk(s) && SeatsOk(s) && LocalsOk(s)
    ensures var s' := PushOne(s, t, hand); WordOk(s') && QueueOk(s') && SeatsOk(s') && LocalsOk(s')
  {
    hide QueueOk, SeatsOk, LocalsOk, Pow2;
    PushQueue(s, t, hand);
    PushSeats(s, t, hand);
    PushLocals(s, t, hand);
  }

  lemma PushQueue(s: State, t: Tid, hand: seq<Tid>)
    requires t in s.pc && s.pc[t] == Pushing(hand) && hand != [] && hand[0] in s.pc && s.pc[hand[0]] == Collected && QueueOk(s)
    ensures QueueOk(PushOne(s, t, hand))
  {
  }

  lemma PushSeats(s: State, t: Tid, hand: seq<Tid>)
    requires t in s.pc && s.pc[t] == Pushing(hand) && hand != [] && hand[0] in s.pc && s.pc[hand[0]] == Collected && SeatsOk(s)
    ensures SeatsOk(PushOne(s, t, hand))
  {
  }

  lemma PushLocals(s: State, t: Tid, hand: seq<Tid>)
    requires t in s.pc && s.pc[t] == Pushing(hand) && hand != [] && s.decs == s.n && LocalsOk(s)
    ensures LocalsOk(PushOne(s, t, hand))
  {
    hide Decs, Pow2;
    var s' := PushOne(s, t, hand);
    forall u | u in s'.pc ensures LocalOk(s', s'.pc[u]) {
      if u != t && u != hand[0] { assert LocalOk(s, s.pc[u]); }
    }
  }

  lemma PushHands(s: State, t: Tid, hand: seq<Tid>)
    requires t in s.pc && s.pc[t] == Pushing(hand) && hand != [] && hand[0] in s.pc && s.pc[hand[0]] == Collected
    requires LeaderOk(s) && HandOk(s)
    ensures LeaderOk(PushOne(s, t, hand)) && HandOk(PushOne(s, t, hand))
  {
    var w := hand[0];
    assert hand == [w] + hand[1..];
    assert forall u :: u in hand <==> u == w || u in hand[1..];
  }

  lemma EndKeeps(s: State, t: Tid)
    requires t in s.pc && s.pc[t] == Pushing([]) && Core(s)
    ensures Core(Go(s, t, Out))
  {
  }

  lemma StepKeeps(s: State, t: Tid)
    requires Enabled(s, Step(t)) && Core(s)
    ensures Core(StepNext(s, t))
  {
    hide Core, Pow2, Decs;
    match s.pc[t]
    case WaitRead(w) => ReadKeeps(s, t);
    case WaitCas(seen, w) =>
      if seen == s.word { ReserveKeeps(s, t); } else { ReadKeeps(s, t); }
    case Reserved => EnqueueKeeps(s, t);
    case DecRead => ReadKeeps(s, t);
    case DecCas(seen) =>
      if seen == s.word { DecrementKeeps(s, t); } else { ReadKeeps(s, t); }
    case Waking(want, hand) =>
      if |hand| < want { DequeueKeeps(s, t, want, hand); } else { StopKeeps(s, t, want, hand); }
    case Pushing(hand) =>
      if hand == [] { EndKeeps(s, t); } else { PushKeeps(s, t, hand); }
  }

  lemma ReadKeeps(s: State, t: Tid)
    requires Enabled(s, Step(t)) && Core(s)
    requires s.pc[t].WaitRead? || s.pc[t].DecRead? || ((s.pc[t].WaitCas? || s.pc[t].DecCas?) && s.pc[t].seen != s.word)
    ensures Core(StepNext(s, t))
  {
    hide QueueOk, SeatsOk, LeaderOk, HandOk, Pow2, Decs;
    FieldsOf(s);
    assert LocalOk(s, s.pc[t]);
    PlainKeeps(s, t, StepNext(s, t).pc[t]);
  }

  lemma MovePlaces(s: State, s': State, t: Tid, pc: Pc)
    requires PlacesOk(s) && t in s.on && !pc.Asleep? && !pc.Collected? && s'.pc == s.pc[t := pc] && s'.on == s.on
    ensures PlacesOk(s')
  {
  }

  lemma TakePlaces(s: State, s': State, w: Tid, t: Tid, pc: Pc)
    requires PlacesOk(s) && w in s.pc && s.pc[w] == Asleep && t in s.on && !pc.Asleep? && !pc.Collected?
    requires s'.pc == s.pc[w := Collected][t := pc] && s'.on == s.on
    ensures PlacesOk(s')
  {
  }

  lemma FreePlaces(s: State, s': State, w: Tid, t: Tid, pc: Pc)
    requires PlacesOk(s) && w in s.pc && s.pc[w] == Collected && t in s.on && !pc.Asleep? && !pc.Collected?
    requires s'.pc == s.pc[w := WaitRead(true)][t := pc] && s'.on == s.on
    ensures PlacesOk(s')
  {
  }

  lemma StepPlaces(s: State, t: Tid)
    requires Enabled(s, Step(t)) && PlacesOk(s) && QueueOk(s) && HandOk(s)
    ensures PlacesOk(StepNext(s, t))
  {
    hide Pow2, Decs, Waiters;
    var s' := StepNext(s, t);
    match s.pc[t]
    case Waking(want, hand) =>
      if |hand| < want {
        assert s.queue[0] in s.queue;
        TakePlaces(s, s', s.queue[0], t, s'.pc[t]);
      }
    case Pushing(hand) =>
      if hand != [] {
        assert hand[0] in hand;
        FreePlaces(s, s', hand[0], t, s'.pc[t]);
      }
    case Reserved => LeavePlaces(s, t);
    case WaitRead(_) => MovePlaces(s, s', t, s'.pc[t]);
    case WaitCas(_, _) => MovePlaces(s, s', t, s'.pc[t]);
    case DecRead => MovePlaces(s, s', t, s'.pc[t]);
    case DecCas(_) => MovePlaces(s, s', t, s'.pc[t]);
  }

  lemma LeavePlaces(s: State, t: Tid)
    requires PlacesOk(s) && t in s.pc
    ensures PlacesOk(Go(s.(queue := s.queue + [t], on := s.on - {t}), t, Asleep))
  {
  }

  lemma CallKeeps(s: State, t: Tid, pc: Pc)
    requires t in s.pc && s.pc[t] == Out && t in s.on && (pc == WaitRead(false) || pc == DecRead) && Inv(s)
    ensures Inv(Go(s, t, pc))
  {
    PlainKeeps(s, t, pc);
  }

  lemma PlaceKeeps(s: State, a: Act)
    requires Enabled(s, a) && (a.Dispatch? || a.Leave?) && PlacesOk(s)
    ensures PlacesOk(Next(s, a)) && Next(s, a) == s.(on := Next(s, a).on)
  {
  }

  lemma CoreApart(s: State, s': State)
    requires Core(s) && s' == s.(on := s'.on)
    ensures Core(s')
  {
  }

  lemma NextKeeps(s: State, a: Act)
    requires Enabled(s, a) && Inv(s)
    ensures Inv(Next(s, a))
  {
    hide WordOk, QueueOk, SeatsOk, LeaderOk, HandOk, LocalsOk, PlacesOk, Pow2, Decs;
    match a
    case CallWait(t) => CallKeeps(s, t, WaitRead(false));
    case CallDec(t) => CallKeeps(s, t, DecRead);
    case Step(t) => StepKeeps(s, t); StepPlaces(s, t);
    case _ => PlaceKeeps(s, a); CoreApart(s, Next(s, a));
  }

  // ----- whole runs

  predicate Runs(s: State, acts: seq<Act>)
    decreases |acts|
  {
    acts == [] || (Enabled(s, acts[0]) && Runs(Next(s, acts[0]), acts[1..]))
  }

  function Exec(s: State, acts: seq<Act>): State
    requires Runs(s, acts)
    decreases |acts|
  {
    if acts == [] then s else Exec(Next(s, acts[0]), acts[1..])
  }

  lemma {:induction false} RunKeeps(s: State, acts: seq<Act>)
    requires Runs(s, acts) && Inv(s)
    ensures Inv(Exec(s, acts))
    decreases |acts|
  {
    hide Inv, Enabled, Next;
    if acts != [] {
      NextKeeps(s, acts[0]);
      RunKeeps(Next(s, acts[0]), acts[1..]);
    }
  }

  lemma Reachable(s: State, acts: seq<Act>)
    requires Init(s) && Runs(s, acts)
    ensures Inv(Exec(s, acts))
  {
    RunKeeps(s, acts);
  }

  /** The decrements never carry into the waiters: the fields of the word are the number of
      decrements, at most n, and the number of seats reserved. */
  lemma FieldsNeverMix(s: State, acts: seq<Act>)
    requires Init(s) && Runs(s, acts)
    ensures var e := Exec(s, acts); var p := Pow2(e.bits);
      && Decs(e.word, p) == e.decs <= e.n
      && Waiters(e.word, p) == |e.reg|
  {
    Reachable(s, acts);
    FieldsOf(Exec(s, acts));
  }

  /** A wait that returns, woken or not, returns after all n decrements; so does one that
      is woken find its assertion true, and a decrement that exits find n others done. */
  lemma NoEarlyReturn(s: State, acts: seq<Act>, t: Tid)
    requires Init(s) && Runs(s, acts) && t in Exec(s, acts).pc
    ensures var e := Exec(s, acts);
      && (forall a :: Enabled(e, a) && InWait(e.pc[t]) && t in Next(e, a).pc && Next(e, a).pc[t] == Out ==> e.decs == e.n)
      && (e.pc[t] == WaitRead(true) ==> Decs(e.word, Pow2(e.bits)) == e.n)
      && (e.pc[t] == Excess ==> e.decs == e.n)
  {
    hide Inv, Pow2, Decs, Runs, Exec;
    var e := Exec(s, acts);
    Reachable(s, acts);
    WaitingAt(e, t);
    forall a | Enabled(e, a) && InWait(e.pc[t]) && t in Next(e, a).pc && Next(e, a).pc[t] == Out ensures e.decs == e.n {
      LeavesWait(e, a, t);
    }
  }

  lemma WaitingAt(s: State, t: Tid)
    requires Inv(s) && t in s.pc
    ensures (s.pc[t] == WaitRead(true) ==> Decs(s.word, Pow2(s.bits)) == s.n) && (s.pc[t] == Excess ==> s.decs == s.n)
  {
    FieldsOf(s);
    assert LocalOk(s, s.pc[t]);
  }

  lemma LeavesWait(s: State, a: Act, t: Tid)
    requires Inv(s) && Enabled(s, a) && t in s.pc && InWait(s.pc[t]) && t in Next(s, a).pc && Next(s, a).pc[t] == Out
    ensures s.decs == s.n
  {
    FieldsOf(s);
    hide Pow2, Decs, Waiters, WordOk, SeatsOk, LeaderOk, LocalsOk, PlacesOk;
  }

  /** The last decrement dequeues registered waiters only, none of them twice. */
  lemma WakesEachOnce(s: State, acts: seq<Act>, t: Tid)
    requires Init(s) && Runs(s, acts) && t in Exec(s, acts).pc && Exec(s, acts).pc[t].Waking?
    ensures var e := Exec(s, acts);
      && e.decs == e.n && e.leader == Some(t)
      && (e.queue != [] ==> e.queue[0] in e.reg && e.queue[0] !in e.out)
      && e.pc[t].want == |e.reg| && |e.pc[t].hand| == |e.out|
  {
    var e := Exec(s, acts);
    Reachable(s, acts);
    if e.queue != [] { assert e.queue[0] in e.queue; }
  }

  lemma HasOne(q: seq<Tid>)
    ensures q == [] || exists u :: u in q
  {
    if q != [] { assert q[0] in q; }
  }

  /** When its thread is through, every registered waiter has been woken and no one is left. */
  lemma WakesThemAll(s: State, acts: seq<Act>)
    requires Init(s) && Runs(s, acts)
    requires var e := Exec(s, acts);
      e.leader.Some? && (e.leader.value in e.pc ==> !e.pc[e.leader.value].Waking? && !e.pc[e.leader.value].Pushing?)
    ensures var e := Exec(s, acts);
      && e.out == e.reg && e.queue == []
      && forall t :: t in e.pc ==> !Seated(e.pc[t]) && e.pc[t] != Collected
  {
    var e := Exec(s, acts);
    Reachable(s, acts);
    HasOne(e.queue);
  }

  /** Who sleeps is still awaiting a decrement, or the last one is collecting the sleepers. */
  lemma SleepersHaveHope(s: State, acts: seq<Act>, t: Tid)
    requires Init(s) && Runs(s, acts) && t in Exec(s, acts).pc && Seated(Exec(s, acts).pc[t])
    ensures var e := Exec(s, acts);
      e.decs < e.n || (e.leader.Some? && e.leader.value in e.pc && e.pc[e.leader.value].Waking?)
  {
    var e := Exec(s, acts);
    Reachable(s, acts);
    assert t in e.reg && t !in e.out;
  }

  /** The spin of that thread waits for a sleeper that has its seat and is on its way into the
      queue, on another worker. */
  lemma DequeueSpinIsServed(s: State, acts: seq<Act>, t: Tid)
    requires Init(s) && Runs(s, acts) && t in Exec(s, acts).pc
    requires var e := Exec(s, acts); e.pc[t].Waking? && |e.pc[t].hand| < e.pc[t].want && e.queue == []
    ensures var e := Exec(s, acts);
      exists u ::
        && u in e.pc && e.pc[u] == Reserved
        && t in e.on && u in e.on && e.on[u] != e.on[t]
        && Enabled(e, Step(u)) && StepNext(e, u).queue == [u]
  {
    hide Pow2;
    var e := Exec(s, acts);
    Reachable(s, acts);
    if e.out == e.reg { assert false; }
    var u :| u in e.reg && u !in e.out;
    assert Seated(e.pc[u]) && u !in e.queue;
    assert OnWorker(e.pc[u]) && OnWorker(e.pc[t]);
    assert Enabled(e, Step(u)) && StepNext(e, u).queue == [u];
  }
}
