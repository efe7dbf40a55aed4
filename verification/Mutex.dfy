/** The blocking mutex: one word packs the lock bit and twice the number of
    waiters; a waiter reserves its seat by compare-and-swap and enters the
    sleep queue only after its context has been saved.

    Every shared access is a step.  `on` says which threads occupy a worker:
    a thread leaves its worker only where the runtime switches context, and
    not between reserving a seat and entering the queue.  A condition wait leaves
    the unlock to the callback that runs on the worker after the thread has left. */
module Mutex {
  import opened Counting

  type Worker = nat

  /** Who runs on a worker: a thread, or the callback after a switch. */
  datatype Tid = Thread(id: nat) | Callback(w: Worker)

  datatype Pc =
    | Out
    | LockRead(woken: bool)
    | LockCas(s: int, woken: bool)
    | Reserved
    | Asleep
    | InHand(waker: Tid)
    | Held
    | TryRead
    | TryCas(s: int)
    | UnRead
    | UnCas(s: int)
    | UnDeq
    | UnClear(wakee: Tid)
    | UnPush(wakee: Tid)
    | Exit

  datatype State = State(word: int, queue: seq<Tid>, pc: map<Tid, Pc>, on: map<Tid, Worker>)

  datatype Act =
    | CallLock(t: Tid) | CallTry(t: Tid) | CallUnlock(t: Tid)
    | Step(t: Tid)
    | Dispatch(t: Tid, w: Worker) | Leave(t: Tid)
    | HandOver(t: Tid)

  predicate Enabled(s: State, a: Act) {
    a.t in s.pc &&
    match a
    case CallLock(t) => t in s.on && s.pc[t] == Out && t.Thread?
    case CallTry(t) => t in s.on && s.pc[t] == Out && t.Thread?
    case CallUnlock(t) => t in s.on && s.pc[t] == Held
    case Step(t) =>
      && t in s.on
      && !(s.pc[t].Out? || s.pc[t].Held? || s.pc[t].Asleep? || s.pc[t].InHand? || s.pc[t].Exit?)
      && (s.pc[t] == UnDeq ==> s.queue != [])
    // a worker picks a runnable thread
    case Dispatch(t, w) =>
      && t !in s.on && t.Thread? && (s.pc[t].Out? || s.pc[t].Held? || s.pc[t].LockRead?)
      && forall u :: u in s.on ==> s.on[u] != w
    // user code, and the retry loop of timedlock, may yield
    case Leave(t) => t in s.on && (s.pc[t].Out? || (s.pc[t].Held? && t.Thread?))
    // a condition wait switches: its callback is to unlock
    case HandOver(t) =>
      && t in s.on && t.Thread? && s.pc[t] == Held
      && Callback(s.on[t]) in s.pc && Callback(s.on[t]) !in s.on && s.pc[Callback(s.on[t])] == Out
  }

  function Go(s: State, t: Tid, pc: Pc): State {
    s.(pc := s.pc[t := pc])
  }

  function StepNext(s: State, t: Tid): State
    requires Enabled(s, Step(t))
  {
    match s.pc[t]
    case LockRead(w) => Go(s, t, LockCas(s.word, w))
    case LockCas(seen, w) =>
      if seen != s.word then Go(s, t, LockRead(w))
      else if seen % 2 == 0 then Go(s.(word := seen + 1), t, Held)
      else Go(s.(word := seen + 2), t, Reserved)
    case Reserved => Go(s.(queue := s.queue + [t], on := s.on - {t}), t, Asleep)
    case TryRead => Go(s, t, if s.word % 2 == 1 then Out else TryCas(s.word))
    case TryCas(seen) =>
      if seen == s.word then Go(s.(word := seen + 1), t, Held) else Go(s, t, TryRead)
    case UnRead => Go(s, t, if s.word % 2 == 0 then Exit else UnCas(s.word))
    case UnCas(seen) =>
      if seen != s.word then Go(s, t, UnRead)
      else if seen > 1 then Go(s.(word := seen - 2), t, UnDeq)
      else Go(s.(word := 0), t, Out)
    case UnDeq =>
      var w := s.queue[0];
      Go(Go(s.(queue := s.queue[1..]), w, InHand(t)), t, UnClear(w))
    case UnClear(w) => Go(s.(word := s.word - 1), t, UnPush(w))
    case UnPush(w) => Go(Go(s, w, LockRead(true)), t, Out)
    case _ => s
  }

  function Hand(s: State, t: Tid, c: Tid): State
    requires t in s.on
  {
    Go(Go(s.(on := (s.on - {t})[c := s.on[t]]), t, Out), c, Held)
  }

  function Next(s: State, a: Act): State
    requires Enabled(s, a)
  {
    match a
    case CallLock(t) => Go(s, t, LockRead(false))
    case CallTry(t) => Go(s, t, TryRead)
    case CallUnlock(t) => Go(s, t, UnRead)
    case Step(t) => StepNext(s, t)
    case Dispatch(t, w) => s.(on := s.on[t := w])
    case Leave(t) => s.(on := s.on - {t})
    case HandOver(t) => Hand(s, t, Callback(s.on[t]))
  }

  ghost predicate Init(s: State) {
    && s.word == 0 && s.queue == []
    && (forall t :: t in s.pc ==> s.pc[t] == Out)
    && s.on == map[]
  }

  // ----- which call a program point belongs to

  predicate InLock(pc: Pc) { pc.LockRead? || pc.LockCas? || pc.Reserved? || pc.Asleep? || pc.InHand? }

  predicate InTry(pc: Pc) { pc.TryRead? || pc.TryCas? }

  predicate InUnlock(pc: Pc) { pc.UnRead? || pc.UnCas? || pc.UnDeq? || pc.UnClear? || pc.UnPush? }

  // ----- the invariant

  /** Owning the lock bit: until the bit is cleared, after the wakee is dequeued. */
  predicate Owns(pc: Pc) {
    pc.Held? || pc.UnRead? || pc.UnCas? || pc.UnDeq? || pc.UnClear?
  }

  predicate IsReserved(pc: Pc) { pc.Reserved? }

  predicate IsUnDeq(pc: Pc) { pc.UnDeq? }

  /** Woken from the queue and still to retry, or on the way to the run queue. */
  predicate Contending(pc: Pc) {
    pc.InHand? || ((pc.LockRead? || pc.LockCas?) && pc.woken)
  }

  ghost predicate WordOk(s: State) {
    && s.word >= 0
    && Count(s.pc, Owns) == s.word % 2
    && s.word / 2 + Count(s.pc, IsUnDeq) == Count(s.pc, IsReserved) + |s.queue|
  }

  ghost predicate QueueOk(s: State) {
    && (forall i, j :: 0 <= i < j < |s.queue| ==> s.queue[i] != s.queue[j])
    && (forall t :: t in s.queue <==> t in s.pc && s.pc[t] == Asleep)
  }

  ghost predicate HandsOk(s: State) {
    && (forall t :: t in s.pc && (s.pc[t].UnClear? || s.pc[t].UnPush?) ==>
          s.pc[t].wakee in s.pc && s.pc[s.pc[t].wakee] == InHand(t))
    && (forall t :: t in s.pc && s.pc[t].InHand? ==>
          s.pc[t].waker in s.pc && (s.pc[s.pc[t].waker] == UnClear(t) || s.pc[s.pc[t].waker] == UnPush(t)))
  }

  /** No lost wakeup. */
  ghost predicate WakeOk(s: State) {
    s.word % 2 == 0 && s.word > 0 ==> exists t :: t in s.pc && Contending(s.pc[t])
  }

  predicate LocalOk(pc: Pc) {
    match pc
    case LockCas(seen, _) => seen >= 0
    case TryCas(seen) => seen >= 0 && seen % 2 == 0
    case UnCas(seen) => seen >= 0 && seen % 2 == 1
    case Exit => false
    case _ => true
  }

  ghost predicate LocalsOk(s: State) {
    forall t :: t in s.pc ==> LocalOk(s.pc[t])
  }

  predicate OnWorker(pc: Pc) {
    pc.LockCas? || pc.Reserved? || pc.TryRead? || pc.TryCas? ||
    pc.UnRead? || pc.UnCas? || pc.UnDeq? || pc.UnClear? || pc.UnPush?
  }

  ghost predicate PlacesOk(s: State) {
    && (forall t :: t in s.on ==> t in s.pc && !s.pc[t].Asleep? && !s.pc[t].InHand?)
    && (forall t :: t in s.pc && OnWorker(s.pc[t]) ==> t in s.on)
    && (forall t, u :: t in s.on && u in s.on && s.on[t] == s.on[u] ==> t == u)
  }

  ghost predicate Inv(s: State) {
    WordOk(s) && QueueOk(s) && HandsOk(s) && WakeOk(s) && PlacesOk(s) && LocalsOk(s)
  }

  // ----- preservation

  /** The three counts after one thread has moved. */
  lemma Tally(m: map<Tid, Pc>, t: Tid, pc: Pc)
    requires t in m
    ensures Count(m[t := pc], Owns) == Count(m, Owns) - Bit(Owns(m[t])) + Bit(Owns(pc))
    ensures Count(m[t := pc], IsUnDeq) == Count(m, IsUnDeq) - Bit(IsUnDeq(m[t])) + Bit(IsUnDeq(pc))
    ensures Count(m[t := pc], IsReserved) == Count(m, IsReserved) - Bit(IsReserved(m[t])) + Bit(IsReserved(pc))
  {
    CountMoves(m, t, pc, Owns);
    CountMoves(m, t, pc, IsUnDeq);
    CountMoves(m, t, pc, IsReserved);
  }

  /** A wakee only passes through program points that no count includes. */
  lemma TallyWakee(m: map<Tid, Pc>, w: Tid, pw: Pc)
    requires w in m && (m[w].Asleep? || m[w].InHand?) && (pw.InHand? || pw.LockRead?)
    ensures Count(m[w := pw], Owns) == Count(m, Owns)
    ensures Count(m[w := pw], IsUnDeq) == Count(m, IsUnDeq)
    ensures Count(m[w := pw], IsReserved) == Count(m, IsReserved)
  {
    Tally(m, w, pw);
  }

  /** A step that moves only thread t, and neither sleeps it nor wakes another. */
  ghost predicate PlainMove(s: State, t: Tid, pc: Pc, word: int) {
    && t in s.on && t in s.pc && !s.pc[t].UnClear? && !s.pc[t].UnPush?
    && !pc.Asleep? && !pc.InHand? && !pc.UnClear? && !pc.UnPush? && LocalOk(pc)
    && PlainWord(s.word, s.pc[t], pc, word)
  }

  predicate PlainWord(word: int, from: Pc, to: Pc, word': int) {
    && word' >= 0
    && word' % 2 == word % 2 - Bit(Owns(from)) + Bit(Owns(to))
    && word' / 2 + Bit(IsUnDeq(to)) - Bit(IsUnDeq(from)) == word / 2 - Bit(IsReserved(from)) + Bit(IsReserved(to))
    && (word' % 2 == 0 && word' > 0 ==> word % 2 == 0 && word > 0 && (Contending(from) ==> Contending(to)))
  }

  lemma Moves(s: State, t: Tid, pc: Pc, word: int)
    requires Inv(s) && PlainMove(s, t, pc, word)
    ensures Inv(Go(s.(word := word), t, pc))
  {
    var s' := Go(s.(word := word), t, pc);
    Tally(s.pc, t, pc);
    WakeKept(s, s', t);
    MovesFrame(s, t, pc, word);
  }

  lemma MovesFrame(s: State, t: Tid, pc: Pc, word: int)
    requires QueueOk(s) && HandsOk(s) && PlacesOk(s) && PlainMove(s, t, pc, word)
    ensures var s' := Go(s.(word := word), t, pc); QueueOk(s') && HandsOk(s') && PlacesOk(s')
  {
    assert !s.pc[t].Asleep? && !s.pc[t].InHand?;
    assert HandsOk(Go(s.(word := word), t, pc));
  }

  /** The contender stays one as long as only t moves and does not stop contending. */
  lemma WakeKept(s: State, s': State, t: Tid)
    requires WakeOk(s) && t in s.pc && t in s'.pc
    requires forall u :: u in s.pc && u != t ==> u in s'.pc && s'.pc[u] == s.pc[u]
    requires s'.word % 2 == 0 && s'.word > 0 ==>
      s.word % 2 == 0 && s.word > 0 && (Contending(s.pc[t]) ==> Contending(s'.pc[t]))
    ensures WakeOk(s')
  {
    if s'.word % 2 == 0 && s'.word > 0 {
      var u :| u in s.pc && Contending(s.pc[u]);
      assert Contending(s'.pc[u]);
    }
  }

  lemma EnqueueKeeps(s: State, t: Tid)
    requires Inv(s) && Enabled(s, Step(t)) && s.pc[t].Reserved?
    ensures Inv(StepNext(s, t))
  {
    var s' := StepNext(s, t);
    Tally(s.pc, t, Asleep);
    WakeKept(s, s', t);
    EnqueueFrame(s, t);
  }

  lemma EnqueueFrame(s: State, t: Tid)
    requires QueueOk(s) && HandsOk(s) && PlacesOk(s) && Enabled(s, Step(t)) && s.pc[t].Reserved?
    ensures var s' := StepNext(s, t); QueueOk(s') && HandsOk(s') && PlacesOk(s')
  {
    assert t !in s.queue;
  }

  lemma DequeueKeeps(s: State, t: Tid)
    requires Inv(s) && Enabled(s, Step(t)) && s.pc[t].UnDeq?
    ensures Inv(StepNext(s, t))
  {
    DequeueWord(s, t);
    DequeueHands(s, t);
    DequeueWakes(s, t);
    DequeueQueue(s, t);
    DequeuePlaces(s, t);
  }

  lemma DequeueWord(s: State, t: Tid)
    requires WordOk(s) && QueueOk(s) && Enabled(s, Step(t)) && s.pc[t].UnDeq?
    ensures WordOk(StepNext(s, t))
  {
    var w := s.queue[0];
    assert w in s.queue && w != t;
    TallyWakee(s.pc, w, InHand(t));
    Tally(s.pc[w := InHand(t)], t, UnClear(w));
  }

  lemma DequeueHands(s: State, t: Tid)
    requires QueueOk(s) && HandsOk(s) && Enabled(s, Step(t)) && s.pc[t].UnDeq?
    ensures HandsOk(StepNext(s, t))
  {
    assert s.queue[0] in s.queue;
  }

  lemma DequeueWakes(s: State, t: Tid)
    requires QueueOk(s) && Enabled(s, Step(t)) && s.pc[t].UnDeq?
    ensures WakeOk(StepNext(s, t))
  {
    var w := s.queue[0];
    assert w in s.queue;
    assert Contending(StepNext(s, t).pc[w]);
  }

  lemma DequeuePlaces(s: State, t: Tid)
    requires QueueOk(s) && PlacesOk(s) && LocalsOk(s) && Enabled(s, Step(t)) && s.pc[t].UnDeq?
    ensures PlacesOk(StepNext(s, t)) && LocalsOk(StepNext(s, t))
  {
    assert s.queue[0] in s.queue;
  }

  lemma DequeueQueue(s: State, t: Tid)
    requires QueueOk(s) && Enabled(s, Step(t)) && s.pc[t].UnDeq?
    ensures QueueOk(StepNext(s, t))
  {
    var s' := StepNext(s, t);
    var w := s.queue[0];
    assert w in s.queue && w != t;
    assert s.queue == [w] + s'.queue;
    assert forall u :: u in s.queue <==> u == w || u in s'.queue;
  }

  /** The bit is cleared while the wakee is in hand: it is the contender. */
  lemma ClearKeeps(s: State, t: Tid)
    requires Inv(s) && Enabled(s, Step(t)) && s.pc[t].UnClear?
    ensures Inv(StepNext(s, t))
  {
    ClearWord(s, t);
    ClearHands(s, t);
    ClearQueue(s, t);
  }

  lemma ClearWord(s: State, t: Tid)
    requires WordOk(s) && Enabled(s, Step(t)) && s.pc[t].UnClear?
    ensures WordOk(StepNext(s, t)) && s.word % 2 == 1
  {
    CountMember(s.pc, t, Owns);
    Tally(s.pc, t, UnPush(s.pc[t].wakee));
  }

  lemma ClearHands(s: State, t: Tid)
    requires HandsOk(s) && Enabled(s, Step(t)) && s.pc[t].UnClear?
    ensures HandsOk(StepNext(s, t)) && WakeOk(StepNext(s, t))
  {
    assert Contending(StepNext(s, t).pc[s.pc[t].wakee]);
  }

  lemma ClearQueue(s: State, t: Tid)
    requires QueueOk(s) && PlacesOk(s) && LocalsOk(s) && Enabled(s, Step(t)) && s.pc[t].UnClear?
    ensures QueueOk(StepNext(s, t)) && PlacesOk(StepNext(s, t)) && LocalsOk(StepNext(s, t))
  {
  }

  lemma PushKeeps(s: State, t: Tid)
    requires Inv(s) && Enabled(s, Step(t)) && s.pc[t].UnPush?
    ensures Inv(StepNext(s, t))
  {
    PushWord(s, t);
    PushHands(s, t);
    PushWakes(s, t);
    PushQueue(s, t);
    PushPlaces(s, t);
  }

  lemma PushWord(s: State, t: Tid)
    requires WordOk(s) && HandsOk(s) && Enabled(s, Step(t)) && s.pc[t].UnPush?
    ensures WordOk(StepNext(s, t))
  {
    var w := s.pc[t].wakee;
    TallyWakee(s.pc, w, LockRead(true));
    Tally(s.pc[w := LockRead(true)], t, Out);
  }

  lemma PushHands(s: State, t: Tid)
    requires HandsOk(s) && Enabled(s, Step(t)) && s.pc[t].UnPush?
    ensures HandsOk(StepNext(s, t))
  {
  }

  lemma PushWakes(s: State, t: Tid)
    requires HandsOk(s) && Enabled(s, Step(t)) && s.pc[t].UnPush?
    ensures WakeOk(StepNext(s, t))
  {
    assert s.pc[s.pc[t].wakee] == InHand(t);
    assert Contending(StepNext(s, t).pc[s.pc[t].wakee]);
  }

  lemma PushQueue(s: State, t: Tid)
    requires QueueOk(s) && HandsOk(s) && Enabled(s, Step(t)) && s.pc[t].UnPush?
    ensures QueueOk(StepNext(s, t))
  {
    assert s.pc[s.pc[t].wakee].InHand?;
  }

  lemma PushPlaces(s: State, t: Tid)
    requires PlacesOk(s) && HandsOk(s) && LocalsOk(s) && Enabled(s, Step(t)) && s.pc[t].UnPush?
    ensures PlacesOk(StepNext(s, t)) && LocalsOk(StepNext(s, t))
  {
    var w := s.pc[t].wakee;
    assert s.pc[w] == InHand(t);
    assert StepNext(s, t) == s.(pc := s.pc[w := LockRead(true)][t := Out]);
    hide HandsOk;
    ReleasePlaces(s, w, t);
  }

  lemma ReleasePlaces(s: State, w: Tid, t: Tid)
    requires PlacesOk(s) && LocalsOk(s) && w in s.pc && t in s.pc && s.pc[w].InHand? && s.pc[t].UnPush?
    ensures var s' := s.(pc := s.pc[w := LockRead(true)][t := Out]); PlacesOk(s') && LocalsOk(s')
  {
    hide LocalsOk;
    ReleaseLocals(s, w, t);
  }

  lemma ReleaseLocals(s: State, w: Tid, t: Tid)
    requires LocalsOk(s)
    ensures LocalsOk(s.(pc := s.pc[w := LockRead(true)][t := Out]))
  {
    var s' := s.(pc := s.pc[w := LockRead(true)][t := Out]);
    forall u | u in s'.pc ensures LocalOk(s'.pc[u]) {
      if u != w && u != t { assert LocalOk(s.pc[u]); }
    }
  }

  /** The remaining steps change the word by compare-and-swap, or not at all. */
  lemma CasIsPlain(s: State, t: Tid)
    requires Inv(s) && Enabled(s, Step(t))
    requires s.pc[t].LockCas? || s.pc[t].TryCas? || s.pc[t].UnCas?
    ensures var s' := StepNext(s, t);
      s' == Go(s.(word := s'.word), t, s'.pc[t]) && PlainMove(s, t, s'.pc[t], s'.word)
  {
    assert LocalOk(s.pc[t]);
    var s' := StepNext(s, t);
    CasWord(s.word, s.pc[t], s'.pc[t], s'.word);
  }

  /** The arithmetic of the packed word: 2 a waiter, 1 the lock bit. */
  lemma CasWord(word: int, from: Pc, to: Pc, word': int)
    requires word >= 0 && LocalOk(from)
    requires match from
      case LockCas(seen, w) =>
        if seen != word then to == LockRead(w) && word' == word
        else if seen % 2 == 0 then to == Held && word' == word + 1
        else to == Reserved && word' == word + 2
      case TryCas(seen) => if seen == word then to == Held && word' == word + 1 else to == TryRead && word' == word
      case UnCas(seen) =>
        if seen != word then to == UnRead && word' == word
        else if seen > 1 then to == UnDeq && word' == word - 2
        else to == Out && word' == 0
      case _ => false
    ensures PlainWord(word, from, to, word')
  {
  }

  lemma ReadIsPlain(s: State, t: Tid)
    requires Inv(s) && Enabled(s, Step(t))
    requires s.pc[t].LockRead? || s.pc[t].TryRead? || s.pc[t].UnRead?
    ensures StepNext(s, t) == Go(s, t, StepNext(s, t).pc[t]) && PlainMove(s, t, StepNext(s, t).pc[t], s.word)
  {
    if s.pc[t].UnRead? { CountMember(s.pc, t, Owns); }
  }

  lemma StepKeeps(s: State, t: Tid)
    requires Inv(s) && Enabled(s, Step(t))
    ensures Inv(StepNext(s, t))
  {
    var s' := StepNext(s, t);
    if s.pc[t].Reserved? { EnqueueKeeps(s, t); }
    else if s.pc[t].UnDeq? { DequeueKeeps(s, t); }
    else if s.pc[t].UnClear? { ClearKeeps(s, t); }
    else if s.pc[t].UnPush? { PushKeeps(s, t); }
    else if s.pc[t].LockRead? || s.pc[t].TryRead? || s.pc[t].UnRead? { ReadIsPlain(s, t); Moves(s, t, s'.pc[t], s.word); }
    else { CasIsPlain(s, t); Moves(s, t, s'.pc[t], s'.word); }
  }

  lemma CallKeeps(s: State, a: Act)
    requires Inv(s) && Enabled(s, a) && (a.CallLock? || a.CallTry? || a.CallUnlock?)
    ensures Inv(Next(s, a))
  {
    Moves(s, a.t, Next(s, a).pc[a.t], s.word);
  }

  lemma HandKeeps(s: State, t: Tid, c: Tid)
    requires Inv(s) && t in s.on && t in s.pc && c in s.pc && c !in s.on && s.pc[t] == Held && s.pc[c] == Out
    ensures Inv(Hand(s, t, c))
  {
    HandWord(s, t, c);
    HandQueue(s, t, c);
    HandHands(s, t, c);
    HandPlaces(s, t, c);
  }

  lemma HandWord(s: State, t: Tid, c: Tid)
    requires WordOk(s) && t in s.on && t in s.pc && c in s.pc && s.pc[t] == Held && s.pc[c] == Out
    ensures WordOk(Hand(s, t, c)) && WakeOk(Hand(s, t, c))
  {
    CountMember(s.pc, t, Owns);
    Tally(s.pc, t, Out);
    Tally(s.pc[t := Out], c, Held);
  }

  lemma HandQueue(s: State, t: Tid, c: Tid)
    requires QueueOk(s) && LocalsOk(s) && t in s.on && t in s.pc && c in s.pc && s.pc[t] == Held && s.pc[c] == Out
    ensures QueueOk(Hand(s, t, c)) && LocalsOk(Hand(s, t, c))
  {
  }

  lemma HandHands(s: State, t: Tid, c: Tid)
    requires HandsOk(s) && t in s.on && t in s.pc && c in s.pc && s.pc[t] == Held && s.pc[c] == Out
    ensures HandsOk(Hand(s, t, c))
  {
  }

  lemma HandPlaces(s: State, t: Tid, c: Tid)
    requires PlacesOk(s) && t in s.on && t in s.pc && c in s.pc && c !in s.on && s.pc[t] == Held && s.pc[c] == Out
    ensures PlacesOk(Hand(s, t, c))
  {
  }

  lemma NextKeeps(s: State, a: Act)
    requires Inv(s) && Enabled(s, a)
    ensures Inv(Next(s, a))
  {
    hide WordOk, QueueOk, HandsOk, WakeOk, LocalsOk, PlacesOk, StepNext;
    match a
    case HandOver(t) => HandKeeps(s, t, Callback(s.on[t]));
    case Step(t) => StepKeeps(s, t);
    case Dispatch(_, _) => PlaceKeeps(s, a);
    case Leave(_) => PlaceKeeps(s, a);
    case _ => CallKeeps(s, a);
  }

  lemma PlaceKeeps(s: State, a: Act)
    requires Inv(s) && Enabled(s, a) && (a.Dispatch? || a.Leave?)
    ensures Inv(Next(s, a))
  {
    hide WordOk;
    assert Next(s, a).pc == s.pc;
    SameWord(s, Next(s, a));
  }

  lemma SameWord(s: State, s': State)
    requires WordOk(s) && s' == s.(on := s'.on)
    ensures WordOk(s')
  {
  }

  // ----- whole runs

  predicate Runs(s: State, acts: seq<Act>)
    decreases |acts|
  {
    acts == [] || (Enabled(s, acts[0]) && Runs(Next(s, acts[0]), acts[1..]))
  }

  function Exec(s: State, acts: seq<Act>): State
    requires Runs(s, acts)
    decreases |acts|
  {
    if acts == [] then s else Exec(Next(s, acts[0]), acts[1..])
  }

  lemma {:induction false} RunKeeps(s: State, acts: seq<Act>)
    requires Inv(s) && Runs(s, acts)
    ensures Inv(Exec(s, acts))
    decreases |acts|
  {
    if acts != [] {
      NextKeeps(s, acts[0]);
      RunKeeps(Next(s, acts[0]), acts[1..]);
    }
  }

  lemma Reachable(s: State, acts: seq<Act>)
    requires Init(s) && Runs(s, acts)
    ensures Inv(Exec(s, acts))
  {
    CountNone(s.pc, Owns);
    CountNone(s.pc, IsUnDeq);
    CountNone(s.pc, IsReserved);
    RunKeeps(s, acts);
  }

  /** Mutual exclusion over every run of lock, trylock and unlock. */
  lemma MutualExclusion(s: State, acts: seq<Act>, t: Tid, u: Tid)
    requires Init(s) && Runs(s, acts)
    requires var e := Exec(s, acts); t in e.pc && u in e.pc && Owns(e.pc[t]) && Owns(e.pc[u])
    ensures t == u && Exec(s, acts).word % 2 == 1
  {
    Reachable(s, acts);
    CountMember(Exec(s, acts).pc, t, Owns);
    CountOne(Exec(s, acts).pc, t, u, Owns);
  }

  /** The waiters that the word announces are the seats reserved or taken, up to
      an unlocker that has announced but not yet dequeued; and a free mutex
      with waiters always has a woken thread about to retry. */
  lemma NoLostWakeup(s: State, acts: seq<Act>)
    requires Init(s) && Runs(s, acts)
    ensures var e := Exec(s, acts);
      && e.word / 2 + Count(e.pc, IsUnDeq) == Count(e.pc, IsReserved) + |e.queue|
      && (e.word % 2 == 0 && e.word / 2 > 0 ==> exists t :: t in e.pc && Contending(e.pc[t]))
  {
    Reachable(s, acts);
  }

  /** A sleeper is never left behind: somebody owns the mutex or is about to retry. */
  lemma SleepersAreNotForgotten(s: State, acts: seq<Act>)
    requires Init(s) && Runs(s, acts) && Exec(s, acts).queue != []
    ensures exists t :: t in Exec(s, acts).pc && (Owns(Exec(s, acts).pc[t]) || Contending(Exec(s, acts).pc[t]))
  {
    var e := Exec(s, acts);
    Reachable(s, acts);
    if e.word % 2 == 1 {
      CountSome(e.pc, Owns);
    } else if Count(e.pc, IsUnDeq) > 0 {
      CountSome(e.pc, IsUnDeq);
    }
  }

  /** With only holders unlocking, neither the exit nor an assertion is reached. */
  lemma AssertionsHold(s: State, acts: seq<Act>, t: Tid)
    requires Init(s) && Runs(s, acts) && t in Exec(s, acts).pc
    ensures var e := Exec(s, acts);
      && e.pc[t] != Exit
      && (e.pc[t].LockRead? ==> e.word >= 0)
      && (e.pc[t].UnRead? || e.pc[t].UnClear? ==> e.word % 2 == 1)
      && (e.pc[t].UnCas? && e.pc[t].s <= 1 ==> e.pc[t].s == 1)
  {
    hide Inv, Runs, Exec;
    Reachable(s, acts);
    AssertionsAt(Exec(s, acts), t);
  }

  lemma AssertionsAt(s: State, t: Tid)
    requires Inv(s) && t in s.pc
    ensures s.pc[t] != Exit && (s.pc[t].LockRead? ==> s.word >= 0) && (s.pc[t].UnRead? || s.pc[t].UnClear? ==> s.word % 2 == 1)
    ensures s.pc[t].UnCas? && s.pc[t].s <= 1 ==> s.pc[t].s == 1
  {
    hide QueueOk, HandsOk, WakeOk, PlacesOk;
    assert LocalOk(s.pc[t]);
    if Owns(s.pc[t]) { CountMember(s.pc, t, Owns); }
  }

  /** The spin of an unlocker waits for a queued thread, or for one that has its
      seat and is on its way into the queue on another worker. */
  lemma DequeueSpinIsServed(s: State, acts: seq<Act>, t: Tid)
    requires Init(s) && Runs(s, acts) && t in Exec(s, acts).pc && Exec(s, acts).pc[t] == UnDeq
    ensures var e := Exec(s, acts);
      e.queue != [] || exists u ::
        && u in e.pc && e.pc[u] == Reserved
        && t in e.on && u in e.on && e.on[u] != e.on[t]
        && Enabled(e, Step(u)) && StepNext(e, u).queue == [u]
  {
    var e := Exec(s, acts);
    Reachable(s, acts);
    if e.queue == [] {
      CountMember(e.pc, t, IsUnDeq);
      CountSome(e.pc, IsReserved);
      var u :| u in e.pc && IsReserved(e.pc[u]);
      assert OnWorker(e.pc[u]) && OnWorker(e.pc[t]);
      assert Enabled(e, Step(u)) && StepNext(e, u).queue == [u];
    }
  }
}
