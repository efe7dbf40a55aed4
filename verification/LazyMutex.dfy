/** A mutex that was initialised as PTHREAD_MUTEX_INITIALIZER is reset when it is first used: who
    changes its magic number from what it was resets the contents, the others wait. */
module LazyMutex {
  type Tid = nat

  datatype Magic = Foreign(v: int) | Initializing | Ready

  datatype Pc =
    | Out | Read | Seen(m: Magic)
    | Resetting | Publishing
    | Spinning | Checking
    | Operating
    | Failed                        // the assertion after the spin

  /** `resets` and `ops` are history variables; `clean` says that the contents are those of an
      initialised mutex, or what operations have made of them. */
  datatype State = State(magic: Magic, clean: bool, pc: map<Tid, Pc>, resets: nat, ops: nat, clobbered: bool)

  datatype Act = Call(t: Tid) | Step(t: Tid)

  predicate Enabled(s: State, a: Act) {
    a.t in s.pc &&
    match a
    case Call(t) => s.pc[t] == Out
    case Step(t) => s.pc[t] != Out && s.pc[t] != Failed && (s.pc[t] == Spinning ==> s.magic != Initializing)
  }

  function Go(s: State, t: Tid, pc: Pc): State {
    s.(pc := s.pc[t := pc])
  }

  function StepNext(s: State, t: Tid): State
    requires t in s.pc
  {
    match s.pc[t]
    case Read => Go(s, t, Seen(s.magic))
    case Seen(m) =>
      if m == Ready then Go(s, t, Operating)
      else if m != Initializing && s.magic == m then Go(s.(magic := Initializing), t, Resetting)
      else Go(s, t, Spinning)
    case Resetting => Go(s.(clean := true, resets := s.resets + 1, clobbered := s.clobbered || s.ops > 0), t, Publishing)
    case Publishing => Go(s.(magic := Ready), t, Operating)
    case Spinning => Go(s, t, Checking)
    case Checking => Go(s, t, if s.magic == Ready then Operating else Failed)
    case Operating => Go(s.(ops := s.ops + 1), t, Out)
    case _ => s
  }

  function Next(s: State, a: Act): State
    requires Enabled(s, a)
  {
    match a
    case Call(t) => Go(s, t, Read)
    case Step(t) => StepNext(s, t)
  }

  ghost predicate Init(s: State) {
    && s.magic.Foreign? && !s.clean && s.resets == 0 && s.ops == 0 && !s.clobbered
    && forall t :: t in s.pc ==> s.pc[t] == Out
  }

  predicate Setting(pc: Pc) { pc == Resetting || pc == Publishing }

  predicate ThreadOk(s: State, pc: Pc) {
    match pc
    case Seen(m) => m == s.magic || (m.Foreign? && !s.magic.Foreign?) || (m == Initializing && s.magic == Ready)
    case Resetting => s.magic == Initializing && s.resets == 0
    case Publishing => s.magic == Initializing && s.resets == 1
    case Spinning => !s.magic.Foreign?
    case Checking => s.magic == Ready
    case Operating => s.magic == Ready
    case Failed => false
    case _ => true
  }

  ghost predicate Inv(s: State) {
    && (forall t :: t in s.pc ==> ThreadOk(s, s.pc[t]))
    && (forall t, u :: t in s.pc && u in s.pc && Setting(s.pc[t]) && Setting(s.pc[u]) ==> t == u)
    && (s.magic.Foreign? ==> s.resets == 0)
    && (s.magic == Initializing ==> exists t :: t in s.pc && Setting(s.pc[t]))
    && (s.magic == Ready ==> s.resets == 1)
    && (s.clean <==> s.resets == 1) && s.resets <= 1
    && (s.ops > 0 ==> s.magic == Ready) && !s.clobbered
  }

  lemma NextKeeps(s: State, a: Act)
    requires Inv(s) && Enabled(s, a)
    ensures Inv(Next(s, a))
  {
    ThreadsKeep(s, a);
    OneSetter(s, a);
    assert ThreadOk(s, s.pc[a.t]);
  }

  lemma OneSetter(s: State, a: Act)
    requires Inv(s) && Enabled(s, a)
    ensures var s' := Next(s, a);
      && (forall t, u :: t in s'.pc && u in s'.pc && Setting(s'.pc[t]) && Setting(s'.pc[u]) ==> t == u)
      && (s'.magic == Initializing ==> exists t :: t in s'.pc && Setting(s'.pc[t]))
  {
    var t := a.t;
    var s' := Next(s, a);
    assert ThreadOk(s, s.pc[t]);
    forall u | u in s.pc && Setting(s.pc[u]) ensures s.magic == Initializing { assert ThreadOk(s, s.pc[u]); }
    if s'.magic == Initializing {
      if s.magic == Initializing {
        var u :| u in s.pc && Setting(s.pc[u]);
        assert Setting(s'.pc[u]);
      } else {
        assert Setting(s'.pc[t]);
      }
    }
  }

  lemma ThreadsKeep(s: State, a: Act)
    requires Inv(s) && Enabled(s, a)
    ensures forall u :: u in s.pc ==> ThreadOk(Next(s, a), Next(s, a).pc[u])
  {
    assert ThreadOk(s, s.pc[a.t]);
    forall u | u in s.pc ensures ThreadOk(Next(s, a), Next(s, a).pc[u]) {
      assert ThreadOk(s, s.pc[u]);
    }
  }

  predicate Runs(s: State, acts: seq<Act>)
    decreases |acts|
  {
    acts == [] || (Enabled(s, acts[0]) && Runs(Next(s, acts[0]), acts[1..]))
  }

  function Exec(s: State, acts: seq<Act>): State
    requires Runs(s, acts)
    decreases |acts|
  {
    if acts == [] then s else Exec(Next(s, acts[0]), acts[1..])
  }

  lemma {:induction false} RunKeeps(s: State, acts: seq<Act>)
    requires Runs(s, acts) && Inv(s)
    ensures Inv(Exec(s, acts))
    decreases |acts|
  {
    hide Inv, Enabled, Next;
    if acts != [] {
      NextKeeps(s, acts[0]);
      RunKeeps(Next(s, acts[0]), acts[1..]);
    }
  }

  /** The contents are reset exactly once before the first operation and never after; the
      assertion holds; and who spins waits for a thread that can go on. */
  lemma ResetExactlyOnce(s: State, acts: seq<Act>, t: Tid)
    requires Init(s) && Runs(s, acts) && t in Exec(s, acts).pc
    ensures var e := Exec(s, acts);
      && e.resets <= 1 && !e.clobbered
      && (e.ops > 0 || e.pc[t] == Operating ==> e.resets == 1 && e.clean && e.magic == Ready)
      && e.pc[t] != Failed
      && (e.pc[t] == Spinning && !Enabled(e, Step(t)) ==>
            exists u :: u in e.pc && Setting(e.pc[u]) && Enabled(e, Step(u)))
  {
    RunKeeps(s, acts);
    var e := Exec(s, acts);
    assert ThreadOk(e, e.pc[t]);
    if e.magic == Initializing {
      var u :| u in e.pc && Setting(e.pc[u]);
      assert Enabled(e, Step(u));
    }
  }

  /** Whoever returns has operated, on the contents that were reset before. */
  lemma ReturnsAfterOperating(s: State, acts: seq<Act>, a: Act, t: Tid)
    requires Init(s) && Runs(s, acts) && Enabled(Exec(s, acts), a) && t in Exec(s, acts).pc
    ensures var e := Exec(s, acts); var e' := Next(e, a);
      && t in e'.pc
      && (a == Call(t) ==> e'.pc[t] == Read)
      && (e.pc[t] != Out && e'.pc[t] == Out ==> e.pc[t] == Operating && e.clean && e.resets == 1 && e'.ops == e.ops + 1)
      && (e'.resets > e.resets ==> !e.clean && e'.clean && e.ops == 0)
  {
    RunKeeps(s, acts);
    var e := Exec(s, acts);
    assert ThreadOk(e, e.pc[t]) && ThreadOk(e, e.pc[a.t]);
  }

  function Left(pc: Pc): nat {
    match pc
    case Out => 0
    case Read => 5
    case Seen(_) => 4
    case Resetting => 3
    case Publishing => 2
    case Spinning => 3
    case Checking => 2
    case Operating => 1
    case Failed => 0
  }

  /** Every step of a call is one less of the five that it takes at most. */
  lemma StepsRunOut(s: State, t: Tid)
    requires Inv(s) && Enabled(s, Step(t))
    ensures t in StepNext(s, t).pc && Left(StepNext(s, t).pc[t]) < Left(s.pc[t])
    ensures Left(StepNext(s, t).pc[t]) == 0 ==> StepNext(s, t).pc[t] == Out
  {
    assert ThreadOk(s, s.pc[t]);
  }
}
