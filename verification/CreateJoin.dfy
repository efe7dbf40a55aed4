/** Creating and joining many threads as a binary tree: the range is halved, a thread is
    created for the lower half, the upper half is done by the creator, which then joins.
    A schedule picks, step by step, which of the live threads goes on.

    Results are 8-byte words stored a stride apart from a base address, if there is one; a
    stride under 8 makes the slots overlap. */
module CreateJoin {
  import opened Base

  type Byte = bv8
  type Memory = map<int, Byte>

  /** A pointer as it lies in memory. */
  type Word = w: seq<Byte> | |w| == 8 witness [0, 0, 0, 0, 0, 0, 0, 0]

  /** A call on the range [a, b), from its start to its return. */
  datatype Task =
    | Ready(a: int, b: int)
    | Fork(child: Task, own: Task)      // the thread created, and the creator's own half
    | Done

  /** `f` is what the function of each index returns for its argument; `calls` are the calls made,
      in order. */
  datatype State = State(
    f: int -> Word, results: Option<int>, stride: nat, task: Task, mem: Memory, calls: seq<int>)

  /** The addresses of a word. */
  function Span(at: int): (a: set<int>)
    ensures forall q :: q in a <==> at <= q < at + 8
  {
    {at, at + 1, at + 2, at + 3, at + 4, at + 5, at + 6, at + 7}
  }

  function Store(mem: Memory, at: int, w: Word): Memory {
    mem + map q | q in Span(at) :: w[q - at]
  }

  /** The call of index i leaves its value in its slot, if results are wanted. */
  function Put(s: State, i: int): Memory {
    match s.results
    case None => s.mem
    case Some(base) => Store(s.mem, base + i * s.stride, s.f(i))
  }

  /** The division of the source truncates toward zero. */
  function Half(x: int): int {
    if x >= 0 then x / 2 else -((-x) / 2)
  }

  /** Which thread goes on: down the tree, true for the created one. */
  predicate Enabled(t: Task, path: seq<bool>)
    decreases t
  {
    match t
    case Ready(_, _) => path == []
    case Done => false
    case Fork(x, y) =>
      if path == [] then x == Done && y == Done
      else if path[0] then Enabled(x, path[1..]) else Enabled(y, path[1..])
  }

  function Goes(t: Task, path: seq<bool>): Task
    requires Enabled(t, path)
    decreases t
  {
    match t
    case Ready(a, b) => if b - a == 1 then Done else var c := Half(a + b); Fork(Ready(a, c), Ready(c, b))
    case Fork(x, y) =>
      if path == [] then Done
      else if path[0] then Fork(Goes(x, path[1..]), y) else Fork(x, Goes(y, path[1..]))
  }

  /** The index whose function this step calls, if any. */
  function Calls(t: Task, path: seq<bool>): Option<int>
    requires Enabled(t, path)
    decreases t
  {
    match t
    case Ready(a, b) => if b - a == 1 then Some(a) else None
    case Fork(x, y) =>
      if path == [] then None else if path[0] then Calls(x, path[1..]) else Calls(y, path[1..])
  }

  function Next(s: State, path: seq<bool>): State
    requires Enabled(s.task, path)
  {
    match Calls(s.task, path)
    case None => s.(task := Goes(s.task, path))
    case Some(i) => s.(task := Goes(s.task, path), mem := Put(s, i), calls := s.calls + [i])
  }

  predicate Runs(s: State, paths: seq<seq<bool>>)
    decreases |paths|
  {
    paths == [] || (Enabled(s.task, paths[0]) && Runs(Next(s, paths[0]), paths[1..]))
  }

  function Exec(s: State, paths: seq<seq<bool>>): State
    requires Runs(s, paths)
    decreases |paths|
  {
    if paths == [] then s else Exec(Next(s, paths[0]), paths[1..])
  }

  /** The entry: nothing to do for 0 threads. */
  function Start(f: int -> Word, results: Option<int>, stride: nat, mem: Memory, n: int): State {
    State(f, results, stride, if n == 0 then Done else Ready(0, n), mem, [])
  }

  // ----- what is left to do

  predicate Proper(t: Task)
    decreases t
  {
    match t
    case Ready(a, b) => 0 <= a < b
    case Fork(x, y) => Proper(x) && Proper(y)
    case Done => true
  }

  /** How often index i is still to be called. */
  function Pending(t: Task, i: int): nat
    decreases t
  {
    match t
    case Ready(a, b) => if a <= i < b then 1 else 0
    case Fork(x, y) => Pending(x, i) + Pending(y, i)
    case Done => 0
  }

  /** The steps that are left. */
  function Measure(t: Task): int
    decreases t
  {
    match t
    case Ready(a, b) => 3 * (b - a) - 2
    case Fork(x, y) => Measure(x) + Measure(y) + 1
    case Done => 0
  }

  lemma Halves(a: int, b: int)
    requires 0 <= a < b && b - a != 1
    ensures a < Half(a + b) < b
  {
  }

  lemma {:induction false} StepProper(t: Task, path: seq<bool>, i: int)
    requires Enabled(t, path) && Proper(t)
    ensures Proper(Goes(t, path)) && Measure(Goes(t, path)) == Measure(t) - 1
    ensures Pending(Goes(t, path), i) == Pending(t, i) - (if Calls(t, path) == Some(i) then 1 else 0)
    decreases t
  {
    hide Half;
    match t
    case Ready(a, b) => if b - a != 1 { Halves(a, b); }
    case Fork(x, y) =>
      if path != [] {
        if path[0] { StepProper(x, path[1..], i); } else { StepProper(y, path[1..], i); }
      }
  }

  lemma {:induction false} MeasureNonNegative(t: Task)
    requires Proper(t)
    ensures Measure(t) >= 0 && (Measure(t) == 0 <==> t == Done)
    decreases t
  {
    match t
    case Ready(a, b) =>
    case Done =>
    case Fork(x, y) => MeasureNonNegative(x); MeasureNonNegative(y);
  }

  function Times(s: seq<int>, i: int): nat {
    multiset(s)[i]
  }

  /** The calls made and those pending are what was pending at the start. */
  ghost predicate Account(s0: State, s: State) {
    && s.f == s0.f && s.results == s0.results && s.stride == s0.stride && Proper(s.task)
    && forall i :: Times(s.calls, i) + Pending(s.task, i) == Times(s0.calls, i) + Pending(s0.task, i)
  }

  /** A step makes at most the one call it makes. */
  lemma TimesStep(s: State, path: seq<bool>, i: int)
    requires Enabled(s.task, path)
    ensures Times(Next(s, path).calls, i) == Times(s.calls, i) + (if Calls(s.task, path) == Some(i) then 1 else 0)
  {
    var c := Calls(s.task, path);
    if c.Some? { assert multiset(s.calls + [c.value]) == multiset(s.calls) + multiset{c.value}; }
  }

  lemma AccountStep(s0: State, s: State, path: seq<bool>)
    requires Account(s0, s) && Enabled(s.task, path)
    ensures Account(s0, Next(s, path))
  {
    hide Times, Goes, Calls, Enabled, Proper, Pending;
    var s' := Next(s, path);
    StepProper(s.task, path, 0);
    forall i ensures Times(s'.calls, i) + Pending(s'.task, i) == Times(s0.calls, i) + Pending(s0.task, i) {
      StepProper(s.task, path, i);
      TimesStep(s, path, i);
    }
  }

  lemma {:induction false} RunAccount(s0: State, s: State, paths: seq<seq<bool>>)
    requires Account(s0, s) && Runs(s, paths)
    ensures Account(s0, Exec(s, paths)) && Measure(Exec(s, paths).task) == Measure(s.task) - |paths|
    decreases |paths|
  {
    if paths != [] {
      AccountStep(s0, s, paths[0]);
      StepProper(s.task, paths[0], 0);
      RunAccount(s0, Next(s, paths[0]), paths[1..]);
    }
  }

  // ----- what is in memory

  predicate Within(s: State, i: int, q: int) {
    s.results.Some? && s.results.value + i * s.stride <= q < s.results.value + i * s.stride + 8
  }

  /** Slot i holds the value of index i. */
  ghost predicate Holds(s: State, i: int) {
    s.results.Some? ==>
      var at := s.results.value + i * s.stride;
      forall q :: at <= q < at + 8 ==> q in s.mem && s.mem[q] == s.f(i)[q - at]
  }

  predicate Apart(stride: nat, i: int, j: int) {
    i * stride + 8 <= j * stride || j * stride + 8 <= i * stride
  }

  ghost predicate Same(m: Memory, m': Memory, q: int) {
    (q in m' <==> q in m) && (q in m ==> m'[q] == m[q])
  }

  ghost predicate Undisturbed(s: State, i: int) {
    forall j :: j in s.calls && j != i ==> Apart(s.stride, i, j)
  }

  ghost predicate Untouched(s: State, q: int) {
    forall i :: i in s.calls ==> !Within(s, i, q)
  }

  /** A called index has its value in its slot, unless another's slot overlaps; all other memory is
      as it was. */
  ghost predicate MemOk(m: Memory, s: State) {
    && (forall i :: i in s.calls && Undisturbed(s, i) ==> Holds(s, i))
    && (forall q :: Untouched(s, q) ==> Same(m, s.mem, q))
  }

  lemma PutKeeps(m: Memory, s: State, s': State, i: int)
    requires s' == s.(task := s'.task, mem := Put(s, i), calls := s.calls + [i]) && MemOk(m, s)
    ensures MemOk(m, s')
  {
    forall j | j in s'.calls && Undisturbed(s', j) ensures Holds(s', j) {
      if j != i {
        assert Undisturbed(s, j) by {
          forall k | k in s.calls && k != j ensures Apart(s.stride, j, k) { assert k in s'.calls; }
        }
        assert i in s'.calls && Apart(s.stride, j, i);
      }
    }
    forall q | Untouched(s', q) ensures Same(m, s'.mem, q) {
      assert i in s'.calls && !Within(s, i, q);
      assert Untouched(s, q) by {
        forall k | k in s.calls ensures !Within(s, k, q) { assert k in s'.calls && !Within(s', k, q); }
      }
    }
  }

  lemma TaskKeeps(m: Memory, s: State, s': State)
    requires s' == s.(task := s'.task) && MemOk(m, s)
    ensures MemOk(m, s')
  {
    forall j | j in s'.calls && Undisturbed(s', j) ensures Holds(s', j) {
      assert Undisturbed(s, j);
    }
    forall q | Untouched(s', q) ensures Same(m, s'.mem, q) {
      assert Untouched(s, q) by {
        forall k | k in s.calls ensures !Within(s, k, q) { assert !Within(s', k, q); }
      }
    }
  }

  lemma {:induction false} RunMem(m: Memory, s: State, paths: seq<seq<bool>>)
    requires MemOk(m, s) && Runs(s, paths)
    ensures MemOk(m, Exec(s, paths))
    decreases |paths|
  {
    hide MemOk, Put, Calls, Goes, Enabled;
    if paths != [] {
      var s' := Next(s, paths[0]);
      match Calls(s.task, paths[0])
      case None => TaskKeeps(m, s, s'); RunMem(m, s', paths[1..]);
      case Some(i) => PutKeeps(m, s, s', i); RunMem(m, s', paths[1..]);
    }
  }

  // ----- the theorems

  /** Under every schedule, when the call returns each index in [0, n) has been called exactly
      once and no other, after exactly 3n - 2 steps. */
  lemma EachIndexOnce(
      f: int -> Word, results: Option<int>, stride: nat, mem: Memory, n: int, paths: seq<seq<bool>>, i: int)
    requires n >= 0 && Runs(Start(f, results, stride, mem, n), paths)
    requires Exec(Start(f, results, stride, mem, n), paths).task == Done
    ensures var e := Exec(Start(f, results, stride, mem, n), paths);
      && Times(e.calls, i) == (if 0 <= i < n then 1 else 0)
      && |paths| == (if n == 0 then 0 else 3 * n - 2)
  {
    var s := Start(f, results, stride, mem, n);
    RunAccount(s, s, paths);
  }

  /** Then no byte outside the slots has changed, and each slot that no other overlaps holds the
      value of its index. */
  lemma SlotsHold(
      f: int -> Word, results: Option<int>, stride: nat, mem: Memory, n: int, paths: seq<seq<bool>>)
    requires n >= 0 && Runs(Start(f, results, stride, mem, n), paths)
    requires Exec(Start(f, results, stride, mem, n), paths).task == Done
    ensures var e := Exec(Start(f, results, stride, mem, n), paths);
      && e.f == f && e.results == results && e.stride == stride
      && (forall i :: 0 <= i < n && (forall j :: 0 <= j < n && j != i ==> Apart(stride, i, j)) ==> Holds(e, i))
      && (forall q :: (forall i :: 0 <= i < n ==> !Within(e, i, q)) ==> Same(mem, e.mem, q))
  {
    hide Holds, Same, Within, Apart, Runs, Exec;
    var s := Start(f, results, stride, mem, n);
    var e := Exec(s, paths);
    RunAccount(s, s, paths);
    MemStart(s);
    RunMem(mem, s, paths);
    forall i ensures i in e.calls <==> 0 <= i < n {
      EachIndexOnce(f, results, stride, mem, n, paths, i);
      InTimes(e.calls, i);
    }
    forall i | 0 <= i < n && (forall j :: 0 <= j < n && j != i ==> Apart(stride, i, j)) ensures Holds(e, i) {
      assert Undisturbed(e, i);
    }
    forall q | (forall i :: 0 <= i < n ==> !Within(e, i, q)) ensures Same(mem, e.mem, q) {
      assert Untouched(e, q);
    }
  }

  lemma MemStart(s: State)
    requires s.calls == []
    ensures MemOk(s.mem, s)
  {
  }

  lemma InTimes(l: seq<int>, i: int)
    ensures i in l <==> Times(l, i) > 0
  {
    assert i in l <==> i in multiset(l);
  }

  /** In the middle of any schedule nothing has been called twice or out of range, at most
      3n - 2 steps have been made, and unless the call has returned some thread can go on. */
  lemma NeverStuck(f: int -> Word, results: Option<int>, stride: nat, mem: Memory, n: int, paths: seq<seq<bool>>, i: int)
    requires n >= 0 && Runs(Start(f, results, stride, mem, n), paths)
    ensures var e := Exec(Start(f, results, stride, mem, n), paths);
      && Times(e.calls, i) <= (if 0 <= i < n then 1 else 0)
      && (n > 0 ==> |paths| <= 3 * n - 2)
      && (e.task == Done || exists path :: Enabled(e.task, path))
  {
    var s := Start(f, results, stride, mem, n);
    var e := Exec(s, paths);
    RunAccount(s, s, paths);
    MeasureNonNegative(e.task);
    var p := SomeoneCanGo(e.task);
  }

  lemma {:induction false} SomeoneCanGo(t: Task) returns (path: seq<bool>)
    ensures t == Done || Enabled(t, path)
    decreases t
  {
    path := [];
    match t
    case Done =>
    case Ready(a, b) =>
    case Fork(x, y) =>
      if x != Done {
        var p := SomeoneCanGo(x);
        path := [true] + p;
        assert path[1..] == p;
      } else if y != Done {
        var p := SomeoneCanGo(y);
        path := [false] + p;
        assert path[1..] == p;
      }
  }

  // ----- a negative number of threads

  /** Some call is on a range that is empty or turned round. */
  predicate Hopeless(t: Task)
    decreases t
  {
    match t
    case Ready(a, b) => b <= a
    case Fork(x, y) => Hopeless(x) || Hopeless(y)
    case Done => false
  }

  lemma {:induction false} StaysHopeless(t: Task, path: seq<bool>)
    requires Enabled(t, path) && Hopeless(t)
    ensures Hopeless(Goes(t, path))
    decreases t
  {
    match t
    case Ready(a, b) =>
    case Fork(x, y) =>
      if path != [] {
        if path[0] {
          if Hopeless(x) { StaysHopeless(x, path[1..]); }
        } else {
          if Hopeless(y) { StaysHopeless(y, path[1..]); }
        }
      }
  }

  lemma {:induction false} NeverDone(s: State, paths: seq<seq<bool>>)
    requires Runs(s, paths) && Hopeless(s.task)
    ensures Hopeless(Exec(s, paths).task)
    decreases |paths|
  {
    if paths != [] {
      StaysHopeless(s.task, paths[0]);
      NeverDone(Next(s, paths[0]), paths[1..]);
    }
  }

  lemma {:induction false} CanFinish(s: State) returns (paths: seq<seq<bool>>)
    requires Proper(s.task)
    ensures Runs(s, paths) && Exec(s, paths).task == Done
    decreases Measure(s.task)
  {
    hide Goes, Calls, Enabled, Next, Proper;
    paths := [];
    MeasureNonNegative(s.task);
    if s.task != Done {
      var p := SomeoneCanGo(s.task);
      StepGoes(s, p);
      StepProper(s.task, p, 0);
      MeasureNonNegative(Goes(s.task, p));
      var rest := CanFinish(Next(s, p));
      paths := [p] + rest;
      assert paths[1..] == rest;
    }
  }

  lemma StepGoes(s: State, path: seq<bool>)
    requires Enabled(s.task, path)
    ensures Next(s, path).task == Goes(s.task, path)
  {
  }

  /** The call can return if and only if the number of threads is not negative. */
  lemma ReturnsIffNonNegative(f: int -> Word, results: Option<int>, stride: nat, mem: Memory, n: int)
    ensures
      (exists paths ::
         Runs(Start(f, results, stride, mem, n), paths) && Exec(Start(f, results, stride, mem, n), paths).task == Done)
      <==> n >= 0
  {
    if n >= 0 {
      var paths := CanFinish(Start(f, results, stride, mem, n));
    } else {
      forall paths | Runs(Start(f, results, stride, mem, n), paths)
        ensures Exec(Start(f, results, stride, mem, n), paths).task != Done
      {
        NeverDone(Start(f, results, stride, mem, n), paths);
      }
    }
  }

  // ----- the loop that the documentation says it is equivalent to

  /** for all i = 0, ..., n - 1 in turn: slot i of base becomes what i returns. */
  function Loop(f: int -> Word, base: int, stride: nat, mem: Memory, n: nat): Memory {
    if n == 0 then mem else Store(Loop(f, base, stride, mem, n - 1), base + (n - 1) * stride, f(n - 1))
  }

  lemma StridesApart(stride: nat, i: int, j: int)
    requires stride >= 8 && i < j
    ensures i * stride + 8 <= j * stride
  {
    var d := j - i;
    assert j * stride == i * stride + d * stride;
    assert d * stride == stride + (d - 1) * stride;
    assert (d - 1) * stride >= 0;
  }

  lemma StoreAt(mem: Memory, at: int, w: Word, q: int)
    ensures at <= q < at + 8 ==> q in Store(mem, at, w) && Store(mem, at, w)[q] == w[q - at]
    ensures !(at <= q < at + 8) ==> Same(mem, Store(mem, at, w), q)
  {
  }

  lemma {:induction false} LoopSlot(f: int -> Word, base: int, stride: nat, mem: Memory, n: nat, i: nat, q: int)
    requires i < n && (stride >= 8 || n == 1) && base + i * stride <= q < base + i * stride + 8
    ensures q in Loop(f, base, stride, mem, n) && Loop(f, base, stride, mem, n)[q] == f(i)[q - (base + i * stride)]
    decreases n
  {
    hide Store;
    StoreAt(Loop(f, base, stride, mem, n - 1), base + (n - 1) * stride, f(n - 1), q);
    if i < n - 1 {
      StridesApart(stride, i, n - 1);
      LoopSlot(f, base, stride, mem, n - 1, i, q);
    }
  }

  lemma {:induction false} LoopRest(f: int -> Word, base: int, stride: nat, mem: Memory, n: nat, q: int)
    requires forall i :: 0 <= i < n ==> !(base + i * stride <= q < base + i * stride + 8)
    ensures Same(mem, Loop(f, base, stride, mem, n), q)
    decreases n
  {
    if n > 0 { LoopRest(f, base, stride, mem, n - 1, q); }
  }

  ghost predicate Equivalent(m: Memory, m': Memory) {
    forall q :: Same(m, m', q)
  }

  lemma ApartEquivalent(f: int -> Word, base: int, stride: nat, mem: Memory, n: nat, paths: seq<seq<bool>>)
    requires stride >= 8 || n <= 1
    requires Runs(Start(f, Some(base), stride, mem, n), paths)
    requires Exec(Start(f, Some(base), stride, mem, n), paths).task == Done
    ensures Equivalent(Loop(f, base, stride, mem, n), Exec(Start(f, Some(base), stride, mem, n), paths).mem)
  {
    hide Runs, Exec, Loop;
    var e := Exec(Start(f, Some(base), stride, mem, n), paths);
    SlotsHold(f, Some(base), stride, mem, n, paths);
    forall i, j | 0 <= i < n && 0 <= j < n && j != i ensures Apart(stride, i, j) {
      if i < j { StridesApart(stride, i, j); } else { StridesApart(stride, j, i); }
    }
    forall q ensures Same(Loop(f, base, stride, mem, n), e.mem, q) {
      if i :| 0 <= i < n && Within(e, i, q) {
        assert Holds(e, i);
        LoopSlot(f, base, stride, mem, n, i, q);
      } else {
        forall i | 0 <= i < n ensures !(base + i * stride <= q < base + i * stride + 8) { assert !Within(e, i, q); }
        LoopRest(f, base, stride, mem, n, q);
        assert Same(mem, e.mem, q);
      }
    }
  }

  // ----- a schedule that calls index 0 last

  lemma {:induction false} OtherCanGo(t: Task, k: int) returns (path: seq<bool>)
    requires Proper(t) && k != 0 && Pending(t, k) > 0
    ensures Enabled(t, path) && Calls(t, path) != Some(0)
    decreases t
  {
    path := [];
    match t
    case Ready(a, b) =>
    case Fork(x, y) =>
      if Pending(x, k) > 0 {
        var p := OtherCanGo(x, k);
        path := [true] + p;
        assert path[1..] == p;
      } else {
        var p := OtherCanGo(y, k);
        path := [false] + p;
        assert path[1..] == p;
      }
  }

  ghost predicate OnlyZero(t: Task) {
    Proper(t) && forall k :: k != 0 ==> Pending(t, k) == 0
  }

  lemma {:induction false} OthersFirst(s: State) returns (paths: seq<seq<bool>>)
    requires Proper(s.task)
    ensures Runs(s, paths) && OnlyZero(Exec(s, paths).task) && Times(Exec(s, paths).calls, 0) == Times(s.calls, 0)
    decreases Measure(s.task)
  {
    hide Goes, Calls, Enabled, Next, Proper, Pending, Times;
    paths := [];
    MeasureNonNegative(s.task);
    if k :| k != 0 && Pending(s.task, k) > 0 {
      var p := OtherCanGo(s.task, k);
      StepGoes(s, p);
      StepProper(s.task, p, 0);
      TimesStep(s, p, 0);
      MeasureNonNegative(Goes(s.task, p));
      var rest := OthersFirst(Next(s, p));
      paths := [p] + rest;
      assert paths[1..] == rest;
    }
  }

  lemma LateStep(s: State, path: seq<bool>)
    requires Enabled(s.task, path) && OnlyZero(s.task) && (0 in s.calls ==> Holds(s, 0))
    ensures OnlyZero(Next(s, path).task) && (0 in Next(s, path).calls ==> Holds(Next(s, path), 0))
  {
    hide Goes, Calls, Enabled, Proper, Pending;
    var c := Calls(s.task, path);
    StepProper(s.task, path, 0);
    forall k | k != 0 ensures Pending(Next(s, path).task, k) == 0 && c != Some(k) {
      StepProper(s.task, path, k);
    }
  }

  lemma {:induction false} LateHolds(s: State, paths: seq<seq<bool>>)
    requires Runs(s, paths) && OnlyZero(s.task) && (0 in s.calls ==> Holds(s, 0))
    ensures 0 in Exec(s, paths).calls ==> Holds(Exec(s, paths), 0)
    decreases |paths|
  {
    hide OnlyZero, Holds, Next, Enabled;
    if paths != [] {
      LateStep(s, paths[0]);
      LateHolds(Next(s, paths[0]), paths[1..]);
    }
  }

  lemma {:induction false} RunsOn(s: State, a: seq<seq<bool>>, b: seq<seq<bool>>)
    requires Runs(s, a) && Runs(Exec(s, a), b)
    ensures Runs(s, a + b) && Exec(s, a + b) == Exec(Exec(s, a), b)
    decreases |a|
  {
    if a == [] {
      assert a + b == b;
    } else {
      assert (a + b)[1..] == a[1..] + b;
      RunsOn(Next(s, a[0]), a[1..], b);
    }
  }

  lemma ZeroLast(s: State) returns (paths: seq<seq<bool>>)
    requires Proper(s.task) && s.calls == []
    ensures Runs(s, paths) && Exec(s, paths).task == Done
    ensures 0 in Exec(s, paths).calls ==> Holds(Exec(s, paths), 0)
  {
    hide Runs, Exec, Holds;
    var first := OthersFirst(s);
    var e := Exec(s, first);
    InTimes(e.calls, 0);
    var rest := CanFinish(e);
    LateHolds(e, rest);
    RunsOn(s, first, rest);
    paths := first + rest;
  }

  const ZEROS: Word := [0, 0, 0, 0, 0, 0, 0, 0]
  const ONES: Word := [1, 1, 1, 1, 1, 1, 1, 1]

  /** The loop leaves in the last byte of slot 0 what a later index stored there. */
  lemma {:induction false} LoopByte(f: int -> Word, base: int, stride: nat, mem: Memory, n: nat)
    requires stride < 8 && n >= 2 && forall i :: i > 0 ==> f(i) == ONES
    ensures base + 7 in Loop(f, base, stride, mem, n) && Loop(f, base, stride, mem, n)[base + 7] == 1
    decreases n
  {
    hide Store;
    var at := base + (n - 1) * stride;
    StoreAt(Loop(f, base, stride, mem, n - 1), at, f(n - 1), base + 7);
    assert f(n - 1) == ONES;
    if n > 2 { LoopByte(f, base, stride, mem, n - 1); } else { assert at == base + stride; }
    if at <= base + 7 < at + 8 { assert ONES[base + 7 - at] == 1; }
  }

  lemma OverlapDiffers(base: int, stride: nat, mem: Memory, n: nat)
    requires stride < 8 && n >= 2
    ensures exists f, paths ::
      && Runs(Start(f, Some(base), stride, mem, n), paths)
      && Exec(Start(f, Some(base), stride, mem, n), paths).task == Done
      && !Equivalent(Loop(f, base, stride, mem, n), Exec(Start(f, Some(base), stride, mem, n), paths).mem)
  {
    hide Runs, Exec, Loop;
    var f := (i: int) => if i > 0 then ONES else ZEROS;
    var s := Start(f, Some(base), stride, mem, n);
    var paths := ZeroLast(s);
    var e := Exec(s, paths);
    EachIndexOnce(f, Some(base), stride, mem, n, paths, 0);
    InTimes(e.calls, 0);
    SlotsHold(f, Some(base), stride, mem, n, paths);
    LoopByte(f, base, stride, mem, n);
    assert e.mem[base + 7] == 0;
    assert !Same(Loop(f, base, stride, mem, n), e.mem, base + 7);
  }

  /** Under every schedule, and whatever the functions return, the call leaves memory as the loop
      does: exactly when the slots do not overlap, or there are not two. */
  lemma LikeTheLoopIff(base: int, stride: nat, mem: Memory, n: nat)
    ensures
      (forall f, paths ::
         Runs(Start(f, Some(base), stride, mem, n), paths) && Exec(Start(f, Some(base), stride, mem, n), paths).task == Done ==>
         Equivalent(Loop(f, base, stride, mem, n), Exec(Start(f, Some(base), stride, mem, n), paths).mem))
      <==> stride >= 8 || n <= 1
  {
    hide Runs, Exec, Loop, Equivalent, Start;
    if stride >= 8 || n <= 1 {
      forall f, paths | Runs(Start(f, Some(base), stride, mem, n), paths)
        && Exec(Start(f, Some(base), stride, mem, n), paths).task == Done
        ensures Equivalent(Loop(f, base, stride, mem, n), Exec(Start(f, Some(base), stride, mem, n), paths).mem)
      {
        ApartEquivalent(f, base, stride, mem, n, paths);
      }
    } else {
      OverlapDiffers(base, stride, mem, n);
    }
  }
}
