/** The hint cache of a run queue: a sequence lock.  Whoever holds the queue's lock
    publishes a thread with a copy of its hint, or invalidates the cache; readers take no
    lock and retry when the sequence number was odd or has changed.

    Stores reach memory in program order and the lock is released after them, so the
    publications follow each other; the slot `writer` is the lock holder's.  The counter
    `count` never wraps; the field seq of the cache is `count` modulo 2^32. */
module HintCache {
  import opened Base

  type Thread = nat
  type Byte = bv8

  const NULL: Thread := 0
  const CACHE_SIZE: nat := 2048
  const WRAP: nat := 0x1_0000_0000

  /** What one publication says: a thread and the part of its hint that fits. */
  datatype Pub = Pub(th: Thread, bytes: seq<Byte>)

  datatype WPc = WIdle | WPtr(p: Pub) | WSize(p: Pub) | WData(p: Pub, i: nat) | WSeq(p: Pub)

  /** `want` is what *psize holds, None without a size pointer; `fill` says whether there is a
      buffer.  `first`, `asked`, `k0`, `k1` and `tries` are history: the size asked for at the call
      and in this round, the counter when seq was read before and after, and the retries. */
  datatype Reader = Reader(pc: RPc, want: Option<nat>, fill: bool, first: Option<nat>, asked: Option<nat>, k0: nat, k1: nat, tries: nat)

  datatype RPc =
    | RSeq
    | RSize
    | RPtr(size: nat)
    | RCopy(ret: Thread, size: nat, out: seq<Byte>)
    | RCheck(ret: Thread, size: nat, out: seq<Byte>)
    | RDone(ret: Thread, size: nat, out: seq<Byte>)

  datatype State = State(
    count: nat, ptr: Thread, size: nat, data: seq<Byte>,
    writer: WPc, pubs: seq<Pub>, readers: map<nat, Reader>)

  datatype Act =
    | Publish(th: Thread, hint: seq<Byte>)
    | Invalidate
    | W
    | Call(r: nat, want: Option<nat>, fill: bool)
    | R(r: nat)

  predicate Enabled(s: State, a: Act) {
    match a
    case Publish(_, _) => s.writer == WIdle
    case Invalidate => s.writer == WIdle
    case W => s.writer != WIdle
    case Call(r, _, _) => r !in s.readers
    case R(r) => r in s.readers && !s.readers[r].pc.RDone?
  }

  function Fitting(hint: seq<Byte>): seq<Byte> {
    hint[..if CACHE_SIZE < |hint| then CACHE_SIZE else |hint|]
  }

  function WNext(s: State): State {
    match s.writer
    case WIdle => s
    case WPtr(p) => s.(ptr := p.th, writer := WSize(p))
    case WSize(p) => s.(size := |p.bytes|, writer := WData(p, 0))
    case WData(p, i) =>
      if i < |p.bytes| && i < |s.data| then s.(data := s.data[i := p.bytes[i]], writer := WData(p, i + 1))
      else s.(writer := WSeq(p))
    case WSeq(p) => s.(count := s.count + 1, pubs := s.pubs + [p], writer := WIdle)
  }

  function Asked(want: Option<nat>): nat {
    if want.Some? then want.value else 0
  }

  /** How much is copied: nothing of an empty hint, else no more than asked for. */
  function Granted(size: nat, want: Option<nat>): nat {
    if size > 0 then (if size < Asked(want) then size else Asked(want)) else 0
  }

  function RNext(s: State, r: Reader): Reader {
    match r.pc
    case RSeq => r.(pc := RSize, k0 := s.count, asked := r.want)
    case RSize => r.(pc := RPtr(s.size))
    case RPtr(size) => r.(pc := RCopy(s.ptr, Granted(size, r.want), []))
    case RCopy(ret, size, out) =>
      if r.fill && |out| < size && |out| < |s.data| then r.(pc := RCopy(ret, size, out + [s.data[|out|]]))
      else r.(pc := RCheck(ret, size, out), want := if r.want.Some? then Some(size) else None)
    case RCheck(ret, size, out) =>
      // seq before is odd, or differs from seq now: once more
      if r.k0 % WRAP % 2 == 1 || r.k0 % WRAP != s.count % WRAP then r.(pc := RSeq, tries := r.tries + 1)
      else r.(pc := RDone(ret, size, out), k1 := s.count)
    case RDone(_, _, _) => r
  }

  function Next(s: State, a: Act): State
    requires Enabled(s, a)
  {
    match a
    case Publish(th, hint) => s.(count := s.count + 1, writer := WPtr(Pub(th, Fitting(hint))))
    case Invalidate => s.(count := s.count + 1, writer := WPtr(Pub(NULL, [])))
    case W => WNext(s)
    case Call(r, want, fill) => s.(readers := s.readers[r := Reader(RSeq, want, fill, want, want, 0, 0, 0)])
    case R(r) => s.(readers := s.readers[r := RNext(s, s.readers[r])])
  }

  predicate Init(s: State) {
    && s.count == 0 && s.ptr == NULL && s.size == 0 && |s.data| == CACHE_SIZE
    && s.writer == WIdle && s.pubs == [Pub(NULL, [])] && s.readers == map[]
  }

  // ----- the invariant

  predicate Shows(s: State, p: Pub) {
    s.ptr == p.th && s.size == |p.bytes| && |p.bytes| <= |s.data| && s.data[..|p.bytes|] == p.bytes
  }

  /** The publication that is complete, or was before the one under way. */
  function Latest(s: State): Pub {
    if s.pubs == [] then Pub(NULL, []) else s.pubs[|s.pubs| - 1]
  }

  predicate WriterOk(s: State) {
    match s.writer
    case WIdle => s.count % 2 == 0 && Shows(s, Latest(s))
    case WPtr(p) => s.count % 2 == 1
    case WSize(p) => s.count % 2 == 1 && s.ptr == p.th
    case WData(p, i) =>
      && s.count % 2 == 1 && s.ptr == p.th && s.size == |p.bytes|
      && i <= |p.bytes| <= |s.data| && s.data[..i] == p.bytes[..i]
    case WSeq(p) => s.count % 2 == 1 && Shows(s, p)
  }

  predicate Fits(w: WPc) { w.WIdle? || |w.p.bytes| <= CACHE_SIZE }

  /** What the reader has read so far is p's, asked for with `want`. */
  predicate Reads(r: Reader, p: Pub) {
    match r.pc
    case RSeq => true
    case RSize => true
    case RPtr(size) => size == |p.bytes|
    case RCopy(ret, size, out) =>
      && ret == p.th && size == Granted(|p.bytes|, r.asked)
      && |out| <= size && out == p.bytes[..|out|]
    case RCheck(ret, size, out) => Got(r, p, ret, size, out)
    case RDone(ret, size, out) => Got(r, p, ret, size, out)
  }

  /** One publication's thread, and its hint as far as there was room. */
  predicate Got(r: Reader, p: Pub, ret: Thread, size: nat, out: seq<Byte>) {
    && ret == p.th && size == Granted(|p.bytes|, r.asked) && (r.fill ==> out == p.bytes[..size])
  }

  /** Nothing more than the caller has room for, whatever was read. */
  predicate Bounded(r: Reader) {
    && Asked(r.want) <= Asked(r.first)
    && (r.tries == 0 && !r.pc.RCheck? && !r.pc.RDone? ==> r.want == r.first)
    && (r.tries == 0 && !r.pc.RSeq? ==> r.asked == r.first)
    && (r.pc.RSize? || r.pc.RPtr? || r.pc.RCopy? ==> r.asked == r.want)
    && Asked(r.asked) <= Asked(r.first) && (r.want.Some? <==> r.first.Some?)
    && (r.pc.RCheck? || r.pc.RDone? ==> r.want == if r.first.Some? then Some(r.pc.size) else None)
    && (r.pc.RCopy? || r.pc.RCheck? || r.pc.RDone? ==> |r.pc.out| <= r.pc.size <= Asked(r.first))
  }

  predicate ReaderOk(s: State, r: Reader) {
    && Bounded(r) && r.k0 <= s.count
    && (r.k0 % 2 == 0 && r.k0 == s.count && !r.pc.RDone? ==> Reads(r, Latest(s)))
    && (r.pc.RDone? ==> r.k0 <= r.k1 && r.k0 % 2 == 0 && r.k0 % WRAP == r.k1 % WRAP)
    && (r.pc.RDone? && r.k0 == r.k1 ==> r.k0 / 2 < |s.pubs| && Reads(r, s.pubs[r.k0 / 2]))
  }

  predicate PubsOk(s: State) {
    |s.pubs| == s.count / 2 + 1 && |s.data| == CACHE_SIZE && Fits(s.writer)
  }

  ghost predicate Inv(s: State) {
    PubsOk(s) && WriterOk(s) && forall r :: r in s.readers ==> ReaderOk(s, s.readers[r])
  }

  // ----- preservation

  lemma WKeeps(s: State)
    requires PubsOk(s) && WriterOk(s) && s.writer != WIdle
    ensures PubsOk(WNext(s)) && WriterOk(WNext(s))
  {
    match s.writer
    case WPtr(p) =>
    case WSize(p) =>
    case WData(p, i) =>
      if i < |p.bytes| {
        var d := s.data[i := p.bytes[i]];
        assert d[..i + 1] == s.data[..i] + [p.bytes[i]];
        assert p.bytes[..i + 1] == p.bytes[..i] + [p.bytes[i]];
      } else {
        assert p.bytes[..i] == p.bytes;
      }
    case WSeq(p) =>
  }

  /** While somebody publishes, seq is odd: what a reader has read is then worth nothing. */
  lemma WKeepsReader(s: State, r: Reader)
    requires PubsOk(s) && WriterOk(s) && s.writer != WIdle && ReaderOk(s, r)
    ensures ReaderOk(WNext(s), r)
  {
    match s.writer
    case WPtr(p) =>
    case WSize(p) =>
    case WData(p, i) =>
    case WSeq(p) => assert s.count % 2 == 1;
  }

  lemma BeginKeeps(s: State, p: Pub)
    requires Inv(s) && s.writer == WIdle && |p.bytes| <= CACHE_SIZE
    ensures Inv(s.(count := s.count + 1, writer := WPtr(p)))
  {
    var s' := s.(count := s.count + 1, writer := WPtr(p));
    forall r | r in s'.readers ensures ReaderOk(s', s'.readers[r]) {
      assert ReaderOk(s, s.readers[r]);
    }
  }

  lemma RKeeps(s: State, r: Reader)
    requires PubsOk(s) && WriterOk(s) && ReaderOk(s, r) && !r.pc.RDone?
    ensures ReaderOk(s, RNext(s, r))
  {
    match r.pc
    case RSeq =>
    case RSize =>
    case RPtr(size) =>
    case RCopy(ret, size, out) => CopyKeeps(s, r);
    case RCheck(ret, size, out) => CheckKeeps(s, r);
  }

  lemma CopyKeeps(s: State, r: Reader)
    requires PubsOk(s) && WriterOk(s) && ReaderOk(s, r) && r.pc.RCopy?
    ensures ReaderOk(s, RNext(s, r))
  {
    var p := Latest(s);
    if r.k0 % 2 == 0 && r.k0 == s.count {
      var n := |r.pc.out|;
      assert s.writer == WIdle && Shows(s, p);
      if r.fill && n < r.pc.size {
        assert p.bytes[n] == s.data[n] by { assert s.data[..|p.bytes|][n] == s.data[n]; }
        assert p.bytes[..n + 1] == p.bytes[..n] + [p.bytes[n]];
      }
    }
  }

  lemma CheckKeeps(s: State, r: Reader)
    requires PubsOk(s) && WriterOk(s) && ReaderOk(s, r) && r.pc.RCheck?
    ensures ReaderOk(s, RNext(s, r))
  {
    assert r.k0 % WRAP % 2 == r.k0 % 2;
    if r.k0 % 2 == 0 && r.k0 == s.count {
      assert Latest(s) == s.pubs[r.k0 / 2];
    }
  }

  lemma NextKeeps(s: State, a: Act)
    requires Enabled(s, a) && Inv(s)
    ensures Inv(Next(s, a))
  {
    hide ReaderOk, WriterOk, PubsOk, RNext, WNext;
    var s' := Next(s, a);
    match a
    case Publish(th, hint) => BeginKeeps(s, Pub(th, Fitting(hint)));
    case Invalidate => BeginKeeps(s, Pub(NULL, []));
    case W =>
      WKeeps(s);
      SameReaders(s);
      forall r | r in s'.readers ensures ReaderOk(s', s'.readers[r]) {
        WKeepsReader(s, s.readers[r]);
      }
    case Call(r, want, fill) => CallKeeps(s, r, want, fill);
    case R(r) =>
      RKeeps(s, s.readers[r]);
      OnlyReader(s, r, RNext(s, s.readers[r]));
  }

  lemma SameReaders(s: State)
    ensures WNext(s).readers == s.readers
  {
  }

  lemma OnlyReader(s: State, r: nat, q: Reader)
    requires PubsOk(s) && WriterOk(s) && ReaderOk(s, q)
    requires forall u :: u in s.readers && u != r ==> ReaderOk(s, s.readers[u])
    ensures Inv(s.(readers := s.readers[r := q]))
  {
    var s' := s.(readers := s.readers[r := q]);
    forall u | u in s'.readers ensures ReaderOk(s', s'.readers[u]) {
      assert ReaderOk(s, s'.readers[u]);
    }
  }

  lemma CallKeeps(s: State, r: nat, want: Option<nat>, fill: bool)
    requires r !in s.readers && Inv(s)
    ensures Inv(s.(readers := s.readers[r := Reader(RSeq, want, fill, want, want, 0, 0, 0)]))
  {
    OnlyReader(s, r, Reader(RSeq, want, fill, want, want, 0, 0, 0));
  }

  // ----- whole runs

  predicate Runs(s: State, acts: seq<Act>)
    decreases |acts|
  {
    acts == [] || (Enabled(s, acts[0]) && Runs(Next(s, acts[0]), acts[1..]))
  }

  function Exec(s: State, acts: seq<Act>): State
    requires Runs(s, acts)
    decreases |acts|
  {
    if acts == [] then s else Exec(Next(s, acts[0]), acts[1..])
  }

  lemma {:induction false} RunKeeps(s: State, acts: seq<Act>)
    requires Runs(s, acts) && Inv(s)
    ensures Inv(Exec(s, acts))
    decreases |acts|
  {
    hide Inv, Enabled, Next;
    if acts != [] {
      NextKeeps(s, acts[0]);
      RunKeeps(Next(s, acts[0]), acts[1..]);
    }
  }

  /** What the reader returns is the thread and the hint of one single publication. */
  ghost predicate Single(s: State, q: Reader)
    requires q.pc.RDone?
  {
    exists p :: p in s.pubs && Got(q, p, q.pc.ret, q.pc.size, q.pc.out)
  }

  /** A reader that leaves its loop, and whose last round fewer than 2^31 publications
      overlapped, returns the thread and the hint of one single publication. */
  lemma ReadsOnePublication(s: State, acts: seq<Act>, r: nat)
    requires Init(s) && Runs(s, acts)
    requires r in Exec(s, acts).readers && Exec(s, acts).readers[r].pc.RDone?
    requires Exec(s, acts).readers[r].k1 - Exec(s, acts).readers[r].k0 < WRAP
    ensures Single(Exec(s, acts), Exec(s, acts).readers[r])
  {
    var e := Exec(s, acts);
    RunKeeps(s, acts);
    assert ReaderOk(e, e.readers[r]);
    SameRound(e.readers[r].k0, e.readers[r].k1);
    assert e.pubs[e.readers[r].k0 / 2] in e.pubs;
  }

  lemma SameRound(k0: nat, k1: nat)
    requires k0 <= k1 && k1 - k0 < WRAP && k0 % WRAP == k1 % WRAP
    ensures k0 == k1
  {
  }

  /** However often it retried, a reader never writes past the caller's buffer nor reads past
      the cache. */
  lemma ReadsAreBounded(s: State, acts: seq<Act>, r: nat)
    requires Init(s) && Runs(s, acts) && r in Exec(s, acts).readers
    ensures var q := Exec(s, acts).readers[r];
      q.pc.RCopy? || q.pc.RDone? ==> |q.pc.out| <= q.pc.size <= Asked(q.first)
    ensures |Exec(s, acts).data| == CACHE_SIZE
  {
    RunKeeps(s, acts);
    assert ReaderOk(Exec(s, acts), Exec(s, acts).readers[r]);
  }

  // ----- what the wrap of seq allows

  lemma {:induction false} RunsOn(s: State, a: seq<Act>, b: seq<Act>)
    requires Runs(s, a) && Runs(Exec(s, a), b)
    ensures Runs(s, a + b) && Exec(s, a + b) == Exec(Exec(s, a), b)
    decreases |a|
  {
    if a == [] {
      assert a + b == b;
    } else {
      assert (a + b)[1..] == a[1..] + b;
      RunsOn(Next(s, a[0]), a[1..], b);
    }
  }

  /** One whole publication of a one-byte hint. */
  function Whole(th: Thread, b: Byte): seq<Act> {
    [Publish(th, [b]), W, W, W, W, W]
  }

  function AfterWhole(s: State, th: Thread, b: Byte): State
    requires |s.data| == CACHE_SIZE
  {
    State(s.count + 2, th, 1, s.data[0 := b], WIdle, s.pubs + [Pub(th, [b])], s.readers)
  }

  lemma Stepping(s: State, a: Act, acts: seq<Act>)
    requires Enabled(s, a) && Runs(Next(s, a), acts)
    ensures Runs(s, [a] + acts) && Exec(s, [a] + acts) == Exec(Next(s, a), acts)
  {
    assert ([a] + acts)[1..] == acts;
  }

  lemma WholeRuns(s: State, th: Thread, b: Byte)
    requires s.writer == WIdle && |s.data| == CACHE_SIZE
    ensures Runs(s, Whole(th, b)) && Exec(s, Whole(th, b)) == AfterWhole(s, th, b)
  {
    var s1 := Next(s, Publish(th, [b]));
    var s2 := WNext(s1);
    var s3 := WNext(s2);
    var s4 := WNext(s3);
    var s5 := WNext(s4);
    var s6 := WNext(s5);
    assert s1.writer == WPtr(Pub(th, [b]));
    assert s6 == AfterWhole(s, th, b);
    Stepping(s5, W, []);
    Stepping(s4, W, [W]);
    Stepping(s3, W, [W, W]);
    Stepping(s2, W, [W, W, W]);
    Stepping(s1, W, [W, W, W, W]);
    Stepping(s, Publish(th, [b]), [W, W, W, W, W]);
    assert [W] + [] == [W];
    assert [W] + [W] == [W, W];
    assert [W] + [W, W] == [W, W, W];
    assert [W] + [W, W, W] == [W, W, W, W];
    assert [W] + [W, W, W, W] == [W, W, W, W, W];
    assert [Publish(th, [b])] + [W, W, W, W, W] == Whole(th, b);
  }

  function Many(th: Thread, b: Byte, n: nat): seq<Act> {
    if n == 0 then [] else Whole(th, b) + Many(th, b, n - 1)
  }

  lemma {:induction false} ManyRun(s: State, th: Thread, b: Byte, n: nat)
    requires s.writer == WIdle && |s.data| == CACHE_SIZE
    ensures Runs(s, Many(th, b, n))
    ensures var e := Exec(s, Many(th, b, n));
      && e.count == s.count + 2 * n && e.writer == WIdle && e.readers == s.readers && |e.data| == CACHE_SIZE
      && (n > 0 ==> e.data[0] == b)
      && |e.pubs| == |s.pubs| + n
      && (forall i :: 0 <= i < |s.pubs| ==> e.pubs[i] == s.pubs[i])
      && (forall i :: |s.pubs| <= i < |e.pubs| ==> e.pubs[i] == Pub(th, [b]))
    decreases n
  {
    hide Enabled, Next;
    if n > 0 {
      WholeRuns(s, th, b);
      ManyRun(AfterWhole(s, th, b), th, b, n - 1);
      RunsOn(s, Whole(th, b), Many(th, b, n - 1));
      if n == 1 { assert Many(th, b, 0) == []; }
    }
  }

  /** Reader r is through, while the counter moved by `moved`, with what no publication said. */
  ghost predicate Torn(s: State, r: nat, moved: nat) {
    && r in s.readers && s.readers[r].pc.RDone? && !Single(s, s.readers[r])
    && s.readers[r].k1 - s.readers[r].k0 == moved
  }

  /** The condition is needed: a reader that sleeps through 2^31 publications in the middle of a
      round leaves its loop with one publication's thread and another's hint. */
  lemma WrapTearsARead(s: State)
    requires Init(s)
    ensures exists acts :: Runs(s, acts) && Torn(Exec(s, acts), 0, WRAP)
  {
    hide Runs, Exec, Next, Enabled, Many, Whole;
    var half := WRAP / 2;
    var begin := [Call(0, Some(1), true), R(0), R(0), R(0)];
    var end := [R(0), R(0), R(0)];
    WholeRuns(s, 7, 1);
    var s1 := AfterWhole(s, 7, 1);
    BeginRead(s1);
    var s2 := Exec(s1, begin);
    ManyRun(s2, 8, 2, half);
    var s3 := Exec(s2, Many(8, 2, half));
    EndRead(s3);
    RunsOn(s2, Many(8, 2, half), end);
    RunsOn(s1, begin, Many(8, 2, half) + end);
    RunsOn(s, Whole(7, 1), begin + (Many(8, 2, half) + end));
    var acts := Whole(7, 1) + (begin + (Many(8, 2, half) + end));
    var e := Exec(s3, end);
    forall p | p in e.pubs ensures !Got(e.readers[0], p, 7, 1, [2]) {
      assert p == Pub(NULL, []) || p == Pub(7, [1]) || p == Pub(8, [2]);
      if p == Pub(7, [1]) { assert p.bytes[..1][0] == 1 && [2 as Byte][0] == 2; }
    }
    assert Runs(s, acts) && Exec(s, acts) == e && Torn(e, 0, WRAP);
  }

  lemma BeginRead(s: State)
    requires s.writer == WIdle && s.readers == map[] && s.size == 1 && s.ptr == 7
    ensures var acts := [Call(0, Some(1), true), R(0), R(0), R(0)];
      Runs(s, acts) && Exec(s, acts) == s.(readers := map[0 := Reader(RCopy(7, 1, []), Some(1), true, Some(1), Some(1), s.count, 0, 0)])
  {
    var s1 := Next(s, Call(0, Some(1), true));
    var s2 := Next(s1, R(0));
    var s3 := Next(s2, R(0));
    var s4 := Next(s3, R(0));
    assert s4.readers == map[0 := Reader(RCopy(7, 1, []), Some(1), true, Some(1), Some(1), s.count, 0, 0)];
    Stepping(s3, R(0), []);
    Stepping(s2, R(0), [R(0)]);
    Stepping(s1, R(0), [R(0), R(0)]);
    Stepping(s, Call(0, Some(1), true), [R(0), R(0), R(0)]);
    assert [R(0)] + [] == [R(0)];
    assert [R(0)] + [R(0)] == [R(0), R(0)];
    assert [R(0)] + [R(0), R(0)] == [R(0), R(0), R(0)];
    assert [Call(0, Some(1), true)] + [R(0), R(0), R(0)] == [Call(0, Some(1), true), R(0), R(0), R(0)];
  }

  lemma EndRead(s: State)
    requires s.count == 2 + WRAP && |s.data| == CACHE_SIZE && s.data[0] == 2
    requires s.readers == map[0 := Reader(RCopy(7, 1, []), Some(1), true, Some(1), Some(1), 2, 0, 0)]
    ensures var acts := [R(0), R(0), R(0)];
      Runs(s, acts) && Exec(s, acts) == s.(readers := map[0 := Reader(RDone(7, 1, [2]), Some(1), true, Some(1), Some(1), 2, 2 + WRAP, 0)])
  {
    var s1 := Next(s, R(0));
    var s2 := Next(s1, R(0));
    var s3 := Next(s2, R(0));
    assert s1.readers[0].pc == RCopy(7, 1, [2]);
    assert s2.readers[0].pc == RCheck(7, 1, [2]);
    assert s3.readers == map[0 := Reader(RDone(7, 1, [2]), Some(1), true, Some(1), Some(1), 2, 2 + WRAP, 0)];
    Stepping(s2, R(0), []);
    Stepping(s1, R(0), [R(0)]);
    Stepping(s, R(0), [R(0), R(0)]);
    assert [R(0)] + [] == [R(0)];
    assert [R(0)] + [R(0)] == [R(0), R(0)];
    assert [R(0)] + [R(0), R(0)] == [R(0), R(0), R(0)];
  }

  /** The readers whose last round saw the counter move by at most b all return one publication. */
  ghost predicate Sound(s: State, b: nat) {
    forall acts, r ::
      Runs(s, acts) && r in Exec(s, acts).readers && Exec(s, acts).readers[r].pc.RDone?
      && Exec(s, acts).readers[r].k1 - Exec(s, acts).readers[r].k0 <= b
      ==> Single(Exec(s, acts), Exec(s, acts).readers[r])
  }

  /** The exact condition: a distance of 2^32, which is 2^31 publications, is the first to tear. */
  lemma SoundIff(s: State, b: nat)
    requires Init(s)
    ensures Sound(s, b) <==> b < WRAP
  {
    hide Runs, Exec, Single, Init;
    if b < WRAP {
      forall acts, r | Runs(s, acts) && r in Exec(s, acts).readers && Exec(s, acts).readers[r].pc.RDone?
        && Exec(s, acts).readers[r].k1 - Exec(s, acts).readers[r].k0 <= b
        ensures Single(Exec(s, acts), Exec(s, acts).readers[r])
      {
        ReadsOnePublication(s, acts, r);
      }
    } else {
      WrapTearsARead(s);
      var acts :| Runs(s, acts) && Torn(Exec(s, acts), 0, WRAP);
      assert 0 in Exec(s, acts).readers && Exec(s, acts).readers[0].k1 - Exec(s, acts).readers[0].k0 <= b;
    }
  }

  // ----- said of the calls

  lemma FittingIs(hint: seq<Byte>)
    ensures |Fitting(hint)| == (if |hint| < CACHE_SIZE then |hint| else CACHE_SIZE) && Fitting(hint) == hint[..|Fitting(hint)|]
  {
  }

  /** What the acts publish, in order. */
  function Published(acts: seq<Act>): seq<Pub>
    decreases |acts|
  {
    if acts == [] then []
    else (match acts[0]
          case Publish(th, hint) => [Pub(th, hint[..if |hint| < CACHE_SIZE then |hint| else CACHE_SIZE])]
          case Invalidate => [Pub(NULL, [])]
          case _ => []) + Published(acts[1..])
  }

  function UnderWay(w: WPc): seq<Pub> {
    if w == WIdle then [] else [w.p]
  }

  lemma PublishStep(s: State, a: Act)
    requires Enabled(s, a)
    ensures Next(s, a).pubs + UnderWay(Next(s, a).writer) == s.pubs + UnderWay(s.writer) + Published([a])
  {
    assert [a][1..] == [];
    if a.W? {
      match s.writer
      case WPtr(_) =>
      case WSize(_) =>
      case WData(_, _) =>
      case WSeq(_) =>
    }
  }

  lemma {:induction false} RunPublishes(s: State, acts: seq<Act>)
    requires Runs(s, acts)
    ensures Exec(s, acts).pubs + UnderWay(Exec(s, acts).writer) == s.pubs + UnderWay(s.writer) + Published(acts)
    decreases |acts|
  {
    hide Enabled, Next, UnderWay;
    if acts != [] {
      var s' := Next(s, acts[0]);
      PublishStep(s, acts[0]);
      RunPublishes(s', acts[1..]);
      assert [acts[0]][1..] == [];
      assert Published(acts) == Published([acts[0]]) + Published(acts[1..]);
    }
  }

  /** In every run the publications, with the one under way, are what the acts publish, in order. */
  lemma PubsAreAsked(s: State, acts: seq<Act>)
    requires Init(s) && Runs(s, acts)
    ensures Exec(s, acts).pubs + UnderWay(Exec(s, acts).writer) == [Pub(NULL, [])] + Published(acts)
  {
    RunPublishes(s, acts);
  }

  /** What reader r was called with. */
  function AskedFor(acts: seq<Act>, r: nat): Option<(Option<nat>, bool)>
    decreases |acts|
  {
    if acts == [] then None
    else if acts[0].Call? && acts[0].r == r then Some((acts[0].want, acts[0].fill)) else AskedFor(acts[1..], r)
  }

  lemma CallStep(s: State, a: Act, r: nat)
    requires Enabled(s, a)
    ensures r in Next(s, a).readers <==> r in s.readers || (a.Call? && a.r == r)
    ensures r in s.readers ==> Next(s, a).readers[r].first == s.readers[r].first && Next(s, a).readers[r].fill == s.readers[r].fill
    ensures a.Call? && a.r == r ==> r !in s.readers && Next(s, a).readers[r].first == a.want && Next(s, a).readers[r].fill == a.fill
  {
    if a.W? { SameReaders(s); }
    hide WNext;
    if a.R? { RKeepsCall(s, s.readers[a.r]); }
    hide RNext;
  }

  lemma RKeepsCall(s: State, r: Reader)
    ensures RNext(s, r).first == r.first && RNext(s, r).fill == r.fill
  {
  }

  /** In every run a reader is there once called, with the size and the buffer of its call. */
  lemma {:induction false} ReadersAreAsked(s: State, acts: seq<Act>, r: nat)
    requires Runs(s, acts) && r !in s.readers
    ensures r in Exec(s, acts).readers <==> AskedFor(acts, r).Some?
    ensures r in Exec(s, acts).readers ==> var q := Exec(s, acts).readers[r]; AskedFor(acts, r) == Some((q.first, q.fill))
    decreases |acts|
  {
    hide Enabled, Next;
    if acts != [] {
      CallStep(s, acts[0], r);
      if acts[0].Call? && acts[0].r == r { CallStays(Next(s, acts[0]), acts[1..], r); }
      else { ReadersAreAsked(Next(s, acts[0]), acts[1..], r); }
    }
  }

  lemma {:induction false} CallStays(s: State, acts: seq<Act>, r: nat)
    requires Runs(s, acts) && r in s.readers
    ensures r in Exec(s, acts).readers
    ensures Exec(s, acts).readers[r].first == s.readers[r].first && Exec(s, acts).readers[r].fill == s.readers[r].fill
    decreases |acts|
  {
    hide Enabled, Next;
    if acts != [] {
      CallStep(s, acts[0], r);
      CallStays(Next(s, acts[0]), acts[1..], r);
    }
  }

  /** What a reader leaves in *psize is the size that it got, and that is what it asks for when it has
      to go round again. */
  lemma SizeIsAnswered(s: State, acts: seq<Act>, r: nat)
    requires Init(s) && Runs(s, acts) && r in Exec(s, acts).readers
    requires Exec(s, acts).readers[r].pc.RCheck? || Exec(s, acts).readers[r].pc.RDone?
    ensures var q := Exec(s, acts).readers[r]; q.want == if q.first.Some? then Some(q.pc.size) else None
    ensures var q := Exec(s, acts).readers[r]; q.pc.RCheck? ==>
      var q' := RNext(Exec(s, acts), q);
      q'.want == q.want && (q'.pc.RSeq? || (q'.pc.RDone? && q'.pc.size == q.pc.size && q'.pc.ret == q.pc.ret))
  {
    RunKeeps(s, acts);
    assert ReaderOk(Exec(s, acts), Exec(s, acts).readers[r]);
  }

  // ----- a reader or a publisher left alone

  predicate Fresh(s: State, r: Reader) { r.k0 == s.count }

  /** The steps that a reader still needs while nobody publishes; one that has read an old seq
      goes round once more. */
  function ToRead(s: State, r: Reader): int {
    match r.pc
    case RSeq => CACHE_SIZE + 5
    case RSize => CACHE_SIZE + 4 + if Fresh(s, r) then 0 else CACHE_SIZE + 6
    case RPtr(_) => CACHE_SIZE + 3 + if Fresh(s, r) then 0 else CACHE_SIZE + 6
    case RCopy(_, _, out) => CACHE_SIZE - |out| + 2 + if Fresh(s, r) then 0 else CACHE_SIZE + 6
    case RCheck(_, _, _) => 1 + if Fresh(s, r) then 0 else CACHE_SIZE + 6
    case RDone(_, _, _) => 0
  }

  lemma ReadingRunsOut(s: State, r: Reader)
    requires PubsOk(s) && WriterOk(s) && ReaderOk(s, r) && s.writer == WIdle && !r.pc.RDone?
    requires r.pc.RCopy? ==> |r.pc.out| <= CACHE_SIZE
    ensures 0 <= ToRead(s, RNext(s, r)) < ToRead(s, r)
    ensures ToRead(s, RNext(s, r)) == 0 <==> RNext(s, r).pc.RDone?
    ensures RNext(s, r).pc.RCopy? ==> |RNext(s, r).pc.out| <= CACHE_SIZE
  {
    hide WriterOk, ReaderOk, Latest;
    EvenCount(s);
  }

  lemma EvenCount(s: State)
    requires WriterOk(s) && s.writer == WIdle
    ensures s.count % WRAP % 2 == 0
  {
    assert s.count % 2 == 0;
  }

  function ToPublish(w: WPc): int {
    match w
    case WIdle => 0
    case WPtr(p) => |p.bytes| + 4
    case WSize(p) => |p.bytes| + 3
    case WData(p, i) => |p.bytes| - i + 2
    case WSeq(_) => 1
  }

  /** Every step of a publisher is one less of those that it takes. */
  lemma PublishingRunsOut(s: State)
    requires WriterOk(s) && s.writer != WIdle
    ensures 0 <= ToPublish(WNext(s).writer) < ToPublish(s.writer)
    ensures ToPublish(WNext(s).writer) == 0 <==> WNext(s).writer == WIdle
  {
  }
}
