/**
  The single-producer single-consumer ring buffer (exchange-core/spsc_ring_buffer.h) as a
  two-thread protocol.  Positions are machine words that wrap around; each atomic access is a step
  of its own; a thread's load of the other thread's position may return any value that position
  has held since the value the thread saw last.
 */
module Ring {
  /** `capacity` slots, a power of two, and positions below `word`, a larger one. */
  datatype Shape = Shape(capacity: nat, word: nat) {
    predicate Valid() { 0 < capacity < word && word % capacity == 0 }

    /** Unsigned subtraction. */
    function Minus(a: nat, b: nat): int
      requires Valid() && a < word && b < word
    {
      if a >= b then a - b else a - b + word
    }
  }

  /** Where the producer is in try_push. */
  datatype Producer<T> = NotPushing | Loaded(item: T, wp: nat) | Cleared(item: T, wp: nat) | Stored(item: T, wp: nat)

  /** Where the consumer is in try_pop. */
  datatype Consumer<T> = NotPopping | LoadedOwn(rp: nat) | Allowed(rp: nat) | Copied(rp: nat, item: T)

  /** Shared memory, the two threads, all that was ever pushed and popped, and how much of the
      other side's progress each thread has seen. */
  datatype System<T> = System(
    buffer: seq<T>, writePos: nat, readPos: nat, producer: Producer<T>, consumer: Consumer<T>,
    pushed: seq<T>, popped: seq<T>, producerSaw: nat, consumerSaw: nat)
  {
    function Queue(): seq<T>
      requires |popped| <= |pushed|
    { pushed[|popped|..] }
  }

  /** One atomic access.  `k` is how many pops, or pushes, a load of the other position takes in. */
  datatype Step<T> =
    | StartPush(item: T) | LoadRead(k: nat) | StoreSlot | Publish
    | StartPop | LoadWrite(k: nat) | CopySlot | Retire

  predicate Enabled<T>(s: System<T>, step: Step<T>) {
    match step
    case StartPush(_) => s.producer.NotPushing?
    case LoadRead(k) => s.producer.Loaded? && s.producerSaw <= k <= |s.popped|
    case StoreSlot => s.producer.Cleared?
    case Publish => s.producer.Stored?
    case StartPop => s.consumer.NotPopping?
    case LoadWrite(k) => s.consumer.LoadedOwn? && s.consumerSaw <= k <= |s.pushed|
    case CopySlot => s.consumer.Allowed?
    case Retire => s.consumer.Copied?
  }

  function Next<T>(c: Shape, s: System<T>, step: Step<T>): System<T>
    requires c.Valid() && Typed(c, s) && Enabled(s, step)
  {
    match step
    case StartPush(item) => s.(producer := Loaded(item, s.writePos))
    case LoadRead(k) =>
      var p := if c.Minus(s.producer.wp, k % c.word) >= c.capacity then NotPushing else Cleared(s.producer.item, s.producer.wp);
      s.(producer := p, producerSaw := k)
    case StoreSlot =>
      s.(buffer := s.buffer[s.producer.wp % c.capacity := s.producer.item], producer := Stored(s.producer.item, s.producer.wp))
    case Publish =>
      s.(writePos := (s.producer.wp + 1) % c.word, producer := NotPushing, pushed := s.pushed + [s.producer.item])
    case StartPop => s.(consumer := LoadedOwn(s.readPos))
    case LoadWrite(k) =>
      s.(consumer := if s.consumer.rp == k % c.word then NotPopping else Allowed(s.consumer.rp), consumerSaw := k)
    case CopySlot => s.(consumer := Copied(s.consumer.rp, s.buffer[s.consumer.rp % c.capacity]))
    case Retire =>
      s.(readPos := (s.consumer.rp + 1) % c.word, consumer := NotPopping, popped := s.popped + [s.consumer.item])
  }

  ghost predicate Typed<T>(c: Shape, s: System<T>) {
    && |s.buffer| == c.capacity && s.writePos < c.word && s.readPos < c.word
    && (!s.producer.NotPushing? ==> s.producer.wp < c.word) && (!s.consumer.NotPopping? ==> s.consumer.rp < c.word)
  }

  // ---------------------------------------------------------------- the invariant

  ghost predicate ProducerOk<T>(c: Shape, s: System<T>)
    requires c.Valid() && Typed(c, s)
  {
    && s.producerSaw <= |s.popped| && |s.pushed| - s.producerSaw <= c.capacity
    && match s.producer
       case NotPushing => true
       case Loaded(_, wp) => wp == |s.pushed| % c.word
       case Cleared(_, wp) => wp == |s.pushed| % c.word && |s.pushed| - s.producerSaw < c.capacity
       case Stored(x, wp) =>
         wp == |s.pushed| % c.word && |s.pushed| - s.producerSaw < c.capacity && s.buffer[wp % c.capacity] == x
  }

  ghost predicate ConsumerOk<T>(c: Shape, s: System<T>)
    requires c.Valid() && Typed(c, s)
  {
    && |s.popped| <= s.consumerSaw <= |s.pushed|
    && match s.consumer
       case NotPopping => true
       case LoadedOwn(rp) => rp == |s.popped| % c.word
       case Allowed(rp) => rp == |s.popped| % c.word && |s.popped| < s.consumerSaw
       case Copied(rp, x) => rp == |s.popped| % c.word && |s.popped| < s.consumerSaw && x == s.pushed[|s.popped|]
  }

  /** Slots between the two counts hold what was pushed there. */
  ghost predicate SlotsOk<T>(c: Shape, s: System<T>)
    requires c.Valid() && Typed(c, s)
  {
    forall i :: |s.popped| <= i < |s.pushed| ==> s.buffer[i % c.capacity] == s.pushed[i]
  }

  ghost predicate Safe<T>(c: Shape, s: System<T>) {
    && c.Valid() && Typed(c, s)
    && s.popped <= s.pushed
    && s.writePos == |s.pushed| % c.word && s.readPos == |s.popped| % c.word
    && ProducerOk(c, s) && ConsumerOk(c, s) && SlotsOk(c, s)
  }

  // ---------------------------------------------------------------- word arithmetic

  lemma SameMod(a: nat, b: nat, m: nat)
    requires 0 < m && a <= b < a + m
    ensures a % m == b % m <==> a == b
  {
    assert a == m * (a / m) + a % m && b == m * (b / m) + b % m;
    if a % m == b % m {
      assert b - a == m * (b / m - a / m);
      Multiple(m, b / m - a / m);
    }
  }

  lemma Multiple(m: nat, d: int)
    ensures (d >= 1 ==> m * d >= m) && (d <= -1 ==> m * d + m <= 0)
  {
  }

  lemma ModUnique(m: nat, a: nat, q: int, r: int)
    requires m > 0 && a == m * q + r && 0 <= r < m
    ensures a % m == r
  {
    var d := a / m - q;
    assert m * d == r - a % m;
    Multiple(m, d);
  }

  /** A slot index computed from a wrapped position is the one computed from the count. */
  lemma SlotOfWord(c: Shape, n: nat)
    requires c.Valid()
    ensures n % c.word % c.capacity == n % c.capacity
  {
    var x := n % c.word;
    assert n == c.word * (n / c.word) + x;
    assert x == c.capacity * (x / c.capacity) + x % c.capacity;
    var m := c.word / c.capacity;
    assert c.word == c.capacity * m;
    assert c.capacity * m * (n / c.word) == c.capacity * (m * (n / c.word));
    assert n == c.capacity * (m * (n / c.word) + x / c.capacity) + x % c.capacity;
    ModUnique(c.capacity, n, m * (n / c.word) + x / c.capacity, x % c.capacity);
  }

  lemma NextWord(c: Shape, n: nat)
    requires c.Valid()
    ensures (n % c.word + 1) % c.word == (n + 1) % c.word
  {
    var x, q := n % c.word, n / c.word;
    assert n == c.word * q + x;
    if x + 1 < c.word {
      ModUnique(c.word, n + 1, q, x + 1);
      ModUnique(c.word, x + 1, 0, x + 1);
    } else {
      assert c.word * (q + 1) == c.word * q + c.word;
      ModUnique(c.word, n + 1, q + 1, 0);
      ModUnique(c.word, x + 1, 1, 0);
    }
  }

  lemma DivMod(w: nat, n: nat)
    requires w > 0
    ensures n == w * (n / w) + n % w && 0 <= n % w < w
  {
  }

  /** Numbers less than a word apart have the same quotient, or neighbouring ones. */
  lemma Apart(w: nat, p: int, x: int, q: int, y: int)
    requires 0 <= x < w && 0 <= y < w && w * q + y <= w * p + x < w * q + y + w
    ensures w * p + x - (w * q + y) == if x >= y then x - y else x + w - y
  {
    var d := p - q;
    assert w * p - w * q == w * d;
    Multiple(w, d);
    Multiple(w, d - 1);
    assert w * (d - 1) == w * d - w;
  }

  /** The wrapped difference of two counts less than a word apart is their difference. */
  lemma WordMinus(c: Shape, a: nat, b: nat)
    requires c.Valid() && b <= a < b + c.word
    ensures c.Minus(a % c.word, b % c.word) == a - b
  {
    var w := c.word;
    DivMod(w, a);
    DivMod(w, b);
    Apart(w, a / w, a % w, b / w, b % w);
  }

  // ---------------------------------------------------------------- safety

  function Start<T>(buffer: seq<T>): System<T> { System(buffer, 0, 0, NotPushing, NotPopping, [], [], 0, 0) }

  lemma StartSafe<T>(c: Shape, buffer: seq<T>)
    requires c.Valid() && |buffer| == c.capacity
    ensures Safe(c, Start(buffer))
  {
  }

  /** What the producer is about to write is not what the consumer may be reading. */
  lemma NoRace<T>(c: Shape, s: System<T>)
    requires c.Valid() && Safe(c, s) && s.producer.Cleared? && s.consumer.Allowed?
    ensures s.producer.wp % c.capacity != s.consumer.rp % c.capacity
  {
    SlotOfWord(c, |s.pushed|);
    SlotOfWord(c, |s.popped|);
    SameMod(|s.popped|, |s.pushed|, c.capacity);
  }

  /** Nor is it any unread slot. */
  lemma NoOverwrite<T>(c: Shape, s: System<T>, i: nat)
    requires c.Valid() && Safe(c, s) && s.producer.Cleared? && |s.popped| <= i < |s.pushed|
    ensures s.producer.wp % c.capacity != i % c.capacity
  {
    SlotOfWord(c, |s.pushed|);
    SameMod(i, |s.pushed|, c.capacity);
  }

  lemma LoadReadSafe<T>(c: Shape, s: System<T>, k: nat)
    requires c.Valid() && Safe(c, s) && Enabled(s, LoadRead(k))
    ensures Safe(c, Next(c, s, LoadRead(k)))
  {
    WordMinus(c, |s.pushed|, k);
  }

  lemma StoreSafe<T>(c: Shape, s: System<T>)
    requires c.Valid() && Safe(c, s) && Enabled(s, StoreSlot)
    ensures Safe(c, Next(c, s, StoreSlot))
  {
    forall i | |s.popped| <= i < |s.pushed| ensures s.producer.wp % c.capacity != i % c.capacity { NoOverwrite(c, s, i); }
  }

  lemma PublishSafe<T>(c: Shape, s: System<T>)
    requires c.Valid() && Safe(c, s) && Enabled(s, Publish)
    ensures Safe(c, Next(c, s, Publish))
  {
    NextWord(c, |s.pushed|);
    SlotOfWord(c, |s.pushed|);
  }

  lemma LoadWriteSafe<T>(c: Shape, s: System<T>, k: nat)
    requires c.Valid() && Safe(c, s) && Enabled(s, LoadWrite(k))
    ensures Safe(c, Next(c, s, LoadWrite(k)))
  {
    SameMod(|s.popped|, k, c.word);
  }

  lemma CopySafe<T>(c: Shape, s: System<T>)
    requires c.Valid() && Safe(c, s) && Enabled(s, CopySlot)
    ensures Safe(c, Next(c, s, CopySlot))
  {
    SlotOfWord(c, |s.popped|);
  }

  lemma RetireSafe<T>(c: Shape, s: System<T>)
    requires c.Valid() && Safe(c, s) && Enabled(s, Retire)
    ensures Safe(c, Next(c, s, Retire))
  {
    NextWord(c, |s.popped|);
  }

  /** Every atomic step, of either thread, in any order, keeps the invariant. */
  lemma StepSafe<T>(c: Shape, s: System<T>, step: Step<T>)
    requires c.Valid() && Safe(c, s) && Enabled(s, step)
    ensures Safe(c, Next(c, s, step))
  {
    match step
    case LoadRead(k) => LoadReadSafe(c, s, k);
    case StoreSlot => StoreSafe(c, s);
    case Publish => PublishSafe(c, s);
    case LoadWrite(k) => LoadWriteSafe(c, s, k);
    case CopySlot => CopySafe(c, s);
    case Retire => RetireSafe(c, s);
    case _ =>
  }

  // ---------------------------------------------------------------- a bounded FIFO queue

  /** The step's effect on the queue: publishing adds at the back of a queue that is not full,
      retiring takes the item it returns from the front, nothing else changes it. */
  lemma StepRefines<T>(c: Shape, s: System<T>, step: Step<T>)
    requires c.Valid() && Safe(c, s) && Enabled(s, step)
    ensures var s' := Next(c, s, step);
      && Safe(c, s') && |s'.Queue()| <= c.capacity
      && match step
         case Publish => |s.Queue()| < c.capacity && s'.Queue() == s.Queue() + [s.producer.item]
         case Retire => s.Queue() != [] && s.consumer.item == s.Queue()[0] && s'.Queue() == s.Queue()[1..]
         case _ => s'.Queue() == s.Queue()
  {
    StepSafe(c, s, step);
  }

  /** A push is refused only where the producer looked: the queue was full when k items had been
      taken.  It is never refused while it sees room. */
  lemma RefusedPush<T>(c: Shape, s: System<T>, k: nat)
    requires c.Valid() && Safe(c, s) && Enabled(s, LoadRead(k))
    ensures Next(c, s, LoadRead(k)).producer.NotPushing? <==> |s.pushed| - k == c.capacity
  {
    WordMinus(c, |s.pushed|, k);
  }

  /** A pop comes up empty only where the consumer looked: everything in sight had been taken. */
  lemma EmptyPop<T>(c: Shape, s: System<T>, k: nat)
    requires c.Valid() && Safe(c, s) && Enabled(s, LoadWrite(k))
    ensures Next(c, s, LoadWrite(k)).consumer.NotPopping? <==> k == |s.popped|
  {
    SameMod(|s.popped|, k, c.word);
  }

  /** size() called by the producer or by the consumer, whose own position is exact. */
  lemma SizeInRange<T>(c: Shape, s: System<T>, k: nat)
    requires c.Valid() && Safe(c, s)
    ensures s.producerSaw <= k <= |s.popped| ==> 0 <= c.Minus(s.writePos, k % c.word) <= c.capacity
    ensures s.consumerSaw <= k <= |s.pushed| ==> 0 <= c.Minus(k % c.word, s.readPos) <= c.capacity
  {
    if s.producerSaw <= k <= |s.popped| { WordMinus(c, |s.pushed|, k); }
    if s.consumerSaw <= k <= |s.pushed| { WordMinus(c, k, |s.popped|); }
  }

  /** size() called by anyone: the write position is loaded first, as the count w, and the read
      position later, as the count r.  Neither count is more than a capacity behind the other's
      progress; the result is in range exactly when the reader had not got past w. */
  lemma SizeOfLoads(c: Shape, w: nat, r: nat)
    requires c.Valid() && w <= r + c.capacity && r < w + c.word - c.capacity
    ensures 0 <= c.Minus(w % c.word, r % c.word) <= c.capacity <==> r <= w
  {
    if r <= w {
      WordMinus(c, w, r);
    } else {
      WordMinus(c, r, w);
      SameMod(w, r, c.word);
    }
  }

  /** One push and one pop, step by step. */
  function RoundTrip<T>(x: T): seq<Step<T>> {
    [StartPush(x), LoadRead(0), StoreSlot, Publish, StartPop, LoadWrite(1), CopySlot, Retire]
  }

  /** Where they take a new buffer. */
  function AfterRoundTrip<T>(c: Shape, buffer: seq<T>, x: T): System<T>
    requires c.Valid() && |buffer| == c.capacity
  {
    System(buffer[0 := x], 1, 1, NotPushing, NotPopping, [x], [x], 0, 1)
  }

  /** An outsider that loads the write position of a new buffer, then, after one push and one pop,
      the read position, computes almost a whole word. */
  lemma OutsiderWraps<T>(c: Shape, buffer: seq<T>, x: T)
    requires c.Valid() && |buffer| == c.capacity
    ensures Runs(c, Start(buffer), RoundTrip(x), AfterRoundTrip(c, buffer, x)) && Safe(c, AfterRoundTrip(c, buffer, x))
    ensures c.Minus(Start(buffer).writePos, AfterRoundTrip(c, buffer, x).readPos) == c.word - 1 > c.capacity - 1
    ensures c.word > c.capacity + 1 ==> c.Minus(Start(buffer).writePos, AfterRoundTrip(c, buffer, x).readPos) > c.capacity
  {
    hide Runs, Next;
    SmallMod(c);
    var s0 := Start(buffer);
    var s1 := s0.(producer := Loaded(x, 0));
    var s2 := s1.(producer := Cleared(x, 0));
    var s3 := s2.(buffer := buffer[0 := x], producer := Stored(x, 0));
    var s4 := s3.(writePos := 1, producer := NotPushing, pushed := [x]);
    var s5 := s4.(consumer := LoadedOwn(0));
    var s6 := s5.(consumer := Allowed(0), consumerSaw := 1);
    var s7 := s6.(consumer := Copied(0, x));
    var s8 := AfterRoundTrip(c, buffer, x);
    NextIs(c, buffer, x);
    EmptyRun(c, s8);
    var t8: seq<Step<T>> := [];
    var t7 := [Retire] + t8;
    var t6 := [CopySlot] + t7;
    var t5 := [LoadWrite(1)] + t6;
    var t4 := [StartPop] + t5;
    var t3 := [Publish] + t4;
    var t2 := [StoreSlot] + t3;
    var t1 := [LoadRead(0)] + t2;
    OneStep(c, s7, Retire, t8, s8);
    OneStep(c, s6, CopySlot, t7, s8);
    OneStep(c, s5, LoadWrite(1), t6, s8);
    OneStep(c, s4, StartPop, t5, s8);
    OneStep(c, s3, Publish, t4, s8);
    OneStep(c, s2, StoreSlot, t3, s8);
    OneStep(c, s1, LoadRead(0), t2, s8);
    OneStep(c, s0, StartPush(x), t1, s8);
    assert [StartPush(x)] + t1 == RoundTrip(x);
    NewBufferIsFifo(c, buffer, RoundTrip(x), s8);
  }

  lemma SmallMod(c: Shape)
    requires c.Valid()
    ensures 0 % c.word == 0 && 0 % c.capacity == 0 && 1 % c.word == 1
  {
    ModUnique(c.word, 1, 0, 1);
  }

  lemma EmptyRun<T>(c: Shape, s: System<T>)
    ensures Runs(c, s, [], s)
  {
  }

  lemma OneStep<T>(c: Shape, s: System<T>, step: Step<T>, rest: seq<Step<T>>, s': System<T>)
    requires c.Valid() && Typed(c, s) && Enabled(s, step) && Runs(c, Next(c, s, step), rest, s')
    ensures Runs(c, s, [step] + rest, s')
  {
    hide Next;
    assert ([step] + rest)[1..] == rest;
  }

  /** The eight steps, one by one. */
  lemma NextIs<T>(c: Shape, buffer: seq<T>, x: T)
    requires c.Valid() && |buffer| == c.capacity
    ensures var s0 := Start(buffer);
      var s1 := s0.(producer := Loaded(x, 0));
      var s2 := s1.(producer := Cleared(x, 0));
      var s3 := s2.(buffer := buffer[0 := x], producer := Stored(x, 0));
      var s4 := s3.(writePos := 1, producer := NotPushing, pushed := [x]);
      var s5 := s4.(consumer := LoadedOwn(0));
      var s6 := s5.(consumer := Allowed(0), consumerSaw := 1);
      var s7 := s6.(consumer := Copied(0, x));
      && Next(c, s0, StartPush(x)) == s1 && Next(c, s1, LoadRead(0)) == s2 && Next(c, s2, StoreSlot) == s3
      && Next(c, s3, Publish) == s4 && Next(c, s4, StartPop) == s5 && Next(c, s5, LoadWrite(1)) == s6
      && Next(c, s6, CopySlot) == s7 && Next(c, s7, Retire) == AfterRoundTrip(c, buffer, x)
  {
    SmallMod(c);
    assert [] + [x] == [x];
  }

  // ---------------------------------------------------------------- whole runs

  ghost predicate Runs<T>(c: Shape, s: System<T>, steps: seq<Step<T>>, s': System<T>)
    decreases |steps|
  {
    if steps == [] then s' == s
    else c.Valid() && Typed(c, s) && Enabled(s, steps[0]) && Runs(c, Next(c, s, steps[0]), steps[1..], s')
  }

  /** Under every interleaving and every stale load, what has come out is exactly the first part
      of what has gone in, in order, and what is inside is the rest. */
  lemma {:induction false} RunIsFifo<T>(c: Shape, s: System<T>, steps: seq<Step<T>>, s': System<T>)
    requires c.Valid() && Safe(c, s) && Runs(c, s, steps, s')
    ensures Safe(c, s') && s.pushed <= s'.pushed && s.popped <= s'.popped
    ensures s'.popped <= s'.pushed && s'.pushed == s'.popped + s'.Queue() && |s'.Queue()| <= c.capacity
    decreases |steps|
  {
    if steps != [] {
      StepSafe(c, s, steps[0]);
      RunIsFifo(c, Next(c, s, steps[0]), steps[1..], s');
    }
  }

  /** Whatever two threads do with a new buffer, it is a bounded FIFO queue to them. */
  lemma NewBufferIsFifo<T>(c: Shape, buffer: seq<T>, steps: seq<Step<T>>, s: System<T>)
    requires c.Valid() && |buffer| == c.capacity && Runs(c, Start(buffer), steps, s)
    ensures Safe(c, s) && s.pushed == s.popped + s.Queue() && |s.Queue()| <= c.capacity
  {
    StartSafe(c, buffer);
    RunIsFifo(c, Start(buffer), steps, s);
  }

  // ---------------------------------------------------------------- calls that do not overlap

  /** The buffer itself, for calls that run one after the other. */
  class RingBuffer<T> {
    const shape: Shape
    const buffer: array<T>
    var writePos: nat
    var readPos: nat
    ghost var pushed: seq<T>
    ghost var popped: seq<T>

    ghost predicate Valid()
      reads this, buffer
    {
      && shape.Valid() && buffer.Length == shape.capacity
      && popped <= pushed && |pushed| - |popped| <= shape.capacity
      && writePos == |pushed| % shape.word && readPos == |popped| % shape.word
      && forall i :: |popped| <= i < |pushed| ==> buffer[i % shape.capacity] == pushed[i]
    }

    ghost function Queue(): seq<T>
      requires |popped| <= |pushed|
      reads this
    { pushed[|popped|..] }

    constructor (shape: Shape, initial: T)
      requires shape.Valid()
      ensures this.shape == shape && Valid() && fresh(buffer) && Queue() == []
    {
      this.shape := shape;
      buffer := new T[shape.capacity](_ => initial);
      writePos, readPos, pushed, popped := 0, 0, [], [];
    }

    method TryPush(item: T) returns (ok: bool)
      requires Valid()
      modifies this`writePos, this`pushed, buffer
      ensures Valid()
      ensures ok <==> |old(Queue())| < shape.capacity
      ensures Queue() == if ok then old(Queue()) + [item] else old(Queue())
    {
      var wp, rp := writePos, readPos;
      WordMinus(shape, |pushed|, |popped|);
      if shape.Minus(wp, rp) >= shape.capacity { return false; }
      SlotOfWord(shape, |pushed|);
      NextWord(shape, |pushed|);
      forall i | |popped| <= i < |pushed| ensures i % shape.capacity != wp % shape.capacity {
        SameMod(i, |pushed|, shape.capacity);
      }
      buffer[wp % shape.capacity] := item;
      writePos := (wp + 1) % shape.word;
      pushed := pushed + [item];
      return true;
    }

    method TryPop(before: T) returns (ok: bool, item: T)
      requires Valid()
      modifies this`readPos, this`popped
      ensures Valid()
      ensures ok <==> old(Queue()) != []
      ensures if ok then old(Queue()) == [item] + Queue() else Queue() == old(Queue()) && item == before
    {
      item := before;
      var rp, wp := readPos, writePos;
      SameMod(|popped|, |pushed|, shape.word);
      if rp == wp { return false, item; }
      SlotOfWord(shape, |popped|);
      NextWord(shape, |popped|);
      item := buffer[rp % shape.capacity];
      readPos := (rp + 1) % shape.word;
      popped := popped + [item];
      return true, item;
    }

    method Size() returns (n: int)
      requires Valid()
      ensures n == |Queue()| <= shape.capacity
    {
      WordMinus(shape, |pushed|, |popped|);
      n := shape.Minus(writePos, readPos);
    }
  }
}
