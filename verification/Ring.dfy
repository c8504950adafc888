/** The bounded buffer of descriptor pairs (Homework5/hw5.c, `buffer_t`): a flat array of
    `2 * maxSize` ints whose head and tail move in steps of two and wrap around. */
module Ring {

  type Pair = (int, int)

  /** The fields of `buffer_t` that make up the queue, as a value. */
  datatype Ring = Ring(slots: seq<int>, head: int, tail: int, count: int, maxSize: nat)

  /** `buffer_t` as a value: the queue, the four statistics and the `done` flag. */
  datatype Shared = Shared(ring: Ring, regularFiles: nat, directories: nat, fifos: nat, bytesCopied: nat, done: bool)

  /** What every critical section keeps. */
  ghost predicate Valid(r: Ring) {
    && 1 <= r.maxSize
    && |r.slots| == 2 * r.maxSize
    && 0 <= r.count <= r.maxSize
    && 0 <= r.head < 2 * r.maxSize && r.head % 2 == 0
    && 0 <= r.tail < 2 * r.maxSize && r.tail % 2 == 0
    && r.tail == SlotOf(r, r.count)
  }

  /** The slot of the `j`-th queued source descriptor, one lap at most past the head. */
  ghost function SlotOf(r: Ring, j: int): int {
    var s := r.head + 2 * j;
    if s < 2 * r.maxSize then s else s - 2 * r.maxSize
  }

  /** The index two slots on, as both ends of the buffer compute it. */
  function Next(i: int, size: nat): (n: int)
    requires 1 <= size && 0 <= i < 2 * size && i % 2 == 0
    ensures n == if i + 2 < 2 * size then i + 2 else 0
  {
    var m := size * 2;
    ModSmall(i + 2, m);
    (i + 2) % m
  }

  /** The bounded FIFO of pairs that the flat array stands for. */
  ghost function Contents(r: Ring): seq<Pair>
    requires Valid(r)
  {
    seq(r.count, j requires 0 <= j < r.count => PairAt(r, j))
  }

  ghost function PairAt(r: Ring, j: int): Pair
    requires Valid(r) && 0 <= j < r.maxSize
  {
    (r.slots[SlotOf(r, j)], r.slots[SlotOf(r, j) + 1])
  }

  function Empty(size: nat): Ring {
    Ring(seq(2 * size, _ => 0), 0, 0, 0, size)
  }

  /** The manager's insertion. */
  function Push(r: Ring, src: int, dst: int): Ring
    requires Valid(r)
  {
    r.(slots := r.slots[r.tail := src][r.tail + 1 := dst],
       tail := Next(r.tail, r.maxSize),
       count := r.count + 1)
  }

  /** The pair a worker takes. */
  function Front(r: Ring): Pair
    requires Valid(r)
  {
    (r.slots[r.head], r.slots[r.head + 1])
  }

  /** What a worker leaves behind. */
  function Pop(r: Ring): Ring
    requires Valid(r)
  {
    r.(head := Next(r.head, r.maxSize), count := r.count - 1)
  }

  // ---------- arithmetic of the wrap-around ----------

  lemma ModSmall(x: int, m: int)
    requires 2 <= m && 0 <= x < 2 * m
    ensures x % m == if x < m then x else x - m
  {
    if x >= m {
      var q, r := x / m, x % m;
      assert x == m * q + r;
      if q != 1 {
        MulSign(m, q);
        assert false;
      }
    }
  }

  lemma MulSign(m: int, q: int)
    requires 2 <= m
    ensures q <= 0 ==> m * q <= 0
    ensures 2 <= q ==> 2 * m <= m * q
  {
    if 2 <= q {
      assert m * q == 2 * m + m * (q - 2);
    }
  }

  /** The tail index is determined by head and count, modulo the length of the array. */
  lemma TailFromHead(r: Ring)
    requires Valid(r)
    ensures r.tail == (r.head + 2 * r.count) % (2 * r.maxSize)
  {
    ModSmall(r.head + 2 * r.count, 2 * r.maxSize);
  }

  // ---------- the refinement ----------

  lemma EmptyIsEmpty(size: nat)
    requires 1 <= size
    ensures Valid(Empty(size)) && Contents(Empty(size)) == []
  {
  }

  /** Pushing on the flat array appends one pair to the FIFO and disturbs no other. */
  lemma PushRefines(r: Ring, src: int, dst: int)
    requires Valid(r) && r.count < r.maxSize
    ensures Valid(Push(r, src, dst))
    ensures Contents(Push(r, src, dst)) == Contents(r) + [(src, dst)]
  {
    var p := Push(r, src, dst);
    forall j | 0 <= j < p.count
      ensures PairAt(p, j) == (Contents(r) + [(src, dst)])[j]
    {
      assert j < r.count ==> SlotOf(r, j) != r.tail;
    }
  }

  /** Popping the flat array removes exactly the oldest pair, source and destination together. */
  lemma PopRefines(r: Ring)
    requires Valid(r) && 0 < r.count
    ensures Valid(Pop(r))
    ensures Contents(r) == [Front(r)] + Contents(Pop(r))
  {
    var p := Pop(r);
    forall j | 0 <= j < r.count
      ensures PairAt(r, j) == ([Front(r)] + Contents(p))[j]
    {
      assert j > 0 ==> SlotOf(p, j - 1) == SlotOf(r, j);
    }
  }

  // ---------- the shared object, updated in place ----------

  /** `buffer_t`. Each method is the body of one critical section; the caller holds the mutex. */
  class Buffer {
    var buffer: array<int>
    var head: int
    var tail: int
    var maxSize: nat
    var count: int
    var numRegularFiles: nat
    var numDirectories: nat
    var numFifo: nat
    var totalBytesCopied: nat
    var done: bool

    ghost function View(): Shared
      reads this, buffer
    {
      Shared(Ring(buffer[..], head, tail, count, maxSize),
             numRegularFiles, numDirectories, numFifo, totalBytesCopied, done)
    }

    /** `create_buffer`. */
    constructor (size: nat)
      requires 1 <= size
      ensures fresh(buffer)
      ensures Valid(View().ring) && Contents(View().ring) == [] && View().ring.maxSize == size
      ensures View() == Shared(View().ring, 0, 0, 0, 0, false)
    {
      buffer := new int[2 * size](_ => 0);
      head, tail, maxSize, count := 0, 0, size, 0;
      numRegularFiles, numDirectories, numFifo, totalBytesCopied := 0, 0, 0, 0;
      done := false;
      new;
    }

    /** The insertion in `process_directory`. */
    method Put(src: int, dst: int)
      requires Valid(View().ring) && count < maxSize
      modifies this`tail, this`count, buffer
      ensures View() == old(View()).(ring := Push(old(View().ring), src, dst))
      ensures Valid(View().ring) && Contents(View().ring) == old(Contents(View().ring)) + [(src, dst)]
    {
      PushRefines(View().ring, src, dst);
      buffer[tail] := src;
      buffer[tail + 1] := dst;
      tail := Next(tail, maxSize);
      count := count + 1;
      assert View().ring == Push(old(View().ring), src, dst);
    }

    /** The removal in `worker_thread`. */
    method Take() returns (src: int, dst: int)
      requires Valid(View().ring) && 0 < count
      modifies this`head, this`count
      ensures View() == old(View()).(ring := Pop(old(View().ring)))
      ensures Valid(View().ring) && old(Contents(View().ring)) == [(src, dst)] + Contents(View().ring)
    {
      PopRefines(View().ring);
      src := buffer[head];
      dst := buffer[head + 1];
      head := Next(head, maxSize);
      count := count - 1;
      assert View().ring == Pop(old(View().ring));
    }
  }
}
