/** Model of circle-buffer.c.  `Ring` is the value of the struct and of its slots; the class at the end
    is the structure updated in place, proved against the functions on `Ring`. */
module CircleBuffers {
  import opened Bytes

  type Chunk = seq<byte>

  /** One slot: `data` is the whole allocation, `size` what the last write declared. */
  datatype Entry = Entry(size: nat, data: seq<byte>)

  /** The bytes a reader of the slot takes from it. */
  function Payload(e: Entry): (p: Chunk)
  {
    if e.size <= |e.data| then e.data[..e.size] else e.data
  }

  datatype Ring = Ring(head: nat, tail: nat, currentSize: int, elemSize: nat, slots: seq<Entry>)

  predicate Valid(r: Ring)
  {
    && 0 < |r.slots|
    && r.head < |r.slots|
    && r.tail < |r.slots|
    && r.currentSize == Length(r)
    && forall i :: 0 <= i < |r.slots| ==> |r.slots[i].data| == r.elemSize
  }

  function Length(r: Ring): (n: int)
  {
    if r.tail <= r.head then r.head - r.tail else r.head - r.tail + |r.slots|
  }

  /** The slot `k` places after the tail. */
  function SlotAt(r: Ring, k: nat): (i: nat)
    requires Valid(r) && k < |r.slots|
    ensures i < |r.slots|
  {
    if r.tail + k < |r.slots| then r.tail + k else r.tail + k - |r.slots|
  }

  /** The queue a ring stands for: the slots from tail up to head, modulo the capacity. */
  function Contents(r: Ring): (q: seq<Chunk>)
    requires Valid(r)
    ensures |q| == Length(r) < |r.slots|
  {
    seq(Length(r), k requires 0 <= k < Length(r) => Payload(r.slots[SlotAt(r, k)]))
  }

  function New(capacity: nat, elemSize: nat, slots: seq<Entry>): (r: Ring)
    requires 0 < capacity == |slots|
    requires forall i :: 0 <= i < |slots| ==> |slots[i].data| == elemSize
    ensures Valid(r) && Contents(r) == []
  {
    Ring(0, 0, 0, elemSize, slots)
  }

  /** Slots fresh from the allocator; their bytes are never read before they are written. */
  function BlankSlots(capacity: nat, elemSize: nat): (s: seq<Entry>)
    ensures |s| == capacity
    ensures forall i :: 0 <= i < |s| ==> |s[i].data| == elemSize
  {
    seq(capacity, _ => Entry(0, seq(elemSize, _ => 0)))
  }

  datatype Slot = Null | At(index: nat)

  function Read(r: Ring): (res: (Ring, Slot))
    requires Valid(r)
  {
    if r.head == r.tail then (r, Null)
    else (r.(tail := (r.tail + 1) % |r.slots|, currentSize := r.currentSize - 1), At(r.tail))
  }

  /** Memory after copying `data` over the front of `old`. */
  function Fill(data: Chunk, old': seq<byte>): (s: seq<byte>)
    requires |data| <= |old'|
    ensures |s| == |old'| && s[..|data|] == data
  {
    data + old'[|data|..]
  }

  /** The pointer returned by a successful write is taken after head has moved on. */
  function Write(r: Ring, data: Chunk): (res: (Ring, Slot))
    requires Valid(r) && |data| <= r.elemSize
  {
    if (r.head + 1) % |r.slots| == r.tail then (r, Null)
    else
      var entry := Entry(|data|, Fill(data, r.slots[r.head].data));
      var next := (r.head + 1) % |r.slots|;
      (r.(slots := r.slots[r.head := entry], head := next, currentSize := r.currentSize + 1), At(next))
  }

  function Reset(r: Ring): (r': Ring)
    requires Valid(r)
    ensures Valid(r') && Contents(r') == [] && r'.slots == r.slots
  {
    r.(head := 0, tail := 0, currentSize := 0)
  }

  lemma Successor(i: nat, capacity: nat)
    requires i < capacity
    ensures (i + 1) % capacity == if i + 1 == capacity then 0 else i + 1
  {
    if i + 1 < capacity {
      assert (i + 1) % capacity == i + 1;
    }
  }

  /** A read fails exactly on the empty queue, and otherwise takes the front. */
  lemma ReadRefines(r: Ring)
    requires Valid(r)
    ensures var (r', slot) := Read(r);
      && Valid(r')
      && r'.slots == r.slots
      && (slot.Null? <==> Contents(r) == [])
      && (slot.Null? ==> r' == r)
      && (slot.At? ==>
            && slot.index == r.tail < |r.slots| && r'.tail == (r.tail + 1) % |r.slots| && r'.head == r.head
            && Contents(r) == [Payload(r.slots[slot.index])] + Contents(r'))
  {
    Successor(r.tail, |r.slots|);
    var (r', slot) := Read(r);
    if slot.At? {
      forall k | 0 <= k < Length(r')
        ensures Contents(r')[k] == Contents(r)[k + 1]
      {
        assert SlotAt(r', k) == SlotAt(r, k + 1);
      }
      assert SlotAt(r, 0) == slot.index;
    }
  }

  /** A write fails exactly on a queue of capacity - 1 chunks, and otherwise appends. */
  lemma WriteRefines(r: Ring, data: Chunk)
    requires Valid(r) && |data| <= r.elemSize
    ensures var (r', slot) := Write(r, data);
      && Valid(r')
      && |r'.slots| == |r.slots| && r'.elemSize == r.elemSize
      && (slot.Null? <==> |Contents(r)| == |r.slots| - 1)
      && (slot.Null? ==> r' == r)
      && (slot.At? ==> Contents(r') == Contents(r) + [data])
      && (slot.At? ==> slot.index == r'.head == (r.head + 1) % |r.slots| && r'.tail == r.tail)
      && (slot.At? ==> r'.slots[r.head].size == |data|)
      && (forall i :: 0 <= i < |r.slots| && i != r.head ==> r'.slots[i] == r.slots[i])
  {
    Successor(r.head, |r.slots|);
    var (r', slot) := Write(r, data);
    if slot.At? {
      forall k | 0 <= k < Length(r)
        ensures Contents(r')[k] == Contents(r)[k]
      {
        assert SlotAt(r', k) == SlotAt(r, k) != r.head;
      }
      assert SlotAt(r', Length(r)) == r.head;
      assert Payload(r'.slots[r.head]) == data;
    }
  }

  // ---- whole histories of calls -------------------------------------------------

  datatype Call = ReadCall | WriteCall(data: Chunk) | ResetCall

  function Apply(r: Ring, c: Call): (r': Ring)
    requires Valid(r) && (c.WriteCall? ==> |c.data| <= r.elemSize)
    ensures Valid(r') && |r'.slots| == |r.slots| && r'.elemSize == r.elemSize
  {
    ReadRefines(r);
    match c
    case ReadCall => Read(r).0
    case WriteCall(data) => WriteRefines(r, data); Write(r, data).0
    case ResetCall => Reset(r)
  }

  predicate Fitting(calls: seq<Call>, elemSize: nat)
  {
    forall i :: 0 <= i < |calls| && calls[i].WriteCall? ==> |calls[i].data| <= elemSize
  }

  function ApplyAll(r: Ring, calls: seq<Call>): (r': Ring)
    requires Valid(r) && Fitting(calls, r.elemSize)
    ensures Valid(r') && |r'.slots| == |r.slots| && r'.elemSize == r.elemSize
    decreases |calls|
  {
    if calls == [] then r else ApplyAll(Apply(r, calls[0]), calls[1..])
  }

  /** The reference queue: a plain sequence with a bound. */
  function QueueAfter(q: seq<Chunk>, bound: nat, calls: seq<Call>): (q': seq<Chunk>)
    decreases |calls|
  {
    if calls == [] then q
    else
      var q1 := match calls[0]
        case ReadCall => if q == [] then q else q[1..]
        case WriteCall(data) => if |q| == bound then q else q + [data]
        case ResetCall => [];
      QueueAfter(q1, bound, calls[1..])
  }

  /** Any history of reads, writes and resets leaves the bounded FIFO queue in the ring. */
  lemma {:induction false} RingIsBoundedQueue(r: Ring, calls: seq<Call>)
    requires Valid(r) && Fitting(calls, r.elemSize)
    ensures Contents(ApplyAll(r, calls)) == QueueAfter(Contents(r), |r.slots| - 1, calls)
    ensures ApplyAll(r, calls).currentSize == |QueueAfter(Contents(r), |r.slots| - 1, calls)|
    decreases |calls|
  {
    if calls != [] {
      ReadRefines(r);
      if calls[0].WriteCall? {
        WriteRefines(r, calls[0].data);
      }
      RingIsBoundedQueue(Apply(r, calls[0]), calls[1..]);
    }
  }

  predicate OnlyWritesAndFailedReads(r: Ring, calls: seq<Call>)
    requires Valid(r) && Fitting(calls, r.elemSize)
    decreases |calls|
  {
    calls == [] ||
    (!calls[0].ResetCall? && (calls[0].ReadCall? ==> Read(r).1.Null?)
     && OnlyWritesAndFailedReads(Apply(r, calls[0]), calls[1..]))
  }

  /** The slot just before the tail is never the target of a write: the one-slot gap protects it. */
  lemma {:induction false} GapIsStable(r: Ring, calls: seq<Call>, gap: nat)
    requires Valid(r) && Fitting(calls, r.elemSize)
    requires gap < |r.slots| && (gap + 1) % |r.slots| == r.tail
    requires OnlyWritesAndFailedReads(r, calls)
    ensures ApplyAll(r, calls).slots[gap] == r.slots[gap]
    decreases |calls|
  {
    if calls != [] {
      var r' := Apply(r, calls[0]);
      Successor(gap, |r.slots|);
      Successor(r.head, |r.slots|);
      assert r'.slots[gap] == r.slots[gap] && r'.tail == r.tail;
      GapIsStable(r', calls[1..], gap);
    }
  }

  /** A slot handed out by a read keeps its size and bytes until the next successful read or reset. */
  lemma ReadSlotIsStable(r: Ring, calls: seq<Call>)
    requires Valid(r) && Read(r).1.At?
    requires Fitting(calls, r.elemSize)
    requires OnlyWritesAndFailedReads(Apply(r, ReadCall), calls)
    ensures r.tail < |r.slots|
    ensures ApplyAll(Apply(r, ReadCall), calls).slots[r.tail] == r.slots[r.tail]
    ensures Payload(ApplyAll(Apply(r, ReadCall), calls).slots[r.tail]) == Contents(r)[0]
  {
    ReadRefines(r);
    GapIsStable(Apply(r, ReadCall), calls, r.tail);
  }

  /** The guarantee is sharp: on a full ring the second write after the read lands in the slot that
      was handed out, as soon as one more read has succeeded in between. */
  lemma StabilityEndsAtNextRead(r: Ring, first: Chunk, second: Chunk)
    requires Valid(r) && |Contents(r)| == |r.slots| - 1 > 0
    requires |first| <= r.elemSize && |second| <= r.elemSize
    ensures var r1 := Apply(Apply(r, ReadCall), WriteCall(first));
      var r2 := Apply(Apply(r1, ReadCall), WriteCall(second));
      r.tail < |r2.slots| && Payload(r2.slots[r.tail]) == second
  {
    Successor(r.tail, |r.slots|);
    Successor(r.head, |r.slots|);
    var r1 := Apply(Apply(r, ReadCall), WriteCall(first));
    assert r1.head == r.tail && |Contents(r1)| == |r.slots| - 1;
    Successor(r1.tail, |r.slots|);
    Successor(r1.head, |r.slots|);
    assert Apply(r1, ReadCall).head == r.tail;
  }

  // ---- the structure updated in place ----------------------------------------------

  class CircleBuffer {
    var capacity: nat
    var currentSize: int
    var elemSize: nat
    var head: nat
    var tail: nat
    var entries: array<Entry>

    function State(): (r: Ring)
      reads this, entries
    {
      Ring(head, tail, currentSize, elemSize, entries[..])
    }

    ghost predicate Ok()
      reads this, entries
    {
      capacity == entries.Length && Valid(State())
    }

    constructor (capacity: nat, elemSize: nat)
      requires 0 < capacity
      ensures Ok() && fresh(entries)
      ensures this.capacity == capacity && this.elemSize == elemSize
      ensures Contents(State()) == []
    {
      this.capacity := capacity;
      this.elemSize := elemSize;
      this.head, this.tail, this.currentSize := 0, 0, 0;
      this.entries := new Entry[capacity];
      new;
      for i := 0 to capacity
        invariant head == tail == 0 && currentSize == 0 && fresh(entries)
        invariant this.elemSize == elemSize && this.capacity == capacity == entries.Length
        invariant forall j :: 0 <= j < i ==> |entries[j].data| == elemSize
      {
        entries[i] := Entry(0, seq(elemSize, _ => 0));
      }
    }

    method ReadEntry() returns (output: Slot)
      requires Ok()
      modifies this`tail, this`currentSize
      ensures Ok() && (State(), output) == Read(old(State()))
      ensures output.Null? <==> old(Contents(State())) == []
      ensures output.Null? ==> State() == old(State())
      ensures output.At? ==> old(Contents(State())) == [Payload(entries[output.index])] + Contents(State())
      ensures output.At? ==> output.index == old(tail) && tail == (old(tail) + 1) % capacity && head == old(head)
    {
      ReadRefines(State());
      if head == tail {
        return Null;
      }
      output := At(tail);
      tail := (tail + 1) % capacity;
      currentSize := currentSize - 1;
    }

    method ResetIndexes()
      requires Ok()
      modifies this`head, this`tail, this`currentSize
      ensures Ok() && State() == Reset(old(State()))
      ensures Contents(State()) == [] && head == tail == 0 && currentSize == 0
    {
      head := 0;
      tail := 0;
      currentSize := 0;
    }

    /** `data` must fit the slot: memcpy has no bound of its own.  An empty chunk trips an assert, unless the
        ring is full. */
    method WriteEntry(data: Chunk) returns (output: Slot)
      requires Ok() && |data| <= elemSize
      requires |Contents(State())| < capacity - 1 ==> data != []
      modifies this`head, this`currentSize, entries
      ensures Ok() && (State(), output) == Write(old(State()), data)
      ensures output.Null? <==> |old(Contents(State()))| == capacity - 1
      ensures Contents(State()) == if output.Null? then old(Contents(State())) else old(Contents(State())) + [data]
      ensures output.At? ==> output.index == head == (old(head) + 1) % capacity && tail == old(tail)
    {
      WriteRefines(State(), data);
      if (head + 1) % capacity == tail {
        return Null;
      }
      ghost var before := State();
      entries[head] := Entry(|data|, Fill(data, entries[head].data));
      assert entries[..] == Write(before, data).0.slots;
      head := (head + 1) % capacity;
      currentSize := currentSize + 1;
      output := At(head);
    }
  }
}
