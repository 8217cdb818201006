/** The ring buffer of a channel (src/channel_shm/channel.c): index arithmetic, and the
    operations as one thread sees them. A channel of capacity n has n + 1 slots; with n == 0
    it is unbuffered, and `head` is the flag that says whether its only slot is full. */
module Channel {

  function Inc(i: nat, size: nat): (r: nat)
    requires i < size
    ensures r < size && r == if i + 1 < size then i + 1 else 0
  {
    (i + 1) % size
  }

  lemma Remainder(a: nat, size: nat)
    requires a < 2 * size
    ensures a % size == if a < size then a else a - size
  {
  }

  function NumItems(head: nat, tail: nat, size: nat): (r: nat)
    requires head < size && tail < size
    ensures r < size && r == if head <= tail then tail - head else size + tail - head
  {
    Remainder(size + tail - head, size);
    (size + tail - head) % size
  }

  /** The slot that holds the k-th oldest item. */
  function Slot(head: nat, k: nat, size: nat): (r: nat)
    requires head < size && k < size
    ensures r < size
  {
    if head + k < size then head + k else head + k - size
  }

  function Items<T>(buffer: seq<T>, head: nat, count: nat): (items: seq<T>)
    requires head < |buffer| && count <= |buffer|
  {
    seq(count, k requires 0 <= k < count => buffer[Slot(head, k, |buffer|)])
  }

  /** What a receiver will get from here on, oldest first. */
  function Pending<T>(buffer: seq<T>, head: nat, tail: nat): (items: seq<T>)
    requires |buffer| == 1 ==> head <= 1
    requires |buffer| > 1 ==> head < |buffer| && tail < |buffer|
    requires |buffer| > 0
  {
    if |buffer| == 1 then (if head == 1 then buffer else [])
    else Items(buffer, head, NumItems(head, tail, |buffer|))
  }

  predicate IndicesOk(size: nat, head: nat, tail: nat)
  {
    size > 0 && (size == 1 ==> head <= 1 && tail == 0) && (size > 1 ==> head < size && tail < size)
  }

  predicate IsFull(size: nat, head: nat, tail: nat)
    requires IndicesOk(size, head, tail)
  {
    if size == 1 then head == 1 else NumItems(head, tail, size) == size - 1
  }

  predicate IsEmpty(size: nat, head: nat, tail: nat)
    requires IndicesOk(size, head, tail)
  {
    if size == 1 then head == 0 else head == tail
  }

  // The three facts on which everything below rests

  /** A channel is full when it holds its capacity, which counts one for the slot of an
      unbuffered channel, and empty when it holds nothing. */
  lemma FullAndEmpty<T>(buffer: seq<T>, head: nat, tail: nat)
    requires IndicesOk(|buffer|, head, tail)
    ensures var n := |Pending(buffer, head, tail)|; var capacity := if |buffer| == 1 then 1 else |buffer| - 1;
            && n <= capacity
            && (IsFull(|buffer|, head, tail) <==> n == capacity)
            && (IsEmpty(|buffer|, head, tail) <==> n == 0)
  {
  }

  /** Copying into the slot at `tail` of a channel that is not full touches nothing pending. */
  lemma WriteAtTail<T>(buffer: seq<T>, head: nat, tail: nat, x: T)
    requires IndicesOk(|buffer|, head, tail) && !IsFull(|buffer|, head, tail)
    ensures Pending(buffer[tail := x], head, tail) == Pending(buffer, head, tail)
  {
  }

  function Published(size: nat, head: nat, tail: nat): (nat, nat)
    requires IndicesOk(size, head, tail)
  {
    if size == 1 then (1, tail) else (head, Inc(tail, size))
  }

  /** Publishing the slot at `tail` appends its content. */
  lemma PublishAppends<T>(buffer: seq<T>, head: nat, tail: nat)
    requires IndicesOk(|buffer|, head, tail) && !IsFull(|buffer|, head, tail)
    ensures var (h, t) := Published(|buffer|, head, tail);
            IndicesOk(|buffer|, h, t) && Pending(buffer, h, t) == Pending(buffer, head, tail) + [buffer[tail]]
  {
  }

  function ReadSlot(size: nat, head: nat): (r: nat)
    requires size > 0 && (size > 1 ==> head < size)
    ensures r < size
  {
    if size == 1 then 0 else head
  }

  function Consumed(size: nat, head: nat, tail: nat): (nat, nat)
    requires IndicesOk(size, head, tail)
  {
    if size == 1 then (0, tail) else (Inc(head, size), tail)
  }

  /** Advancing `head` removes the oldest item, which is what the receiver copied. */
  lemma ConsumeRemoves<T>(buffer: seq<T>, head: nat, tail: nat)
    requires IndicesOk(|buffer|, head, tail) && !IsEmpty(|buffer|, head, tail)
    ensures var (h, t) := Consumed(|buffer|, head, tail);
            && IndicesOk(|buffer|, h, t)
            && Pending(buffer, head, tail) == [buffer[ReadSlot(|buffer|, head)]] + Pending(buffer, h, t)
  {
  }

  /** The channel as a single thread uses it. */
  class Channel<T(0)> {
    var buffer: array<T>
    var head: nat
    var tail: nat
    var closed: bool

    ghost predicate Valid()
      reads this
    {
      IndicesOk(buffer.Length, head, tail)
    }

    ghost function Contents(): seq<T>
      requires Valid()
      reads this, buffer
    {
      Pending(buffer[..], head, tail)
    }

    ghost function Capacity(): nat
      reads this
    {
      if buffer.Length == 1 then 1 else if buffer.Length == 0 then 0 else buffer.Length - 1
    }

    /** channel_alloc */
    constructor (n: nat)
      ensures Valid() && fresh(buffer) && Contents() == [] && !closed
      ensures Capacity() == if n == 0 then 1 else n
    {
      buffer := new T[n + 1];
      head, tail, closed := 0, 0, false;
    }

    /** channel_send: the item is appended, or the channel is full and nothing changes. */
    method Send(x: T) returns (ok: bool)
      requires Valid()
      modifies this`head, this`tail, buffer
      ensures Valid() && ok == (old(|Contents()|) < Capacity())
      ensures Contents() == if ok then old(Contents()) + [x] else old(Contents())
    {
      FullAndEmpty(buffer[..], head, tail);
      if IsFull(buffer.Length, head, tail) {
        return false;
      }
      WriteAtTail(buffer[..], head, tail, x);
      buffer[tail] := x;
      assert buffer[..] == old(buffer[..])[tail := x];
      PublishAppends(buffer[..], head, tail);
      var published := Published(buffer.Length, head, tail);
      head, tail := published.0, published.1;
      ok := true;
    }

    /** channel_receive: the oldest item is removed and returned, or the channel is empty. */
    method Receive(default: T) returns (ok: bool, x: T)
      requires Valid()
      modifies this`head
      ensures Valid() && ok == (old(Contents()) != [])
      ensures ok ==> old(Contents()) == [x] + Contents()
      ensures !ok ==> x == default && Contents() == old(Contents())
    {
      FullAndEmpty(buffer[..], head, tail);
      if IsEmpty(buffer.Length, head, tail) {
        return false, default;
      }
      ConsumeRemoves(buffer[..], head, tail);
      x := buffer[ReadSlot(buffer.Length, head)];
      head := Consumed(buffer.Length, head, tail).0;
      ok := true;
    }

    /** channel_peek: the number of pending items */
    method Peek() returns (n: nat)
      requires Valid()
      ensures n == |Contents()|
    {
      FullAndEmpty(buffer[..], head, tail);
      n := if buffer.Length == 1 then head else NumItems(head, tail, buffer.Length);
    }

    /** channel_close: false when the channel was closed before */
    method Close() returns (changed: bool)
      requires Valid()
      modifies this`closed
      ensures closed && changed == !old(closed) && Contents() == old(Contents())
    {
      changed := !closed;
      closed := true;
    }
  }
}
