/** The ring buffer under chat histories, song queues and cache eviction, and the
    bounded first-in first-out queue it must behave as. */
module CircularQueues {

  datatype Option<+T> = None | Some(value: T)

  // ---- the queue as a sequence, oldest first ------------------------------------

  function Evicted<T>(s: seq<T>, capacity: nat): Option<T>
    requires 0 < capacity
  {
    if |s| == capacity then Some(s[0]) else None
  }

  function Pushed<T>(s: seq<T>, capacity: nat, x: T): seq<T>
    requires 0 < capacity
  {
    (if |s| == capacity then s[1..] else s) + [x]
  }

  datatype Op<T> = Enqueue(x: T) | Dequeue | Clear

  /** What has entered the queue, what has left it, and what it still holds. */
  datatype Log<T> = Log(entered: seq<T>, left: seq<T>, held: seq<T>)

  function Apply<T>(log: Log<T>, op: Op<T>, capacity: nat): Log<T>
    requires 0 < capacity
  {
    match op
    case Enqueue(x) =>
      var gone := if |log.held| == capacity then [log.held[0]] else [];
      Log(log.entered + [x], log.left + gone, Pushed(log.held, capacity, x))
    case Dequeue =>
      if log.held == [] then log else log.(left := log.left + [log.held[0]], held := log.held[1..])
    case Clear => log.(left := log.left + log.held, held := [])
  }

  function Run<T>(ops: seq<Op<T>>, capacity: nat): Log<T>
    requires 0 < capacity
  {
    if ops == [] then Log([], [], []) else Apply(Run(ops[..|ops| - 1], capacity), ops[|ops| - 1], capacity)
  }

  /** Conservation over whole runs: elements leave in exactly the order they entered, none is lost
      or repeated, and the queue holds the newest ones, never more than its capacity. */
  lemma {:induction false} Conserves<T>(ops: seq<Op<T>>, capacity: nat)
    requires 0 < capacity
    ensures var log := Run(ops, capacity);
            log.entered == log.left + log.held && |log.held| <= capacity
  {
    if ops != [] {
      Conserves(ops[..|ops| - 1], capacity);
      ApplyConserves(Run(ops[..|ops| - 1], capacity), ops[|ops| - 1], capacity);
    }
  }

  lemma ApplyConserves<T>(log: Log<T>, op: Op<T>, capacity: nat)
    requires 0 < capacity
    requires log.entered == log.left + log.held && |log.held| <= capacity
    ensures var after := Apply(log, op, capacity);
            after.entered == after.left + after.held && |after.held| <= capacity
  {
    if log.held != [] {
      assert log.held == [log.held[0]] + log.held[1..];
    }
  }

  function Enqueues<T>(xs: seq<T>): seq<Op<T>> {
    if xs == [] then [] else Enqueues(xs[..|xs| - 1]) + [Enqueue(xs[|xs| - 1])]
  }

  function Newest<T>(xs: seq<T>, n: nat): seq<T> {
    if |xs| <= n then xs else xs[|xs| - n..]
  }

  lemma NewestPushed<T>(xs: seq<T>, x: T, n: nat)
    requires 0 < n
    ensures Pushed(Newest(xs, n), n, x) == Newest(xs + [x], n)
  {
  }

  /** With no Dequeue or Clear, a queue is exactly a window on the last capacity elements. */
  lemma {:induction false} KeepsTheNewest<T>(xs: seq<T>, capacity: nat)
    requires 0 < capacity
    ensures Run(Enqueues(xs), capacity).held == Newest(xs, capacity)
  {
    if xs != [] {
      var init, ops := xs[..|xs| - 1], Enqueues(xs);
      KeepsTheNewest(init, capacity);
      RunEnqueue(Enqueues(init), xs[|xs| - 1], capacity);
      NewestPushed(init, xs[|xs| - 1], capacity);
      hide Run, Enqueues, Newest, Pushed;
      assert xs == init + [xs[|xs| - 1]];
    }
  }

  lemma RunEnqueue<T>(ops: seq<Op<T>>, x: T, capacity: nat)
    requires 0 < capacity
    ensures Run(ops + [Enqueue(x)], capacity).held == Pushed(Run(ops, capacity).held, capacity, x)
  {
    assert (ops + [Enqueue(x)])[..|ops|] == ops;
  }

  // ---- the ring buffer -----------------------------------------------------------

  /** The remainder of x by n for the only x the buffer meets. */
  function Around(x: nat, n: nat): (r: nat)
    requires x < 2 * n
    ensures r < n
  {
    if x < n then x else x - n
  }

  lemma AroundIsMod(x: nat, n: nat)
    requires x < 2 * n
    ensures x % n == Around(x, n)
  {
    if n <= x {
      assert x == n + (x - n);
    }
  }

  /** The size elements that start at the tail of a ring, oldest first. */
  function Ring<T>(slots: seq<T>, tail: nat, size: nat): (s: seq<T>)
    requires tail < |slots| && size <= |slots|
    ensures |s| == size && forall i :: 0 <= i < size ==> s[i] == slots[Around(tail + i, |slots|)]
  {
    seq(size, i requires 0 <= i < size => slots[Around(tail + i, |slots|)])
  }

  lemma RingPush<T>(slots: seq<T>, tail: nat, size: nat, x: T)
    requires tail < |slots| && size < |slots|
    ensures Ring(slots[Around(tail + size, |slots|) := x], tail, size + 1) == Ring(slots, tail, size) + [x]
  {
  }

  lemma RingDrop<T>(slots: seq<T>, tail: nat, size: nat)
    requires tail < |slots| && 0 < size <= |slots|
    ensures Ring(slots, tail, size) == [slots[tail]] + Ring(slots, Around(tail + 1, |slots|), size - 1)
  {
  }

  /** How head and tail move: one place on, or a whole lap to the same place. */
  lemma MovesOn(tail: nat, size: nat, n: nat)
    requires tail < n && size <= n
    ensures size < n ==> Around(Around(tail + size, n) + 1, n) == Around(tail + size + 1, n)
    ensures Around(tail + n, n) == tail
    ensures 0 < size ==> Around(Around(tail + 1, n) + size - 1, n) == Around(tail + size, n)
  {
  }

  class CircularQueue<T> {
    const capacity: nat
    // the value Go returns when there is nothing to return
    const zero: T
    const slots: array<T>
    var head: nat  // next slot to write
    var tail: nat  // next slot to read
    var size: nat

    ghost predicate Valid()
      reads this
    {
      && 0 < capacity == slots.Length
      && head < capacity && tail < capacity && size <= capacity
      && head == Around(tail + size, capacity)
    }

    /** The queued elements, oldest first. */
    ghost function Contents(): (s: seq<T>)
      requires Valid()
      reads this, slots
      ensures |s| == size
    {
      Ring(slots[..], tail, size)
    }

    constructor (capacity: nat, zero: T)
      requires 0 < capacity
      ensures Valid() && fresh(slots) && Contents() == []
      ensures this.capacity == capacity && this.zero == zero
    {
      this.capacity, this.zero := capacity, zero;
      slots := new T[capacity](_ => zero);
      head, tail, size := 0, 0, 0;
    }

    /** NewCircularQueue: a capacity that is not positive is an error. */
    static method New(capacity: int, zero: T) returns (q: Option<CircularQueue<T>>)
      ensures q.Some? <==> 0 < capacity
      ensures q.Some? ==> fresh(q.value) && q.value.Valid() && fresh(q.value.slots)
                          && q.value.capacity == capacity && q.value.Contents() == []
    {
      if capacity <= 0 {
        return None;
      }
      var queue := new CircularQueue(capacity, zero);
      return Some(queue);
    }

    method Enqueue(val: T) returns (last: T, looped: bool)
      requires Valid()
      modifies this, slots
      ensures Valid()
      ensures Contents() == Pushed(old(Contents()), capacity, val)
      ensures Evicted(old(Contents()), capacity) == if looped then Some(last) else None
      ensures !looped ==> last == zero
      // what was queued and what came in is what went out and what is queued
      ensures looped <==> |old(Contents())| == capacity
      ensures old(Contents()) + [val] == (if looped then [last] else []) + Contents()
    {
      hide Ring, Around;
      MovesOn(tail, size, capacity);
      MovesOn(Around(tail + 1, capacity), size, capacity);
      last := zero;
      looped := size == capacity;
      AroundIsMod(tail + 1, capacity);
      AroundIsMod(head + 1, capacity);
      if looped {
        RingDrop(slots[..], tail, size);
        RingPush(slots[..], (tail + 1) % capacity, size - 1, val);
        last := slots[tail];
        tail := (tail + 1) % capacity;
      } else {
        RingPush(slots[..], tail, size, val);
        size := size + 1;
      }
      slots[head] := val;
      head := (head + 1) % capacity;
    }

    method Dequeue() returns (item: T, ok: bool)
      requires Valid()
      modifies this
      ensures Valid()
      ensures ok <==> old(Contents()) != []
      ensures ok ==> old(Contents()) == [item] + Contents()
      ensures !ok ==> item == zero && Contents() == []
    {
      item := zero;
      if size == 0 {
        return item, false;
      }
      RingDrop(slots[..], tail, size);
      item := slots[tail];
      AroundIsMod(tail + 1, capacity);
      tail := (tail + 1) % capacity;
      size := size - 1;
      ok := true;
    }

    method Items() returns (out: seq<T>)
      requires Valid()
      ensures out == Contents()
    {
      out := [];
      for i := 0 to size
        invariant out == Contents()[..i]
      {
        AroundIsMod(tail + i, capacity);
        out := out + [slots[(tail + i) % capacity]];
      }
    }

    method Clear()
      requires Valid()
      modifies this, slots
      ensures Valid() && Contents() == []
    {
      for i := 0 to slots.Length
        modifies slots
      {
        slots[i] := zero;
      }
      head, tail, size := 0, 0, 0;
    }
  }
}
