/** The bounded lifecycle log: a ring buffer that is a bounded sequence of the newest events. */
module History {
  /** The last `n` elements, or all of them. */
  function Newest<T>(s: seq<T>, n: nat): seq<T> {
    if n < |s| then s[|s| - n..] else s
  }

  lemma NewestOfNewest<T>(s: seq<T>, m: nat, n: nat)
    ensures Newest(Newest(s, m), n) == Newest(s, if m < n then m else n)
  {
  }

  lemma NewestLength<T>(s: seq<T>, n: nat)
    ensures |Newest(s, n)| == if n < |s| then n else |s|
    ensures Newest(s, n) == s[|s| - |Newest(s, n)|..]
    ensures |s| <= n ==> Newest(s, n) == s
  {
  }

  // ---- the ring as a value -------------------------------------------------------------------------

  /** The index of the `i`-th oldest event of a ring of `n` slots. */
  function Slot(head: nat, i: nat, n: nat): (slot: nat)
    requires n > 0
    ensures slot < n
  {
    (head + i) % n
  }

  /** The events of a ring, oldest first. */
  function Ring<T>(buffer: seq<T>, head: nat, size: nat): (s: seq<T>)
    requires size <= |buffer|
    ensures |s| == size
    ensures forall i :: 0 <= i < size ==> s[i] == buffer[Slot(head, i, |buffer|)]
  {
    seq(size, i requires 0 <= i < size <= |buffer| => buffer[Slot(head, i, |buffer|)])
  }

  lemma RingAppend<T>(buffer: seq<T>, head: nat, size: nat, x: T)
    requires head < |buffer| && size < |buffer|
    ensures Ring(buffer[Slot(head, size, |buffer|) := x], head, size + 1) == Ring(buffer, head, size) + [x]
  {
    hide Slot;
    var n := |buffer|;
    var next := Ring(buffer[Slot(head, size, n) := x], head, size + 1);
    forall i | 0 <= i <= size ensures next[i] == (Ring(buffer, head, size) + [x])[i] {
      if i < size {
        SlotsApart(head, i, size, n);
      }
    }
  }

  lemma RingOverwrite<T>(buffer: seq<T>, head: nat, x: T)
    requires head < |buffer|
    ensures Ring(buffer[head := x], Slot(head, 1, |buffer|), |buffer|) == Ring(buffer, head, |buffer|)[1..] + [x]
  {
    hide Slot;
    var n := |buffer|;
    var next := Ring(buffer[head := x], Slot(head, 1, n), n);
    var was := Ring(buffer, head, n);
    forall i | 0 <= i < n ensures next[i] == (was[1..] + [x])[i] {
      NextHead(head, i, n);
      if i == n - 1 {
        FullTurn(head, n);
      } else {
        SlotsApart(head, 0, i + 1, n);
        FullTurn(head, n);
      }
    }
  }

  /** Both ways a push can go keep the newest events. */
  lemma NewestGrows<T>(pushed: seq<T>, size: nat, x: T)
    requires size <= |pushed|
    ensures Newest(pushed, size) + [x] == Newest(pushed + [x], size + 1)
    ensures size > 0 ==> Newest(pushed, size)[1..] + [x] == Newest(pushed + [x], size)
  {
  }

  /** What a bounded sequence of capacity `n` keeps of one more element. */
  lemma NewestWhole<T>(s: seq<T>, x: T, n: nat)
    requires |s| <= n
    ensures |s| < n ==> Newest(s + [x], n) == s + [x]
    ensures |s| == n > 0 ==> Newest(s + [x], n) == s[1..] + [x]
    ensures |s| == n == 0 ==> Newest(s + [x], n) == s
  {
  }

  class LifecycleHistory<T(0)> {
    var buffer: array<T>
    var capacity: nat
    var head: nat
    var size: nat
    var dropped: nat
    /** Everything ever pushed, and how much of it a change to capacity zero forgot without counting. */
    ghost var pushed: seq<T>
    ghost var forgotten: nat

    ghost predicate Valid()
      reads this, buffer
    {
      && buffer.Length == capacity && size <= capacity && (capacity > 0 ==> head < capacity)
      && Contents() == Newest(pushed, size) && size <= |pushed|
      && size + dropped + forgotten == |pushed|
    }

    function Contents(): (s: seq<T>)
      requires buffer.Length == capacity && size <= capacity
      reads this, buffer
    {
      Ring(buffer[..], head, size)
    }

    constructor (capacity: nat)
      ensures Valid() && fresh(buffer) && this.capacity == capacity
      ensures pushed == [] && size == dropped == forgotten == 0
    {
      var empty := new T[capacity];
      buffer := empty;
      this.capacity := capacity;
      head, size, dropped, pushed, forgotten := 0, 0, 0, [], 0;
    }

    method Push(event: T)
      requires Valid()
      modifies this, buffer
      ensures Valid() && buffer == old(buffer) && capacity == old(capacity) && forgotten == old(forgotten)
      ensures pushed == old(pushed) + [event]
      ensures Contents() == Newest(old(Contents()) + [event], capacity)
      ensures dropped == old(dropped) + (if old(size) < capacity then 0 else 1)
    {
      hide Ring, Newest, Slot;
      NewestGrows(pushed, size, event);
      NewestWhole(Contents(), event, capacity);
      pushed := pushed + [event];
      if capacity == 0 {
        NewestLength(pushed, 0);
        assert Contents() == [] == Newest(pushed, 0);
        dropped := dropped + 1;
        return;
      }
      if size < capacity {
        RingAppend(buffer[..], head, size, event);
        buffer[Slot(head, size, capacity)] := event;
        size := size + 1;
        return;
      }
      RingOverwrite(buffer[..], head, event);
      buffer[head] := event;
      head := Slot(head, 1, capacity);
      dropped := dropped + 1;
    }

    method ToVector() returns (out: seq<T>)
      requires Valid()
      ensures out == Contents() == Newest(pushed, size)
    {
      out := [];
      for i := 0 to size
        invariant out == Contents()[..i]
      {
        out := out + [buffer[Slot(head, i, capacity)]];
      }
    }

    method Tail(limit: nat) returns (out: seq<T>)
      requires Valid()
      ensures out == Newest(Contents(), limit)
    {
      if limit == 0 || size == 0 {
        return [];
      }
      var take := if limit < size then limit else size;
      var start := size - take;
      out := [];
      for i := start to size
        invariant out == Contents()[start..i]
      {
        assert Contents()[start..i + 1] == Contents()[start..i] + [Contents()[i]];
        out := out + [buffer[Slot(head, i, capacity)]];
      }
    }

    static method Copy(events: seq<T>, n: nat) returns (next: array<T>)
      requires |events| <= n
      ensures fresh(next) && next.Length == n && next[..|events|] == events
    {
      next := new T[n];
      for i := 0 to |events|
        invariant next[..i] == events[..i]
      {
        next[i] := events[i];
      }
    }

    method SetCapacity(newCapacity: nat)
      requires Valid()
      modifies this
      ensures Valid() && capacity == newCapacity && pushed == old(pushed)
      ensures buffer == old(buffer) || fresh(buffer)
      ensures Contents() == Newest(old(Contents()), newCapacity)
      ensures newCapacity > 0 ==> forgotten == old(forgotten) && size + dropped == old(size) + old(dropped)
      ensures newCapacity == 0 ==> dropped == old(dropped)
    {
      hide Ring, Newest, Slot;
      NewestOfNewest(pushed, size, newCapacity);
      NewestLength(Contents(), newCapacity);
      if newCapacity == capacity && buffer.Length == capacity {
        return;
      }
      if newCapacity == 0 {
        forgotten := forgotten + size;
        capacity := 0;
        buffer := new T[0];
        head, size := 0, 0;
        return;
      }
      var ordered := ToVector();
      var keep := if |ordered| < newCapacity then |ordered| else newCapacity;
      var skip := |ordered| - keep;
      var next := Copy(ordered[skip..], newCapacity);
      RingFromStart(next[..], keep);
      capacity := newCapacity;
      buffer := next;
      dropped := dropped + skip;
      head, size := 0, keep;
    }

    method Clear()
      modifies this
      ensures Valid() && capacity == size == dropped == 0 && pushed == [] && fresh(buffer)
    {
      buffer := new T[0];
      head, size, capacity, dropped := 0, 0, 0, 0;
      pushed, forgotten := [], 0;
    }
  }

  // ---- indices around the ring ---------------------------------------------------------------------

  lemma Around(head: nat, i: nat, n: nat)
    requires head < n && i <= n
    ensures Slot(head, i, n) == if head + i < n then head + i else head + i - n
  {
    if head + i >= n {
      assert (head + i) / n == 1;
    }
  }

  lemma SlotsApart(head: nat, i: nat, j: nat, n: nat)
    requires head < n && i < j < n
    ensures Slot(head, i, n) != Slot(head, j, n)
  {
    hide Slot;
    Around(head, i, n);
    Around(head, j, n);
  }

  lemma NextHead(head: nat, i: nat, n: nat)
    requires head < n && i < n
    ensures Slot(Slot(head, 1, n), i, n) == Slot(head, i + 1, n)
  {
    hide Slot;
    Around(head, 1, n);
    Around(head, i + 1, n);
    Around(Slot(head, 1, n), i, n);
  }

  lemma FullTurn(head: nat, n: nat)
    requires head < n
    ensures Slot(head, n, n) == head && Slot(head, 0, n) == head
  {
    hide Slot;
    Around(head, n, n);
    Around(head, 0, n);
  }

  lemma RingFromStart<T>(buffer: seq<T>, size: nat)
    requires size <= |buffer|
    ensures Ring(buffer, 0, size) == buffer[..size]
  {
    hide Slot;
    forall i | 0 <= i < size ensures Ring(buffer, 0, size)[i] == buffer[i] {
      Around(0, i, |buffer|);
    }
  }
}
