/**
 * The bounded history of samples (m5::container::CircularBuffer). Its code is
 * not part of this model; it is kept abstract as an ordered sequence, oldest
 * first, with a fixed capacity, and push_back evicts the oldest element when
 * the buffer is full.
 */
module History {

  /** The last `n` elements of `s` (all of `s` when it is not longer than `n`). */
  function Newest<T>(s: seq<T>, n: nat): seq<T>
  {
    if |s| <= n then s else s[|s| - n..]
  }

  /** push_back on the contents `items` of a buffer of the given capacity. */
  function Push<T>(items: seq<T>, x: T, capacity: nat): (r: seq<T>)
    requires |items| <= capacity
    ensures r == Newest(items + [x], capacity)
    ensures capacity > 0 ==> r[|r| - 1] == x
  {
    if |items| < capacity then items + [x] else (items + [x])[1..]
  }

  /** Pushing the elements of `xs` one after another, first to last. */
  function PushAll<T>(items: seq<T>, xs: seq<T>, capacity: nat): seq<T>
    requires |items| <= capacity
    decreases |xs|
  {
    if xs == [] then items
    else PushAll(Push(items, xs[0], capacity), xs[1..], capacity)
  }

  /** Keeping the newest `n` of a sequence, extending it, and keeping the newest `n` again,
      is the same as keeping the newest `n` of the extended sequence. */
  lemma NewestOfNewest<T>(s: seq<T>, t: seq<T>, n: nat)
    ensures Newest(Newest(s, n) + t, n) == Newest(s + t, n)
  {
  }

  /** However many samples are pushed, the buffer holds exactly the most recent
      `capacity` of everything it has seen, oldest first. */
  lemma {:induction false} PushAllKeepsNewest<T>(items: seq<T>, xs: seq<T>, capacity: nat)
    requires |items| <= capacity
    ensures PushAll(items, xs, capacity) == Newest(items + xs, capacity)
    decreases |xs|
  {
    if xs == [] {
      assert items + xs == items;
    } else {
      var x, rest := xs[0], xs[1..];
      var next := Push(items, x, capacity);
      assert xs == [x] + rest;
      calc {
        PushAll(items, xs, capacity);
        PushAll(next, rest, capacity);
        { PushAllKeepsNewest(next, rest, capacity); }
        Newest(next + rest, capacity);
        Newest(Newest(items + [x], capacity) + rest, capacity);
        { NewestOfNewest(items + [x], rest, capacity); }
        Newest(items + [x] + rest, capacity);
        { assert items + [x] + rest == items + xs; }
        Newest(items + xs, capacity);
      }
    }
  }

  /** Filling a buffer of capacity n and pushing one more sample evicts exactly the
      oldest one: the buffer then holds samples 1..n of the n + 1 pushed. */
  lemma {:induction false} OverflowEvictsOldest<T>(xs: seq<T>, capacity: nat)
    requires |xs| == capacity + 1
    ensures PushAll([], xs, capacity) == xs[1..]
  {
    PushAllKeepsNewest([], xs, capacity);
    assert [] + xs == xs;
  }

  class CircularBuffer<T> {
    /** Contents, oldest first. */
    var items: seq<T>
    const capacity: nat

    ghost predicate Valid()
      reads this
    {
      1 <= capacity && |items| <= capacity
    }

    constructor (capacity: nat)
      requires 1 <= capacity
      ensures Valid() && this.capacity == capacity && items == []
    {
      this.capacity := capacity;
      items := [];
    }

    predicate Empty()
      reads this
    {
      items == []
    }

    function Oldest(): T
      reads this
      requires !Empty()
    {
      items[0]
    }

    method PushBack(x: T)
      requires Valid()
      modifies this
      ensures Valid()
      ensures items == Push(old(items), x, capacity)
    {
      if |items| < capacity {
        items := items + [x];
      } else {
        items := items[1..] + [x];
      }
    }
  }
}
