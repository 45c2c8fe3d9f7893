/**
 * The firmware's character ring buffer: a fixed array of `Size` slots,
 * a `front` index (the oldest element) and a `rear` index (the next free
 * slot). One slot is always left empty, so `front == rear` means empty and
 * the queue holds at most `Size - 1` characters.
 */
module Fifo {
  import opened Outcomes

  const Size: nat := 1024

  /** The slot after `pos`, wrapping to 0 at the end of the array. */
  function NextPos(pos: nat): (r: nat)
    ensures pos < Size ==> r < Size
    ensures pos + 1 < Size ==> r == pos + 1
    ensures pos + 1 == Size ==> r == 0
  {
    (pos + 1) % Size
  }

  /** The characters of a ring `a` from slot `f` (included) to slot `r` (excluded), wrapping around. */
  function Window(a: seq<char>, f: nat, r: nat): (w: seq<char>)
    requires |a| == Size && f < Size && r < Size
    ensures |w| == (r - f) % Size
  {
    if f <= r then a[f..r] else a[f..] + a[..r]
  }

  /** The k-th character of the window sits `k` slots after `f`. */
  lemma WindowAt(a: seq<char>, f: nat, r: nat, k: nat)
    requires |a| == Size && f < Size && r < Size
    requires k < (r - f) % Size
    ensures Window(a, f, r)[k] == a[(f + k) % Size]
  {
    if f > r && f + k >= Size {
      assert Window(a, f, r)[k] == a[..r][k - (Size - f)];
    }
  }

  /** Writing `v` at `r` and advancing `r` appends `v`, unless the ring was full. */
  lemma WindowPush(a: seq<char>, f: nat, r: nat, v: char)
    requires |a| == Size && f < Size && r < Size
    requires (r - f) % Size < Size - 1
    ensures Window(a[r := v], f, NextPos(r)) == Window(a, f, r) + [v]
  {
    var before, after := Window(a, f, r), Window(a[r := v], f, NextPos(r));
    assert |after| == |before| + 1;
    forall k | 0 <= k < |after| ensures after[k] == (before + [v])[k] {
      WindowAt(a[r := v], f, NextPos(r), k);
      if k < |before| {
        WindowAt(a, f, r, k);
      }
    }
  }

  /** Advancing `f` drops the oldest character of a non-empty window. */
  lemma WindowPop(a: seq<char>, f: nat, r: nat)
    requires |a| == Size && f < Size && r < Size
    requires f != r
    ensures Window(a, f, r) != []
    ensures Window(a, NextPos(f), r) == Window(a, f, r)[1..]
  {
    var before, after := Window(a, f, r), Window(a, NextPos(f), r);
    assert |after| == |before| - 1;
    forall k | 0 <= k < |after| ensures after[k] == before[k + 1] {
      WindowAt(a, NextPos(f), r, k);
      WindowAt(a, f, r, k + 1);
    }
  }

  /** Walking `k` slots from `f` reaches `r` exactly after the whole window, and one more slot is `k + 1` slots. */
  lemma WalkStep(f: nat, r: nat, k: nat)
    requires f < Size && r < Size && k <= (r - f) % Size
    ensures (f + k) % Size == r <==> k == (r - f) % Size
    ensures NextPos((f + k) % Size) == (f + k + 1) % Size
  {
  }

  class Queue {
    var front: nat
    var rear: nat
    const slots: array<char>  // the struct's `array`

    ghost predicate Valid()
      reads this
    {
      slots.Length == Size && front < Size && rear < Size
    }

    /** Number of stored characters: `(rear - front) mod Size`. */
    function Count(): (n: nat)
      reads this
      requires Valid()
      ensures n < Size
      ensures n == 0 <==> front == rear
    {
      (rear - front) % Size
    }

    /** The stored characters, oldest first. */
    function Contents(): (s: seq<char>)
      reads this, slots
      requires Valid()
      ensures |s| == Count()
    {
      Window(slots[..], front, rear)
    }

    /** The statically allocated, zero-initialised queue. */
    constructor ()
      ensures Valid() && fresh(slots)
      ensures Contents() == []
    {
      front, rear := 0, 0;
      slots := new char[Size](_ => '\0');
    }

    /** `fifo_init`: both indices back to slot 0; the storage is not touched. */
    method Init()
      requires Valid()
      modifies this
      ensures Valid() && Contents() == []
      ensures front == 0 && rear == 0
    {
      front, rear := 0, 0;
    }

    /** `fifo_is_empty`: 1 exactly when no character is stored. */
    method IsEmpty() returns (r: int)
      requires Valid()
      ensures r == 0 || r == 1
      ensures r == 1 <==> Contents() == []
    {
      r := if front == rear then 1 else 0;
    }

    /** `fifo_is_full`: 1 exactly when one free slot is left. */
    method IsFull() returns (r: int)
      requires Valid()
      ensures r == 0 || r == 1
      ensures r == 1 <==> |Contents()| == Size - 1
    {
      r := if NextPos(rear) == front then 1 else 0;
    }

    /** `fifo_enqueue`: 0 and nothing changed when full; otherwise `v` joins the back and 1 is returned. */
    method Enqueue(v: char) returns (r: int)
      requires Valid()
      modifies this, slots
      ensures Valid()
      ensures old(|Contents()|) == Size - 1 ==>
                r == 0 && front == old(front) && rear == old(rear) && slots[..] == old(slots[..])
      ensures old(|Contents()|) < Size - 1 ==>
                r == 1 && Contents() == old(Contents()) + [v] && front == old(front)
                && rear == NextPos(old(rear)) && slots[old(rear)] == v
    {
      var full := IsFull();
      if full == 1 {
        return 0;
      }
      WindowPush(slots[..], front, rear, v);
      slots[rear] := v;
      rear := NextPos(rear);
      r := 1;
    }

    /**
     * `fifo_dequeue`: 0 and nothing changed (the caller's `*v`, given as
     * `prev`, included) when empty; otherwise the oldest character is
     * handed out and removed, and 1 is returned.
     */
    method Dequeue(prev: char) returns (r: int, v: char)
      requires Valid()
      modifies this
      ensures Valid()
      ensures old(Contents()) == [] ==>
                r == 0 && v == prev && front == old(front) && rear == old(rear)
      ensures old(Contents()) != [] ==>
                r == 1 && v == old(Contents())[0] && Contents() == old(Contents())[1..]
                && front == NextPos(old(front)) && rear == old(rear)
    {
      var empty := IsEmpty();
      if empty == 1 {
        return 0, prev;
      }
      WindowPop(slots[..], front, rear);
      WindowAt(slots[..], front, rear, 0);
      v := slots[front];
      front := NextPos(front);
      r := 1;
    }

    /** The walk of `fifo_print`: the slots from `front` up to `rear`, which are exactly the contents in order. */
    method Print() returns (visited: seq<char>)
      requires Valid()
      ensures visited == Contents()
    {
      var i := front;
      visited := [];
      ghost var w := Contents();
      WalkStep(front, rear, 0);
      while i != rear
        invariant |visited| <= |w| && i == (front + |visited|) % Size
        invariant visited == w[..|visited|]
        decreases |w| - |visited|
      {
        WalkStep(front, rear, |visited|);
        WindowAt(slots[..], front, rear, |visited|);
        PrefixSnoc(w, |visited|, slots[i]);
        visited := visited + [slots[i]];
        i := NextPos(i);
      }
      WalkStep(front, rear, |visited|);
    }
  }

  /**
   * Two characters pushed into a fresh queue come back in the order they went in,
   * and a third dequeue reports the queue empty.
   */
  method FifoOrder(a: char, b: char) returns (first: char, second: char, third: int)
    ensures first == a && second == b && third == 0
  {
    var q := new Queue();
    var r1 := q.Enqueue(a);
    var r2 := q.Enqueue(b);
    var r3, r4;
    r3, first := q.Dequeue('\0');
    r4, second := q.Dequeue('\0');
    var v;
    third, v := q.Dequeue(second);
  }
}
