/** Byte buffers with cursors, and ordered sequences of them
    (`Basic_Mutable_Buffer` and `Basic_Buffer_Sequence`). */
module Buffer {
  import opened Bytes

  /** The four cursors of a buffer, as one value. */
  datatype Cursors = Cursors(capacity: nat, limit: nat, size: nat, position: nat)

  /** What the code keeps true: no cursor ever passes the capacity. */
  predicate Bounded(c: Cursors) {
    c.limit <= c.capacity && c.size <= c.capacity && c.position <= c.capacity
  }

  /** The ordering `position <= size <= limit <= capacity` the design asks for;
      the setters do not keep it (see the lemmas below). */
  predicate Ordered(c: Cursors) {
    c.position <= c.size <= c.limit <= c.capacity
  }

  /** `limit(s)`: clamp to the capacity; the other cursors stay. */
  function WithLimit(c: Cursors, s: nat): Cursors {
    c.(limit := if s > c.capacity then c.capacity else s)
  }

  /** `size(n)`: accepted only up to the limit; the position stays. */
  function WithSize(c: Cursors, n: nat): (Cursors, bool) {
    if n <= c.limit then (c.(size := n), true) else (c, false)
  }

  /** `position(p)`: accepted only up to the size. */
  function WithPosition(c: Cursors, p: nat): (Cursors, bool) {
    if p > c.size then (c, false) else (c.(position := p), true)
  }

  /** One call of a cursor setter. */
  datatype SetterCall = SetLimit(s: nat) | SetSize(n: nat) | SetPosition(p: nat)

  function ApplyCall(c: Cursors, call: SetterCall): Cursors {
    match call
    case SetLimit(s) => WithLimit(c, s)
    case SetSize(n) => WithSize(c, n).0
    case SetPosition(p) => WithPosition(c, p).0
  }

  /** The cursors after a whole sequence of setter calls, first call first. */
  function ApplyCalls(c: Cursors, calls: seq<SetterCall>): Cursors
    decreases |calls|
  {
    if calls == [] then c else ApplyCalls(ApplyCall(c, calls[0]), calls[1..])
  }

  /** A fresh buffer is ordered, and every sequence of setter calls keeps
      each cursor within the capacity. */
  lemma {:induction false} SettersKeepBounded(c: Cursors, calls: seq<SetterCall>)
    requires Bounded(c)
    ensures Bounded(ApplyCalls(c, calls))
    ensures ApplyCalls(c, calls).capacity == c.capacity
    decreases |calls|
  {
    if calls != [] {
      SettersKeepBounded(ApplyCall(c, calls[0]), calls[1..]);
    }
  }

  /** A setter that reports failure changes no cursor. */
  lemma FailedSetterChangesNothing(c: Cursors, n: nat)
    ensures !WithSize(c, n).1 ==> WithSize(c, n).0 == c
    ensures !WithPosition(c, n).1 ==> WithPosition(c, n).0 == c
  {
  }

  /** Shrinking the limit below the size is accepted and leaves `size > limit`. */
  lemma ShrinkingLimitBreaksOrder(c: Cursors, s: nat)
    requires Ordered(c) && s < c.size
    ensures WithLimit(c, s).limit == s && WithLimit(c, s).size == c.size
    ensures !Ordered(WithLimit(c, s))
  {
  }

  /** Shrinking the size below the position is accepted and leaves `position > size`. */
  lemma ShrinkingSizeBreaksOrder(c: Cursors, n: nat)
    requires Ordered(c) && n < c.position
    ensures WithSize(c, n).1 && WithSize(c, n).0.size == n
    ensures !Ordered(WithSize(c, n).0)
  {
  }

  /** A buffer: a byte region the caller owns, plus cursors. The region is
      never reallocated; `data` is the `m_buffer` pointer and is shared by
      every copy of the buffer. */
  class MutableBuffer {
    const data: array<byte>
    const capacity: nat
    var limit: nat
    var size: nat
    var position: nat

    ghost predicate Valid()
      reads this
    {
      capacity <= data.Length && Bounded(View())
    }

    function View(): Cursors
      reads this
    {
      Cursors(capacity, limit, size, position)
    }

    /** `Basic_Mutable_Buffer(data, capacity)`: the region must hold `capacity` bytes. */
    constructor (data: array<byte>, capacity: nat)
      requires capacity <= data.Length
      ensures this.data == data && this.capacity == capacity
      ensures limit == capacity && size == 0 && position == 0
      ensures Valid() && Ordered(View())
    {
      this.data := data;
      this.capacity := capacity;
      limit, size, position := capacity, 0, 0;
    }

    /** The implicit copy constructor: same region, same cursors. */
    constructor Copy(other: MutableBuffer)
      requires other.Valid()
      ensures data == other.data && View() == other.View()
      ensures Valid()
    {
      data := other.data;
      capacity := other.capacity;
      limit, size, position := other.limit, other.size, other.position;
    }

    /** `limit(s)`: sets the limit to `min(s, capacity)` and returns it. */
    method SetLimit(s: nat) returns (r: nat)
      requires Valid()
      modifies this`limit
      ensures Valid()
      ensures View() == WithLimit(old(View()), s)
      ensures r == limit && limit <= capacity
      ensures s <= capacity ==> r == s
    {
      if s > capacity {
        limit := capacity;
      } else {
        limit := s;
      }
      r := limit;
    }

    /** `size(n)`: succeeds exactly when `n <= limit`; on failure nothing changes. */
    method SetSize(n: nat) returns (ok: bool)
      requires Valid()
      modifies this`size
      ensures Valid()
      ensures (View(), ok) == WithSize(old(View()), n)
      ensures ok <==> n <= limit
      ensures size == if ok then n else old(size)
    {
      if n <= limit {
        size := n;
        ok := true;
      } else {
        ok := false;
      }
    }

    /** `position(p)`: succeeds exactly when `p <= size`; on failure nothing changes. */
    method SetPosition(p: nat) returns (ok: bool)
      requires Valid()
      modifies this`position
      ensures Valid()
      ensures (View(), ok) == WithPosition(old(View()), p)
      ensures ok <==> p <= size
      ensures position == if ok then p else old(position)
    {
      if p > size {
        ok := false;
        return;
      }
      position := p;
      ok := true;
    }
  }

  /** An ordered list of buffers with a "latest" cursor. The cursor is an
      index: `|buffers|` plays the role of `end()`. */
  class BufferSequence {
    var buffers: seq<MutableBuffer>
    var latest: nat

    ghost predicate Valid()
      reads this, buffers
    {
      && latest <= |buffers|
      && (forall i, j :: 0 <= i < j < |buffers| ==> buffers[i] != buffers[j])
      && (forall i :: 0 <= i < |buffers| ==> buffers[i].Valid())
    }

    /** `Basic_Buffer_Sequence()`: empty, with the cursor at the end. */
    constructor ()
      ensures Valid() && buffers == [] && latest == End()
    {
      buffers := [];
      latest := 0;
    }

    /** `begin()`: the first position; it is `end()` exactly when the
        sequence is empty. */
    function Begin(): (r: nat)
      reads this
      ensures r <= End() && (r == End() <==> buffers == [])
    {
      0
    }

    /** `end()`: the position one past the last buffer. */
    function End(): (r: nat)
      reads this
      ensures r == |buffers|
    {
      |buffers|
    }

    /** `push_back(buf)`: appends a copy of `buf`. When the cursor was at the
        end it now designates the new buffer; otherwise it stays. Either way
        its index does not change. */
    method PushBack(buf: MutableBuffer) returns (ok: bool)
      requires Valid() && buf.Valid()
      modifies this
      ensures Valid() && ok
      ensures |buffers| == |old(buffers)| + 1 && buffers[..|old(buffers)|] == old(buffers)
      ensures fresh(buffers[|old(buffers)|])
      ensures buffers[|old(buffers)|].data == buf.data
      ensures buffers[|old(buffers)|].View() == buf.View()
      ensures latest == old(latest)
      ensures old(latest) == old(End()) ==> latest == |buffers| - 1
    {
      var wasEnd := latest == End();
      var copy := new MutableBuffer.Copy(buf);
      buffers := buffers + [copy];
      if wasEnd {
        // `end()` before the append and the new last buffer share an index
        latest := |buffers| - 1;
      }
      ok := true;
    }

    /** `pop_front()`: its body is commented out in the source; it only reports success. */
    method PopFront() returns (ok: bool)
      ensures ok
    {
      ok := true;
    }

    /** `latest(it)`: moves the cursor to any position from begin to end. */
    method SetLatest(it: nat) returns (ok: bool)
      requires Valid() && it <= End()
      modifies this`latest
      ensures Valid() && ok
      ensures latest == it
    {
      latest := it;
      ok := true;
    }

    /** `front()`: the first buffer; undefined on an empty list. */
    function Front(): (r: MutableBuffer)
      requires |buffers| > 0
      reads this
      ensures r == buffers[Begin()]
    {
      buffers[0]
    }
  }

  /** The sequence's first buffer after any number of appends is the first
      one appended: appending only extends the list. */
  lemma FrontIsFirstAppended(before: seq<MutableBuffer>, after: seq<MutableBuffer>)
    requires |before| > 0 && |after| >= |before| && after[..|before|] == before
    ensures after[0] == before[0]
  {
    assert after[0] == after[..|before|][0];
  }
}
