/** The fd-indexed slot table of the epoll wrapper: one interest slot per
    descriptor (events and an opaque tag), a count of registrations and a
    result list for the last wait. The kernel calls are parameters: the
    return value of `epoll_ctl`, and for `epoll_wait` its return value and
    the events it reports. */
module EPoll {
  import opened Bytes
  import CArith

  /** Slots a new poller starts with, and the slack added when it grows. */
  const InitialSlots: nat := 32
  const GrowthSlack: nat := 32

  /** One `epoll_event`: the interest bits and the `data.ptr` tag. */
  datatype Slot = Slot(events: u32, tag: object?)

  /** A slot after `EPollEvent::reset()`. */
  const Cleared: Slot := Slot(0, null)

  /** `std::vector::resize(n, Cleared)`: cut to `n` or extend with cleared slots. */
  function Resize(s: seq<Slot>, n: nat): (r: seq<Slot>)
    ensures |r| == n
    ensures forall k :: 0 <= k < n ==> r[k] == if k < |s| then s[k] else Cleared
  {
    if n <= |s| then s[..n] else s + seq(n - |s|, _ => Cleared)
  }

  function TagBit(x: Slot): nat {
    if x.tag != null then 1 else 0
  }

  /** The number of slots holding a tag. */
  function Tagged(s: seq<Slot>): (r: nat)
    ensures r <= |s|
  {
    if s == [] then 0 else Tagged(s[..|s| - 1]) + TagBit(s[|s| - 1])
  }

  lemma {:induction false} TaggedAppend(a: seq<Slot>, b: seq<Slot>)
    ensures Tagged(a + b) == Tagged(a) + Tagged(b)
  {
    if b == [] {
      assert a + b == a;
    } else {
      assert (a + b)[..|a + b| - 1] == a + b[..|b| - 1];
      assert (a + b)[|a + b| - 1] == b[|b| - 1];
      TaggedAppend(a, b[..|b| - 1]);
    }
  }

  /** Overwriting one slot changes the tagged count by the difference of
      the two tag bits. */
  lemma {:induction false} TaggedUpdate(s: seq<Slot>, i: nat, v: Slot)
    requires i < |s|
    ensures Tagged(s[i := v]) == Tagged(s) - TagBit(s[i]) + TagBit(v)
  {
    assert s == s[..i] + [s[i]] + s[i + 1..];
    assert s[i := v] == s[..i] + [v] + s[i + 1..];
    TaggedAppend(s[..i] + [s[i]], s[i + 1..]);
    TaggedAppend(s[..i], [s[i]]);
    TaggedAppend(s[..i] + [v], s[i + 1..]);
    TaggedAppend(s[..i], [v]);
    assert Tagged([s[i]]) == TagBit(s[i]) by { assert [s[i]][..0] == []; }
    assert Tagged([v]) == TagBit(v) by { assert [v][..0] == []; }
  }

  lemma {:induction false} TaggedNone(n: nat)
    ensures Tagged(seq(n, _ => Cleared)) == 0
  {
    if n > 0 {
      assert seq(n, _ => Cleared)[..n - 1] == seq(n - 1, _ => Cleared);
      TaggedNone(n - 1);
    }
  }

  /** Growing the table adds no tag. */
  lemma GrowKeepsTagged(s: seq<Slot>, n: nat)
    requires n >= |s|
    ensures Tagged(Resize(s, n)) == Tagged(s)
  {
    if n == |s| {
      assert Resize(s, n) == s;
    } else {
      assert Resize(s, n) == s + seq(n - |s|, _ => Cleared);
      TaggedAppend(s, seq(n - |s|, _ => Cleared));
      TaggedNone(n - |s|);
    }
  }

  class EPoller {
    /** `m_epfd`. */
    var epfd: int
    /** `m_event_count`. */
    var count: int
    /** `m_events`, indexed by descriptor. */
    var slots: seq<Slot>
    /** `m_revents`, the events of the last wait. */
    var fired: seq<Slot>

    /** The table never shrinks below its first size, and every tagged slot
        was counted when it was added (a failed re-add can leave the count
        above the number of tags, never below). */
    ghost predicate Valid()
      reads this
    {
      |slots| >= InitialSlots && count >= Tagged(slots)
    }

    /** `EPoller()`: 32 cleared slots of each kind and no registration;
        the descriptor `epoll_create1` returned is the parameter. */
    constructor (created: int)
      ensures Valid()
      ensures epfd == created && count == 0
      ensures slots == seq(InitialSlots, _ => Cleared) && fired == seq(InitialSlots, _ => Cleared)
    {
      epfd := created;
      count := 0;
      slots := seq(InitialSlots, _ => Cleared);
      fired := seq(InitialSlots, _ => Cleared);
      TaggedNone(InitialSlots);
    }

    /** `close()`: forgets an open descriptor; always true. */
    method Close() returns (r: bool)
      modifies this`epfd
      ensures r && epfd == (if old(epfd) >= 0 then -1 else old(epfd))
    {
      if epfd >= 0 {
        epfd := -1;
      }
      r := true;
    }

    /** `add(fd, events, param)`: grows the table to `fd + 32` slots when
        `fd` is past its end, stores events and tag in slot `fd` and asks
        the kernel (`ctl` is what `epoll_ctl` returned). On failure the tag
        is cleared again, even when `fd` was registered before, and the
        count stays; on success the count goes up by one. */
    method Add(fd: int, events: CArith.int32, param: object?, ctl: int) returns (ok: bool)
      requires Valid() && 0 <= fd
      modifies this`slots, this`count
      ensures Valid()
      ensures ok <==> ctl == 0
      ensures count == old(count) + (if ok then 1 else 0)
      ensures |slots| == if fd >= old(|slots|) then fd + GrowthSlack else old(|slots|)
      ensures slots[fd] == Slot(events as int % U32Modulus, if ok then param else null)
      ensures forall k :: 0 <= k < |slots| && k != fd ==>
        slots[k] == if k < old(|slots|) then old(slots)[k] else Cleared
    {
      if fd >= |slots| {
        GrowKeepsTagged(slots, fd + GrowthSlack);
        slots := Resize(slots, fd + GrowthSlack);
      }
      var slot := Slot(events as int % U32Modulus, param);
      TaggedUpdate(slots, fd, slot);
      slots := slots[fd := slot];
      if ctl != 0 {
        TaggedUpdate(slots, fd, slot.(tag := null));
        slots := slots[fd := slot.(tag := null)];
        return false;
      }
      count := count + 1;
      ok := true;
    }

    /** `wait(timeout)`: the result list is first sized to the count, the
        kernel fills its front (`ret` and `reported` are what `epoll_wait`
        returned and wrote) and, unless it failed, the list is cut to what
        was reported. */
    method Wait(timeout: int, ret: int, reported: seq<Slot>) returns (r: int)
      requires Valid()
      requires ret <= count && (ret >= 0 ==> |reported| == ret)
      modifies this`fired
      ensures r == ret
      ensures ret >= 0 ==> fired == reported
      ensures ret < 0 ==> fired == Resize(old(fired), count)
    {
      fired := Resize(fired, count);
      if ret >= 0 {
        fired := reported + fired[ret..];
        fired := Resize(fired, ret);
        assert fired == reported;
      }
      r := ret;
    }

    /** `remove(fd)`: a tagged slot is deregistered (`ctl` is what
        `epoll_ctl` returned), loses its tag and the count goes down;
        an untagged slot is left alone and the result is true. */
    method Remove(fd: int, ctl: int) returns (ok: bool)
      requires Valid() && 0 <= fd < |slots|
      modifies this`slots, this`count
      ensures Valid()
      ensures old(slots)[fd].tag == null ==> ok && slots == old(slots) && count == old(count)
      ensures old(slots)[fd].tag != null ==>
        && (ok <==> ctl == 0)
        && slots == old(slots)[fd := old(slots)[fd].(tag := null)]
        && count == old(count) - 1
    {
      if slots[fd].tag != null {
        TaggedUpdate(slots, fd, slots[fd].(tag := null));
        slots := slots[fd := slots[fd].(tag := null)];
        count := count - 1;
        return ctl == 0;
      }
      ok := true;
    }

    /** `begin()`: the first slot with a tag, or `End()` when there is none. */
    method Begin() returns (i: nat)
      ensures i <= |slots|
      ensures forall k :: 0 <= k < i ==> slots[k].tag == null
      ensures i < |slots| ==> slots[i].tag != null
    {
      i := 0;
      while i < |slots|
        invariant i <= |slots|
        invariant forall k :: 0 <= k < i ==> slots[k].tag == null
      {
        if slots[i].tag != null {
          return;
        }
        i := i + 1;
      }
    }

    /** `end()`: one past the last slot. */
    function End(): (r: nat)
      reads this
      ensures r == |slots|
    {
      |slots|
    }

    /** `rbegin()` and `rend()` bound the events of the last wait. */
    function REnd(): (r: nat)
      reads this
      ensures r == |fired|
    {
      |fired|
    }
  }

  /** A failed `add` of a descriptor that is already registered clears its
      tag but keeps its registration in the count: afterwards the count
      exceeds the tags, and `remove` of that descriptor no longer
      deregisters it. */
  method FailedReAdd() returns (count: int, tagged: nat, removed: bool, countAfter: int)
    ensures count == 1 && tagged == 0
    ensures removed && countAfter == 1
  {
    var p := new EPoller(3);
    var tag := new object;
    var first := p.Add(5, 1, tag, 0);
    var second := p.Add(5, 1, tag, -1);
    assert p.slots == seq(InitialSlots, _ => Cleared)[5 := Slot(1, null)];
    TaggedUpdate(seq(InitialSlots, _ => Cleared), 5, Slot(1, null));
    TaggedNone(InitialSlots);
    count, tagged := p.count, Tagged(p.slots);
    removed := p.Remove(5, 0);
    countAfter := p.count;
  }
}
