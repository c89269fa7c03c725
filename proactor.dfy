/** `RPC_Proactor`: registers sockets, queues read and write tasks, waits on
    the poller until the nearest deadline and turns readiness into handler
    calls. The poller is the scripted fake of module Poller; the socket layer
    (accept, gather-send) is a `Network` parameter; handlers are function
    values whose results stand for what the application's callbacks return. */
module Proactor {
  import opened Wrappers
  import opened Bytes
  import opened CArith
  import opened Buffer
  import opened RpcMessage
  import opened RpcSocket
  import opened TaskTimeoutQueue
  import opened Poller

  /** One `struct iovec`: a region of a buffer's bytes. */
  datatype IoVec = IoVec(base: array<byte>, offset: nat, length: nat)

  /** The socket layer as the engine observes it. */
  datatype Network = Network(
    accept: SocketObject -> SocketObject?,  // listener->accept(): a new channel or null
    send: (int, seq<IoVec>) -> int)         // gather-send on a descriptor: bytes sent, or -1

  /** A call the engine made to one of the application's handlers. */
  datatype Callback =
    | AcceptCalled(listener: SocketObject, channel: SocketObject?, ec: int)
    | ConnectCalled(connected: SocketObject, ec: int)
    | SendCalled(sender: SocketObject, message: Message, ec: int)

  type AcceptHandler = (SocketObject, SocketObject?, int) -> int
  type ConnectHandler = (SocketObject, int) -> int
  type SendHandler = (SocketObject, Message, int) -> int

  /** The requests the engine has received, in order (kept for specification only). */
  datatype ProactorCall =
    | RegCall(sock: SocketObject)
    | AddReadCall(target: SocketObject?, message: Message, expire: int)
    | AddWriteCall(target: SocketObject?, message: Message, expire: int)

  /** The bytes of a buffer not yet sent: `size() - position()` as `size_t`. */
  function PendingBytes(c: Cursors): nat {
    SizeTSub(c.size, c.position)
  }

  /** The gather list `on_writable` builds from `bs` (the buffers from the
      cursor to the end): one entry per buffer with pending bytes, in order. */
  function Gather(bs: seq<MutableBuffer>): seq<IoVec>
    reads set b | b in bs
    decreases |bs|
  {
    if bs == [] then []
    else
      var b := bs[|bs| - 1];
      var s := PendingBytes(b.View());
      Gather(bs[..|bs| - 1]) + (if s == 0 then [] else [IoVec(b.data, b.position, s)])
  }

  /** The byte total `on_writable` accumulates, as `size_t`. */
  function GatherTotal(bs: seq<MutableBuffer>): nat
    reads set b | b in bs
    decreases |bs|
  {
    if bs == [] then 0
    else (GatherTotal(bs[..|bs| - 1]) + PendingBytes(bs[|bs| - 1].View())) % SizeTModulus
  }

  function SumLengths(vs: seq<IoVec>): nat
    decreases |vs|
  {
    if vs == [] then 0 else SumLengths(vs[..|vs| - 1]) + vs[|vs| - 1].length
  }

  /** Every gather entry has pending bytes. */
  lemma {:induction false} GatherEntriesNonEmpty(bs: seq<MutableBuffer>)
    ensures forall v :: v in Gather(bs) ==> v.length > 0
    decreases |bs|
  {
    if bs != [] {
      GatherEntriesNonEmpty(bs[..|bs| - 1]);
    }
  }

  /** The total is the sum of the entry lengths, as `size_t`. */
  lemma {:induction false} GatherTotalIsSumOfEntries(bs: seq<MutableBuffer>)
    ensures GatherTotal(bs) == SumLengths(Gather(bs)) % SizeTModulus
    decreases |bs|
  {
    if bs != [] {
      var front := bs[..|bs| - 1];
      GatherTotalIsSumOfEntries(front);
      var b := bs[|bs| - 1];
      var s := PendingBytes(b.View());
      var n := SumLengths(Gather(front));
      ModAddLeft(n, s);
      if s != 0 {
        var g := Gather(front) + [IoVec(b.data, b.position, s)];
        assert g[..|g| - 1] == Gather(front);
        assert SumLengths(Gather(bs)) == n + s;
      } else {
        assert Gather(bs) == Gather(front) + [];
        assert Gather(front) + [] == Gather(front);
      }
    }
  }

  lemma ModAddLeft(a: nat, s: nat)
    ensures (a % SizeTModulus + s) % SizeTModulus == (a + s) % SizeTModulus
  {
    var q := a / SizeTModulus;
    assert a == q * SizeTModulus + a % SizeTModulus;
  }

  /** The indices of the buffers that still have bytes to send. */
  ghost function PendingIndices(bs: seq<MutableBuffer>): set<int>
    reads set b | b in bs
  {
    set k | 0 <= k < |bs| && bs[k].position < bs[k].size
  }

  lemma PendingIndicesSnoc(bs: seq<MutableBuffer>)
    requires bs != []
    ensures var n := |bs| - 1;
      PendingIndices(bs) == PendingIndices(bs[..n]) + (if bs[n].position < bs[n].size then {n} else {})
  {
    var n := |bs| - 1;
    forall k | 0 <= k < n ensures bs[..n][k] == bs[k] {
    }
  }

  /** For buffers whose cursors are in order, a buffer is left out of the
      gather list exactly when it has no pending byte. */
  lemma {:induction false} GatherCountsPendingBuffers(bs: seq<MutableBuffer>)
    requires forall k :: 0 <= k < |bs| ==> bs[k].position <= bs[k].size < SizeTModulus
    ensures |Gather(bs)| == |PendingIndices(bs)|
    decreases |bs|
  {
    if bs != [] {
      var n := |bs| - 1;
      GatherCountsPendingBuffers(bs[..n]);
      PendingIndicesSnoc(bs);
      assert n !in PendingIndices(bs[..n]);
    }
  }

  /** For buffers whose cursors are in order, each entry covers exactly the
      bytes of one buffer from its position to its size. */
  lemma {:induction false} GatherEntriesArePendingBytes(bs: seq<MutableBuffer>)
    requires forall k :: 0 <= k < |bs| ==> bs[k].position <= bs[k].size < SizeTModulus
    ensures forall v :: v in Gather(bs) ==>
      exists k :: 0 <= k < |bs| && v == IoVec(bs[k].data, bs[k].position, bs[k].size - bs[k].position)
    decreases |bs|
  {
    if bs != [] {
      var n := |bs| - 1;
      var front := bs[..n];
      GatherEntriesArePendingBytes(front);
      forall v | v in Gather(bs)
        ensures exists k :: 0 <= k < |bs| && v == IoVec(bs[k].data, bs[k].position, bs[k].size - bs[k].position)
      {
        if v in Gather(front) {
          var k :| 0 <= k < |front| && v == IoVec(front[k].data, front[k].position, front[k].size - front[k].position);
          assert bs[k] == front[k];
        } else {
          assert v == IoVec(bs[n].data, bs[n].position, bs[n].size - bs[n].position);
        }
      }
    }
  }

  /** The loop of `on_writable` that fills the gather list and its total. */
  method BuildGather(bufs: seq<MutableBuffer>, from: nat) returns (iov: seq<IoVec>, total: nat)
    requires from <= |bufs|
    ensures iov == Gather(bufs[from..]) && total == GatherTotal(bufs[from..])
  {
    iov, total := [], 0;
    assert bufs[from..|bufs|] == bufs[from..];
    for k := from to |bufs|
      invariant iov == Gather(bufs[from..k])
      invariant total == GatherTotal(bufs[from..k])
    {
      assert bufs[from..k + 1][..k - from] == bufs[from..k];
      var b := bufs[k];
      var s := SizeTSub(b.size, b.position);
      if s == 0 {
        continue;
      }
      total := (total + s) % SizeTModulus;
      iov := iov + [IoVec(b.data, b.position, s)];
    }
  }

  /** A buffer whose position passed its size (possible after shrinking the
      size) gets an entry of nearly 2^64 bytes: the `size_t` difference
      wraps. */
  lemma PendingBytesWrapPastSize(c: Cursors)
    requires c.size < c.position < c.size + SizeTModulus
    ensures PendingBytes(c) == SizeTModulus - (c.position - c.size)
  {
  }

  /** `after` is `before` with some tasks taken off its front. */
  predicate DrainedFromFront(before: seq<Task>, after: seq<Task>) {
    |after| <= |before| && after == before[|before| - |after|..]
  }

  /** The only socket state change the engine makes: Connecting to Connected. */
  predicate StateAdvanced(before: int, after: int) {
    after == before || (before == StateConnecting && after == StateConnected)
  }

  lemma DrainedTransitive(a: seq<Task>, b: seq<Task>, c: seq<Task>)
    requires DrainedFromFront(a, b) && DrainedFromFront(b, c)
    ensures DrainedFromFront(a, c)
  {
    assert c == a[|a| - |b|..][|b| - |c|..];
  }

  /** What the event loop may change about one socket's owner. */
  datatype OwnerView = OwnerView(readTasks: seq<Task>, writeTasks: seq<Task>, state: int)

  function OwnerState(o: TaskOwner): OwnerView
    reads o, o.socket
  {
    OwnerView(o.readQueue, o.writeQueue, o.socket.state)
  }

  /** The read FIFO is left alone, write tasks leave only from the front,
      and the socket at most moves from Connecting to Connected. */
  predicate OwnerProgressed(before: OwnerView, after: OwnerView) {
    && after.readTasks == before.readTasks
    && DrainedFromFront(before.writeTasks, after.writeTasks)
    && StateAdvanced(before.state, after.state)
  }

  /** What the write half does to a channel: with no queued write task it
      does not go through; for a Connecting or Connected channel with one,
      the channel ends Connected, its read FIFO stays, and the front write
      task is popped exactly when the half goes through, which for a
      Connecting channel is when `connectOk` holds and for a Connected one
      when `sendOk` does. */
  predicate FrontWritten(state: int, before: OwnerView, after: OwnerView, done: bool, connectOk: bool, sendOk: bool) {
    && (before.writeTasks == [] ==> !done)
    && ((state == StateConnecting || state == StateConnected) && before.writeTasks != [] ==>
      && after.state == StateConnected
      && after.readTasks == before.readTasks
      && after.writeTasks == (if done then before.writeTasks[1..] else before.writeTasks)
      && (done <==> if state == StateConnecting then connectOk else sendOk))
  }

  /** Every writable event among the first `n` went to a channel that is no
      longer Connecting. */
  predicate WritesHandled(events: seq<Event>, n: nat, sockets: set<SocketObject>)
    requires n <= |events|
    reads sockets
  {
    forall k :: 0 <= k < n && events[k].events & EventWrite != 0 ==>
      var ch := events[k].data.socket;
      ch in sockets && ch.kind == TypeChannel && ch.state != StateConnecting
  }

  /** A readable listener: the event that makes one accept callback. */
  predicate IsAcceptEvent(e: Event) {
    e.data.socket.kind == TypeListener && e.events & EventRead != 0
  }

  /** How many of the events are readable listeners. */
  function AcceptEvents(events: seq<Event>): nat {
    if events == [] then 0
    else AcceptEvents(events[..|events| - 1]) + (if IsAcceptEvent(events[|events| - 1]) then 1 else 0)
  }

  /** At least one callback was logged, beyond the `before` there were,
      per readable listener among the first `n` events. */
  predicate AcceptsLogged(events: seq<Event>, n: nat, before: nat, after: nat)
    requires n <= |events|
  {
    before + AcceptEvents(events[..n]) <= after
  }

  lemma AcceptEventsStep(events: seq<Event>, i: nat)
    requires i < |events|
    ensures AcceptEvents(events[..i + 1]) == AcceptEvents(events[..i]) + (if IsAcceptEvent(events[i]) then 1 else 0)
  {
    assert events[..i + 1][..i] == events[..i];
  }

  /** The gather send of everything from the cursor on went through in full. */
  ghost predicate Complete(ch: SocketObject, bs: BufferSequence, net: Network)
    requires bs.latest < |bs.buffers|
    reads bs, set b | b in bs.buffers[bs.latest..]
  {
    var sent := net.send(ch.handle, Gather(bs.buffers[bs.latest..]));
    sent > 0 && sent >= GatherTotal(bs.buffers[bs.latest..])
  }

  /** A Connecting channel's write half goes through exactly when the
      connect handler is set and answers Ok. */
  predicate ConnectOk(handler: Option<ConnectHandler>, ch: SocketObject) {
    handler.Some? && handler.value(ch, Ok) == Ok
  }

  /** A Connected channel's write half goes through exactly when it has a
      front write task whose message has a buffer at its cursor, and a
      complete send finds a send handler to call. */
  ghost predicate SendOk(handler: Option<SendHandler>, ch: SocketObject, tasks: seq<Task>, net: Network)
    reads if tasks == [] then null else tasks[0].message.buffers
    reads if tasks == [] || tasks[0].message.buffers == null then {} else set b | b in tasks[0].message.buffers.buffers
  {
    && tasks != []
    && var bs := tasks[0].message.buffers;
    && bs != null && bs.latest < |bs.buffers| && (Complete(ch, bs, net) ==> handler.Some?)
  }

  lemma ProgressedTransitive(a: OwnerView, b: OwnerView, c: OwnerView)
    requires OwnerProgressed(a, b) && OwnerProgressed(b, c)
    ensures OwnerProgressed(a, c)
  {
    DrainedTransitive(a.writeTasks, b.writeTasks, c.writeTasks);
  }

  /** The wait `run_once` computes, before clamping: `(int)((expire - now) / 1000)`. */
  function RawWaitTimeout(expire: int, now: int): int32 {
    Int32Wrap(TruncDiv1000(expire - now))
  }

  /** The wait in milliseconds `run_once` passes to the poller. */
  function WaitTimeout(expire: int, now: int): (t: int32)
    ensures t >= 0
    ensures RawWaitTimeout(expire, now) >= 0 ==> t == RawWaitTimeout(expire, now)
  {
    var q := RawWaitTimeout(expire, now);
    if q < 0 then 0 else q
  }

  /** While the whole-millisecond difference fits an `int`, the wait is that
      difference, rounded toward zero, and never negative. */
  lemma WaitTimeoutInRange(expire: int, now: int)
    requires -0x8000_0000 <= TruncDiv1000(expire - now) < 0x8000_0000
    ensures WaitTimeout(expire, now) ==
      if TruncDiv1000(expire - now) < 0 then 0 else TruncDiv1000(expire - now)
  {
  }

  /** A deadline in the past gives a zero wait, as long as it is less than
      2^31 ms overdue; past that the cast to `int` wraps to a positive wait. */
  lemma OverdueDeadlineDoesNotWait(expire: int, now: int)
    requires expire <= now && now - expire < 0x8000_0000 * 1000
    ensures WaitTimeout(expire, now) == 0
  {
    assert -0x8000_0000 <= TruncDiv1000(expire - now) <= 0;
  }

  /** How long a task that never expires makes the loop wait depends on the
      clock: the millisecond difference is far beyond an `int`, and its
      wrapped cast is negative (no wait) at one present-day clock and about
      3.4 days at another one a little earlier. */
  lemma NeverExpiringWaitDependsOnClock()
    ensures RawWaitTimeout(MaxExpireTime, 1_700_000_000_000_000) < 0
    ensures WaitTimeout(MaxExpireTime, 1_700_000_000_000_000) == 0
    ensures WaitTimeout(MaxExpireTime, 1_699_000_000_000_000) == 295220727
  {
    assert TruncDiv1000(MaxExpireTime - 1_700_000_000_000_000) == 9221672036854775;
    assert TruncDiv1000(MaxExpireTime - 1_699_000_000_000_000) == 9221673036854775;
  }

  /** The interest mask `add_read` and `add_write` compute for an owner. */
  function Interest(o: TaskOwner): (m: bv32)
    reads o
    ensures (m & EventRead != 0) <==> o.readQueue != []
    ensures (m & EventWrite != 0) <==> o.writeQueue != []
    ensures m & !(EventRead | EventWrite) == 0
  {
    (if o.FrontTask(Read).Some? then EventRead else EventNone)
      | (if o.FrontTask(Write).Some? then EventWrite else EventNone)
  }

  /** What a wait on the fake poller returns for its script and table. */
  function WaitResult(script: seq<WaitStep>, table: map<int, Registration>): int {
    if script == [] then 0
    else match script[0]
      case WaitFails => 0
      case Fired(rs) => |Deliver(rs, table)|
  }

  /** The wait never reports a negative count, so the error branch of
      `run_once` is never taken: a failed wait looks like a timeout. */
  lemma WaitResultNotNegative(script: seq<WaitStep>, table: map<int, Registration>)
    ensures WaitResult(script, table) >= 0
    ensures script != [] && script[0].WaitFails? ==> WaitResult(script, table) == 0
  {
  }

  /** A mask has neither interest bit exactly when it has neither bit. */
  lemma EventBits(ev: bv32)
    ensures ev & (EventRead | EventWrite) == 0 <==> ev & EventRead == 0 && ev & EventWrite == 0
  {
  }

  class RpcProactor {
    const poller: FakePoller
    const queue: TimeoutQueue
    var acceptHandler: Option<AcceptHandler>
    var connectHandler: Option<ConnectHandler>
    var sendHandler: Option<SendHandler>
    var sendIovec: seq<IoVec>
    var callbacks: seq<Callback>
    ghost var calls: seq<ProactorCall>

    ghost predicate Valid()
      reads poller, queue
    {
      && queue.Valid()
      && (forall fd :: fd in poller.table ==> Owned(poller.table[fd].tag))
      && (forall k :: 0 <= k < |poller.ready| ==> Owned(poller.ready[k].data))
    }

    /** `o` is the owner the queue keeps for its socket. */
    ghost predicate Owned(o: TaskOwner)
      reads queue
    {
      o.socket in queue.owners && queue.owners[o.socket] == o
    }

    /** `RPC_Proactor()`: no sockets, no tasks and no handlers (calling an
        unset `std::function` throws). */
    constructor (script: seq<WaitStep>)
      ensures Valid() && fresh(poller) && fresh(queue)
      ensures poller.table == map[] && poller.script == script && poller.ready == []
      ensures queue.owners == map[] && queue.timeouts == []
      ensures acceptHandler == None && connectHandler == None && sendHandler == None
      ensures sendIovec == [] && callbacks == [] && calls == []
    {
      poller := new FakePoller(script);
      queue := new TimeoutQueue();
      acceptHandler, connectHandler, sendHandler := None, None, None;
      sendIovec, callbacks := [], [];
      calls := [];
    }

    method SetAcceptHandler(h: AcceptHandler)
      modifies this`acceptHandler
      ensures acceptHandler == Some(h)
    {
      acceptHandler := Some(h);
    }

    method SetConnectHandler(h: ConnectHandler)
      modifies this`connectHandler
      ensures connectHandler == Some(h)
    {
      connectHandler := Some(h);
    }

    method SetSendHandler(h: SendHandler)
      modifies this`sendHandler
      ensures sendHandler == Some(h)
    {
      sendHandler := Some(h);
    }

    /** `reg(sockobj)`: makes sure the socket has an owner, then registers
        its descriptor with no interest, tagged with that owner. */
    method Reg(sock: SocketObject) returns (ok: bool)
      requires Valid()
      modifies queue, poller`table, this`calls
      ensures Valid()
      ensures sock in queue.owners && queue.owners.Keys == old(queue.owners.Keys) + {sock}
      ensures forall o :: o in queue.owners.Values ==> o in old(queue.owners.Values) || fresh(o)
      ensures sock in old(queue.owners) ==> queue.owners == old(queue.owners)
      ensures sock !in old(queue.owners) ==>
        && queue.owners == old(queue.owners)[sock := queue.owners[sock]]
        && fresh(queue.owners[sock])
        && queue.owners[sock].readQueue == [] && queue.owners[sock].writeQueue == []
      ensures queue.timeouts == old(queue.timeouts) && queue.nextId == old(queue.nextId)
      ensures ok <==> sock.handle !in old(poller.table)
      ensures poller.table ==
        if ok then old(poller.table)[sock.handle := Registration(EventNone, queue.owners[sock])]
        else old(poller.table)
      ensures calls == old(calls) + [RegCall(sock)]
    {
      calls := calls + [RegCall(sock)];
      var owner := queue.AddOwner(sock);
      ok := poller.Add(sock.handle, EventNone, owner);
    }

    /** `add_read` and `add_write`: the socket's owner must exist (the source
        asserts it); the task joins its FIFO and the multimap, and the
        descriptor's interest is set to exactly Read if the owner's read FIFO
        is non-empty, together with Write if its write FIFO is. */
    method AddTask(sock: SocketObject?, taskType: int, msg: Message, expire: int) returns (r: Outcome<bool>)
      requires Valid() && (taskType == Read || taskType == Write)
      modifies queue, poller`table
      modifies if sock != null && sock in queue.owners then {queue.owners[sock]} else {}
      ensures Valid() && queue.owners == old(queue.owners)
      ensures sock == null || sock !in old(queue.owners) ==>
        r.Aborted? && unchanged(queue) && unchanged(poller)
      ensures sock != null && sock in old(queue.owners) ==>
        var o := queue.owners[sock];
        && o.Queue(taskType) == old(o.Queue(taskType)) + [Task(old(queue.nextId), o, taskType, expire, msg)]
        && (taskType == Read ==> o.writeQueue == old(o.writeQueue))
        && (taskType == Write ==> o.readQueue == old(o.readQueue))
        && queue.timeouts == InsertTimeout(old(queue.timeouts), TimeoutEntry(expire, old(queue.nextId)))
        && queue.nextId == old(queue.nextId) + 1
        && r == Done(sock.handle in old(poller.table))
        && poller.table ==
             if r.value then old(poller.table)[sock.handle := Registration(Interest(o), o)]
             else old(poller.table)
    {
      var owner := queue.FindOwner(sock);
      if owner == null {
        return Aborted("assert(p_owner)");
      }
      var task := queue.PushTask(owner, taskType, msg, expire);
      var events := Interest(owner);
      var ok := poller.Set(sock.handle, events, owner);
      r := Done(ok);
    }

    /** `add_read(sockobj, msg, expire)` */
    method AddRead(sock: SocketObject?, msg: Message, expire: int) returns (r: Outcome<bool>)
      requires Valid()
      modifies queue, poller`table, this`calls
      modifies if sock != null && sock in queue.owners then {queue.owners[sock]} else {}
      ensures Valid() && queue.owners == old(queue.owners)
      ensures calls == old(calls) + [AddReadCall(sock, msg, expire)]
      ensures sock == null || sock !in old(queue.owners) ==>
        r.Aborted? && unchanged(queue) && unchanged(poller)
      ensures sock != null && sock in old(queue.owners) ==>
        var o := queue.owners[sock];
        && o.readQueue == old(o.readQueue) + [Task(old(queue.nextId), o, Read, expire, msg)]
        && o.writeQueue == old(o.writeQueue)
        && queue.timeouts == InsertTimeout(old(queue.timeouts), TimeoutEntry(expire, old(queue.nextId)))
        && r == Done(sock.handle in old(poller.table))
        && (r.value ==> sock.handle in poller.table && poller.table[sock.handle] == Registration(Interest(o), o))
    {
      calls := calls + [AddReadCall(sock, msg, expire)];
      r := AddTask(sock, Read, msg, expire);
    }

    /** `add_write(sockobj, msg, expire)` */
    method AddWrite(sock: SocketObject?, msg: Message, expire: int) returns (r: Outcome<bool>)
      requires Valid()
      modifies queue, poller`table, this`calls
      modifies if sock != null && sock in queue.owners then {queue.owners[sock]} else {}
      ensures Valid() && queue.owners == old(queue.owners)
      ensures calls == old(calls) + [AddWriteCall(sock, msg, expire)]
      ensures sock == null || sock !in old(queue.owners) ==>
        r.Aborted? && unchanged(queue) && unchanged(poller)
      ensures sock != null && sock in old(queue.owners) ==>
        var o := queue.owners[sock];
        && o.writeQueue == old(o.writeQueue) + [Task(old(queue.nextId), o, Write, expire, msg)]
        && o.readQueue == old(o.readQueue)
        && queue.timeouts == InsertTimeout(old(queue.timeouts), TimeoutEntry(expire, old(queue.nextId)))
        && r == Done(sock.handle in old(poller.table))
        && (r.value ==> sock.handle in poller.table && poller.table[sock.handle] == Registration(Interest(o), o))
    {
      calls := calls + [AddWriteCall(sock, msg, expire)];
      r := AddTask(sock, Write, msg, expire);
    }

    /** `on_acceptable(listener)`: takes a new connection and reports it to
        the accept handler with Ok, or reports Fail when there is none. */
    method OnAcceptable(listener: SocketObject, net: Network) returns (r: Outcome<int>)
      modifies this`callbacks
      ensures acceptHandler.None? ==> r.Aborted? && callbacks == old(callbacks)
      ensures acceptHandler.Some? ==>
        var ch := net.accept(listener);
        var ec := if ch == null then Fail else Ok;
        && callbacks == old(callbacks) + [AcceptCalled(listener, ch, ec)]
        && r == Done(if ch == null then Fail else acceptHandler.value(listener, ch, Ok))
    {
      var ch := net.accept(listener);
      if acceptHandler.None? {
        return Aborted("std::bad_function_call");
      }
      if ch == null {
        var _ := acceptHandler.value(listener, null, Fail);
        callbacks := callbacks + [AcceptCalled(listener, null, Fail)];
        return Done(Fail);
      }
      var ret := acceptHandler.value(listener, ch, Ok);
      callbacks := callbacks + [AcceptCalled(listener, ch, Ok)];
      // a Fail result deletes the channel; ownership is not modelled
      r := Done(ret);
    }

    /** `on_readable(channel)`: not implemented in the source; it only logs. */
    function OnReadable(ch: SocketObject): (ret: int)
      ensures ret == Ok
    {
      Ok
    }

    /** `on_writable(channel, task)`: builds the gather list from the cursor
        to the end of the task's buffers and sends it; the send handler is
        called only when at least the gathered total was sent. No buffer
        position is advanced and the result is always Ok. */
    method OnWritable(ch: SocketObject, task: Task, net: Network) returns (r: Outcome<int>)
      modifies this`sendIovec, this`callbacks
      ensures task.message.buffers == null ==> r.Aborted? && unchanged(this)
      ensures task.message.buffers != null ==>
        var bs := task.message.buffers;
        if bs.latest >= |bs.buffers| then r.Aborted? && unchanged(this)
        else
          var complete := old(Complete(ch, bs, net));
          && sendIovec == old(Gather(bs.buffers[bs.latest..]))
          && (complete && sendHandler.None? ==> r.Aborted? && callbacks == old(callbacks))
          && (complete && sendHandler.Some? ==>
                r == Done(Ok) && callbacks == old(callbacks) + [SendCalled(ch, task.message, Ok)])
          && (!complete ==> r == Done(Ok) && callbacks == old(callbacks))
    {
      var bufseq := task.message.buffers;
      if bufseq == null {
        return Aborted("null buffer sequence");
      }
      if bufseq.latest >= |bufseq.buffers| {
        return Aborted("RPC_Proactor<Poller>::on_writable, no buffer");
      }
      var iov, complete := SendGather(ch, bufseq, net);
      sendIovec := iov;
      if complete {
        if sendHandler.None? {
          return Aborted("std::bad_function_call");
        }
        var _ := sendHandler.value(ch, task.message, Ok);
        callbacks := callbacks + [SendCalled(ch, task.message, Ok)];
      }
      // partial sends, EAGAIN and other errors are only logged
      r := Done(Ok);
    }

    /** The gather list from the cursor on, handed to `sendmsg`; complete
        when the send reports the whole total. */
    method SendGather(ch: SocketObject, bs: BufferSequence, net: Network) returns (iov: seq<IoVec>, complete: bool)
      requires bs.latest < |bs.buffers|
      ensures iov == Gather(bs.buffers[bs.latest..])
      ensures complete <==> Complete(ch, bs, net)
    {
      var total;
      iov, total := BuildGather(bs.buffers, bs.latest);
      var sent := net.send(ch.handle, iov);
      complete := sent > 0 && sent >= total;
    }

    /** `on_connected(channel)`: the connect handler, called with Ok. */
    method OnConnected(ch: SocketObject) returns (r: Outcome<int>)
      modifies this`callbacks
      ensures connectHandler.None? ==> r.Aborted? && callbacks == old(callbacks)
      ensures connectHandler.Some? ==>
        r == Done(connectHandler.value(ch, Ok)) && callbacks == old(callbacks) + [ConnectCalled(ch, Ok)]
    {
      if connectHandler.None? {
        return Aborted("std::bad_function_call");
      }
      var ret := connectHandler.value(ch, Ok);
      callbacks := callbacks + [ConnectCalled(ch, Ok)];
      r := Done(ret);
    }

    /** The read half of `process_events`: a listener accepts, a channel
        only logs, any other kind of socket throws. */
    method OnReadEvent(sock: SocketObject, net: Network) returns (r: Outcome<()>)
      modifies this`callbacks
      ensures old(callbacks) <= callbacks
      ensures sock.kind == TypeChannel ==> r == Done(()) && callbacks == old(callbacks)
      ensures sock.kind != TypeChannel && sock.kind != TypeListener ==> r.Aborted? && callbacks == old(callbacks)
      ensures sock.kind == TypeListener ==>
        && (acceptHandler.None? ==> r.Aborted? && callbacks == old(callbacks))
        && (acceptHandler.Some? ==>
              var ch := net.accept(sock);
              var ret := if ch == null then Fail else acceptHandler.value(sock, ch, Ok);
              && callbacks == old(callbacks) + [AcceptCalled(sock, ch, if ch == null then Fail else Ok)]
              && (r.Done? <==> ret == Ok || ret == Fail))
    {
      if sock.kind == TypeListener {
        var ret := OnAcceptable(sock, net);
        if ret.Aborted? {
          return Aborted(ret.reason);
        }
        if ret.value == Ok || ret.value == Fail {
          return Done(());
        }
        return Aborted("RPC_Proactor::run, Listener unknown callback returned value");
      } else if sock.kind == TypeChannel {
        var ret := OnReadable(sock);
        if ret != Ok {
          return Aborted("RPC_Proactor::run, Channel unknown callback returned value");
        }
        return Done(());
      }
      r := Aborted("RPC_Proactor::run, bad socket type");
    }

    /** The write half of `process_events` for a Connected channel: its
        front write task is sent and popped whatever the send achieved. */
    method OnWriteConnected(owner: TaskOwner, net: Network) returns (r: Outcome<()>)
      requires owner.writeQueue != []
      modifies this`sendIovec, this`callbacks, owner
      ensures owner.readQueue == old(owner.readQueue)
      ensures old(callbacks) <= callbacks
      ensures r.Done? ==> owner.writeQueue == old(owner.writeQueue)[1..]
      ensures r.Aborted? ==> owner.writeQueue == old(owner.writeQueue)
      ensures r.Done? <==> SendOk(sendHandler, owner.socket, old(owner.writeQueue), net)
    {
      var ret := OnWritable(owner.socket, owner.writeQueue[0], net);
      if ret.Aborted? {
        return Aborted(ret.reason);
      }
      if ret.value != Ok {
        return Aborted("RPC_Proactor::run, Channel on writable returns unknown");
      }
      owner.PopFrontTask(Write);
      r := Done(());
    }

    /** The write half of `process_events` for a Connecting channel: it
        becomes Connected, the connect handler runs and, when that returns
        Ok, the write task that probed the connection is popped. */
    method OnWriteConnecting(owner: TaskOwner) returns (r: Outcome<()>)
      requires owner.writeQueue != []
      modifies this`callbacks, owner, owner.socket
      ensures owner.socket.state == StateConnected && owner.readQueue == old(owner.readQueue)
      ensures connectHandler.None? ==> r.Aborted? && unchanged(this, owner)
      ensures connectHandler.Some? ==>
        && callbacks == old(callbacks) + [ConnectCalled(owner.socket, Ok)]
        && (connectHandler.value(owner.socket, Ok) == Ok ==>
              r == Done(()) && owner.writeQueue == old(owner.writeQueue)[1..])
        && (connectHandler.value(owner.socket, Ok) != Ok ==>
              r.Aborted? && owner.writeQueue == old(owner.writeQueue))
      ensures r.Done? <==> ConnectOk(connectHandler, owner.socket)
    {
      owner.socket.state := StateConnected;
      var ret := OnConnected(owner.socket);
      if ret.Aborted? {
        return Aborted(ret.reason);
      }
      if ret.value != Ok {
        return Aborted("RPC_Proactor::run, Channel on connected returns unknwon");
      }
      owner.PopFrontTask(Write);
      r := Done(());
    }

    /** The write half of `process_events`. Only a channel may be writable
        and it must have a queued write task; a Connected channel sends, a
        Connecting one completes its connection, and a channel in any other
        state is left alone. */
    method OnWriteEvent(owner: TaskOwner, net: Network) returns (r: Outcome<()>)
      modifies this`sendIovec, this`callbacks, owner, owner.socket
      ensures OwnerProgressed(old(OwnerState(owner)), OwnerState(owner))
      ensures old(callbacks) <= callbacks
      ensures var ch := owner.socket;
        && (ch.kind != TypeChannel ==> r.Aborted? && unchanged(this, owner, ch))
        && (ch.kind == TypeChannel && old(owner.writeQueue) == [] ==> r.Aborted? && unchanged(this, owner, ch))
      ensures var ch := owner.socket;
        ch.kind == TypeChannel && old(owner.writeQueue) != [] &&
        old(ch.state) != StateConnecting && old(ch.state) != StateConnected ==>
          r == Done(()) && unchanged(this, owner, ch)
      ensures var ch := owner.socket;
        ch.kind == TypeChannel ==>
          FrontWritten(old(ch.state), old(OwnerState(owner)), OwnerState(owner), r.Done?,
                       ConnectOk(connectHandler, ch), SendOk(sendHandler, ch, old(owner.writeQueue), net))
    {
      var ch := owner.socket;
      if ch.kind != TypeChannel {
        return Aborted("RPC_Proactor::process_events, unknown write socket object");
      }
      var front := owner.FrontTask(Write);
      if front.None? {
        return Aborted("RPC_Proactor::run, no write task");
      }
      if ch.state == StateConnected {
        r := OnWriteConnected(owner, net);
      } else if ch.state == StateConnecting {
        r := OnWriteConnecting(owner);
      } else {
        r := Done(());
      }
    }

    /** One reported event: the read half when the read bit is set, then the
        write half when the write bit is set; a throw ends the event. */
    method ProcessEvent(e: Event, net: Network) returns (r: Outcome<()>)
      requires Valid() && Owned(e.data)
      modifies this`sendIovec, this`callbacks, e.data, e.data.socket
      ensures Valid()
      ensures forall p :: p in queue.owners ==>
        OwnerProgressed(old(OwnerState(queue.owners[p])), OwnerState(queue.owners[p]))
      ensures old(callbacks) <= callbacks
      ensures e.events & (EventRead | EventWrite) == 0 ==> r == Done(()) && unchanged(this, e.data, e.data.socket)
      ensures e.data.socket.kind == TypeListener && e.events & EventWrite != 0 ==> r.Aborted?
      ensures e.data.socket.kind != TypeChannel && e.events & EventWrite != 0 ==> r.Aborted?
      ensures var ch := e.data.socket;
        ch.kind == TypeChannel && e.events & EventWrite == 0 ==> r == Done(()) && unchanged(this, e.data, ch)
      ensures var l := e.data.socket;
        l.kind == TypeListener && e.events & EventRead != 0 ==>
          && (acceptHandler.None? ==> r.Aborted? && callbacks == old(callbacks))
          && (acceptHandler.Some? ==>
                var ch := net.accept(l);
                callbacks == old(callbacks) + [AcceptCalled(l, ch, if ch == null then Fail else Ok)])
      ensures var ch := e.data.socket;
        ch.kind == TypeChannel && e.events & EventWrite != 0 ==>
          FrontWritten(old(ch.state), old(OwnerState(e.data)), OwnerState(e.data), r.Done?,
                       ConnectOk(connectHandler, ch), SendOk(sendHandler, ch, old(e.data.writeQueue), net))
    {
      var owner := e.data;
      var sock := owner.socket;
      var readable, writable := e.events & EventRead != 0, e.events & EventWrite != 0;
      EventBits(e.events);
      r := Done(());
      if readable {
        r := OnReadEvent(sock, net);
      }
      if r.Done? && writable {
        r := WriteEvent(owner, net);
      }
    }

    /** The write half of one event, seen from the whole queue: only the
        event's own owner can change, and it only progresses. */
    method WriteEvent(owner: TaskOwner, net: Network) returns (r: Outcome<()>)
      requires Valid() && Owned(owner)
      modifies this`sendIovec, this`callbacks, owner, owner.socket
      ensures Valid()
      ensures forall p :: p in queue.owners ==>
        OwnerProgressed(old(OwnerState(queue.owners[p])), OwnerState(queue.owners[p]))
      ensures old(callbacks) <= callbacks
      ensures owner.socket.kind != TypeChannel ==> r.Aborted? && callbacks == old(callbacks)
      ensures var ch := owner.socket;
        ch.kind == TypeChannel ==>
          FrontWritten(old(ch.state), old(OwnerState(owner)), OwnerState(owner), r.Done?,
                       ConnectOk(connectHandler, ch), SendOk(sendHandler, ch, old(owner.writeQueue), net))
    {
      r := OnWriteEvent(owner, net);
      assert unchanged(poller, queue);
      forall p | p in queue.owners
        ensures OwnerProgressed(old(OwnerState(queue.owners[p])), OwnerState(queue.owners[p]))
      {
        if p == owner.socket {
          assert queue.owners[p] == owner;
        } else {
          assert queue.owners[p] != owner && queue.owners[p].socket != owner.socket;
        }
      }
    }

    /** The reported event at index `i`, as `process_event` handles it: a
        writable event that goes through was on a channel that is no longer
        Connecting, only that channel's state changes, and a readable
        listener adds a callback. */
    method DispatchEvent(events: seq<Event>, i: nat, net: Network) returns (r: Outcome<()>)
      requires Valid() && events == poller.ready && i < |events|
      modifies this`sendIovec, this`callbacks, events[i].data, events[i].data.socket
      ensures Valid() && unchanged(poller, queue)
      ensures forall p :: p in queue.owners ==>
        OwnerProgressed(old(OwnerState(queue.owners[p])), OwnerState(queue.owners[p]))
      ensures old(callbacks) <= callbacks
      ensures r.Done? && events[i].events & EventWrite != 0 ==>
        events[i].data.socket.kind == TypeChannel && events[i].data.socket.state != StateConnecting
      ensures old(events[i].data.socket.state) != StateConnecting ==>
        events[i].data.socket.state == old(events[i].data.socket.state)
      ensures forall s :: s in queue.owners && s != events[i].data.socket ==> s.state == old(s.state)
      ensures r.Done? && acceptHandler.Some? ==>
        |old(callbacks)| + (if IsAcceptEvent(events[i]) then 1 else 0) <= |callbacks|
    {
      var e := events[i];
      r := ProcessEvent(e, net);
      assert Owned(e.data) && queue.owners[e.data.socket] == e.data;
      assert OwnerProgressed(old(OwnerState(e.data)), OwnerState(e.data));
    }

    /** One pass of `process_events`: the event at index `i`. Given that
        every writable event before it went to a channel that is no longer
        Connecting, and that a callback was logged beyond `start` for each
        readable listener before it, both hold up to and including it when
        it goes through. */
    method ProcessNext(events: seq<Event>, i: nat, net: Network, ghost start: nat) returns (r: Outcome<()>)
      requires Valid() && events == poller.ready && i < |events|
      requires WritesHandled(events, i, queue.owners.Keys)
      requires acceptHandler.Some? ==> AcceptsLogged(events, i, start, |callbacks|)
      modifies this`sendIovec, this`callbacks, events[i].data, events[i].data.socket
      ensures Valid() && unchanged(poller, queue)
      ensures forall p :: p in queue.owners ==>
        OwnerProgressed(old(OwnerState(queue.owners[p])), OwnerState(queue.owners[p]))
      ensures old(callbacks) <= callbacks
      ensures r.Done? ==> WritesHandled(events, i + 1, queue.owners.Keys)
      ensures r.Done? && acceptHandler.Some? ==> AcceptsLogged(events, i + 1, start, |callbacks|)
    {
      r := DispatchEvent(events, i, net);
      AcceptEventsStep(events, i);
      if r.Done? {
        forall k | 0 <= k < i + 1 && events[k].events & EventWrite != 0
          ensures var ch := events[k].data.socket;
            ch in queue.owners.Keys && ch.kind == TypeChannel && ch.state != StateConnecting
        {
          if k < i {
            assert old(events[k].data.socket.state) != StateConnecting;
          }
        }
      }
    }

    /** The loop of `process_events()`: every reported event in the order
        the poller gives them; a throw stops the loop. No task is added, no
        read task is consumed, write tasks leave only from the front of their
        FIFO and a socket only moves from Connecting to Connected. When the
        loop runs to the end, every writable event went to a channel that is
        no longer Connecting, and each readable listener added a callback. */
    method DispatchAll(net: Network) returns (r: Outcome<()>)
      requires Valid()
      modifies this`sendIovec, this`callbacks, queue.owners.Values, queue.owners.Keys
      ensures Valid() && unchanged(poller, queue)
      ensures forall p :: p in queue.owners ==>
        OwnerProgressed(old(OwnerState(queue.owners[p])), OwnerState(queue.owners[p]))
      ensures old(callbacks) <= callbacks
      ensures r.Done? ==> WritesHandled(poller.ready, |poller.ready|, queue.owners.Keys)
      ensures r.Done? && acceptHandler.Some? ==> |old(callbacks)| + AcceptEvents(poller.ready) <= |callbacks|
    {
      var events := poller.ready;
      var i := 0;
      ghost var start := |callbacks|;
      r := Done(());
      while i < |events|
        invariant 0 <= i <= |events|
        invariant Valid() && events == poller.ready && unchanged(poller, queue)
        invariant forall p :: p in queue.owners ==>
          OwnerProgressed(old(OwnerState(queue.owners[p])), OwnerState(queue.owners[p]))
        invariant old(callbacks) <= callbacks
        invariant r.Done? && WritesHandled(events, i, queue.owners.Keys)
        invariant acceptHandler.Some? ==> AcceptsLogged(events, i, start, |callbacks|)
      {
        assert Owned(events[i].data);
        label before:
        r := ProcessNext(events, i, net, start);
        forall p | p in queue.owners
          ensures OwnerProgressed(old(OwnerState(queue.owners[p])), OwnerState(queue.owners[p]))
        {
          ProgressedTransitive(old(OwnerState(queue.owners[p])), old@before(OwnerState(queue.owners[p])),
            OwnerState(queue.owners[p]));
        }
        if r.Aborted? {
          return;
        }
        i := i + 1;
      }
      assert events[..|events|] == events;
    }

    /** `process_events()`: the loop above. When it runs to the end, every
        writable event went to a channel that was neither Connecting nor
        Connected, or that ends Connected. */
    method ProcessEvents(net: Network) returns (r: Outcome<()>)
      requires Valid()
      modifies this`sendIovec, this`callbacks, queue.owners.Values, queue.owners.Keys
      ensures Valid() && unchanged(poller, queue)
      ensures forall p :: p in queue.owners ==>
        OwnerProgressed(old(OwnerState(queue.owners[p])), OwnerState(queue.owners[p]))
      ensures old(callbacks) <= callbacks
      ensures r.Done? ==> forall k :: 0 <= k < |poller.ready| && poller.ready[k].events & EventWrite != 0 ==>
        var ch := poller.ready[k].data.socket;
        ch.kind == TypeChannel && ch.state != StateConnecting &&
        (old(ch.state) in {StateConnecting, StateConnected} ==> ch.state == StateConnected)
      ensures r.Done? && acceptHandler.Some? ==> |old(callbacks)| + AcceptEvents(poller.ready) <= |callbacks|
    {
      r := DispatchAll(net);
      if r.Done? {
        var events := poller.ready;
        forall k | 0 <= k < |events| && events[k].events & EventWrite != 0
          ensures var ch := events[k].data.socket;
            ch.kind == TypeChannel && ch.state != StateConnecting &&
            (old(ch.state) in {StateConnecting, StateConnected} ==> ch.state == StateConnected)
        {
          var o := events[k].data;
          assert Owned(o) && queue.owners[o.socket] == o;
          assert OwnerProgressed(old(OwnerState(queue.owners[o.socket])), OwnerState(queue.owners[o.socket]));
        }
      }
    }

    /** `clear_timeout_task()`: not implemented in the source; it only logs. */
    method ClearTimeoutTask()
      ensures unchanged(this, poller, queue)
    {
    }

    /** `m_poller.wait(timeout)`: only the poller's script, reported events
        and last timeout change. */
    method WaitOnPoller(timeout: int32) returns (ret: int)
      requires Valid()
      modifies poller`script, poller`ready, poller`lastTimeout
      ensures Valid() && poller.lastTimeout == Some(timeout) && poller.table == old(poller.table)
      ensures ret == WaitResult(old(poller.script), old(poller.table))
      ensures forall p :: p in queue.owners ==> OwnerState(queue.owners[p]) == old(OwnerState(queue.owners[p]))
    {
      ret := poller.Wait(timeout);
    }

    /** The second half of `run_once`: one wait on the poller with the
        given timeout, then the reported events when there are any. */
    method WaitAndProcess(timeout: int32, needClearTimeout: bool, net: Network) returns (r: Outcome<int>)
      requires Valid()
      modifies poller`script, poller`ready, poller`lastTimeout, this`sendIovec, this`callbacks
      modifies queue.owners.Values, queue.owners.Keys
      ensures Valid() && unchanged(queue)
      ensures poller.lastTimeout == Some(timeout) && poller.table == old(poller.table)
      ensures r.Done? ==> r.value == WaitResult(old(poller.script), old(poller.table))
      ensures forall p :: p in queue.owners ==>
        OwnerProgressed(old(OwnerState(queue.owners[p])), OwnerState(queue.owners[p]))
      ensures WaitResult(old(poller.script), old(poller.table)) <= 0 ==>
        && r == Done(WaitResult(old(poller.script), old(poller.table)))
        && callbacks == old(callbacks)
        && (forall p :: p in queue.owners ==> OwnerState(queue.owners[p]) == old(OwnerState(queue.owners[p])))
      ensures WaitResult(old(poller.script), old(poller.table)) > 0 && r.Done? ==>
        && (forall k :: 0 <= k < |poller.ready| && poller.ready[k].events & EventWrite != 0 ==>
          var ch := poller.ready[k].data.socket;
          ch.kind == TypeChannel && ch.state != StateConnecting &&
          (old(ch.state) in {StateConnecting, StateConnected} ==> ch.state == StateConnected))
        && (acceptHandler.Some? ==> |old(callbacks)| + AcceptEvents(poller.ready) <= |callbacks|)
    {
      var ret := WaitOnPoller(timeout);
      label waited:
      r := Done(ret);
      if ret > 0 {
        var o := ProcessEvents(net);
        forall p | p in queue.owners
          ensures OwnerProgressed(old(OwnerState(queue.owners[p])), OwnerState(queue.owners[p]))
        {
          assert old@waited(OwnerState(queue.owners[p])) == old(OwnerState(queue.owners[p]));
        }
        if o.Done? {
          forall k | 0 <= k < |poller.ready| && poller.ready[k].events & EventWrite != 0
            ensures var ch := poller.ready[k].data.socket; old(ch.state) == old@waited(ch.state)
          {
            var p := poller.ready[k].data.socket;
            assert p in queue.owners && queue.owners[p].socket == p;
            assert old@waited(OwnerState(queue.owners[p])) == old(OwnerState(queue.owners[p]));
          }
        }
        if o.Aborted? {
          r := Aborted(o.reason);
        } else if needClearTimeout {
          ClearTimeoutTask();
        }
      } else if ret == 0 {
        ClearTimeoutTask();
      }
    }

    /** `run_once(now)`: idle when no task was ever pushed; otherwise waits
        until the earliest deadline (never less than zero ms) and processes
        the reported events. The result is what the wait returned. */
    method RunOnce(now: int, net: Network) returns (r: Outcome<int>)
      requires Valid()
      modifies this, poller, queue, queue.owners.Values, queue.owners.Keys
      ensures Valid() && queue.owners == old(queue.owners)
      ensures queue.timeouts == old(queue.timeouts) && queue.nextId == old(queue.nextId)
      ensures acceptHandler == old(acceptHandler) && connectHandler == old(connectHandler)
      ensures sendHandler == old(sendHandler) && calls == old(calls)
      ensures forall p :: p in queue.owners ==>
        OwnerProgressed(old(OwnerState(queue.owners[p])), OwnerState(queue.owners[p]))
      ensures old(queue.timeouts) == [] ==>
        r == Done(0) && unchanged(poller) && unchanged(this)
      ensures old(queue.timeouts) != [] ==>
        && poller.lastTimeout == Some(WaitTimeout(old(queue.timeouts)[0].expire, now))
        && poller.table == old(poller.table)
        && (r.Done? ==> r.value == WaitResult(old(poller.script), old(poller.table)))
      ensures old(queue.timeouts) != [] && WaitResult(old(poller.script), old(poller.table)) <= 0 ==>
        && r == Done(WaitResult(old(poller.script), old(poller.table)))
        && callbacks == old(callbacks)
        && (forall p :: p in queue.owners ==> OwnerState(queue.owners[p]) == old(OwnerState(queue.owners[p])))
    {
      if queue.Empty() {
        return Done(0);
      }
      var front := queue.GetFrontTimeout();
      var needClearTimeout := RawWaitTimeout(front.value.expire, now) < 0;
      var timeout := WaitTimeout(front.value.expire, now);
      r := WaitAndProcess(timeout, needClearTimeout, net);
    }
  }
}
