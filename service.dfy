/** `RPC_Service`: the application posts intents (accept on a listener,
    receive or send on a channel, add a socket) to a FIFO; `run_once` drains
    the FIFO into the proactor in order and then runs one proactor step. The
    clock is the `now` parameter, and the outcome of opening a socket (the OS
    calls behind `open`) is a parameter too. */
module Service {
  import opened Wrappers
  import opened CArith
  import opened RpcSocket
  import opened RpcMessage
  import opened TaskTimeoutQueue
  import opened Poller
  import opened Proactor

  const TaskAsyncAccept: int := 1
  const TaskAsyncWrite: int := 2
  const TaskAsyncRead: int := 3
  const TaskAsyncAdd: int := 4   // register a channel or listener with the proactor

  /** A posted intent. */
  datatype AsyncTask = AsyncTask(
    taskType: int,
    channel: SocketObject?,
    listener: SocketObject?,
    message: Message,
    expireTime: int)

  /** `AsyncTask()` */
  function DefaultAsyncTask(): (t: AsyncTask)
    ensures t.taskType == 0 && t.channel == null && t.listener == null
    ensures t.message.buffers == null && t.expireTime == MaxExpireTime
  {
    AsyncTask(0, null, null, Message(null), MaxExpireTime)
  }

  /** `AsyncTask(type, ch)`: a channel task that never expires. */
  function ChannelTask(taskType: int, ch: SocketObject?): (t: AsyncTask)
    ensures t.taskType == taskType && t.channel == ch && t.listener == null
    ensures t.message.buffers == null && t.expireTime == MaxExpireTime
  {
    AsyncTask(taskType, ch, null, Message(null), MaxExpireTime)
  }

  /** `timeout * 1000` on `int`: the product wraps at 32 bits before it is
      widened and added to the 64-bit clock. */
  function TimeoutMicros(timeout: int32): int32 {
    Int32Wrap(timeout * 1000)
  }

  /** The deadline of `post_accept` and `open_channel`: a negative timeout
      never expires, any other is that many milliseconds from now. */
  function ConnectDeadline(now: int, timeout: int32): int {
    if timeout < 0 then MaxExpireTime else now + TimeoutMicros(timeout)
  }

  /** The deadline of `post_receive`: only a positive timeout expires. */
  function ReceiveDeadline(now: int, timeout: int32): int {
    if timeout > 0 then now + TimeoutMicros(timeout) else MaxExpireTime
  }

  /** The two deadline rules agree except at zero, which is "now" for an
      accept or a connect and "never" for a receive. */
  lemma DeadlinesDifferOnlyAtZero(now: int, timeout: int32)
    ensures ConnectDeadline(now, timeout) != ReceiveDeadline(now, timeout) <==>
      timeout == 0 && now != MaxExpireTime
    ensures ConnectDeadline(now, 0) == now && ReceiveDeadline(now, 0) == MaxExpireTime
  {
    assert TimeoutMicros(0) == 0;
  }

  /** While the product fits an `int` (timeouts up to 2147483 ms), the
      deadline is exactly `timeout` milliseconds, in microseconds, after now. */
  lemma DeadlineInRange(now: int, timeout: int32)
    requires 0 <= timeout <= 2147483
    ensures ConnectDeadline(now, timeout) == now + timeout * 1000
    ensures timeout > 0 ==> ReceiveDeadline(now, timeout) == now + timeout * 1000
  {
  }

  /** A timeout of 2147484 ms (under 36 minutes) overflows the product and
      gives a deadline in the past. */
  lemma LongTimeoutWrapsIntoThePast(now: int)
    ensures ConnectDeadline(now, 2147484) < now
    ensures ReceiveDeadline(now, 2147484) == now - 2147483296
  {
    assert 2147484 * 1000 == 2147484000;
    assert Int32Wrap(2147484000) == -2147483296;
  }

  /** The proactor requests one posted intent turns into. */
  function Dispatch(t: AsyncTask): (calls: seq<ProactorCall>)
    ensures |calls| <= 2
  {
    if t.taskType == TaskAsyncAccept then [AddReadCall(t.listener, t.message, t.expireTime)]
    else if t.taskType == TaskAsyncRead then [AddReadCall(t.channel, t.message, t.expireTime)]
    else if t.taskType == TaskAsyncWrite then [AddWriteCall(t.channel, t.message, t.expireTime)]
    else if t.taskType == TaskAsyncAdd then
      (if t.channel != null then [RegCall(t.channel)] else [])
        + (if t.listener != null then [RegCall(t.listener)] else [])
    else []
  }

  /** The requests a whole FIFO turns into, in order. */
  function Plan(ts: seq<AsyncTask>): seq<ProactorCall>
    decreases |ts|
  {
    if ts == [] then [] else Dispatch(ts[0]) + Plan(ts[1..])
  }

  lemma {:induction false} PlanAppend(a: seq<AsyncTask>, b: seq<AsyncTask>)
    ensures Plan(a + b) == Plan(a) + Plan(b)
    decreases |a|
  {
    if a == [] {
      assert a + b == b;
    } else {
      assert (a + b)[1..] == a[1..] + b;
      PlanAppend(a[1..], b);
    }
  }

  /** Moving the head of the pending FIFO to the dispatched part keeps
      their concatenation and extends the plan by that task's requests. */
  lemma PlanStep(log: seq<ProactorCall>, done: seq<AsyncTask>, pending: seq<AsyncTask>)
    requires pending != []
    ensures done + pending == (done + [pending[0]]) + pending[1..]
    ensures log + Plan(done + [pending[0]]) == log + Plan(done) + Dispatch(pending[0])
  {
    var t := pending[0];
    calc {
      (done + [t]) + pending[1..];
      done + ([t] + pending[1..]);
      { assert [t] + pending[1..] == pending; }
      done + pending;
    }
    calc {
      log + Plan(done + [t]);
      { PlanAppend(done, [t]); }
      log + (Plan(done) + Plan([t]));
      { PlanSingleton(t); }
      log + (Plan(done) + Dispatch(t));
      log + Plan(done) + Dispatch(t);
    }
  }

  lemma PlanSingleton(t: AsyncTask)
    ensures Plan([t]) == Dispatch(t)
  {
    assert [t][1..] == [];
  }

  /** A default task, and any task of an unknown type, asks nothing of the proactor. */
  lemma UnknownTasksAreSkipped(t: AsyncTask)
    requires t.taskType !in {TaskAsyncAccept, TaskAsyncRead, TaskAsyncWrite, TaskAsyncAdd}
    ensures Dispatch(t) == [] && Dispatch(DefaultAsyncTask()) == []
  {
  }

  /** The two tasks `open_channel` posts register the channel before its
      probing write reaches the proactor. */
  lemma OpenChannelRegistersBeforeWriting(ch: SocketObject, now: int, timeout: int32, before: seq<AsyncTask>)
    ensures var w := AsyncTask(TaskAsyncWrite, ch, null, Message(null), ConnectDeadline(now, timeout));
      Plan(before + [ChannelTask(TaskAsyncAdd, ch), w]) ==
        Plan(before) + [RegCall(ch), AddWriteCall(ch, Message(null), ConnectDeadline(now, timeout))]
  {
    var add := ChannelTask(TaskAsyncAdd, ch);
    var w := AsyncTask(TaskAsyncWrite, ch, null, Message(null), ConnectDeadline(now, timeout));
    PlanAppend(before, [add, w]);
    assert [add, w][1..] == [w];
    assert [w][1..] == [];
    assert Plan([w]) == Dispatch(w);
    assert Plan([add, w]) == Dispatch(add) + Dispatch(w);
  }

  /** The sockets one task names. */
  function SocketsOf(t: AsyncTask): set<SocketObject> {
    (if t.channel != null then {t.channel} else {}) + (if t.listener != null then {t.listener} else {})
  }

  lemma TaskSocketsOfMember(t: AsyncTask, ts: seq<AsyncTask>)
    requires t in ts
    ensures SocketsOf(t) <= TaskSockets(ts)
  {
  }

  /** Every socket a FIFO of tasks names. */
  ghost function TaskSockets(ts: seq<AsyncTask>): set<SocketObject> {
    (set t | t in ts && t.channel != null :: t.channel)
      + (set t | t in ts && t.listener != null :: t.listener)
  }

  class RpcService {
    const proactor: RpcProactor
    var asyncQueue: seq<AsyncTask>
    var acceptHandler: Option<AcceptHandler>

    /** The proactor's invariant: every registered descriptor and every
        reported event carries the owner the queue keeps for its socket. */
    ghost predicate Valid()
      reads proactor.poller, proactor.queue
    {
      proactor.Valid()
    }

    /** The proactor's accept handler forwards to the service's (calling it
        while unset throws); the service never sets a connect or send handler. */
    ghost predicate Forwarding()
      reads this`acceptHandler, proactor`acceptHandler, proactor`connectHandler, proactor`sendHandler
    {
      && proactor.acceptHandler == acceptHandler
      && proactor.connectHandler.None? && proactor.sendHandler.None?
    }

    constructor (script: seq<WaitStep>)
      ensures Valid() && Forwarding() && fresh(proactor) && fresh(proactor.poller) && fresh(proactor.queue)
      ensures asyncQueue == [] && acceptHandler == None
      ensures proactor.queue.owners == map[] && proactor.queue.timeouts == []
      ensures proactor.poller.table == map[] && proactor.poller.script == script
      ensures proactor.calls == [] && proactor.callbacks == []
    {
      proactor := new RpcProactor(script);
      asyncQueue := [];
      acceptHandler := None;
    }

    /** `set_accept_handler(h)` */
    method SetAcceptHandler(h: AcceptHandler)
      requires Valid() && Forwarding()
      modifies this`acceptHandler, proactor`acceptHandler
      ensures Valid() && Forwarding() && acceptHandler == Some(h)
    {
      acceptHandler := Some(h);
      proactor.SetAcceptHandler(h);
    }

    /** `post_accept(listener, timeout)`: always succeeds. */
    method PostAccept(listener: SocketObject?, timeout: int32, now: int) returns (ok: bool)
      modifies this`asyncQueue
      ensures ok
      ensures asyncQueue == old(asyncQueue) +
        [AsyncTask(TaskAsyncAccept, null, listener, Message(null), ConnectDeadline(now, timeout))]
    {
      var task := DefaultAsyncTask();
      task := task.(taskType := TaskAsyncAccept, listener := listener);
      if timeout < 0 {
        task := task.(expireTime := MaxExpireTime);
      } else {
        task := task.(expireTime := now + TimeoutMicros(timeout));
      }
      asyncQueue := asyncQueue + [task];
      ok := true;
    }

    /** `open_channel(endpoint, timeout)`: a new channel whose opening
        (`openOk`, leaving it with `handle` and `state`) is the OS's doing.
        On failure nothing is posted; on success an Add task and then a
        probing Write task for that channel. */
    method OpenChannel(handle: int, openOk: bool, state: int, timeout: int32, now: int)
      returns (ok: bool, ch: SocketObject)
      modifies this`asyncQueue
      ensures fresh(ch) && ch.kind == TypeChannel && ch.handle == handle && ch.state == state
      ensures ok == openOk
      ensures !ok ==> asyncQueue == old(asyncQueue)
      ensures ok ==> (asyncQueue == old(asyncQueue) +
        [ChannelTask(TaskAsyncAdd, ch),
         AsyncTask(TaskAsyncWrite, ch, null, Message(null), ConnectDeadline(now, timeout))])
    {
      ch := new SocketObject(TypeChannel, handle, state);
      if !openOk {
        return false, ch;
      }
      var task := ChannelTask(TaskAsyncWrite, ch);
      if timeout < 0 {
        task := task.(expireTime := MaxExpireTime);
      } else {
        task := task.(expireTime := now + TimeoutMicros(timeout));
      }
      asyncQueue := asyncQueue + [ChannelTask(TaskAsyncAdd, ch)];
      asyncQueue := asyncQueue + [task];
      ok := true;
    }

    /** `add_channel(channel)`: always succeeds. */
    method AddChannel(ch: SocketObject) returns (ok: bool)
      modifies this`asyncQueue
      ensures ok && asyncQueue == old(asyncQueue) + [ChannelTask(TaskAsyncAdd, ch)]
    {
      asyncQueue := asyncQueue + [ChannelTask(TaskAsyncAdd, ch)];
      ok := true;
    }

    /** `post_receive(channel, msg, timeout)`: always succeeds. */
    method PostReceive(ch: SocketObject, msg: Message, timeout: int32, now: int) returns (ok: bool)
      modifies this`asyncQueue
      ensures ok
      ensures asyncQueue == old(asyncQueue) + [AsyncTask(TaskAsyncRead, ch, null, msg, ReceiveDeadline(now, timeout))]
    {
      var exp := MaxExpireTime;
      if timeout > 0 {
        exp := now + TimeoutMicros(timeout);
      }
      asyncQueue := asyncQueue + [AsyncTask(TaskAsyncRead, ch, null, msg, exp)];
      ok := true;
    }

    /** `open_listener(endpoint)`: a new listener, registered with the
        proactor at once; null when opening or registration fails. */
    method OpenListener(handle: int, openOk: bool) returns (l: SocketObject?, ghost s: SocketObject)
      requires Valid()
      modifies proactor`calls, proactor.queue, proactor.poller`table
      ensures Valid() && proactor.callbacks == old(proactor.callbacks)
      ensures old(Forwarding()) ==> Forwarding()
      ensures forall o :: o in proactor.queue.owners.Values ==> o in old(proactor.queue.owners.Values) || fresh(o)
      ensures proactor.queue.owners.Keys <= old(proactor.queue.owners.Keys) + {s}
      ensures fresh(s) && s.kind == TypeListener && s.handle == handle
      ensures !openOk ==>
        l == null && proactor.calls == old(proactor.calls) && unchanged(proactor.queue, proactor.poller)
      ensures openOk ==>
        && proactor.calls == old(proactor.calls) + [RegCall(s)]
        && s in proactor.queue.owners
        && (l != null <==> handle !in old(proactor.poller.table))
        && (l != null ==>
              l == s && handle in proactor.poller.table
              && proactor.poller.table[handle] == Registration(EventNone, proactor.queue.owners[s]))
    {
      var listener := new SocketObject(TypeListener, handle, 0);
      s := listener;
      if !openOk {
        return null, s;
      }
      var isok := proactor.Reg(listener);
      if !isok {
        return null, s;
      }
      l := listener;
    }

    /** One iteration of the draining loop: Accept and Read tasks become
        `add_read` on the listener or channel, Write tasks `add_write`, Add
        tasks register the channel and then the listener, whichever is not
        null; other types are skipped. Aborted when `add_read` or
        `add_write` finds no owner for the socket. */
    method DispatchTask(task: AsyncTask) returns (r: Outcome<()>)
      requires Valid()
      modifies proactor`calls, proactor.queue, proactor.poller`table, proactor.queue.owners.Values
      ensures Valid()
      ensures proactor.calls == old(proactor.calls) + Dispatch(task)
      ensures r.Aborted? ==> task.taskType in {TaskAsyncAccept, TaskAsyncRead, TaskAsyncWrite}
      ensures proactor.queue.owners.Keys <= old(proactor.queue.owners.Keys) + SocketsOf(task)
      ensures task.taskType != TaskAsyncAdd ==> proactor.queue.owners.Keys == old(proactor.queue.owners.Keys)
      ensures forall o :: o in proactor.queue.owners.Values ==> o in old(proactor.queue.owners.Values) || fresh(o)
    {
      r := Done(());
      if task.taskType == TaskAsyncAccept {
        var o := proactor.AddRead(task.listener, task.message, task.expireTime);
        if o.Aborted? {
          r := Aborted(o.reason);
        }
      } else if task.taskType == TaskAsyncRead {
        var o := proactor.AddRead(task.channel, task.message, task.expireTime);
        if o.Aborted? {
          r := Aborted(o.reason);
        }
      } else if task.taskType == TaskAsyncWrite {
        var o := proactor.AddWrite(task.channel, task.message, task.expireTime);
        if o.Aborted? {
          r := Aborted(o.reason);
        }
      } else if task.taskType == TaskAsyncAdd {
        RegisterSockets(task.channel, task.listener);
      }
    }

    /** The Add branch: registers the channel, then the listener, skipping null ones. */
    method RegisterSockets(ch: SocketObject?, listener: SocketObject?)
      requires Valid()
      modifies proactor`calls, proactor.queue, proactor.poller`table
      ensures Valid()
      ensures proactor.calls == old(proactor.calls)
        + (if ch != null then [RegCall(ch)] else []) + (if listener != null then [RegCall(listener)] else [])
      ensures proactor.queue.owners.Keys == old(proactor.queue.owners.Keys)
        + (if ch != null then {ch} else {}) + (if listener != null then {listener} else {})
      ensures forall o :: o in proactor.queue.owners.Values ==> o in old(proactor.queue.owners.Values) || fresh(o)
    {
      ghost var calls0, keys0 := proactor.calls, proactor.queue.owners.Keys;
      if ch != null {
        var _ := proactor.Reg(ch);
      }
      ghost var calls1, keys1 := proactor.calls, proactor.queue.owners.Keys;
      assert calls1 == calls0 + (if ch != null then [RegCall(ch)] else []);
      assert keys1 == keys0 + (if ch != null then {ch} else {});
      if listener != null {
        var _ := proactor.Reg(listener);
      }
      assert proactor.calls == calls1 + (if listener != null then [RegCall(listener)] else []);
      assert proactor.queue.owners.Keys == keys1 + (if listener != null then {listener} else {});
    }

    /** The draining loop of `run_once`: every posted task, oldest first,
        becomes its proactor requests; a failed assertion in `add_read` or
        `add_write` stops it with that task still at the head of the FIFO.
        `done` is the part of the FIFO that was dispatched. */
    method DrainTasks() returns (r: Outcome<()>, ghost done: seq<AsyncTask>)
      requires Valid()
      modifies this`asyncQueue, proactor`calls, proactor.queue, proactor.poller`table, proactor.queue.owners.Values
      ensures Valid()
      ensures old(asyncQueue) == done + asyncQueue
      ensures r.Done? ==> asyncQueue == [] && proactor.calls == old(proactor.calls) + Plan(done)
      ensures r.Aborted? ==>
        asyncQueue != [] && proactor.calls == old(proactor.calls) + Plan(done) + Dispatch(asyncQueue[0])
      ensures old(asyncQueue) == [] ==> r.Done? && proactor.queue.timeouts == old(proactor.queue.timeouts)
      ensures proactor.queue.owners.Keys <= old(proactor.queue.owners.Keys) + TaskSockets(old(asyncQueue))
      ensures forall o :: o in proactor.queue.owners.Values ==> o in old(proactor.queue.owners.Values) || fresh(o)
    {
      done := [];
      r := Done(());
      while asyncQueue != []
        invariant r.Done? && Valid()
        invariant old(asyncQueue) == done + asyncQueue
        invariant proactor.calls == old(proactor.calls) + Plan(done)
        invariant done == [] ==> proactor.queue.timeouts == old(proactor.queue.timeouts)
        invariant proactor.queue.owners.Keys <= old(proactor.queue.owners.Keys) + TaskSockets(old(asyncQueue))
        invariant forall o :: o in proactor.queue.owners.Values ==> o in old(proactor.queue.owners.Values) || fresh(o)
      {
        var task := asyncQueue[0];
        TaskSocketsOfMember(task, old(asyncQueue));
        r := DispatchTask(task);
        if r.Aborted? {
          assert old(asyncQueue) != [] by {
            assert old(asyncQueue)[|done|] == task;
          }
          return;
        }
        PlanStep(old(proactor.calls), done, asyncQueue);
        asyncQueue := asyncQueue[1..];
        done := done + [task];
      }
      assert done + [] == done;
    }

    /** `run_once()`: drains the FIFO, then runs one proactor step and
        returns its result. */
    method RunOnce(now: int, net: Network) returns (r: Outcome<int>)
      requires Valid() && Forwarding()
      modifies this`asyncQueue, proactor, proactor.poller, proactor.queue
      modifies proactor.queue.owners.Values, proactor.queue.owners.Keys, TaskSockets(asyncQueue)
      ensures Valid() && Forwarding()
      ensures r.Done? ==> asyncQueue == [] && proactor.calls == old(proactor.calls) + Plan(old(asyncQueue))
      ensures old(asyncQueue) == [] && old(proactor.queue.timeouts) == [] ==> r == Done(0)
      ensures r.Done? && proactor.queue.timeouts == [] ==> r == Done(0)
      ensures r.Done? && proactor.queue.timeouts != [] ==>
        && proactor.poller.lastTimeout == Some(WaitTimeout(proactor.queue.timeouts[0].expire, now))
        && r.value == WaitResult(old(proactor.poller.script), proactor.poller.table)
    {
      var drained, done := DrainTasks();
      assert Forwarding();
      if drained.Aborted? {
        r := Aborted(drained.reason);
      } else {
        assert done == old(asyncQueue) by {
          assert done + [] == done;
        }
        ghost var drainedCalls := proactor.calls;
        assert proactor.poller.script == old(proactor.poller.script);
        r := proactor.RunOnce(now, net);
        assert proactor.calls == drainedCalls && Forwarding();
      }
    }
  }
}
