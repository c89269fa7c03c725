/** `RPC_TaskTimeoutQueue`: an owner per registered socket holding two FIFOs
    of pending tasks, and one multimap of all pushed tasks keyed by deadline. */
module TaskTimeoutQueue {
  import opened Wrappers
  import opened RpcSocket
  import opened RpcMessage

  /** Stands for a `Task *`: the identity of a task once it is queued. */
  type TaskId = nat

  datatype Task = Task(id: TaskId, owner: TaskOwner, taskType: int, expireTime: int, message: Message)

  /** One entry of the deadline multimap: a key and the task it points to. */
  datatype TimeoutEntry = TimeoutEntry(expire: int, task: TaskId)

  predicate SortedByExpire(s: seq<TimeoutEntry>) {
    forall i, j :: 0 <= i < j < |s| ==> s[i].expire <= s[j].expire
  }

  /** The number of leading entries whose key does not exceed `key`: where a
      multimap places a new entry with that key (after its equals). */
  function UpperBound(s: seq<TimeoutEntry>, key: int): (k: nat)
    requires SortedByExpire(s)
    ensures k <= |s|
    ensures forall i :: 0 <= i < k ==> s[i].expire <= key
    ensures forall i :: k <= i < |s| ==> s[i].expire > key
    decreases |s|
  {
    if s == [] || s[0].expire > key then 0 else 1 + UpperBound(s[1..], key)
  }

  /** `std::multimap::insert`: the new entry goes after every entry with a
      key not greater than its own. */
  function InsertTimeout(s: seq<TimeoutEntry>, e: TimeoutEntry): (r: seq<TimeoutEntry>)
    requires SortedByExpire(s)
    ensures SortedByExpire(r)
    ensures multiset(r) == multiset(s) + multiset{e}
  {
    var k := UpperBound(s, e.expire);
    SplitInsert(s, k, e);
    s[..k] + [e] + s[k..]
  }

  /** Placing `e` between a prefix of keys not above its own and a suffix
      of greater keys keeps the order and adds exactly `e`. */
  lemma SplitInsert(s: seq<TimeoutEntry>, k: nat, e: TimeoutEntry)
    requires SortedByExpire(s) && k <= |s|
    requires forall i :: 0 <= i < k ==> s[i].expire <= e.expire
    requires forall i :: k <= i < |s| ==> s[i].expire > e.expire
    ensures SortedByExpire(s[..k] + [e] + s[k..])
    ensures multiset(s[..k] + [e] + s[k..]) == multiset(s) + multiset{e}
  {
    var r := s[..k] + [e] + s[k..];
    assert s == s[..k] + s[k..];
    var key := seq(|r|, i requires 0 <= i < |r| => if i < k then s[i].expire else if i == k then e.expire else s[i - 1].expire);
    forall i | 0 <= i < |r| ensures r[i].expire == key[i] {
    }
    forall i, j | 0 <= i < j < |r| ensures key[i] <= key[j] {
    }
  }

  /** A per-socket record: the socket and its two FIFOs of pending tasks. */
  class TaskOwner {
    const socket: SocketObject
    var readQueue: seq<Task>
    var writeQueue: seq<Task>

    constructor (p: SocketObject)
      ensures socket == p && readQueue == [] && writeQueue == []
    {
      socket := p;
      readQueue, writeQueue := [], [];
    }

    /** The FIFO a task type selects. */
    function Queue(taskType: int): seq<Task>
      requires taskType == Read || taskType == Write
      reads this
    {
      if taskType == Read then readQueue else writeQueue
    }

    /** `get_front_task(type)`: the oldest queued task of that type, left in
        place; none for an empty FIFO or a type other than Read and Write. */
    function FrontTask(taskType: int): (r: Option<Task>)
      reads this
      ensures r.Some? <==> (taskType == Read || taskType == Write) && Queue(taskType) != []
      ensures r.Some? ==> r.value == Queue(taskType)[0]
    {
      if taskType == Read then (if readQueue == [] then None else Some(readQueue[0]))
      else if taskType == Write then (if writeQueue == [] then None else Some(writeQueue[0]))
      else None
    }

    /** `pop_front_task(type)`: drops the front of that FIFO, if any. A type
        other than Read and Write dereferences a null queue, so callers must
        not pass one. */
    method PopFrontTask(taskType: int)
      requires taskType == Read || taskType == Write
      modifies this
      ensures Queue(taskType) == if old(Queue(taskType)) == [] then [] else old(Queue(taskType))[1..]
      ensures taskType == Read ==> writeQueue == old(writeQueue)
      ensures taskType == Write ==> readQueue == old(readQueue)
    {
      if taskType == Read {
        if readQueue != [] {
          readQueue := readQueue[1..];
        }
      } else {
        if writeQueue != [] {
          writeQueue := writeQueue[1..];
        }
      }
    }

    /** `TaskOwner::push_task(task)`: appends to the FIFO of the task's type
        and returns it; a task of any other type is refused. */
    method PushTask(task: Task) returns (r: Option<Task>)
      modifies this
      ensures r == if task.taskType == Read || task.taskType == Write then Some(task) else None
      ensures task.taskType == Read ==> readQueue == old(readQueue) + [task] && writeQueue == old(writeQueue)
      ensures task.taskType == Write ==> writeQueue == old(writeQueue) + [task] && readQueue == old(readQueue)
      ensures r.None? ==> unchanged(this)
    {
      if task.taskType == Read {
        readQueue := readQueue + [task];
        r := Some(task);
      } else if task.taskType == Write {
        writeQueue := writeQueue + [task];
        r := Some(task);
      } else {
        r := None;
      }
    }
  }

  /** The queue: the owner table and the deadline multimap. `nextId` hands out
      task identities; it is not a field of the C++ class. */
  class TimeoutQueue {
    var owners: map<SocketObject, TaskOwner>
    var timeouts: seq<TimeoutEntry>
    var nextId: TaskId

    ghost predicate Valid()
      reads this
    {
      && (forall p :: p in owners ==> owners[p].socket == p)
      && SortedByExpire(timeouts)
      && (forall i :: 0 <= i < |timeouts| ==> timeouts[i].task < nextId)
    }

    constructor ()
      ensures Valid() && owners == map[] && timeouts == [] && nextId == 0
    {
      owners, timeouts, nextId := map[], [], 0;
    }

    /** `empty()`: defined on the deadline multimap, not on the FIFOs. */
    function Empty(): (r: bool)
      reads this
      ensures r <==> |timeouts| == 0
    {
      timeouts == []
    }

    /** `add_owner(p)`: the existing owner of `p`, or a new empty one entered
        in the table. A second call for the same socket changes nothing. */
    method AddOwner(p: SocketObject) returns (o: TaskOwner)
      requires Valid()
      modifies this
      ensures Valid() && timeouts == old(timeouts) && nextId == old(nextId)
      ensures p in owners && o == owners[p] && o.socket == p
      ensures p in old(owners) ==> owners == old(owners)
      ensures p !in old(owners) ==>
        fresh(o) && owners == old(owners)[p := o] && o.readQueue == [] && o.writeQueue == []
    {
      if p in owners {
        o := owners[p];
      } else {
        o := new TaskOwner(p);
        owners := owners[p := o];
      }
    }

    /** `find_owner(p)`: the registered owner, or null when `p` was never added. */
    function FindOwner(p: SocketObject?): (o: TaskOwner?)
      reads this
      ensures o != null <==> p != null && p in owners
      ensures o != null ==> o == owners[p]
    {
      if p != null && p in owners then owners[p] else null
    }

    /** `push_task(owner, type, msg, expire)`: a Read or Write task goes to the
        end of that FIFO of `owner`, and exactly one (expire, task) entry joins
        the multimap; any other type yields nothing and changes nothing. */
    method PushTask(owner: TaskOwner, taskType: int, msg: Message, expire: int) returns (r: Option<Task>)
      requires Valid()
      modifies this, owner
      ensures Valid() && owners == old(owners)
      ensures taskType == Read || taskType == Write ==>
        && r == Some(Task(old(nextId), owner, taskType, expire, msg))
        && owner.Queue(taskType) == old(owner.Queue(taskType)) + [r.value]
        && (taskType == Read ==> owner.writeQueue == old(owner.writeQueue))
        && (taskType == Write ==> owner.readQueue == old(owner.readQueue))
        && timeouts == InsertTimeout(old(timeouts), TimeoutEntry(expire, old(nextId)))
        && nextId == old(nextId) + 1
      ensures taskType != Read && taskType != Write ==>
        r == None && unchanged(owner) && timeouts == old(timeouts) && nextId == old(nextId)
    {
      var task := Task(nextId, owner, taskType, expire, msg);
      r := owner.PushTask(task);
      if r.None? {
        return;
      }
      timeouts := InsertTimeout(timeouts, TimeoutEntry(expire, nextId));
      nextId := nextId + 1;
    }

    /** `get_front_timeout()`: an entry with the smallest deadline (the first
        inserted among equals), or none when the multimap is empty. */
    function GetFrontTimeout(): (r: Option<TimeoutEntry>)
      requires Valid()
      reads this
      ensures r.None? <==> timeouts == []
      ensures r.Some? ==> r.value in timeouts
      ensures r.Some? ==> forall i :: 0 <= i < |timeouts| ==> r.value.expire <= timeouts[i].expire
    {
      if timeouts == [] then None else Some(timeouts[0])
    }

    /** `pop_front_timeout()`: not implemented in the source; it always throws. */
    method PopFrontTimeout() returns (r: Outcome<()>)
      ensures r.Aborted?
    {
      r := Aborted("RPC_TaskTimeoutQueue::pop_front_timeout not impl");
    }
  }

  /** Once a task has been pushed, the multimap is non-empty; with popping
      never touching it, `empty()` stays false from then on. */
  lemma PushedQueueNeverEmpty(s: seq<TimeoutEntry>, e: TimeoutEntry)
    requires SortedByExpire(s)
    ensures |InsertTimeout(s, e)| > 0
  {
    assert e in multiset(InsertTimeout(s, e));
  }

  /** Entries with equal deadlines come out of the multimap in insertion
      order: the new entry follows every existing one with the same key. */
  lemma InsertAfterEqualKeys(s: seq<TimeoutEntry>, e: TimeoutEntry, i: nat)
    requires SortedByExpire(s) && i < |s| && s[i].expire == e.expire
    ensures var r := InsertTimeout(s, e);
      var k := UpperBound(s, e.expire);
      i < k && r[i] == s[i] && r[k] == e
  {
  }
}
