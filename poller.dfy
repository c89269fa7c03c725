/** A stand-in for the readiness multiplexer the proactor is parameterised
    with: a registration table (descriptor to interest mask and tag) and a
    script of what successive waits report. It behaves as epoll does for an
    add of a registered descriptor (refused) and a change of an unregistered
    one (refused), and reports only events within the registered interest,
    together with error and hang-up, which epoll reports whatever the
    interest. */
module Poller {
  import opened Wrappers
  import opened TaskTimeoutQueue

  const EventNone: bv32 := 0
  /** EPOLLIN */
  const EventRead: bv32 := 1
  /** EPOLLOUT: the engine uses `Event_Write`, which the poller does not define. */
  const EventWrite: bv32 := 4
  /** EPOLLERR */
  const EventError: bv32 := 8
  /** EPOLLHUP */
  const EventHangUp: bv32 := 0x10

  /** The events a wait may report for an interest mask: epoll adds error
      and hang-up to any interest. */
  function Reported(interest: bv32): bv32 {
    interest | EventError | EventHangUp
  }

  datatype Registration = Registration(events: bv32, tag: TaskOwner)

  /** A reported event: the descriptor, the ready events and the registered tag. */
  datatype Event = Event(fd: int, events: bv32, data: TaskOwner)

  /** Readiness of one descriptor, as the script states it. */
  datatype Readiness = Readiness(fd: int, events: bv32)

  /** What one wait reports: some readiness, or a failure of the wait itself. */
  datatype WaitStep = Fired(ready: seq<Readiness>) | WaitFails

  /** The events a wait reports for `ready` against the table: registered
      descriptors only, each with its ready events cut down to its interest
      plus error and hang-up. */
  function Deliver(ready: seq<Readiness>, table: map<int, Registration>): (r: seq<Event>)
    ensures |r| <= |ready|
    ensures forall k :: 0 <= k < |r| ==> Reportable(r[k], table)
    decreases |ready|
  {
    if ready == [] then []
    else
      var rest := Deliver(ready[1..], table);
      var x := ready[0];
      if x.fd in table && x.events & Reported(table[x.fd].events) != 0 then
        var e := Event(x.fd, x.events & Reported(table[x.fd].events), table[x.fd].tag);
        MaskIdempotent(x.events, Reported(table[x.fd].events));
        [e] + rest
      else rest
  }

  /** An event a wait may report: for a registered descriptor, with its
      registered tag, and with some bits, all of them registered interest,
      error or hang-up. */
  predicate Reportable(e: Event, table: map<int, Registration>) {
    && e.fd in table && e.data == table[e.fd].tag
    && e.events != 0 && e.events & Reported(table[e.fd].events) == e.events
  }

  /** A registered descriptor that hangs up is reported even with no
      interest at all, as a socket is right after registration. */
  lemma HangUpReportedWithoutInterest(fd: int, tag: TaskOwner, table: map<int, Registration>)
    requires fd in table && table[fd] == Registration(EventNone, tag)
    ensures Deliver([Readiness(fd, EventHangUp)], table) == [Event(fd, EventHangUp, tag)]
  {
    assert Deliver([Readiness(fd, EventHangUp)][1..], table) == [];
  }

  /** Cutting a mask down to an interest a second time changes nothing. */
  lemma MaskIdempotent(a: bv32, b: bv32)
    ensures (a & b) & b == a & b
  {
  }

  class FakePoller {
    var table: map<int, Registration>
    var script: seq<WaitStep>
    var ready: seq<Event>
    var lastTimeout: Option<int>

    constructor (script: seq<WaitStep>)
      ensures table == map[] && this.script == script && ready == [] && lastTimeout == None
    {
      table := map[];
      this.script := script;
      ready := [];
      lastTimeout := None;
    }

    /** Registers `fd` with an interest mask and a tag; refused when `fd` is
        already registered. */
    method Add(fd: int, events: bv32, tag: TaskOwner) returns (ok: bool)
      modifies this`table
      ensures ok <==> fd !in old(table)
      ensures table == if ok then old(table)[fd := Registration(events, tag)] else old(table)
    {
      ok := fd !in table;
      if ok {
        table := table[fd := Registration(events, tag)];
      }
    }

    /** Replaces the interest mask and tag of `fd`; refused when `fd` is not registered. */
    method Set(fd: int, events: bv32, tag: TaskOwner) returns (ok: bool)
      modifies this`table
      ensures ok <==> fd in old(table)
      ensures table == if ok then old(table)[fd := Registration(events, tag)] else old(table)
    {
      ok := fd in table;
      if ok {
        table := table[fd := Registration(events, tag)];
      }
    }

    /** Waits `timeout` ms: takes the next scripted step. An exhausted script
        stands for a wait that times out with nothing ready. Returns the
        number of events; a failed `epoll_wait` returns 0 with nothing
        ready, because `EPoller::wait` reports the failure as `false`. */
    method Wait(timeout: int) returns (n: int)
      modifies this`script, this`ready, this`lastTimeout
      ensures lastTimeout == Some(timeout)
      ensures old(script) == [] ==> n == 0 && ready == [] && script == []
      ensures old(script) != [] ==> script == old(script)[1..]
      ensures old(script) != [] && old(script)[0].WaitFails? ==> n == 0 && ready == []
      ensures old(script) != [] && old(script)[0].Fired? ==>
        ready == Deliver(old(script)[0].ready, table) && n == |ready|
    {
      lastTimeout := Some(timeout);
      if script == [] {
        ready := [];
        n := 0;
        return;
      }
      var step := script[0];
      script := script[1..];
      match step
      case WaitFails =>
        ready := [];
        n := 0;
      case Fired(rs) =>
        ready := Deliver(rs, table);
        n := |ready|;
    }
  }
}
