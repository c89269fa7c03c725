# Everest core in Dafny

This project models the bookkeeping of Everest's asynchronous RPC engine,
plus the small utilities around it, and proves properties of the model:

- **Byte buffers and buffer sequences** (`buffer.dfy`). A buffer carries
  capacity, limit, size and position cursors with guarded setters. A
  sequence of buffers carries a "latest" cursor.
- **Message framing** (`message.dfy`, `bytes.dfy`). The first buffer holds a
  24-byte header: magic, version, byte order, type and a little-endian
  32-bit total length.
- **Task and timeout queue** (`timeout_queue.dfy`). Each registered socket
  owns two FIFOs, one of read tasks and one of write tasks. All tasks also
  sit in one multimap keyed by deadline.
- **Proactor** (`proactor.dfy`). It registers sockets, recomputes the poller
  interest, computes the wait timeout, and turns readiness into handler
  calls. That covers the move from Connecting to Connected, and the
  gather list built for a send.
- **Service** (`service.dfy`). A FIFO of posted intents (accept, read, write,
  add) with relative-to-absolute deadlines, drained into the proactor.
- **Socket addresses and `host:port` parsing** (`sock_addr.dfy`,
  `cstring.dfy`).
- **The epoll slot table** (`epoll.dfy`). It covers growth, registration
  count, deregistration and the scan for the first registered slot.
- **Named properties** (`properties.dfy`). An ordered set of name/value
  items where the first insert of a name wins.
- **The command-line parser** (`application.dfy`).
- **Metaclass records** (`sobject.dfy`).

The following are parameters of the model:

| in the source | in the model |
|---|---|
| the poller the proactor is built on | a scripted fake (`poller.dfy`), see "Left out" |
| the clock | a `now` parameter |
| the socket layer (accept, gather send) | a `Network` record of functions |
| the application's callbacks | function values |
| `inet_aton` | a function parameter |
| the results of `epoll_ctl` and `epoll_wait` | parameters |
| a throw, a failed `assert`, a call through an unset `std::function` | `Aborted` |

Integer widths are explicit wherever the source depends on them:

- `int` products and casts to `int` wrap at 32 bits. A signed overflow is undefined in C++; the model takes the usual two's-complement wrap-around;
- `size_t` subtraction wraps at 2^64;
- the header length is truncated to 32 bits;
- `strtol` saturates at the bounds of a 64-bit `long`.

Where the source is unfinished or inconsistent, the model follows the code as written:

- `add_read`/`add_write` build a task with the message they are given. The
  service's `run_once` passes its two-argument calls the task's message.
- The service uses the `RPC_Message` of `RPC_Message.h`, not the one-buffer
  class redeclared in `RPC_Server.h`.
- `pop_front_timeout` always throws.
- `clear_timeout_task` and `on_readable` only log.
- `on_writable` never advances a buffer position and always reports Ok.
- The multimap of deadlines is never shrunk.

## Model

| member | source | states |
|---|---|---|
| Buffer.SettersKeepBounded | include/everest/buffer.h:39-60 | any sequence of `limit`/`size`/`position` calls keeps every cursor within the capacity, and the capacity never changes |
| Buffer.FailedSetterChangesNothing | include/everest/buffer.h:47-60 | a `size` or `position` call that returns false leaves all cursors as they were |
| Buffer.ShrinkingLimitBreaksOrder | include/everest/buffer.h:39-43 | from any ordered buffer, every limit below its size is accepted as the new limit, keeps the size, and leaves the cursors out of order |
| Buffer.ShrinkingSizeBreaksOrder | include/everest/buffer.h:47-52 | from any ordered buffer, every size below its position is accepted as the new size and leaves the cursors out of order |
| Buffer.MutableBuffer.constructor | include/everest/buffer.h:28-31 | a new buffer has limit = capacity, size 0 and position 0 on the given region, and is ordered |
| Buffer.MutableBuffer.Copy | include/everest/buffer.h:13-84 | the implicit copy shares the region and has the same cursors |
| Buffer.MutableBuffer.SetLimit | include/everest/buffer.h:39-43 | the limit becomes min(s, capacity) and is returned; size and position stay |
| Buffer.MutableBuffer.SetSize | include/everest/buffer.h:47-52 | succeeds iff n <= limit; then size = n, otherwise nothing changes; position is never adjusted |
| Buffer.MutableBuffer.SetPosition | include/everest/buffer.h:56-60 | succeeds iff p <= size; then position = p, otherwise nothing changes |
| Buffer.BufferSequence.constructor | include/everest/buffer.h:98-100 | a new sequence is empty with latest at end |
| Buffer.BufferSequence.PushBack | include/everest/buffer.h:102-108 | appends a fresh copy of the buffer; the cursor keeps its index, so it lands on the new buffer exactly when it was at end; returns true |
| Buffer.BufferSequence.PopFront | include/everest/buffer.h:110-117 | does nothing and returns true |
| Buffer.BufferSequence.SetLatest | include/everest/buffer.h:132-135 | the cursor becomes the given position; returns true |
| Buffer.BufferSequence.Begin | include/everest/buffer.h:119-121 | the first position, which is `end()` exactly when the sequence is empty |
| Buffer.BufferSequence.End | include/everest/buffer.h:123-125 | the position one past the last buffer |
| Buffer.BufferSequence.Front | include/everest/buffer.h:137-139 | on a non-empty sequence, the buffer at `begin()` |
| Buffer.FrontIsFirstAppended | include/everest/buffer.h:137-139 | after any number of appends the front is still the first buffer appended |
| Bytes.U32RoundTrip | include/everest/rpc/RPC_Message.h:71 | reading a 32-bit word back from its little-endian bytes gives the word |
| Bytes.LERoundTrip | include/everest/rpc/RPC_Message.h:81 | encoding the word read from four bytes gives the same four bytes |
| CArith.Int32Wrap | include/everest/rpc/RPC_Proactor.h:241 | a conversion to `int` keeps the value modulo 2^32 |
| CArith.TruncDiv1000 | include/everest/rpc/RPC_Proactor.h:241 | C++ division by 1000 rounds toward zero for both signs |
| CArith.SizeTSub | include/everest/rpc/RPC_Proactor.h:392 | `size_t` subtraction is exact when it does not underflow and stays below 2^64 |
| RpcMessage.HeaderPrefix | include/everest/rpc/RPC_Message.h:102-109 | the header prefix is twelve bytes long |
| RpcMessage.DetachBuffers | include/everest/rpc/RPC_Message.h:53-58 | returns the held sequence and leaves the message without one |
| RpcMessage.Size | include/everest/rpc/RPC_Message.h:60-72 | throws iff there is no buffer or the first is shorter than 24; otherwise the little-endian word at offset 8 |
| RpcMessage.InitHeader | include/everest/rpc/RPC_Message.h:89-112 | fails with no change iff there is no buffer or its limit is below 24; on success size = 24, bytes 0..11 are "GIOP", "00", 0, 0 and a zero length, and bytes 12.. are untouched |
| RpcMessage.WriteHeaderPrefix | include/everest/rpc/RPC_Message.h:102-109 | the twelve header bytes are written and the rest of the region is untouched |
| RpcMessage.UpdateHeader | include/everest/rpc/RPC_Message.h:74-82 | bytes 8..11 of the first buffer hold the sum of all buffer sizes modulo 2^32; every other byte is untouched |
| RpcMessage.TotalLength | include/everest/rpc/RPC_Message.h:76-80 | the loop's sum is the sum of all buffer sizes modulo 2^32 |
| RpcMessage.WriteLength | include/everest/rpc/RPC_Message.h:81 | bytes 8..11 hold the word little-endian and no other byte changes |
| RpcMessage.AddBuffer | include/everest/rpc/RPC_Message.h:84-87 | exactly a `push_back` on the sequence: one fresh buffer appended with `buf`'s cursors and sharing its region, the others and the cursor index kept; returns true |
| RpcMessage.SizeReadsWrittenLength | include/everest/rpc/RPC_Message.h:60-72 | once a length is written at offset 8 of a header-sized first buffer, `size()` returns it |
| RpcMessage.FrameAndMeasure | include/everest/rpc/RPC_Message.h:74-112 | after a successful `init_header` and then `update_header`, `size()` returns the sum of the sizes modulo 2^32 |
| RpcSocket.SocketObject.constructor | include/everest/rpc/RPC_Socket.h:37-38 | a socket object keeps its role and descriptor |
| TaskTimeoutQueue.UpperBound | include/everest/rpc/RPC_Proactor.h:163 | the insertion point of a key comes after every entry with a key not above it and before every greater one |
| TaskTimeoutQueue.InsertTimeout | include/everest/rpc/RPC_Proactor.h:163 | inserting into the multimap keeps it sorted by deadline and adds exactly the new entry |
| TaskTimeoutQueue.SplitInsert | include/everest/rpc/RPC_Proactor.h:163 | an entry placed between the keys not above its own and the greater ones keeps the map ordered and adds exactly that entry |
| TaskTimeoutQueue.InsertAfterEqualKeys | include/everest/rpc/RPC_Proactor.h:163 | a new entry comes after every existing entry with the same deadline |
| TaskTimeoutQueue.TaskOwner.constructor | include/everest/rpc/RPC_Proactor.h:53 | a new owner has the socket and two empty FIFOs |
| TaskTimeoutQueue.TaskOwner.FrontTask | include/everest/rpc/RPC_Proactor.h:57-75 | the oldest task of a Read or Write FIFO, left in place; none for an empty FIFO or another type |
| TaskTimeoutQueue.TaskOwner.PopFrontTask | include/everest/rpc/RPC_Proactor.h:77-93 | drops only the front of that FIFO (nothing when it is empty); the other FIFO stays |
| TaskTimeoutQueue.TaskOwner.PushTask | include/everest/rpc/RPC_Proactor.h:95-109 | a Read or Write task is appended to its FIFO and returned; any other type is refused with no change |
| TaskTimeoutQueue.TimeoutQueue.constructor | include/everest/rpc/RPC_Proactor.h:19-183 | a new queue has no owner and no deadline |
| TaskTimeoutQueue.TimeoutQueue.Empty | include/everest/rpc/RPC_Proactor.h:122-124 | empty exactly when the deadline multimap is |
| TaskTimeoutQueue.TimeoutQueue.AddOwner | include/everest/rpc/RPC_Proactor.h:126-140 | returns the existing owner unchanged, or enters a new empty one; a second call changes nothing |
| TaskTimeoutQueue.TimeoutQueue.FindOwner | include/everest/rpc/RPC_Proactor.h:142-150 | the registered owner, or null exactly when the socket was never added |
| TaskTimeoutQueue.TimeoutQueue.PushTask | include/everest/rpc/RPC_Proactor.h:152-167 | a Read or Write task goes to the end of the owner's FIFO and exactly one (deadline, task) entry joins the multimap; any other type changes nothing |
| TaskTimeoutQueue.TimeoutQueue.GetFrontTimeout | include/everest/rpc/RPC_Proactor.h:169-177 | an entry with the smallest deadline, or none exactly when the multimap is empty |
| TaskTimeoutQueue.TimeoutQueue.PopFrontTimeout | include/everest/rpc/RPC_Proactor.h:179-182 | always throws |
| TaskTimeoutQueue.PushedQueueNeverEmpty | include/everest/rpc/RPC_Proactor.h:122-124 | once a task was pushed the multimap is non-empty, so `empty()` stays false |
| Poller.Deliver | include/everest/rpc/RPC_Proactor.h:303-307 | a wait reports only registered descriptors, with their registered tag and events within their interest plus error and hang-up, which epoll always reports |
| Poller.HangUpReportedWithoutInterest | include/everest/rpc/RPC_Proactor.h:219 | a descriptor registered with no interest, as `reg` leaves it, is still reported when it hangs up, so the wait counts it |
| Poller.MaskIdempotent | include/everest/rpc/RPC_Proactor.h:444-449 | cutting a mask down to an interest twice is the same as once |
| Poller.FakePoller.constructor | include/everest/rpc/RPC_Proactor.h:189 | a new poller has no registration and the given script of readiness |
| Poller.FakePoller.Add | include/everest/rpc/RPC_Proactor.h:219 | registers a descriptor with mask and tag; refused iff it was already registered |
| Poller.FakePoller.Set | include/everest/rpc/RPC_Proactor.h:449 | replaces mask and tag; refused iff the descriptor is not registered |
| Poller.FakePoller.Wait | include/everest/net/epoller.h:149-156 | takes the next scripted step: a failed `epoll_wait` gives 0 with nothing ready (`EPoller::wait` reports failure as `false`), readiness gives the number of delivered events, an exhausted script a timeout |
| Proactor.GatherEntriesNonEmpty | include/everest/rpc/RPC_Proactor.h:391-402 | no gather entry is empty |
| Proactor.GatherTotalIsSumOfEntries | include/everest/rpc/RPC_Proactor.h:391-402 | the total is the sum of the entry lengths modulo 2^64 |
| Proactor.GatherCountsPendingBuffers | include/everest/rpc/RPC_Proactor.h:391-402 | for buffers with position <= size, there is one entry per buffer with pending bytes |
| Proactor.GatherEntriesArePendingBytes | include/everest/rpc/RPC_Proactor.h:391-402 | for buffers with position <= size, each entry covers one buffer from its position to its size |
| Proactor.BuildGather | include/everest/rpc/RPC_Proactor.h:387-402 | the loop builds exactly the gather list and the total, from the cursor to the end |
| Proactor.PendingBytesWrapPastSize | include/everest/rpc/RPC_Proactor.h:392 | for every buffer whose position passed its size by d < 2^64, the entry is 2^64 - d bytes |
| Proactor.DrainedTransitive | include/everest/rpc/RPC_Proactor.h:301-371 | taking tasks off a FIFO's front composes |
| Proactor.ProgressedTransitive | include/everest/rpc/RPC_Proactor.h:301-371 | what one event may change about an owner composes over several events |
| Proactor.WaitTimeout | include/everest/rpc/RPC_Proactor.h:241-245 | the wait is never negative, and it is the converted millisecond difference whenever that is not negative |
| Proactor.WaitTimeoutInRange | include/everest/rpc/RPC_Proactor.h:241-245 | while the millisecond difference fits an `int`, the wait is max(0, trunc((expire - now) / 1000)) |
| Proactor.OverdueDeadlineDoesNotWait | include/everest/rpc/RPC_Proactor.h:241-245 | a deadline in the past, overdue by less than 2^31 ms, gives a zero wait (past that the cast to `int` wraps to a positive wait) |
| Proactor.NeverExpiringWaitDependsOnClock | include/everest/rpc/RPC_Proactor.h:241-245 | the wait for a never-expiring deadline depends on the clock through the 32-bit cast: at now = 1.7e15 µs the cast is negative and the wait 0, at now = 1.699e15 µs it is 295220727 ms |
| Proactor.WaitResultNotNegative | include/everest/rpc/RPC_Proactor.h:246-258 | the wait never returns a negative count, and a failed wait returns 0, so `run_once` never takes its error branch |
| Proactor.Interest | include/everest/rpc/RPC_Proactor.h:444-446 | the mask has Read iff the read FIFO is non-empty, Write iff the write FIFO is, and no other bit |
| Proactor.RpcProactor.constructor | include/everest/rpc/RPC_Proactor.h:199-201 | no sockets, no tasks, no handlers |
| Proactor.RpcProactor.SetAcceptHandler | include/everest/rpc/RPC_Proactor.h:205 | the accept handler is set |
| Proactor.RpcProactor.SetConnectHandler | include/everest/rpc/RPC_Proactor.h:208 | the connect handler is set |
| Proactor.RpcProactor.SetSendHandler | include/everest/rpc/RPC_Proactor.h:211 | the send handler is set |
| Proactor.RpcProactor.Reg | include/everest/rpc/RPC_Proactor.h:213-225 | the socket gets an owner (a new empty one only if it had none); its descriptor is registered with no interest and that owner as tag; fails iff it was already registered |
| Proactor.RpcProactor.AddTask | include/everest/rpc/RPC_Proactor.h:434-457 | a missing owner aborts with no change; otherwise the task joins its FIFO and the multimap, and the descriptor's interest becomes `Interest` of the owner |
| Proactor.RpcProactor.AddRead | include/everest/rpc/RPC_Proactor.h:434-457 | `AddTask` with type Read |
| Proactor.RpcProactor.AddWrite | include/everest/rpc/RPC_Proactor.h:461-483 | `AddTask` with type Write |
| Proactor.RpcProactor.OnAcceptable | include/everest/rpc/RPC_Proactor.h:262-278 | the accept handler is called once, with Fail and no channel when accept fails (result Fail), else with Ok (its result returned) |
| Proactor.RpcProactor.OnReadable | include/everest/rpc/RPC_Proactor.h:285-288 | always Ok |
| Proactor.RpcProactor.OnWritable | include/everest/rpc/RPC_Proactor.h:377-430 | throws, with no change, when the message has no buffers or the cursor is at end; otherwise the gather list runs from the cursor on, and the send handler is called iff the send covered the whole total (a missing handler then throws); every other outcome is Ok |
| Proactor.RpcProactor.SendGather | include/everest/rpc/RPC_Proactor.h:387-417 | the list handed to the send is the gather list from the cursor on; complete iff the send returned a positive count that covers the total |
| Proactor.RpcProactor.OnConnected | include/everest/rpc/RPC_Proactor.h:292-295 | the connect handler is called once with Ok and its result returned |
| Proactor.RpcProactor.OnReadEvent | include/everest/rpc/RPC_Proactor.h:309-333 | a listener accepts (Ok or Fail go on, anything else throws), a channel goes on with no callback, any other role throws |
| Proactor.RpcProactor.OnWriteConnected | include/everest/rpc/RPC_Proactor.h:340-349 | the front write task is sent and popped when `on_writable` returns; the read FIFO stays; it goes through iff the front message has a buffer at its cursor and a complete send finds a send handler (`SendOk`) |
| Proactor.RpcProactor.OnWriteConnecting | include/everest/rpc/RPC_Proactor.h:350-360 | the channel becomes Connected, the connect handler runs, and the probing write task is popped iff it returned Ok (`ConnectOk`), which is exactly when the half goes through |
| Proactor.RpcProactor.OnWriteEvent | include/everest/rpc/RPC_Proactor.h:335-368 | only a channel with a queued write task may be writable; the owner only progresses; selected by the state before the call, a Connecting channel becomes Connected and pops its front write task iff the connect handler answers Ok, a Connected one sends and pops it iff `SendOk`, both keeping the read FIFO (`FrontWritten`), and a channel in any other state is left alone |
| Proactor.RpcProactor.WriteEvent | include/everest/rpc/RPC_Proactor.h:335-368 | across the whole queue only the event's own owner changes, and it only progresses; a non-channel aborts with no callback; a channel's write half is as `OnWriteEvent` states (`FrontWritten`) |
| Proactor.RpcProactor.ProcessEvent | include/everest/rpc/RPC_Proactor.h:304-368 | the read half then the write half; no owner regresses; an event with neither bit changes nothing; a channel without the write bit completes with no change; a readable listener makes one accept callback (a missing accept handler throws); a writable listener throws; a writable Connecting or Connected channel with a queued write ends Connected with its read FIFO kept, and pops its front write task iff the connect handler answers Ok, respectively iff `SendOk` (`FrontWritten`) |
| Proactor.RpcProactor.DispatchEvent | include/everest/rpc/RPC_Proactor.h:304-368 | one reported event: no owner regresses, callbacks are only appended, only that event's socket changes state, a state other than Connecting stays, a writable event that goes through was on a channel that is no longer Connecting, and a readable listener adds a callback |
| Proactor.RpcProactor.ProcessNext | include/everest/rpc/RPC_Proactor.h:304-369 | one pass of the loop: given "every writable event so far went to a channel no longer Connecting" (`WritesHandled`) and "at least one callback per readable listener so far" (`AcceptsLogged`), both hold one event further when the event goes through; no owner regresses and callbacks are only appended |
| Proactor.RpcProactor.DispatchAll | include/everest/rpc/RPC_Proactor.h:301-371 | over all reported events: no task is added, read FIFOs stay, write tasks leave only from the front, a socket only moves from Connecting to Connected, callbacks are only appended; when no event throws, every writable event went to a channel no longer Connecting and the callbacks grew by at least the number of readable listeners |
| Proactor.RpcProactor.ProcessEvents | include/everest/rpc/RPC_Proactor.h:301-371 | the above, and when no event throws, every writable event went to a channel, and one that was Connecting or Connected before ends Connected |
| Proactor.RpcProactor.ClearTimeoutTask | include/everest/rpc/RPC_Proactor.h:297-299 | only logs: the proactor, its poller and its queue are unchanged |
| Proactor.RpcProactor.WaitOnPoller | include/everest/rpc/RPC_Proactor.h:246 | the wait returns the poller's scripted result, keeps the valid registrations and leaves every owner's FIFOs and state alone |
| Proactor.RpcProactor.WaitAndProcess | include/everest/rpc/RPC_Proactor.h:246-258 | one wait with the given timeout returns what the poller reports; when it is not positive nothing else changes; when it is positive and no event throws, every reported writable event went to a channel that ends Connected if it was Connecting or Connected before the wait, and the callbacks grew by at least the number of reported readable listeners |
| Proactor.RpcProactor.RunOnce | include/everest/rpc/RPC_Proactor.h:231-260 | returns 0 with no wait when no task was ever pushed; otherwise waits `WaitTimeout` of the earliest deadline and returns the wait's result; owners only progress |
| Service.DefaultAsyncTask | include/everest/rpc/RPC_Server.h:72-74 | type 0, no channel, no listener, no message, deadline Max_Expire_Time |
| Service.ChannelTask | include/everest/rpc/RPC_Server.h:76-78 | the given type and channel, no listener, no message, deadline Max_Expire_Time |
| Service.DeadlinesDifferOnlyAtZero | include/everest/rpc/RPC_Server.h:241-245 | `post_receive` and `post_accept` deadlines differ exactly at timeout 0, which is "now" for one and "never" for the other |
| Service.DeadlineInRange | include/everest/rpc/RPC_Server.h:196-197 | while timeout * 1000 fits an `int`, the deadline is now + timeout * 1000 |
| Service.LongTimeoutWrapsIntoThePast | include/everest/rpc/RPC_Server.h:197 | a timeout of 2147484 ms wraps the product and gives a deadline in the past |
| Service.Dispatch | include/everest/rpc/RPC_Server.h:260-275 | one posted task becomes at most two proactor requests |
| Service.PlanAppend | include/everest/rpc/RPC_Server.h:257-277 | the requests of two FIFOs in a row are the requests of each, in order |
| Service.PlanStep | include/everest/rpc/RPC_Server.h:257-277 | one loop pass moves the head of the FIFO to the dispatched part and extends the request log by exactly its requests |
| Service.UnknownTasksAreSkipped | include/everest/rpc/RPC_Server.h:273-275 | a task of unknown type, and the default task, ask nothing of the proactor |
| Service.OpenChannelRegistersBeforeWriting | include/everest/rpc/RPC_Server.h:218-224 | the two tasks `open_channel` posts register the channel before its write is queued |
| Service.RpcService.constructor | include/everest/rpc/RPC_Server.h:157-159 | an empty intent FIFO and a fresh proactor whose accept handler forwards to the service's |
| Service.RpcService.SetAcceptHandler | include/everest/rpc/RPC_Server.h:133 | the handler is set and the proactor still forwards to it |
| Service.RpcService.PostAccept | include/everest/rpc/RPC_Server.h:189-203 | exactly one Accept task for the listener joins the FIFO, with the connect deadline; returns true |
| Service.RpcService.OpenChannel | include/everest/rpc/RPC_Server.h:206-227 | a failed open posts nothing and returns false; otherwise an Add task then a Write task, for the same channel, and true |
| Service.RpcService.AddChannel | include/everest/rpc/RPC_Server.h:230-236 | exactly one Add task joins the FIFO; returns true |
| Service.RpcService.PostReceive | include/everest/rpc/RPC_Server.h:239-251 | exactly one Read task with the message joins the FIFO, with the receive deadline; returns true |
| Service.RpcService.OpenListener | include/everest/rpc/RPC_Server.h:166-186 | null when the open fails (nothing registered) or the descriptor is already in the poller; otherwise the listener, registered with no interest and its owner as tag |
| Service.RpcService.DispatchTask | include/everest/rpc/RPC_Server.h:258-276 | one loop pass hands the proactor exactly `Dispatch` of the task |
| Service.RpcService.RegisterSockets | include/everest/rpc/RPC_Server.h:269-272 | registers the channel then the listener, skipping null ones |
| Service.RpcService.DrainTasks | include/everest/rpc/RPC_Server.h:256-277 | every posted task, oldest first, is dispatched and the FIFO is left empty, unless a proactor assert stops the loop |
| Service.RpcService.RunOnce | include/everest/rpc/RPC_Server.h:254-284 | on completion every posted task has been handed to the proactor, oldest first, and the FIFO is empty; then with no deadline pending it returns 0, and otherwise the poller was asked to wait `WaitTimeout` of the earliest deadline and the result is what that wait returned; with nothing posted and no deadline pending it returns 0 |
| CString.FirstIndexOf | include/everest/net/sock_addr.h:98 | `strchr`: none iff the character is absent, else the first index holding it |
| SockAddr.HostShort | include/everest/net/sock_addr.h:33 | a 16-bit value in host (little-endian) order |
| SockAddr.NetShort | include/everest/net/sock_addr.h:112 | `htons`: a 16-bit value in network order |
| SockAddr.SocketAddress.constructor | include/everest/net/sock_addr.h:30 | length 128; the buffer as the memory held it |
| SockAddr.SocketAddress.WithFamily | include/everest/net/sock_addr.h:32-34 | length 128 and the family written |
| SockAddr.SocketAddress.Family | include/everest/net/sock_addr.h:42-45 | a 16-bit `sa_family` |
| SockAddr.SocketAddress.SetFamily | include/everest/net/sock_addr.h:47-50 | `family()` afterwards returns af modulo 2^16; only the first two bytes change |
| SockAddr.SocketAddress.Length | include/everest/net/sock_addr.h:52 | the stored length, which `length(len)` sets |
| SockAddr.SocketAddress.SetLength | include/everest/net/sock_addr.h:52-54 | `length()` afterwards returns the new length; the buffer stays |
| SockAddr.InetPrefixFields | include/everest/net/sock_addr.h:107-113 | the written prefix reads back as family AF_INET, the port and the address |
| SockAddr.SkipSpaces | include/everest/net/sock_addr.h:105 | removes exactly the leading white space |
| SockAddr.DigitRun | include/everest/net/sock_addr.h:105 | the longest leading run of digits |
| SockAddr.Strtol | include/everest/net/sock_addr.h:105 | the value fits a 64-bit `long` |
| SockAddr.Decimal | include/everest/net/sock_addr.h:105 | a non-empty string of digits |
| SockAddr.DecimalValue | include/everest/net/sock_addr.h:105 | the digits of n have value n |
| SockAddr.AtoiAgreesInRange | include/everest/net/sock_addr.h:105 | `atoi` gives the value `strtol` reads whenever that value fits an `int` |
| SockAddr.AtoiOfDecimal | include/everest/net/sock_addr.h:105 | `atoi` reads back the decimal numeral of any port number |
| SockAddr.ParseEndpoint | include/everest/net/sock_addr.h:97-111 | a result iff there is a colon and the text before the first one is an address; then that address and `atoi` of the rest |
| SockAddr.SplitAtFirstColon | include/everest/net/sock_addr.h:98-107 | "host:port" with a colon-free host parses back to the host's address and `atoi` of the port text |
| SockAddr.InetAddressAdapter.constructor | include/everest/net/sock_addr.h:80-82 | the adapter refers to the given address |
| SockAddr.InetAddressAdapter.FromString | include/everest/net/sock_addr.h:92-116 | succeeds iff `ParseEndpoint` gives a result; failure leaves the address as it was; success writes family AF_INET, the port in network order and the address, leaving the other bytes and the length |
| EPoll.Resize | include/everest/network.h:80 | `resize(n, cleared)`: length n, old slots kept, new ones cleared |
| EPoll.TaggedUpdate | include/everest/network.h:82-86 | overwriting a slot changes the number of tagged slots by the difference of the tags |
| EPoll.GrowKeepsTagged | include/everest/network.h:77-81 | growing the table adds no tagged slot |
| EPoll.EPoller.constructor | include/everest/network.h:56-63 | 32 cleared slots of each kind and count 0 |
| EPoll.EPoller.Close | include/everest/network.h:67-73 | an open descriptor is forgotten; always true |
| EPoll.EPoller.Add | include/everest/network.h:75-92 | grows to fd + 32 slots when fd is past the end; slot fd holds events and tag on success (count + 1), and a cleared tag on failure (count kept); other slots stay |
| EPoll.EPoller.Wait | include/everest/network.h:94-101 | the result list is what the kernel reported when the wait succeeded, else the list resized to the count |
| EPoll.EPoller.Remove | include/everest/network.h:103-111 | a tagged slot loses its tag and the count goes down; an untagged one changes nothing and gives true |
| EPoll.EPoller.Begin | include/everest/network.h:114-122 | the lowest slot with a tag, or the end when there is none |
| EPoll.EPoller.End | include/everest/network.h:125-127 | one past the last slot |
| EPoll.EPoller.REnd | include/everest/network.h:135-137 | one past the last reported event |
| EPoll.FailedReAdd | include/everest/network.h:84-88 | an example, descriptor 5 on a fresh poller: after a successful add and a failed re-add the count is 1 while no descriptor is tagged, and a later remove succeeds but leaves the count at 1 |
| Props.LessIrreflexive | include/everest/properties.h:25-28 | no name is less than itself |
| Props.LessTransitive | include/everest/properties.h:25-28 | the name order is transitive |
| Props.LessTotal | include/everest/properties.h:25-28 | two different names are ordered one way or the other |
| Props.Find | include/everest/properties.h:63 | an item iff one has the name, and then one that is stored |
| Props.InsertContents | include/everest/properties.h:82-83 | inserting adds exactly the new item iff its name was absent, else changes nothing |
| Props.InsertSorted | include/everest/properties.h:31 | inserting keeps the names strictly ascending |
| Props.FindAfterInsert | include/everest/properties.h:78-84 | after an insert the inserted name finds its first value and every other name what it found before |
| Props.DistinctNames | include/everest/properties.h:60 | in the ordered container the size is the number of distinct names |
| Props.Properties.constructor | include/everest/properties.h:57 | no item |
| Props.Properties.Count | include/everest/properties.h:60 | the number of distinct names stored |
| Props.Properties.Exist | include/everest/properties.h:62-64 | true iff an item with the name is stored |
| Props.Properties.Get | include/everest/properties.h:72-76 | the stored value of the name, or the empty string when it is absent |
| Props.Properties.Add | include/everest/properties.h:78-84 | refused (false, old value kept) iff the name is present, else stored; other names keep their values; names stay ascending |
| Props.Properties.AddWithLengths | include/everest/properties.h:86-92 | the same with exactly the first namelen and valuelen characters |
| App.ParseOption | src/everest.cpp:16-33 | an item iff the argument starts with "--"; its name holds no '=' and its value is never empty |
| App.FlagGivesDefault | src/everest.cpp:20-23 | "--name" gives name -> "1" |
| App.EmptyValueGivesDefault | src/everest.cpp:27-29 | "--name=" gives name -> "1" |
| App.OptionRoundTrip | src/everest.cpp:24-31 | "--name=value" gives back name and value, even when the value holds '=' |
| App.NonOptionIgnored | src/everest.cpp:16 | an argument not starting with "--" gives nothing |
| App.OptionsSorted | src/everest.cpp:15-36 | the properties the arguments give are ordered by name |
| App.OptionsFirstWins | src/everest.cpp:34 | the value stored under a name is the one from the earliest argument naming it |
| App.AddArgument | src/everest.cpp:16-35 | one loop pass adds exactly what `ParseOption` gives for the argument |
| App.Application.constructor | src/everest.cpp:11-37 | argv[0] is skipped, and the properties are those of the remaining arguments in order |
| App.ApplicationContext.constructor | src/everest.cpp:48 | a new context holds a fresh, empty property set |
| App.Application.Result | include/everest/application.h:53 | the result stored in the context |
| App.Application.Run | src/everest.cpp:41-46 | the procedure's result becomes the context result that `result()` returns |
| SObj.MetaClass.constructor | core/src/SObject.cpp:5-8 | stores kind and name; no superclass; the interface list starts empty |
| SObj.MetaClass.GetClassName | core/include/everest/SObject.h:31 | the name given at construction |
| SObj.MetaClass.GetSuperClass | core/include/everest/SObject.h:32-33 | the superclass last set, none for a new metaclass |
| SObj.MetaClass.SetSuperClass | core/include/everest/SObject.h:35 | `GetSuperClass()` afterwards returns the new superclass; the interfaces stay |
| SObj.MetaClass.AddInterface | core/include/everest/SObject.h:37-42 | the new interface becomes the head and the old list follows unchanged; kind, name and superclass stay |
| SObj.Statics.constructor | core/src/SObject.cpp:11-15 | the root metaclass is a Class named "everest.SObject" |
| SObj.SObjectMeta | core/include/everest/SObject.h:54 | the root metaclass |
| SObj.SObject.constructor | core/include/everest/SObject.h:46-60 | a plain object refers to the shared statics that hold the root metaclass |
| SObj.SObject.GetMetaClass | core/include/everest/SObject.h:55 | on a plain object, the metaclass `Meta()` returns |
| SObj.DerivedClassRecord | core/test/SObject/sobjtest.cpp:43-79 | a plain object reports "everest.SObject"; a derived record reports its own name, "everest.SObject" as its superclass's name, and its interface at the head |

## Left out

- Logging: all `printf` tracing is left out.
- The real clock is a `now` parameter.
- The socket system calls are `Network` parameters or are not modelled at all. These are `accept`, gather `send`, `errno`, `open`, `bind`, `listen`, `connect` and `::close`.
- `inet_aton`, `epoll_ctl` and `epoll_wait` are parameters whose results the caller states.
- Concurrency is left out. The engine is single-threaded, and its locking is marked todo.
- The proactor's poller (`include/everest/net/epoller.h`) is a scripted fake. Its `add`, `set` and `wait` call epoll, but its event and iterator accessors are stubs that return nothing; the fake delivers the scripted events instead, cut down to the interest plus error and hang-up, as epoll does. Its `Event_Write` is missing, so here it is EPOLLOUT.
- `EPoller::wait` reports a failed `epoll_wait` as `false`, that is 0. So the `ret < 0` branch of `run_once`, which only logs, is never taken: a failed wait looks like a timeout and calls `clear_timeout_task` (Proactor.WaitResultNotNegative).
- `include/everest/net/io_service.h` only declares functions without bodies, and is not part of this model.
- The engine uses names that `RPC_Socket.h` does not define: `Ok`, `Fail`, `State_Connecting`, `State_Connected` and a channel state. They are distinct constants of the model.
- `RPC_Service` declares `set_conn_handle`, `set_recv_handle`, `set_send_handle`, `close_channel`, `close_listener` and `post_send` but never defines them. There is nothing to model.
- The unfinished proactor paths are kept as they are. There is no expired-task sweep and no resumption of a partial send. `on_accept_timeout` is never called.
- Memory management is left out: deleting a channel or listener, the leaked `strdup` copy in `from_string`, and dangling task pointers. Tasks are identified by ids.
- Uninitialised memory is modelled as follows:
  - the address buffer of a new `SocketAddress` is a `garbage` parameter;
  - `m_result` of the application context is indeterminate until `run`;
  - the interface list head of a new metaclass is left uninitialised by the source, and the model starts it empty.
- `m_rsignals` and `signal_stop` in `include/everest/application.h` are left out. They read a field that is never set.
- The iterator types of `Properties` are left out. Ordered iteration is the container's ascending-name invariant.
- C strings are modelled as character sequences. An embedded NUL in an argument or an endpoint is not modelled.
- Byte order of `sa_family`: the model assumes a little-endian host.
- `atoi` is modelled as glibc's: `strtol` narrowed to `int`.
- A registration that an event reports is taken to belong to the queue's owner of that socket. The source casts the tag back without checking it.
- The copy of a `sockaddr` into `socket.h` calls is left out. So are the `sockaddr` conversion operators of `SocketAddress`.
- Handlers and the application procedure are pure function values. In the source the handlers get the channel or listener by pointer and the message by reference (`include/everest/rpc/RPC_Proactor.h:192-194`), and `proc` gets the context by reference (`include/everest/application.h:43`, `src/everest.cpp:43`), so they could change them. The frames below hold only under that assumption:
  - Proactor.RpcProactor.ProcessEvents: that no task is added and the read FIFOs stay;
  - Proactor.RpcProactor.OnWriteConnecting, Proactor.RpcProactor.OnWriteConnected and Proactor.RpcProactor.OnAcceptable: that only the modelled fields change around a handler call;
  - App.Application.Run: that the context's properties are untouched.
- Proactor.RpcProactor.ProcessEvents: states what the handled events did only when none of them throws, and only a lower bound on the callbacks: a connect or send handler call also adds one.
- Proactor.RpcProactor.WaitAndProcess: the same two limits as ProcessEvents.
- SObj.DerivedClassRecord: assumes that `S_SObject_Meta` (core/src/SObject.cpp:15) is initialised before `S_STestObject_Meta` (core/test/SObject/sobjtest.cpp:50). They are dynamically initialised statics in different translation units, and C++ leaves their order unspecified. In the other order `SObject::Meta()` gives null, the superclass is set to null, and the superclass name check dereferences it.
- Proactor.RpcProactor.OnWritable: the size of `m_send_iovec`'s reservation is not modelled, only its contents.
- EPoll.EPoller.Add: requires a non-negative descriptor. The model also does not represent an overflow of `fd + 32`.
- EPoll.EPoller.Remove: requires the descriptor to be within the table. The source indexes out of bounds otherwise.
- EPoll.EPoller.Wait: requires the kernel to report no more events than the registration count.
- SockAddr.SocketAddress.SetFamily: states the family modulo 2^16, because `sa_family` is 16 bits wide.
