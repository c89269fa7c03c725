/** The socket objects the engine drives, reduced to what the engine reads:
    the descriptor, the role, and (for channels) the connection state. The OS
    calls behind `open`, `bind`, `listen` and `connect` are not modelled. */
module RpcSocket {

  // RPC_Constants
  const Finish: int := 0
  const Read: int := 1
  const Write: int := 2
  const Accept: int := 4
  /** INT64_MAX: the deadline of a task that never expires. */
  const MaxExpireTime: int := 0x7fff_ffff_ffff_ffff

  // Names the engine uses that RPC_Socket.h does not define; only their
  // distinctness matters to the model.
  const Ok: int := 0
  const Fail: int := -1
  const StateConnecting: int := 1
  const StateConnected: int := 2

  // RPC_SocketObject roles
  const TypeListener: int := 1
  const TypeChannel: int := 2

  /** `RPC_SocketObject` with the channel state the engine expects of it. */
  class SocketObject {
    const handle: int
    const kind: int
    var state: int

    constructor (kind: int, handle: int, state: int)
      ensures this.kind == kind && this.handle == handle && this.state == state
    {
      this.kind := kind;
      this.handle := handle;
      this.state := state;
    }
  }
}
