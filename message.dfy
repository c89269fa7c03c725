/** Message framing over a buffer sequence (`RPC_Message`): a 24-byte header
    at the start of the first buffer, carrying the whole message length. */
module RpcMessage {
  import opened Bytes
  import opened Wrappers
  import opened Buffer

  const HeaderLength: nat := 24
  const IdxLength: nat := 8
  const TypeRequest: byte := 0
  const LittleEndian: byte := 0
  const BigEndian: byte := 1

  /** 'G', 'I', 'O', 'P' */
  const Magic: seq<byte> := [71, 73, 79, 80]
  /** '0', '0' */
  const Version: seq<byte> := [48, 48]

  /** The twelve bytes `init_header` writes: magic, version, byte order,
      message type and a zero length. */
  function HeaderPrefix(): (r: seq<byte>)
    ensures |r| == IdxLength + 4
  {
    Magic + Version + [LittleEndian, TypeRequest] + U32ToLE(0)
  }

  /** An `RPC_Message` is a copyable value holding one pointer to the buffer
      sequence it frames; `null` is the default-constructed message. */
  datatype Message = Message(buffers: BufferSequence?)

  /** The sum of the buffers' sizes, accumulated from the front. */
  function SumSizes(bufs: seq<MutableBuffer>): nat
    reads set b | b in bufs
    decreases |bufs|
  {
    if bufs == [] then 0 else SumSizes(bufs[..|bufs| - 1]) + bufs[|bufs| - 1].size
  }

  /** `detach_buffers()`: hands out the sequence and leaves the message without one. */
  function DetachBuffers(m: Message): (r: (BufferSequence?, Message))
    ensures r.0 == m.buffers && r.1.buffers == null
  {
    (m.buffers, m.(buffers := null))
  }

  /** `size()`: the length field of the header, read from offset 8 of the
      first buffer; throws when there is no buffer or it holds less than a header. */
  function Size(m: Message): (r: Outcome<u32>)
    requires m.buffers != null && m.buffers.Valid()
    reads m.buffers, m.buffers.buffers
    reads if |m.buffers.buffers| > 0 then {m.buffers.buffers[0].data} else {}
    ensures r.Aborted? <==> |m.buffers.buffers| == 0 || m.buffers.buffers[0].size < HeaderLength
    ensures r.Done? ==> r.value == LEToU32(m.buffers.buffers[0].data[IdxLength..IdxLength + 4])
  {
    var seqs := m.buffers;
    if |seqs.buffers| == 0 then Aborted("RPC_Message::size, no buffer")
    else if seqs.buffers[0].size < HeaderLength then Aborted("RPC_Message::size, message is too short")
    else Done(LEToU32(seqs.buffers[0].data[IdxLength..IdxLength + 4]))
  }

  /** `init_header()`: fails without any change when there is no buffer or the
      first buffer's limit is below 24; otherwise sets its size to 24 and writes
      the first twelve header bytes, leaving bytes 12 to 23 as they were. */
  method InitHeader(m: Message) returns (ok: bool)
    requires m.buffers != null && m.buffers.Valid()
    modifies if |m.buffers.buffers| > 0 then {m.buffers.buffers[0]} else {}
    modifies if |m.buffers.buffers| > 0 then {m.buffers.buffers[0].data} else {}
    ensures m.buffers.Valid()
    ensures ok <==> |m.buffers.buffers| > 0 && old(m.buffers.buffers[0].limit) >= HeaderLength
    ensures !ok && |m.buffers.buffers| > 0 ==>
      unchanged(m.buffers.buffers[0]) && unchanged(m.buffers.buffers[0].data)
    ensures ok ==>
      var first := m.buffers.buffers[0];
      && first.View() == old(first.View()).(size := HeaderLength)
      && first.data[..IdxLength + 4] == HeaderPrefix()
      && first.data[IdxLength + 4..] == old(first.data[IdxLength + 4..])
  {
    var seqs := m.buffers;
    if |seqs.buffers| == 0 {
      return false;
    }
    var buf := seqs.buffers[0];
    ok := buf.SetSize(HeaderLength);
    if !ok {
      return;
    }
    WriteHeaderPrefix(buf.data);
  }

  /** The twelve byte writes of `init_header()`: magic, version, byte
      order, type and a zero length. */
  method WriteHeaderPrefix(data: array<byte>)
    requires IdxLength + 4 <= data.Length
    modifies data
    ensures data[..IdxLength + 4] == HeaderPrefix()
    ensures data[IdxLength + 4..] == old(data[IdxLength + 4..])
  {
    data[0], data[1], data[2], data[3] := 71, 73, 79, 80;
    data[4], data[5] := 48, 48;
    data[6], data[7] := LittleEndian, TypeRequest;
    data[8], data[9], data[10], data[11] := 0, 0, 0, 0;
  }

  /** `update_header()`: writes the sum of all buffer sizes, header buffer
      included and truncated to 32 bits, into bytes 8 to 11 of the first
      buffer; nothing else changes. (The C++ member is declared `bool` but
      returns no value.) */
  method UpdateHeader(m: Message)
    requires m.buffers != null && m.buffers.Valid()
    requires |m.buffers.buffers| > 0 && IdxLength + 4 <= m.buffers.buffers[0].data.Length
    modifies m.buffers.buffers[0].data
    ensures var data := m.buffers.buffers[0].data;
      && data[IdxLength..IdxLength + 4] == U32ToLE(SumSizes(m.buffers.buffers) % U32Modulus)
      && data[..IdxLength] == old(data[..IdxLength])
      && data[IdxLength + 4..] == old(data[IdxLength + 4..])
  {
    var totalLen := TotalLength(m.buffers.buffers);
    WriteLength(m.buffers.buffers[0].data, totalLen);
  }

  /** The loop of `update_header`: the sizes summed in a `uint32_t`. */
  method TotalLength(bufs: seq<MutableBuffer>) returns (totalLen: u32)
    ensures totalLen == SumSizes(bufs) % U32Modulus
  {
    totalLen := 0;
    for i := 0 to |bufs|
      invariant totalLen == SumSizes(bufs[..i]) % U32Modulus
    {
      assert bufs[..i + 1][..i] == bufs[..i];
      totalLen := (totalLen + bufs[i].size) % U32Modulus;
    }
    assert bufs[..|bufs|] == bufs;
  }

  /** The store into the length field: bytes 8 to 11 alone change. */
  method WriteLength(data: array<byte>, v: u32)
    requires IdxLength + 4 <= data.Length
    modifies data
    ensures data[IdxLength..IdxLength + 4] == U32ToLE(v)
    ensures data[..IdxLength] == old(data[..IdxLength])
    ensures data[IdxLength + 4..] == old(data[IdxLength + 4..])
  {
    var word := U32ToLE(v);
    data[8], data[9], data[10], data[11] := word[0], word[1], word[2], word[3];
  }

  /** `add_buffer(buf)`: exactly `push_back` on the sequence. */
  method AddBuffer(m: Message, buf: MutableBuffer) returns (ok: bool)
    requires m.buffers != null && m.buffers.Valid() && buf.Valid()
    modifies m.buffers
    ensures m.buffers.Valid() && ok
    ensures |m.buffers.buffers| == |old(m.buffers.buffers)| + 1
    ensures m.buffers.buffers[..|old(m.buffers.buffers)|] == old(m.buffers.buffers)
    ensures fresh(m.buffers.buffers[|old(m.buffers.buffers)|])
    ensures m.buffers.buffers[|old(m.buffers.buffers)|].View() == buf.View()
    ensures m.buffers.buffers[|old(m.buffers.buffers)|].data == buf.data
    ensures m.buffers.latest == old(m.buffers.latest)
  {
    ok := m.buffers.PushBack(buf);
    ok := true;
  }

  /** Reading the length field back after it was written as `v` gives `v`,
      as long as the first buffer still holds a whole header. */
  lemma {:induction false} SizeReadsWrittenLength(m: Message, v: u32)
    requires m.buffers != null && m.buffers.Valid() && |m.buffers.buffers| > 0
    requires m.buffers.buffers[0].size >= HeaderLength
    requires m.buffers.buffers[0].data[IdxLength..IdxLength + 4] == U32ToLE(v)
    ensures Size(m) == Done(v)
  {
    U32RoundTrip(v);
  }

  /** Framing round trip: after a successful `init_header` and then
      `update_header`, `size()` returns the sum of the buffer sizes modulo 2^32. */
  method FrameAndMeasure(m: Message) returns (ok: bool, length: Outcome<u32>)
    requires m.buffers != null && m.buffers.Valid()
    modifies if |m.buffers.buffers| > 0 then {m.buffers.buffers[0]} else {}
    modifies if |m.buffers.buffers| > 0 then {m.buffers.buffers[0].data} else {}
    ensures ok <==> |m.buffers.buffers| > 0 && old(m.buffers.buffers[0].limit) >= HeaderLength
    ensures ok ==> length == Done(SumSizes(m.buffers.buffers) % U32Modulus)
    ensures ok ==> m.buffers.buffers[0].size == HeaderLength
  {
    ok := InitHeader(m);
    if !ok {
      length := Aborted("init_header failed");
      return;
    }
    UpdateHeader(m);
    SizeReadsWrittenLength(m, SumSizes(m.buffers.buffers) % U32Modulus);
    length := Size(m);
  }
}
