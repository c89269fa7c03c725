/** Socket addresses and the textual `host:port` endpoint parser.

    The address buffer is modelled byte for byte with the Linux
    `sockaddr_in` layout on a little-endian host: the family as a host-order
    16-bit word at offset 0, the port in network order at offset 2 and the
    IPv4 address in network order at offset 4. */
module SockAddr {
  import opened Bytes
  import opened Wrappers
  import CArith
  import opened CString

  /** `sizeof(m_addrbuf)` and the length a new address reports. */
  const AddrBufLen: int := 128

  /** `AF_INET` on Linux. */
  const AfInet: int := 2

  /** An IPv4 address as `inet_aton` stores it: four bytes, network order. */
  type InAddr = s: seq<byte> | |s| == 4 witness [0, 0, 0, 0]

  /** The two bytes of a host-order `unsigned short` on a little-endian host. */
  function HostShort(v: int): (r: seq<byte>)
    ensures |r| == 2 && r[0] as int + 256 * r[1] as int == v % 65536
  {
    [v % 65536 % 256, v % 65536 / 256]
  }

  /** The two bytes `htons(v)` leaves in memory: most significant first. */
  function NetShort(v: int): (r: seq<byte>)
    ensures |r| == 2 && 256 * r[0] as int + r[1] as int == v % 65536
  {
    [v % 65536 / 256, v % 65536 % 256]
  }

  class SocketAddress {
    /** `m_addrbuf`. */
    var addrBuf: seq<byte>
    /** `m_length`, a 32-bit `socklen_t`. */
    var len: u32

    ghost predicate Valid()
      reads this
    {
      |addrBuf| == AddrBufLen
    }

    /** `SocketAddress()`: length 128; the buffer holds whatever the memory
        held, which the model takes as the parameter `garbage`. */
    constructor (garbage: seq<byte>)
      requires |garbage| == AddrBufLen
      ensures Valid() && addrBuf == garbage && len == AddrBufLen as u32
    {
      addrBuf := garbage;
      len := AddrBufLen as u32;
    }

    /** `SocketAddress(int family)`: as above, then the family is written. */
    constructor WithFamily(garbage: seq<byte>, family: int)
      requires |garbage| == AddrBufLen
      ensures Valid() && len == AddrBufLen as u32
      ensures addrBuf == HostShort(family) + garbage[2..]
      ensures Family() == family % 65536
    {
      addrBuf := HostShort(family) + garbage[2..];
      len := AddrBufLen as u32;
    }

    /** `family()`: the `sa_family` word. */
    function Family(): (r: int)
      requires Valid()
      reads this
      ensures 0 <= r < 65536
    {
      addrBuf[0] as int + 256 * addrBuf[1] as int
    }

    /** `family(af)`: `af` is narrowed to 16 bits; nothing else changes. */
    method SetFamily(af: int)
      requires Valid()
      modifies this
      ensures Valid() && len == old(len)
      ensures addrBuf == HostShort(af) + old(addrBuf)[2..]
      ensures Family() == af % 65536
    {
      addrBuf := HostShort(af) + addrBuf[2..];
    }

    /** `length()`: the stored length. */
    function Length(): (r: u32)
      reads this
      ensures r == len
    {
      len
    }

    /** `length(len)`: the address buffer is untouched. */
    method SetLength(l: u32)
      modifies this
      ensures len == l && addrBuf == old(addrBuf)
      ensures Length() == l
    {
      len := l;
    }

    /** The port as `ntohs` would read it back from offset 2. */
    function Port(): (r: int)
      requires Valid()
      reads this
      ensures 0 <= r < 65536
    {
      256 * addrBuf[2] as int + addrBuf[3] as int
    }

    /** The IPv4 address at offset 4. */
    function Address(): (r: InAddr)
      requires Valid()
      reads this
    {
      addrBuf[4..8]
    }
  }

  /** What a successful parse writes over the first eight bytes. */
  function InetPrefix(addr: InAddr, port: int): (r: seq<byte>)
    ensures |r| == 8
  {
    HostShort(AfInet) + NetShort(port) + addr
  }

  /** Reading the fields back from a buffer that starts with `InetPrefix`. */
  lemma InetPrefixFields(addr: InAddr, port: int, rest: seq<byte>)
    ensures var b := InetPrefix(addr, port) + rest;
      && b[0] as int + 256 * b[1] as int == AfInet
      && 256 * b[2] as int + b[3] as int == port % 65536
      && b[4..8] == addr
  {
    var b := InetPrefix(addr, port) + rest;
    assert b[..2] == HostShort(AfInet);
    assert b[2..4] == NetShort(port);
  }

  /** `isspace` in the C locale. */
  predicate IsSpace(c: char) {
    c == ' ' || c == '\t' || c == '\n' || c == 11 as char || c == 12 as char || c == '\r'
  }

  predicate IsDigit(c: char) {
    '0' <= c <= '9'
  }

  /** `s` without its leading white space. */
  function SkipSpaces(s: string): (r: string)
    ensures |r| <= |s| && r == s[|s| - |r|..]
    ensures r == [] || !IsSpace(r[0])
    ensures forall k :: 0 <= k < |s| - |r| ==> IsSpace(s[k])
  {
    if s != [] && IsSpace(s[0]) then SkipSpaces(s[1..]) else s
  }

  /** The leading run of decimal digits of `s`. */
  function DigitRun(s: string): (r: string)
    ensures r <= s && (forall k :: 0 <= k < |r| ==> IsDigit(r[k]))
    ensures |r| == |s| || !IsDigit(s[|r|])
  {
    if s != [] && IsDigit(s[0]) then [s[0]] + DigitRun(s[1..]) else []
  }

  /** The value of a string of decimal digits, most significant first. */
  function DigitsValue(d: string): nat
    requires forall k :: 0 <= k < |d| ==> IsDigit(d[k])
  {
    if d == [] then 0
    else
      assert IsDigit(d[|d| - 1]);
      10 * DigitsValue(d[..|d| - 1]) + (d[|d| - 1] as int - '0' as int)
  }

  /** `strtol(s, NULL, 10)` on a 64-bit `long`: white space, an optional
      sign, then as many digits as follow; the value saturates at the
      bounds of `long`. */
  function Strtol(s: string): (r: int)
    ensures -0x8000_0000_0000_0000 <= r < 0x8000_0000_0000_0000
  {
    var t := SkipSpaces(s);
    var negative := t != [] && t[0] == '-';
    var body := if t != [] && (t[0] == '-' || t[0] == '+') then t[1..] else t;
    var v := DigitsValue(DigitRun(body));
    if negative then (if v > 0x8000_0000_0000_0000 then -0x8000_0000_0000_0000 else -(v as int))
    else (if v > 0x7FFF_FFFF_FFFF_FFFF then 0x7FFF_FFFF_FFFF_FFFF else v)
  }

  /** glibc's `atoi`: `strtol` narrowed to a 32-bit `int`. */
  function Atoi(s: string): (r: CArith.int32)
  {
    CArith.Int32Wrap(Strtol(s))
  }

  /** `atoi` gives the value `strtol` reads whenever it fits in an `int`. */
  lemma AtoiAgreesInRange(s: string)
    requires -0x8000_0000 <= Strtol(s) < 0x8000_0000
    ensures Atoi(s) as int == Strtol(s)
  {
    CArith.Int32WrapKeepsInRange(Strtol(s));
  }

  /** The decimal numeral of `n`, as `printf("%u")` would write it. */
  function Decimal(n: nat): (r: string)
    ensures r != [] && forall k :: 0 <= k < |r| ==> IsDigit(r[k])
  {
    if n < 10 then [('0' as int + n) as char] else Decimal(n / 10) + [('0' as int + n % 10) as char]
  }

  lemma {:induction false} DecimalValue(n: nat)
    ensures DigitsValue(Decimal(n)) == n
  {
    if n >= 10 {
      var d := Decimal(n);
      assert d[..|d| - 1] == Decimal(n / 10);
      DecimalValue(n / 10);
    }
  }

  lemma {:induction false} DigitRunOfDigits(d: string)
    requires forall k :: 0 <= k < |d| ==> IsDigit(d[k])
    ensures DigitRun(d) == d
  {
    if d != [] {
      DigitRunOfDigits(d[1..]);
    }
  }

  /** The text after the colon of `"host:" + decimal(port)` parses back to
      the port: `atoi` inverts the decimal numeral of any port number. */
  lemma AtoiOfDecimal(n: nat)
    requires n < 65536
    ensures Atoi(Decimal(n)) == n
  {
    var d := Decimal(n);
    DigitRunOfDigits(d);
    DecimalValue(n);
    assert !IsSpace(d[0]);
    CArith.Int32WrapKeepsInRange(n);
  }

  /** What `from_string` makes of `endpoint`: the address and the port,
      or None when there is no colon or the host part is not an address. */
  function ParseEndpoint(endpoint: string, inetAton: string -> Option<InAddr>): (r: Option<(InAddr, int)>)
    ensures r.Some? <==> ':' in endpoint && inetAton(endpoint[..FirstIndexOf(endpoint, ':').value]).Some?
    ensures r.Some? ==>
      var i := FirstIndexOf(endpoint, ':').value;
      r.value == (inetAton(endpoint[..i]).value, Atoi(endpoint[i + 1..]) as int)
  {
    match FirstIndexOf(endpoint, ':')
    case None => None
    case Some(i) =>
      match inetAton(endpoint[..i])
      case None => None
      case Some(a) => Some((a, Atoi(endpoint[i + 1..]) as int))
  }

  /** The colon split: the first colon separates a host that contains no
      colon from the port text, and the two halves rebuild the endpoint. */
  lemma {:induction false} SplitAtFirstColon(host: string, portText: string, inetAton: string -> Option<InAddr>)
    requires ':' !in host && inetAton(host).Some?
    ensures ParseEndpoint(host + ":" + portText, inetAton) == Some((inetAton(host).value, Atoi(portText) as int))
  {
    var e := host + ":" + portText;
    var i := FirstIndexOf(e, ':');
    assert e[|host|] == ':';
    assert e[..|host|] == host;
    assert e[|host| + 1..] == portText;
  }

  /** `InetAdderssAdapter`: a view of a socket address that can be filled in
      from text. */
  class InetAddressAdapter {
    const address: SocketAddress

    constructor (addr: SocketAddress)
      ensures address == addr
    {
      address := addr;
    }

    /** `from_string(endpoint)`: splits at the first colon, reads the port
        with `atoi` and the host with `inet_aton` (the parameter); on
        success writes address, port and family AF_INET; on failure leaves
        the address as it was. The length is never touched. */
    method FromString(endpoint: string, inetAton: string -> Option<InAddr>) returns (ok: bool)
      requires address.Valid()
      modifies address
      ensures address.Valid() && address.len == old(address.len)
      ensures ok <==> ParseEndpoint(endpoint, inetAton).Some?
      ensures !ok ==> address.addrBuf == old(address.addrBuf)
      ensures ok ==>
        var (a, port) := ParseEndpoint(endpoint, inetAton).value;
        && address.addrBuf == InetPrefix(a, port) + old(address.addrBuf)[8..]
        && address.Family() == AfInet && address.Address() == a
        && address.Port() == port % 65536
    {
      var colon := FirstIndexOf(endpoint, ':');
      if colon.None? {
        return false;
      }
      var host := endpoint[..colon.value];
      var port := Atoi(endpoint[colon.value + 1..]);
      var inAddr := inetAton(host);
      if inAddr.None? {
        return false;
      }
      // inet_aton fills sin_addr, then sin_port and sin_family are written:
      // three disjoint fields of the first eight bytes
      address.addrBuf := InetPrefix(inAddr.value, port) + address.addrBuf[8..];
      InetPrefixFields(inAddr.value, port, old(address.addrBuf)[8..]);
      ok := true;
    }
  }
}
