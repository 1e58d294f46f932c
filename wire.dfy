/** Byte-level vocabulary shared by the SOCKS5 frames of the proxy: octets,
    16-bit ports in network byte order, raw IPv4 addresses, and the packing
    rules of the Python `struct` codes that Server.py uses (`B`, `H` and `Ns`,
    all under the network-order prefix `!`). */
module Wire {

  /** One octet on the wire. */
  type Byte = x: int | 0 <= x < 256

  /** A TCP or UDP port, as carried by the two-byte DST.PORT field. */
  type Port = p: int | 0 <= p < 0x1_0000

  /** A raw IPv4 address: the four bytes that socket.inet_aton produces and
      socket.inet_ntoa consumes. The model keeps these bytes instead of the
      dotted text form. */
  type IPv4 = s: seq<Byte> | |s| == 4 witness [0, 0, 0, 0]

  /** Size of one recv on the client socket (MAX_BUFFER). */
  const MaxBuffer: nat := 1024

  datatype Option<+T> = None | Some(value: T)

  /** struct code `!H` on unpack: two bytes, most significant first. */
  function BigEndian16(hi: Byte, lo: Byte): (p: Port)
    ensures p / 256 == hi && p % 256 == lo
  {
    hi * 256 + lo
  }

  /** struct code `!H` on pack: a port as two bytes, most significant first. */
  function PortBytes(p: Port): (r: seq<Byte>)
    ensures |r| == 2 && BigEndian16(r[0], r[1]) == p
  {
    [p / 256, p % 256]
  }

  /** Packing the port that `!H` unpacked gives back the same two bytes. */
  lemma PortBytesOfBigEndian(hi: Byte, lo: Byte)
    ensures PortBytes(BigEndian16(hi, lo)) == [hi, lo]
  {
  }

  /** struct code `Ns` on pack: the byte string cut to `n` bytes, or padded
      with zero bytes up to `n`. */
  function PackString(s: seq<Byte>, n: nat): (r: seq<Byte>)
    ensures |r| == n
    ensures forall k :: 0 <= k < n ==> r[k] == (if k < |s| then s[k] else 0)
    ensures |s| == n ==> r == s
  {
    if |s| >= n then s[..n] else s + seq(n - |s|, _ => 0)
  }

  /** A struct format made of the network-order prefix `!` followed only by
      unsigned-byte codes `B`; it describes |fmt| - 1 bytes. */
  predicate ByteCodes(fmt: string)
  {
    |fmt| >= 1 && fmt[0] == '!' && forall k :: 1 <= k < |fmt| ==> fmt[k] == 'B'
  }

  /** struct.unpack(fmt, data) for such a format: it accepts exactly as many
      bytes as the format has codes, and yields each byte as a number. */
  function UnpackBytes(fmt: string, data: seq<Byte>): (r: Option<seq<Byte>>)
    requires ByteCodes(fmt)
    ensures r.Some? <==> |data| == |fmt| - 1
    ensures r.Some? ==> |r.value| == |fmt| - 1 && forall k :: 0 <= k < |data| ==> r.value[k] == data[k]
  {
    if |data| == |fmt| - 1 then Some(data) else None
  }
}
