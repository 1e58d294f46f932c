/** The second handshake of a session (sections 4 and 5 of RFC 1928): the
    client's `VER CMD RSV ATYP DST.ADDR DST.PORT` request, parsed by Connect
    into the fields the reply is later built from, and its classification
    into one of the server's four statuses with a REP code.

    The REP codes are the server's own, not those of section 6 of RFC 1928:
    an unknown command gets 0x02 and BIND gets 0x08, the same code as an
    unknown address type. */
module Request {
  import opened Wire

  const AtypIPv4: Byte := 0x01
  const AtypDomain: Byte := 0x03
  const AtypIPv6: Byte := 0x04

  const CmdConnect: Byte := 0x01
  const CmdBind: Byte := 0x02
  const CmdUdpAssociate: Byte := 0x03

  const RepSuccess: Byte := 0x00
  const RepUnknownCommand: Byte := 0x02
  const RepRefused: Byte := 0x08

  /** REFUSED, TCP, UDP and BIND of Server.py. */
  datatype Status = Refused | Tcp | Udp | Bind

  /** DST.ADDR as the request carried it. */
  datatype Address =
    | IPv4Address(raw: IPv4)
    | DomainName(length: Byte, url: seq<Byte>)

  /** The destination of a request whose address type was recognised:
      the address as sent, the port, and the IPv4 address to connect to
      (the address itself, or what the resolver made of the name). */
  datatype Destination = Destination(addr: Address, port: Port, remote: IPv4)

  /** The PostInfo dictionary: the four header fields, the destination when
      the address type was recognised, and the REP code. */
  datatype PostInfo = PostInfo(
    version: Byte, command: Byte, rsv: Byte, addrType: Byte,
    dest: Option<Destination>, rep: Byte)

  /** What Connect returns: (PostInfo, Status). */
  datatype Verdict = Verdict(info: PostInfo, status: Status)

  /** The exceptions Connect lets escape. */
  datatype ConnectError =
    | MissingAddrType   // empty request: PostInfo has no 'AddrType' key
    | StructError       // an unpack saw the wrong number of bytes
    | InetNtoaError     // inet_ntoa given the 16 bytes of an IPv6 address
    | ResolutionError   // gethostbyname could not resolve the name

  datatype Result<+T> = Ok(value: T) | Err(error: ConnectError)

  /** The host resolver behind socket.gethostbyname: a name either resolves
      to an IPv4 address or fails. */
  type Resolver = seq<Byte> -> Option<IPv4>

  /** The status and REP code the server assigns to a command byte once the
      address type was recognised. */
  function Classify(command: Byte): (r: (Status, Byte))
    ensures r.0 == Tcp <==> command == CmdConnect
    ensures r.0 == Bind <==> command == CmdBind
    ensures r.0 == Udp <==> command == CmdUdpAssociate
    ensures r.0 == Refused <==> command !in {CmdConnect, CmdBind, CmdUdpAssociate}
    ensures r.1 == RepSuccess <==> r.0 in {Tcp, Udp}
    ensures r.0 == Bind ==> r.1 == RepRefused
    ensures r.0 == Refused ==> r.1 == RepUnknownCommand
  {
    if command == CmdConnect then (Tcp, RepSuccess)
    else if command == CmdBind then (Bind, RepRefused)
    else if command == CmdUdpAssociate then (Udp, RepSuccess)
    else (Refused, RepUnknownCommand)
  }

  /** The invariant every verdict of Connect keeps: a destination is present
      exactly when the address type was recognised, then its variant matches
      the type (the domain keeping its length byte with its name), and
      only a refusal comes without a destination. */
  predicate Consistent(v: Verdict)
  {
    match v.info.dest
    case None =>
      v.info.addrType !in {AtypIPv4, AtypDomain, AtypIPv6} && v.status == Refused
    case Some(d) =>
      match d.addr
      case IPv4Address(raw) => v.info.addrType == AtypIPv4 && d.remote == raw
      case DomainName(length, url) => v.info.addrType == AtypDomain && |url| == length
  }

  /** The (PostInfo, Status) pair Connect returns once the destination is
      parsed: the header fields and the destination kept, the status and REP
      code chosen by the command byte. */
  function Classified(version: Byte, command: Byte, rsv: Byte, addrType: Byte, d: Destination): (v: Verdict)
    ensures v.info.version == version && v.info.command == command
    ensures v.info.rsv == rsv && v.info.addrType == addrType && v.info.dest == Some(d)
    ensures v.status == Tcp <==> command == CmdConnect
    ensures v.status == Bind <==> command == CmdBind
    ensures v.status == Udp <==> command == CmdUdpAssociate
    ensures v.status == Refused <==> command !in {CmdConnect, CmdBind, CmdUdpAssociate}
    ensures v.info.rep == RepSuccess <==> command in {CmdConnect, CmdUdpAssociate}
    ensures command == CmdBind ==> v.info.rep == RepRefused
    ensures v.status == Refused ==> v.info.rep == RepUnknownCommand
  {
    var (status, rep) := Classify(command);
    Verdict(PostInfo(version, command, rsv, addrType, Some(d), rep), status)
  }

  /** Connect: parse the header, then DST.ADDR and DST.PORT by address type,
      then classify by command. Every branch's unpack demands an exact
      length; the IPv6 branch always raises (a wrong length fails the
      unpack, a right one makes inet_ntoa refuse 16 bytes); the domain is
      resolved before the command is looked at. An unrecognised address
      type is refused with 0x08 whatever follows the header. */
  function Connect(post: seq<Byte>, resolve: Resolver): (r: Result<Verdict>)
    ensures r.Ok? ==> Consistent(r.value)
    ensures r.Ok? ==> 4 <= |post| && r.value.info.version == post[0] && r.value.info.command == post[1]
    ensures r.Ok? ==> r.value.info.rsv == post[2] && r.value.info.addrType == post[3]
  {
    if post == [] then Err(MissingAddrType)
    else if |post| < 4 then Err(StructError)
    else
      var version, command, rsv, addrType := post[0], post[1], post[2], post[3];
      if addrType == AtypIPv4 then
        if |post[4..]| != 4 + 2 then Err(StructError)
        else
          var raw := post[4..8];
          Ok(Classified(version, command, rsv, addrType,
                        Destination(IPv4Address(raw), BigEndian16(post[8], post[9]), raw)))
      else if addrType == AtypIPv6 then
        if |post[4..]| != 16 + 2 then Err(StructError)
        else Err(InetNtoaError)
      else if addrType == AtypDomain then
        if |post| < 5 then Err(StructError)  // no length byte: only the 4 header bytes
        else
          var length := post[4];
          if |post[5..]| != length as int + 2 then Err(StructError)
          else
            var url := post[5..5 + length];
            var port := BigEndian16(post[5 + length], post[6 + length]);
            match resolve(url)
            case None => Err(ResolutionError)
            case Some(remote) =>
              Ok(Classified(version, command, rsv, addrType,
                            Destination(DomainName(length, url), port, remote)))
      else
        Ok(Verdict(PostInfo(version, command, rsv, addrType, None, RepRefused), Refused))
  }

  /** An empty request (what recv returns once the client has closed) and a
      request shorter than its four header bytes both fail. */
  lemma ShortRequestFails(post: seq<Byte>, resolve: Resolver)
    requires |post| < 4
    ensures Connect(post, resolve).Err?
    ensures post == [] ==> Connect(post, resolve) == Err(MissingAddrType)
  {
  }

  /** An address type outside {0x01, 0x03, 0x04} is always refused with REP
      0x08, whatever the command byte and whatever bytes follow the header. */
  lemma UnknownAddrTypeRefused(post: seq<Byte>, resolve: Resolver)
    requires 4 <= |post| && post[3] !in {AtypIPv4, AtypDomain, AtypIPv6}
    ensures Connect(post, resolve).Ok?
    ensures Connect(post, resolve).value.status == Refused
    ensures Connect(post, resolve).value.info.rep == RepRefused
    ensures Connect(post, resolve).value.info.dest == None
  {
  }

  /** An IPv6 request never gets through Connect. */
  lemma IPv6AlwaysFails(post: seq<Byte>, resolve: Resolver)
    requires 4 <= |post| && post[3] == AtypIPv6
    ensures Connect(post, resolve).Err?
    ensures |post| == 22 <==> Connect(post, resolve) == Err(InetNtoaError)
  {
  }

  /** Once the address type is recognised, the status and REP code depend
      on the command byte alone: 0x01 is TCP with 0x00, 0x02 is BIND with
      0x08, 0x03 is UDP with 0x00, and anything else is refused with 0x02. */
  lemma CommandMapping(post: seq<Byte>, resolve: Resolver)
    requires Connect(post, resolve).Ok? && post[3] in {AtypIPv4, AtypDomain}
    ensures var v := Connect(post, resolve).value;
      (v.status == Tcp <==> post[1] == CmdConnect) &&
      (v.status == Bind <==> post[1] == CmdBind) &&
      (v.status == Udp <==> post[1] == CmdUdpAssociate) &&
      (v.status == Refused <==> post[1] !in {CmdConnect, CmdBind, CmdUdpAssociate}) &&
      v.info.rep == (if post[1] == CmdConnect || post[1] == CmdUdpAssociate then RepSuccess
                     else if post[1] == CmdBind then RepRefused
                     else RepUnknownCommand)
  {
  }

  /** An IPv4 request parses exactly when it is 10 bytes long; the address
      is bytes 4..8 and the port is bytes 8..10, most significant first. */
  lemma IPv4Layout(post: seq<Byte>, resolve: Resolver)
    requires 4 <= |post| && post[3] == AtypIPv4
    ensures Connect(post, resolve).Ok? <==> |post| == 10
    ensures Connect(post, resolve).Ok? ==>
      Connect(post, resolve).value.info.dest ==
        Some(Destination(IPv4Address(post[4..8]), post[8] as int * 256 + post[9] as int, post[4..8]))
  {
  }

  /** A domain request with L = byte 4 parses exactly when it has that length
      byte, is 5 + L + 2 bytes long and the name resolves; the header alone,
      without the length byte, fails. The name is bytes 5..5+L, its length
      is L, the port is the last two bytes, and the connection goes to the
      resolved address. */
  lemma DomainLayout(post: seq<Byte>, resolve: Resolver)
    requires 4 <= |post| && post[3] == AtypDomain
    ensures |post| == 4 ==> Connect(post, resolve) == Err(StructError)
    ensures Connect(post, resolve).Ok? <==>
      5 <= |post| && |post| == 5 + post[4] as int + 2 && resolve(post[5..5 + post[4]]).Some?
    ensures Connect(post, resolve).Ok? ==>
      5 <= |post| &&
      var d := Connect(post, resolve).value.info.dest.value;
      d.addr == DomainName(post[4], post[5..5 + post[4]]) && |d.addr.url| == post[4] &&
      d.port == post[|post| - 2] as int * 256 + post[|post| - 1] as int &&
      d.remote == resolve(post[5..5 + post[4]]).value
  {
  }
}
