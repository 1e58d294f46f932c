# SOCKS5 handshake of a minimal proxy server, modelled in Dafny

This project models the protocol core of a small SOCKS5 proxy (`Server.py`),
the subset of RFC 1928 it implements:

- **Greeting and method selection** (section 3 of RFC 1928). `HandShake`
  parses `VER NMETHODS METHODS` and answers `VER METHOD`. METHOD is 0x00
  ("no authentication required") when the client offered it, 0xFF otherwise.
  `Greeting.HandShake` keeps the source's loop that builds the `struct`
  format one `B` per method. It is proved equal to the pure
  `Greeting.GreetingReply`, which the session uses.
- **Request parsing and classification** (sections 4 and 5 of RFC 1928).
  `Request.Connect` parses `VER CMD RSV ATYP DST.ADDR DST.PORT`, branching on
  ATYP: 0x01 IPv4, 0x03 domain name with a length byte, 0x04 IPv6. It returns
  the `PostInfo` fields and one of the statuses REFUSED, TCP, UDP or BIND,
  each with a REP code. Every exception Connect lets escape is a
  `ConnectError`.
- **Reply assembly** (`Reply.Answer`). A refusal gets `VER REP RSV ATYP`.
  TCP, UDP and BIND get the parsed address and port re-encoded in the layout
  of the request's ATYP.
- **The session** (`Session.Run`), the body of `TCPHandler.run`. It is the
  ordered trace of socket actions for two received frames, a host resolver
  and the outcome of the outbound connect.

Bytes are integers 0..255 (`Wire.Byte`). Ports are `0..65535`, carried
big-endian. A Python `struct` length mismatch is a parse failure. The frames
`recv` returns, the host resolver behind `socket.gethostbyname` and the way
`RemoteSock.connect` ends are all parameters.

Behaviour modelled as the code has it, including where it departs from
RFC 1928 or from what a SOCKS5 server would be expected to do:

- BIND is answered with REP 0x08 and an unknown command with REP 0x02. These
  are not the codes of section 6 of RFC 1928.
- The greeting must be exactly `2 + NMETHODS` bytes long, not "at least".
- The server answers 0xFF ("no acceptable methods") and still goes on to
  read the request (`Session.NoAcceptableMethodStillProceeds`).
- Every IPv6 request fails. A wrong length fails the unpack. A 22-byte
  request fails in `socket.inet_ntoa`, which only takes 4 bytes
  (`Request.IPv6AlwaysFails`). The IPv6 branch of the reply assembly can
  therefore never be reached.
- A request whose ATYP is not recognised is refused whatever its length
  beyond the 4-byte header.
- A malformed greeting or request, an unresolvable name, or a connect
  failure other than "connection refused" raises inside the thread. The
  session then ends (`Abort`) with nothing further sent: a bad request has
  already had its greeting answered, and a failed connect has already opened
  the outbound socket and tried it. Neither the client socket nor the
  outbound socket is ever closed by the code.
- When the outbound connect is refused, the server closes the outbound
  socket and sends the client no reply at all. It does not send a
  general-failure reply.
- The client is closed only after a refusal or a BIND reply. After a UDP
  reply and once the relay has started, the code never closes the client
  socket. `CloseClient` and `CloseRemote` stand for explicit `close()` calls.
  The Python runtime may still close a socket once nothing refers to it;
  the model does not cover that.

## Model

| member | source | states |
|---|---|---|
| `Wire.BigEndian16` | Server.py:86 | the `!H` unpack of two bytes gives a port whose high and low bytes are those two bytes |
| `Wire.PortBytes` | Server.py:146-148 | the `!H` pack of a port gives two bytes that unpack to the same port |
| `Wire.PortBytesOfBigEndian` | Server.py:144-157 | packing a port that was unpacked from two bytes gives back exactly those two bytes |
| `Wire.PackString` | Server.py:155-157 | the `Ns` pack gives exactly N bytes: the string's bytes, zero-padded or cut; a string of length N is packed unchanged |
| `Wire.UnpackBytes` | Server.py:46-48 | a `!B…B` unpack succeeds iff the data has exactly one byte per `B` code, and then yields those bytes |
| `Greeting.ParseGreeting` | Server.py:43-48 | a greeting parses iff it has at least 2 bytes and exactly 2 + NMETHODS bytes; the version is byte 0 and the methods are the rest; a parsed greeting fits in one recv |
| `Greeting.SelectMethod` | Server.py:49-52 | the chosen method is 0x00 iff 0x00 was offered, and 0xFF iff it was not |
| `Greeting.GreetingReply` | Server.py:43-54 | there is an answer iff the greeting parses; it is 2 bytes: the client's version, then the selected method |
| `Greeting.HandShake` | Server.py:34-55 | the loop-built format reads the greeting as GreetingReply does: no answer unless the length is exactly 2 + NMETHODS, otherwise VER echoed and 0x00 iff 0x00 was offered, else 0xFF |
| `Request.Connect` | Server.py:57-117 | every verdict echoes the request's VER, CMD, RSV and ATYP bytes, and keeps the invariant Consistent: the destination matches the address type, the domain name has its length byte's length, and only a refusal has no destination |
| `Request.ShortRequestFails` | Server.py:73-82 | a request shorter than 4 bytes fails; the empty request fails on the missing address type |
| `Request.UnknownAddrTypeRefused` | Server.py:100-103 | an ATYP outside {0x01, 0x03, 0x04} is always REFUSED with REP 0x08 and no destination, whatever the CMD byte and the rest of the bytes |
| `Request.IPv6AlwaysFails` | Server.py:88-93 | an IPv6 request always fails; with exactly 22 bytes it fails in inet_ntoa, otherwise in the unpack |
| `Request.CommandMapping` | Server.py:105-117 | for ATYP 0x01 or 0x03 the outcome depends on CMD alone: 0x01 is TCP with REP 0x00, 0x02 is BIND with 0x08, 0x03 is UDP with 0x00, anything else is REFUSED with 0x02 |
| `Request.IPv4Layout` | Server.py:82-87 | an IPv4 request parses iff it is exactly 10 bytes long; the address is bytes 4..8 and the port is bytes 8..10, big-endian |
| `Request.Classified` | Server.py:105-117 | the returned pair keeps the four header fields and the destination; TCP iff CMD 0x01, BIND iff 0x02, UDP iff 0x03, REFUSED otherwise; REP 0x00 iff CMD is 0x01 or 0x03, 0x08 for BIND, 0x02 for a refusal |
| `Request.Classify` | Server.py:105-117 | the command table: 0x01 is TCP, 0x02 is BIND, 0x03 is UDP and anything else is REFUSED; REP is 0x00 exactly for TCP and UDP, 0x08 for BIND and 0x02 for an unknown command |
| `Request.DomainLayout` | Server.py:94-99 | the 4-byte header without a length byte fails; a domain request parses iff it has the length byte L (byte 4), is exactly 5 + L + 2 bytes long and the name resolves; the name is bytes 5..5+L, the port is the last two bytes, and the connect target is the resolved address |
| `Reply.Answer` | Server.py:134-157 | the reply starts with VER REP RSV ATYP; a refusal is exactly those 4 bytes; an IPv4 reply is 10 bytes carrying the connect address; a domain reply carries the length byte and the name; the last two bytes encode the port |
| `Reply.RefusalReply` | Server.py:134-139 | a refused request is answered with exactly its own VER, the REP code, its RSV and its ATYP |
| `Reply.ReplyRoundTrip` | Server.py:143-157 | for TCP, UDP and BIND the reply equals the request bytes with byte 1 (CMD) replaced by REP |
| `Reply.ReplyReparses` | Server.py:143-157 | read back as a request, a TCP, UDP or BIND reply names the same destination as the request it answers, with REP in the command position |
| `Session.Dispatch` | Server.py:133-182 | after Connect: the relay starts iff the verdict is TCP and the connect succeeded; the reply is sent unless a TCP connect did not succeed; the client is closed iff the verdict is a refusal or BIND; the thread aborts iff a TCP connect failed otherwise than refused; a TCP verdict first opens the outbound socket and connects to the destination |
| `Session.Run` | Server.py:126-131 | the session first receives the greeting; a greeting that does not parse ends it with no reply; otherwise the greeting reply is sent before the request is read; the request is read iff the greeting parsed |
| `Session.RunAfterRequest` | Server.py:126-182 | once both frames are parsed, the session is the greeting exchange followed by the dispatch of Connect's verdict |
| `Session.NoAcceptableMethodStillProceeds` | Server.py:126-131 | a client that did not offer 0x00 is answered 0xFF, and the request is still read |
| `Session.BadRequestAborts` | Server.py:131 | a request Connect cannot handle ends the session right after the greeting exchange, with no reply and no close |
| `Session.RefusedSession` | Server.py:134-141 | a refused request is answered with the 4 bytes VER REP RSV ATYP, then the client is closed, and nothing else happens |
| `Session.TcpSession` | Server.py:162-174 | for TCP the outbound connect comes first; the reply (request with CMD set to 0x00) and the relay start follow only on success; a refused connect closes the outbound socket with no reply; any other connect failure ends the thread |
| `Session.BindSession` | Server.py:179-182 | BIND is answered with the request with CMD set to 0x08, and then the client is closed |
| `Session.UdpSession` | Server.py:176-178 | UDP opens a placeholder socket, then answers with the request with CMD set to 0x00, and leaves the client open |
| `Session.DispatchRelay` | Server.py:161-182 | a dispatch starts the relay iff the verdict is TCP and the outbound connect succeeded |
| `Session.RelayOnlyAfterConnect` | Server.py:126-174 | the relay starts iff the greeting parsed, the request was a TCP verdict and the outbound connect succeeded |
| `Session.ScenarioRequest` | Server.py:82-108 | the request `02 01 00 01 7F 00 00 01 00 50` is TCP to 127.0.0.1:80, and its reply is `02 00 00 01 7F 00 00 01 00 50` |
| `Session.ConnectScenario` | Server.py:126-174 | greeting `02 02 00 01` gets `02 00`; CONNECT to 127.0.0.1:80, when it succeeds, gets the success reply and the relay |
| `Session.RefusedConnectScenario` | Server.py:162-168 | the same exchange with the connect refused ends by closing the outbound socket, with no reply to the request |
| `Session.OneByteGreetingAborts` | Server.py:43 | a one-byte greeting gets no reply at all |

## Left out

- `PostTransmitter` (the relay threads): it runs an endless recv/send loop
  that swallows broken-pipe and reset errors. It is concurrency and socket
  I/O, so the model only records its start as `StartRelay`.
- Threads and sockets: `threading.Thread`, `recv`, `send`, `close`, socket
  creation, the relay's buffer size. Each is an action in the trace or a
  parameter. In particular the model does not cover a `send` that writes
  only part of a frame, or a frame split across two `recv` calls.
- The `__main__` block: interactive input, bind, listen, the accept loop,
  and the handling of `OSError` and `KeyboardInterrupt`. It is process and
  OS plumbing.
- DNS resolution (`socket.gethostbyname`): it is a call to the host
  resolver. It is the `Resolver` parameter, a function from name bytes to
  an optional IPv4 address.
- The textual address forms of `socket.inet_ntoa` and `socket.inet_aton`:
  the model keeps the four raw address bytes. For them it takes
  `inet_aton(inet_ntoa(b)) == b` as the library's own guarantee and does
  not prove it.
- The UDP socket is a placeholder that is never used. It appears only as
  `OpenUdpSocket`.
- Logging via `print`: it has no effect on behaviour.
