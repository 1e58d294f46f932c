/** One client session, as TCPHandler.run drives it: receive the greeting
    and answer it, receive the connect request, then, by status, answer
    and close (refusal, BIND), open a placeholder UDP socket and answer
    (UDP), or connect to the destination and, once connected, answer and
    start relaying (TCP).

    The session is modelled as the ordered trace of the socket actions it
    performs. The two frames that recv returns, the host resolver and the
    way the outbound connect ends are parameters. */
module Session {
  import opened Wire
  import opened Greeting
  import opened Request
  import opened Reply

  /** How RemoteSock.connect ends: it connects, it raises
      ConnectionRefusedError (caught), or it raises anything else (not
      caught). */
  datatype RemoteConnect = Connected | ConnectionRefused | ConnectFailed

  /** The observable steps of a session. */
  datatype Action =
    | RecvGreeting                          // first recv on the client socket
    | SendGreetingReply(frame: seq<Byte>)   // send of HandShake's answer
    | RecvRequest                           // second recv on the client socket
    | SendReply(frame: seq<Byte>)           // send of the connect reply
    | CloseClient                           // the client socket is closed
    | OpenTcpSocket                         // socket(AF_INET, SOCK_STREAM)
    | ConnectRemote(host: IPv4, port: Port) // RemoteSock.connect((host, port))
    | CloseRemote                           // RemoteSock.close()
    | StartRelay                            // both PostTransmitter threads started
    | OpenUdpSocket                         // socket(AF_INET, SOCK_DGRAM), never used
    | Abort                                 // an exception escapes run(): the thread ends

  /** What the session does once Connect has returned a verdict. The reply
      is assembled before anything else; for TCP it is sent only after the
      outbound connect succeeded. */
  function Dispatch(v: Verdict, remote: RemoteConnect): (actions: seq<Action>)
    requires Consistent(v)
    ensures StartRelay in actions <==> v.status == Tcp && remote == Connected
    ensures SendReply(Answer(v)) in actions <==> v.status != Tcp || remote == Connected
    ensures CloseClient in actions <==> v.status in {Refused, Bind}
    ensures Abort in actions <==> v.status == Tcp && remote == ConnectFailed
    ensures v.status == Tcp ==>
      |actions| >= 3 &&
      actions[..2] == [OpenTcpSocket, ConnectRemote(v.info.dest.value.remote, v.info.dest.value.port)]
  {
    var answer := Answer(v);
    match v.status
    case Refused => [SendReply(answer), CloseClient]
    case Tcp =>
      var d := v.info.dest.value;
      [OpenTcpSocket, ConnectRemote(d.remote, d.port)] +
        (match remote
         case Connected => [SendReply(answer), StartRelay]
         case ConnectionRefused => [CloseRemote]
         case ConnectFailed => [Abort])
    case Udp => [OpenUdpSocket, SendReply(answer)]
    case Bind => [SendReply(answer), CloseClient]
  }

  /** TCPHandler.run for the frames `greeting` and `request` received from
      the client. The greeting is answered before the request is read; a
      greeting HandShake cannot parse ends the session with nothing sent. */
  function Run(greeting: seq<Byte>, request: seq<Byte>, resolve: Resolver, remote: RemoteConnect)
    : (trace: seq<Action>)
    ensures |trace| >= 2 && trace[0] == RecvGreeting
    ensures ParseGreeting(greeting).None? ==> trace == [RecvGreeting, Abort]
    ensures ParseGreeting(greeting).Some? ==>
      |trace| >= 4 && trace[1] == SendGreetingReply(GreetingReply(greeting).value) &&
      trace[2] == RecvRequest
    ensures RecvRequest in trace <==> ParseGreeting(greeting).Some?
  {
    [RecvGreeting] +
      match GreetingReply(greeting)
      case None => [Abort]
      case Some(hello) =>
        [SendGreetingReply(hello), RecvRequest] +
          match Connect(request, resolve)
          case Err(_) => [Abort]
          case Ok(v) => Dispatch(v, remote)
  }

  /** Once both handshakes got through, the session is the greeting exchange
      followed by the dispatch of the verdict. */
  lemma RunAfterRequest(greeting: seq<Byte>, request: seq<Byte>, resolve: Resolver, remote: RemoteConnect)
    requires ParseGreeting(greeting).Some? && Connect(request, resolve).Ok?
    ensures Run(greeting, request, resolve, remote) ==
      [RecvGreeting, SendGreetingReply(GreetingReply(greeting).value), RecvRequest] +
        Dispatch(Connect(request, resolve).value, remote)
  {
  }

  /** The server does not stop at "no acceptable methods": it answers 0xFF
      and still reads the request. */
  lemma NoAcceptableMethodStillProceeds(greeting: seq<Byte>, request: seq<Byte>, resolve: Resolver, remote: RemoteConnect)
    requires ParseGreeting(greeting).Some? && NoAuthentication !in greeting[2..]
    ensures var t := Run(greeting, request, resolve, remote);
      t[1] == SendGreetingReply([greeting[0], NoAcceptableMethods]) && t[2] == RecvRequest
  {
  }

  /** A request Connect cannot handle (empty, truncated, IPv6, unresolvable
      name) ends the session after the greeting reply, with no reply to the
      request and without closing the client. */
  lemma BadRequestAborts(greeting: seq<Byte>, request: seq<Byte>, resolve: Resolver, remote: RemoteConnect)
    requires ParseGreeting(greeting).Some? && Connect(request, resolve).Err?
    ensures Run(greeting, request, resolve, remote) ==
      [RecvGreeting, SendGreetingReply(GreetingReply(greeting).value), RecvRequest, Abort]
  {
  }

  /** A refused request gets the four bytes VER REP RSV ATYP of its own and
      the session closes the client. */
  lemma RefusedSession(greeting: seq<Byte>, request: seq<Byte>, resolve: Resolver, remote: RemoteConnect)
    requires ParseGreeting(greeting).Some?
    requires Connect(request, resolve).Ok? && Connect(request, resolve).value.status == Refused
    ensures var t := Run(greeting, request, resolve, remote);
      var rep := Connect(request, resolve).value.info.rep;
      t == [RecvGreeting, SendGreetingReply(GreetingReply(greeting).value), RecvRequest,
            SendReply([request[0], rep, request[2], request[3]]), CloseClient]
  {
    RefusalReply(request, resolve);
  }

  /** For TCP the session connects to the destination first; only when that
      succeeds does it send the reply (the request with its command byte
      replaced by 0x00) and start the relay. When the connect is refused it
      closes the outbound socket and sends nothing more; any other failure
      of the connect ends the thread. */
  lemma TcpSession(greeting: seq<Byte>, request: seq<Byte>, resolve: Resolver, remote: RemoteConnect)
    requires ParseGreeting(greeting).Some?
    requires Connect(request, resolve).Ok? && Connect(request, resolve).value.status == Tcp
    ensures var d := Connect(request, resolve).value.info.dest.value;
      Run(greeting, request, resolve, remote) ==
        [RecvGreeting, SendGreetingReply(GreetingReply(greeting).value), RecvRequest] +
        ([OpenTcpSocket, ConnectRemote(d.remote, d.port)] +
         match remote
         case Connected => [SendReply(request[1 := RepSuccess]), StartRelay]
         case ConnectionRefused => [CloseRemote]
         case ConnectFailed => [Abort])
  {
    var v := Connect(request, resolve).value;
    RunAfterRequest(greeting, request, resolve, remote);
    ReplyRoundTrip(request, resolve);
    assert Answer(v) == request[1 := RepSuccess];
  }

  /** BIND is answered with the request, its command byte replaced by 0x08,
      and the client is closed. */
  lemma BindSession(greeting: seq<Byte>, request: seq<Byte>, resolve: Resolver, remote: RemoteConnect)
    requires ParseGreeting(greeting).Some?
    requires Connect(request, resolve).Ok? && Connect(request, resolve).value.status == Bind
    ensures Run(greeting, request, resolve, remote) ==
      [RecvGreeting, SendGreetingReply(GreetingReply(greeting).value), RecvRequest] +
      [SendReply(request[1 := RepRefused]), CloseClient]
  {
    var v := Connect(request, resolve).value;
    RunAfterRequest(greeting, request, resolve, remote);
    ReplyRoundTrip(request, resolve);
    assert Answer(v) == request[1 := RepRefused];
  }

  /** UDP ASSOCIATE opens a socket that is never used, answers with the
      request, its command byte replaced by 0x00, and leaves the client
      open. */
  lemma UdpSession(greeting: seq<Byte>, request: seq<Byte>, resolve: Resolver, remote: RemoteConnect)
    requires ParseGreeting(greeting).Some?
    requires Connect(request, resolve).Ok? && Connect(request, resolve).value.status == Udp
    ensures Run(greeting, request, resolve, remote) ==
      [RecvGreeting, SendGreetingReply(GreetingReply(greeting).value), RecvRequest] +
      [OpenUdpSocket, SendReply(request[1 := RepSuccess])]
  {
    var v := Connect(request, resolve).value;
    RunAfterRequest(greeting, request, resolve, remote);
    ReplyRoundTrip(request, resolve);
    assert Answer(v) == request[1 := RepSuccess];
  }

  /** Of all the dispatches, only that of a TCP verdict whose connect
      succeeded starts the relay. */
  lemma DispatchRelay(v: Verdict, remote: RemoteConnect)
    requires Consistent(v)
    ensures StartRelay in Dispatch(v, remote) <==> v.status == Tcp && remote == Connected
  {
  }

  /** The relay starts in exactly the sessions whose greeting parsed, whose
      request was a TCP verdict and whose outbound connect succeeded. */
  lemma RelayOnlyAfterConnect(greeting: seq<Byte>, request: seq<Byte>, resolve: Resolver, remote: RemoteConnect)
    ensures StartRelay in Run(greeting, request, resolve, remote) <==>
      ParseGreeting(greeting).Some? && Connect(request, resolve).Ok? &&
      Connect(request, resolve).value.status == Tcp && remote == Connected
  {
    if ParseGreeting(greeting).Some? && Connect(request, resolve).Ok? {
      var v := Connect(request, resolve).value;
      var greeted := [RecvGreeting, SendGreetingReply(GreetingReply(greeting).value), RecvRequest];
      RunAfterRequest(greeting, request, resolve, remote);
      DispatchRelay(v, remote);
      assert StartRelay !in greeted;
    } else if ParseGreeting(greeting).Some? {
      BadRequestAborts(greeting, request, resolve, remote);
    }
  }

  /** The request of the scenario below, CONNECT to 127.0.0.1:80 with
      version byte 2, is a TCP verdict whose reply is the request with its
      command byte set to 0x00. */
  lemma ScenarioRequest(resolve: Resolver)
    ensures Connect([2, 1, 0, 1, 127, 0, 0, 1, 0, 80], resolve) ==
      Ok(Verdict(PostInfo(2, 1, 0, 1, Some(Destination(IPv4Address([127, 0, 0, 1]), 80, [127, 0, 0, 1])), 0), Tcp))
    ensures Answer(Connect([2, 1, 0, 1, 127, 0, 0, 1, 0, 80], resolve).value) == [2, 0, 0, 1, 127, 0, 0, 1, 0, 80]
  {
    var request: seq<Byte> := [2, 1, 0, 1, 127, 0, 0, 1, 0, 80];
    assert request[4..8] == [127, 0, 0, 1];
    IPv4Layout(request, resolve);
    CommandMapping(request, resolve);
    ReplyRoundTrip(request, resolve);
    assert request[1 := RepSuccess] == [2, 0, 0, 1, 127, 0, 0, 1, 0, 80];
  }

  /** The exchange of a client offering methods 0x00 and 0x01 with version
      byte 2, then asking to CONNECT to 127.0.0.1:80 where a server
      listens: the session ends in the relay. */
  lemma ConnectScenario(resolve: Resolver)
    ensures Run([2, 2, 0, 1], [2, 1, 0, 1, 127, 0, 0, 1, 0, 80], resolve, Connected) ==
      [RecvGreeting, SendGreetingReply([2, 0]), RecvRequest, OpenTcpSocket,
       ConnectRemote([127, 0, 0, 1], 80), SendReply([2, 0, 0, 1, 127, 0, 0, 1, 0, 80]), StartRelay]
  {
    var greeting: seq<Byte> := [2, 2, 0, 1];
    var request: seq<Byte> := [2, 1, 0, 1, 127, 0, 0, 1, 0, 80];
    var reply: seq<Byte> := [2, 0, 0, 1, 127, 0, 0, 1, 0, 80];
    assert GreetingReply(greeting) == Some([2, 0]);
    ScenarioRequest(resolve);
    var v := Connect(request, resolve).value;
    assert Dispatch(v, Connected) == [OpenTcpSocket, ConnectRemote([127, 0, 0, 1], 80), SendReply(reply), StartRelay];
    RunAfterRequest(greeting, request, resolve, Connected);
  }

  /** The same exchange when the connect to 127.0.0.1:80 is refused: the
      outbound socket is closed and the client gets no reply to its
      request. */
  lemma RefusedConnectScenario(resolve: Resolver)
    ensures Run([2, 2, 0, 1], [2, 1, 0, 1, 127, 0, 0, 1, 0, 80], resolve, ConnectionRefused) ==
      [RecvGreeting, SendGreetingReply([2, 0]), RecvRequest, OpenTcpSocket,
       ConnectRemote([127, 0, 0, 1], 80), CloseRemote]
  {
    var greeting: seq<Byte> := [2, 2, 0, 1];
    var request: seq<Byte> := [2, 1, 0, 1, 127, 0, 0, 1, 0, 80];
    assert GreetingReply(greeting) == Some([2, 0]);
    ScenarioRequest(resolve);
    var v := Connect(request, resolve).value;
    assert Dispatch(v, ConnectionRefused) == [OpenTcpSocket, ConnectRemote([127, 0, 0, 1], 80), CloseRemote];
    RunAfterRequest(greeting, request, resolve, ConnectionRefused);
  }

  /** A one-byte greeting gets no reply at all. */
  lemma OneByteGreetingAborts(b: Byte, request: seq<Byte>, resolve: Resolver, remote: RemoteConnect)
    ensures Run([b], request, resolve, remote) == [RecvGreeting, Abort]
  {
  }
}
