/** The reply to a connect request, as TCPHandler.run assembles it from
    PostInfo: `VER REP RSV ATYP` alone for a refusal, and for TCP, UDP and
    BIND the same header followed by BND.ADDR and BND.PORT in the layout of
    the request's address type. */
module Reply {
  import opened Wire
  import opened Request

  /** The reply bytes for a verdict of Connect. The IPv4 layout packs the
      address to connect to (inet_aton of PostInfo's RemoteAddress) with
      `4s`; the domain layout packs the length byte, then the name with
      `Ls` for that length. */
  function Answer(v: Verdict): (r: seq<Byte>)
    requires Consistent(v)
    ensures |r| >= 4 && r[..4] == [v.info.version, v.info.rep, v.info.rsv, v.info.addrType]
    ensures v.status == Refused ==> |r| == 4
    ensures v.status != Refused && v.info.addrType == AtypIPv4 ==>
      |r| == 10 && r[4..8] == v.info.dest.value.remote
    ensures v.status != Refused && v.info.addrType == AtypDomain ==>
      |r| == 7 + v.info.dest.value.addr.length && r[4] == v.info.dest.value.addr.length &&
      r[5..|r| - 2] == v.info.dest.value.addr.url
    ensures v.status != Refused ==> BigEndian16(r[|r| - 2], r[|r| - 1]) == v.info.dest.value.port
  {
    var info := v.info;
    var head := [info.version, info.rep, info.rsv, info.addrType];
    if v.status == Refused then head
    else
      var d := info.dest.value;
      if info.addrType == AtypIPv4 then
        head + PackString(d.remote, 4) + PortBytes(d.port)
      else
        head + [d.addr.length] + PackString(d.addr.url, d.addr.length) + PortBytes(d.port)
  }

  /** A refused request is answered with exactly four bytes: its own VER,
      the REP code, its RSV and its ATYP. */
  lemma RefusalReply(post: seq<Byte>, resolve: Resolver)
    requires Connect(post, resolve).Ok? && Connect(post, resolve).value.status == Refused
    ensures var v := Connect(post, resolve).value;
      Answer(v) == [post[0], v.info.rep, post[2], post[3]]
  {
  }

  /** For TCP, UDP and BIND the reply is the request itself with the command
      byte replaced by the REP code: same version, reserved byte, address
      type, address (for a domain, the same length byte and name) and port. */
  lemma ReplyRoundTrip(post: seq<Byte>, resolve: Resolver)
    requires Connect(post, resolve).Ok? && Connect(post, resolve).value.status != Refused
    ensures var v := Connect(post, resolve).value;
      Answer(v) == post[1 := v.info.rep]
  {
    var v := Connect(post, resolve).value;
    var r := Answer(v);
    assert |r| == |post| by {
      if post[3] == AtypIPv4 { IPv4Layout(post, resolve); } else { DomainLayout(post, resolve); }
    }
    forall k | 0 <= k < |post|
      ensures r[k] == post[1 := v.info.rep][k]
    {
      if k < 4 {
        assert r[k] == r[..4][k];
      } else if k >= |post| - 2 {
        PortBytesOfBigEndian(post[|post| - 2], post[|post| - 1]);
      } else if post[3] == AtypIPv4 {
        assert r[k] == r[4..8][k - 4];
      } else if k > 4 {
        assert r[k] == r[5..|r| - 2][k - 5];
        assert post[k] == post[5..5 + post[4]][k - 5];
      }
    }
  }

  /** Read back as a request, the reply of a TCP, UDP or BIND verdict names
      the same destination as the request it answers, under the same
      resolver. */
  lemma ReplyReparses(post: seq<Byte>, resolve: Resolver)
    requires Connect(post, resolve).Ok? && Connect(post, resolve).value.status != Refused
    ensures var v := Connect(post, resolve).value;
      Connect(Answer(v), resolve).Ok? &&
      Connect(Answer(v), resolve).value.info.dest == v.info.dest &&
      Connect(Answer(v), resolve).value.info.command == v.info.rep
  {
    var v := Connect(post, resolve).value;
    ReplyRoundTrip(post, resolve);
    var reply := post[1 := v.info.rep];
    assert reply[4..] == post[4..];
    if post[3] == AtypDomain {
      assert reply[5..] == post[5..];
      assert reply[5..5 + post[4]] == post[5..5 + post[4]];
    }
  }
}
