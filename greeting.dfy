/** The first handshake of a session (section 3 of RFC 1928): the client's
    `VER NMETHODS METHODS` greeting and the server's `VER METHOD` answer.
    The server offers only "no authentication required" (0x00); when the
    client does not list it, the answer carries 0xFF, "no acceptable
    methods". */
module Greeting {
  import opened Wire

  const NoAuthentication: Byte := 0x00
  const NoAcceptableMethods: Byte := 0xFF

  /** A greeting as the two unpacks of HandShake read it. */
  datatype Hello = Hello(version: Byte, methods: seq<Byte>)

  /** The `!BB` unpack of the first two bytes, followed by the unpack of
      the rest with one `B` per announced method. Each unpack demands an exact
      length, so a greeting parses only when it is two bytes long plus
      exactly NMETHODS more; such a greeting always fits in one recv. */
  function ParseGreeting(post: seq<Byte>): (r: Option<Hello>)
    ensures r.Some? <==> 2 <= |post| && |post| == 2 + post[1] as int
    ensures r.Some? ==> r.value.version == post[0] && r.value.methods == post[2..]
    ensures r.Some? ==> |r.value.methods| == post[1] && |post| <= 2 + 255 < MaxBuffer
  {
    if |post| < 2 then None
    else if |post[2..]| != post[1] then None
    else Some(Hello(post[0], post[2..]))
  }

  /** The method-selection policy of HandShake. */
  function SelectMethod(methods: seq<Byte>): (m: Byte)
    ensures m == NoAuthentication <==> NoAuthentication in methods
    ensures m == NoAcceptableMethods <==> NoAuthentication !in methods
  {
    if NoAuthentication in methods then NoAuthentication else NoAcceptableMethods
  }

  /** What HandShake returns for a received greeting; None when it raises. */
  function GreetingReply(post: seq<Byte>): (r: Option<seq<Byte>>)
    ensures r.Some? <==> ParseGreeting(post).Some?
    ensures r.Some? ==> |r.value| == 2 && r.value[0] == post[0]
    ensures r.Some? ==> r.value[1] == SelectMethod(post[2..])
  {
    match ParseGreeting(post)
    case None => None
    case Some(hello) => Some([hello.version, SelectMethod(hello.methods)])
  }

  /** HandShake as the server runs it: the format string for the method list
      is built one `B` at a time, then the rest of the greeting is unpacked
      with it. A greeting that is too short or whose length disagrees with
      NMETHODS gets no answer (None); otherwise the answer is the client's
      version followed by 0x00 exactly when 0x00 is among the offered
      methods, and 0xFF otherwise. */
  method HandShake(post: seq<Byte>) returns (answer: Option<seq<Byte>>)
    ensures answer == GreetingReply(post)
    ensures answer.Some? <==> 2 <= |post| && |post| == 2 + post[1] as int
    ensures answer.Some? ==> |answer.value| == 2 && answer.value[0] == post[0]
    ensures answer.Some? ==> (answer.value[1] == 0x00 <==> 0x00 in post[2..])
    ensures answer.Some? ==> (answer.value[1] == 0xFF <==> 0x00 !in post[2..])
  {
    if |post| < 2 {
      return None;
    }
    var version, methodNum := post[0], post[1];
    var rest := post[2..];
    var format := "!";
    for i := 0 to methodNum
      invariant ByteCodes(format) && |format| == i + 1
    {
      format := format + "B";
    }
    var methods := UnpackBytes(format, rest);
    if methods.None? {
      return None;
    }
    var chosen: Byte;
    if 0 in methods.value {
      chosen := 0x00;
    } else {
      chosen := 0xFF;
    }
    answer := Some([version, chosen]);
  }
}
