/** The per-connection decision: which engine receives an accepted socket. */
module Negotiation {
  import opened Values
  import opened Policy

  /** How the server listens: HTTP/2 over TLS, or HTTP/2 over plain TCP. */
  datatype Mode = Tls | Plain

  /** The engine a socket is handed to: the HTTP/2 engine (`start`) or the
      HTTP/1 engine (`fallback`). */
  datatype Outcome = Start | Fallback

  /** An accepted socket, as far as the decision sees it: the protocol the TLS
      handshake reports through ALPN and through NPN. A socket from a plain TCP
      listener carries no such information. */
  datatype Socket = Socket(id: nat, alpnProtocol: JsValue, npnProtocol: JsValue)

  /** The `secureConnection` handler's decision. The negotiated protocol is the
      ALPN result when it is truthy and the NPN result otherwise; only an exact
      match with the HTTP/2 identifier goes to the HTTP/2 engine, so a peer that
      negotiated HTTP/2 is never answered in HTTP/1, and nothing else is answered
      in HTTP/2. */
  function Decide(alpn: JsValue, npn: JsValue): (r: Outcome)
    ensures r == Start <==> alpn == Str(Version) || (!Truthy(alpn) && npn == Str(Version))
    ensures Truthy(alpn) ==> (r == Start <==> alpn == Str(Version))
    ensures !Truthy(alpn) ==> (r == Start <==> npn == Str(Version))
  {
    var negotiated := Or(alpn, npn);
    if negotiated == Str(Version) then Start else Fallback
  }

  /** Where the accept handler installed for `mode` sends a socket: a plain TCP
      server hands every connection to the HTTP/2 engine; a TLS server decides. */
  function Route(mode: Mode, socket: Socket): (r: Outcome)
    ensures mode == Plain ==> r == Start
    ensures r == Start <==>
      || mode == Plain
      || socket.alpnProtocol == Str(Version)
      || (!Truthy(socket.alpnProtocol) && socket.npnProtocol == Str(Version))
  {
    match mode
    case Plain => Start
    case Tls => Decide(socket.alpnProtocol, socket.npnProtocol)
  }

  /** The sockets, in acceptance order, that the server handed to `engine`. */
  function Routed(mode: Mode, sockets: seq<Socket>, engine: Outcome): (r: seq<Socket>)
    ensures |r| <= |sockets|
  {
    if sockets == [] then []
    else
      var last := sockets[|sockets| - 1];
      Routed(mode, sockets[..|sockets| - 1], engine) + (if Route(mode, last) == engine then [last] else [])
  }

  /** An engine receives exactly the accepted sockets that are routed to it. */
  lemma {:induction false} RoutedMembers(mode: Mode, sockets: seq<Socket>, engine: Outcome, s: Socket)
    ensures s in Routed(mode, sockets, engine) <==> s in sockets && Route(mode, s) == engine
  {
    if sockets != [] {
      var init, last := sockets[..|sockets| - 1], sockets[|sockets| - 1];
      RoutedMembers(mode, init, engine, s);
      assert sockets == init + [last];
    }
  }

  /** Accepting one more socket extends the log of exactly the engine it is routed to. */
  lemma RoutedAppend(mode: Mode, sockets: seq<Socket>, socket: Socket, engine: Outcome)
    ensures Routed(mode, sockets + [socket], engine)
         == Routed(mode, sockets, engine) + (if Route(mode, socket) == engine then [socket] else [])
  {
    assert (sockets + [socket])[..|sockets|] == sockets;
  }

  /** Every accepted socket reaches exactly one engine: the sockets handed to the
      HTTP/2 engine and those handed to the HTTP/1 engine together are the
      accepted sockets, each as often as it was accepted. */
  lemma {:induction false} DispatchedExactlyOnce(mode: Mode, sockets: seq<Socket>)
    ensures multiset(Routed(mode, sockets, Start)) + multiset(Routed(mode, sockets, Fallback)) == multiset(sockets)
    ensures |Routed(mode, sockets, Start)| + |Routed(mode, sockets, Fallback)| == |sockets|
  {
    if sockets != [] {
      var init, last := sockets[..|sockets| - 1], sockets[|sockets| - 1];
      DispatchedExactlyOnce(mode, init);
      assert sockets == init + [last];
      assert multiset(sockets) == multiset(init) + multiset{last};
      var toStart, toFallback := Routed(mode, init, Start), Routed(mode, init, Fallback);
      if Route(mode, last) == Start {
        assert Routed(mode, sockets, Start) == toStart + [last];
        assert Routed(mode, sockets, Fallback) == toFallback;
      } else {
        assert Routed(mode, sockets, Start) == toStart;
        assert Routed(mode, sockets, Fallback) == toFallback + [last];
      }
    }
  }

  /** A plain TCP server hands every socket to the HTTP/2 engine and none to the
      HTTP/1 engine. */
  lemma {:induction false} PlainStartsEverySocket(sockets: seq<Socket>)
    ensures Routed(Plain, sockets, Start) == sockets
    ensures Routed(Plain, sockets, Fallback) == []
  {
    if sockets != [] {
      PlainStartsEverySocket(sockets[..|sockets| - 1]);
      assert sockets == sockets[..|sockets| - 1] + [sockets[|sockets| - 1]];
    }
  }

  /** The cases the connection handler's comment is about: a peer whose ALPN or
      NPN negotiation agreed on HTTP/2 is started, whatever the other mechanism
      reports (`false` is what an ALPN that agreed on nothing reports); no
      negotiated protocol, an empty one, and HTTP/1.1 all go to the HTTP/1 engine;
      a truthy ALPN result is not overridden by an HTTP/2 NPN result. */
  lemma FallbackExamples()
    ensures Decide(Undefined, Undefined) == Fallback
    ensures Decide(Bool(false), Undefined) == Fallback
    ensures Decide(Str(""), Str("")) == Fallback
    ensures Decide(Str("http/1.1"), Undefined) == Fallback
    ensures Decide(Str("http/1.1"), Str(Version)) == Fallback
    ensures Decide(Undefined, Str(Version)) == Start
    ensures Decide(Str(Version), Undefined) == Start
    ensures Decide(Str(Version), Bool(false)) == Start
    ensures Decide(Bool(false), Str(Version)) == Start
  {
  }
}
