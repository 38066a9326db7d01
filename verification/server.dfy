/** The HTTP/2 server: construction (mode selection and option rewriting), the
    accept handler that hands each socket to one engine, and the TLS-only factory. */
module Http2Server {
  import opened Values
  import opened Policy
  import opened Negotiation
  import opened ServerOptions

  /** The listening socket the server creates: a TLS listener that negotiates
      the protocol with the given options, or a plain TCP listener. */
  datatype Listener = TlsListener(config: Options) | PlainListener

  class Server {
    const mode: Mode
    const listener: Listener
    /** The sockets accepted so far, and those handed to the HTTP/2 engine
        (`start`) and to the HTTP/1 engine (`fallback`), in order. */
    ghost var handled: seq<Socket>
    ghost var started: seq<Socket>
    ghost var fellBack: seq<Socket>
    /** The listeners subscribed to the server's `request` event. */
    var requestListeners: seq<JsValue>

    ghost predicate Valid()
      reads this
    {
      && (mode == Tls <==> listener.TlsListener?)
      && (listener.TlsListener? ==> IsNormalised(listener.config))
      && started == Routed(mode, handled, Start)
      && fellBack == Routed(mode, handled, Fallback)
    }

    /** A server over TLS whose listener uses the already rewritten `config`. */
    constructor OverTls(config: Options)
      requires IsNormalised(config)
      ensures Valid()
      ensures mode == Tls && listener == TlsListener(config)
      ensures handled == [] && requestListeners == []
    {
      mode, listener := Tls, TlsListener(config);
      handled, started, fellBack := [], [], [];
      requestListeners := [];
    }

    /** A server over plain TCP. */
    constructor OverPlainTcp()
      ensures Valid()
      ensures mode == Plain && listener == PlainListener
      ensures handled == [] && requestListeners == []
    {
      mode, listener := Plain, PlainListener;
      handled, started, fellBack := [], [], [];
      requestListeners := [];
    }

    /** The accept handler: a TLS server reads the negotiated protocol (ALPN
        first, then NPN) and starts HTTP/2 only on an exact match with the HTTP/2
        identifier, falling back to HTTP/1 otherwise; a plain TCP server starts
        HTTP/2 on every connection. The socket reaches exactly one engine. */
    method Accept(socket: Socket) returns (outcome: Outcome)
      requires Valid()
      modifies this
      ensures Valid()
      ensures outcome == Route(mode, socket)
      ensures handled == old(handled) + [socket]
      ensures started == if outcome == Start then old(started) + [socket] else old(started)
      ensures fellBack == if outcome == Fallback then old(fellBack) + [socket] else old(fellBack)
      ensures multiset(started) + multiset(fellBack) == multiset(handled)
      ensures requestListeners == old(requestListeners)
    {
      if mode == Tls {
        outcome := Decide(socket.alpnProtocol, socket.npnProtocol);
      } else {
        outcome := Start;
      }
      RoutedAppend(mode, handled, socket, Start);
      RoutedAppend(mode, handled, socket, Fallback);
      if outcome == Start {
        started := started + [socket];
      } else {
        fellBack := fellBack + [socket];
      }
      handled := handled + [socket];
      assert started == Routed(mode, handled, Start);
      assert fellBack == Routed(mode, handled, Fallback);
      DispatchedExactlyOnce(mode, handled);
    }

    /** `server.on('request', listener)`: the event emitter accepts only a
        function as a listener. */
    method AddRequestListener(l: JsValue)
      requires Valid()
      requires l.Func?
      modifies this
      ensures Valid()
      ensures requestListeners == old(requestListeners) + [l]
      ensures handled == old(handled) && started == old(started) && fellBack == old(fellBack)
    {
      requestListeners := requestListeners + [l];
    }
  }

  /** `new Server(options)`. The options are copied; with TLS material the copy
      is rewritten for the TLS listener; otherwise the `plain` flag selects plain
      TCP; otherwise construction throws and no server exists. */
  method NewServer(arg: Argument) returns (r: Result<Server>)
    ensures r.Err? <==> SelectMode(Copy(arg)).Err?
    ensures r.Err? ==> r.error == UpgradeUnsupported
    ensures r.Ok? ==> fresh(r.value) && r.value.Valid()
    ensures r.Ok? ==> Ok(r.value.mode) == SelectMode(Copy(arg))
    ensures r.Ok? ==> r.value.handled == [] && r.value.requestListeners == []
    ensures r.Ok? && r.value.mode == Tls ==> r.value.listener == TlsListener(NormaliseTls(Copy(arg)))
  {
    var options := Copy(arg);
    if (Truthy(options.key) && Truthy(options.cert)) || Truthy(options.pfx) {
      options := options.(alpnProtocols := StrList(SupportedProtocols));
      options := options.(npnProtocols := StrList(SupportedProtocols));
      options := options.(ciphers := Or(options.ciphers, Str(CipherSuites)));
      options := options.(honorCipherOrder := Bool(!LooselyEqualsFalse(options.honorCipherOrder)));
      var server := new Server.OverTls(options);
      r := Ok(server);
    } else if Truthy(options.plain) {
      var server := new Server.OverPlainTcp();
      r := Ok(server);
    } else {
      r := Err(UpgradeUnsupported);
    }
  }

  /** `createServer(options, requestListener)`: only a TLS server can be built
      this way. A function in place of the options, or options without TLS
      material, throw before anything changes; otherwise the caller's `plain` is
      set to false and the server is built (always over TLS). A truthy request
      listener is then subscribed to it; one that is not a function throws, and
      the caller's `plain` stays false. */
  method CreateServerTls(arg: Argument, requestListener: JsValue) returns (r: Result<Server>)
    modifies if arg.ObjectArg? then {arg.obj} else {}
    ensures old(CheckTlsArgument(arg)).Some? ==> r == Err(old(CheckTlsArgument(arg)).value)
    ensures old(CheckTlsArgument(arg)).Some? && arg.ObjectArg? ==> arg.obj.Value() == old(arg.obj.Value())
    ensures old(CheckTlsArgument(arg)) == None ==> arg.obj.Value() == old(arg.obj.Value()).(plain := Bool(false))
    ensures old(CheckTlsArgument(arg)) == None && Truthy(requestListener) && !requestListener.Func? ==>
      r == Err(ListenerNotFunction)
    ensures r.Ok? <==> old(CheckTlsArgument(arg)) == None && (!Truthy(requestListener) || requestListener.Func?)
    ensures r.Ok? ==> fresh(r.value) && r.value.Valid() && r.value.mode == Tls
    ensures r.Ok? ==> r.value.listener == TlsListener(NormaliseTls(arg.obj.Value()))
    ensures r.Ok? ==> r.value.handled == []
    ensures r.Ok? ==> r.value.requestListeners == if requestListener.Func? then [requestListener] else []
  {
    match arg
    case FunctionArg =>
      return Err(OptionsRequired);
    case NullishArg =>
      return Err(NotAnObject);
    case PrimitiveArg =>
      return Err(TlsMaterialRequired);
    case ObjectArg(options) =>
      if !Truthy(options.pfx) && !(Truthy(options.key) && Truthy(options.cert)) {
        return Err(TlsMaterialRequired);
      }
      ghost var before := options.Value();
      assert HasTlsMaterial(before) && CheckTlsArgument(arg) == None;
      options.plain := Bool(false);
      assert options.Value() == before.(plain := Bool(false));
      assert SelectMode(Copy(arg)) == Ok(Tls);
      r := NewServer(arg);
      assert r.Ok? && r.value.mode == Tls;
      var server := r.value;
      if Truthy(requestListener) {
        if !requestListener.Func? {
          return Err(ListenerNotFunction);
        }
        server.AddRequestListener(requestListener);
      }
  }
}
