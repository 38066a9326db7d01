/** The server's options: the fields it reads, how they select the mode, and how
    a TLS server rewrites them before creating its listener. */
module ServerOptions {
  import opened Text
  import opened Values
  import opened Policy
  import opened Negotiation

  /** A snapshot of an options object. Every field the server reads or writes;
      an unset field is `Undefined`. */
  datatype Options = Options(
    key: JsValue,
    cert: JsValue,
    pfx: JsValue,
    plain: JsValue,
    ciphers: JsValue,
    honorCipherOrder: JsValue,
    alpnProtocols: JsValue,   // the `ALPNProtocols` field
    npnProtocols: JsValue)    // the `NPNProtocols` field

  /** The empty options object `{}`. */
  const NoOptions: Options :=
    Options(Undefined, Undefined, Undefined, Undefined, Undefined, Undefined, Undefined, Undefined)

  /** The errors the server and its factory throw. */
  datatype Error =
    | UpgradeUnsupported   // "HTTP1.1 -> HTTP2 upgrade is not yet supported. ..."
    | OptionsRequired      // "options are required!"
    | TlsMaterialRequired  // "options.pfx or options.key and options.cert are required!"
    | NotAnObject          // the TypeError of reading a property of undefined or null
    | ListenerNotFunction  // the TypeError of subscribing a listener that is not a function

  datatype Option<T> = None | Some(value: T)

  datatype Result<T> = Ok(value: T) | Err(error: Error)

  /** The options carry a certificate and its key, or a PFX bundle. */
  predicate HasTlsMaterial(o: Options) {
    (Truthy(o.key) && Truthy(o.cert)) || Truthy(o.pfx)
  }

  /** The mode the server constructor picks. TLS material wins over the `plain`
      flag; without either, construction fails, since upgrading an HTTP/1.1
      connection to HTTP/2 is not supported. */
  function SelectMode(o: Options): (r: Result<Mode>)
    ensures r.Ok? <==> HasTlsMaterial(o) || Truthy(o.plain)
    ensures HasTlsMaterial(o) ==> r == Ok(Tls)
    ensures r == Ok(Plain) <==> !HasTlsMaterial(o) && Truthy(o.plain)
    ensures r.Err? ==> r.error == UpgradeUnsupported
  {
    if (Truthy(o.key) && Truthy(o.cert)) || Truthy(o.pfx) then Ok(Tls)
    else if Truthy(o.plain) then Ok(Plain)
    else Err(UpgradeUnsupported)
  }

  /** `honorCipherOrder != false`: the server's cipher order is honoured unless the
      caller's value is loosely equal to `false`. */
  function HonorCipherOrder(v: JsValue): (r: bool)
    ensures v == Undefined || v == Null ==> r
    ensures v.Bool? ==> r == v.b
    ensures v.Num? ==> r == (v.n != 0)
    ensures v.Obj? || v.Func? ==> r
    ensures !Truthy(v) && v != Undefined && v != Null ==> !r
  {
    !LooselyEqualsFalse(v)
  }

  /** Options as a TLS listener receives them: both offer lists are the fixed
      protocol list, a cipher string is set and `honorCipherOrder` is a boolean. */
  predicate IsNormalised(o: Options) {
    && o.alpnProtocols == StrList(SupportedProtocols)
    && o.npnProtocols == StrList(SupportedProtocols)
    && Truthy(o.ciphers)
    && o.honorCipherOrder.Bool?
  }

  /** Loose comparison with `false` goes through numbers: the string "0"
      counts as `false`. */
  lemma ZeroStringTurnsOrderOff()
    ensures !HonorCipherOrder(Str("0"))
  {
    assert TrimEnd(TrimStart("0")) == "0";
    assert AllZeros("0"[1..]);
    assert IsZeroNumeral("0");
  }

  /** A blank string and the empty array convert to 0, so they count as `false`. */
  lemma BlankValuesTurnOrderOff()
    ensures !HonorCipherOrder(Str(" \t")) && !HonorCipherOrder(StrList([]))
  {
    assert TrimStart(" \t") == "";
    assert IsZeroNumeral(" \t");
    assert Join([], ',') == "";
    assert IsZeroNumeral("");
  }

  /** The string "false" is not a number, so it does not equal `false`. */
  lemma FalseStringKeepsOrderOn()
    ensures HonorCipherOrder(Str("false"))
  {
  }

  /** The options a TLS server hands to its listener: ALPN and NPN offer the fixed
      protocol list, a falsy `ciphers` is replaced by the default cipher string,
      and `honorCipherOrder` becomes a boolean. Nothing else changes. */
  function NormaliseTls(o: Options): (r: Options)
    ensures r.alpnProtocols == StrList([Version, "http/1.1", "http/1.0"])
    ensures r.npnProtocols == r.alpnProtocols
    ensures Truthy(r.ciphers)
    ensures Truthy(o.ciphers) ==> r.ciphers == o.ciphers
    ensures !Truthy(o.ciphers) ==> r.ciphers == Str(CipherSuites)
    ensures r.honorCipherOrder.Bool?
    ensures o.honorCipherOrder == Undefined ==> r.honorCipherOrder == Bool(true)
    ensures o.honorCipherOrder == Bool(false) ==> r.honorCipherOrder == Bool(false)
    ensures r.honorCipherOrder == Bool(HonorCipherOrder(o.honorCipherOrder))
    ensures r.key == o.key && r.cert == o.cert && r.pfx == o.pfx && r.plain == o.plain
    ensures SelectMode(r) == SelectMode(o)
    ensures IsNormalised(r)
    ensures IsNormalised(o) ==> r == o
  {
    CipherSuitesNotEmpty();
    var honour := HonorCipherOrder(o.honorCipherOrder);
    o.(alpnProtocols := StrList(SupportedProtocols),
       npnProtocols := StrList(SupportedProtocols),
       ciphers := Or(o.ciphers, Str(CipherSuites)),
       honorCipherOrder := Bool(honour))
  }

  /** A caller's options object, whose fields the factory updates in place. */
  class OptionsObject {
    var key: JsValue
    var cert: JsValue
    var pfx: JsValue
    var plain: JsValue
    var ciphers: JsValue
    var honorCipherOrder: JsValue
    var alpnProtocols: JsValue
    var npnProtocols: JsValue

    constructor (o: Options)
      ensures Value() == o
    {
      key, cert, pfx, plain := o.key, o.cert, o.pfx, o.plain;
      ciphers, honorCipherOrder := o.ciphers, o.honorCipherOrder;
      alpnProtocols, npnProtocols := o.alpnProtocols, o.npnProtocols;
    }

    /** The object's fields as a value. */
    function Value(): Options
      reads this
    {
      Options(key, cert, pfx, plain, ciphers, honorCipherOrder, alpnProtocols, npnProtocols)
    }
  }

  /** What a caller passes where the options belong. */
  datatype Argument =
    | FunctionArg              // a function, e.g. a request listener
    | NullishArg               // undefined or null
    | PrimitiveArg             // a boolean, number or string
    | ObjectArg(obj: OptionsObject)

  /** `util._extend({}, arg)`: a shallow copy of an object; anything that is not an
      object gives the empty options. */
  function Copy(arg: Argument): (r: Options)
    reads if arg.ObjectArg? then {arg.obj} else {}
    ensures arg.ObjectArg? ==> r == arg.obj.Value()
    ensures !arg.ObjectArg? ==> r == NoOptions && SelectMode(r) == Err(UpgradeUnsupported)
  {
    match arg
    case ObjectArg(obj) => obj.Value()
    case _ => NoOptions
  }

  /** The factory's validation: which error, if any, it throws for `arg`. It accepts
      exactly an options object carrying TLS material. */
  function CheckTlsArgument(arg: Argument): (r: Option<Error>)
    reads if arg.ObjectArg? then {arg.obj} else {}
    ensures r == None <==> arg.ObjectArg? && HasTlsMaterial(arg.obj.Value())
    ensures arg.FunctionArg? ==> r == Some(OptionsRequired)
    ensures arg.NullishArg? ==> r == Some(NotAnObject)
    ensures (arg.ObjectArg? || arg.PrimitiveArg?) && r.Some? ==> r == Some(TlsMaterialRequired)
    ensures r == None ==> SelectMode(Copy(arg)) == Ok(Tls)
  {
    match arg
    case FunctionArg => Some(OptionsRequired)
    case NullishArg => Some(NotAnObject)
    case PrimitiveArg => Some(TlsMaterialRequired)
    case ObjectArg(obj) =>
      if !Truthy(obj.pfx) && !(Truthy(obj.key) && Truthy(obj.cert)) then Some(TlsMaterialRequired)
      else None
  }
}
