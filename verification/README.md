# http2-polyglot: verified model of the server's decision layer

`index.js` wraps an HTTP/2 server. Around the protocol engines, which it does not
implement, it makes three decisions:

- **Mode selection and option rewriting** (the `Server` constructor). Options with
  a key and a certificate, or with a PFX bundle, give a server over TLS; otherwise
  the `plain` flag gives a server over plain TCP; otherwise construction throws,
  because an upgrade from HTTP/1.1 is not supported. A TLS server rewrites its copy
  of the options before creating its listener:
  - ALPN and NPN both offer `[h2, http/1.1, http/1.0]`;
  - a falsy `ciphers` is replaced by the default cipher string;
  - `honorCipherOrder` becomes `honorCipherOrder != false`.
- **The per-connection decision** (the `secureConnection` handler). The
  negotiated protocol is the ALPN result, or the NPN result when ALPN gave
  nothing truthy. Only an exact match with the HTTP/2 identifier goes to the
  HTTP/2 engine (`start`); everything else goes to the HTTP/1 engine
  (`fallback`). A plain TCP server hands every connection to `start`.
- **The TLS-only factory** (`createServer`). It rejects a function given in place
  of the options, and options with neither `pfx` nor `key` and `cert`. It then
  sets the caller's `plain` to `false` and builds the server, which is therefore
  always over TLS. A truthy request listener is subscribed to the server; one
  that is not a function makes the event emitter throw, after `plain` was set.

Files and modules:

- `text.dfy` (`Text`): `Array.prototype.join` and its inverse, `split`.
- `values.dfy` (`Values`): the JavaScript values the code inspects. It covers
  truthiness, `a || b` and loose comparison with `false`.
- `policy.dfy` (`Policy`): the HTTP/2 identifier, the offered protocol list and
  the default cipher suites.
- `negotiation.dfy` (`Negotiation`): the decision, the routing of a socket in
  each mode, and the logs of which engine received which socket.
- `options.dfy` (`ServerOptions`): the options record, mode selection, the TLS
  rewriting, the caller's mutable options object and the factory's validation.
- `server.dfy` (`Http2Server`): the `Server` class, its accept handler, the
  constructor as `NewServer` and the factory as `CreateServerTls`.

A thrown error is modelled as `Err(e)` of a `Result`. Dafny constructors cannot
fail, so the JavaScript constructor is the method `NewServer`. It makes the same
choices in the same order and then calls one of two class constructors, which
only set the fields. The server's `mode` and `listener` are `const` fields. The
sockets handed to each engine are recorded in ghost logs. `Server.Valid()` ties
those logs to the function `Negotiation.Routed` of the accepted sockets.

index.js:78-79 overwrite `ALPNProtocols` and `NPNProtocols` unconditionally, so
a caller's list is discarded; `NormaliseTls` states this.

## Model

| member | source | states |
|---|---|---|
| Values.Or | index.js:86 | JavaScript's `or` of two values is truthy exactly when one operand is; it is the first operand when that is truthy and the second otherwise |
| Text.Join | index.js:63 | the joined string starts with the first part, followed by the separator when there are more parts |
| Text.Split | index.js:63 | splitting gives at least one piece, and no piece contains the separator |
| Text.JoinSplit | index.js:63 | joining the pieces of any split string with the same separator gives the string back |
| Text.SplitJoin | index.js:26-63 | splitting a joined non-empty list returns the list, provided no part contains the separator |
| Policy.CipherSuitesNotEmpty | index.js:26-63 | the default cipher string is not empty, so it is truthy |
| Policy.CipherSuitesListsNames | index.js:26-63 | the default cipher string splits at ':' into exactly the 36 listed suites, in order |
| Negotiation.Decide | index.js:86-93 | `start` exactly when ALPN gave the HTTP/2 identifier, or ALPN gave nothing truthy and NPN gave it; a truthy ALPN result alone decides; every other value falls back |
| Negotiation.FallbackExamples | index.js:86-93 | undefined, false, "" and "http/1.1" fall back; an ALPN "http/1.1" is not overridden by an NPN "h2"; "h2" from ALPN or NPN starts HTTP/2 when the other mechanism reports undefined or false |
| Negotiation.Route | index.js:85-102 | a plain TCP server starts HTTP/2 on every socket; a TLS server starts it exactly when the negotiated protocol is the HTTP/2 identifier |
| Negotiation.Routed | index.js:89-93 | an engine never receives more sockets than were accepted |
| Negotiation.RoutedMembers | index.js:89-93 | an engine receives a socket exactly when the socket was accepted and is routed to that engine |
| Negotiation.DispatchedExactlyOnce | index.js:89-93 | the secure connections given to `start` and to `fallback` together are the accepted secure connections, each exactly once |
| Negotiation.PlainStartsEverySocket | index.js:102 | on a plain TCP server every socket goes to `start` and none to `fallback` |
| ServerOptions.SelectMode | index.js:75-108 | a server exists exactly when there is TLS material or a truthy `plain`; TLS material gives TLS whatever `plain` says; otherwise plain; otherwise the upgrade error |
| ServerOptions.HonorCipherOrder | index.js:81 | absent or null means true, a boolean is kept, a number is true when non-zero, objects and functions mean true, and every other falsy value means false |
| ServerOptions.ZeroStringTurnsOrderOff | index.js:81 | `honorCipherOrder: "0"` turns the server's cipher order off |
| ServerOptions.BlankValuesTurnOrderOff | index.js:81 | a blank string and an empty array turn the server's cipher order off |
| ServerOptions.FalseStringKeepsOrderOn | index.js:81 | the string "false" keeps the server's cipher order on |
| ServerOptions.NormaliseTls | index.js:78-81 | ALPN and NPN offer `[h2, http/1.1, http/1.0]`; a truthy `ciphers` is kept, otherwise it is the default string; `honorCipherOrder` becomes the boolean `HonorCipherOrder` gives for the caller's value (so true when absent or null, false for `false`, 0, "0", "" and `[]`); TLS material, `plain` and the selected mode are unchanged; rewriting twice changes nothing |
| ServerOptions.Copy | index.js:66 | an object's eight fields; any non-object (function, undefined, null, primitive) gives the empty options, which select no mode and so make construction fail with the upgrade error |
| ServerOptions.CheckTlsArgument | index.js:116-121 | the factory accepts exactly an options object with TLS material, which then selects TLS mode; a function is rejected with "options are required!", undefined and null with the engine's TypeError, and any other argument without TLS material with "options.pfx or options.key and options.cert are required!" |
| Http2Server.Server.OverTls | index.js:77-82 | a new TLS server holds its listener options, has accepted nothing and has no request listener |
| Http2Server.Server.OverPlainTcp | index.js:101-102 | a new plain TCP server has accepted nothing and has no request listener |
| Http2Server.Server.Accept | index.js:85-102 | each secure connection (or, on a plain TCP server, each connection) goes to exactly one engine, chosen by `Route`; only that engine's log grows; the logs stay a partition of the accepted connections |
| Http2Server.Server.AddRequestListener | index.js:126-128 | a function listener is appended to the `request` subscribers; the server stays valid and nothing else changes |
| Http2Server.NewServer | index.js:65-112 | construction fails with the upgrade error exactly when `SelectMode` fails; otherwise a fresh valid server in the selected mode, over the rewritten options when in TLS mode |
| Http2Server.CreateServerTls | index.js:115-131 | it fails as `CheckTlsArgument` says, without touching the caller's object; otherwise the caller's `plain` is false and nothing else of it changes, and a truthy request listener that is not a function then throws; on success the server is over TLS with the rewritten options and has the request listener when that is a function |

## Left out

- Creating and listening on the `net` and `httpolyglot` servers (index.js:82, 102) is socket I/O. The model records only which listener is created and with which options.
- Saving and removing the original `secureConnection` listeners (index.js:83-84) is event-emitter plumbing; the saved list is not used again in index.js. The inherited `_fallback`, which is not part of this model, is where such listeners would be consumed.
- Re-emitting the `request` and `close` events (index.js:95, 111) is event forwarding; only the factory's own subscription of the request listener is modelled.
- The bodies of `_start` and `_fallback`, inherited from `http2.Server`, are the protocol engines. The model records which of the two receives each socket.
- The TLS handshake, cipher negotiation and the meaning of the cipher-suite names are the TLS library's.
- The logger shim, `_settings` and `exports.protocol` (index.js:8-19, 68-69, 135) carry no behaviour.
- The value "h2" of the HTTP/2 identifier is taken from section 3.3 of RFC 7540. The http2 library that defines `protocol.VERSION` is not part of this model. The proofs use only that it is a non-empty string different from the fallback identifiers.
- Options other than the eight modelled fields (such as `log`, `settings`, `ca` and `passphrase`) are not modelled. A TLS server copies them to its listener unchanged (index.js:82); a plain TCP server ignores them (index.js:102).
- `util._extend` copies only own enumerable properties. The model copies the eight fields of an object and treats any non-object as empty options.
- Values.LooselyEqualsFalse: string-to-number conversion recognises only blank strings and an optional sign followed by zeros. Other spellings of zero (decimals such as "0.0", exponents, hex, underflow) and Unicode space separators other than the listed ones are not recognised.
- Values.LooselyEqualsFalse: objects other than string arrays are taken to convert to NaN. A Buffer whose text is "0" would in fact compare equal to `false`.
- Values.Truthy: numbers are integers, so NaN and fractions are not modelled.
- Http2Server.Server.Accept: the TLS `secureConnection` handler and the plain TCP connection callback are one method, selected by the server's mode. In TLS mode it sees only the connections that completed the TLS handshake; plaintext connections that the `httpolyglot` listener serves itself reach the server only as `request` events (index.js:95) and are not modelled.
- ServerOptions.CheckTlsArgument: `NotAnObject` stands for the TypeError that the JavaScript engine throws when reading `pfx` of `undefined` or `null`. Its message is the engine's.
- Http2Server.CreateServerTls: `ListenerNotFunction` stands for the TypeError that Node's event emitter throws for a listener that is not a function. Its message is Node's. The server built before the throw is not returned.
