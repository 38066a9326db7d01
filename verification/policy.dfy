/** The fixed TLS policy of the server: the application protocols it offers in
    ALPN and NPN, and its default cipher-suite string. */
module Policy {
  import opened Text

  /** The ALPN identifier of HTTP/2 over TLS (section 3.3 of RFC 7540). In the
      server it is the `VERSION` constant of the http2 library's protocol module. */
  const Version: string := "h2"

  /** The identifiers offered during ALPN/NPN negotiation, most preferred first:
      HTTP/2, then HTTP/1.1 and HTTP/1.0 as fallbacks. */
  const SupportedProtocols: seq<string> := [Version, "http/1.1", "http/1.0"]

  /** The default cipher suites, in order of preference, followed by exclusions. */
  const CipherSuiteNames: seq<string> := [
    "ECDHE-RSA-AES128-GCM-SHA256",
    "ECDHE-ECDSA-AES128-GCM-SHA256",
    "ECDHE-RSA-AES256-GCM-SHA384",
    "ECDHE-ECDSA-AES256-GCM-SHA384",
    "DHE-RSA-AES128-GCM-SHA256",
    "DHE-DSS-AES128-GCM-SHA256",
    "ECDHE-RSA-AES128-SHA256",
    "ECDHE-ECDSA-AES128-SHA256",
    "ECDHE-RSA-AES128-SHA",
    "ECDHE-ECDSA-AES128-SHA",
    "ECDHE-RSA-AES256-SHA384",
    "ECDHE-ECDSA-AES256-SHA384",
    "ECDHE-RSA-AES256-SHA",
    "ECDHE-ECDSA-AES256-SHA",
    "DHE-RSA-AES128-SHA256",
    "DHE-RSA-AES128-SHA",
    "DHE-DSS-AES128-SHA256",
    "DHE-RSA-AES256-SHA256",
    "DHE-DSS-AES256-SHA",
    "DHE-RSA-AES256-SHA",
    "kEDH+AESGCM",
    "AES128-GCM-SHA256",
    "AES256-GCM-SHA384",
    "ECDHE-RSA-RC4-SHA",
    "ECDHE-ECDSA-RC4-SHA",
    "AES128",
    "AES256",
    "RC4-SHA",
    "HIGH",
    "!aNULL",
    "!eNULL",
    "!EXPORT",
    "!DES",
    "!3DES",
    "!MD5",
    "!PSK"
  ]

  /** The default value of the `ciphers` option: the names joined with ':'. */
  const CipherSuites: string := Join(CipherSuiteNames, ':')

  lemma NoSeparatorInCipherNames()
    ensures forall i :: 0 <= i < |CipherSuiteNames| ==> ':' !in CipherSuiteNames[i]
  {
  }

  /** The default cipher string is not empty, so it is truthy. */
  lemma CipherSuitesNotEmpty()
    ensures CipherSuites != ""
  {
  }

  /** The default cipher string names exactly the listed suites, in order: no
      name contains the ':' separator. */
  lemma CipherSuitesListsNames()
    ensures Split(CipherSuites, ':') == CipherSuiteNames
  {
    NoSeparatorInCipherNames();
    SplitJoin(CipherSuiteNames, ':');
  }
}
