# Outbound client assembly of the HTTP proxy

This project models how the HTTP proxy builds its single outbound HTTP client,
`HttpProxyApplication.httpClient(HttpClientProperties)`. From the parsed
gateway client properties the method:

- picks a connection pool: a new connection per request, a fixed pool, or an
  elastic pool, which is the fallback for every other pool type;
- sets the TCP connect timeout when one is configured;
- adds an HTTP forward-proxy hop when the proxy host has text, and copies
  each proxy sub-field (port, user name, password, non-proxy-hosts pattern)
  only when that field is present;
- adds a custom TLS trust policy when certificates are configured or the
  insecure flag is set. Certificates win over the insecure flag. The TLS
  default configuration type and the three TLS timeouts are copied in either
  branch;
- always turns wire tracing on.

The reactor-netty and Netty objects are opaque. Their builder calls are
modelled by the settings they record (module `Settings`). The two builders
that the Java code mutates in place, `ProxyProvider.Builder` and
`SslContextBuilder`, are classes (module `Builders`). The immutable
`HttpClient` and `TcpClient` are values that the methods reassign.

Each block of the Java method is a method of module `HttpProxyApplication`.
Each lambda is a method of its own. Each method is proved equal to a
specification function (`ProviderFor`, `ProxySpecFor`, `TcpSpec`,
`TlsSpecFor`, `ClientSpec`). The lemmas state the presence and precedence
rules about `ClientSpec`.

Spring's `StringUtils.hasText` and `PropertyMapper.whenHasText` are modelled
in module `Text`. `HasText` is a recursive scan, like Spring's loop.
`ContainsTextMeaning` proves the documented meaning: the value is non-null
and holds a character that Java's `Character.isWhitespace` does not count as
whitespace. `whenNonNull` is a test for `Some`. Durations are whole
milliseconds, because the assembly only copies them.

Files: `wrappers.dfy` (Option), `text.dfy`, `properties.dfy` (the input
configuration), `settings.dfy` (the resolved client settings),
`builders.dfy`, `http_proxy_application.dfy`.

## Model

| member | source | states |
|---|---|---|
| Text.ContainsTextMeaning | src/main/java/com/example/httpproxy/HttpProxyApplication.java:66 | the scan used by hasText finds text exactly when some position holds a non-whitespace character |
| Text.HasTextMeaning | src/main/java/com/example/httpproxy/HttpProxyApplication.java:66 | hasText holds exactly for a non-null string with a non-whitespace character, so null, empty and blank strings have none |
| Text.WhenHasText | src/main/java/com/example/httpproxy/HttpProxyApplication.java:76-81 | whenHasText passes a value, unchanged, exactly when it has text, and drops it otherwise |
| Builders.ProxyBuilder.constructor | src/main/java/com/example/httpproxy/HttpProxyApplication.java:69-71 | type and host are set and no other proxy field is set |
| Builders.ProxyBuilder.Port | src/main/java/com/example/httpproxy/HttpProxyApplication.java:75 | sets the port and leaves every other builder field as it was |
| Builders.ProxyBuilder.Username | src/main/java/com/example/httpproxy/HttpProxyApplication.java:76-77 | sets the user name and leaves every other builder field as it was |
| Builders.ProxyBuilder.Password | src/main/java/com/example/httpproxy/HttpProxyApplication.java:78-79 | installs the password supplier and leaves every other builder field as it was |
| Builders.ProxyBuilder.NonProxyHosts | src/main/java/com/example/httpproxy/HttpProxyApplication.java:80-81 | sets the non-proxy-hosts pattern and leaves every other builder field as it was |
| Builders.SslContextBuilder.ForClient | src/main/java/com/example/httpproxy/HttpProxyApplication.java:92 | a fresh client SSL context builder uses the platform trust store |
| Builders.SslContextBuilder.TrustCertificates | src/main/java/com/example/httpproxy/HttpProxyApplication.java:97 | trust becomes exactly the given certificate sequence, replacing any earlier policy |
| Builders.SslContextBuilder.TrustInsecure | src/main/java/com/example/httpproxy/HttpProxyApplication.java:99-100 | trust becomes the insecure trust manager, replacing any earlier policy |
| HttpProxyApplication.SelectConnectionProvider | src/main/java/com/example/httpproxy/HttpProxyApplication.java:44-52 | the if/else chain yields the provider of the pool specification, whose properties PoolSelection states |
| HttpProxyApplication.ConfigureProxy | src/main/java/com/example/httpproxy/HttpProxyApplication.java:68-82 | the builder run by the proxy-spec function yields the proxy hop of the specification |
| HttpProxyApplication.ConfigureTcp | src/main/java/com/example/httpproxy/HttpProxyApplication.java:55-85 | the successive reassignments of tcpClient yield the TCP settings of the specification |
| HttpProxyApplication.ConfigureSsl | src/main/java/com/example/httpproxy/HttpProxyApplication.java:90-108 | the SSL context builder and its copied settings yield the TLS spec of the specification |
| HttpProxyApplication.HttpClient | src/main/java/com/example/httpproxy/HttpProxyApplication.java:39-114 | the assembled client equals the client specification, whose properties the lemmas below state |
| HttpProxyApplication.PoolSelection | src/main/java/com/example/httpproxy/HttpProxyApplication.java:45-52 | disabled gives new-connection, fixed gives a fixed pool with name, limit and acquire timeout, every other type (null too) an elastic pool keyed by name; exactly one holds |
| HttpProxyApplication.ConnectTimeoutIff | src/main/java/com/example/httpproxy/HttpProxyApplication.java:57-61 | the connect timeout is set if and only if configured, and then to the configured value |
| HttpProxyApplication.ProxyHopIff | src/main/java/com/example/httpproxy/HttpProxyApplication.java:66-71 | a proxy hop exists if and only if the host has text; it is an HTTP hop to that host |
| HttpProxyApplication.ProxySubSettings | src/main/java/com/example/httpproxy/HttpProxyApplication.java:75-81 | port is copied as configured (unset when null); user name and non-proxy pattern are set if and only if they have text, to the configured value |
| HttpProxyApplication.PasswordSupplierConstant | src/main/java/com/example/httpproxy/HttpProxyApplication.java:78-79 | the password supplier is installed if and only if the password has text, and it returns the configured password for every user name |
| HttpProxyApplication.CredentialsIndependent | src/main/java/com/example/httpproxy/HttpProxyApplication.java:76-79 | a user name without a password and a password without a user name are each applied alone |
| HttpProxyApplication.UsernameOnlyProxy | src/main/java/com/example/httpproxy/HttpProxyApplication.java:66-81 | host "proxy.local" with user "u" and no password gives an HTTP hop with that user and no password |
| HttpProxyApplication.TcpAbsentUntouched | src/main/java/com/example/httpproxy/HttpProxyApplication.java:57-84 | an absent connect timeout or a host without text leaves the incoming TCP setting as it was |
| HttpProxyApplication.TlsPresenceIff | src/main/java/com/example/httpproxy/HttpProxyApplication.java:88-90 | a TLS spec exists if and only if there is a certificate or the insecure flag is set |
| HttpProxyApplication.TrustPrecedence | src/main/java/com/example/httpproxy/HttpProxyApplication.java:94-101 | any certificate makes the trust exactly that sequence, whatever the flag; insecure trust if and only if no certificate and the flag; never the platform default once TLS is present |
| HttpProxyApplication.TlsSettingsCopied | src/main/java/com/example/httpproxy/HttpProxyApplication.java:103-107 | a present TLS spec carries the configured default configuration type and the three timeouts |
| HttpProxyApplication.WiretapAlwaysOn | src/main/java/com/example/httpproxy/HttpProxyApplication.java:111 | wire tracing is on for every configuration |

## Left out

- `main` (lines 26-31): it sets a JVM system property and boots Spring, which is process state and bootstrap, not logic.
- The server customizer bean (lines 34-36): a one-line call that turns on wire tracing of the embedded Netty server.
- Runtime behaviour of the reactor-netty objects: connection reuse, pool exhaustion after the acquire timeout, concurrent acquire and release, TLS handshakes, certificate validation and regex matching of the non-proxy hosts. These live in libraries and are mostly concurrency.
- Certificate parsing in `getTrustedX509CertificatesForTrustManager`: certificates are opaque values in a sequence. The Java code calls that getter twice; the model reads it once, because it is taken to return the same certificates both times.
- Argument checks inside the libraries are not modelled: a null pool name, a null timeout, a non-positive connection limit or an invalid regex would throw there. The model only copies these values.
- The lazy evaluation of the `tcpConfiguration` and `secure` functions: the model applies them at once, which gives the same settings.
- Spring annotations, dependency injection and the fluent-builder mechanics: only the resulting settings are modelled.
- Text.IsWhitespace: follows current Java, so U+180E is not whitespace (older Java releases counted it). Characters are Unicode scalar values, not UTF-16 code units.
