/**
  The parsed gateway client configuration (HttpClientProperties) that the
  client assembly reads. A Java field that may be null is an Option; durations
  are whole milliseconds, since the assembly only copies them.
 */
module GatewayProperties {
  import opened Wrappers

  /** HttpClientProperties.Pool.PoolType. */
  datatype PoolType = Elastic | Fixed | Disabled

  /** The pool section; `poolType` is None when the type is null. */
  datatype Pool = Pool(
    poolType: Option<PoolType>,
    name: string,
    maxConnections: int,
    acquireTimeout: int)

  /** The upstream forward-proxy section; every field may be null. */
  datatype Proxy = Proxy(
    host: Option<string>,
    port: Option<int>,
    username: Option<string>,
    password: Option<string>,
    nonProxyHostsPattern: Option<string>)

  /** An already-parsed X.509 certificate, kept opaque. */
  datatype Certificate = Certificate(encoded: seq<bv8>)

  /** reactor-netty's SslProvider.DefaultConfigurationType (NONE, TCP, H2). */
  datatype DefaultConfigurationType = NoDefaults | Tcp | H2

  /** The TLS section; `trustedCertificates` is the parsed certificate array, in order. */
  datatype Ssl = Ssl(
    trustedCertificates: seq<Certificate>,
    useInsecureTrustManager: bool,
    handshakeTimeout: int,
    closeNotifyFlushTimeout: int,
    closeNotifyReadTimeout: int,
    defaultConfigurationType: DefaultConfigurationType)

  datatype HttpClientProperties = HttpClientProperties(
    connectTimeout: Option<int>,
    pool: Pool,
    proxy: Proxy,
    ssl: Ssl)
}
