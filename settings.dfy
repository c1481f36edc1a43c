/**
  The resolved settings of the outbound client: what each reactor-netty
  builder call records. HttpClient and TcpClient are immutable in
  reactor-netty (every call returns a new client), so they are values here.
 */
module Settings {
  import opened Wrappers
  import opened GatewayProperties

  /** The connection-pool strategy handed to HttpClient.create. */
  datatype ConnectionProvider =
    | NewConnection
    | FixedPool(name: string, maxConnections: int, acquireTimeout: int)
    | ElasticPool(name: string)

  /** ProxyProvider.Proxy. */
  datatype ProxyType = Http | Socks4 | Socks5

  /** The password function installed on the proxy builder. The assembly only
      ever installs one that ignores the user name it is given. */
  datatype PasswordSupplier = ConstantPassword(password: string) {
    function Apply(username: string): string {
      password
    }
  }

  /** A forward-proxy hop; a None sub-field was never set on the builder. */
  datatype ProxySpec = ProxySpec(
    proxyType: ProxyType,
    host: string,
    port: Option<int>,
    username: Option<string>,
    password: Option<PasswordSupplier>,
    nonProxyHosts: Option<string>)

  /** The trust policy of an SslContextBuilder. */
  datatype TrustManager =
    | PlatformDefault
    | TrustedCertificates(certificates: seq<Certificate>)
    | InsecureTrustManager

  /** What `secure(...)` installs: the SSL context and its lifecycle timeouts. */
  datatype TlsSpec = TlsSpec(
    trust: TrustManager,
    defaultConfigurationType: DefaultConfigurationType,
    handshakeTimeout: int,
    closeNotifyFlushTimeout: int,
    closeNotifyReadTimeout: int)

  /** The TCP-level settings: the CONNECT_TIMEOUT_MILLIS option and the proxy hop. */
  datatype TcpSettings = TcpSettings(connectTimeout: Option<int>, proxy: Option<ProxySpec>) {

    /** tcpClient.option(CONNECT_TIMEOUT_MILLIS, millis) */
    function ConnectTimeoutOption(millis: int): TcpSettings {
      this.(connectTimeout := Some(millis))
    }

    /** tcpClient.proxy(...) */
    function WithProxy(spec: ProxySpec): TcpSettings {
      this.(proxy := Some(spec))
    }
  }

  datatype ClientSettings = ClientSettings(
    provider: ConnectionProvider,
    tcp: TcpSettings,
    tls: Option<TlsSpec>,
    wiretap: bool)
  {
    /** httpClient.tcpConfiguration(...) with the TCP settings the function produced. */
    function TcpConfiguration(tcpClient: TcpSettings): ClientSettings {
      this.(tcp := tcpClient)
    }

    /** httpClient.secure(...) */
    function Secure(spec: TlsSpec): ClientSettings {
      this.(tls := Some(spec))
    }

    /** httpClient.wiretap(enable) */
    function Wiretap(enable: bool): ClientSettings {
      this.(wiretap := enable)
    }
  }

  /** HttpClient.create(provider): no TCP option, no proxy, no custom TLS, no wire tracing. */
  function Create(provider: ConnectionProvider): ClientSettings {
    ClientSettings(provider, TcpSettings(None, None), None, false)
  }
}
