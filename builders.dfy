/**
  The two builders the assembly mutates in place: reactor-netty's
  ProxyProvider.Builder and Netty's SslContextBuilder. Each setter records
  one value and leaves the others as they were.
 */
module Builders {
  import opened Wrappers
  import opened GatewayProperties
  import opened Settings

  class ProxyBuilder {
    var proxyType: ProxyType
    var host: string
    var port: Option<int>
    var username: Option<string>
    var password: Option<PasswordSupplier>
    var nonProxyHosts: Option<string>

    /** The proxy hop recorded so far. */
    function Build(): ProxySpec
      reads this
    {
      ProxySpec(proxyType, host, port, username, password, nonProxyHosts)
    }

    /** proxySpec.type(proxyType).host(host): nothing else is set yet. */
    constructor (proxyType: ProxyType, host: string)
      ensures Build() == ProxySpec(proxyType, host, None, None, None, None)
    {
      this.proxyType := proxyType;
      this.host := host;
      port, username, password, nonProxyHosts := None, None, None, None;
    }

    method Port(port: int)
      modifies this
      ensures Build() == old(Build()).(port := Some(port))
    {
      this.port := Some(port);
    }

    method Username(username: string)
      modifies this
      ensures Build() == old(Build()).(username := Some(username))
    {
      this.username := Some(username);
    }

    method Password(supplier: PasswordSupplier)
      modifies this
      ensures Build() == old(Build()).(password := Some(supplier))
    {
      this.password := Some(supplier);
    }

    method NonProxyHosts(pattern: string)
      modifies this
      ensures Build() == old(Build()).(nonProxyHosts := Some(pattern))
    {
      this.nonProxyHosts := Some(pattern);
    }
  }

  class SslContextBuilder {
    var trust: TrustManager

    /** SslContextBuilder.forClient(): the platform trust store applies. */
    constructor ForClient()
      ensures trust == PlatformDefault
    {
      trust := PlatformDefault;
    }

    /** trustManager(X509Certificate...): trust exactly these certificates,
        replacing any previous trust policy. */
    method TrustCertificates(certificates: seq<Certificate>)
      modifies this
      ensures trust == TrustedCertificates(certificates)
    {
      trust := TrustedCertificates(certificates);
    }

    /** trustManager(InsecureTrustManagerFactory.INSTANCE): accept any server
        certificate, replacing any previous trust policy. */
    method TrustInsecure()
      modifies this
      ensures trust == InsecureTrustManager
    {
      trust := InsecureTrustManager;
    }
  }
}
