/**
  The client assembly of HttpProxyApplication.httpClient: choose a connection
  pool, set the connect timeout, add a forward-proxy hop when a proxy host is
  configured, add a custom TLS trust policy when certificates or the insecure
  flag are configured, and switch wire tracing on.

  The methods follow the Java method block by block (each lambda is a method
  of its own); each is proved equal to a specification function, and the
  lemmas at the end state the presence and precedence rules about the
  specification of the whole client.
 */
module HttpProxyApplication {
  import opened Wrappers
  import opened Text
  import opened GatewayProperties
  import opened Settings
  import opened Builders

  // ---------------------------------------------------------------------
  // Specification functions
  // ---------------------------------------------------------------------

  function ProviderFor(pool: Pool): ConnectionProvider {
    if pool.poolType == Some(Disabled) then NewConnection
    else if pool.poolType == Some(Fixed) then FixedPool(pool.name, pool.maxConnections, pool.acquireTimeout)
    else ElasticPool(pool.name)
  }

  function ProxySpecFor(proxy: Proxy): ProxySpec
    requires HasText(proxy.host)
  {
    var password := WhenHasText(proxy.password);
    ProxySpec(
      Http,
      proxy.host.value,
      proxy.port,
      WhenHasText(proxy.username),
      if password.Some? then Some(ConstantPassword(password.value)) else None,
      WhenHasText(proxy.nonProxyHostsPattern))
  }

  function TcpSpec(properties: HttpClientProperties, tcpClient: TcpSettings): TcpSettings {
    var timed :=
      if properties.connectTimeout.Some?
      then tcpClient.ConnectTimeoutOption(properties.connectTimeout.value)
      else tcpClient;
    if HasText(properties.proxy.host) then timed.WithProxy(ProxySpecFor(properties.proxy)) else timed
  }

  /** The guard of the `secure(...)` call. */
  predicate WantsCustomTrust(ssl: Ssl) {
    |ssl.trustedCertificates| > 0 || ssl.useInsecureTrustManager
  }

  function TlsSpecFor(ssl: Ssl): TlsSpec {
    TlsSpec(
      if |ssl.trustedCertificates| > 0 then TrustedCertificates(ssl.trustedCertificates)
      else if ssl.useInsecureTrustManager then InsecureTrustManager
      else PlatformDefault,
      ssl.defaultConfigurationType,
      ssl.handshakeTimeout,
      ssl.closeNotifyFlushTimeout,
      ssl.closeNotifyReadTimeout)
  }

  function ClientSpec(properties: HttpClientProperties): ClientSettings {
    var base := Create(ProviderFor(properties.pool));
    var client := base.TcpConfiguration(TcpSpec(properties, base.tcp));
    var secured := if WantsCustomTrust(properties.ssl) then client.Secure(TlsSpecFor(properties.ssl)) else client;
    secured.Wiretap(true)
  }

  // ---------------------------------------------------------------------
  // The assembly, step by step
  // ---------------------------------------------------------------------

  /** The if/else chain that picks the connection provider. */
  method SelectConnectionProvider(pool: Pool) returns (connectionProvider: ConnectionProvider)
    ensures connectionProvider == ProviderFor(pool)
  {
    if pool.poolType == Some(Disabled) {
      connectionProvider := NewConnection;
    } else if pool.poolType == Some(Fixed) {
      connectionProvider := FixedPool(pool.name, pool.maxConnections, pool.acquireTimeout);
    } else {
      connectionProvider := ElasticPool(pool.name);
    }
  }

  /** The proxy-spec function: an HTTP hop to the host, then each sub-field
      copied onto the builder only when the mapper lets it through. */
  method ConfigureProxy(proxy: Proxy) returns (spec: ProxySpec)
    requires HasText(proxy.host)
    ensures spec == ProxySpecFor(proxy)
  {
    var builder := new ProxyBuilder(Http, proxy.host.value);
    // whenNonNull
    if proxy.port.Some? {
      builder.Port(proxy.port.value);
    }
    var username := WhenHasText(proxy.username);
    if username.Some? {
      builder.Username(username.value);
    }
    var password := WhenHasText(proxy.password);
    if password.Some? {
      builder.Password(ConstantPassword(password.value));
    }
    var pattern := WhenHasText(proxy.nonProxyHostsPattern);
    if pattern.Some? {
      builder.NonProxyHosts(pattern.value);
    }
    spec := builder.Build();
  }

  /** The tcpConfiguration function: it reassigns tcpClient for the connect
      timeout and then for the proxy hop. */
  method ConfigureTcp(properties: HttpClientProperties, tcpClient: TcpSettings) returns (result: TcpSettings)
    ensures result == TcpSpec(properties, tcpClient)
  {
    result := tcpClient;
    if properties.connectTimeout.Some? {
      result := result.ConnectTimeoutOption(properties.connectTimeout.value);
    }
    var proxy := properties.proxy;
    if HasText(proxy.host) {
      var spec := ConfigureProxy(proxy);
      result := result.WithProxy(spec);
    }
  }

  /** The secure(...) function: a client SslContextBuilder whose trust policy
      is set from the certificates first and the insecure flag second, then
      the default configuration type and the three timeouts. */
  method ConfigureSsl(ssl: Ssl) returns (spec: TlsSpec)
    ensures spec == TlsSpecFor(ssl)
  {
    var sslContextBuilder := new SslContextBuilder.ForClient();
    var trustedX509Certificates := ssl.trustedCertificates;
    if |trustedX509Certificates| > 0 {
      sslContextBuilder.TrustCertificates(trustedX509Certificates);
    } else if ssl.useInsecureTrustManager {
      sslContextBuilder.TrustInsecure();
    }
    spec := TlsSpec(
      sslContextBuilder.trust,
      ssl.defaultConfigurationType,
      ssl.handshakeTimeout,
      ssl.closeNotifyFlushTimeout,
      ssl.closeNotifyReadTimeout);
  }

  /** httpClient(properties): the whole assembly. */
  method HttpClient(properties: HttpClientProperties) returns (httpClient: ClientSettings)
    ensures httpClient == ClientSpec(properties)
  {
    var pool := properties.pool;
    var connectionProvider := SelectConnectionProvider(pool);
    httpClient := Create(connectionProvider);
    var tcpClient := ConfigureTcp(properties, httpClient.tcp);
    httpClient := httpClient.TcpConfiguration(tcpClient);

    var ssl := properties.ssl;
    if |ssl.trustedCertificates| > 0 || ssl.useInsecureTrustManager {
      var sslContextSpec := ConfigureSsl(ssl);
      httpClient := httpClient.Secure(sslContextSpec);
    }

    httpClient := httpClient.Wiretap(true);
  }

  // ---------------------------------------------------------------------
  // Properties of the assembled client
  // ---------------------------------------------------------------------

  /** Pool choice: exactly one of three strategies; disabled gives a new
      connection per request, fixed carries name, limit and acquire timeout,
      and every other type, a null one included, gives an elastic pool. */
  lemma PoolSelection(properties: HttpClientProperties)
    ensures var pool, provider := properties.pool, ClientSpec(properties).provider;
      && (provider.NewConnection? <==> pool.poolType == Some(Disabled))
      && (provider.FixedPool? <==> pool.poolType == Some(Fixed))
      && (provider.ElasticPool? <==> pool.poolType !in {Some(Disabled), Some(Fixed)})
      && (provider.FixedPool? ==> provider == FixedPool(pool.name, pool.maxConnections, pool.acquireTimeout))
      && (provider.ElasticPool? ==> provider == ElasticPool(pool.name))
  {
  }

  /** The connect timeout is set exactly when it is configured, to the configured value. */
  lemma ConnectTimeoutIff(properties: HttpClientProperties)
    ensures var timeout := ClientSpec(properties).tcp.connectTimeout;
      && (timeout.Some? <==> properties.connectTimeout.Some?)
      && (timeout.Some? ==> timeout.value == properties.connectTimeout.value)
  {
  }

  /** A proxy hop exists exactly when the proxy host has text; it is an HTTP
      hop to that host. */
  lemma ProxyHopIff(properties: HttpClientProperties)
    ensures var hop := ClientSpec(properties).tcp.proxy;
      && (hop.Some? <==> HasText(properties.proxy.host))
      && (hop.Some? ==> hop.value.proxyType == Http && hop.value.host == properties.proxy.host.value)
  {
  }

  /** Each proxy sub-setting is set on its own condition and, when set, to
      the configured value; an absent or blank value leaves it unset. */
  lemma ProxySubSettings(properties: HttpClientProperties)
    requires HasText(properties.proxy.host)
    ensures var proxy, hop := properties.proxy, ClientSpec(properties).tcp.proxy;
      && hop.Some?
      && hop.value.port == proxy.port
      && (hop.value.username.Some? <==> HasText(proxy.username))
      && (hop.value.username.Some? ==> hop.value.username == proxy.username)
      && (hop.value.nonProxyHosts.Some? <==> HasText(proxy.nonProxyHostsPattern))
      && (hop.value.nonProxyHosts.Some? ==> hop.value.nonProxyHosts == proxy.nonProxyHostsPattern)
  {
  }

  /** The password supplier is installed exactly when the password has text,
      and it answers the configured password whatever user name it is asked for. */
  lemma PasswordSupplierConstant(properties: HttpClientProperties)
    requires HasText(properties.proxy.host)
    ensures var hop := ClientSpec(properties).tcp.proxy;
      && hop.Some?
      && (hop.value.password.Some? <==> HasText(properties.proxy.password))
      && (hop.value.password.Some? ==>
            forall user :: hop.value.password.value.Apply(user) == properties.proxy.password.value)
  {
  }

  /** A user name without a password, and a password without a user name,
      are both applied on their own. */
  lemma CredentialsIndependent(properties: HttpClientProperties)
    requires HasText(properties.proxy.host)
    ensures var proxy, hop := properties.proxy, ClientSpec(properties).tcp.proxy;
      && hop.Some?
      && (HasText(proxy.username) && !HasText(proxy.password) ==>
            hop.value.username == proxy.username && hop.value.password == None)
      && (!HasText(proxy.username) && HasText(proxy.password) ==>
            hop.value.username == None && hop.value.password == Some(ConstantPassword(proxy.password.value)))
  {
  }

  /** A proxy host with a user name and no password: the user name is set,
      no password supplier is installed, and the hop is still built. */
  lemma UsernameOnlyProxy(connectTimeout: Option<int>, pool: Pool, ssl: Ssl)
    ensures var proxy := Proxy(Some("proxy.local"), None, Some("u"), None, None);
      var hop := ClientSpec(HttpClientProperties(connectTimeout, pool, proxy, ssl)).tcp.proxy;
      hop == Some(ProxySpec(Http, "proxy.local", None, Some("u"), None, None))
  {
  }

  /** Settings the configuration leaves absent keep whatever the TCP client
      already had: they are not reset. */
  lemma TcpAbsentUntouched(properties: HttpClientProperties, tcpClient: TcpSettings)
    ensures var result := TcpSpec(properties, tcpClient);
      && (properties.connectTimeout.None? ==> result.connectTimeout == tcpClient.connectTimeout)
      && (!HasText(properties.proxy.host) ==> result.proxy == tcpClient.proxy)
  {
  }

  /** A TLS spec exists exactly when there is a trusted certificate or the
      insecure flag is set; otherwise the platform trust store applies. */
  lemma TlsPresenceIff(properties: HttpClientProperties)
    ensures var ssl, tls := properties.ssl, ClientSpec(properties).tls;
      (tls.Some? <==> |ssl.trustedCertificates| > 0 || ssl.useInsecureTrustManager)
  {
  }

  /** Certificates take precedence: with any certificate the trust is exactly
      that sequence, whatever the insecure flag; the insecure trust manager is
      used only with no certificate and the flag set; a present TLS spec never
      falls back to the platform trust store. */
  lemma TrustPrecedence(properties: HttpClientProperties)
    ensures var ssl, tls := properties.ssl, ClientSpec(properties).tls;
      && (|ssl.trustedCertificates| > 0 ==>
            tls.Some? && tls.value.trust == TrustedCertificates(ssl.trustedCertificates))
      && (tls.Some? && tls.value.trust == InsecureTrustManager <==>
            |ssl.trustedCertificates| == 0 && ssl.useInsecureTrustManager)
      && (tls.Some? ==> tls.value.trust != PlatformDefault)
  {
  }

  /** In either trust branch the default configuration type and the three
      timeouts are the configured ones. */
  lemma TlsSettingsCopied(properties: HttpClientProperties)
    ensures var ssl, tls := properties.ssl, ClientSpec(properties).tls;
      tls.Some? ==>
        && tls.value.defaultConfigurationType == ssl.defaultConfigurationType
        && tls.value.handshakeTimeout == ssl.handshakeTimeout
        && tls.value.closeNotifyFlushTimeout == ssl.closeNotifyFlushTimeout
        && tls.value.closeNotifyReadTimeout == ssl.closeNotifyReadTimeout
  {
  }

  /** Wire tracing is on for every configuration. */
  lemma WiretapAlwaysOn(properties: HttpClientProperties)
    ensures ClientSpec(properties).wiretap
  {
  }
}
