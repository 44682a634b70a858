/**
 The Microsoft Entra ID provider descriptor handed to the authentication
 framework. It is built from a client id, a client secret and an issuer URL;
 every endpoint is a fixed template on `login.microsoftonline.com` with the
 tenant taken from the issuer (module `Tenant`) put in its path.
 */
module EntraProvider {
  import opened Wrappers
  import opened Tenant

  datatype Config = Config(clientId: string, clientSecret: string, issuer: string)

  /** The parts of the descriptor that carry data; the display `style` block
      and the `profile` callback (module `Profile`) are not fields here. */
  datatype Descriptor = Descriptor(
    id: string,
    name: string,
    kind: string,
    idToken: bool,
    tokenEndpointAuthMethod: string,
    issuer: string,
    authorizationUrl: string,
    scope: string,
    wellKnown: string,
    checks: seq<string>,
    tokenUrl: string,
    options: Config)

  const ProviderId: string := "microsoft-entra-id"
  const ProviderName: string := "Microsoft Entra ID"
  const Scope: string := "openid profile email User.Read"
  const LoginHost: string := "https://login.microsoftonline.com/"

  /** Path suffixes that follow the tenant in the four endpoint templates. */
  const IssuerPath: string := "/v2.0"
  const AuthorizePath: string := "/oauth2/v2.0/authorize"
  const TokenPath: string := "/oauth2/v2.0/token"
  const WellKnownPath: string := "/v2.0/.well-known/openid-configuration"

  /** The URL of template `path` for `tenant`: the host prefix, then the
      tenant, then the path, each at a fixed position. */
  function Endpoint(tenant: string, path: string): (url: string)
    ensures |url| == |LoginHost| + |tenant| + |path|
    ensures url[..|LoginHost|] == LoginHost
    ensures url[|LoginHost|..|LoginHost| + |tenant|] == tenant
    ensures url[|LoginHost| + |tenant|..] == path
  {
    LoginHost + tenant + path
  }

  /** `MicrosoftEntraProvider(config)`. */
  function MicrosoftEntraProvider(config: Config): (d: Descriptor)
    ensures d.options == config
    ensures d.id == ProviderId && d.kind == "oauth" && d.idToken
    ensures d.scope == Scope && d.checks == ["state"]
    ensures d.tokenEndpointAuthMethod == "client_secret_post"
  {
    var tenant := TenantId(config.issuer);
    Descriptor(
      id := ProviderId,
      name := ProviderName,
      kind := "oauth",
      idToken := true,
      tokenEndpointAuthMethod := "client_secret_post",
      issuer := Endpoint(tenant, IssuerPath),
      authorizationUrl := Endpoint(tenant, AuthorizePath),
      scope := Scope,
      wellKnown := Endpoint(tenant, WellKnownPath),
      checks := ["state"],
      tokenUrl := Endpoint(tenant, TokenPath),
      options := config)
  }

  /** Reads the tenant back out of a URL of template `path`: the text
      between the host prefix and the path, when it is a non-empty
      slash-free segment. */
  function TenantOfEndpoint(url: string, path: string): (t: Option<string>)
    ensures t.Some? ==> t.value != "" && SlashFree(t.value) && url == Endpoint(t.value, path)
  {
    if |url| >= |LoginHost| + |path|
       && url[..|LoginHost|] == LoginHost
       && url[|url| - |path|..] == path
    then
      var tenant := url[|LoginHost|..|url| - |path|];
      if tenant != "" && SlashFree(tenant) then
        assert url == url[..|LoginHost|] + tenant + url[|url| - |path|..];
        Some(tenant)
      else None
    else None
  }

  /** Every well-formed tenant is recovered from the URL it produces. */
  lemma EndpointRoundTrip(tenant: string, path: string)
    requires tenant != "" && SlashFree(tenant)
    ensures TenantOfEndpoint(Endpoint(tenant, path), path) == Some(tenant)
  {
    var url := Endpoint(tenant, path);
    assert url[..|LoginHost|] == LoginHost;
    assert url[|url| - |path|..] == path;
    assert url[|LoginHost|..|url| - |path|] == tenant;
  }

  /** The four URLs embed the tenant extracted from the configured issuer,
      each in its own template, and the tenant can be read back from each. */
  lemma EndpointsCarryTenant(config: Config)
    ensures var d := MicrosoftEntraProvider(config);
            var t := TenantId(config.issuer);
            && TenantOfEndpoint(d.issuer, IssuerPath) == Some(t)
            && TenantOfEndpoint(d.authorizationUrl, AuthorizePath) == Some(t)
            && TenantOfEndpoint(d.tokenUrl, TokenPath) == Some(t)
            && TenantOfEndpoint(d.wellKnown, WellKnownPath) == Some(t)
  {
    var t := TenantId(config.issuer);
    EndpointRoundTrip(t, IssuerPath);
    EndpointRoundTrip(t, AuthorizePath);
    EndpointRoundTrip(t, TokenPath);
    EndpointRoundTrip(t, WellKnownPath);
  }

  /** An issuer `p + "/" + seg + "/wsfed"` puts exactly `seg` into every
      endpoint. */
  lemma EndpointsEmbedSegment(config: Config, prefix: string, seg: string)
    requires Decomposes(config.issuer, prefix, seg)
    ensures var d := MicrosoftEntraProvider(config);
            && d.issuer == Endpoint(seg, IssuerPath)
            && d.authorizationUrl == Endpoint(seg, AuthorizePath)
            && d.tokenUrl == Endpoint(seg, TokenPath)
            && d.wellKnown == Endpoint(seg, WellKnownPath)
  {
    TenantIsSegment(config.issuer, prefix, seg);
  }

  /** Any other issuer routes every endpoint to the `common` tenant. */
  lemma EndpointsUseCommon(config: Config)
    requires forall prefix, seg :: !Decomposes(config.issuer, prefix, seg)
    ensures var d := MicrosoftEntraProvider(config);
            && d.issuer == Endpoint(DefaultTenant, IssuerPath)
            && d.authorizationUrl == Endpoint(DefaultTenant, AuthorizePath)
            && d.tokenUrl == Endpoint(DefaultTenant, TokenPath)
            && d.wellKnown == Endpoint(DefaultTenant, WellKnownPath)
  {
    TenantFallsBack(config.issuer);
  }

  /** The descriptor depends on the client credentials only through
      `options`: two configurations with the same issuer give the same
      descriptor once `options` is set alike. */
  lemma OnlyIssuerMatters(c1: Config, c2: Config)
    requires c1.issuer == c2.issuer
    ensures MicrosoftEntraProvider(c1).(options := c2) == MicrosoftEntraProvider(c2)
  {
  }

  /** Issuers with different tenants never share an endpoint. */
  lemma DistinctTenantsDistinctEndpoints(c1: Config, c2: Config)
    requires TenantId(c1.issuer) != TenantId(c2.issuer)
    ensures var d1 := MicrosoftEntraProvider(c1);
            var d2 := MicrosoftEntraProvider(c2);
            && d1.issuer != d2.issuer
            && d1.authorizationUrl != d2.authorizationUrl
            && d1.tokenUrl != d2.tokenUrl
            && d1.wellKnown != d2.wellKnown
  {
    EndpointsCarryTenant(c1);
    EndpointsCarryTenant(c2);
  }

  /** An issuer without the `/wsfed` shape, such as `https://example.com/foo`,
      lands on the `common` tenant. */
  lemma ExampleWithoutTenant()
    ensures MicrosoftEntraProvider(Config("id", "secret", "https://example.com/foo")).authorizationUrl
            == Endpoint("common", AuthorizePath)
  {
    var issuer := "https://example.com/foo";
    assert issuer[|issuer| - 6..] != WsfedSuffix by {
      assert issuer[|issuer| - 1] == 'o';
    }
    NoSuffixNoDecomposition(issuer);
    TenantFallsBack(issuer);
  }

  /** A WS-Federation sign-on endpoint yields its tenant segment. */
  lemma ExampleWithTenant()
    ensures MicrosoftEntraProvider(Config("id", "secret", "https://sts.example/contoso/wsfed")).tokenUrl
            == Endpoint("contoso", TokenPath)
  {
    var issuer := "https://sts.example/contoso/wsfed";
    assert issuer == "https://sts.example" + "/" + "contoso" + WsfedSuffix;
    TenantIsSegment(issuer, "https://sts.example", "contoso");
  }
}
