/** Facts that tie the origin gate to the session cookie in a production
    deployment. */
module Deployment {
  import opened Wrappers
  import opened Environment
  import CorsPolicy
  import Session
  import Hosts

  /** The host of the production origin is `ProductionHostName`: the origin
      is the `https` scheme, the separator and that host, with no port or
      path. */
  lemma ProductionOriginHost()
    ensures Hosts.HostOf(CorsPolicy.ProductionOrigin) == Some(CorsPolicy.ProductionHostName)
  {
    var scheme, host, tail := "https", CorsPolicy.ProductionHostName, "";
    assert scheme + Hosts.SchemeSeparator == "https://";
    assert scheme + Hosts.SchemeSeparator + host + tail == CorsPolicy.ProductionOrigin;
    Hosts.HostOfComposed(scheme, host, tail);
  }

  /** The production host is one label below `hostingersite.com`, and the
      production cookie domain is that domain with a leading dot. */
  lemma ProductionNamesSplit()
    ensures CorsPolicy.ProductionHostName == "tan-aardvark-644850" + "." + "hostingersite.com"
    ensures Session.ProductionCookieDomain == "." + "hostingersite.com"
  {
  }

  /** The production cookie's domain covers the host of the only production
      origin the gate admits: `.hostingersite.com` is a suffix of that host,
      and the host domain-matches the domain in the sense of RFC 6265. */
  lemma ProductionCookieCoversProductionOrigin()
    ensures CorsPolicy.Decide(Production, Some(CorsPolicy.ProductionOrigin)) == CorsPolicy.Allow
    ensures var domain := Session.CookieOptionsFor(Production).domain;
      && domain.Some?
      && Hosts.HostOf(CorsPolicy.ProductionOrigin).Some?
      && Hosts.IsSuffix(domain.value, Hosts.HostOf(CorsPolicy.ProductionOrigin).value)
      && Hosts.DomainMatches(Hosts.HostOf(CorsPolicy.ProductionOrigin).value, Hosts.DomainAttributeValue(domain.value))
  {
    ProductionOriginHost();
    ProductionNamesSplit();
    Hosts.SubdomainIsCovered("tan-aardvark-644850", "hostingersite.com");
  }

  /** The host of each local front-end origin is `localhost`: the origin is
      the `http` scheme, the separator, that host and a port. */
  lemma LocalOriginHost(origin: string)
    requires origin == CorsPolicy.LocalViteOrigin || origin == CorsPolicy.LocalReactOrigin
    ensures Hosts.HostOf(origin) == Some("localhost")
  {
    if origin == CorsPolicy.LocalViteOrigin {
      assert origin == "http" + Hosts.SchemeSeparator + "localhost" + ":5173";
      Hosts.HostOfComposed("http", "localhost", ":5173");
    } else {
      assert origin == "http" + Hosts.SchemeSeparator + "localhost" + ":3000";
      Hosts.HostOfComposed("http", "localhost", ":3000");
    }
  }

  /** The local origins, admitted with credentials even in production, lie
      outside the production cookie's domain: `localhost` does not
      domain-match it. A page there reaches the API cross-site, and the
      production cookie is marked `SameSite=None` (and so secure), the one
      setting under which a browser sends it on such requests. The
      development cookie names no domain and stays host-only. */
  lemma LocalOriginsOutsideProductionCookieDomain(origin: string)
    requires origin == CorsPolicy.LocalViteOrigin || origin == CorsPolicy.LocalReactOrigin
    ensures CorsPolicy.Decide(Production, Some(origin)) == CorsPolicy.Allow
    ensures Hosts.HostOf(origin).Some?
    ensures !Hosts.DomainMatches(Hosts.HostOf(origin).value, Hosts.DomainAttributeValue(Session.ProductionCookieDomain))
    ensures Session.CookieOptionsFor(Production).sameSite == Session.SameSiteNone
    ensures Session.CookieOptionsFor(Production).secure
    ensures Session.CookieOptionsFor(Development).domain == None
  {
    LocalOriginHost(origin);
    assert Hosts.DomainAttributeValue(Session.ProductionCookieDomain) == "hostingersite.com";
  }
}
