/** The framework-generated sitemap: three fixed routes and one route per
    case study. The environment's site URL, the clock and the slugs are
    parameters (one clock reading serves every entry). */
module Sitemap {
  import opened Wrappers
  import SitemapXml

  datatype Frequency = Weekly | Monthly

  datatype Route = Route(url: string, lastModified: nat, changeFrequency: Frequency, priority: real)

  const DefaultBase := "https://airstudio.design"

  /** `NEXT_PUBLIC_SITE_URL || 'https://airstudio.design'`. */
  function BaseUrl(env: Option<string>): (r: string)
    ensures Truthy(env) ==> r == env.value
    ensures !Truthy(env) ==> r == DefaultBase
    ensures r != ""
  {
    OrDefault(env, DefaultBase)
  }

  /** The route of one case study. */
  function CaseRoute(base: string, now: nat, slug: string): Route {
    Route(base + "/case-study/" + slug, now, Monthly, 0.7)
  }

  /** `sitemap()`: the fixed routes, then the case routes in input order. */
  function SitemapRoutes(env: Option<string>, now: nat, slugs: seq<string>): (r: seq<Route>)
    ensures |r| == 3 + |slugs|
    ensures r[0] == Route(BaseUrl(env), now, Weekly, 1.0)
    ensures r[1] == Route(BaseUrl(env) + "/#work", now, Weekly, 0.8)
    ensures r[2] == Route(BaseUrl(env) + "/#footer", now, Monthly, 0.6)
    ensures forall j :: 0 <= j < |slugs| ==>
      r[3 + j].url == BaseUrl(env) + "/case-study/" + slugs[j] &&
      r[3 + j].changeFrequency == Monthly && r[3 + j].priority == 0.7
    ensures forall i :: 0 <= i < |r| ==> BaseUrl(env) <= r[i].url && r[i].lastModified == now
  {
    var base := BaseUrl(env);
    var routes := [
      Route(base, now, Weekly, 1.0),
      Route(base + "/#work", now, Weekly, 0.8),
      Route(base + "/#footer", now, Monthly, 0.6)];
    var cases := seq(|slugs|, j requires 0 <= j < |slugs| => CaseRoute(base, now, slugs[j]));
    assert forall j :: 0 <= j < |slugs| ==> base <= cases[j].url by {
      forall j | 0 <= j < |slugs| ensures base <= cases[j].url {
        assert cases[j].url == base + ("/case-study/" + slugs[j]);
      }
    }
    routes + cases
  }

  /** Distinct slugs get distinct case routes, so no two case studies share
      a URL. */
  lemma CaseUrlsDistinct(env: Option<string>, now: nat, slugs: seq<string>, i: nat, j: nat)
    requires i < |slugs| && j < |slugs| && slugs[i] != slugs[j]
    ensures SitemapRoutes(env, now, slugs)[3 + i].url != SitemapRoutes(env, now, slugs)[3 + j].url
  {
    var p := BaseUrl(env) + "/case-study/";
    var a := p + slugs[i];
    var b := p + slugs[j];
    assert a[|p|..] == slugs[i];
    assert b[|p|..] == slugs[j];
  }

  /** Without a configured site URL the two sitemaps of the site name
      different hosts, and they place a case study at different paths:
      every case URL here differs from the XML route's URL for the same slug. */
  lemma SitemapsDisagree(now: nat, slugs: seq<string>, iso: string, j: nat)
    requires j < |slugs|
    ensures SitemapRoutes(None, now, slugs)[3 + j].url != SitemapXml.Entries(iso, slugs)[5 + j].loc
  {
    var here := SitemapRoutes(None, now, slugs)[3 + j].url;
    var there := SitemapXml.Entries(iso, slugs)[5 + j].loc;
    assert here == DefaultBase + ("/case-study/" + slugs[j]);
    assert there == SitemapXml.Base + ("/" + slugs[j]);
    assert here[18] == 'd';
    assert there[18] == 'w';
  }
}
