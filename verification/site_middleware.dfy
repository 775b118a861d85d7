/**
  Which site a request is for (middleware/site_middleware.go): the site whose
  domain is the request's host, created on the spot in development mode, and
  handed to the next handler through the request context.
 */
module SiteMiddleware {
  import opened Common
  import opened Models
  import opened Store

  /** What `GetSiteByHost` returns: a database error, no site (not an error), or the site. */
  datatype SiteLookup = LookupError | NoSuchSite | FoundSite(site: Site)

  /**
    `GetSiteByHost`: the first site whose domain is the host. `lookupFails`
    stands for a database error other than "record not found".
   */
  function GetSiteByHost(sites: seq<Site>, host: string, lookupFails: bool): (r: SiteLookup)
    ensures lookupFails <==> r == LookupError
    ensures r.FoundSite? ==> r.site in sites && r.site.domain == host
    ensures r == NoSuchSite ==> forall i :: 0 <= i < |sites| ==> sites[i].domain != host
  {
    if lookupFails then LookupError
    else
      match FirstIndex(sites, (s: Site) => s.domain == host)
      case None => NoSuchSite
      case Some(i) => FoundSite(sites[i])
  }

  /** `IsDev`: the ENV variable is exactly "development". */
  predicate IsDev(env: string) {
    env == "development"
  }

  const SiteContextKey: string := "site"

  /** The values of a request context, by key. */
  type Context = map<string, Site>

  function WithSite(ctx: Context, site: Site): Context {
    ctx[SiteContextKey := site]
  }

  /** `GetSiteFromContext`: the stored site, or none when the context holds none. */
  function GetSiteFromContext(ctx: Context): (r: Option<Site>)
    ensures SiteContextKey !in ctx ==> r == None
    ensures SiteContextKey in ctx ==> r == Some(ctx[SiteContextKey])
  {
    if SiteContextKey in ctx then Some(ctx[SiteContextKey]) else None
  }

  /** The site stored by the middleware is the one the next handler reads back. */
  lemma ContextRoundTrip(ctx: Context, site: Site)
    ensures GetSiteFromContext(WithSite(ctx, site)) == Some(site)
    ensures GetSiteFromContext(map[]) == None
  {
  }

  /** How a request leaves the middleware. */
  datatype SiteOutcome =
    | Next(ctx: Context)           // the next handler runs with this context
    | Fail(failure: Failure)       // an error response
    | SiteNotFoundPage             // the "site not found" page is served

  const SiteLookupFailed: Failure := Failure(StatusInternalServerError, "获取站点信息失败")
  const DefaultSiteName: string := "Default Site"

  /**
    The decision of `Handler` and the site table after it: an existing site is
    used; in development mode a missing one is created with the host as its
    domain; otherwise the request stops.
   */
  function Resolve(sites: seq<Site>, host: string, env: string, lookupFails: bool, ctx: Context)
    : (r: (SiteOutcome, seq<Site>))
    ensures lookupFails ==> r == (Fail(SiteLookupFailed), sites)
    ensures r.0.Next? ==> var s := GetSiteFromContext(r.0.ctx);
                          s.Some? && s.value in r.1 && s.value.domain == host
    ensures r.1 != sites ==> && IsDev(env)
                             && GetSiteByHost(sites, host, lookupFails) == NoSuchSite
                             && r.1 == sites + [Site(|sites| + 1, DefaultSiteName, host)]
    ensures GetSiteByHost(sites, host, lookupFails).FoundSite? ==>
              r == (Next(WithSite(ctx, GetSiteByHost(sites, host, lookupFails).site)), sites)
    ensures IsDev(env) && GetSiteByHost(sites, host, lookupFails) == NoSuchSite ==>
              var site := Site(|sites| + 1, DefaultSiteName, host);
              r == (Next(WithSite(ctx, site)), sites + [site])
    ensures !IsDev(env) && GetSiteByHost(sites, host, lookupFails) == NoSuchSite ==> r == (SiteNotFoundPage, sites)
  {
    match GetSiteByHost(sites, host, lookupFails)
    case LookupError => (Fail(SiteLookupFailed), sites)
    case FoundSite(site) => (Next(WithSite(ctx, site)), sites)
    case NoSuchSite =>
      if IsDev(env) then
        var site := Site(|sites| + 1, DefaultSiteName, host);
        (Next(WithSite(ctx, site)), sites + [site])
      else (SiteNotFoundPage, sites)
  }

  /** A created site keeps site ids sequential and domains unique. */
  lemma ResolveKeepsSites(sites: seq<Site>, host: string, env: string, lookupFails: bool, ctx: Context)
    requires SitesWellFormed(sites)
    ensures SitesWellFormed(Resolve(sites, host, env, lookupFails, ctx).1)
  {
  }

  /**
    A second request for a host that development mode provisioned finds the
    site created by the first and creates no other.
   */
  lemma ProvisionedOnce(sites: seq<Site>, host: string, ctx1: Context, ctx2: Context)
    requires SitesWellFormed(sites)
    requires GetSiteByHost(sites, host, false) == NoSuchSite
    ensures var (o1, sites1) := Resolve(sites, host, "development", false, ctx1);
            var (o2, sites2) := Resolve(sites1, host, "development", false, ctx2);
            && sites2 == sites1 && |sites1| == |sites| + 1
            && o2.Next? && GetSiteFromContext(o2.ctx) == GetSiteFromContext(o1.ctx)
  {
    var (o1, sites1) := Resolve(sites, host, "development", false, ctx1);
    assert sites1[|sites|].domain == host;
    assert FirstIndex(sites1, (s: Site) => s.domain == host) == Some(|sites|);
  }

  /** `Handler`: the site table changes only by the development-mode creation. */
  method Handler(db: Database, host: string, env: string, lookupFails: bool, ctx: Context)
    returns (o: SiteOutcome)
    requires db.Valid()
    modifies db
    ensures db.Valid()
    ensures (o, db.sites) == Resolve(old(db.sites), host, env, lookupFails, ctx)
    ensures db.users == old(db.users) && db.logs == old(db.logs) && db.files == old(db.files)
    ensures db.configs == old(db.configs) && db.nextConfigId == old(db.nextConfigId)
  {
    ResolveKeepsSites(db.sites, host, env, lookupFails, ctx);
    var lookup := GetSiteByHost(db.sites, host, lookupFails);
    if lookup.LookupError? {
      return Fail(SiteLookupFailed);
    }
    var site: Site;
    if lookup.FoundSite? {
      site := lookup.site;
    } else if IsDev(env) {
      site := Site(|db.sites| + 1, DefaultSiteName, host);
      db.sites := db.sites + [site];
    } else {
      return SiteNotFoundPage;
    }
    o := Next(WithSite(ctx, site));
  }
}
