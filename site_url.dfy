/** `getSiteUrl`: the base URL the portal writes into e-mail links, picked by
    priority from the deployment's environment variables. */
module SiteUrl {
  import opened Common

  /** The three environment variables the choice reads; a missing variable is `None`. */
  datatype Env = Env(nodeEnv: Option<string>, siteUrl: Option<string>, vercelUrl: Option<string>)

  const LocalUrl := "http://localhost:3000"
  const FallbackUrl := "https://medisynq-omega.vercel.app"

  predicate Development(env: Env) {
    env.nodeEnv == Some("development")
  }

  /** Development means the local server; otherwise a set `NEXT_PUBLIC_SITE_URL` verbatim;
      otherwise the Vercel host over https; otherwise the production address. */
  function GetSiteUrl(env: Env): (r: string)
    ensures r != ""
    ensures r == LocalUrl <==> Development(env) || (Truthy(env.siteUrl) && env.siteUrl.value == LocalUrl)
    ensures !Development(env) && Truthy(env.siteUrl) ==> r == env.siteUrl.value
    ensures !Development(env) && !Truthy(env.siteUrl) ==> StartsWith(r, "https://")
    ensures !Development(env) && !Truthy(env.siteUrl) && Truthy(env.vercelUrl) ==> r == "https://" + env.vercelUrl.value
    ensures !Development(env) && !Truthy(env.siteUrl) && !Truthy(env.vercelUrl) ==> r == FallbackUrl
  {
    if Development(env) then LocalUrl
    else if Truthy(env.siteUrl) then env.siteUrl.value
    else if Truthy(env.vercelUrl) then
      var r := "https://" + env.vercelUrl.value;
      assert r[4] != LocalUrl[4];
      r
    else FallbackUrl
  }

  /** Only the first variable that decides the choice matters: once development is on,
      or a site URL is set outside development, the lower-priority variables change nothing. */
  lemma HigherPriorityWins(env: Env, other: Env)
    requires Development(env) == Development(other)
    requires Development(env) || (Truthy(env.siteUrl) && env.siteUrl == other.siteUrl)
    ensures GetSiteUrl(env) == GetSiteUrl(other)
  {
  }

  /** Outside development and without a site URL, the fixed production address comes out
      exactly when no Vercel host is set, or the Vercel host is that address's own host. */
  lemma VercelOrFallback(env: Env)
    requires !Development(env) && !Truthy(env.siteUrl)
    ensures GetSiteUrl(env) == FallbackUrl <==> !Truthy(env.vercelUrl) || env.vercelUrl.value == "medisynq-omega.vercel.app"
  {
    if Truthy(env.vercelUrl) {
      var v := env.vercelUrl.value;
      assert ("https://" + v)[8..] == v;
      assert FallbackUrl == "https://" + "medisynq-omega.vercel.app";
    }
  }
}
