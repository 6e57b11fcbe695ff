/** Where the app believes it runs: any host other than the local ones is
  * production, whose base address is fixed. The browser's location comes
  * in as parameters. */
module EnvironmentUtils {
  import Text

  const ProductionUrl: string := "https://elegant-biz-proposals.vercel.app"
  const DashboardPath: string := "/dashboard"

  /** `isProduction`. */
  function IsProduction(hostname: string): (r: bool)
    ensures hostname == "localhost" || hostname == "127.0.0.1" ==> !r
    ensures |hostname| > |"127.0.0.1"| ==> r
  {
    hostname != "localhost" && hostname != "127.0.0.1"
  }

  /** `getBaseUrl`; `protocol` keeps its colon, as `location.protocol`
    * does, and `host` carries the port. */
  function BaseUrl(hostname: string, protocol: string, host: string): (r: string)
    ensures IsProduction(hostname) ==> r == ProductionUrl
    ensures !IsProduction(hostname) ==> r == protocol + "//" + host
  {
    if IsProduction(hostname) then ProductionUrl else protocol + "//" + host
  }

  /** `getAuthRedirectUrl`. */
  function AuthRedirectUrl(hostname: string, protocol: string, host: string): (r: string)
    ensures Text.StartsWith(r, BaseUrl(hostname, protocol, host))
    ensures r[|BaseUrl(hostname, protocol, host)|..] == DashboardPath
  {
    var base := BaseUrl(hostname, protocol, host);
    Text.StartsWithAppend(base, DashboardPath);
    base + DashboardPath
  }

  /** In production the redirect is one fixed address whatever the host,
    * and locally it stays on the host the page was loaded from. */
  lemma RedirectByEnvironment(hostname: string, protocol: string, host: string, hostname2: string, protocol2: string, host2: string)
    ensures IsProduction(hostname) && IsProduction(hostname2) ==>
              AuthRedirectUrl(hostname, protocol, host) == AuthRedirectUrl(hostname2, protocol2, host2)
              == ProductionUrl + DashboardPath
    ensures !IsProduction(hostname) ==> AuthRedirectUrl(hostname, protocol, host) == protocol + "//" + host + DashboardPath
  {
  }
}
