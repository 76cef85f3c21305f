/**
 * The client-side service layer of the dashboard: every exported call of the
 * service is modelled as the request it sends to the same-origin proxy
 * (method, path relative to the proxy base, query parameters, JSON body),
 * together with the response shapes the callers read. The transport itself,
 * and the logging around it, are not modelled.
 */
module AdGuardService {
  import opened Outcomes

  /** Base URL of the proxy; every request path below is relative to it. */
  const BaseUrl: string := "/api/adguard"

  /** Suffix that marks a blocklist rule as important. */
  const ImportantSuffix: string := "^$important"

  /** Prefix of the display name given to a custom blocklist rule. */
  const CustomRuleName: string := "Custom rule for "

  type ServiceId = string

  datatype HttpMethod = Get | Post

  /** Pagination of the query log; absent keys are simply not sent. */
  datatype QueryParams = QueryParams(limit: Option<int>, offset: Option<int>)

  /** The empty parameter object. */
  const NoParams: QueryParams := QueryParams(None, None)

  /** The JSON bodies the service posts. */
  datatype Body =
    | NoBody
    | EnabledFlag(enabled: bool)           // an object with the single key `enabled`
    | AddUrl(name: string, url: string)    // an object with the keys `name` and `url`
    | ServiceIds(ids: seq<ServiceId>)      // a bare JSON array of service ids

  datatype Request = Request(verb: HttpMethod, path: string, params: QueryParams, body: Body)

  /** The URL the request goes to once the client's base URL is applied. */
  function Url(r: Request): string {
    BaseUrl + r.path
  }

  // ---------------------------------------------------------------------------
  // Response shapes (only the fields the dashboard reads; floating-point
  // statistics are left out).

  datatype AdGuardStatus = AdGuardStatus(version: string, protectionEnabled: bool, dnsAddresses: seq<string>, running: bool)

  datatype AdGuardStats = AdGuardStats(
    numDnsQueries: int, numBlockedFiltering: int,
    numReplacedSafebrowsing: int, numReplacedParental: int, timeUnits: string)

  datatype Filter = Filter(id: int, enabled: bool, url: string, name: string, rulesCount: int, lastUpdated: string)

  datatype FilteringStatus = FilteringStatus(enabled: bool, filters: seq<Filter>)

  datatype DnsAnswer = DnsAnswer(rrType: string, value: string, ttl: int)

  /**
   * The question of a query-log record. Upstream responses carry the queried
   * domain under `host` or under `name`, so both keys are optional here.
   */
  datatype Question = Question(qclass: string, qtype: string, host: Option<string>, name: Option<string>)

  datatype QueryLogEntry = QueryLogEntry(
    answer: seq<DnsAnswer>, client: string, clientProto: string, elapsedMs: string,
    question: Option<Question>, reason: string, status: string, time: string, upstream: string)

  /** The query-log response, an object whose `data` key may be missing. */
  datatype QueryLogResponse = QueryLogResponse(data: Option<seq<QueryLogEntry>>)

  datatype Client = Client(
    name: string, ids: seq<string>, useGlobalSettings: bool, filteringEnabled: bool,
    parentalEnabled: bool, safebrowsingEnabled: bool, safesearchEnabled: bool,
    useGlobalBlockedServices: bool, blockedServices: seq<ServiceId>, upstreams: seq<string>)

  datatype WhoisInfo = WhoisInfo(country: Option<string>, orgname: Option<string>)

  datatype AutoClient = AutoClient(whoisInfo: WhoisInfo, ip: string, name: string, source: string)

  datatype ClientsResponse = ClientsResponse(
    clients: Option<seq<Client>>, autoClients: Option<seq<AutoClient>>, supportedTags: Option<seq<string>>)

  datatype BlockedService = BlockedService(id: ServiceId, name: string, iconSvg: string, rules: seq<string>)

  /** The catalogue response, an object whose `blocked_services` key may be missing. */
  datatype BlockedServicesResponse = BlockedServicesResponse(blockedServices: Option<seq<BlockedService>>)

  // ---------------------------------------------------------------------------
  // Readers: each is a GET without body; only the query log takes parameters.

  function GetStatus(): (r: Request)
    ensures r.verb == Get && r.body == NoBody && r.params == NoParams
    ensures Url(r) == BaseUrl + "/status"
  {
    Request(Get, "/status", NoParams, NoBody)
  }

  function GetStats(): (r: Request)
    ensures r.verb == Get && r.body == NoBody && r.params == NoParams
    ensures Url(r) == BaseUrl + "/stats"
  {
    Request(Get, "/stats", NoParams, NoBody)
  }

  function GetFiltering(): (r: Request)
    ensures r.verb == Get && r.body == NoBody && r.params == NoParams
    ensures Url(r) == BaseUrl + "/filtering/status"
  {
    Request(Get, "/filtering/status", NoParams, NoBody)
  }

  /** The query log; the pagination object is passed on as given, empty by default. */
  function GetQueryLog(params: QueryParams := NoParams): (r: Request)
    ensures r.verb == Get && r.body == NoBody && r.params == params
    ensures Url(r) == BaseUrl + "/querylog"
  {
    Request(Get, "/querylog", params, NoBody)
  }

  function GetClients(): (r: Request)
    ensures r.verb == Get && r.body == NoBody && r.params == NoParams
    ensures Url(r) == BaseUrl + "/clients"
  {
    Request(Get, "/clients", NoParams, NoBody)
  }

  function GetDhcpStatus(): (r: Request)
    ensures r.verb == Get && r.body == NoBody && r.params == NoParams
    ensures Url(r) == BaseUrl + "/dhcp/status"
  {
    Request(Get, "/dhcp/status", NoParams, NoBody)
  }

  function GetBlockedServices(): (r: Request)
    ensures r.verb == Get && r.body == NoBody && r.params == NoParams
    ensures Url(r) == BaseUrl + "/blocked_services/all"
  {
    Request(Get, "/blocked_services/all", NoParams, NoBody)
  }

  function GetEnabledBlockedServices(): (r: Request)
    ensures r.verb == Get && r.body == NoBody && r.params == NoParams
    ensures Url(r) == BaseUrl + "/blocked_services/list"
  {
    Request(Get, "/blocked_services/list", NoParams, NoBody)
  }

  /** The eight read calls of the service, with the query log at its default parameters. */
  function Readers(): seq<Request> {
    [GetStatus(), GetStats(), GetFiltering(), GetQueryLog(), GetClients(),
     GetDhcpStatus(), GetBlockedServices(), GetEnabledBlockedServices()]
  }

  // ---------------------------------------------------------------------------
  // Writers

  /** Sets protection: a POST of exactly the flag, on the path the filtering reader reads. */
  function ToggleProtection(enabled: bool): (r: Request)
    ensures r.verb == Post && r.params == NoParams
    ensures r.path == GetFiltering().path
    ensures r.body == EnabledFlag(enabled)
  {
    Request(Post, "/filtering/status", NoParams, EnabledFlag(enabled))
  }

  /**
   * The filtering rule that blocks `domain` and everything below it, marked
   * important: two bars, the domain verbatim, then the important suffix.
   */
  function BlocklistRule(domain: string): (r: string)
    ensures |r| == |domain| + 13
    ensures r[..2] == "||"
    ensures r[2..|domain| + 2] == domain
    ensures r[|domain| + 2..] == "^$important"
  {
    var r := "||" + (domain + ImportantSuffix);
    assert r[2..] == domain + ImportantSuffix;
    assert r[2..|domain| + 2] == (r[2..])[..|domain|];
    assert r[|domain| + 2..] == (r[2..])[|domain|..];
    r
  }

  /** Adds a custom filter whose single rule blocks `domain`, named after the domain. */
  function AddBlockedDomain(domain: string): (r: Request)
    ensures r.verb == Post && r.path == "/filtering/add_url" && r.params == NoParams
    ensures r.body.AddUrl?
    ensures r.body.name == "Custom rule for " + domain
    ensures RuleDomain(r.body.url) == Some(domain)
  {
    RuleDomainRoundTrip(domain);
    Request(Post, "/filtering/add_url", NoParams, AddUrl(CustomRuleName + domain, BlocklistRule(domain)))
  }

  /** Replaces the whole enabled-service list upstream with `services`. */
  function SetBlockedServices(services: seq<ServiceId>): (r: Request)
    ensures r.verb == Post && r.path == "/blocked_services/set" && r.params == NoParams
    ensures InstalledServices(r) == Some(services)
  {
    Request(Post, "/blocked_services/set", NoParams, ServiceIds(services))
  }

  // ---------------------------------------------------------------------------
  // Partners: what the upstream reads back out of a request

  /** The domain a blocklist rule of the form `||d^$important` blocks, if it has that form. */
  function RuleDomain(rule: string): Option<string> {
    if |rule| >= 2 + |ImportantSuffix| && rule[..2] == "||" && rule[|rule| - |ImportantSuffix|..] == ImportantSuffix
    then Some(rule[2..|rule| - |ImportantSuffix|])
    else None
  }

  /** The enabled-service list a request installs upstream, if it is a set-services request. */
  function InstalledServices(r: Request): Option<seq<ServiceId>> {
    if r.verb == Post && r.path == "/blocked_services/set" && r.body.ServiceIds? then Some(r.body.ids) else None
  }

  // ---------------------------------------------------------------------------
  // Properties

  /** Reading the domain back out of the rule for `d` gives `d`. */
  lemma RuleDomainRoundTrip(d: string)
    ensures RuleDomain(BlocklistRule(d)) == Some(d)
  {
    var r := BlocklistRule(d);
    assert r[2..|r| - 11] == d;
  }

  /** Every rule that has the blocklist form is the rule for the domain read out of it. */
  lemma RuleDomainInverse(rule: string, d: string)
    requires RuleDomain(rule) == Some(d)
    ensures BlocklistRule(d) == rule
  {
    var n := |rule|;
    assert rule == rule[..2] + rule[2..n - 11] + rule[n - 11..];
  }

  /** Distinct domains give distinct blocklist rules. */
  lemma BlocklistRuleInjective(d1: string, d2: string)
    requires d1 != d2
    ensures BlocklistRule(d1) != BlocklistRule(d2)
  {
    RuleDomainRoundTrip(d1);
    RuleDomainRoundTrip(d2);
  }

  /**
   * A request that installs a list carries exactly that list as its body, the
   * body of the set request: no other service ids are merged in or reordered.
   */
  lemma SetBlockedServicesInstalls(services: seq<ServiceId>)
    ensures forall r :: InstalledServices(r) == Some(services) ==> r.body == SetBlockedServices(services).body
  {
  }

  /** Distinct flags give distinct protection requests, so the upstream can tell on from off. */
  lemma ToggleProtectionInjective(a: bool, b: bool)
    ensures ToggleProtection(a) == ToggleProtection(b) <==> a == b
  {
  }

  /** The query-log reader forwards its pagination verbatim and sends none by default. */
  lemma GetQueryLogForwards(params: QueryParams)
    ensures GetQueryLog(params).params.limit == params.limit && GetQueryLog(params).params.offset == params.offset
    ensures GetQueryLog().params.limit.None? && GetQueryLog().params.offset.None?
    ensures GetQueryLog(params).path == GetQueryLog().path
  {
  }

  /**
   * Every reader is a GET without body on its own fixed path under the proxy
   * base, and only the query-log reader takes parameters.
   */
  lemma ReadersAreGets()
    ensures |Readers()| == 8
    ensures forall r :: r in Readers() ==> r.verb == Get && r.body == NoBody && r.params == NoParams
    ensures forall r :: r in Readers() ==> Url(r) == BaseUrl + r.path && |r.path| > 1 && r.path[0] == '/'
  {
    var rs := Readers();
    forall i | 0 <= i < |rs|
      ensures rs[i].verb == Get && rs[i].body == NoBody && rs[i].params == NoParams
      ensures |rs[i].path| > 1 && rs[i].path[0] == '/'
    {
    }
  }

  /** The eight readers read eight different paths. */
  lemma ReaderPathsDistinct()
    ensures forall i, j :: 0 <= i < j < |Readers()| ==> Readers()[i].path != Readers()[j].path
  {
    // The eight paths have eight different lengths, which separates them.
    var lengths := seq(8, i requires 0 <= i < 8 => |Readers()[i].path|);
    assert lengths == [7, 6, 17, 9, 8, 12, 21, 22];
  }
}
