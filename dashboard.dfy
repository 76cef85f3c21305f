/**
 * The dashboard view-model: the all-or-nothing refresh over six reads, the
 * query-log normalisation that puts the queried domain under one canonical
 * key, the null-coalescing of the client lists, and the protection toggle.
 */
module Dashboard {
  import opened Outcomes
  import opened AdGuardService

  const FetchDataError: string := "Failed to fetch data"
  const ToggleProtectionError: string := "Failed to toggle protection"

  /** How many query-log records a refresh asks for. */
  const QueryLogLimit: int := 100

  datatype DnsInfo = DnsInfo(
    upstreamDns: seq<string>, bootstrapDns: seq<string>, protectionEnabled: bool, ratelimit: int,
    blockingMode: string, blockingIpv4: string, blockingIpv6: string, ednsCsEnabled: bool,
    dnssecEnabled: bool, disableIpv6: bool, cacheSize: int, cacheTtlMin: int, cacheTtlMax: int,
    upstreamMode: string)

  /** The error text of the object the proxy answers with, status 500, when an upstream call fails. */
  const ProxyReadError: string := "Failed to fetch from AdGuard"

  /**
   * The body of the dns_info read: the DNS configuration, or the proxy's
   * error object, which this read stores like any other body.
   */
  datatype DnsInfoBody = DnsConfig(config: DnsInfo) | ErrorObject(error: string)

  /** The client lists as the dashboard keeps them, each one possibly null. */
  datatype ClientsData = ClientsData(
    clients: Option<seq<Client>>, autoClients: Option<seq<AutoClient>>, supportedTags: Option<seq<string>>)

  /** The DNS configuration read; it goes through the proxy directly, not through the service. */
  function GetDnsInfo(): (r: Request)
    ensures r.verb == Get && r.body == NoBody && r.params == NoParams
    ensures Url(r) == BaseUrl + "/dns_info"
  {
    Request(Get, "/dns_info", NoParams, NoBody)
  }

  /** The six reads of one refresh, in the order they are joined. */
  function RefreshRequests(): (r: seq<Request>)
    ensures |r| == 6
    ensures forall i :: 0 <= i < 6 ==> r[i].verb == Get && r[i].body == NoBody
    ensures r[3] == GetQueryLog(QueryParams(Some(100), None))
    ensures forall i :: 0 <= i < 6 && i != 3 ==> r[i].params == NoParams
  {
    [GetStatus(), GetStats(), GetFiltering(), GetQueryLog(QueryParams(Some(QueryLogLimit), None)),
     GetClients(), GetDnsInfo()]
  }

  /**
   * How a read through the service settles: axios rejects on the proxy's
   * error status, so an upstream failure is a rejection.
   */
  function ServiceRead<T>(upstream: Outcome<T>): (r: Outcome<Option<T>>)
    ensures r.Fail? <==> upstream.Fail?
    ensures r.Ok? ==> r.value == Some(upstream.value)
  {
    match upstream
    case Ok(v) => Ok(Some(v))
    case Fail => Fail
  }

  /**
   * How the dns_info read settles when the proxy is reachable: `fetch`
   * resolves whatever the status, so an upstream failure arrives as the
   * proxy's error object and never as a rejection.
   */
  function DnsInfoRead(upstream: Outcome<DnsInfo>): (r: Outcome<Option<DnsInfoBody>>)
    ensures r.Ok?
    ensures upstream.Ok? ==> r.value == Some(DnsConfig(upstream.value))
    ensures upstream.Fail? ==> r.value == Some(ErrorObject(ProxyReadError))
  {
    match upstream
    case Ok(v) => Ok(Some(DnsConfig(v)))
    case Fail => Ok(Some(ErrorObject(ProxyReadError)))
  }

  // ---------------------------------------------------------------------------
  // Query-log normalisation

  /** JavaScript truthiness of an optional string: present and non-empty. */
  predicate Truthy(s: Option<string>) {
    s.Some? && s.value != ""
  }

  /** The queried domain: the `host` key when it is present and non-empty, else the `name` key. */
  function CanonicalName(q: Question): (r: Option<string>)
    ensures r == q.host || r == q.name
    ensures Truthy(q.host) ==> r == q.host
    ensures q.host.None? ==> r == q.name
  {
    if Truthy(q.host) then q.host else q.name
  }

  /** The question with its `name` key overwritten by the canonical name; every other key is copied. */
  function NormalizeQuestion(q: Question): Question {
    q.(name := CanonicalName(q))
  }

  /** A record with its question normalised; every other key is copied. */
  function NormalizeEntry(e: QueryLogEntry): (r: QueryLogEntry)
    requires e.question.Some?
    ensures NormalizedFrom(e, r)
  {
    e.(question := Some(NormalizeQuestion(e.question.value)))
  }

  /** The record `r` is `e` with only the question's `name` replaced by the canonical name. */
  predicate NormalizedFrom(e: QueryLogEntry, r: QueryLogEntry) {
    e.question.Some? && r.question.Some? &&
    r.(question := e.question) == e &&
    r.question.value.qclass == e.question.value.qclass &&
    r.question.value.qtype == e.question.value.qtype &&
    r.question.value.host == e.question.value.host &&
    r.question.value.name == CanonicalName(e.question.value)
  }

  /**
   * Normalises every record of the log. Reading the host of a record that has
   * no question throws, so one such record makes the whole transform fail;
   * otherwise every record is kept, in order, and normalised.
   */
  function NormalizeQueryLog(entries: seq<QueryLogEntry>): (r: Outcome<seq<QueryLogEntry>>)
    ensures r.Ok? <==> forall i :: 0 <= i < |entries| ==> entries[i].question.Some?
    ensures r.Ok? ==> |r.value| == |entries|
    ensures r.Ok? ==> forall i :: 0 <= i < |entries| ==> NormalizedFrom(entries[i], r.value[i])
  {
    if entries == [] then Ok([])
    else if entries[0].question.None? then Fail
    else
      match NormalizeQueryLog(entries[1..])
      case Fail => Fail
      case Ok(rest) =>
        assert forall i :: 0 < i < |entries| ==> entries[i] == entries[1..][i - 1];
        Ok([NormalizeEntry(entries[0])] + rest)
  }

  /** The records of a query-log response; a null response or a missing `data` key gives none. */
  function LogEntries(response: Option<QueryLogResponse>): seq<QueryLogEntry> {
    if response.Some? then response.value.data.GetOr([]) else []
  }

  /** The whole query-log transform of one refresh. */
  function TransformQueryLog(response: Option<QueryLogResponse>): (r: Outcome<seq<QueryLogEntry>>)
    ensures r.Ok? <==> forall e :: e in LogEntries(response) ==> e.question.Some?
    ensures r.Ok? ==> |r.value| == |LogEntries(response)|
    ensures response.None? ==> r == Ok([])
  {
    NormalizeQueryLog(LogEntries(response))
  }

  /** A missing response, or a response without `data`, gives an empty log. */
  lemma MissingQueryLogIsEmpty(response: Option<QueryLogResponse>)
    requires response.None? || response.value.data.None?
    ensures TransformQueryLog(response) == Ok([])
  {
  }

  /** The canonical name is `host` when `host` is present and non-empty, and `name` otherwise. */
  lemma CanonicalNameChoice(e: QueryLogEntry)
    requires e.question.Some?
    ensures Truthy(e.question.value.host) ==> NormalizeEntry(e).question.value.name == e.question.value.host
    ensures !Truthy(e.question.value.host) ==> NormalizeEntry(e).question.value.name == e.question.value.name
  {
  }

  /** A record whose question carries only `name` comes out unchanged. */
  lemma NameOnlyEntryUnchanged(e: QueryLogEntry)
    requires e.question.Some? && e.question.value.host.None?
    ensures NormalizeEntry(e) == e
  {
  }

  /** Normalising twice is normalising once: the canonical shape is a fixed point. */
  lemma {:induction false} NormalizeQueryLogIdempotent(entries: seq<QueryLogEntry>)
    requires NormalizeQueryLog(entries).Ok?
    ensures NormalizeQueryLog(NormalizeQueryLog(entries).value) == NormalizeQueryLog(entries)
  {
    if entries != [] {
      NormalizeQueryLogIdempotent(entries[1..]);
      var rest := NormalizeQueryLog(entries[1..]).value;
      var n := NormalizeEntry(entries[0]);
      assert NormalizeQueryLog(entries).value == [n] + rest;
      assert ([n] + rest)[1..] == rest;
    }
  }

  // ---------------------------------------------------------------------------
  // Client lists

  /** Each of the three client lists, or null when the response or the list is missing; a present list is kept even when empty. */
  function CoalesceClients(response: Option<ClientsResponse>): (r: ClientsData)
    ensures response.None? ==> r.clients.None? && r.autoClients.None? && r.supportedTags.None?
    ensures response.Some? ==>
      r.clients == response.value.clients &&
      r.autoClients == response.value.autoClients &&
      r.supportedTags == response.value.supportedTags
  {
    match response
    case None => ClientsData(None, None, None)
    case Some(data) => ClientsData(data.clients, data.autoClients, data.supportedTags)
  }

  /** Coalescing is lossless on a present response: the kept lists read back as the response. */
  lemma CoalesceClientsRoundTrip(d: ClientsData)
    ensures CoalesceClients(Some(ClientsResponse(d.clients, d.autoClients, d.supportedTags))) == d
  {
  }

  // ---------------------------------------------------------------------------
  // The join of one refresh

  /** The six response values of a refresh. */
  datatype Responses = Responses(
    status: Option<AdGuardStatus>, stats: Option<AdGuardStats>, filtering: Option<FilteringStatus>,
    queryLog: Option<QueryLogResponse>, clients: Option<ClientsResponse>, dnsInfo: Option<DnsInfoBody>)

  /** `Promise.all` over the six reads: it rejects as soon as any one of them rejects. */
  function JoinAll(
    status: Outcome<Option<AdGuardStatus>>, stats: Outcome<Option<AdGuardStats>>,
    filtering: Outcome<Option<FilteringStatus>>, queryLog: Outcome<Option<QueryLogResponse>>,
    clients: Outcome<Option<ClientsResponse>>, dnsInfo: Outcome<Option<DnsInfoBody>>): (r: Outcome<Responses>)
    ensures r.Ok? <==> status.Ok? && stats.Ok? && filtering.Ok? && queryLog.Ok? && clients.Ok? && dnsInfo.Ok?
    ensures r.Ok? ==>
      r.value.status == status.value && r.value.stats == stats.value &&
      r.value.filtering == filtering.value && r.value.queryLog == queryLog.value &&
      r.value.clients == clients.value && r.value.dnsInfo == dnsInfo.value
  {
    match Both(Both(Both(status, stats), Both(filtering, queryLog)), Both(clients, dnsInfo))
    case Fail => Fail
    case Ok((((s, st), (f, q)), (c, d))) => Ok(Responses(s, st, f, q, c, d))
  }

  /**
   * The six reads treat an upstream failure differently: a failing statistics
   * read rejects the whole join, while a failing dns_info read still lets the
   * join resolve, carrying the proxy's error object as the DNS body.
   */
  lemma UpstreamFailureOfOneRead(
    status: AdGuardStatus, stats: AdGuardStats, filtering: FilteringStatus,
    log: QueryLogResponse, clients: ClientsResponse, dns: DnsInfo)
    ensures JoinAll(ServiceRead(Ok(status)), ServiceRead(Ok(stats)), ServiceRead(Ok(filtering)),
                    ServiceRead(Ok(log)), ServiceRead(Ok(clients)), DnsInfoRead(Fail)).Ok?
    ensures JoinAll(ServiceRead(Ok(status)), ServiceRead(Ok(stats)), ServiceRead(Ok(filtering)),
                    ServiceRead(Ok(log)), ServiceRead(Ok(clients)), DnsInfoRead(Fail)).value.dnsInfo
            == Some(ErrorObject(ProxyReadError))
    ensures JoinAll(ServiceRead(Ok(status)), ServiceRead<AdGuardStats>(Fail), ServiceRead(Ok(filtering)),
                    ServiceRead(Ok(log)), ServiceRead(Ok(clients)), DnsInfoRead(Ok(dns))).Fail?
  {
  }

  // ---------------------------------------------------------------------------
  // Protection toggle

  /** The displayed filtering state after a successful toggle: the flag replaced, everything else copied; null stays null. */
  function ToggledFiltering(prev: Option<FilteringStatus>, checked: bool): (r: Option<FilteringStatus>)
    ensures r.Some? <==> prev.Some?
    ensures r.Some? ==> r.value.enabled == checked && r.value.filters == prev.value.filters
  {
    match prev
    case None => None
    case Some(f) => Some(f.(enabled := checked))
  }

  /** Toggling back to the previous flag restores the previous filtering state exactly. */
  lemma ToggledFilteringReverts(prev: Option<FilteringStatus>, checked: bool)
    requires prev.Some?
    ensures ToggledFiltering(ToggledFiltering(prev, checked), prev.value.enabled) == prev
  {
  }

  class AdGuardDashboard {
    var status: Option<AdGuardStatus>
    var stats: Option<AdGuardStats>
    var filtering: Option<FilteringStatus>
    var queryLog: seq<QueryLogEntry>
    var clientsData: Option<ClientsData>
    var loading: bool
    var error: Option<string>
    var dnsInfo: Option<DnsInfoBody>

    /** The component's initial state, before its first refresh. */
    constructor ()
      ensures status == None && stats == None && filtering == None && queryLog == []
      ensures clientsData == None && dnsInfo == None && loading && error == None
    {
      status, stats, filtering, queryLog := None, None, None, [];
      clientsData, dnsInfo, loading, error := None, None, true, None;
    }

    /** The refresh up to its await: show the spinner and issue the six reads. */
    method StartRefresh() returns (requests: seq<Request>)
      modifies this
      ensures requests == RefreshRequests()
      ensures loading
      ensures status == old(status) && stats == old(stats) && filtering == old(filtering)
      ensures queryLog == old(queryLog) && clientsData == old(clientsData) && dnsInfo == old(dnsInfo)
      ensures error == old(error)
    {
      loading := true;
      requests := RefreshRequests();
    }

    /**
     * The refresh after its await. If any read fails no field is set and the
     * fetch error is shown. Otherwise status, statistics and filtering are set
     * first; then the query log is transformed, and if that throws the
     * remaining fields are not set and the fetch error is shown. A successful
     * refresh never clears an earlier error. The spinner stops in every case.
     * The dns_info outcome fails only when the proxy cannot be reached or its
     * body is not JSON; an upstream failure arrives as `DnsInfoRead(Fail)`,
     * whose error object is stored like a configuration.
     */
    method FinishRefresh(
      statusR: Outcome<Option<AdGuardStatus>>, statsR: Outcome<Option<AdGuardStats>>,
      filteringR: Outcome<Option<FilteringStatus>>, queryLogR: Outcome<Option<QueryLogResponse>>,
      clientsR: Outcome<Option<ClientsResponse>>, dnsInfoR: Outcome<Option<DnsInfoBody>>)
      modifies this
      ensures !loading
      ensures JoinAll(statusR, statsR, filteringR, queryLogR, clientsR, dnsInfoR).Fail? ==>
        status == old(status) && stats == old(stats) && filtering == old(filtering) &&
        queryLog == old(queryLog) && clientsData == old(clientsData) && dnsInfo == old(dnsInfo) &&
        error == Some(FetchDataError)
      ensures JoinAll(statusR, statsR, filteringR, queryLogR, clientsR, dnsInfoR).Ok? ==>
        status == statusR.value && stats == statsR.value && filtering == filteringR.value
      ensures JoinAll(statusR, statsR, filteringR, queryLogR, clientsR, dnsInfoR).Ok? &&
              TransformQueryLog(queryLogR.value).Ok? ==>
        queryLog == TransformQueryLog(queryLogR.value).value &&
        clientsData == Some(CoalesceClients(clientsR.value)) &&
        dnsInfo == dnsInfoR.value &&
        error == old(error)
      ensures JoinAll(statusR, statsR, filteringR, queryLogR, clientsR, dnsInfoR).Ok? &&
              TransformQueryLog(queryLogR.value).Fail? ==>
        queryLog == old(queryLog) && clientsData == old(clientsData) && dnsInfo == old(dnsInfo) &&
        error == Some(FetchDataError)
    {
      match JoinAll(statusR, statsR, filteringR, queryLogR, clientsR, dnsInfoR) {
        case Fail =>
          error := Some(FetchDataError);
        case Ok(data) =>
          status := data.status;
          stats := data.stats;
          filtering := data.filtering;
          match TransformQueryLog(data.queryLog) {
            case Fail =>
              error := Some(FetchDataError);
            case Ok(log) =>
              queryLog := log;
              clientsData := Some(CoalesceClients(data.clients));
              dnsInfo := data.dnsInfo;
          }
      }
      loading := false;
    }

    /** A whole refresh, with the six reads settling as given. */
    method FetchData(
      statusR: Outcome<Option<AdGuardStatus>>, statsR: Outcome<Option<AdGuardStats>>,
      filteringR: Outcome<Option<FilteringStatus>>, queryLogR: Outcome<Option<QueryLogResponse>>,
      clientsR: Outcome<Option<ClientsResponse>>, dnsInfoR: Outcome<Option<DnsInfoBody>>)
      returns (requests: seq<Request>)
      modifies this
      ensures requests == RefreshRequests()
      ensures !loading
      ensures JoinAll(statusR, statsR, filteringR, queryLogR, clientsR, dnsInfoR).Fail? ==>
        status == old(status) && stats == old(stats) && filtering == old(filtering) &&
        queryLog == old(queryLog) && clientsData == old(clientsData) && dnsInfo == old(dnsInfo) &&
        error == Some(FetchDataError)
      ensures JoinAll(statusR, statsR, filteringR, queryLogR, clientsR, dnsInfoR).Ok? ==>
        status == statusR.value && stats == statsR.value && filtering == filteringR.value
      ensures JoinAll(statusR, statsR, filteringR, queryLogR, clientsR, dnsInfoR).Ok? &&
              TransformQueryLog(queryLogR.value).Ok? ==>
        queryLog == TransformQueryLog(queryLogR.value).value &&
        clientsData == Some(CoalesceClients(clientsR.value)) &&
        dnsInfo == dnsInfoR.value &&
        error == old(error)
      ensures JoinAll(statusR, statsR, filteringR, queryLogR, clientsR, dnsInfoR).Ok? &&
              TransformQueryLog(queryLogR.value).Fail? ==>
        queryLog == old(queryLog) && clientsData == old(clientsData) && dnsInfo == old(dnsInfo) &&
        error == Some(FetchDataError)
    {
      requests := StartRefresh();
      FinishRefresh(statusR, statsR, filteringR, queryLogR, clientsR, dnsInfoR);
    }

    /**
     * The protection switch, with the upstream call settling as `outcome`. On
     * success only the displayed filtering flag changes; on failure only the
     * error changes. The request always carries exactly `checked`.
     */
    method HandleProtectionToggle(checked: bool, outcome: Outcome<()>) returns (sent: Request)
      modifies this
      ensures sent == ToggleProtection(checked)
      ensures outcome.Ok? ==> filtering == ToggledFiltering(old(filtering), checked) && error == old(error)
      ensures outcome.Fail? ==> filtering == old(filtering) && error == Some(ToggleProtectionError)
      ensures status == old(status) && stats == old(stats) && queryLog == old(queryLog)
      ensures clientsData == old(clientsData) && dnsInfo == old(dnsInfo) && loading == old(loading)
    {
      sent := ToggleProtection(checked);
      if outcome.Ok? {
        filtering := ToggledFiltering(filtering, checked);
      } else {
        error := Some(ToggleProtectionError);
      }
    }
  }
}
