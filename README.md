# PhishX dashboard: a verified model of its view-model and request layer

PhishX is a browser dashboard in front of an AdGuard Home style control API.
This project models, in Dafny, the three parts of it that contain logic:

- **The blocked-services tab** (`BlockedServices`): the working list of enabled
  service ids, its toggle (remove every occurrence if present, append
  otherwise), the initial load of the catalogue and the enabled list, and the
  save that submits the whole working list. The tab's state is a class,
  `BlockedServicesTab`, with the component's six state fields; each async
  handler is split at its await into a `Start…` and a `Finish…` method, and a
  combined method runs both.
- **The dashboard view-model** (`Dashboard`): the refresh that joins six reads
  and sets the state only when all of them succeed, the query-log
  normalisation that puts the queried domain under the canonical `name` key,
  the null-coalescing of the three client lists, and the protection toggle.
  The state is the class `AdGuardDashboard`.
- **The service layer** (`AdGuardService`): every exported call as the request
  it sends (method, path under the `/api/adguard` base, query parameters,
  JSON body), the blocklist rule `||<domain>^$important` with its inverse, and
  the response shapes.

`Outcomes` holds the two wrappers the rest uses: `Option` for a JSON value
that may be `null` or `undefined`, and `Outcome` for how an awaited upstream
call settles (`Ok(value)` or `Fail`). Every upstream call is a parameter of
this type; nothing is sent anywhere.

Behaviour of the code that a reader might not expect, and that the model keeps:

- The refresh is fail-fast: if any of the six reads rejects, no field is set,
  not even those whose reads succeeded.
- The dns_info read goes through `fetch` rather than the service's axios
  client. `fetch` does not reject on an error status, so when the proxy's call
  upstream fails and it answers with status 500 and the object
  `{ error: 'Failed to fetch from AdGuard' }`, this read still resolves, the
  refresh succeeds, no error banner appears, and that error object is stored
  as the DNS information (`Dashboard.DnsInfoRead`,
  `Dashboard.UpstreamFailureOfOneRead`). The five service reads reject on the
  same status, which fails the whole refresh.
- The protection toggle updates the displayed flag locally after the write
  succeeds; it does not re-read the filtering state.
- A query-log record without a `question` object makes the transform throw
  inside the refresh's `try`. At that point status, statistics and filtering
  have already been set, so the refresh ends with those three fields updated,
  the log, clients and DNS fields unchanged, and the fetch error shown.
  `Dashboard.AdGuardDashboard.FinishRefresh` states this case.
- In the blocked-services load, a `null` catalogue response throws when its
  `blocked_services` key is read, so it takes the error path and neither list
  is set (`BlockedServices.LoadSucceeds`).
- The canonical name is `host` only when `host` is a non-empty string (an
  empty string is falsy), and the normalised question still carries `host`.

## Model

| member | source | states |
|---|---|---|
| `BlockedServices.RemoveAll` | src/app/phishx/components/BlockedServicesTab.tsx:60 | the filtered list never contains the removed id, holds every other id exactly when the input does, and is no longer than the input |
| `BlockedServices.RemoveAllCounts` | src/app/phishx/components/BlockedServicesTab.tsx:60 | the filter drops every copy of the id and keeps the multiplicity of every other id |
| `BlockedServices.RemoveAllAbsent` | src/app/phishx/components/BlockedServicesTab.tsx:60 | filtering out an id that is not in the list returns the list unchanged |
| `BlockedServices.RemoveAllAppend` | src/app/phishx/components/BlockedServicesTab.tsx:60 | filtering distributes over concatenation, so the order of the kept ids is the input order |
| `BlockedServices.RemoveAllKeepsNoDuplicates` | src/app/phishx/components/BlockedServicesTab.tsx:60 | filtering a duplicate-free list gives a duplicate-free list |
| `BlockedServices.ToggleAbsentAppends` | src/app/phishx/components/BlockedServicesTab.tsx:59-63 | toggling an absent id appends it at the end, keeps the original list as prefix, and makes it a member |
| `BlockedServices.TogglePresentRemoves` | src/app/phishx/components/BlockedServicesTab.tsx:59-60 | toggling a present id removes every occurrence of it and leaves the multiset of the other ids as it was |
| `BlockedServices.Toggle` | src/app/phishx/components/BlockedServicesTab.tsx:57-65 | after a toggle the id is a member exactly when it was not before, and every other id keeps its membership |
| `BlockedServices.ToggleKeepsOthers` | src/app/phishx/components/BlockedServicesTab.tsx:60-62 | the list with the toggled id removed is identical before and after, so relative order and repetitions of the other ids are unchanged |
| `BlockedServices.ToggleTwiceRestores` | src/app/phishx/components/BlockedServicesTab.tsx:57-65 | toggling an absent id twice restores the original list exactly |
| `BlockedServices.ToggleTwiceMembership` | src/app/phishx/components/BlockedServicesTab.tsx:57-65 | toggling any id twice restores membership of every id; a present id ends up moved to the end |
| `BlockedServices.ToggleKeepsNoDuplicates` | src/app/phishx/components/BlockedServicesTab.tsx:59-63 | a toggle keeps a duplicate-free working list duplicate-free |
| `BlockedServices.LoadSucceeds` | src/app/phishx/components/BlockedServicesTab.tsx:39-48 | the load installs the lists exactly when both reads resolve and the catalogue response is not null; a rejection of either read is a failure |
| `BlockedServices.BlockedServicesTab.constructor` | src/app/phishx/components/BlockedServicesTab.tsx:27-32 | empty lists, loading, no error, not saving, no success indicator |
| `BlockedServices.BlockedServicesTab.StartLoad` | src/app/phishx/components/BlockedServicesTab.tsx:36-42 | loading is set, the error cleared, and exactly the catalogue and enabled-list reads are issued; nothing else changes |
| `BlockedServices.BlockedServicesTab.FinishLoad` | src/app/phishx/components/BlockedServicesTab.tsx:43-51 | on success the catalogue and enabled list become the responses (empty when missing); on failure neither changes and the fetch error is set; loading ends false in all cases |
| `BlockedServices.BlockedServicesTab.FetchData` | src/app/phishx/components/BlockedServicesTab.tsx:35-52 | the whole load: the two reads, then the success or failure state above, with the error cleared on success |
| `BlockedServices.BlockedServicesTab.HandleToggleService` | src/app/phishx/components/BlockedServicesTab.tsx:57-65 | only the working list changes, and it becomes the toggle of the old list |
| `BlockedServices.BlockedServicesTab.StartSave` | src/app/phishx/components/BlockedServicesTab.tsx:68-73 | saving is set, both indicators cleared, and the request installs exactly the current working list |
| `BlockedServices.BlockedServicesTab.FinishSave` | src/app/phishx/components/BlockedServicesTab.tsx:74-80 | success sets the success flag, failure sets the save error; saving ends false; the working list is not touched |
| `BlockedServices.BlockedServicesTab.HandleSaveChanges` | src/app/phishx/components/BlockedServicesTab.tsx:67-81 | the whole save submits exactly the working list, leaves it unchanged, and ends with success and no error, or no success and the save error, and saving false |
| `Outcomes.Both` | src/app/phishx/components/BlockedServicesTab.tsx:39-42 | joining two calls resolves exactly when both resolve, with both values |
| `Dashboard.GetDnsInfo` | src/app/phishx/page.tsx:167 | a GET without body or parameters of the proxy's `/api/adguard/dns_info` |
| `Dashboard.RefreshRequests` | src/app/phishx/page.tsx:161-168 | six GETs without body; the query log asks for at most 100 records and the other five reads take no parameters |
| `Dashboard.ServiceRead` | src/app/phishx/page.tsx:162-166 | a read through the service rejects exactly when its upstream call fails, and otherwise resolves with the upstream value |
| `Dashboard.DnsInfoRead` | src/app/phishx/page.tsx:167 | the dns_info read always resolves: with the DNS configuration, or with the proxy's error object `Failed to fetch from AdGuard` when the upstream call fails |
| `Dashboard.UpstreamFailureOfOneRead` | src/app/phishx/page.tsx:161-168 | with the other reads succeeding, a failing dns_info upstream leaves the join resolved with the error object as DNS body, while a failing statistics upstream rejects the join |
| `Dashboard.CanonicalName` | src/app/phishx/page.tsx:178 | the canonical name is `host` or `name`; it is `host` when that is a non-empty string and `name` when `host` is missing |
| `Dashboard.NormalizeEntry` | src/app/phishx/page.tsx:175-180 | the normalised record keeps every key but the question's name, which becomes the canonical name |
| `Dashboard.TransformQueryLog` | src/app/phishx/page.tsx:174-180 | the transform succeeds exactly when every record has a question, then keeps the number of records; a null response gives an empty log |
| `Dashboard.NormalizeQueryLog` | src/app/phishx/page.tsx:174-180 | the transform succeeds exactly when every record has a question; then it keeps the count and order, sets each question's name to the canonical name, and leaves every other record key and the question's class, type and host untouched |
| `Dashboard.MissingQueryLogIsEmpty` | src/app/phishx/page.tsx:174 | a null response or a missing `data` key gives an empty log |
| `Dashboard.CanonicalNameChoice` | src/app/phishx/page.tsx:178 | the canonical name is `host` when present and non-empty, otherwise `name` |
| `Dashboard.NameOnlyEntryUnchanged` | src/app/phishx/page.tsx:174-180 | a record whose question has only `name` comes out identical |
| `Dashboard.NormalizeQueryLogIdempotent` | src/app/phishx/page.tsx:174-180 | normalising an already normalised log changes nothing |
| `Dashboard.CoalesceClients` | src/app/phishx/page.tsx:182-186 | each client list is the response's list when present (even empty) and null otherwise, all three null for a null response |
| `Dashboard.CoalesceClientsRoundTrip` | src/app/phishx/page.tsx:182-186 | coalescing a present response loses nothing, empty lists included |
| `Dashboard.JoinAll` | src/app/phishx/page.tsx:161-168 | the join of the six reads resolves exactly when all six resolve, carrying each value in its place |
| `Dashboard.ToggledFiltering` | src/app/phishx/page.tsx:198 | a present filtering state gets the checked flag and keeps its filters; a null one stays null |
| `Dashboard.ToggledFilteringReverts` | src/app/phishx/page.tsx:198 | toggling back to the previous flag restores the previous filtering state |
| `Dashboard.AdGuardDashboard.constructor` | src/app/phishx/page.tsx:144-152 | no data, empty log, loading, no error |
| `Dashboard.AdGuardDashboard.StartRefresh` | src/app/phishx/page.tsx:158-168 | loading is set and exactly the six reads are issued, the query log limited to 100 records; nothing else changes |
| `Dashboard.AdGuardDashboard.FinishRefresh` | src/app/phishx/page.tsx:169-192 | any failed read: no field set and the fetch error shown; all succeed: every field set and an earlier error kept; transform throws: only status, stats and filtering set and the fetch error shown; loading ends false |
| `Dashboard.AdGuardDashboard.FetchData` | src/app/phishx/page.tsx:158-193 | the whole refresh: the six reads, then the outcome above |
| `Dashboard.AdGuardDashboard.HandleProtectionToggle` | src/app/phishx/page.tsx:195-202 | sends exactly the checked flag; success updates only the filtering flag (null stays null) and keeps the error; failure leaves filtering and sets the toggle error |
| `AdGuardService.GetStatus` | src/services/adguardService.ts:69-77 | a GET without body or parameters of `/api/adguard/status` |
| `AdGuardService.GetStats` | src/services/adguardService.ts:79-87 | a GET without body or parameters of `/api/adguard/stats` |
| `AdGuardService.GetFiltering` | src/services/adguardService.ts:89-102 | a GET without body or parameters of `/api/adguard/filtering/status` |
| `AdGuardService.GetQueryLog` | src/services/adguardService.ts:113-121 | a GET without body of `/api/adguard/querylog` carrying the given pagination, empty by default |
| `AdGuardService.GetClients` | src/services/adguardService.ts:172-180 | a GET without body or parameters of `/api/adguard/clients` |
| `AdGuardService.GetDhcpStatus` | src/services/adguardService.ts:182-190 | a GET without body or parameters of `/api/adguard/dhcp/status` |
| `AdGuardService.GetBlockedServices` | src/services/adguardService.ts:205-213 | a GET without body or parameters of `/api/adguard/blocked_services/all` |
| `AdGuardService.GetEnabledBlockedServices` | src/services/adguardService.ts:215-223 | a GET without body or parameters of `/api/adguard/blocked_services/list` |
| `AdGuardService.ToggleProtection` | src/services/adguardService.ts:104-111 | a POST without parameters on the path the filtering reader reads, whose body is exactly the flag |
| `AdGuardService.BlocklistRule` | src/services/adguardService.ts:126 | the rule for d is two bars, d verbatim, then the important suffix, 13 characters longer than d |
| `AdGuardService.AddBlockedDomain` | src/services/adguardService.ts:123-132 | a POST to the add-url endpoint named "Custom rule for " + d whose url is a blocklist rule from which d reads back |
| `AdGuardService.SetBlockedServices` | src/services/adguardService.ts:225-232 | a POST to the set endpoint that installs exactly the given list |
| `AdGuardService.RuleDomainRoundTrip` | src/services/adguardService.ts:126 | reading the domain back out of the rule for d gives d |
| `AdGuardService.RuleDomainInverse` | src/services/adguardService.ts:126 | every string of the rule form is the rule for the domain read out of it |
| `AdGuardService.BlocklistRuleInjective` | src/services/adguardService.ts:126 | distinct domains give distinct rules |
| `AdGuardService.SetBlockedServicesInstalls` | src/services/adguardService.ts:225-227 | any request that installs a list carries exactly that list as body, no other ids, no reordering |
| `AdGuardService.ToggleProtectionInjective` | src/services/adguardService.ts:104-111 | the two flags give different protection requests |
| `AdGuardService.GetQueryLogForwards` | src/services/adguardService.ts:113-115 | limit and offset are forwarded verbatim; the default sends neither |
| `AdGuardService.ReadersAreGets` | src/services/adguardService.ts:69-223 | the eight readers are GETs without body or parameters, each on a path of its own under the `/api/adguard` base |
| `AdGuardService.ReaderPathsDistinct` | src/services/adguardService.ts:69-223 | the eight readers read pairwise distinct paths |

## Left out

- The server-side proxy in src/app/api/adguard/[...path]/route.ts, and with it the credential injection and the `/control/` path rewrite: not part of this model, except for the error object its GET handler answers with when the upstream call fails (lines 28-31), which the dns_info read can store.
- `Dashboard.AdGuardDashboard.FinishRefresh`: its dns_info outcome can still be `Fail`, standing for a proxy that cannot be reached or a body that is not JSON; an upstream failure behind a reachable proxy is the resolved error object of `Dashboard.DnsInfoRead`, stored in the `dnsInfo` field without any error being shown.
- src/app/page.tsx and src/app/layout.tsx: static markup without logic.
- All rendering, styling, icon markup, and number and date formatting.
- The dashboard's `newBlockedDomain` state (src/app/phishx/page.tsx:151) is declared but never read or set; the `Input` component is imported (line 16) but never rendered; and `addBlockedDomain` is imported (line 10) but never called. None of them is modelled as dashboard state. `AdGuardService.AddBlockedDomain` models the service function itself, which none of the files in this model calls.
- The HTTP transport, the axios instance, console logging and the inspection of error objects: every upstream call is an `Outcome` parameter, and the request it would send is returned as a value.
- Concurrency: the parallel reads are joined as if sequential; they fail exactly when one of them fails. The interleaving of a toggle with an in-flight save is expressible with the split `Start…`/`Finish…` methods but not enumerated.
- The average processing time in the statistics and every other floating-point value: only displayed.
- Response bodies are typed records; JSON values of other shapes than the declared ones (for example a non-string `host`) are not modelled, except for the null and missing cases the code tests.
- How the parameters object is serialised into a query string: requests keep the parameters as a record.
