# Rapid7 InsightVM connector — Dafny model

This project models the core of the JupiterOne Rapid7 InsightVM connector
(graph-rapid7). The connector reads an InsightVM Security Console's REST API
(`/api/3`) and writes a graph of entities and relationships into the SDK's job
state. It covers:

- **the API client** (`src/client.ts`):
  - URLs are built as `https://<host>/api/3/<path>`;
  - `request` throws on any non-ok response;
  - `paginatedRequest` is a do-while loop: it asks for `?page=N&size=10` from page 0 and stops at the first failure or when `page.totalPages` says there is no further page;
  - the `iterate*` methods hand every resource of every page to a callback;
  - `verifyAuthentication` rewrites a failed root probe as a validation error;
  - `getVulnerabilityInformation` assembles impact, references and recommendations.
- **the error builders** (`src/error.ts`):
  - a 429 becomes a rate-limit error that carries `retry-after`;
  - other retryable statuses become a retryable error;
  - 401 is fatal as an authentication error, 403 as an authorization error, anything else as a generic provider error.
- **invocation validation** (`src/config.ts`): the three required fields, host normalisation, then the authentication probe.
- **the steps**, each writing to a `Graph.JobState`:
  - a set of entity keys;
  - the entities added, in order;
  - the relationship batches added, in order (`addRelationship` is a batch of one, `addRelationships` a batch of many);
  - the data map.
- **the steps themselves**:
  - account, users, sites, scans, assets, asset vulnerabilities, site–asset, scan–asset, asset–user, account–site and site–user.
  - Each step that loops in the source is a method with loop invariants.
  - It is proved against a specification function over the items that the API listing delivered.
  - The five-relationship batching of site-assets, scan-assets and asset-users is modelled buffer by buffer. `Graph.BatchesAfterFlush` proves the full batches followed by the final flush are exactly `Seqs.Chunks(all relationships, 5)`.

Module layout:
- `Wrappers`, `Seqs`, `Text`: helpers.
- `Errors`: `src/error.ts`.
- `Resources`: the API shapes of `src/types.ts`.
- `Client`: `src/client.ts`.
- `Config`: `src/config.ts`.
- `Graph`: entity keys, entities, relationships and the job state.
- One module per step file.

Points where the source does less than its surroundings suggest, and which the model follows as written:
- A finding's key is `insightvm_asset_vulnerability:<assetId>:<findingId>` (src/steps/vulnerabilities.ts:15-20).
- The vulnerabilities step has no bulk vulnerability prefetch, no severity or state filter and no per-key dedup of findings. Its vulnerability entities and IS relationships are commented out (src/steps/vulnerabilities.ts:48-81 and 116-127), so the model has none of them.
- The client's `request` has no retry, no rate-limit back-off and no 404-as-empty handling: every non-ok status is thrown at once as a generic provider error (src/client.ts:63-69). The retryable and fatal builders of `src/error.ts` are modelled as the functions they are, but the client does not call them.

## Model

| member | source | states |
|---|---|---|
| Client.WithBaseUri | src/client.ts:46-48 | the URI is `https://` + host + `/api/3/` + path: its prefix and its suffix are fixed, and its length is their sum |
| Client.PageEndpointQuery | src/client.ts:81-83 | every page is requested at `<uri>?page=<n>&size=10` under the base URI |
| Errors.Request | src/client.ts:50-71 | an ok (2xx) response is returned unchanged; any other response becomes a non-retryable generic provider error carrying the endpoint, the status and the raw status text |
| Client.Walk | src/client.ts:73-97 | the walk from page `current` always requests at least that page first |
| Client.WalkIsConsecutive | src/client.ts:77-96 | pages are requested consecutively from the first page on; every requested page except a failed last one reaches the page handler |
| Client.WalkDelivers | src/client.ts:90-93 | the i-th delivered page comes from an ok response and holds exactly that page's resources |
| Client.WalkFailsAtLast | src/client.ts:90 | the walk fails exactly when its last request was not ok, and the error is the one `request` throws for that page's endpoint |
| Client.WalkToTotal | src/client.ts:95-96 | when all pages are ok and report totalPages n, the walk from page k requests n-k pages and does not fail |
| Client.ExactlyTotalPages | src/client.ts:73-97 | totalPages n >= 1 on every ok page means pages 0..n-1 are requested in order, each is delivered, and nothing fails |
| Client.SinglePageWithoutTotal | src/client.ts:96 | a first page with no totalPages, or with totalPages 0, is the only page requested |
| Client.FailureEndsWalk | src/client.ts:90 | a failed page is the last request; only the pages before it were delivered |
| Client.PaginatedRequest | src/client.ts:73-97 | the do-while loop computes exactly the walk: the same pages requested, the same resources delivered, the same failure |
| Client.IterateResources | src/client.ts:129-277 | each iterate* method hands its callback the concatenation of all delivered pages' resources, in order, and ends with the walk's failure |
| Client.ProbeFailureMessage | src/client.ts:104 | the message starts with `Error occurred validating invocation at https://<host>/api/3` |
| Client.VerifyAuthentication | src/client.ts:99-115 | succeeds iff the probe did not throw. Otherwise the error ends with the route/code/message text; for DEPTH_ZERO_SELF_SIGNED_CERT it is exactly the certificate guidance followed by that text, for any other code exactly that text, and it starts with the guidance iff the code is DEPTH_ZERO_SELF_SIGNED_CERT |
| Client.Impact | src/client.ts:319-322 | present iff totalResources > 0; then one title per exploit, with `''` for a missing title |
| Client.References | src/client.ts:324-327 | present iff totalResources > 0; then each reference's advisory href, in order |
| Client.NonSelf | src/client.ts:333 | keeps only links that are not self links and that came from the input |
| Client.SelfLinksSkipped | src/client.ts:332-337 | self links make no difference to the recommendations text or to whether it rejects |
| Client.SolutionFailureIsFinal | src/client.ts:332-337 | once a solution request has failed, the later links are never fetched: the outcome is that failure |
| Client.SolutionsFailAtFirst | src/client.ts:332-337 | the solution links reject iff some non-self link's request is not ok, and then with the error `request` throws for the first such link |
| Client.RecommendationsOf | src/client.ts:329-341 | absent unless the solutions body has at least one link; then it starts with `Recommendation(s):`; it rejects only when there are links and a solution request failed |
| Client.Recommendations | src/client.ts:329-341 | the loop builds exactly the header followed by the text of each non-self solution, in order, and returns the first failed solution request as a rejection |
| Client.GetVulnerabilityInformation | src/client.ts:297-344 | the method computes exactly VulnerabilityInformationOf, rejecting where it rejects |
| Client.VulnerabilityInformationOf | src/client.ts:297-344 | the exploits, references and solutions requests are made in that order and the first one that is not ok rejects with its endpoint's error; the call succeeds iff all three are ok and no solution request fails, and then holds the impact, references and recommendations of the three bodies |
| Errors.HeaderNumber | src/error.ts:36 | `Number(header)`: an absent or empty header reads 0 and non-digit text reads NaN |
| Errors.HeaderNumberOfDecimal | src/error.ts:36 | a header holding the decimal text of n reads as n |
| Errors.TextOrStatus | src/error.ts:43 | `statusText ?? status`: only an absent text is replaced, by the status |
| Errors.RawText | src/error.ts:34 | the status text is passed through, missing exactly when absent |
| Errors.RetryableRequestError | src/error.ts:27-45 | always retryable, with the url and status. It is a rate-limit error iff the status is 429, carrying Number(retry-after) and the raw text; otherwise a plain retryable error whose text falls back to the status |
| Errors.FatalRequestError | src/error.ts:47-64 | never retryable; authentication iff 401, authorization iff 403, a generic provider error otherwise; always carries the url, the status and the text-or-status |
| Config.WithScheme | src/config.ts:96-101 | the host is kept iff it starts with `http`, otherwise it is prefixed with `https://`; the result always starts with `http` and ends with the host |
| Config.BareHttpNamedHostNotPrefixed | src/config.ts:98 | the raw prefix test leaves a bare host named `httpbin.org` without a scheme |
| Config.ValidateHost | src/config.ts:96-108 | the parsed hostname when the URL parser accepts the normalised URL; otherwise the error names the host as given |
| Config.ValidateInvocation | src/config.ts:66-94 | missing required fields give the fixed message and leave the host alone. Otherwise a host error leaves it alone, and a valid host is written back and the result is the authentication probe's; the other fields never change |
| Config.IntegrationConfig.constructor | src/config.ts:44-64 | the configuration holds the four given fields |
| Resources.SelfHref | src/steps/access.ts:35 | the web link is the href of the first self link: absent iff no link is a self link, otherwise some self link's href with no self link before it (the same lookup at src/steps/sites.ts:35, src/steps/scans.ts:26 and src/steps/assets.ts:56) |
| Graph.KeyId | src/steps/account.ts:11-13 | the id read back from a key rebuilds the key as `<type>:<id>` |
| Graph.KeyIdOfEntityKey | src/steps/sites.ts:19-21 | reading a key's id gives back the id it was made from |
| Graph.EntityKeysOfDistinctTypes | src/steps/scans.ts:15-17 | keys of two different colon-free types never coincide |
| Graph.Edge | src/steps/access.ts:55-59 | createDirectRelationship takes the keys and types of its two ends |
| Graph.EdgesFrom | src/steps/account-sites.ts:21-32 | one relationship from the source entity to each target, in order |
| Graph.EdgeBatchesAreSingletons | src/steps/account-sites.ts:24-30 | one addRelationship per target gives exactly the singleton batches of EdgesFrom |
| Graph.FindIn | src/steps/scans.ts:28 | findEntity finds an entity iff its key was added, and what it finds carries that key |
| Graph.FindInUnaffected | src/steps/scans.ts:28 | entities added under other keys do not change what findEntity returns |
| Graph.OfType | src/steps/account-sites.ts:21-22 | every entity yielded has the requested type |
| Graph.OfTypeInOrder | src/steps/account-sites.ts:21-22 | the entities yielded are those at the increasing positions of the added entities that hold the type, and at no others: order and multiplicity are kept |
| Graph.OfTypeMembers | src/steps/account-sites.ts:21-22 | an entity is yielded iff it was added and has the type |
| Graph.JobState.FindEntity | src/steps/site-users.ts:26 | on the job state, a lookup succeeds iff the key is present |
| Graph.KeysOfListed | src/steps/asset-users.ts:32 | a key is among the job state's keys iff some entity added so far carries it |
| Graph.JobState.HasKey | src/steps/asset-users.ts:32 | hasKey holds iff some entity added so far carries the key (also src/steps/site-assets.ts:44, src/steps/scan-assets.ts:67 and 73) |
| Graph.JobState.EntitiesOfType | src/steps/account-sites.ts:21-22 | iterateEntities yields only added entities of the requested type; with OfTypeInOrder, exactly those, in the order added (also src/steps/site-users.ts:20, src/steps/site-assets.ts:30 and 68, src/steps/asset-users.ts:24, src/steps/vulnerabilities.ts:90) |
| Graph.JobState.HasAccount | src/steps/account-sites.ts:19 | the account data key holds an account entity (the getData of src/steps/access.ts:30, src/steps/sites.ts:30 and src/steps/site-assets.ts:63) |
| Graph.JobState.AccountEntity | src/steps/account-sites.ts:19 | the entity returned is the one stored under the account data key |
| Graph.JobState.AddEntity | src/steps/access.ts:53 | appends the entity and its key; nothing else changes |
| Graph.JobState.AddRelationship | src/steps/access.ts:54-60 | appends a batch of one; nothing else changes |
| Graph.JobState.AddRelationships | src/steps/site-assets.ts:57 | appends one batch; nothing else changes |
| Graph.JobState.SetData | src/steps/assets.ts:97 | updates one data key; nothing else changes |
| Graph.PushRelationship | src/steps/asset-users.ts:36-48 | push, then flush at 5. Flushed batches hold exactly 5, the remaining buffer holds fewer than 5, and the flushed batches followed by the buffer are the old buffer plus the new relationship |
| Graph.FlushRemainder | src/steps/asset-users.ts:53-57 | a non-empty remainder is sent as one last batch, an empty one not at all |
| Graph.BatchesAfterFlush | src/steps/site-assets.ts:83-93 | full batches of 5 followed by the final flush equal the chunks of 5 of everything pushed |
| Seqs.Chunks | src/steps/scan-assets.ts:85-98 | the chunks concatenate back to the input; each holds 1..5 items and all but the last hold exactly 5 |
| Seqs.FullBatchesAreChunks | src/steps/scan-assets.ts:85-98 | chunking full batches followed by a short tail gives back those batches and the tail |
| Seqs.IndicesWhereSelects | src/steps/site-assets.ts:68-73 | the selected positions are in range, strictly increasing and exactly the positions where the condition holds |
| Text.ParseDecimalString | src/steps/assets.ts:57 | the decimal text of an id parses back to the id |
| Text.DecimalStringInjective | src/steps/access.ts:44 | different ids have different decimal texts |
| Account.AccountKey | src/steps/account.ts:11-13 | the account key is `insightvm_account:<user>` |
| Account.CreateAccountEntity | src/steps/account.ts:23-37 | fails iff the account has no links (destructuring `[webLink]` then reading `.href`); otherwise it is the account entity with that first link's href and the host |
| Account.FetchAccountDetails | src/steps/account.ts:15-43 | an API failure is passed on. Success holds iff the account entity can be built; it is then added and stored under the account data key. On failure nothing changes, and relationships never change |
| Access.UserKey | src/steps/access.ts:19-21 | `insightvm_user:<id>` |
| Access.UserKeyInjective | src/steps/access.ts:19-21 | different user ids give different keys |
| Access.CreateUserEntity | src/steps/access.ts:37-50 | the user entity with its key, id text, login, email and self link |
| Access.FetchUsers | src/steps/access.ts:23-63 | one user entity per listed user, in order, and one account HAS user batch for each |
| Access.UserRelationshipAt | src/steps/access.ts:54-60 | the k-th batch is the account HAS the k-th user |
| Sites.SiteKey | src/steps/sites.ts:19-21 | `insightvm_site:<id>` |
| Sites.SiteIdFromSiteKey | src/steps/scan-assets.ts:58 | an id is read only from a key that is `insightvm_site:<id>` |
| Sites.SiteIdOfSiteKey | src/steps/scan-assets.ts:58-62 | a site key gives back its non-empty decimal id |
| Sites.CreateSiteEntity | src/steps/sites.ts:37-52 | the site entity with its key, id text, name, type, importance, asset count and self link |
| Sites.FetchSites | src/steps/sites.ts:23-65 | one site entity per listed site, in order, and one account HAS site batch for each |
| Sites.SiteRelationshipAt | src/steps/sites.ts:56-62 | the k-th batch is the account HAS the k-th site |
| Scans.ScanKey | src/steps/scans.ts:15-17 | `insightvm_scan:<id>` |
| Scans.Active | src/steps/scans.ts:45 | never true; false iff the status is `finished`, undefined otherwise |
| Scans.CreateScanEntity | src/steps/scans.ts:31-55 | the scan entity with its key, id, site id, name, active flag, state and self link |
| Scans.ScanEntities | src/steps/scans.ts:25-68 | every scan entity added has a scan key and a site that is already in the job state |
| Scans.ScanBatches | src/steps/scans.ts:57-66 | one relationship batch per scan entity added |
| Scans.ScanKeyIsNotSiteKey | src/steps/scans.ts:28 | adding scans never changes which site a later scan finds |
| Scans.FetchScans | src/steps/scans.ts:19-69 | the entities and batches added are exactly those of the listed scans whose site was found, in order |
| Scans.ScanPerformedBySite | src/steps/scans.ts:59-65 | the k-th batch is the found site PERFORMED the k-th scan entity |
| Scans.ScanOfFoundSiteIsAdded | src/steps/scans.ts:28-31 | every listed scan whose site is found gets its entity |
| Scans.ScanEntitiesFollowListing | src/steps/scans.ts:25-68 | the j-th scan entity added is that of the scan at the j-th position of the listing whose site is found: one entity per such listing occurrence, in listing order, and none for any other scan |
| Assets.AssetKey | src/steps/assets.ts:18-20 | `insightvm_asset:<id>` |
| Assets.GetPlatform | src/steps/assets.ts:22-42 | always one of the eight platforms. A truthy family whose lower-case form is listed gives that form; any result other than `other` comes from the family |
| Assets.PlatformIgnoresCase | src/steps/assets.ts:25-26 | for every pair of families that agree once lower-cased, the platform is the same |
| Assets.PlatformOfLowerFamily | src/steps/assets.ts:25-26 | a family gives the same platform as its lower-case spelling |
| Assets.AssetNameOf | src/steps/assets.ts:71 | `hostName \|\| ip \|\| id`: a truthy host name wins, then a truthy ip, else the numeric id |
| Assets.CreateAssetEntity | src/steps/assets.ts:63-94 | fails iff the vulnerability summary is absent (reading `.critical` on undefined); otherwise the asset entity with its key, name, platform, ip, link, critical count and last history date |
| Assets.CountsOf | src/steps/assets.ts:57-61 | each count is the summary's count, or 0 when absent |
| Assets.CountMap | src/steps/assets.ts:57-61 | every listed asset id is a key of the count map |
| Assets.CountMapLastWins | src/steps/assets.ts:57 | for an id, the map holds the counts of its last listing |
| Assets.CountMapKeysAreAssetIds | src/steps/assets.ts:57 | every key of the count map is a listed asset id |
| Assets.FirstMissingSummary | src/steps/assets.ts:79 | the index of the first asset without a vulnerability summary, or the length when there is none |
| Assets.AssetEntities | src/steps/assets.ts:63-95 | one entity per asset, each the one CreateAssetEntity builds |
| Assets.StopsAtFirstMissing | src/steps/assets.ts:79 | the step stops exactly at the first asset without a summary |
| Assets.FetchAssets | src/steps/assets.ts:44-98 | succeeds iff every asset has a summary. The entities before the first failing asset are added; the count map is stored only on success, and no relationships are added |
| Vulnerabilities.FindingKey | src/steps/vulnerabilities.ts:15-20 | `insightvm_asset_vulnerability:<assetId>:<findingId>` |
| Vulnerabilities.FindingKeyInjective | src/steps/vulnerabilities.ts:15-20 | for colon-free asset ids, the key determines both the asset and the finding id |
| Vulnerabilities.VulnerabilityKey | src/steps/vulnerabilities.ts:44-46 | `insightvm_vulnerability:<id>` |
| Vulnerabilities.Open | src/steps/vulnerabilities.ts:36 | never false; true iff the status is `vulnerable` |
| Vulnerabilities.CreateFindingEntity | src/steps/vulnerabilities.ts:22-42 | the finding entity: its key, id and name, category host, severity unknown, numeric severity 5, and the open flag |
| Vulnerabilities.FindingsOf | src/steps/vulnerabilities.ts:101-107 | one finding entity per listed finding of the asset, in order |
| Vulnerabilities.FindingEdgesMatchFindings | src/steps/vulnerabilities.ts:102-114 | one batch per finding; the i-th batch is a single HAS to the i-th finding entity, from the asset whose findings listing produced that entity |
| Vulnerabilities.AddAssetFindings | src/steps/vulnerabilities.ts:101-128 | one asset's callback adds its findings and one asset HAS finding batch for each |
| Vulnerabilities.FetchAssetVulnerabilities | src/steps/vulnerabilities.ts:83-132 | over all asset entities, in order, adds exactly their findings and their HAS batches; the data map is unchanged |
| AccountSites.FetchAccountSiteRelationships | src/steps/account-sites.ts:16-33 | no account: nothing is added. Otherwise one account HAS site batch per site entity, in order; entities never change |
| AccountSites.AccountSiteRelationshipAt | src/steps/account-sites.ts:24-30 | the k-th batch is the account HAS the k-th site |
| SiteUsers.SiteUserBatches | src/steps/site-users.ts:23-40 | no more batches than listed users |
| SiteUsers.SiteUserBatchesAreFoundUsers | src/steps/site-users.ts:26-37 | every batch is the single relationship site HAS the entity found for some listed user |
| SiteUsers.SiteUserBatchesFollowListing | src/steps/site-users.ts:26-37 | the j-th batch is site HAS the user found at the j-th found position of the listing: one batch per found listing occurrence, in order, so as many batches as found users |
| SiteUsers.FoundUserIsLinked | src/steps/site-users.ts:26-37 | every listed user that is found gets its site HAS user batch |
| SiteUsers.LinkSiteUser | src/steps/site-users.ts:26-37 | one listed user adds the site HAS user batch when the user is found, and nothing otherwise |
| SiteUsers.LinkSiteUsers | src/steps/site-users.ts:25-39 | one site's callback adds exactly the batches of its found users |
| SiteUsers.FetchSiteUsers | src/steps/site-users.ts:13-43 | over all site entities, in order, adds exactly their found users' batches; no entity and no data changes |
| AssetUsers.OwnersOf | src/steps/asset-users.ts:29-44 | no more relationships than listed users |
| AssetUsers.OwnersArePresentUsers | src/steps/asset-users.ts:32-44 | each relationship is user OWNS the asset, from the key of a listed user that is present |
| AssetUsers.PresentUserOwns | src/steps/asset-users.ts:30-44 | every listed user whose key is present owns the asset |
| AssetUsers.PushOwners | src/steps/asset-users.ts:27-50 | one asset's users are pushed through the shared buffer. Flushed batches hold 5, and flushed plus rest is the old buffer plus the asset's OWNS relationships |
| AssetUsers.FetchAssetUsers | src/steps/asset-users.ts:15-58 | the batches added are exactly the chunks of 5 of all OWNS relationships over all assets, in order |
| SiteAssets.MonitorsOf | src/steps/site-assets.ts:39-55 | no more relationships than listed assets |
| SiteAssets.MonitorsArePresentAssets | src/steps/site-assets.ts:44-54 | each relationship is the site MONITORS the key of a listed asset that is present |
| SiteAssets.PresentAssetMonitored | src/steps/site-assets.ts:42-54 | every listed asset whose key is present is monitored by the site |
| SiteAssets.IdsOf | src/steps/site-assets.ts:40 | every listed asset's id is recorded as connected |
| SiteAssets.IdsOfAreListed | src/steps/site-assets.ts:40 | only listed assets' ids are recorded |
| SiteAssets.CallbackBatches | src/steps/site-assets.ts:35-58 | one batch per page callback, possibly empty |
| SiteAssets.CallbackIds | src/steps/site-assets.ts:40 | the ids of every callback are connected |
| SiteAssets.CallbackIdsAreListed | src/steps/site-assets.ts:40 | only ids that some callback listed are connected |
| SiteAssets.ListedAssetIsConnected | src/steps/site-assets.ts:40 | any asset listed under any site is connected |
| SiteAssets.ConnectedAssetWasListed | src/steps/site-assets.ts:40 | conversely, a connected id is the id of an asset some callback of some site listed |
| SiteAssets.UnconnectedAssets | src/steps/site-assets.ts:68-73 | an asset entity is kept iff its id is not connected |
| SiteAssets.UnconnectedAssetsInOrder | src/steps/site-assets.ts:68-73 | the kept assets are those at the increasing positions whose id is not connected, and at no others: in order, once per entity |
| SiteAssets.AccountAssetEdges | src/steps/site-assets.ts:74-82 | one account HAS asset relationship per asset, in order |
| SiteAssets.MonitorCallback | src/steps/site-assets.ts:35-58 | one callback adds exactly one batch, its MONITORS relationships, and records its ids |
| SiteAssets.MonitorSite | src/steps/site-assets.ts:32-60 | one site adds the batches of all its callbacks and records their ids |
| SiteAssets.LinkUnconnectedAssets | src/steps/site-assets.ts:66-93 | the batches added are exactly the chunks of 5 of the account HAS asset relationships of the unconnected assets |
| SiteAssets.FetchSiteAssets | src/steps/site-assets.ts:21-94 | all sites' MONITORS batches first, then the chunks of 5 of account HAS asset for every asset no site listed; entities and data unchanged |
| ScanAssets.GroupOrderIsKeys | src/steps/scan-assets.ts:32-39 | the map's keys are exactly its insertion order, with no key repeated |
| ScanAssets.GroupIsByFromKey | src/steps/scan-assets.ts:26-40 | a site key is in the map iff some relationship with truthy ends has it as source; its list is those relationships' asset keys, in order |
| ScanAssets.BuildSiteAssetsMap | src/steps/scan-assets.ts:18-45 | the loop builds exactly that grouping |
| ScanAssets.ScanMonitors | src/steps/scan-assets.ts:72-83 | no more relationships than asset keys |
| ScanAssets.ScanMonitorsArePresentAssets | src/steps/scan-assets.ts:73-82 | each relationship is the scan MONITORS one of the site's asset keys that is present |
| ScanAssets.PresentAssetKeyMonitored | src/steps/scan-assets.ts:73-82 | every present asset key of the site is monitored by the scan |
| ScanAssets.ScanListBatchesBounded | src/steps/scan-assets.ts:85-98 | every batch sent holds between 1 and 5 relationships |
| ScanAssets.MonitorScan | src/steps/scan-assets.ts:64-99 | one scan's callback adds exactly the chunks of 5 of its MONITORS relationships |
| ScanAssets.MonitorSiteScans | src/steps/scan-assets.ts:64-99 | one site adds the batches of each listed scan whose key is present |
| ScanAssets.FetchScanAssets | src/steps/scan-assets.ts:47-103 | over the map in insertion order, each site with an id adds its scans' batches; entities and data unchanged |

## Left out

- HTTP, JSON decoding, Basic authentication and Base64 are not modelled. A page is a function from the page number to the response's status line, resources and totalPages. The exploits, references and solutions responses with their decoded bodies, the solution page of each link and the URL parser are parameters too. A TypeError on a malformed decoded body (such as a solutions body without `links`) is not modelled.
- Client.PaginatedRequest: the source loops forever if the server keeps reporting a larger totalPages. The model takes a ghost bound on reported totalPages, so the walk terminates. The bound constrains every page the page function answers, including pages that are never requested; since those can be chosen freely, every terminating run of the source is still covered.
- Logging is not modelled. Neither is `getAccount` as a request (fetchAccountDetails takes its outcome), nor `getVulnerability` (nothing in the core calls it).
- The `pMap` concurrency of fetchScanAssets (5 at a time) is modelled as sequential, in map order. `Promise.all` pairs are modelled in source order.
- Setting NODE_TLS_REJECT_UNAUTHORIZED and publishing the `disable_tls_verify` event in validateInvocation are process side effects. They are not modelled.
- The SDK job state is reduced to keys, entities, batches and data. Its duplicate-key rejection on addEntity and its raw-data handling are not modelled.
- Entity properties that are only copied from the resource are not modelled: osName, osVersion, riskScore, mac, engine fields, start/end times. `parseTimePropertyValue` is modelled as the raw date text.
- Vulnerabilities.FetchAssetVulnerabilities: it calls `iterateVulnerabilities`, which `src/client.ts` does not define. The per-asset findings are a parameter `findingsOf`; its nearest client method is `iterateAssetVulnerabilityFinding` (src/client.ts:265-277).
- Sites.SiteIdFromSiteKey: `getSiteIdFromSiteKey` is imported by scan-assets.ts but is not defined in sites.ts. The model reads the id after the `insightvm_site:` prefix.
- ScanAssets.FetchScanAssets: buildSiteAssetsMap reads relationships of type SITE_HAS_ASSET, while the site-assets step writes MONITORS relationships. The relationship records read are therefore a parameter, already filtered by type (src/constants.ts:87-92 defines that type; relationship types are not modelled).
- SiteAssets.FetchSiteAssets: the two source files disagree on the callback's argument. iterateSiteAssets calls its iteratee once per asset, with one asset (src/client.ts:208-221), while the step iterates that argument as an array of assets (src/steps/site-assets.ts:35-39). As written, the step would throw a TypeError at the first site that has an asset, before adding any MONITORS or account HAS asset relationship. The model follows the step's reading: each call receives one page of assets, given as a list of pages per site id.
- Assets.FetchAssets: the count map is stored under `ASSET_VULN_COUNT_MAP`, which src/steps/assets.ts:10-15 imports from src/constants.ts, but src/constants.ts exports only `ACCOUNT_ENTITY_DATA_KEY`, `entities` and `relationships` (lines 7, 17, 59). The model's data key `asset_vuln_count_map` (`Graph.ASSET_VULN_COUNT_MAP`) is a stand-in for that undefined constant.
- Vulnerabilities.CreateFindingEntity: the finding's type and class come from `entities.FINDING` (src/steps/vulnerabilities.ts:31-32), which src/constants.ts does not define (its entity keys, src/constants.ts:9-15, have no FINDING), so the source would read them from an undefined entry. The model's `Graph.FINDING_TYPE` value `insightvm_finding` is a stand-in for that missing constant.
- The steps take the resources their listing delivered. A listing that fails part way through rethrows after its delivered items were handled. That rethrow is not modelled, except in Account.FetchAccountDetails.
- Access.FetchUsers, Sites.FetchSites, SiteAssets.FetchSiteAssets: these require the account entity in the data map, as guaranteed by each step's dependency on the account step. The source's TypeError on a missing account is not modelled.
- The entity `_class` values and the SDK's generated relationship `_key`/`_type` are not modelled. A relationship is its class and its two typed ends.
- Errors.HeaderNumber: `Number()` on a `retry-after` header is modelled for absent, empty and decimal-digit text only. Other numeric text (signs, decimals, whitespace, exponents) reads as NaN in the model.
- validateInvocation.ts, index.ts, ingestionConfig.ts, instanceConfigFields.ts and utils.ts are not part of this model.
