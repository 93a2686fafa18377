# Marketplace search aggregator — a Dafny model

The aggregator answers a search by asking every search node, and merging what the nodes answer. This project models the deterministic part of that pipeline and proves its properties.

- **Where the nodes come from** (`NodeRegistryService`). A registry either lists the endpoints itself, or lists providers. For a provider, the "Front Office" capability of its own node description gives the url. Every failure of the registry itself falls back to a defaults file; a provider that fails is only dropped.
- **Which nodes a request uses** (`Api::V1::ServicesController`). `index` filters the resolved list by the requested names and falls back to the defaults. `custom_aggregate` takes the endpoints from the request and refuses an empty list.
- **How the answers are combined** (`ApiResponseMerger`). A left fold over the nodes' replies:
  - concatenates results and offers;
  - reconciles facet groups by `eid`, sums counts and re-sorts by count;
  - lets the last pagination win;
  - shallow-merges highlights;
  - records one metadata node per reply.
- **What is done with the result** (`DataAggregatorService`):
  - success and failure counters;
  - the descending sort of the primary collection under a heuristically chosen key;
  - the page slice and its arithmetic;
  - the canonical payload from which the cache key is digested.

Module layout, one file each:

| file | module | contents |
|---|---|---|
| `wrappers.dfy` | | `Option` and `Result` |
| `text.dfy` | `Text` | the Ruby string operations used: `strip`, `blank?`, ASCII case folding, `to_s`/`to_i` on integers, byte-wise string order |
| `json.dfy` | `JsonValues` | a generic JSON/Ruby value (objects are association lists with first-binding lookup, string and symbol keys collapsed), Ruby truthiness, `Kernel#Array`, `compact_blank`, `except`, and the HTTP reply record |
| `sequences.dfy` | `Sequences` | generic `map`, `select`, `compact`, `flat_map`, `find` with a raising block, and an insertion sort `SortBy` with permutation and ordering lemmas |
| `facets.dfy` | `Facets` | `merge_facets!` on values, with its reconciliation invariant |
| `merger.dfy` | `ResponseMerger` | `merge_api_responses` as a fold (`MergeStep`/`MergeAll`), plus the mutable hash `MergedData`, whose in-place methods are proved equal to the fold |
| `aggregator.dfy` | `DataAggregator` | `DataAggregatorService`: fetch records, counters, sort, pagination, cache-key payload |
| `registry.dfy` | `NodeRegistry` | `NodeRegistryService`: normalisation, the STATIC_CONFIG flag, defaults selection, provider resolution, the fallback structure, the service class |
| `controller.dfy` | `ServicesController` | `set_endpoints`, `index` and `custom_aggregate`, as a class holding `allNodes` and `endpoints` |

Outside inputs become parameters:
- the HTTP client is `http` (aggregator) and `nodeFetch`/`registryReply` (registry);
- the SHA-256 digest is `digest`;
- `Time.current.iso8601` is `aggregatedAt`;
- the environment variables, `Rails.env` and the parsed defaults file are fields of `RegistryEnv`;
- `JSON.parse` is a `TextResponse` carrying its outcome.

The per-endpoint and per-provider thread bodies are pure functions applied by a sequential map. Joining the threads with `threads.map(&:value)` keeps input order, so the sequential map gives the same list.

## Model

| member | source | states |
|---|---|---|
| `ResponseMerger.MergedData.constructor` | app/concerns/api_response_merger.rb:105-119 | a fresh hash is `base_structure`: no results, offers, facets, highlights or nodes, and pagination `{}` |
| `ResponseMerger.MergeStep` | app/concerns/api_response_merger.rb:9-50 | one step appends exactly one metadata node, built from the reply's source, url, status and success, and leaves the counters alone; a reply that parses to `{}` changes nothing else |
| `ResponseMerger.MergeStepParts` | app/concerns/api_response_merger.rb:33-39 | after one step, the pagination is the reply's own only if that is truthy, else the previous one; the highlights are the previous ones overridden by the reply's |
| `ResponseMerger.PresentResponseKept` | app/concerns/api_response_merger.rb:7-8 | `compact` keeps a non-nil reply exactly once, between what the replies before it and after it compact to |
| `ResponseMerger.NilResponseDropped` | app/concerns/api_response_merger.rb:7-8 | `compact` drops a nil reply, wherever it stands, and nothing else |
| `ResponseMerger.NilResponseIgnored` | app/concerns/api_response_merger.rb:6-8 | a nil reply anywhere in the arguments leaves the merged result unchanged |
| `ResponseMerger.CompactAllPresent` | app/concerns/api_response_merger.rb:7-8 | a list without nil is kept whole, in order |
| `ResponseMerger.MergedData.MergeFacetsInPlace` | app/concerns/api_response_merger.rb:63-103 | the nested `each` loops, updating groups in place, leave exactly `MergeFacets` of the old accumulator |
| `ResponseMerger.MergeGroupItems` | app/concerns/api_response_merger.rb:71-96 | the `items.each` loop over one group, finding by eid and updating in place, ends with the group the item-by-item reconciliation gives |
| `ResponseMerger.MergedData.AppendCollections` | app/concerns/api_response_merger.rb:15-24 | `results` grows by an array payload, or by the payload's `results` field; `offers` grows by its `offers` field |
| `ResponseMerger.MergedData.TakePaginationAndHighlights` | app/concerns/api_response_merger.rb:33-39 | only a truthy pagination replaces the old one; highlights are shallow-merged, with the incoming keys winning |
| `ResponseMerger.MergedData.MergeResponse` | app/concerns/api_response_merger.rb:10-49 | the in-place block of `reduce` turns the hash into `MergeStep` of its old value |
| `ResponseMerger.MergeApiResponses` | app/concerns/api_response_merger.rb:6-51 | the fresh hash returned equals the fold of `MergeStep` over the compacted replies, starting from `base_structure` |
| `ResponseMerger.MergeAllCollections` | app/concerns/api_response_merger.rb:15-24 | merged `results` and `offers` are the concatenation, in reply order, of every reply's contribution |
| `ResponseMerger.MergeAllNodes` | app/concerns/api_response_merger.rb:42-47 | `metadata.nodes` holds one entry per reply, in order, failed ones included: the i-th entry is built from the i-th reply |
| `ResponseMerger.MergeAllPagination` | app/concerns/api_response_merger.rb:34-35 | pagination is that of the last reply carrying a truthy one, else `{}` |
| `ResponseMerger.MergeAllHighlights` | app/concerns/api_response_merger.rb:37-38 | a highlight key is bound exactly when some reply binds it, and to the value of the last reply that does |
| `ResponseMerger.MergeAllFacetMeasures` | app/concerns/api_response_merger.rb:27-30 | across the fold, every group stays unique by eid and ordered by count; an eid is in a group iff some reply brought it there; its total is the sum of every count brought for it |
| `ResponseMerger.MergedFacets` | app/concerns/api_response_merger.rb:82-99 | after merging: each group is in non-increasing count order with at most one item per eid; `find` by eid succeeds exactly for the eids brought, and returns the item holding the summed count |
| `ResponseMerger.MergedData.Copy` | app/services/data_aggregator_service.rb:84 | `dup` yields a new hash equal to the given value |
| `Facets.Incoming` | app/concerns/api_response_merger.rb:72-80 | an item is used iff it is a hash with a truthy eid; it keeps that eid; a missing count counts as 0; a `false` name is stored as nil, as `item["name"] || item[:name]` gives |
| `Facets.IndexOfEid` | app/concerns/api_response_merger.rb:82 | `find` by eid returns the first item carrying the eid, or none when no item does |
| `Facets.MergeItem` | app/concerns/api_response_merger.rb:71-95 | a skipped item changes nothing, and a new eid is appended. A known eid updates only the item found: the counts add up, and the first truthy name and eid stay. Children that hold anything stay; otherwise they are replaced by the incoming array, or by `[]` |
| `Facets.MergeItemMeasures` | app/concerns/api_response_merger.rb:82-94 | one item adds one occurrence of its eid only when the eid is new, and adds its count to the eid's total |
| `Facets.MergeItemsMeasures` | app/concerns/api_response_merger.rb:71-96 | merging an items array keeps eids unique; an eid is present iff it was or an item brings it; its total is the old total plus the counts brought |
| `Facets.SortGroupMeasures` | app/concerns/api_response_merger.rb:99 | `sort_by!` neither loses nor adds an item: occurrences and totals per eid are unchanged |
| `Facets.SortGroupOk` | app/concerns/api_response_merger.rb:99 | after `sort_by!` a group with unique eids is in non-increasing count order |
| `Facets.NewGroupMeasures` | app/concerns/api_response_merger.rb:68-99 | one facet value turns a valid group into a valid group holding the old plus the brought eids and counts; a non-array value leaves it as it was |
| `Facets.MergeGroupMeasures` | app/concerns/api_response_merger.rb:66-100 | one group iteration creates the group if missing, keeps every group valid, and changes the presence and totals of that group only |
| `Facets.MergeFacetsMeasures` | app/concerns/api_response_merger.rb:63-103 | `merge_facets!` keeps every group valid; the groups are the old ones plus those named; presence and totals per group and eid are the old ones plus what the hash brings |
| `Facets.FindHoldsTotal` | app/concerns/api_response_merger.rb:82 | in a group with unique eids, the item `find` returns carries the eid's whole count |
| `Facets.IncomingSent` | app/concerns/api_response_merger.rb:72-76 | a node's `{name, eid, count}` item is stored with that name, eid and count, and children `[]` |
| `Facets.ProvidersExample` | test/concerns/api_response_merger_test.rb:113-139 | x (2) from one node, then y (9) and x (1) from another, give the group y (9), x (3) |
| `DataAggregator.NewAggregator` | app/services/data_aggregator_service.rb:11-14 | the endpoints are kept; the params are exactly the pairs whose value is not blank |
| `DataAggregator.EndpointName` | app/services/data_aggregator_service.rb:110-111 | an endpoint's source name is its truthy `name` field, else its url; a non-hash endpoint is named by its url |
| `DataAggregator.ApiParams` | app/services/data_aggregator_service.rb:109 | every node is asked with `per_page` 10000, no `page`, and every other parameter unchanged |
| `DataAggregator.FetchOne` | app/services/data_aggregator_service.rb:108-117 | a record carries the endpoint's name and url; it is successful iff the request returned and the reply reports success; a raised error gives no data and no status but the error message |
| `DataAggregator.FetchAll` | app/services/data_aggregator_service.rb:104-122 | one record per endpoint, in endpoint order, each from its own request with the same query |
| `DataAggregator.RecordFields` | app/services/data_aggregator_service.rb:113-117 | the hash the merger sees yields the node `{name, url, status, success}` of the record (status nil for a failed request) and the record's data |
| `DataAggregator.CompactResponses` | app/services/data_aggregator_service.rb:66-68 | the merger sees every record, in order |
| `DataAggregator.Metadata` | app/services/data_aggregator_service.rb:156-165 | `total_sources` is the endpoint count, `successful_sources` the number of successful records, and the two counts of sources sum to the total |
| `DataAggregator.MetadataMatchesNodes` | app/services/data_aggregator_service.rb:65-72 | in the final aggregate the counters agree with the nodes: one node per endpoint, and `successful_sources` is the number of nodes marked successful |
| `DataAggregator.CountsAgree` | app/services/data_aggregator_service.rb:157-161 | counting successes over the nodes or over the records gives the same number |
| `DataAggregator.NodesOfRecords` | app/services/data_aggregator_service.rb:66-68 | merging the records gives one node per record, successful exactly when the record is |
| `DataAggregator.AllDataParts` | app/services/data_aggregator_service.rb:68-71 | sorting and the counters leave the merged nodes alone; the counters are those of the fetched records |
| `DataAggregator.FirstPresent` | app/services/data_aggregator_service.rb:149-151 | the first key of a list that the sample has, and none only when it has none of them |
| `DataAggregator.DetermineSortKey` | app/services/data_aggregator_service.rb:146-154 | `score` if present; else the first present of `created_at, timestamp, updated_at, id, date`; else the sample's first key (none for an empty hash) |
| `DataAggregator.Sorted` | app/services/data_aggregator_service.rb:125-143 | when the primary collection starts with a hash, it becomes a permutation of itself in non-increasing order of the key's value, a missing value counting as 0; otherwise, and in every other field, nothing changes |
| `DataAggregator.SortData` | app/services/data_aggregator_service.rb:125-144 | the in-place sort leaves the hash equal to `Sorted` of its old value |
| `DataAggregator.CeilDiv` | app/services/data_aggregator_service.rb:96 | the ceiling of a quotient: for a positive divisor, the least q with a <= q * b |
| `DataAggregator.RubySlice` | app/services/data_aggregator_service.rb:82 | `ary[start, len]` is nil exactly for a negative length or a start outside the array; otherwise it holds at most `len` items from `start` on |
| `DataAggregator.PageInfoOf` | app/services/data_aggregator_service.rb:92-99 | `total_count` is the primary length; `total_pages` is the ceiling of the total over `per_page`, for a negative `per_page` as well; `has_next_page` iff page < total_pages; `has_prev_page` iff page > 1 |
| `DataAggregator.NegativePerPageExample` | app/services/data_aggregator_service.rb:96-97 | `per_page=-10` over 25 results gives -2 pages and no next page |
| `DataAggregator.Paginated` | app/services/data_aggregator_service.rb:74-102 | only the primary collection and `pagination` change: facets, highlights, offers, nodes and counters equal the unpaginated aggregate's |
| `DataAggregator.PageSliceInRange` | app/services/data_aggregator_service.rb:81-82 | for page >= 1 and per_page >= 1 the page is the items from offset (page-1)*per_page on, at most per_page of them, and `[]` past the end |
| `DataAggregator.PageHoldsItem` | app/services/data_aggregator_service.rb:81-82 | item i is item i mod per_page of page i div per_page + 1 |
| `DataAggregator.PaginateData` | app/services/data_aggregator_service.rb:74-102 | the page is built on a fresh copy and equals `Paginated` of the aggregate |
| `DataAggregator.FetchAndMergeAllData` | app/services/data_aggregator_service.rb:65-72 | a fresh hash: the merged records, with the counters added, sorted |
| `DataAggregator.AggregateData` | app/services/data_aggregator_service.rb:24-27 | succeeds exactly when `per_page` is not 0 and then yields the requested page of the aggregate; a zero `per_page` yields the FloatDomainError message |
| `DataAggregator.NormalizeForKey` | app/services/data_aggregator_service.rb:39-46 | for the key, a hash endpoint's name falls back to its url and its url to its name; a non-hash endpoint e becomes `{name: e, url: e}` |
| `DataAggregator.NormalizeAll` | app/services/data_aggregator_service.rb:36-47 | every endpoint is normalised, in order |
| `DataAggregator.CachePayloadCanonical` | app/services/data_aggregator_service.rb:36-60 | the payload's endpoints are the normalised endpoints, sorted by (name, url); its params are exactly the pairs other than `page`/`per_page`, sorted by key |
| `DataAggregator.CacheKeyEndpointOrder` | app/services/data_aggregator_service.rb:36-48 | any permutation of the endpoint list gives the same cache key |
| `DataAggregator.CacheKeyParams` | app/services/data_aggregator_service.rb:57-59 | parameter hashes with distinct keys that hold the same pairs apart from `page` and `per_page`, in any order, give the same cache key |
| `DataAggregator.CacheKeyIgnoresPaging` | app/services/data_aggregator_service.rb:57 | adding `page` or `per_page` leaves the cache key unchanged |
| `JsonValues.ArrayCoerce` | app/services/node_registry_service.rb:145 | `Array(v)`: an array is kept, nil becomes `[]`, a hash yields, in order, one `[key, value]` pair per entry, and anything else is wrapped |
| `JsonValues.CompactBlank` | app/services/data_aggregator_service.rb:13 | exactly the pairs whose value is not blank |
| `JsonValues.Except` | app/services/data_aggregator_service.rb:57 | exactly the pairs whose key is not excluded |
| `Text.StrToIUnderscore` | app/services/data_aggregator_service.rb:75-76 | `to_i` skips one underscore between digits: `"1_0"` reads as 10 |
| `Text.StrToIDoubleUnderscore` | app/services/data_aggregator_service.rb:75-76 | two underscores in a row end the number: `"1__0"` reads as 1 |
| `Text.StripEmptyIffAllSpace` | app/services/node_registry_service.rb:91 | `s.strip.empty?` holds exactly when every character is one that `strip` removes |
| `NodeRegistry.EndpointJson` | app/services/node_registry_service.rb:151 | the endpoint handed on is a hash whose `name` and `url` are the endpoint's |
| `NodeRegistry.NormalizeItem` | app/services/node_registry_service.rb:146-156 | for a hash, the name is the first truthy of `name`, `service` and `id`, else the url; the url is `url.to_s`; pid is nil or its string. A `false` url or pid reads as nil, as `h["k"] || h[:k]` does on a string-keyed hash. A non-hash item gives its string form as name and url |
| `NodeRegistry.NormalizeEndpoints` | app/services/node_registry_service.rb:144-158 | no output entry has a blank url; every output entry is a normalised input item; every normalised item with a url is kept; there are no more entries than input items |
| `NodeRegistry.NormalizeEndpointsSingle` | app/services/node_registry_service.rb:144-157 | one item gives its normalised entry once, or nothing when that url is blank, so with `NormalizeEndpointsAppend` the output is fixed entry by entry |
| `NodeRegistry.NormalizeEndpointsAppend` | app/services/node_registry_service.rb:145-157 | normalisation works entry by entry and keeps input order |
| `NodeRegistry.TruthyEnvIgnoresCase` | app/services/node_registry_service.rb:52-55 | the flag ignores letter case |
| `NodeRegistry.TruthyEnvPaddedYes` | app/services/node_registry_service.rb:52-55 | surrounding whitespace is ignored: `" Yes\n"` is true |
| `NodeRegistry.TruthyEnvFalseExamples` | app/services/node_registry_service.rb:52-55 | unset, empty and words outside the list are false |
| `NodeRegistry.SelectList` | app/services/node_registry_service.rb:129-138 | an array is used as it is; a hash yields its entry for the environment, else `default`, else `[]`; any other value yields `[]` |
| `NodeRegistry.LoadDefaultEndpoints` | app/services/node_registry_service.rb:123-141 | fails exactly when the file cannot be read; otherwise yields the normalised selection, and every endpoint it yields has a non-blank url |
| `NodeRegistry.DefaultsListIgnoresEnv` | app/services/node_registry_service.rb:130-132 | a defaults file holding a list yields the same endpoints in every Rails environment |
| `NodeRegistry.DefaultsEnvEntryWins` | app/services/node_registry_service.rb:133-135 | a truthy entry for the environment wins over a `default` entry placed after it |
| `NodeRegistry.DefaultsFallBack` | app/services/node_registry_service.rb:133-135 | without a truthy entry for the environment, a hash file loads as if it were the list `Array(default)` |
| `NodeRegistry.ReadDefaultsAsWrittenNeedsPath` | app/services/node_registry_service.rb:124-127 | as written, the defaults load only if the file's contents name another existing file |
| `NodeRegistry.ReadDefaults` | app/services/node_registry_service.rb:124-127 | the intended reading: a missing file fails, and an existing one is parsed from its contents |
| `NodeRegistry.DefaultsFileIgnored` | app/services/node_registry_service.rb:127 | with a readable one-item defaults file, the code as written yields an error and the intended reading yields that item |
| `NodeRegistry.FindFrontOffice` | app/services/node_registry_service.rb:99-101 | nothing is found iff every capability is passed over; a found capability is Front Office and comes after passed-over ones only; the block raises only at a capability it can neither take nor pass over, which is any value that is neither a hash nor a string holding `capability_type` |
| `NodeRegistry.StringCapabilityRaises` | app/services/node_registry_service.rb:99-101 | a string capability without `capability_type` before a Front Office hash makes the lookup raise |
| `NodeRegistry.CapabilitiesOf` | app/services/node_registry_service.rb:96-97 | a nil or false body has no capabilities; a hash body gives `Array` of its `capabilities` |
| `NodeRegistry.ResolveProvider` | app/services/node_registry_service.rb:87-114 | a provider yields an endpoint iff it is a hash with a non-blank `node_endpoint` whose request succeeds, and whose body has a Front Office capability with an endpoint that is neither blank nor `-`, with no capability before it that makes the block raise. A `false` field reads as nil. That endpoint's url is the capability's endpoint, its name the provider's `name`, else `id`, else the url, and its pid `pid.to_s` |
| `NodeRegistry.BuildEndpointsFromRegistry` | app/services/node_registry_service.rb:81-120 | every output entry is a resolved provider with a url that is non-empty after `strip`, and every provider that resolves is in the output; there are no more entries than providers |
| `NodeRegistry.BuildEndpointsAppend` | app/services/node_registry_service.rb:84-119 | providers are resolved one by one: the output for a list is the outputs for its parts, in provider order |
| `NodeRegistry.FailedProviderDropped` | app/services/node_registry_service.rb:111-117 | a provider that fails contributes nothing |
| `NodeRegistry.ResolvedProviderKept` | app/services/node_registry_service.rb:110-117 | a provider that resolves contributes its endpoint exactly once |
| `NodeRegistry.DefaultEndpointsOf` | app/services/node_registry_service.rb:43-48 | a defaults file that cannot be loaded gives `[]`; otherwise the normalised selection |
| `NodeRegistry.FetchFromRegistryOf` | app/services/node_registry_service.rb:57-78 | any failure of the registry request gives the defaults; a provider-shaped body is resolved provider by provider; any other body is normalised. Every endpoint it yields passed the filter of its path: a url that is not blank, or that is non-empty after `strip` |
| `NodeRegistry.EndpointsOf` | app/services/node_registry_service.rb:31-41 | under STATIC_CONFIG the defaults; otherwise what the registry gives. Every endpoint passed the url filter of its path |
| `NodeRegistry.FailedRegistryIsStatic` | app/services/node_registry_service.rb:31-78 | when the registry does not answer, the result is the defaults with or without STATIC_CONFIG |
| `NodeRegistry.EndpointsHaveUrls` | app/services/node_registry_service.rb:117-119 | whichever path is taken, no endpoint has an empty url |
| `NodeRegistry.NulUrlKept` | app/services/node_registry_service.rb:117-119 | the two url filters differ: a one-NUL url survives normalisation, as it is not blank, although `strip` empties it |
| `NodeRegistry.NodeRegistryService.constructor` | app/services/node_registry_service.rb:14-17 | the TTL is kept, the api key is stripped, and the STATIC_CONFIG flag is parsed |
| `NodeRegistry.NodeRegistryService.DefaultEndpoints` | app/services/node_registry_service.rb:43-48 | the method agrees with `DefaultEndpointsOf` |
| `NodeRegistry.NodeRegistryService.FetchFromRegistry` | app/services/node_registry_service.rb:57-78 | the early exits and the rescue agree with `FetchFromRegistryOf` |
| `NodeRegistry.NodeRegistryService.Endpoints` | app/services/node_registry_service.rb:31-41 | the method agrees with `EndpointsOf` |
| `ServicesController.FilterByNames` | app/controllers/api/v1/services_controller.rb:40-46 | exactly the resolved endpoints whose name is requested are kept: every kept one is requested, and every requested one is kept |
| `ServicesController.FilterByNamesAppend` | app/controllers/api/v1/services_controller.rb:43-46 | filtering keeps the resolved order |
| `ServicesController.FilterByNamesSingle` | app/controllers/api/v1/services_controller.rb:43-46 | one endpoint is kept exactly when its name is requested |
| `ServicesController.FilterByNamesEvery` | app/controllers/api/v1/services_controller.rb:40-46 | requesting every name selects the whole list |
| `ServicesController.ResolvedNodes` | app/controllers/api/v1/services_controller.rb:35-38 | `@all_nodes` is the registry's list, or the defaults when that list is empty; it is empty only when both are, so non-empty defaults always give nodes; every node passed a url filter |
| `ServicesController.SelectedEndpoints` | app/controllers/api/v1/services_controller.rb:40-49 | without `nodes`, the full list; with them, exactly the resolved nodes whose name is in `Array(nodes)`, in resolved order. Nothing outside the resolved list is ever selected |
| `ServicesController.EndpointPayloads` | app/controllers/api/v1/services_controller.rb:7 | the aggregator receives one hash per selected endpoint, in order |
| `ServicesController.IndexOf` | app/controllers/api/v1/services_controller.rb:6-14 | success exactly when `per_page` is not 0; on success the data is the requested page of the aggregate over the selected endpoints, and `nodes` is the full, unfiltered list |
| `ServicesController.CustomEndpointsOf` | app/controllers/api/v1/services_controller.rb:17 | nil passes as no endpoints; a list of hashes passes unchanged; anything else raises |
| `ServicesController.CustomAggregateOf` | app/controllers/api/v1/services_controller.rb:16-30 | a blank list gives the bad-request "No endpoints provided"; a non-empty list of hashes succeeds with the first page of 10; anything else is the 500 error |
| `ServicesController.DefaultPaging` | app/services/data_aggregator_service.rb:75-76 | with no parameters, page 1 of 10 is asked for |
| `ServicesController.ServicesController.SetEndpoints` | app/controllers/api/v1/services_controller.rb:34-50 | `@all_nodes` becomes the resolved nodes, with the default fallback, and `@endpoints` their selection by `nodes` |
| `ServicesController.ServicesController.Index` | app/controllers/api/v1/services_controller.rb:6-14 | after the filter, the response agrees with `IndexOf` over `@endpoints` and `@all_nodes` |
| `ServicesController.ServicesController.CustomAggregate` | app/controllers/api/v1/services_controller.rb:16-30 | the guard returns before any aggregator is built, and the response agrees with `CustomAggregateOf` |

## Left out

- HTTP: the Faraday clients, redirects, timeouts and the `X-Api-Key` header are not modelled. Replies are inputs: `http`, `nodeFetch` and `registryReply`. The stripped api key is stored, and nothing reads it.
- Threads: each thread body is a pure function mapped in order, which is what joining with `threads.map(&:value)` yields.
- Caching: `Rails.cache.fetch`, in the aggregator and in the registry, is taken to always miss. The cache key and its payload are modelled; the store, its TTL and cache errors are not.
- Digest: SHA-256 over `JSON.generate` is the function parameter `digest`, applied to the canonical payload value.
- Time, logging and `puts`: `aggregated_at` is an input string. Log output is not modelled.
- The environment and files: ENV reads are parameters. `File.exist?`/`File.read` are a file-system function. YAML and JSON parsing are inputs: `defaultsFile`, a `yaml` function, and the `TextResponse` outcome. A JSON text that parses to a non-object is not modelled.
- Keys: string and symbol keys form one key space, so `h[:k] || h["k"]` is one lookup. Where the string lookup comes first (`h["k"] || h[:k]`: the registry's fields and a facet item's name) a `false` value reads as nil, which is `JsonValues.Get`. Where the symbol lookup comes first (endpoint urls and names in the aggregator) the value is kept as found, which is right for a string-keyed hash; on a symbol-keyed hash Ruby would read a `false` value as nil. Hash iteration order is kept for parameters and facet items. Facet groups and highlights are maps, so their key order is not modelled.
- Floats: `to_f` in `sort_data` is taken as the integer value, with strings read by their leading integer. Float division and `ceil` in `paginate_data` are integer ceiling division. A zero `per_page` is the FloatDomainError path.
- Ruby's `sort_by` is unstable. `SortBy` is one stable insertion sort, and only permutation plus order is stated about it.
- `DataAggregator.Sorted`: only `results` is ever sorted. Merging always makes `results` present, so `offers` is never the primary collection, and the model never sorts it.
- `DataAggregator.SortData`: a later item that is not a hash sorts with value 0. In Ruby, `item[key]` on such an item may raise or read a substring.
- `Facets.Incoming`: `to_i` on a value that has no `to_i` (an array, a hash, `true`) raises in Ruby; the model counts it as 0.
- `Facets.MergeItem`: `any?` on a stored `children` that is a string or a number raises in Ruby; the model treats it as empty.
- `NodeRegistry.ResolveProvider`: a provider item that is not a hash is dropped. Ruby's `String#[]` would read substrings of it, and could issue a request.
- `NodeRegistry.NormalizeItem`: `to_s` of a non-string value is `inspect`, without the escaping inside string literals.
- `NodeRegistry.FrontOfficeUrl` carries no contract of its own. It is the `endpoint` of what `FindFrontOffice` returns, and `ResolveProvider` states its effect.
- `ServicesController.IndexOf`: the only error modelled is the zero `per_page`. Other exceptions would need the Ruby raising behaviour already approximated above.
- Routing: config/routes.rb:7 sends `POST aggregated_data/custom` to `aggregated_data#custom_aggregate`, not to this controller, so `ServicesController#custom_aggregate` is not reachable by the routes shown. The model has it as written in the controller.
- `ServicesController.CustomEndpointsOf`: the error message is shortened to the method name. Ruby's `NoMethodError#message` also describes the receiver.
- `DataAggregator.SortValue`: `-value.to_f` raises `NoMethodError` on `true`, an array or a hash, which `index` turns into the status-500 body; the model sorts such a value as 0.
- `DataAggregator.SortValue`: `Json` has no fractional numbers, so a sort value such as a score of 0.87 cannot be written, and order between values that differ only after the point is not modelled.

## Findings

| source | as written | input that shows it | evidently intended | confidence | as-written member | corrected member |
|---|---|---|---|---|---|---|
| app/services/node_registry_service.rb:127 | The file's contents, from `File.read(path)`, are passed to `YAML.safe_load_file`, which opens its argument as a path. Loading fails, and `default_endpoints` rescues the failure to `[]`, so the defaults file is never used. | `config/default_endpoints.yml` containing the one line `- https://a.example` | parse the file at `path`, giving the endpoint `https://a.example` | not executed | `NodeRegistry.ReadDefaultsAsWritten` (exhibited by `NodeRegistry.DefaultsFileIgnored`) | `NodeRegistry.ReadDefaults` |

The rest of the model takes `RegistryEnv.defaultsFile` as the parsed file, which is the corrected reading.
