/**
 * `DataAggregatorService` (app/services/data_aggregator_service.rb): one HTTP
 * request per endpoint, the merge of the replies, the success counters, the
 * descending sort of the primary collection, the page slice and the cache key.
 * The HTTP client is the function parameter `http`; the SHA-256 digest of the
 * JSON payload is the function parameter `digest`.
 */
module DataAggregator {
  import opened Wrappers
  import opened Text
  import opened JsonValues
  import opened Sequences
  import opened ResponseMerger

  /** The two parameters that select a page and never reach the nodes or the cache key. */
  const PageKeys: set<string> := {"page", "per_page"}

  /** An aggregator: its endpoint list and its request parameters, blank values removed. */
  datatype Aggregator = Aggregator(endpoints: seq<Json>, params: Fields)

  /** `DataAggregatorService.new(endpoints, params)`. */
  function NewAggregator(endpoints: seq<Json>, params: Fields): (a: Aggregator)
    ensures a.endpoints == endpoints
    ensures forall p :: p in a.params <==> p in params && !Blank(p.1)
  {
    Aggregator(endpoints, CompactBlank(params))
  }

  // ---------------------------------------------------------------------------
  // Fetching (the body of each thread of `fetch_all_endpoints`)


  /** The hash one endpoint's thread returns. */
  datatype FetchRecord = FetchRecord(source: string, url: string, data: Json, status: Json, success: bool, error: Option<string>)

  /** The request URL of an endpoint: its `url` field, or the endpoint itself as a string. */
  function EndpointUrl(e: Json): string {
    if e.JObj? then ToS(Lookup(e.fields, "url")) else ToS(e)
  }

  /** The source name of an endpoint: its `name` field, falling back to its URL. */
  function EndpointName(e: Json): (name: string)
    ensures !e.JObj? ==> name == EndpointUrl(e)
    ensures e.JObj? && !Truthy(Lookup(e.fields, "name")) ==> name == EndpointUrl(e)
    ensures e.JObj? && Truthy(Lookup(e.fields, "name")) ==> name == ToS(Lookup(e.fields, "name"))
  {
    if e.JObj? then ToS(Or(Lookup(e.fields, "name"), JStr(EndpointUrl(e)))) else EndpointUrl(e)
  }

  lemma {:induction false} LookupAppendAbsent(xs: Fields, ys: Fields, k: string)
    requires !HasKey(xs, k)
    ensures Lookup(xs + ys, k) == Lookup(ys, k)
  {
    if xs != [] {
      assert (xs + ys)[1..] == xs[1..] + ys;
      assert (xs + ys)[0] == xs[0];
      assert xs[0].0 != k;
      assert !HasKey(xs[1..], k) by {
        forall i | 0 <= i < |xs[1..]| ensures xs[1..][i].0 != k {
          assert xs[1..][i] == xs[i + 1];
        }
      }
      LookupAppendAbsent(xs[1..], ys, k);
    } else {
      assert xs + ys == ys;
    }
  }

  lemma {:induction false} LookupExcept(fs: Fields, keys: set<string>, k: string)
    ensures k !in keys ==> Lookup(Except(fs, keys), k) == Lookup(fs, k)
    ensures k in keys ==> !HasKey(Except(fs, keys), k)
  {
    var r := Except(fs, keys);
    forall i | 0 <= i < |r| && k in keys ensures r[i].0 != k {
      assert r[i] in r;
    }
    if fs != [] {
      LookupExcept(fs[1..], keys, k);
      var rest := Except(fs[1..], keys);
      if fs[0].0 !in keys {
        assert r == [fs[0]] + rest;
        assert r[0] == fs[0] && r[1..] == rest;
      } else {
        assert r == rest;
      }
    }
  }

  /**
   * The query of every node request: the parameters without `page` and
   * `per_page`, with `per_page` forced to 10000.
   */
  function ApiParams(params: Fields): (q: Fields)
    ensures Lookup(q, "per_page") == JInt(10000)
    ensures !HasKey(q, "page")
    ensures forall k | k !in PageKeys :: Lookup(q, k) == Lookup(params, k)
  {
    var rest := Except(params, PageKeys);
    LookupExcept(params, PageKeys, "per_page");
    LookupAppendAbsent(rest, [("per_page", JInt(10000))], "per_page");
    LookupExcept(params, PageKeys, "page");
    assert forall k | k !in PageKeys :: Lookup(rest + [("per_page", JInt(10000))], k) == Lookup(params, k) by {
      forall k | k !in PageKeys ensures Lookup(rest + [("per_page", JInt(10000))], k) == Lookup(params, k) {
        LookupExcept(params, PageKeys, k);
        LookupAppendPresent(rest, [("per_page", JInt(10000))], k);
      }
    }
    rest + [("per_page", JInt(10000))]
  }

  lemma {:induction false} LookupAppendPresent(xs: Fields, ys: Fields, k: string)
    requires forall p :: p in ys ==> p.0 != k
    ensures Lookup(xs + ys, k) == Lookup(xs, k)
  {
    if xs == [] {
      LookupNoKey(ys, k);
      assert xs + ys == ys;
    } else {
      assert (xs + ys)[1..] == xs[1..] + ys;
      assert (xs + ys)[0] == xs[0];
      LookupAppendPresent(xs[1..], ys, k);
    }
  }

  lemma {:induction false} LookupNoKey(fs: Fields, k: string)
    requires forall p :: p in fs ==> p.0 != k
    ensures Lookup(fs, k) == JNull
  {
    if fs != [] {
      assert fs[0] in fs;
      assert forall p :: p in fs[1..] ==> p in fs;
      LookupNoKey(fs[1..], k);
    }
  }

  /** One thread: the reply, or the error that the `rescue` turns into a failed record. */
  function FetchOne(e: Json, reply: Result<HttpReply>): (rec: FetchRecord)
    ensures rec.source == EndpointName(e) && rec.url == EndpointUrl(e)
    ensures rec.success <==> reply.Ok? && reply.value.success
    ensures reply.Ok? ==> rec.data == reply.value.body && rec.status == JInt(reply.value.status) && rec.error == None
    ensures reply.Err? ==> rec.data == JNull && rec.status == JNull && rec.error == Some(reply.message)
  {
    match reply
    case Ok(r) => FetchRecord(EndpointName(e), EndpointUrl(e), r.body, JInt(r.status), r.success, None)
    case Err(msg) => FetchRecord(EndpointName(e), EndpointUrl(e), JNull, JNull, false, Some(msg))
  }

  /** `fetch_all_endpoints`, its threads joined in endpoint order. */
  function FetchAll(agg: Aggregator, http: (string, Fields) -> Result<HttpReply>): (recs: seq<FetchRecord>)
    ensures |recs| == |agg.endpoints|
    ensures forall i :: 0 <= i < |recs| ==>
              recs[i] == FetchOne(agg.endpoints[i], http(EndpointUrl(agg.endpoints[i]), ApiParams(agg.params)))
  {
    seq(|agg.endpoints|, i requires 0 <= i < |agg.endpoints| =>
      FetchOne(agg.endpoints[i], http(EndpointUrl(agg.endpoints[i]), ApiParams(agg.params))))
  }

  /** A record as the hash the merger receives. */
  function RecordFields(rec: FetchRecord): (fs: Fields)
    ensures NodeOf(fs) == NodeMeta(JStr(rec.source), JStr(rec.url), if rec.error.Some? then JNull else rec.status, JBool(rec.success))
    ensures Lookup(fs, "data") == rec.data
  {
    var fs :=
      if rec.error.Some? then
        [("source", JStr(rec.source)), ("url", JStr(rec.url)), ("data", rec.data),
         ("error", JStr(rec.error.value)), ("success", JBool(rec.success))]
      else
        [("source", JStr(rec.source)), ("url", JStr(rec.url)), ("data", rec.data),
         ("status", rec.status), ("success", JBool(rec.success))];
    LookupAt(fs, 0, "source");
    LookupAt(fs, 1, "url");
    LookupAt(fs, 2, "data");
    LookupAt(fs, 4, "success");
    if rec.error.Some? then
      LookupNoKey(fs, "status");
      fs
    else
      LookupAt(fs, 3, "status");
      fs
  }

  function Responses(recs: seq<FetchRecord>): (rs: seq<Option<RawResponse>>)
    ensures |rs| == |recs| && forall i :: 0 <= i < |recs| ==> rs[i] == Some(HashResponse(RecordFields(recs[i])))
  {
    seq(|recs|, i requires 0 <= i < |recs| => Some(HashResponse(RecordFields(recs[i]))))
  }

  /** No record is nil, so the merger sees every one of them, in order. */
  lemma CompactResponses(recs: seq<FetchRecord>)
    ensures |Somes(Responses(recs))| == |recs|
    ensures forall i :: 0 <= i < |recs| ==> Somes(Responses(recs))[i] == HashResponse(RecordFields(recs[i]))
  {
    var xs := seq(|recs|, i requires 0 <= i < |recs| => HashResponse(RecordFields(recs[i])));
    CompactAllPresent(Responses(recs), xs);
  }

  // ---------------------------------------------------------------------------
  // Metadata counters

  function CountSuccess(recs: seq<FetchRecord>): (n: nat)
    ensures n <= |recs|
    decreases |recs|
  {
    if recs == [] then 0 else CountSuccess(recs[..|recs| - 1]) + (if recs[|recs| - 1].success then 1 else 0)
  }

  /** `metadata(responses)`: the numbers of endpoints, of successful replies and of the rest. */
  function Metadata(agg: Aggregator, recs: seq<FetchRecord>, aggregatedAt: string): (s: SourceStats)
    ensures s.totalSources == |agg.endpoints|
    ensures s.successfulSources == CountSuccess(recs)
    ensures s.successfulSources + s.failedSources == s.totalSources
  {
    SourceStats(|agg.endpoints|, CountSuccess(recs), |agg.endpoints| - CountSuccess(recs), aggregatedAt)
  }

  /** The metadata nodes whose `success` is truthy. */
  function CountSucceededNodes(nodes: seq<NodeMeta>): nat
    decreases |nodes|
  {
    if nodes == [] then 0 else CountSucceededNodes(nodes[..|nodes| - 1]) + (if Truthy(nodes[|nodes| - 1].success) then 1 else 0)
  }

  lemma {:induction false} CountsAgree(nodes: seq<NodeMeta>, recs: seq<FetchRecord>)
    requires |nodes| == |recs|
    requires forall i :: 0 <= i < |recs| ==> (Truthy(nodes[i].success) <==> recs[i].success)
    ensures CountSucceededNodes(nodes) == CountSuccess(recs)
  {
    if recs != [] {
      var n := |recs| - 1;
      CountsAgree(nodes[..n], recs[..n]);
    }
  }

  // ---------------------------------------------------------------------------
  // Sorting (`determine_sort_key` and `sort_data`)

  const PriorityKeys: seq<string> := ["created_at", "timestamp", "updated_at", "id", "date"]

  /** The first of `keys` that `sample` has, if any. */
  function FirstPresent(sample: Fields, keys: seq<string>): (k: Option<string>)
    ensures k.None? <==> forall i :: 0 <= i < |keys| ==> !HasKey(sample, keys[i])
    ensures k.Some? ==> exists i :: 0 <= i < |keys| && keys[i] == k.value && HasKey(sample, k.value)
                                    && forall j :: 0 <= j < i ==> !HasKey(sample, keys[j])
  {
    if keys == [] then None
    else if HasKey(sample, keys[0]) then Some(keys[0])
    else
      var r := FirstPresent(sample, keys[1..]);
      if r.Some? then
        var i :| 0 <= i < |keys[1..]| && keys[1..][i] == r.value && HasKey(sample, r.value)
                 && forall j :: 0 <= j < i ==> !HasKey(sample, keys[1..][j]);
        assert keys[i + 1] == r.value;
        assert forall j :: 0 <= j < i + 1 ==> !HasKey(sample, keys[j]) by {
          forall j | 0 <= j < i + 1 ensures !HasKey(sample, keys[j]) {
            if j > 0 { assert keys[j] == keys[1..][j - 1]; }
          }
        }
        r
      else
        assert forall i :: 0 <= i < |keys| ==> !HasKey(sample, keys[i]) by {
          forall i | 0 <= i < |keys| ensures !HasKey(sample, keys[i]) {
            if i > 0 { assert keys[i] == keys[1..][i - 1]; }
          }
        }
        r
  }

  /**
   * `determine_sort_key(sample)`: `score`; else the first present of
   * `created_at, timestamp, updated_at, id, date`; else the sample's first key
   * (nil for an empty hash).
   */
  function DetermineSortKey(sample: Fields): (k: Option<string>)
    ensures HasKey(sample, "score") ==> k == Some("score")
    ensures !HasKey(sample, "score") ==>
              forall i | 0 <= i < |PriorityKeys| && HasKey(sample, PriorityKeys[i]) ::
                (forall j :: 0 <= j < i ==> !HasKey(sample, PriorityKeys[j])) ==> k == Some(PriorityKeys[i])
    ensures !HasKey(sample, "score") && (forall i :: 0 <= i < |PriorityKeys| ==> !HasKey(sample, PriorityKeys[i])) ==>
              k == (if sample == [] then None else Some(sample[0].0))
  {
    if HasKey(sample, "score") then Some("score")
    else
      var p := FirstPresent(sample, PriorityKeys);
      if p.Some? then p
      else if sample == [] then None
      else Some(sample[0].0)
  }

  /** `to_f` of a sort value: integers exactly, strings by their leading integer, the rest as 0. */
  function Numeric(v: Json): int {
    match v
    case JInt(n) => n
    case JStr(s) => StrToI(s)
    case _ => 0
  }

  /** `item[sort_key] || item[sort_key.to_s] || 0`, as a number. A nil key reads the key "": a parsed hash has no nil key, so `item[nil]` finds nothing. */
  function SortValue(item: Json, key: Option<string>): int {
    var v := if item.JObj? then Lookup(item.fields, if key.Some? then key.value else "") else JNull;
    Numeric(Or(v, JInt(0)))
  }

  /** Order of `sort_by { -value }`: larger values first. */
  function ByValueDesc(key: Option<string>): (Json, Json) -> bool {
    (a: Json, b: Json) => SortValue(a, key) >= SortValue(b, key)
  }

  lemma ByValueDescTotal(key: Option<string>)
    ensures TotalPreorder(ByValueDesc(key))
  {
  }

  /**
   * `sort_data`: when the primary collection starts with a hash, it becomes a
   * permutation of itself in non-increasing order of the sort key's value;
   * nothing else changes. `results` is always present after merging, so it is
   * the primary collection and `offers` is never sorted.
   */
  function Sorted(m: Merged): (r: Merged)
    ensures r == m.(results := r.results)
    ensures multiset(r.results) == multiset(m.results)
    ensures (m.results == [] || !m.results[0].JObj?) ==> r == m
    ensures m.results != [] && m.results[0].JObj? ==>
              forall i, j :: 0 <= i < j < |r.results| ==>
                SortValue(r.results[i], DetermineSortKey(m.results[0].fields))
                >= SortValue(r.results[j], DetermineSortKey(m.results[0].fields))
  {
    if m.results != [] && m.results[0].JObj? then
      var key := DetermineSortKey(m.results[0].fields);
      ByValueDescTotal(key);
      SortBySorted(m.results, ByValueDesc(key));
      m.(results := SortBy(m.results, ByValueDesc(key)))
    else m
  }

  /** `sort_data(merged_data)`: the primary collection re-sorted in place. */
  method SortData(m: MergedData)
    modifies m`results
    ensures m.Value() == Sorted(old(m.Value()))
  {
    if m.results != [] && m.results[0].JObj? {
      var key := DetermineSortKey(m.results[0].fields);
      m.results := SortBy(m.results, ByValueDesc(key));
    }
  }

  // ---------------------------------------------------------------------------
  // Pagination (`paginate_data`)

  /** `(@params[:page] || 1).to_i`. */
  function PageOf(params: Fields): int {
    ToI(Or(Lookup(params, "page"), JInt(1)))
  }

  /** `(@params[:per_page] || 10).to_i`. */
  function PerPageOf(params: Fields): int {
    ToI(Or(Lookup(params, "per_page"), JInt(10)))
  }

  /** `(a.to_f / b).ceil` on integers: the least q with a <= q * b for a positive b, with a >= q * b for a negative one. */
  function CeilDiv(a: int, b: int): (q: int)
    requires b != 0
    ensures b > 0 ==> (q - 1) * b < a <= q * b
    ensures b < 0 ==> q * b <= a < (q - 1) * b
  {
    if b > 0 then
      var q := (a + b - 1) / b;
      assert q * b + (a + b - 1) % b == a + b - 1;
      q
    else
      var q := (-a - b - 1) / (-b);
      assert q * (-b) + (-a - b - 1) % (-b) == -a - b - 1;
      q
  }

  /** Ruby's `ary[start, len]`: nil for a start outside the array or a negative length. */
  function RubySlice<T>(xs: seq<T>, start: int, len: int): (r: Option<seq<T>>)
    ensures r.Some? <==> len >= 0 && -|xs| <= start <= |xs|
    ensures r.Some? && start >= 0 ==> r.value == xs[start..if start + len < |xs| then start + len else |xs|]
    ensures r.Some? && start < 0 ==> r.value == xs[start + |xs|..if start + |xs| + len < |xs| then start + |xs| + len else |xs|]
    ensures r.Some? ==> |r.value| <= len
  {
    var s := if start < 0 then start + |xs| else start;
    if s < 0 || s > |xs| || len < 0 then None
    else Some(xs[s..if s + len < |xs| then s + len else |xs|])
  }

  datatype PageInfo = PageInfo(currentPage: int, perPage: int, totalCount: int, totalPages: int, hasNextPage: bool, hasPrevPage: bool)

  /** The `pagination` hash of a page. */
  function PageInfoOf(page: int, perPage: int, total: nat): (p: PageInfo)
    requires perPage != 0
    ensures p.currentPage == page && p.perPage == perPage && p.totalCount == total
    ensures perPage > 0 ==> (p.totalPages - 1) * perPage < total <= p.totalPages * perPage
    ensures perPage < 0 ==> p.totalPages * perPage <= total < (p.totalPages - 1) * perPage
    ensures p.hasNextPage <==> page < p.totalPages
    ensures p.hasPrevPage <==> page > 1
  {
    var pages := CeilDiv(total, perPage);
    PageInfo(page, perPage, total, pages, page < pages, page > 1)
  }

  /** `?per_page=-10` over 25 results: `(25.0 / -10).ceil` is -2 pages, so page 1 has no next page. */
  lemma NegativePerPageExample()
    ensures PageInfoOf(1, -10, 25).totalPages == -2
    ensures !PageInfoOf(1, -10, 25).hasNextPage
  {
  }

  function PageInfoJson(p: PageInfo): Json {
    JObj([("current_page", JInt(p.currentPage)), ("per_page", JInt(p.perPage)), ("total_count", JInt(p.totalCount)),
          ("total_pages", JInt(p.totalPages)), ("has_next_page", JBool(p.hasNextPage)),
          ("has_prev_page", JBool(p.hasPrevPage))])
  }

  /** The page of `main` that `paginate_data` keeps: `main[(page-1)*per_page, per_page] || []`. */
  function PageSlice(main: seq<Json>, page: int, perPage: int): seq<Json> {
    var slice := RubySlice(main, (page - 1) * perPage, perPage);
    if slice.Some? then slice.value else []
  }

  /** `paginate_data(all_data)`: only the primary collection and `pagination` change. */
  function Paginated(m: Merged, page: int, perPage: int): (r: Merged)
    requires perPage != 0
    ensures r == m.(results := r.results, pagination := r.pagination)
    ensures r.results == PageSlice(m.results, page, perPage)
    ensures r.pagination == PageInfoJson(PageInfoOf(page, perPage, |m.results|))
  {
    m.(results := PageSlice(m.results, page, perPage), pagination := PageInfoJson(PageInfoOf(page, perPage, |m.results|)))
  }

  /** For a page from 1 on, the page holds at most `per_page` items from offset (page-1)*per_page, none past the end. */
  lemma PageSliceInRange(main: seq<Json>, page: int, perPage: int)
    requires page >= 1 && perPage >= 1
    ensures var off := (page - 1) * perPage;
            && (off > |main| ==> PageSlice(main, page, perPage) == [])
            && (off <= |main| ==> PageSlice(main, page, perPage) == main[off..if off + perPage < |main| then off + perPage else |main|])
            && |PageSlice(main, page, perPage)| <= perPage
  {
    assert (page - 1) * perPage >= 0;
  }

  /** Each item is on exactly the page its index says: item i is item i % per_page of page i / per_page + 1. */
  lemma PageHoldsItem(main: seq<Json>, perPage: int, i: int)
    requires perPage >= 1 && 0 <= i < |main|
    ensures var page := i / perPage + 1;
            && i % perPage < |PageSlice(main, page, perPage)|
            && PageSlice(main, page, perPage)[i % perPage] == main[i]
  {
    var page := i / perPage + 1;
    var off := (page - 1) * perPage;
    assert off == i / perPage * perPage;
    assert off + i % perPage == i;
    PageSliceInRange(main, page, perPage);
  }

  /** `paginate_data` on the hash: a fresh copy (`dup`) carrying the page; the input is untouched. */
  method PaginateData(all: MergedData, page: int, perPage: int) returns (p: MergedData)
    requires perPage != 0
    ensures fresh(p)
    ensures p.Value() == Paginated(all.Value(), page, perPage)
  {
    var main := all.results;
    var totalCount := |main|;
    var offset := (page - 1) * perPage;
    var slice := RubySlice(main, offset, perPage);
    var paginatedResults := if slice.Some? then slice.value else [];
    p := new MergedData.Copy(all.Value());
    p.results := paginatedResults;
    p.pagination := PageInfoJson(PageInfoOf(page, perPage, totalCount));
  }

  // ---------------------------------------------------------------------------
  // The whole pipeline

  /** `fetch_and_merge_all_data`: merge the records, add the counters, sort. */
  function AllData(agg: Aggregator, http: (string, Fields) -> Result<HttpReply>, aggregatedAt: string): Merged {
    var recs := FetchAll(agg, http);
    Sorted(MergeAll(Somes(Responses(recs))).(stats := Some(Metadata(agg, recs, aggregatedAt))))
  }

  method FetchAndMergeAllData(agg: Aggregator, http: (string, Fields) -> Result<HttpReply>, aggregatedAt: string)
    returns (merged: MergedData)
    ensures fresh(merged)
    ensures merged.Value() == AllData(agg, http, aggregatedAt)
  {
    var responses := FetchAll(agg, http);
    merged := MergeApiResponses(Responses(responses));
    merged.stats := Some(Metadata(agg, responses, aggregatedAt));
    SortData(merged);
  }

  /** `(x.to_f / 0).ceil` raises FloatDomainError: "Infinity" for a positive count, "NaN" for none. */
  function ZeroPerPageError(total: nat): string {
    if total > 0 then "Infinity" else "NaN"
  }

  /**
   * `aggregate_data` (the cache always missing): the aggregate, then its page.
   * A zero `per_page` makes `paginate_data` raise.
   */
  method AggregateData(agg: Aggregator, http: (string, Fields) -> Result<HttpReply>, aggregatedAt: string)
    returns (r: Result<MergedData>)
    ensures r.Ok? <==> PerPageOf(agg.params) != 0
    ensures r.Ok? ==> fresh(r.value)
    ensures r.Ok? ==> r.value.Value() == Paginated(AllData(agg, http, aggregatedAt), PageOf(agg.params), PerPageOf(agg.params))
    ensures r.Err? ==> r.message == ZeroPerPageError(|AllData(agg, http, aggregatedAt).results|)
  {
    var data := FetchAndMergeAllData(agg, http, aggregatedAt);
    var page := PageOf(agg.params);
    var perPage := PerPageOf(agg.params);
    if perPage == 0 {
      return Err(ZeroPerPageError(|data.results|));
    }
    var p := PaginateData(data, page, perPage);
    return Ok(p);
  }

  /** Sorting and the counters leave the merged nodes alone. */
  lemma AllDataParts(agg: Aggregator, http: (string, Fields) -> Result<HttpReply>, aggregatedAt: string)
    ensures AllData(agg, http, aggregatedAt).nodes == MergeAll(Somes(Responses(FetchAll(agg, http)))).nodes
    ensures AllData(agg, http, aggregatedAt).stats == Some(Metadata(agg, FetchAll(agg, http), aggregatedAt))
  {
    var recs := FetchAll(agg, http);
    var m0 := MergeAll(Somes(Responses(recs))).(stats := Some(Metadata(agg, recs, aggregatedAt)));
    assert AllData(agg, http, aggregatedAt) == Sorted(m0);
  }

  /**
   * The counters agree with the nodes: one node per endpoint, and
   * `successful_sources` is the number of nodes marked successful.
   */
  lemma MetadataMatchesNodes(agg: Aggregator, http: (string, Fields) -> Result<HttpReply>, aggregatedAt: string)
    ensures var m := AllData(agg, http, aggregatedAt);
            && m.stats.Some?
            && m.stats.value.totalSources == |m.nodes|
            && m.stats.value.successfulSources == CountSucceededNodes(m.nodes)
            && m.stats.value.failedSources == |m.nodes| - CountSucceededNodes(m.nodes)
  {
    var recs := FetchAll(agg, http);
    AllDataParts(agg, http, aggregatedAt);
    NodesOfRecords(recs);
    CountsAgree(MergeAll(Somes(Responses(recs))).nodes, recs);
  }

  /** Merging the records gives one node per record, successful exactly when the record is. */
  lemma NodesOfRecords(recs: seq<FetchRecord>)
    ensures |MergeAll(Somes(Responses(recs))).nodes| == |recs|
    ensures forall i :: 0 <= i < |recs| ==> (Truthy(MergeAll(Somes(Responses(recs))).nodes[i].success) <==> recs[i].success)
  {
    var rs := Somes(Responses(recs));
    CompactResponses(recs);
    MergeAllNodes(rs);
    NodesAgree(MergeAll(rs).nodes, rs, recs);
  }

  lemma NodesAgree(nodes: seq<NodeMeta>, rs: seq<RawResponse>, recs: seq<FetchRecord>)
    requires |nodes| == |rs| == |recs|
    requires forall i :: 0 <= i < |rs| ==> nodes[i] == NodeOf(ParseJsonResponse(rs[i]))
    requires forall i :: 0 <= i < |rs| ==> rs[i] == HashResponse(RecordFields(recs[i]))
    ensures forall i :: 0 <= i < |recs| ==> (Truthy(nodes[i].success) <==> recs[i].success)
  {
    forall i | 0 <= i < |recs| ensures Truthy(nodes[i].success) <==> recs[i].success {
      assert nodes[i] == NodeOf(RecordFields(recs[i]));
    }
  }

  // ---------------------------------------------------------------------------
  // Cache key

  /** An endpoint as the cache key sees it. */
  datatype KeyEndpoint = KeyEndpoint(name: string, url: string)

  /** The endpoint normalisation of `cache_key`: name falls back to url, url to name. */
  function NormalizeForKey(e: Json): (k: KeyEndpoint)
    ensures !e.JObj? ==> k == KeyEndpoint(ToS(e), ToS(e))
    ensures e.JObj? && Truthy(Lookup(e.fields, "name")) ==> k.name == ToS(Lookup(e.fields, "name"))
    ensures e.JObj? && !Truthy(Lookup(e.fields, "name")) ==> k.name == ToS(Lookup(e.fields, "url"))
    ensures e.JObj? && Truthy(Lookup(e.fields, "url")) ==> k.url == ToS(Lookup(e.fields, "url"))
    ensures e.JObj? && !Truthy(Lookup(e.fields, "url")) ==> k.url == k.name
  {
    if e.JObj? then
      var name := ToS(Or(Lookup(e.fields, "name"), Lookup(e.fields, "url")));
      var url := ToS(Or(Or(Lookup(e.fields, "url"), Lookup(e.fields, "name")), JStr(name)));
      KeyEndpoint(name, url)
    else
      KeyEndpoint(ToS(e), ToS(e))
  }

  function NormalizeAll(es: seq<Json>): (ks: seq<KeyEndpoint>)
    ensures |ks| == |es| && forall i :: 0 <= i < |es| ==> ks[i] == NormalizeForKey(es[i])
  {
    MapSeqAt(es, NormalizeForKey);
    MapSeq(es, NormalizeForKey)
  }

  /** `sort_by { |h| [h[:name], h[:url]] }`: by name, then by url. */
  function EndpointOrder(): (KeyEndpoint, KeyEndpoint) -> bool {
    (a: KeyEndpoint, b: KeyEndpoint) => StrLe(a.name, b.name) && (a.name == b.name ==> StrLe(a.url, b.url))
  }

  /** `keys.sort`: by key. */
  function ParamOrder(): ((string, Json), (string, Json)) -> bool {
    (a: (string, Json), b: (string, Json)) => StrLe(a.0, b.0)
  }

  lemma OrdersTotal()
    ensures TotalPreorder(EndpointOrder())
    ensures TotalPreorder(ParamOrder())
  {
    forall a: string, b: string ensures StrLe(a, b) || StrLe(b, a) {
      StrLeTotal(a, b);
    }
    forall a: string, b: string, c: string | StrLe(a, b) && StrLe(b, c) ensures StrLe(a, c) {
      StrLeTransitive(a, b, c);
    }
    forall a: string, b: string | StrLe(a, b) && StrLe(b, a) ensures a == b {
      StrLeAntisymmetric(a, b);
    }
  }

  /** The value `cache_key` digests: sorted endpoints, and the parameters but page and per_page sorted by key. */
  datatype Payload = Payload(endpoints: seq<KeyEndpoint>, params: Fields)

  function CachePayload(agg: Aggregator): Payload {
    Payload(SortBy(NormalizeAll(agg.endpoints), EndpointOrder()), SortBy(Except(agg.params, PageKeys), ParamOrder()))
  }

  /** `cache_key`, for the digest function `digest` (SHA-256 of the JSON text in the source). */
  function CacheKey(agg: Aggregator, digest: Payload -> string): (key: string)
    ensures key == "data_aggregator:v1:" + digest(CachePayload(agg))
  {
    "data_aggregator:v1:" + digest(CachePayload(agg))
  }

  /**
   * The payload is canonical: its endpoints are the normalised endpoints in
   * (name, url) order, its parameters are exactly the pairs but `page` and
   * `per_page`, in key order.
   */
  lemma CachePayloadCanonical(agg: Aggregator)
    ensures multiset(CachePayload(agg).endpoints) == multiset(NormalizeAll(agg.endpoints))
    ensures SortedBy(CachePayload(agg).endpoints, EndpointOrder())
    ensures forall p :: p in CachePayload(agg).params <==> p in agg.params && p.0 !in PageKeys
    ensures forall i, j :: 0 <= i < j < |CachePayload(agg).params| ==> StrLe(CachePayload(agg).params[i].0, CachePayload(agg).params[j].0)
  {
    OrdersTotal();
    SortBySorted(NormalizeAll(agg.endpoints), EndpointOrder());
    SortBySorted(Except(agg.params, PageKeys), ParamOrder());
    var ps := Except(agg.params, PageKeys);
    assert forall p :: p in SortBy(ps, ParamOrder()) <==> p in multiset(SortBy(ps, ParamOrder()));
  }

  /** Reordering the endpoint list leaves the cache key unchanged. */
  lemma CacheKeyEndpointOrder(a: Aggregator, b: Aggregator, digest: Payload -> string)
    requires multiset(a.endpoints) == multiset(b.endpoints) && a.params == b.params
    ensures CacheKey(a, digest) == CacheKey(b, digest)
  {
    OrdersTotal();
    MapPermutation(a.endpoints, b.endpoints, NormalizeForKey);
    var na, nb := NormalizeAll(a.endpoints), NormalizeAll(b.endpoints);
    SortBySorted(na, EndpointOrder());
    SortBySorted(nb, EndpointOrder());
    forall x, y | EndpointOrder()(x, y) && EndpointOrder()(y, x) ensures x == y {
      StrLeAntisymmetric(x.name, y.name);
      StrLeAntisymmetric(x.url, y.url);
    }
    SortedPermutationsEqual(SortBy(na, EndpointOrder()), SortBy(nb, EndpointOrder()), EndpointOrder());
  }

  lemma {:induction false} ExceptUnique(fs: Fields, keys: set<string>)
    requires UniqueKeys(fs)
    ensures UniqueKeys(Except(fs, keys))
  {
    if fs != [] {
      assert UniqueKeys(fs[1..]) by {
        forall i, j | 0 <= i < j < |fs[1..]| ensures fs[1..][i].0 != fs[1..][j].0 {
          assert fs[1..][i] == fs[i + 1] && fs[1..][j] == fs[j + 1];
        }
      }
      ExceptUnique(fs[1..], keys);
      var rest := Except(fs[1..], keys);
      forall p | p in rest ensures p.0 != fs[0].0 {
        assert p in fs[1..];
        var k :| 0 <= k < |fs[1..]| && fs[1..][k] == p;
        assert fs[k + 1] == p;
      }
    }
  }

  /**
   * Parameters that agree on everything but `page` and `per_page`, each pair
   * in any position, give the same cache key.
   */
  lemma CacheKeyParams(a: Aggregator, b: Aggregator, digest: Payload -> string)
    requires a.endpoints == b.endpoints
    requires UniqueKeys(a.params) && UniqueKeys(b.params)
    requires multiset(Except(a.params, PageKeys)) == multiset(Except(b.params, PageKeys))
    ensures CacheKey(a, digest) == CacheKey(b, digest)
  {
    OrdersTotal();
    var pa, pb := Except(a.params, PageKeys), Except(b.params, PageKeys);
    ExceptUnique(a.params, PageKeys);
    var sa, sb := SortBy(pa, ParamOrder()), SortBy(pb, ParamOrder());
    SortBySorted(pa, ParamOrder());
    SortBySorted(pb, ParamOrder());
    KeyOrderAntisymmetric(pa);
    SortedPermutationsEqual(sa, sb, ParamOrder());
  }

  /** Under unique keys, ordering by key alone is antisymmetric. */
  lemma KeyOrderAntisymmetric(pa: Fields)
    requires UniqueKeys(pa)
    ensures AntisymmetricOn(multiset(SortBy(pa, ParamOrder())), ParamOrder())
  {
    assert multiset(SortBy(pa, ParamOrder())) == multiset(pa);
    forall x, y | x in multiset(pa) && y in multiset(pa) && ParamOrder()(x, y) && ParamOrder()(y, x) ensures x == y {
      StrLeAntisymmetric(x.0, y.0);
      var i :| 0 <= i < |pa| && pa[i] == x;
      var j :| 0 <= j < |pa| && pa[j] == y;
      assert i == j;
    }
  }

  /** `page` and `per_page` play no part in the cache key. */
  lemma CacheKeyIgnoresPaging(a: Aggregator, digest: Payload -> string, v: Json)
    ensures CacheKey(a.(params := a.params + [("page", v)]), digest) == CacheKey(a, digest)
    ensures CacheKey(a.(params := a.params + [("per_page", v)]), digest) == CacheKey(a, digest)
  {
    ExceptAppendDropped(a.params, [("page", v)]);
    ExceptAppendDropped(a.params, [("per_page", v)]);
  }

  lemma {:induction false} ExceptAppendDropped(fs: Fields, extra: Fields)
    requires forall p :: p in extra ==> p.0 in PageKeys
    ensures Except(fs + extra, PageKeys) == Except(fs, PageKeys)
  {
    if fs == [] {
      ExceptAllDropped(extra);
      assert fs + extra == extra;
    } else {
      assert (fs + extra)[1..] == fs[1..] + extra;
      assert (fs + extra)[0] == fs[0];
      ExceptAppendDropped(fs[1..], extra);
    }
  }

  lemma {:induction false} ExceptAllDropped(extra: Fields)
    requires forall p :: p in extra ==> p.0 in PageKeys
    ensures Except(extra, PageKeys) == []
  {
    if extra != [] {
      assert extra[0] in extra;
      assert forall p :: p in extra[1..] ==> p in extra;
      ExceptAllDropped(extra[1..]);
    }
  }
}
