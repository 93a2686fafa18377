/**
 * `ApiResponseMerger#merge_api_responses` (app/concerns/api_response_merger.rb):
 * a left fold over the non-nil raw responses into one aggregate hash.
 * `Merged` and `MergeStep`/`MergeAll` are the value-level specification; the
 * class `MergedData` is the mutable hash of the source, updated in place by
 * `MergeResponse` and `MergeFacetsInPlace`, whose contracts tie every update
 * to the specification.
 */
module ResponseMerger {
  import opened Wrappers
  import opened JsonValues
  import opened Facets
  import opened Sequences

  /** A response handed to the merger: a hash, or anything else, which is parsed as JSON text. */
  datatype RawResponse =
    | HashResponse(fields: Fields)
    | TextResponse(parsed: Option<Fields>)  // None: `JSON::ParserError`

  /** One entry of `metadata.nodes`. */
  datatype NodeMeta = NodeMeta(name: Json, url: Json, status: Json, success: Json)

  /** The counters the aggregator adds to `metadata` after merging. */
  datatype SourceStats = SourceStats(totalSources: int, successfulSources: int, failedSources: int, aggregatedAt: string)

  /** The aggregate hash: results, offers, facets, pagination, highlights and metadata. */
  datatype Merged = Merged(
    results: seq<Json>,
    offers: seq<Json>,
    facets: FacetMap,
    pagination: Json,
    highlights: map<string, Json>,
    nodes: seq<NodeMeta>,
    stats: Option<SourceStats>)

  /** `base_structure`. */
  function BaseStructure(): Merged {
    Merged([], [], map[], JObj([]), map[], [], None)
  }

  /** `parse_json_response`: a hash as it is, text parsed, a parse failure as {}. */
  function ParseJsonResponse(r: RawResponse): Fields {
    match r
    case HashResponse(fs) => fs
    case TextResponse(p) => if p.Some? then p.value else []
  }

  /** `parsed[:data] || {}`. */
  function DataOf(parsed: Fields): Json {
    Or(Lookup(parsed, "data"), JObj([]))
  }

  /** What a payload appends to `results`: its elements when it is an array, else its `results` field. */
  function ResultsOf(data: Json): seq<Json> {
    if data.JArr? then data.elems
    else if data.JObj? && Truthy(Lookup(data.fields, "results")) then ArrayCoerce(Lookup(data.fields, "results"))
    else []
  }

  /** What a payload appends to `offers`: its `offers` field when it is a hash. */
  function OffersOf(data: Json): seq<Json> {
    if data.JObj? && Truthy(Lookup(data.fields, "offers")) then ArrayCoerce(Lookup(data.fields, "offers")) else []
  }

  /** `data.facets` when the payload is a hash and has one, else the top-level `facets`. */
  function FacetsOf(parsed: Fields, data: Json): Json {
    var nested := if data.JObj? then Lookup(data.fields, "facets") else JNull;
    Or(nested, Lookup(parsed, "facets"))
  }

  function PaginationOf(data: Json): Json {
    if data.JObj? then Lookup(data.fields, "pagination") else JNull
  }

  /** The highlights a payload merges in, as a map (empty when it has no highlights hash). */
  function HighlightsOf(data: Json): map<string, Json> {
    var hl := if data.JObj? then Lookup(data.fields, "highlights") else JNull;
    if hl.JObj? then ToMap(hl.fields) else map[]
  }

  function NodeOf(parsed: Fields): NodeMeta {
    NodeMeta(Lookup(parsed, "source"), Lookup(parsed, "url"), Lookup(parsed, "status"), Lookup(parsed, "success"))
  }

  /**
   * The block of `reduce`, one response. Whatever the response, exactly one
   * metadata node is appended and the counters are untouched; a response
   * that parses to nothing contributes nothing else.
   */
  function MergeStep(acc: Merged, r: RawResponse): (m: Merged)
    ensures m.nodes == acc.nodes + [NodeOf(ParseJsonResponse(r))]
    ensures m.stats == acc.stats
    ensures ParseJsonResponse(r) == [] ==> m == acc.(nodes := acc.nodes + [NodeMeta(JNull, JNull, JNull, JNull)])
  {
    var parsed := ParseJsonResponse(r);
    var data := DataOf(parsed);
    var nf := FacetsOf(parsed, data);
    var pg := PaginationOf(data);
    acc.(
      results := acc.results + ResultsOf(data),
      offers := acc.offers + OffersOf(data),
      facets := if nf.JObj? then MergeFacets(acc.facets, nf.fields) else acc.facets,
      pagination := if Truthy(pg) then pg else acc.pagination,
      highlights := acc.highlights + HighlightsOf(data),
      nodes := acc.nodes + [NodeOf(parsed)])
  }

  /** The pagination response `r` carries (nil or false when it carries none). */
  function PaginationIn(r: RawResponse): Json {
    PaginationOf(DataOf(ParseJsonResponse(r)))
  }

  /** The highlights response `r` merges in. */
  function HighlightsIn(r: RawResponse): map<string, Json> {
    HighlightsOf(DataOf(ParseJsonResponse(r)))
  }

  /** The fields of one step that the lemmas below follow, without unfolding the rest. */
  lemma MergeStepParts(acc: Merged, r: RawResponse)
    ensures MergeStep(acc, r).pagination == (if Truthy(PaginationIn(r)) then PaginationIn(r) else acc.pagination)
    ensures MergeStep(acc, r).highlights == acc.highlights + HighlightsIn(r)
  {
  }

  /** The fold from `base_structure` over responses already compacted. */
  function MergeAll(rs: seq<RawResponse>): Merged
    decreases |rs|
  {
    if rs == [] then BaseStructure() else MergeStep(MergeAll(rs[..|rs| - 1]), rs[|rs| - 1])
  }

  /** Compacting a list with no nil keeps every response, in order. */
  lemma {:induction false} CompactAllPresent(rs: seq<Option<RawResponse>>, xs: seq<RawResponse>)
    requires |rs| == |xs| && forall i :: 0 <= i < |rs| ==> rs[i] == Some(xs[i])
    ensures Somes(rs) == xs
  {
    if rs != [] {
      CompactAllPresent(rs[1..], xs[1..]);
      assert xs == [xs[0]] + xs[1..];
    }
  }

  /** A nil response, wherever it stands, leaves the merged result as it is. */
  lemma NilResponseIgnored(a: seq<Option<RawResponse>>, b: seq<Option<RawResponse>>)
    ensures MergeAll(Somes(a + [None] + b)) == MergeAll(Somes(a + b))
  {
    NilResponseDropped(a, b);
  }

  /** `compact` drops a nil response and nothing else. */
  lemma NilResponseDropped(a: seq<Option<RawResponse>>, b: seq<Option<RawResponse>>)
    ensures Somes(a + [None] + b) == Somes(a + b)
  {
    var none: seq<Option<RawResponse>> := [None];
    SomesAppend(a + none, b);
    SomesAppend(a, none);
    assert none[1..] == [];
    assert Somes(none) == [];
    SomesAppend(a, b);
  }

  /** A present response is kept once, at its place among the others. */
  lemma PresentResponseKept(a: seq<Option<RawResponse>>, x: RawResponse, b: seq<Option<RawResponse>>)
    ensures Somes(a + [Some(x)] + b) == Somes(a) + [x] + Somes(b)
  {
    var one: seq<Option<RawResponse>> := [Some(x)];
    SomesAppend(a + one, b);
    SomesAppend(a, one);
    assert one[1..] == [];
    assert Somes(one) == [x];
  }

  lemma MergeFacetsPrefix(acc: FacetMap, fs: Fields, i: nat)
    requires i < |fs|
    ensures MergeFacets(acc, fs[..i + 1]) == MergeGroup(MergeFacets(acc, fs[..i]), fs[i].0, fs[i].1)
  {
    assert fs[..i + 1][..i] == fs[..i];
  }

  /** The inner `items.each` loop of `merge_facets!`, over one group. */
  method MergeGroupItems(group: seq<FacetItem>, items: seq<Json>) returns (g: seq<FacetItem>)
    ensures g == MergeItems(group, items)
  {
    g := group;
    var j := 0;
    while j < |items|
      invariant 0 <= j <= |items|
      invariant g == MergeItems(group, items[..j])
    {
      ghost var before := g;
      match Incoming(items[j]) {
        case None =>
        case Some(inc) =>
          match IndexOfEid(g, inc.eid) {
            case None =>
              g := g + [inc];
            case Some(k) =>
              g := g[k := Reconcile(g[k], inc)];
          }
      }
      assert g == MergeItem(before, items[j]);
      assert items[..j + 1][..j] == items[..j];
      j := j + 1;
    }
    assert items[..j] == items;
  }

  // ---------------------------------------------------------------------------
  // The mutable hash

  class MergedData {
    var results: seq<Json>
    var offers: seq<Json>
    var facets: FacetMap
    var pagination: Json
    var highlights: map<string, Json>
    var nodes: seq<NodeMeta>
    var stats: Option<SourceStats>

    function Value(): Merged
      reads this
    {
      Merged(results, offers, facets, pagination, highlights, nodes, stats)
    }

    /** A fresh `base_structure`. */
    constructor ()
      ensures Value() == BaseStructure()
    {
      results, offers, facets, pagination, highlights, nodes, stats := [], [], map[], JObj([]), map[], [], None;
    }

    /** A copy of `m` (`dup`). */
    constructor Copy(m: Merged)
      ensures Value() == m
    {
      results, offers, facets, pagination, highlights := m.results, m.offers, m.facets, m.pagination, m.highlights;
      nodes, stats := m.nodes, m.stats;
    }

    /** `merge_facets!(merged["facets"], new_facets)`: the `new_facets.each` loop, updating groups in place. */
    method MergeFacetsInPlace(newFacets: Fields)
      modifies this`facets
      ensures facets == MergeFacets(old(facets), newFacets)
    {
      var i := 0;
      while i < |newFacets|
        invariant 0 <= i <= |newFacets|
        invariant facets == MergeFacets(old(facets), newFacets[..i])
      {
        var key := newFacets[i].0;
        var items := newFacets[i].1;
        ghost var before := facets;
        var group := if key in facets then facets[key] else [];
        if items.JArr? {
          group := MergeGroupItems(group, items.elems);
          group := SortGroup(group);
        }
        facets := facets[key := group];
        assert facets == MergeGroup(before, key, items);
        MergeFacetsPrefix(old(facets), newFacets, i);
        i := i + 1;
      }
      assert newFacets[..i] == newFacets;
    }

    /** The `results`/`offers` part of the block: an array payload is all results, a hash brings both fields. */
    method AppendCollections(data: Json)
      modifies this`results, this`offers
      ensures results == old(results) + ResultsOf(data)
      ensures offers == old(offers) + OffersOf(data)
    {
      if data.JArr? {
        results := results + data.elems;
      } else {
        if data.JObj? && Truthy(Lookup(data.fields, "results")) {
          results := results + ArrayCoerce(Lookup(data.fields, "results"));
        }
        if data.JObj? && Truthy(Lookup(data.fields, "offers")) {
          offers := offers + ArrayCoerce(Lookup(data.fields, "offers"));
        }
      }
    }

    /** The pagination and highlights part of the block, for a hash payload. */
    method TakePaginationAndHighlights(data: Json)
      modifies this`pagination, this`highlights
      ensures pagination == (if Truthy(PaginationOf(data)) then PaginationOf(data) else old(pagination))
      ensures highlights == old(highlights) + HighlightsOf(data)
    {
      if data.JObj? {
        var pg := Lookup(data.fields, "pagination");
        if Truthy(pg) {
          pagination := pg;
        }
        var hl := Lookup(data.fields, "highlights");
        if hl.JObj? {
          highlights := highlights + ToMap(hl.fields);
        }
      }
    }

    /** The block of `reduce`: response `r` merged into this hash in place. */
    method MergeResponse(r: RawResponse)
      modifies this
      ensures Value() == MergeStep(old(Value()), r)
    {
      var parsed := ParseJsonResponse(r);
      var data := DataOf(parsed);
      AppendCollections(data);
      var newFacets := JNull;
      if data.JObj? {
        newFacets := Lookup(data.fields, "facets");
      }
      if !Truthy(newFacets) {
        newFacets := Lookup(parsed, "facets");
      }
      assert newFacets == FacetsOf(parsed, data);
      if newFacets.JObj? {
        MergeFacetsInPlace(newFacets.fields);
      }
      TakePaginationAndHighlights(data);
      nodes := nodes + [NodeOf(parsed)];
    }
  }

  lemma MergeAllPrefix(rs: seq<RawResponse>, i: nat)
    requires i < |rs|
    ensures MergeAll(rs[..i + 1]) == MergeStep(MergeAll(rs[..i]), rs[i])
  {
    assert rs[..i + 1][..i] == rs[..i];
  }

  /** `merge_api_responses(*responses)`: compact, then fold every response into a fresh base structure. */
  method MergeApiResponses(responses: seq<Option<RawResponse>>) returns (merged: MergedData)
    ensures fresh(merged)
    ensures merged.Value() == MergeAll(Somes(responses))
  {
    var rs := Somes(responses);
    merged := new MergedData();
    assert rs[..0] == [];
    var i := 0;
    while i < |rs|
      invariant 0 <= i <= |rs|
      invariant merged.Value() == MergeAll(rs[..i])
    {
      ghost var before := merged.Value();
      merged.MergeResponse(rs[i]);
      MergeAllPrefix(rs, i);
      assert merged.Value() == MergeStep(before, rs[i]);
      i := i + 1;
    }
    assert rs[..i] == rs;
  }

  // ---------------------------------------------------------------------------
  // Properties of the fold

  function ResponseResults(): RawResponse -> seq<Json> {
    (r: RawResponse) => ResultsOf(DataOf(ParseJsonResponse(r)))
  }

  function ResponseOffers(): RawResponse -> seq<Json> {
    (r: RawResponse) => OffersOf(DataOf(ParseJsonResponse(r)))
  }

  /** Every response's `results`, in response order. */
  function AllResults(rs: seq<RawResponse>): seq<Json> {
    ConcatMap(rs, ResponseResults())
  }

  /** Every response's `offers`, in response order. */
  function AllOffers(rs: seq<RawResponse>): seq<Json> {
    ConcatMap(rs, ResponseOffers())
  }

  lemma AllCollectionsSnoc(rs: seq<RawResponse>, r: RawResponse)
    ensures AllResults(rs + [r]) == AllResults(rs) + ResultsOf(DataOf(ParseJsonResponse(r)))
    ensures AllOffers(rs + [r]) == AllOffers(rs) + OffersOf(DataOf(ParseJsonResponse(r)))
  {
    ConcatMapSnoc(rs, r, ResponseResults());
    ConcatMapSnoc(rs, r, ResponseOffers());
  }

  /** Merged `results` and `offers` are the concatenations of every response's contribution, in order. */
  lemma {:induction false} MergeAllCollections(rs: seq<RawResponse>)
    ensures MergeAll(rs).results == AllResults(rs)
    ensures MergeAll(rs).offers == AllOffers(rs)
  {
    if rs != [] {
      var front := rs[..|rs| - 1];
      MergeAllCollections(front);
      AllCollectionsSnoc(front, rs[|rs| - 1]);
      assert front + [rs[|rs| - 1]] == rs;
    }
  }

  /** `metadata.nodes` holds one entry per response, in order, failed ones included. */
  lemma {:induction false} MergeAllNodes(rs: seq<RawResponse>)
    ensures |MergeAll(rs).nodes| == |rs|
    ensures forall i :: 0 <= i < |rs| ==> MergeAll(rs).nodes[i] == NodeOf(ParseJsonResponse(rs[i]))
    ensures MergeAll(rs).stats == None
  {
    if rs != [] {
      MergeAllNodes(rs[..|rs| - 1]);
    }
  }

  /** The paginations of `rs`, one per response. */
  function Paginations(rs: seq<RawResponse>): (ps: seq<Json>)
    ensures |ps| == |rs| && forall i :: 0 <= i < |rs| ==> ps[i] == PaginationIn(rs[i])
  {
    seq(|rs|, i requires 0 <= i < |rs| => PaginationIn(rs[i]))
  }

  /** The last truthy value of `ps`, or `{}` when there is none. */
  function LastTruthy(ps: seq<Json>): Json
    decreases |ps|
  {
    if ps == [] then JObj([])
    else if Truthy(ps[|ps| - 1]) then ps[|ps| - 1]
    else LastTruthy(ps[..|ps| - 1])
  }

  lemma {:induction false} MergeAllPaginationFold(rs: seq<RawResponse>)
    ensures MergeAll(rs).pagination == LastTruthy(Paginations(rs))
  {
    if rs != [] {
      var n := |rs| - 1;
      MergeAllPaginationFold(rs[..n]);
      MergeStepParts(MergeAll(rs[..n]), rs[n]);
      assert Paginations(rs)[..n] == Paginations(rs[..n]);
    }
  }

  lemma {:induction false} LastTruthyIs(ps: seq<Json>)
    ensures (forall i :: 0 <= i < |ps| ==> !Truthy(ps[i])) ==> LastTruthy(ps) == JObj([])
    ensures forall i | 0 <= i < |ps| && Truthy(ps[i]) ::
              (forall j :: i < j < |ps| ==> !Truthy(ps[j])) ==> LastTruthy(ps) == ps[i]
  {
    if ps != [] {
      var n := |ps| - 1;
      var front := ps[..n];
      LastTruthyIs(front);
      if forall i :: 0 <= i < |ps| ==> !Truthy(ps[i]) {
        assert !Truthy(ps[n]);
        forall i | 0 <= i < n ensures !Truthy(front[i]) {
          assert front[i] == ps[i];
        }
      }
      forall i | 0 <= i < |ps| && Truthy(ps[i]) && (forall j :: i < j < |ps| ==> !Truthy(ps[j]))
        ensures LastTruthy(ps) == ps[i]
      {
        if i < n {
          assert !Truthy(ps[n]);
          assert front[i] == ps[i];
          forall j | i < j < n ensures !Truthy(front[j]) {
            assert front[j] == ps[j];
          }
        }
      }
    }
  }

  /** A pagination that is the last truthy one of `rs` is that of the last response carrying one, else {}. */
  lemma LastPagination(rs: seq<RawResponse>, p: Json)
    requires p == LastTruthy(Paginations(rs))
    ensures (forall i :: 0 <= i < |rs| ==> !Truthy(PaginationIn(rs[i]))) ==> p == JObj([])
    ensures forall i | 0 <= i < |rs| && Truthy(PaginationIn(rs[i])) ::
              (forall j :: i < j < |rs| ==> !Truthy(PaginationIn(rs[j]))) ==> p == PaginationIn(rs[i])
  {
    LastTruthyIs(Paginations(rs));
  }

  /** `pagination` is that of the last response carrying one, else {}. */
  lemma MergeAllPagination(rs: seq<RawResponse>)
    ensures (forall i :: 0 <= i < |rs| ==> !Truthy(PaginationIn(rs[i]))) ==> MergeAll(rs).pagination == JObj([])
    ensures forall i | 0 <= i < |rs| && Truthy(PaginationIn(rs[i])) ::
              (forall j :: i < j < |rs| ==> !Truthy(PaginationIn(rs[j])))
              ==> MergeAll(rs).pagination == PaginationIn(rs[i])
  {
    MergeAllPaginationFold(rs);
    LastPagination(rs, MergeAll(rs).pagination);
  }

  /** The highlight maps of `rs`, one per response. */
  function HighlightMaps(rs: seq<RawResponse>): (hs: seq<map<string, Json>>)
    ensures |hs| == |rs| && forall i :: 0 <= i < |rs| ==> hs[i] == HighlightsIn(rs[i])
  {
    seq(|rs|, i requires 0 <= i < |rs| => HighlightsIn(rs[i]))
  }

  /** `merge!` of every map of `hs` in turn into {}. */
  function MergeMaps(hs: seq<map<string, Json>>): map<string, Json>
    decreases |hs|
  {
    if hs == [] then map[] else MergeMaps(hs[..|hs| - 1]) + hs[|hs| - 1]
  }

  lemma {:induction false} MergeAllHighlightsFold(rs: seq<RawResponse>)
    ensures MergeAll(rs).highlights == MergeMaps(HighlightMaps(rs))
  {
    if rs != [] {
      var n := |rs| - 1;
      MergeAllHighlightsFold(rs[..n]);
      MergeStepParts(MergeAll(rs[..n]), rs[n]);
      assert HighlightMaps(rs)[..n] == HighlightMaps(rs[..n]);
    }
  }

  /** Some map of `hs` binds `k`. */
  predicate SomeBinds(hs: seq<map<string, Json>>, k: string) {
    exists i :: 0 <= i < |hs| && k in hs[i]
  }

  /** Map `i` is the last of `hs` binding `k`. */
  predicate LastBinds(hs: seq<map<string, Json>>, i: int, k: string) {
    0 <= i < |hs| && k in hs[i] && forall j :: i < j < |hs| ==> k !in hs[j]
  }

  lemma {:induction false} MergeMapsBinds(hs: seq<map<string, Json>>, k: string)
    ensures k in MergeMaps(hs) <==> SomeBinds(hs, k)
  {
    if hs != [] {
      var n := |hs| - 1;
      var front := hs[..n];
      MergeMapsBinds(front, k);
      if k !in hs[n] {
        if SomeBinds(front, k) {
          var i :| 0 <= i < |front| && k in front[i];
          assert hs[i] == front[i];
        }
        if SomeBinds(hs, k) {
          var i :| 0 <= i < |hs| && k in hs[i];
          assert front[i] == hs[i];
        }
      }
    }
  }

  lemma {:induction false} MergeMapsLast(hs: seq<map<string, Json>>, k: string, i: int)
    requires LastBinds(hs, i, k)
    ensures k in MergeMaps(hs) && MergeMaps(hs)[k] == hs[i][k]
  {
    var n := |hs| - 1;
    var front := hs[..n];
    if i < n {
      assert front[i] == hs[i];
      forall j | i < j < |front| ensures k !in front[j] {
        assert front[j] == hs[j];
      }
      MergeMapsLast(front, k, i);
    }
  }

  /**
   * `highlights` binds a key exactly when some response's highlights do, to
   * the value from the last response that has it.
   */
  lemma MergeAllHighlights(rs: seq<RawResponse>, k: string)
    ensures k in MergeAll(rs).highlights <==> SomeBinds(HighlightMaps(rs), k)
    ensures forall i | LastBinds(HighlightMaps(rs), i, k) ::
              k in MergeAll(rs).highlights && MergeAll(rs).highlights[k] == HighlightsIn(rs[i])[k]
  {
    MergeAllHighlightsFold(rs);
    MergeMapsBinds(HighlightMaps(rs), k);
    forall i | LastBinds(HighlightMaps(rs), i, k)
      ensures k in MergeAll(rs).highlights && MergeAll(rs).highlights[k] == HighlightsIn(rs[i])[k]
    {
      MergeMapsLast(HighlightMaps(rs), k, i);
    }
  }

  /** The facet items response `r` brings to group `g`. */
  function ResponseFacetStream(r: RawResponse, g: string): seq<FacetItem> {
    var parsed := ParseJsonResponse(r);
    var nf := FacetsOf(parsed, DataOf(parsed));
    if nf.JObj? then PairStream(nf.fields, g) else []
  }

  /** Every facet item brought to group `g` by the responses, in merge order. */
  function FacetStream(rs: seq<RawResponse>, g: string): seq<FacetItem>
    decreases |rs|
  {
    if rs == [] then [] else FacetStream(rs[..|rs| - 1], g) + ResponseFacetStream(rs[|rs| - 1], g)
  }

  lemma {:induction false} MergeAllFacetMeasures(rs: seq<RawResponse>, g: string, e: Json)
    ensures FacetsOk(MergeAll(rs).facets)
    ensures GroupPresent(MergeAll(rs).facets, g, e) <==> Present(FacetStream(rs, g), e)
    ensures GroupTotal(MergeAll(rs).facets, g, e) == EidTotal(FacetStream(rs, g), e)
  {
    if rs != [] {
      var front := rs[..|rs| - 1];
      var r := rs[|rs| - 1];
      MergeAllFacetMeasures(front, g, e);
      var parsed := ParseJsonResponse(r);
      var nf := FacetsOf(parsed, DataOf(parsed));
      if nf.JObj? {
        MergeFacetsMeasures(MergeAll(front).facets, nf.fields, g, e);
      }
      MeasuresAppend(FacetStream(front, g), ResponseFacetStream(r, g), e);
    }
  }

  /**
   * After merging, every facet group is ordered by count, largest first, and
   * holds at most one item per eid; an eid appears in a group exactly when
   * some response brought it there, and the item found for it carries the
   * sum of every count brought for it.
   */
  lemma MergedFacets(rs: seq<RawResponse>, g: string, e: Json)
    ensures forall k :: k in MergeAll(rs).facets ==> SortedBy(MergeAll(rs).facets[k], CountGe)
    ensures forall k, e' :: k in MergeAll(rs).facets ==> Occurrences(MergeAll(rs).facets[k], e') <= 1
    ensures GroupPresent(MergeAll(rs).facets, g, e) <==> Present(FacetStream(rs, g), e)
    ensures GroupPresent(MergeAll(rs).facets, g, e) ==>
              var group := MergeAll(rs).facets[g];
              IndexOfEid(group, e).Some? && group[IndexOfEid(group, e).value].count == EidTotal(FacetStream(rs, g), e)
  {
    var m := MergeAll(rs);
    MergeAllFacetMeasures(rs, g, e);
    if GroupPresent(m.facets, g, e) {
      FindHoldsTotal(m.facets[g], e);
    }
  }
}
