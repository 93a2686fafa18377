/**
 * `Api::V1::ServicesController` (app/controllers/api/v1/services_controller.rb):
 * `index` aggregates over the registry's nodes, optionally narrowed to the
 * names in `nodes`, and reports the full node list beside the data;
 * `custom_aggregate` aggregates over endpoints given in the request and
 * refuses an empty list.
 */
module ServicesController {
  import opened Wrappers
  import opened JsonValues
  import opened Sequences
  import opened ResponseMerger
  import opened DataAggregator
  import opened NodeRegistry

  // ---------------------------------------------------------------------------
  // set_endpoints

  /** `names.include?(endpoint[:name])`. */
  predicate Requested(names: seq<Json>, e: Endpoint) {
    JStr(e.name) in names
  }

  function Selector(names: seq<Json>): Endpoint -> bool {
    (e: Endpoint) => Requested(names, e)
  }

  /** The `select` of `set_endpoints`: the nodes whose name was asked for. */
  function FilterByNames(all: seq<Endpoint>, names: seq<Json>): (r: seq<Endpoint>)
    ensures |r| <= |all|
    ensures forall i :: 0 <= i < |r| ==> r[i] in all && Requested(names, r[i])
    ensures forall i :: 0 <= i < |all| && Requested(names, all[i]) ==> all[i] in r
  {
    Filter(all, Selector(names))
  }

  /** Filtering keeps the resolved order: it goes node by node. */
  lemma FilterByNamesAppend(a: seq<Endpoint>, b: seq<Endpoint>, names: seq<Json>)
    ensures FilterByNames(a + b, names) == FilterByNames(a, names) + FilterByNames(b, names)
  {
    FilterAppend(a, b, Selector(names));
  }

  /** A single node is kept exactly when its name is asked for. */
  lemma FilterByNamesSingle(e: Endpoint, names: seq<Json>)
    ensures FilterByNames([e], names) == if Requested(names, e) then [e] else []
  {
    assert [e][1..] == [];
  }

  /** Asking for every node's name selects the whole list. */
  lemma FilterByNamesEvery(all: seq<Endpoint>, names: seq<Json>)
    requires forall i :: 0 <= i < |all| ==> Requested(names, all[i])
    ensures FilterByNames(all, names) == all
  {
    FilterAll(all, Selector(names));
  }

  /** `@all_nodes`: the registry's endpoints, or the defaults when those are blank. */
  function ResolvedNodes(staticConfig: bool, env: RegistryEnv): (r: seq<Endpoint>)
    ensures EndpointsOf(staticConfig, env) != [] ==> r == EndpointsOf(staticConfig, env)
    ensures EndpointsOf(staticConfig, env) == [] ==> r == DefaultEndpointsOf(env)
    ensures DefaultEndpointsOf(env) != [] ==> r != []
    ensures r == [] <==> EndpointsOf(staticConfig, env) == [] && DefaultEndpointsOf(env) == []
    ensures forall i :: 0 <= i < |r| ==> KeptUrl(r[i])
  {
    var nodes := EndpointsOf(staticConfig, env);
    if nodes == [] then DefaultEndpointsOf(env) else nodes
  }

  /** `@endpoints`: all nodes without `nodes`, else those named in `Array(nodes)`. */
  function SelectedEndpoints(all: seq<Endpoint>, nodes: Json): (r: seq<Endpoint>)
    ensures Blank(nodes) ==> r == all
    ensures !Blank(nodes) ==> r == FilterByNames(all, ArrayCoerce(nodes))
    ensures forall e :: e in r ==> e in all
    ensures !Blank(nodes) ==> forall e :: e in r <==> e in all && Requested(ArrayCoerce(nodes), e)
  {
    if Blank(nodes) then all else FilterByNames(all, ArrayCoerce(nodes))
  }

  // ---------------------------------------------------------------------------
  // index and custom_aggregate

  /**
   * The body `index` renders: the paginated data with a top-level `nodes`
   * (every resolved node) added beside `metadata.nodes` (the queried ones),
   * or the error of status 500.
   */
  datatype IndexResponse = IndexSuccess(data: Merged, nodes: seq<Endpoint>) | IndexError(message: string)

  /** The endpoints as the hashes `DataAggregatorService.new` receives. */
  function EndpointPayloads(endpoints: seq<Endpoint>): (r: seq<Json>)
    ensures |r| == |endpoints|
    ensures forall i :: 0 <= i < |r| ==> r[i] == EndpointJson(endpoints[i])
  {
    MapSeqAt(endpoints, EndpointJson);
    MapSeq(endpoints, EndpointJson)
  }

  /** What `index` renders for the selected endpoints and the request parameters. */
  function IndexOf(endpoints: seq<Endpoint>, allNodes: seq<Endpoint>, params: Fields,
                   http: (string, Fields) -> Result<HttpReply>, aggregatedAt: string): (r: IndexResponse)
    ensures r.IndexSuccess? <==> PerPageOf(CompactBlank(params)) != 0
    ensures r.IndexSuccess? ==> r.nodes == allNodes
    ensures r.IndexSuccess? ==>
              var agg := NewAggregator(EndpointPayloads(endpoints), params);
              r.data == Paginated(AllData(agg, http, aggregatedAt), PageOf(agg.params), PerPageOf(agg.params))
  {
    var agg := NewAggregator(EndpointPayloads(endpoints), params);
    if PerPageOf(agg.params) == 0 then
      IndexError(ZeroPerPageError(|AllData(agg, http, aggregatedAt).results|))
    else
      IndexSuccess(Paginated(AllData(agg, http, aggregatedAt), PageOf(agg.params), PerPageOf(agg.params)), allNodes)
  }

  /** The body `custom_aggregate` renders. */
  datatype CustomResponse =
    | CustomSuccess(result: Merged)     // { status: "success", result: ... }
    | CustomBadRequest(error: string)   // status 400
    | CustomError(message: string)      // status 500

  /**
   * `params[:endpoints]&.map(&:permit!)&.map(&:to_h)`: nil stays nil (an
   * empty list here, as both are blank); a list of hashes passes; a list
   * holding anything else, or a value that is no list, raises.
   */
  function CustomEndpointsOf(param: Json): (r: Result<seq<Json>>)
    ensures param.JNull? ==> r == Ok([])
    ensures param.JArr? && (forall i :: 0 <= i < |param.elems| ==> param.elems[i].JObj?) ==> r == Ok(param.elems)
    ensures r.Ok? && !param.JNull? ==> param.JArr? && r.value == param.elems
    ensures r.Ok? ==> forall i :: 0 <= i < |r.value| ==> r.value[i].JObj?
  {
    match param
    case JNull => Ok([])
    case JArr(xs) =>
      if forall i :: 0 <= i < |xs| ==> xs[i].JObj? then Ok(xs) else Err("undefined method 'permit!'")
    case _ => Err("undefined method 'map'")
  }

  /** What `custom_aggregate` renders: the default first page of the aggregate over the given endpoints. */
  function CustomAggregateOf(param: Json, http: (string, Fields) -> Result<HttpReply>, aggregatedAt: string): (r: CustomResponse)
    ensures r.CustomBadRequest? <==> param.JNull? || param == JArr([])
    ensures r.CustomBadRequest? ==> r.error == "No endpoints provided"
    ensures r.CustomSuccess? <==>
              param.JArr? && param.elems != [] && forall i :: 0 <= i < |param.elems| ==> param.elems[i].JObj?
    ensures r.CustomSuccess? ==> r.result == Paginated(AllData(NewAggregator(param.elems, []), http, aggregatedAt), 1, 10)
  {
    var eps := CustomEndpointsOf(param);
    if eps.Err? then CustomError(eps.message)
    else if eps.value == [] then CustomBadRequest("No endpoints provided")
    else CustomSuccess(Paginated(AllData(NewAggregator(eps.value, []), http, aggregatedAt), 1, 10))
  }

  /** With no request parameters, `aggregate_data` asks for page 1 of 10. */
  lemma DefaultPaging(agg: Aggregator)
    requires agg.params == []
    ensures PageOf(agg.params) == 1 && PerPageOf(agg.params) == 10
  {
  }

  class ServicesController {
    var allNodes: seq<Endpoint>
    var endpoints: seq<Endpoint>

    constructor ()
      ensures allNodes == [] && endpoints == []
    {
      allNodes := [];
      endpoints := [];
    }

    /** The `before_action` of `index`. */
    method SetEndpoints(env: RegistryEnv, apiKeyVar: Option<string>, staticConfigVar: Option<string>, nodes: Json)
      modifies this
      ensures allNodes == ResolvedNodes(TruthyEnv(staticConfigVar), env)
      ensures endpoints == SelectedEndpoints(allNodes, nodes)
    {
      var registry := new NodeRegistryService(DefaultCacheTtl, apiKeyVar, staticConfigVar);
      allNodes := registry.Endpoints(env);
      if allNodes == [] {
        allNodes := registry.DefaultEndpoints(env);
      }
      if !Blank(nodes) {
        var names := ArrayCoerce(nodes);
        endpoints := FilterByNames(allNodes, names);
      } else {
        endpoints := allNodes;
      }
    }

    /** `index`, its `before_action` included: nodes are filtered for the aggregate but reported in full. */
    method Index(env: RegistryEnv, apiKeyVar: Option<string>, staticConfigVar: Option<string>, params: Fields,
                 http: (string, Fields) -> Result<HttpReply>, aggregatedAt: string)
      returns (resp: IndexResponse)
      modifies this
      ensures allNodes == ResolvedNodes(TruthyEnv(staticConfigVar), env)
      ensures endpoints == SelectedEndpoints(allNodes, Lookup(params, "nodes"))
      ensures resp == IndexOf(endpoints, allNodes, params, http, aggregatedAt)
    {
      SetEndpoints(env, apiKeyVar, staticConfigVar, Lookup(params, "nodes"));
      var aggregator := NewAggregator(EndpointPayloads(endpoints), params);
      var result := AggregateData(aggregator, http, aggregatedAt);
      match result
      case Ok(data) => {
        var v := data.Value();
        resp := IndexSuccess(v, allNodes);
      }
      case Err(message) => {
        resp := IndexError(message);
      }
    }

    /** `custom_aggregate`: a blank list is refused before any aggregator is built. */
    method CustomAggregate(param: Json, http: (string, Fields) -> Result<HttpReply>, aggregatedAt: string)
      returns (resp: CustomResponse)
      ensures resp == CustomAggregateOf(param, http, aggregatedAt)
    {
      var custom := CustomEndpointsOf(param);
      if custom.Err? {
        return CustomError(custom.message);
      }
      if custom.value == [] {
        return CustomBadRequest("No endpoints provided");
      }
      var aggregator := NewAggregator(custom.value, []);
      DefaultPaging(aggregator);
      var result := AggregateData(aggregator, http, aggregatedAt);
      match result
      case Ok(data) => {
        var v := data.Value();
        resp := CustomSuccess(v);
      }
      case Err(_) => {
        assert false;
      }
    }
  }
}
