/** The HTTP handlers. Each service-backed handler creates a service, runs one operation,
    closes the service whether the operation raised or not, and turns the outcome into a
    response; every exception becomes a 400 carrying that exception. */
module Views {
  import opened Wrappers
  import opened JsonValues
  import opened Service
  import Http

  const StatusOk: int := 200
  const StatusBadRequest: int := 400

  const DefaultPokemonLimit: int := 20
  const DefaultOffset: int := 0

  /** A serializer's verdict on a payload: the data it validated, or its field errors. */
  datatype Validation = Accepted(data: Json) | Rejected(errors: Json)

  type Serializer = Json -> Validation

  /** A response body: JSON, or `{"detail": str(exc)}` for an exception the handler caught. */
  datatype Content = Data(json: Json) | Detail(exc: Exc)

  datatype Reply = Reply(status: int, content: Content)

  /** The `except Exception` branch of the four service-backed handlers. */
  function ErrorReply(exc: Exc): (reply: Reply)
    ensures reply.status == StatusBadRequest
    ensures reply.content == Detail(exc)
  {
    Reply(StatusBadRequest, Detail(exc))
  }

  /** The serializer check that follows a successful lookup: the validated data with 200
      when the payload is accepted, the serializer's errors with 400 otherwise. */
  function Serialized(serializer: Serializer, payload: Json): (reply: Reply)
    ensures reply.status == StatusOk <==> serializer(payload).Accepted?
    ensures reply.status == StatusOk || reply.status == StatusBadRequest
    ensures serializer(payload).Accepted? ==> reply.content == Data(serializer(payload).data)
    ensures serializer(payload).Rejected? ==> reply.content == Data(serializer(payload).errors)
  {
    match serializer(payload)
    case Accepted(data) => Reply(StatusOk, Data(data))
    case Rejected(errors) => Reply(StatusBadRequest, Data(errors))
  }

  /** What the ID, name and list handlers answer for a service result: 200 exactly when the
      service returned a payload the serializer accepts, 400 in every other case. */
  function Respond(result: Result<Json, Exc>, serializer: Serializer): (reply: Reply)
    ensures reply.status == StatusOk || reply.status == StatusBadRequest
    ensures reply.status == StatusOk <==> result.Success? && serializer(result.value).Accepted?
    ensures result.Failure? ==> reply == Reply(StatusBadRequest, Detail(result.error))
    ensures result.Success? ==> reply == Serialized(serializer, result.value)
  {
    match result
    case Failure(exc) => ErrorReply(exc)
    case Success(payload) => Serialized(serializer, payload)
  }

  /** What the type handler answers: `{"results": names}` with the service's list as it is,
      with no serializer check, or 400 with the exception. */
  function RespondNames(result: Result<seq<Json>, Exc>): (reply: Reply)
    ensures reply.status == StatusOk <==> result.Success?
    ensures reply.status == StatusOk || reply.status == StatusBadRequest
    ensures result.Failure? ==> reply.content == Detail(result.error)
    ensures result.Success? ==> reply.content == Data(Obj(map["results" := Arr(result.value)]))
  {
    match result
    case Failure(exc) => ErrorReply(exc)
    case Success(names) => Reply(StatusOk, Data(Obj(map["results" := Arr(names)])))
  }

  /** `health_check`: always 200 with `{"status": "healthy"}`; it takes no upstream, so it
      can neither build a service nor send a request. */
  function HealthCheck(): (reply: Reply)
    ensures reply.status == StatusOk
    ensures reply.content == Data(Obj(map["status" := Str("healthy")]))
  {
    Reply(StatusOk, Data(Obj(map["status" := Str("healthy")])))
  }

  /** `get_pokemon_by_id` */
  method GetPokemonById(pokemonId: int, upstream: Http.Upstream, serializer: Serializer)
    returns (reply: Reply, ghost service: PokeAPIService)
    ensures fresh(service) && fresh(service.client)
    ensures service.client.closeCalls == 1
    ensures service.client.sent == ByIdRun(pokemonId, upstream).sent
    ensures reply == Respond(ByIdRun(pokemonId, upstream).result, serializer)
  {
    var svc := new PokeAPIService();
    service := svc;
    var result := svc.GetPokemonById(pokemonId, upstream);
    svc.Close();  // the `finally` clause: runs whether or not the lookup raised
    match result
    case Failure(exc) => reply := ErrorReply(exc);
    case Success(payload) => reply := Serialized(serializer, payload);
  }

  /** `get_pokemon_by_name` */
  method GetPokemonByName(name: string, upstream: Http.Upstream, serializer: Serializer)
    returns (reply: Reply, ghost service: PokeAPIService)
    ensures fresh(service) && fresh(service.client)
    ensures service.client.closeCalls == 1
    ensures service.client.sent == ByNameRun(name, upstream).sent
    ensures reply == Respond(ByNameRun(name, upstream).result, serializer)
  {
    var svc := new PokeAPIService();
    service := svc;
    var result := svc.GetPokemonByName(name, upstream);
    svc.Close();
    match result
    case Failure(exc) => reply := ErrorReply(exc);
    case Success(payload) => reply := Serialized(serializer, payload);
  }

  /** `get_pokemon_list`: `limitParam` and `offsetParam` are the query parameters after
      `int()`, or None when absent. */
  method GetPokemonList(limitParam: Option<int>, offsetParam: Option<int>, upstream: Http.Upstream, serializer: Serializer)
    returns (reply: Reply, ghost service: PokeAPIService)
    ensures fresh(service) && fresh(service.client)
    ensures service.client.closeCalls == 1
    ensures service.client.sent == ListRun(limitParam.GetOr(DefaultPokemonLimit), offsetParam.GetOr(DefaultOffset), upstream).sent
    ensures reply == Respond(ListRun(limitParam.GetOr(DefaultPokemonLimit), offsetParam.GetOr(DefaultOffset), upstream).result, serializer)
    ensures limitParam.None? && offsetParam.None? ==>
      service.client.sent == [Http.Request(BaseUrl + "/pokemon", map["limit" := 20, "offset" := 0])]
  {
    var limit := limitParam.GetOr(DefaultPokemonLimit);
    var offset := offsetParam.GetOr(DefaultOffset);
    var svc := new PokeAPIService();
    service := svc;
    var result := svc.GetPokemonList(limit, offset, upstream);
    svc.Close();
    match result
    case Failure(exc) => reply := ErrorReply(exc);
    case Success(payload) => reply := Serialized(serializer, payload);
  }

  /** `get_pokemon_by_type` */
  method GetPokemonByType(pokemonType: string, upstream: Http.Upstream)
    returns (reply: Reply, ghost service: PokeAPIService)
    ensures fresh(service) && fresh(service.client)
    ensures service.client.closeCalls == 1
    ensures service.client.sent == ByTypeRun(pokemonType, upstream).sent
    ensures reply == RespondNames(ByTypeRun(pokemonType, upstream).result)
  {
    var svc := new PokeAPIService();
    service := svc;
    var result := svc.GetPokemonByType(pokemonType, upstream);
    svc.Close();
    match result
    case Failure(exc) => reply := ErrorReply(exc);
    case Success(names) => reply := Reply(StatusOk, Data(Obj(map["results" := Arr(names)])));
  }
}
