/** The service layer: input checks, the single upstream GET each operation issues, the
    classification of its outcome, and the operation-specific "not found" messages. */
module Service {
  import opened Wrappers
  import opened JsonValues
  import opened Text
  import opened Http

  const BaseUrl: string := "https://pokeapi.co/api/v2"

  const ConnectFailed: string := "Failed to connect to PokeAPI"
  const ResourceNotFound: string := "Resource not found"
  const FetchFailed: string := "Failed to fetch Pokemon data"
  const LimitOutOfRange: string := "Limit must be between 1 and 1000"
  const NegativeOffset: string := "Offset must be non-negative"

  // ---------------------------------------------------------------------------
  // Module helpers
  // ---------------------------------------------------------------------------

  /** How `_http_get` turns the transport outcome into a response or an exception. */
  function Connect(o: Outcome): (r: Result<Response, Exc>)
    ensures r.Failure? <==> o.TransportError?
    ensures r.Failure? ==> r.error == ValidationError(ConnectFailed)
    ensures r.Success? ==> r.value == o.response
  {
    match o
    case TransportError => Failure(ValidationError(ConnectFailed))
    case Delivered(response) => Success(response)
  }

  /** `_http_get`: one GET of `baseUrl + path` with the given query parameters. */
  method HttpGet(client: Client, baseUrl: string, path: string, params: map<string, int>, upstream: Upstream)
    returns (r: Result<Response, Exc>)
    requires client.closeCalls == 0
    modifies client
    ensures client.sent == old(client.sent) + [Request(baseUrl + path, params)]
    ensures client.closeCalls == old(client.closeCalls)
    ensures r == Connect(upstream(Request(baseUrl + path, params)))
  {
    var url := baseUrl + path;
    var outcome := client.Get(Request(url, params), upstream);
    match outcome
    case TransportError =>
      r := Failure(ValidationError(ConnectFailed));
    case Delivered(response) =>
      r := Success(response);
  }

  /** `_parse_json_or_error`: a 404 is checked before the general 4xx/5xx test; any other
      status hands back the decoded body, and an undecodable body raises the decoder's error. */
  function ParseJsonOrError(response: Response): (r: Result<Json, Exc>)
    ensures r.Success? <==> !IsError(response.status) && response.body.Parsed?
    ensures r.Success? ==> r.value == response.body.json
    ensures response.status == 404 ==> r == Failure(ValidationError(ResourceNotFound))
    ensures IsError(response.status) && response.status != 404 ==> r == Failure(ValidationError(FetchFailed))
    ensures !IsError(response.status) && response.body.Undecodable? ==> r == Failure(JsonDecodeError)
  {
    if response.status == 404 then
      Failure(ValidationError(ResourceNotFound))
    else if IsError(response.status) then
      Failure(ValidationError(FetchFailed))
    else
      match response.body
      case Parsed(json) => Success(json)
      case Undecodable => Failure(JsonDecodeError)
  }

  /** The result of a check that either returns nothing or raises. */
  datatype Check = Pass | Raise(exc: Exc)

  /** `_ensure_positive` */
  function EnsurePositive(number: int, field: string): (r: Check)
    ensures r.Raise? <==> number <= 0
    ensures r.Raise? ==> r.exc == ValidationError(field + " must be positive")
  {
    if number <= 0 then Raise(ValidationError(field + " must be positive")) else Pass
  }

  /** `_normalize_non_empty`: fails exactly on all-whitespace input; otherwise returns the
      stripped, lower-cased token, which is non-empty and has no surrounding whitespace. */
  function NormalizeNonEmpty(text: string, field: string): (r: Result<string, Exc>)
    ensures r.Failure? <==> AllSpace(text)
    ensures r.Failure? ==> r.error == ValidationError(field + " cannot be empty")
    ensures r.Success? ==> r.value == Normalize(text)
    ensures r.Success? ==> r.value != [] && Trimmed(r.value) && NoUpper(r.value)
  {
    NormalizeEmptyIff(text);
    NormalizeShape(text);
    var cleaned := Normalize(text);
    if cleaned == [] then Failure(ValidationError(field + " cannot be empty")) else Success(cleaned)
  }

  // ---------------------------------------------------------------------------
  // What one operation does, as a value: the requests it sends and its result
  // ---------------------------------------------------------------------------

  datatype Run<T> = Run(sent: seq<Request>, result: Result<T, Exc>)

  /** `_http_get` then `_parse_json_or_error`, with no remapping (the list operation). */
  function Fetch(o: Outcome): (r: Result<Json, Exc>)
    ensures r.Success? <==> o.Delivered? && !IsError(o.response.status) && o.response.body.Parsed?
    ensures o.TransportError? ==> r == Failure(ValidationError(ConnectFailed))
    ensures o.Delivered? ==> r == ParseJsonOrError(o.response)
  {
    match Connect(o)
    case Failure(exc) => Failure(exc)
    case Success(response) => ParseJsonOrError(response)
  }

  /** As `Fetch`, except that the validation error a 404 raises is replaced by one carrying
      `notFound`; every other failure is re-raised unchanged. */
  function FetchOr404(o: Outcome, notFound: string): (r: Result<Json, Exc>)
    ensures o.Delivered? && o.response.status == 404 ==> r == Failure(ValidationError(notFound))
    ensures !(o.Delivered? && o.response.status == 404) ==> r == Fetch(o)
  {
    match Connect(o)
    case Failure(exc) => Failure(exc)
    case Success(response) =>
      var parsed := ParseJsonOrError(response);
      if parsed.Failure? && parsed.error.ValidationError? && response.status == 404 then
        Failure(ValidationError(notFound))
      else
        parsed
  }

  function ByIdPath(pokemonId: nat): string {
    "/pokemon/" + Decimal(pokemonId)
  }

  function IdNotFound(pokemonId: nat): string {
    "Pokemon with ID " + Decimal(pokemonId) + " not found"
  }

  function NameNotFound(name: string): string {
    "Pokemon with name \"" + name + "\" not found"
  }

  function TypeNotFound(pokemonType: string): string {
    "Pokemon type \"" + pokemonType + "\" not found"
  }

  function ListRequest(limit: int, offset: int): Request {
    Request(BaseUrl + "/pokemon", map["limit" := limit, "offset" := offset])
  }

  /** `get_pokemon_by_id`: no request at all for a non-positive ID, otherwise exactly one
      GET of `/pokemon/{id}`, with a 404 reported under the ID. */
  function ByIdRun(pokemonId: int, upstream: Upstream): (run: Run<Json>)
    ensures run.sent == [] <==> pokemonId <= 0
    ensures pokemonId <= 0 ==> run.result == Failure(ValidationError("Pokemon ID must be positive"))
    ensures pokemonId > 0 ==>
      && run.sent == [Request(BaseUrl + ByIdPath(pokemonId), map[])]
      && run.result == FetchOr404(upstream(run.sent[0]), IdNotFound(pokemonId))
  {
    match EnsurePositive(pokemonId, "Pokemon ID")
    case Raise(exc) =>
      assert "Pokemon ID" + " must be positive" == "Pokemon ID must be positive";
      Run([], Failure(exc))
    case Pass =>
      var req := Request(BaseUrl + ByIdPath(pokemonId), map[]);
      Run([req], FetchOr404(upstream(req), IdNotFound(pokemonId)))
  }

  /** `get_pokemon_by_name`: no request for an all-whitespace name, otherwise exactly one GET
      whose path and 404 message both carry the normalised name. */
  function ByNameRun(name: string, upstream: Upstream): (run: Run<Json>)
    ensures run.sent == [] <==> AllSpace(name)
    ensures AllSpace(name) ==> run.result == Failure(ValidationError("Pokemon name cannot be empty"))
    ensures !AllSpace(name) ==>
      && run.sent == [Request(BaseUrl + ("/pokemon/" + Normalize(name)), map[])]
      && run.result == FetchOr404(upstream(run.sent[0]), NameNotFound(Normalize(name)))
  {
    match NormalizeNonEmpty(name, "Pokemon name")
    case Failure(exc) =>
      assert "Pokemon name" + " cannot be empty" == "Pokemon name cannot be empty";
      Run([], Failure(exc))
    case Success(normalized) =>
      var req := Request(BaseUrl + ("/pokemon/" + normalized), map[]);
      Run([req], FetchOr404(upstream(req), NameNotFound(normalized)))
  }

  /** `get_pokemon_list`: the limit is checked before the offset, and an accepted page is one
      GET of `/pokemon` carrying both values unchanged; a 404 keeps the generic message. */
  function ListRun(limit: int, offset: int, upstream: Upstream): (run: Run<Json>)
    ensures run.sent == [] <==> !(1 <= limit <= 1000) || offset < 0
    ensures !(1 <= limit <= 1000) ==> run.result == Failure(ValidationError(LimitOutOfRange))
    ensures 1 <= limit <= 1000 && offset < 0 ==> run.result == Failure(ValidationError(NegativeOffset))
    ensures 1 <= limit <= 1000 && offset >= 0 ==>
      && run.sent == [Request(BaseUrl + "/pokemon", map["limit" := limit, "offset" := offset])]
      && run.result == Fetch(upstream(run.sent[0]))
  {
    if !(1 <= limit <= 1000) then
      Run([], Failure(ValidationError(LimitOutOfRange)))
    else if offset < 0 then
      Run([], Failure(ValidationError(NegativeOffset)))
    else
      var req := ListRequest(limit, offset);
      Run([req], Fetch(upstream(req)))
  }

  /** `entry["pokemon"]["name"]` */
  function EntryName(entry: Json): (r: Result<Json, Exc>)
    ensures r.Success? <==>
      entry.Obj? && "pokemon" in entry.fields &&
      entry.fields["pokemon"].Obj? && "name" in entry.fields["pokemon"].fields
    ensures r.Success? ==> r.value == entry.fields["pokemon"].fields["name"]
  {
    match Subscript(entry, "pokemon")
    case Failure(exc) => Failure(exc)
    case Success(member) => Subscript(member, "name")
  }

  /** `[entry["pokemon"]["name"] for entry in entries]`: one name per entry, in order,
      duplicates kept; the comprehension stops at the first entry that raises. */
  function NamesOf(entries: seq<Json>): (r: Result<seq<Json>, Exc>)
    ensures r.Success? <==> forall k | 0 <= k < |entries| :: EntryName(entries[k]).Success?
    ensures r.Success? ==>
      && |r.value| == |entries|
      && forall k | 0 <= k < |entries| :: r.value[k] == EntryName(entries[k]).value
    decreases |entries|
  {
    if entries == [] then
      Success([])
    else
      match EntryName(entries[0])
      case Failure(exc) => Failure(exc)
      case Success(name) =>
        match NamesOf(entries[1..])
        case Failure(exc) => Failure(exc)
        case Success(rest) =>
          assert forall k | 1 <= k < |entries| :: entries[k] == entries[1..][k - 1];
          Success([name] + rest)
  }

  /** The exception the comprehension raises is that of the first entry without a name. */
  lemma {:induction false} NamesOfFirstFailure(entries: seq<Json>, k: int)
    requires 0 <= k < |entries| && EntryName(entries[k]).Failure?
    requires forall i | 0 <= i < k :: EntryName(entries[i]).Success?
    ensures NamesOf(entries) == Failure(EntryName(entries[k]).error)
    decreases k
  {
    if k > 0 {
      assert entries[1..][k - 1] == entries[k];
      assert forall i | 0 <= i < k - 1 :: entries[1..][i] == entries[i + 1];
      NamesOfFirstFailure(entries[1..], k - 1);
    }
  }

  /** `[... for entry in payload.get("pokemon", [])]` on the decoded type payload: an absent
      key gives no names; `.get` on a payload that is not an object raises AttributeError;
      iterating a string yields one-character strings and iterating an object yields its
      string keys, so only an empty one of either gives no names and any other raises
      TypeError, as does a value that cannot be iterated. */
  function PokemonNames(payload: Json): (r: Result<seq<Json>, Exc>)
    ensures !payload.Obj? ==> r == Failure(AttributeError)
    ensures payload.Obj? && "pokemon" !in payload.fields ==> r == Success([])
    ensures payload.Obj? && "pokemon" in payload.fields && payload.fields["pokemon"].Arr? ==>
      r == NamesOf(payload.fields["pokemon"].items)
    ensures r.Success? && r.value != [] ==>
      payload.Obj? && "pokemon" in payload.fields && payload.fields["pokemon"].Arr?
    ensures payload.Obj? && "pokemon" in payload.fields &&
            (payload.fields["pokemon"] == Str("") || payload.fields["pokemon"] == Obj(map[]))
            ==> r == Success([])
    ensures payload.Obj? && "pokemon" in payload.fields && !payload.fields["pokemon"].Arr? &&
            payload.fields["pokemon"] != Str("") && payload.fields["pokemon"] != Obj(map[])
            ==> r == Failure(TypeError)
  {
    if !payload.Obj? then
      Failure(AttributeError)
    else
      var members := if "pokemon" in payload.fields then payload.fields["pokemon"] else Arr([]);
      match members
      case Arr(entries) => NamesOf(entries)
      case Str(s) =>
        var chars := seq(|s|, k requires 0 <= k < |s| => Str([s[k]]));
        assert s != [] ==> !EntryName(chars[0]).Success?;
        NamesOf(chars)
      case Obj(fields) => if fields == map[] then Success([]) else Failure(TypeError)
      case _ => Failure(TypeError)
  }

  /** `get_pokemon_by_type`: like the name lookup, on `/type/{token}`, and on success the
      names of the payload's `pokemon` entries. */
  function ByTypeRun(pokemonType: string, upstream: Upstream): (run: Run<seq<Json>>)
    ensures run.sent == [] <==> AllSpace(pokemonType)
    ensures AllSpace(pokemonType) ==> run.result == Failure(ValidationError("Pokemon type cannot be empty"))
    ensures !AllSpace(pokemonType) ==>
      && run.sent == [Request(BaseUrl + ("/type/" + Normalize(pokemonType)), map[])]
      && var fetched := FetchOr404(upstream(run.sent[0]), TypeNotFound(Normalize(pokemonType)));
         run.result == if fetched.Failure? then Failure(fetched.error) else PokemonNames(fetched.value)
  {
    match NormalizeNonEmpty(pokemonType, "Pokemon type")
    case Failure(exc) =>
      assert "Pokemon type" + " cannot be empty" == "Pokemon type cannot be empty";
      Run([], Failure(exc))
    case Success(normalized) =>
      var req := Request(BaseUrl + ("/type/" + normalized), map[]);
      match FetchOr404(upstream(req), TypeNotFound(normalized))
      case Failure(exc) => Run([req], Failure(exc))
      case Success(payload) => Run([req], PokemonNames(payload))
  }

  // ---------------------------------------------------------------------------
  // Properties of the operations
  // ---------------------------------------------------------------------------

  /** Only the normalised name matters: looking up the normalised form of a name sends the
      same request and yields the same result as looking up the name itself. */
  lemma ByNameUsesNormalizedToken(name: string, upstream: Upstream)
    ensures ByNameRun(Normalize(name), upstream) == ByNameRun(name, upstream)
  {
    NormalizeIdempotent(name);
    NormalizeEmptyIff(name);
    NormalizeEmptyIff(Normalize(name));
  }

  lemma ByTypeUsesNormalizedToken(pokemonType: string, upstream: Upstream)
    ensures ByTypeRun(Normalize(pokemonType), upstream) == ByTypeRun(pokemonType, upstream)
  {
    NormalizeIdempotent(pokemonType);
    NormalizeEmptyIff(pokemonType);
    NormalizeEmptyIff(Normalize(pokemonType));
  }

  /** Different IDs are fetched from different URLs. */
  lemma ByIdDistinctUrls(a: int, b: int, upstream: Upstream)
    requires 0 < a && 0 < b && a != b
    ensures ByIdRun(a, upstream).sent != ByIdRun(b, upstream).sent
  {
    DecimalInjective(a, b);
    var pa, pb := ByIdPath(a), ByIdPath(b);
    assert pa[|"/pokemon/"|..] == Decimal(a);
    assert pb[|"/pokemon/"|..] == Decimal(b);
    assert (BaseUrl + pa)[|BaseUrl|..] == pa;
    assert (BaseUrl + pb)[|BaseUrl|..] == pb;
  }

  /** Upstream 404 for ID 99999 is reported as "Pokemon with ID 99999 not found". */
  lemma ByIdNotFoundExample(upstream: Upstream, body: Body)
    requires upstream(Request(BaseUrl + "/pokemon/99999", map[])) == Delivered(Response(404, body))
    ensures ByIdRun(99999, upstream).sent == [Request(BaseUrl + "/pokemon/99999", map[])]
    ensures ByIdRun(99999, upstream).result == Failure(ValidationError("Pokemon with ID 99999 not found"))
  {
    assert Decimal(99999) == "99999" by {
      assert Decimal(9) == "9";
      assert Decimal(99) == "99";
      assert Decimal(999) == "999";
      assert Decimal(9999) == "9999";
    }
    assert ByIdPath(99999) == "/pokemon/99999";
    assert IdNotFound(99999) == "Pokemon with ID 99999 not found";
  }

  /** Upstream 404 for " PIKACHU " is reported under the normalised name. */
  lemma ByNameNotFoundExample(upstream: Upstream, body: Body)
    requires upstream(Request(BaseUrl + "/pokemon/pikachu", map[])) == Delivered(Response(404, body))
    ensures ByNameRun(" PIKACHU ", upstream).sent == [Request(BaseUrl + "/pokemon/pikachu", map[])]
    ensures ByNameRun(" PIKACHU ", upstream).result == Failure(ValidationError("Pokemon with name \"pikachu\" not found"))
  {
    PikachuNormalizes();
    assert BaseUrl + ("/pokemon/" + "pikachu") == BaseUrl + "/pokemon/pikachu";
    PikachuNotFoundText();
  }

  lemma PikachuNormalizes()
    ensures Normalize(" PIKACHU ") == "pikachu" && !AllSpace(" PIKACHU ")
  {
    PikachuStripped();
    PikachuLowered();
    assert !IsSpace(" PIKACHU "[1]);
  }

  lemma PikachuStripped()
    ensures Strip(" PIKACHU ") == "PIKACHU"
  {
    var raw := " PIKACHU ";
    assert raw[..1] == " " && raw[8..] == " ";
    assert raw[1..8] == "PIKACHU" by {
      forall k | 0 <= k < 7 ensures raw[1..8][k] == "PIKACHU"[k] {}
    }
    StripUnique(raw, 1, 8);
  }

  lemma PikachuLowered()
    ensures Lower("PIKACHU") == "pikachu"
  {
    var lowered := Lower("PIKACHU");
    forall k | 0 <= k < 7 ensures lowered[k] == "pikachu"[k] {}
  }

  lemma PikachuNotFoundText()
    ensures NameNotFound("pikachu") == "Pokemon with name \"pikachu\" not found"
  {
    var detail := NameNotFound("pikachu");
    assert |detail| == 37;
    forall k | 0 <= k < 37 ensures detail[k] == "Pokemon with name \"pikachu\" not found"[k] {}
  }

  // ---------------------------------------------------------------------------
  // The service object
  // ---------------------------------------------------------------------------

  /** `PokeAPIService`: a client created with the service and released by `Close`. */
  class PokeAPIService {
    const client: Client

    constructor ()
      ensures fresh(client)
      ensures client.sent == [] && client.closeCalls == 0
    {
      client := new Client();
    }

    method Close()
      modifies client
      ensures client.sent == old(client.sent)
      ensures client.closeCalls == old(client.closeCalls) + 1
    {
      client.Aclose();
    }

    method GetPokemonById(pokemonId: int, upstream: Upstream) returns (r: Result<Json, Exc>)
      requires client.closeCalls == 0
      modifies client
      ensures client.sent == old(client.sent) + ByIdRun(pokemonId, upstream).sent
      ensures client.closeCalls == 0
      ensures r == ByIdRun(pokemonId, upstream).result
    {
      var check := EnsurePositive(pokemonId, "Pokemon ID");
      if check.Raise? {
        return Failure(check.exc);
      }
      var response :- HttpGet(client, BaseUrl, ByIdPath(pokemonId), map[], upstream);
      r := ParseJsonOrError(response);
      if r.Failure? && r.error.ValidationError? && response.status == 404 {
        r := Failure(ValidationError(IdNotFound(pokemonId)));
      }
    }

    method GetPokemonByName(name: string, upstream: Upstream) returns (r: Result<Json, Exc>)
      requires client.closeCalls == 0
      modifies client
      ensures client.sent == old(client.sent) + ByNameRun(name, upstream).sent
      ensures client.closeCalls == 0
      ensures r == ByNameRun(name, upstream).result
    {
      var normalizedName :- NormalizeNonEmpty(name, "Pokemon name");
      var response :- HttpGet(client, BaseUrl, "/pokemon/" + normalizedName, map[], upstream);
      r := ParseJsonOrError(response);
      if r.Failure? && r.error.ValidationError? && response.status == 404 {
        r := Failure(ValidationError(NameNotFound(normalizedName)));
      }
    }

    method GetPokemonList(limit: int, offset: int, upstream: Upstream) returns (r: Result<Json, Exc>)
      requires client.closeCalls == 0
      modifies client
      ensures client.sent == old(client.sent) + ListRun(limit, offset, upstream).sent
      ensures client.closeCalls == 0
      ensures r == ListRun(limit, offset, upstream).result
    {
      if !(1 <= limit <= 1000) {
        return Failure(ValidationError(LimitOutOfRange));
      }
      if offset < 0 {
        return Failure(ValidationError(NegativeOffset));
      }
      var response :- HttpGet(client, BaseUrl, "/pokemon", map["limit" := limit, "offset" := offset], upstream);
      r := ParseJsonOrError(response);
    }

    method GetPokemonByType(pokemonType: string, upstream: Upstream) returns (r: Result<seq<Json>, Exc>)
      requires client.closeCalls == 0
      modifies client
      ensures client.sent == old(client.sent) + ByTypeRun(pokemonType, upstream).sent
      ensures client.closeCalls == 0
      ensures r == ByTypeRun(pokemonType, upstream).result
    {
      var normalizedType :- NormalizeNonEmpty(pokemonType, "Pokemon type");
      var response :- HttpGet(client, BaseUrl, "/type/" + normalizedType, map[], upstream);
      var payload := ParseJsonOrError(response);
      if payload.Failure? {
        if payload.error.ValidationError? && response.status == 404 {
          return Failure(ValidationError(TypeNotFound(normalizedType)));
        }
        return Failure(payload.error);
      }
      r := PokemonNames(payload.value);
    }
  }
}
