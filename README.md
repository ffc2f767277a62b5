# PokeAPI proxy: service layer and handlers

A Dafny model of the core of a small Django REST proxy in front of PokeAPI
(`https://pokeapi.co/api/v2`). Four endpoints each make at most one upstream GET:
fetch by ID, fetch by name, paginated list, and names by type. A fifth endpoint is a
health check. The model covers:

- the input checks and normalisation of `pokemon/service.py`: a positive ID, a name or
  type token that is stripped and lower-cased and must not end up empty, and a `limit`
  in [1, 1000] checked before `offset >= 0`;
- the request each operation sends: `base_url + path`, with the decimal ID or the
  normalised token in the path, and `limit`/`offset` passed through unchanged;
- how the upstream outcome is classified: transport failure, 404, other 4xx/5xx, or a
  decoded body. Each lookup then replaces the generic 404 message with its own; the
  list operation keeps it;
- extracting the names from a type payload, including what Python does on payloads of
  the wrong shape;
- the handler policy of `pokemon/views.py`: every exception becomes a 400 with the
  exception as detail, the service is closed exactly once on every path, a payload is
  checked by the serializer (200 or 400), and the list defaults are `limit=20, offset=0`.

Files and modules:

- `wrappers.dfy` (`Wrappers`): `Option` and `Result`.
- `json.dfy` (`JsonValues`): decoded JSON values, the exceptions the core raises, and
  Python's `value[key]` on them.
- `text.dfy` (`Text`): `str.strip()` over Python's `str.isspace()` set, `str.lower()`
  on ASCII, and the decimal text of an integer. With them come the shape of a
  normalised token, its idempotence, and a round trip for decimal text.
- `http.dfy` (`Http`): requests, responses, and the upstream as an oracle
  `Request -> Outcome`. The client is a class that logs every request it sends and
  counts its `aclose()` calls.
- `service.dfy` (`Service`): the module helpers and the `PokeAPIService` class. Each
  operation is a method proved against a pure function (`ByIdRun`, `ByNameRun`,
  `ListRun`, `ByTypeRun`). That function gives the requests sent and the result.
- `views.dfy` (`Views`): the five handlers. Each service-backed handler is a method
  that creates a `PokeAPIService`, calls it, closes it, and builds the reply. It returns
  a ghost handle to that service, so its postcondition can state what was sent and how
  often the client was closed.

Behaviour on malformed or unusual upstream data, as the code has it:

- An empty list of names comes back only when the payload's `pokemon` key is absent,
  or its value is an empty array, an empty object or an empty string. A payload that
  is not an object raises AttributeError. An array entry without `pokemon.name`
  raises KeyError or TypeError, and so does a non-empty string or object or any
  non-iterable value under `pokemon`. The handler turns each of these into a 400.
- A success body that does not decode raises the decoder's own exception from
  `response.json()`. That exception is not a `ValidationError`, so it escapes the 404
  remap and reaches the handler's catch-all as it is.
- Only 4xx and 5xx statuses (`response.is_error`) are failures. A 1xx, 3xx or 6xx
  response has its body decoded like a 200.

## Model

| member | source | states |
|---|---|---|
| `JsonValues.Subscript` | pokemon/service.py:112 | `value[key]` succeeds exactly on an object holding the key; otherwise KeyError (object) or TypeError (anything else) |
| `Service.Connect` | pokemon/service.py:15-19 | a transport failure, and only that, becomes the validation error "Failed to connect to PokeAPI"; a delivered response passes through untouched |
| `Http.Client.Get` | pokemon/service.py:17 | `client.get` logs exactly the one request it is given, leaves the close count alone, and returns the upstream's answer to it |
| `Http.Client.Aclose` | pokemon/service.py:57 | `client.aclose()` raises the close count by one and sends nothing |
| `Service.HttpGet` | pokemon/service.py:7-19 | sends exactly one request, for `base_url + path` with the given query parameters, appended to the client's log, and returns the classified outcome |
| `Service.ParseJsonOrError` | pokemon/service.py:22-28 | succeeds iff the status is not 4xx/5xx and the body decodes, returning that body; 404 gives "Resource not found" ahead of the general check; other 4xx/5xx give "Failed to fetch Pokemon data"; an undecodable body raises the decoder error |
| `Service.EnsurePositive` | pokemon/service.py:31-34 | raises iff the number is <= 0, with detail "{field} must be positive" |
| `Service.NormalizeNonEmpty` | pokemon/service.py:37-42 | fails iff the text is entirely whitespace, with "{field} cannot be empty"; otherwise returns `strip().lower()`, which is non-empty, has no surrounding whitespace and no upper-case letter |
| `Text.LeadingSpaces` | pokemon/service.py:39 | the count `lstrip` removes: every character before it is whitespace and the one at it is not |
| `Text.TrailingSpaces` | pokemon/service.py:39 | the count `rstrip` removes: every character after the kept part is whitespace and the last kept one is not |
| `Text.Strip` | pokemon/service.py:39 | the stripped text has no whitespace at either end, and is empty iff the input is all whitespace |
| `Text.StripUnique` | pokemon/service.py:39 | any slice with only whitespace outside it and none at its ends is the stripped text (an independent characterisation of `strip`) |
| `Text.LowerChar` | pokemon/service.py:39 | an ASCII capital becomes the small letter at the same offset from `a`; every other character is unchanged |
| `Text.Lower` | pokemon/service.py:39 | same length; each ASCII capital becomes its small letter and every other character is unchanged, so no capital remains and whitespace keeps its place |
| `Text.NormalizeShape` | pokemon/service.py:39-42 | the normalised token has no surrounding whitespace and no upper-case letter |
| `Text.NormalizeIdempotent` | pokemon/service.py:39 | normalising a normalised token changes nothing |
| `Text.Decimal` | pokemon/service.py:63 | the ID in the path is a non-empty string of digits with no leading zero |
| `Text.DecimalRoundTrip` | pokemon/service.py:63 | reading the decimal text of an ID back gives the ID |
| `Text.DecimalInjective` | pokemon/service.py:63 | different IDs have different decimal texts |
| `Service.Fetch` | pokemon/service.py:92-98 | `_http_get` then `_parse_json_or_error` with no remap: succeeds iff a response arrived with a non-error status and a decodable body |
| `Service.FetchOr404` | pokemon/service.py:63-69 | a delivered 404 raises the operation's own message; every other outcome is exactly the unremapped result, so other failures are re-raised unchanged |
| `Service.ByIdRun` | pokemon/service.py:59-70 | no request iff ID <= 0, failing with "Pokemon ID must be positive"; otherwise exactly one GET of `/pokemon/{id}`, with a 404 reported as "Pokemon with ID {id} not found" |
| `Service.ByIdDistinctUrls` | pokemon/service.py:63 | two different positive IDs are fetched from different URLs |
| `Service.ByIdNotFoundExample` | pokemon/service.py:59-70 | upstream 404 for ID 99999 gives "Pokemon with ID 99999 not found" after one GET of `/pokemon/99999` |
| `Service.ByNameRun` | pokemon/service.py:72-83 | no request iff the name is all whitespace ("Pokemon name cannot be empty"); otherwise one GET of `/pokemon/{normalised}`, and a 404 reports the normalised name |
| `Service.ByNameUsesNormalizedToken` | pokemon/service.py:74-81 | the lookup depends only on the normalised name: looking up the normalised form gives the same requests and result as the raw input |
| `Service.ByNameNotFoundExample` | pokemon/service.py:72-83 | " PIKACHU " requests `/pokemon/pikachu`, and a 404 gives `Pokemon with name "pikachu" not found` |
| `Service.ListRun` | pokemon/service.py:85-98 | no request iff limit is outside [1, 1000] or offset < 0; the limit error wins when both are bad; otherwise one GET of `/pokemon` with exactly `{limit, offset}` and no 404 remap |
| `Service.EntryName` | pokemon/service.py:112 | `entry["pokemon"]["name"]` succeeds exactly when the entry is an object whose `pokemon` member is an object with a `name`, and returns that name |
| `Service.NamesOf` | pokemon/service.py:112 | succeeds iff every entry has a name; the result then has one name per entry, in order, duplicates kept |
| `Service.NamesOfFirstFailure` | pokemon/service.py:112 | when the comprehension fails, the exception is the first unnamed entry's |
| `Service.PokemonNames` | pokemon/service.py:112 | an absent `pokemon` key gives no names; a non-object payload raises AttributeError; a `pokemon` array gives exactly its entries' names; an empty string or empty object gives no names, and any other non-array value raises TypeError |
| `Service.ByTypeRun` | pokemon/service.py:100-112 | no request iff the type is all whitespace; otherwise one GET of `/type/{normalised}`, a 404 reports the normalised type, and a payload gives its entries' names |
| `Service.ByTypeUsesNormalizedToken` | pokemon/service.py:102-109 | the type lookup depends only on the normalised token |
| `Service.PokeAPIService.constructor` | pokemon/service.py:50-53 | a new service owns a fresh client that has sent nothing and is not closed |
| `Service.PokeAPIService.Close` | pokemon/service.py:55-57 | closes the client once more and sends nothing |
| `Service.PokeAPIService.GetPokemonById` | pokemon/service.py:59-70 | appends exactly `ByIdRun`'s requests to the client's log and returns its result |
| `Service.PokeAPIService.GetPokemonByName` | pokemon/service.py:72-83 | appends exactly `ByNameRun`'s requests and returns its result |
| `Service.PokeAPIService.GetPokemonList` | pokemon/service.py:85-98 | appends exactly `ListRun`'s requests and returns its result |
| `Service.PokeAPIService.GetPokemonByType` | pokemon/service.py:100-112 | appends exactly `ByTypeRun`'s requests and returns its result |
| `Views.ErrorReply` | pokemon/views.py:44-45 | a caught exception becomes status 400 with that exception as detail |
| `Views.Serialized` | pokemon/views.py:49-52 | 200 with the validated data iff the serializer accepts the payload, else 400 with its errors |
| `Views.Respond` | pokemon/views.py:42-52 | status is 200 or 400, and 200 exactly when the service returned a payload the serializer accepts; any service failure is a 400 carrying the exception |
| `Views.RespondNames` | pokemon/views.py:115-122 | 200 with `{"results": names}` holding the service's list unchanged, with no serializer, iff the service succeeded; 400 with the exception otherwise |
| `Views.HealthCheck` | pokemon/views.py:127-128 | always 200 with `{"status": "healthy"}`, and takes no upstream |
| `Views.GetPokemonById` | pokemon/views.py:40-52 | creates one service, closes it exactly once, sends exactly `ByIdRun`'s requests, and replies `Respond` of its result |
| `Views.GetPokemonByName` | pokemon/views.py:60-72 | as above, for `ByNameRun` |
| `Views.GetPokemonList` | pokemon/views.py:90-105 | absent parameters default to limit 20 and offset 0, passed unchanged to `ListRun`; closes exactly once; replies `Respond` of its result |
| `Views.GetPokemonByType` | pokemon/views.py:113-122 | creates one service, closes it exactly once, sends exactly `ByTypeRun`'s requests, and replies `RespondNames` of its result |

## Left out

- Views.ErrorReply: the body holds the caught exception itself, not the `str(exc)` text. That text is formatted by the REST framework library, so the model leaves it opaque.
- The HTTP transport: connection handling, the 30-second timeout, and URL and query encoding. The upstream is an oracle that answers each request with a transport failure or a status and body.
- The optional injected client of `PokeAPIService.__init__`. The handlers never pass one, so the model always creates a fresh client.
- The event-loop plumbing of `run_async`. Each awaited call is one sequential step.
- JSON decoding itself. A body is either a decoded value or undecodable, and numbers are integers.
- `int()` parsing of the `limit`/`offset` query strings. The handler takes the parsed integers, or None when a parameter is absent. A string that is not an integer raises before the `try`, so it escapes the handler instead of becoming a 400. The model does not capture this.
- Non-ASCII case mapping in `str.lower()`. Only `A`-`Z` are lowered. Whitespace covers everything Python's `str.isspace()` accepts.
- Iterating over a non-empty JSON object yields its keys in insertion order. The model only keeps the TypeError that the first key raises, so key order is not modelled.
- The field rules of `pokemon/serializers/core.py` and `pokemon/serializers/list.py`. The handlers take a serializer as a function from payload to accepted data or field errors.
- Routing in `pokemon/urls.py`, the OpenAPI schema annotations, and exception chaining (`raise ... from exc`). None of them affects any result.
