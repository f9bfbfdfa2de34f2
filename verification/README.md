# core-synapse gateway, modelled in Dafny

core-synapse is a gateway in front of model micro-services. Each backend
(today only `sentiment-analysis`) describes itself with an OpenAPI
document. This project models two parts of the gateway:

* `ModelSpec.from_openapi` (api/src/schema.py). It turns an already parsed
  OpenAPI document into the UI-facing `ModelSpec`. It rejects a document
  with no paths. It selects the `post` operation of the last path whose key
  ends with `infer`, and rejects the document when that selection is empty.
  It derives a display name from the model id and copies the description,
  the operation, the HTTP 200 response and the components.
* The registry and handlers of api/app.py:
  * the URLs of each `CoreSynapseModels` member;
  * the supported-model guard of `calculate`;
  * the failure-isolating loop of `get_models_openapi`, which keeps a
    backend's document only when the request did not raise and the status
    was 200.

Files:

* `wrappers.dfy` (module `Wrappers`): `Option` and `Result`.
* `text.dfy` (module `Text`): the ASCII versions of the Python string
  operations used: `endswith`, single-character `replace`, and `title`.
  `title` is written as CPython's one-pass loop (`TitleFrom`, with a
  "previous character was cased" flag). Its per-position meaning is then
  proved as `TitleAt`.
* `openapi.dfy` (module `OpenApi`): the schema records and the normaliser.
  The document's `paths` is a `seq<(string, Path)>`, so mapping order is
  kept. The normaliser is modelled twice:
  * `ModelSpecOf` is the pure function that returns
    `Result<ModelSpec, SchemaError>`;
  * the method `FromOpenapi` has the source's `for` loop, which reassigns
    `operation`, and is proved equal to `ModelSpecOf`.
* `gateway.dfy` (module `Gateway`): the enum, the URLs, `calculate` and
  `get_models_openapi`. The network is an input:
  * a fetch is a function from the model to an `Outcome`, either `Raised`
    or `Status(code, body)`;
  * a body is either decoded JSON or text that `res.json()` cannot decode.

Facts about the code that the model keeps:

* `from_openapi` tests the suffix `infer`, so a key such as `/xinfer`
  matches too (api/src/schema.py:79).
* The aggregation stores each backend's raw decoded document, not a
  normalised spec (api/app.py:55).
* `calculate` returns the backend's decoded body with status 200 and does
  not pass on the backend's status code (api/app.py:41-42).
* In the aggregation, a body that cannot be decoded is not isolated (see
  Findings).

## Model

| member | source | states |
|---|---|---|
| `Text.ReplaceChar` | api/src/schema.py:90 | `replace("-", " ")`: same length; every `-` becomes a space; every other character is kept; no `-` remains |
| `Text.TitleAt` | api/src/schema.py:90 | at each position, `title()` upper-cases a letter that starts the string or follows a non-letter, lower-cases any other letter, and keeps every non-letter |
| `Text.TitleKeepsShape` | api/src/schema.py:90 | `title()` keeps non-letters in place, keeps letters as letters and changes only their case |
| `Text.TitleKeepsNonLetter` | api/src/schema.py:90 | a non-letter (such as `-`) occurs in the title-cased string exactly when it occurs in the input |
| `Text.TitleIdempotent` | api/src/schema.py:90 | title-casing twice gives the same string as title-casing once |
| `OpenApi.SelectedOperation` | api/src/schema.py:77-81 | a selected operation is the `post` of some path whose key ends with `infer` |
| `OpenApi.SelectedIsLastMatch` | api/src/schema.py:77-81 | the last path in mapping order whose key ends with `infer` decides the selection; its `post` is selected, even when that is None |
| `OpenApi.NoInferPathSelectsNothing` | api/src/schema.py:77-81 | with no key ending in `infer`, the selection stays None |
| `OpenApi.OkResponse` | api/src/schema.py:93 | `responses.get(200)`: the 200 entry when present, None otherwise |
| `OpenApi.DisplayName` | api/src/schema.py:90 | the name has the length of the model id and contains no `-`; each character equals the id's character, ignoring case, with `-` read as a space |
| `OpenApi.ModelSpecOf` | api/src/schema.py:71-95 | empty paths raise the "paths is empty" error; otherwise a spec is built exactly when an operation is selected, and the "expected endpoint not found" error is raised when none is; a built spec has `id` = model id, the derived name, the selected operation and its description, the 200 response, and the document's components |
| `OpenApi.FromOpenapi` | api/src/schema.py:71-95 | the loop-based normaliser returns exactly `ModelSpecOf`; its invariant is that after each path the local `operation` is the selection over the paths seen so far |
| `OpenApi.NoInferPathRejected` | api/src/schema.py:77-86 | a non-empty document with no key ending in `infer` is rejected with "expected endpoint not found" |
| `OpenApi.PostlessLastMatchRejected` | api/src/schema.py:78-86 | if the last `infer` path has no `post`, the document is rejected, whatever earlier `infer` paths hold |
| `OpenApi.InferPaths` | api/src/schema.py:79-80 | the paths kept by the `continue` filter: a path is kept exactly when it is in the input and its key ends with `infer` |
| `OpenApi.InferPathsConcat` | api/src/schema.py:78-80 | the filter keeps document order: filtering a concatenation gives the filtered parts, concatenated |
| `OpenApi.InferPathsSingle` | api/src/schema.py:79-80 | a single path is kept exactly when its key ends with `infer` |
| `OpenApi.InferPathsSelectTheSame` | api/src/schema.py:78-81 | dropping every path whose key does not end with `infer` leaves the selection unchanged |
| `OpenApi.NonInferPathsIrrelevant` | api/src/schema.py:72-95 | dropping the non-`infer` paths gives the same spec; if some `infer` path is left, even the error is the same |
| `OpenApi.InsertedNonInferPathIrrelevant` | api/src/schema.py:79-80 | inserting a non-`infer` path at any position leaves the selection unchanged |
| `Gateway.ModelOf` | api/app.py:15-16 | parsing a string into a `CoreSynapseModels` member yields a member whose value is that string, or none when no member has it |
| `Gateway.ValueRoundTrip` | api/app.py:15-16 | a member's string value parses back to that member |
| `Gateway.BaseUrl` | api/app.py:18-20 | the base URL is `http://core-synapse-`, then the member's value, then `:5000/` |
| `Gateway.RouteUrls` | api/app.py:22-32 | the infer, health and openapi URLs each start with the base URL, followed by `infer`, `health` and `openapi.json` |
| `Gateway.BaseUrlDeterminesValue` | api/app.py:18-20 | the base URL template is injective: two string values that give the same base URL are equal, so with `ValueRoundTrip` different members get different addresses |
| `Gateway.Calculate` | api/app.py:35-42 | a backend is called only when the body is a JSON object (`input_data: dict`) and the key is an enum member listed in `SUPPORTED_MODELS`; a non-object body or a non-member key gets the framework's 422, and an unsupported member gets 400 with its detail, all without any call; otherwise there is exactly one POST of the input to the member's infer URL, and the decoded body is relayed, or 500 if the call raises or the body is not JSON |
| `Gateway.EveryModelSupported` | api/app.py:12-16 | with the current constants, a key is an enum member exactly when it is in `SUPPORTED_MODELS` |
| `Gateway.OpenapiUrls` | api/app.py:48-50 | the URLs fetched for a list of models: each model's openapi URL, in order |
| `Gateway.GetModelsOpenapi` | api/app.py:45-57 | it raises exactly when some member answers 200 with a body that is not JSON, after fetching the members up to and including the first such one; otherwise it fetches every member's openapi URL in enum order, and a member is a key exactly when its fetch did not raise and returned 200, with the decoded body as value |
| `Gateway.NonJsonOkBodyRaises` | api/app.py:49-55 | if the backend answers 200 with a body that is not JSON, the aggregation as written raises |
| `Gateway.GetModelsOpenapiIsolated` | api/app.py:47-57 | the corrected aggregation always returns a map; it fetches every member in enum order and keeps exactly the members whose fetch did not raise and returned 200 with a JSON body |

## Left out

- Pydantic parsing and validation are not modelled. This covers the field aliases `$ref`, `in` and `schema`, required-field checks, and the coercion of response keys to `int`. The records are the already validated shapes. The field `type` is renamed `typeName` because `type` is a Dafny keyword; `enum` and `given_in` are renamed `enumValues` and `givenIn` only for readability.
- The `paths` of a parsed document come from a Python `dict`, so their keys are distinct. The model does not require this; no property depends on it.
- `Text.Title`: only ASCII letters count as cased. Python's `str.title` also changes non-ASCII cased characters, and can change a string's length (for example `ß`). Non-ASCII characters are kept unchanged here.
- HTTP I/O is not modelled: the `requests` calls, JSON decoding and the FastAPI decorators. A call's outcome is an input, a body is either decoded JSON or undecodable, and JSON numbers are integers only.
- `Gateway.Calculate`: the framework's 422 answer for a path value outside the enum or a body that is not a JSON object is modelled without its response body.
- The `/health` handler is not modelled. It returns a fixed message and has no logic.
- The logging setup (api/src/log.py) and the environment settings (api/src/config.py) are not modelled. They are process configuration and are not read by the modelled code.
- The UI (ui/app.py), the backend stubs under models/ and demo/demo.py are not modelled. They are templating, constant-returning services and a client script.
- The code has no request proxying, no `$ref` resolution and no per-field request normalisation, so none of these is modelled.

## Findings

| source | as written | input that shows it | evidently intended | confidence | as-written member | corrected member |
|---|---|---|---|---|---|---|
| api/app.py:49-55 | only `requests.get` is inside the `try`; `res.json()` runs outside it, so a 200 response whose body is not JSON raises out of the handler and no map is returned | the `sentiment-analysis` backend answers 200 with a non-JSON body | a failure concerning one backend skips only that backend, and the handler always returns a map | medium, not executed | `Gateway.NonJsonOkBodyRaises` | `Gateway.GetModelsOpenapiIsolated` |
