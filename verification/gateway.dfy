/** The gateway of api/app.py: the registry of backend models with their
    URLs, the supported-model guard of `calculate`, and the aggregation of
    every backend's OpenAPI document in `get_models_openapi`. HTTP calls
    are inputs: a function from the request to its outcome. */
module Gateway {
  import opened Wrappers

  /** A decoded JSON value, as `res.json()` returns it. */
  datatype Json =
    | Null
    | Bool(b: bool)
    | Number(n: int)
    | Str(s: string)
    | Array(items: seq<Json>)
    | Object(fields: seq<(string, Json)>)

  /** A response body: JSON, or text that `res.json()` fails to decode. */
  datatype Body = JsonBody(json: Json) | NotJson

  /** What an HTTP call does: `requests` raises a `RequestException`, or the
      backend answers with a status code and a body. */
  datatype Outcome = Raised | Status(code: int, body: Body)

  // ----- Registry -----

  /** The members of `CoreSynapseModels`. */
  datatype Model = SentimentAnalysis

  /** All members, in declaration order (the order `for model in
      CoreSynapseModels` visits them). */
  const AllModels: seq<Model> := [SentimentAnalysis]

  /** `SUPPORTED_MODELS` */
  const SupportedModels: seq<string> := ["sentiment-analysis"]

  /** The string value of a member (`str(model)` for a `StrEnum`). */
  function Value(m: Model): string
  {
    match m
    case SentimentAnalysis => "sentiment-analysis"
  }

  /** `CoreSynapseModels(s)`: the member whose value is `s`, if any. */
  function ModelOf(s: string): (r: Option<Model>)
    ensures r.Some? ==> Value(r.value) == s
    ensures r.None? ==> forall m :: Value(m) != s
  {
    if s == "sentiment-analysis" then Some(SentimentAnalysis) else None
  }

  /** Converting a member to its value and back gives the member. */
  lemma ValueRoundTrip(m: Model)
    ensures ModelOf(Value(m)) == Some(m)
  {
  }

  const UrlPrefix := "http://core-synapse-"
  const UrlPort := ":5000/"

  /** `base_url` */
  function BaseUrl(m: Model): (r: string)
    ensures |r| == |UrlPrefix| + |Value(m)| + |UrlPort|
    ensures r[..|UrlPrefix|] == UrlPrefix
    ensures r[|UrlPrefix|..|UrlPrefix| + |Value(m)|] == Value(m)
    ensures r[|UrlPrefix| + |Value(m)|..] == UrlPort
  {
    UrlPrefix + Value(m) + UrlPort
  }

  /** `infer_url`, `health_url` and `openapi_url`: the base URL followed by
      a route. */
  function InferUrl(m: Model): string { BaseUrl(m) + "infer" }
  function HealthUrl(m: Model): string { BaseUrl(m) + "health" }
  function OpenapiUrl(m: Model): string { BaseUrl(m) + "openapi.json" }

  /** Each derived URL starts with the base URL, and what follows it is the
      route. */
  lemma RouteUrls(m: Model)
    ensures var base := BaseUrl(m);
            && InferUrl(m)[..|base|] == base && InferUrl(m)[|base|..] == "infer"
            && HealthUrl(m)[..|base|] == base && HealthUrl(m)[|base|..] == "health"
            && OpenapiUrl(m)[..|base|] == base && OpenapiUrl(m)[|base|..] == "openapi.json"
  {
  }

  /** The base URL template determines the member's value: two values
      that give the same base URL are equal. Since a value also determines
      its member (`ValueRoundTrip`), every backend is reached at its own
      address. */
  lemma BaseUrlDeterminesValue(v1: string, v2: string)
    requires UrlPrefix + v1 + UrlPort == UrlPrefix + v2 + UrlPort
    ensures v1 == v2
  {
    var n := |UrlPrefix|;
    var u1, u2 := UrlPrefix + v1 + UrlPort, UrlPrefix + v2 + UrlPort;
    assert |v1| == |v2|;
    assert v1 == u1[n..n + |v1|];
    assert v2 == u2[n..n + |v2|];
  }

  // ----- calculate -----

  /** A POST the gateway sends to a backend. */
  datatype Call = Post(url: string, payload: Json)

  /** What the gateway answers: the relayed JSON body with status 200, an
      `HTTPException`, the framework's 422 for a path parameter outside the
      enum, or a 500 for an exception the handler does not catch. */
  datatype Reply =
    | Relayed(body: Json)
    | HttpError(status: int, detail: string)
    | Unprocessable
    | ServerError

  /** A handled request: the reply and the calls made to backends, in order. */
  datatype Handled = Handled(reply: Reply, calls: seq<Call>)

  function UnsupportedDetail(modelKey: string): string
  {
    modelKey + " is not a supported core-synapse model"
  }

  /** `POST /calculate/{model_key}`. The path parameter is typed
      `CoreSynapseModels` and the body `dict`, so a key outside the enum or
      a body that is not a JSON object is refused with 422 before the
      handler runs; a member not in `SUPPORTED_MODELS` is refused with 400;
      otherwise the input is posted to the member's infer URL and the
      decoded response body is returned, whatever its status. */
  function Calculate(inputData: Json, modelKey: string, post: Call -> Outcome): (h: Handled)
    ensures h.calls != [] <==> inputData.Object? && ModelOf(modelKey).Some? && modelKey in SupportedModels
    ensures ModelOf(modelKey).None? || !inputData.Object? ==> h.reply == Unprocessable
    ensures inputData.Object? && ModelOf(modelKey).Some? && modelKey !in SupportedModels
            ==> h.reply == HttpError(400, UnsupportedDetail(modelKey))
    ensures h.calls != [] ==> h.calls == [Post(InferUrl(ModelOf(modelKey).value), inputData)]
    ensures h.calls != [] ==>
              match post(h.calls[0])
              case Status(_, JsonBody(json)) => h.reply == Relayed(json)
              case _ => h.reply == ServerError
  {
    if !inputData.Object? then Handled(Unprocessable, [])
    else match ModelOf(modelKey)
    case None => Handled(Unprocessable, [])
    case Some(model) =>
      if Value(model) !in SupportedModels then
        Handled(HttpError(400, UnsupportedDetail(Value(model))), [])
      else
        var call := Post(InferUrl(model), inputData);
        match post(call)
        case Raised => Handled(ServerError, [call])
        case Status(_, NotJson) => Handled(ServerError, [call])
        case Status(_, JsonBody(json)) => Handled(Relayed(json), [call])
  }

  /** Every member is currently supported, so with the present constants
      the 400 branch of `calculate` is never taken: the keys that are
      forwarded are exactly the members' values. */
  lemma EveryModelSupported(modelKey: string)
    ensures ModelOf(modelKey).Some? <==> modelKey in SupportedModels
  {
  }

  // ----- get_models_openapi -----

  /** A fetch that yields an entry: no exception, status 200, JSON body. */
  predicate Kept(o: Outcome)
  {
    o.Status? && o.code == 200 && o.body.JsonBody?
  }

  /** A fetch whose `res.json()` raises: status 200 with a body that is not
      JSON. The call sits outside the `try`, so the exception escapes. */
  predicate Escapes(o: Outcome)
  {
    o.Status? && o.code == 200 && o.body.NotJson?
  }

  /** The URLs requested for `models`, in order. */
  function OpenapiUrls(models: seq<Model>): (r: seq<string>)
    ensures |r| == |models|
    ensures forall i :: 0 <= i < |models| ==> r[i] == OpenapiUrl(models[i])
  {
    seq(|models|, i requires 0 <= i < |models| => OpenapiUrl(models[i]))
  }

  /** The aggregation raises when some member's fetch escapes. */
  predicate AggregationRaises(fetch: Model -> Outcome)
  {
    exists m :: m in AllModels && Escapes(fetch(m))
  }

  /** `GET /models/openapi` as written: fetches every member's OpenAPI
      document in enum order, skipping a member whose request raises or
      whose status is not 200. The result is `None` when `res.json()`
      raises, which ends the handler at that member. */
  method GetModelsOpenapi(fetch: Model -> Outcome)
    returns (specs: Option<map<Model, Json>>, requested: seq<string>)
    ensures specs.None? <==> AggregationRaises(fetch)
    ensures specs.Some? ==> requested == OpenapiUrls(AllModels)
    ensures specs.Some? ==> forall m :: m in specs.value <==> m in AllModels && Kept(fetch(m))
    ensures specs.Some? ==> forall m :: m in specs.value ==> Kept(fetch(m)) && specs.value[m] == fetch(m).body.json
    ensures specs.None? ==>
              exists k :: && 0 <= k < |AllModels|
                          && Escapes(fetch(AllModels[k]))
                          && (forall m :: m in AllModels[..k] ==> !Escapes(fetch(m)))
                          && requested == OpenapiUrls(AllModels[..k + 1])
  {
    var result: map<Model, Json> := map[];
    requested := [];
    for i := 0 to |AllModels|
      invariant requested == OpenapiUrls(AllModels[..i])
      invariant forall m :: m in AllModels[..i] ==> !Escapes(fetch(m))
      invariant forall m :: m in result <==> m in AllModels[..i] && Kept(fetch(m))
      invariant forall m :: m in result ==> result[m] == fetch(m).body.json
    {
      var model := AllModels[i];
      requested := requested + [OpenapiUrl(model)];
      assert requested == OpenapiUrls(AllModels[..i + 1]);
      assert AllModels[..i + 1] == AllModels[..i] + [model];
      var res := fetch(model);
      if res.Raised? {
        continue;
      }
      if res.code == 200 {
        if res.body.NotJson? {
          return None, requested;
        }
        result := result[model := res.body.json];
      }
    }
    assert AllModels[..|AllModels|] == AllModels;
    specs := Some(result);
  }

  /** `GET /models/openapi` with every per-model failure isolated,
      including a body that is not JSON: it always returns a map. */
  method GetModelsOpenapiIsolated(fetch: Model -> Outcome)
    returns (specs: map<Model, Json>, requested: seq<string>)
    ensures requested == OpenapiUrls(AllModels)
    ensures forall m :: m in specs <==> m in AllModels && Kept(fetch(m))
    ensures forall m :: m in specs ==> Kept(fetch(m)) && specs[m] == fetch(m).body.json
  {
    specs := map[];
    requested := [];
    for i := 0 to |AllModels|
      invariant requested == OpenapiUrls(AllModels[..i])
      invariant forall m :: m in specs <==> m in AllModels[..i] && Kept(fetch(m))
      invariant forall m :: m in specs ==> specs[m] == fetch(m).body.json
    {
      var model := AllModels[i];
      requested := requested + [OpenapiUrl(model)];
      assert requested == OpenapiUrls(AllModels[..i + 1]);
      assert AllModels[..i + 1] == AllModels[..i] + [model];
      var res := fetch(model);
      if res.Raised? {
        continue;
      }
      if res.code == 200 && res.body.JsonBody? {
        specs := specs[model := res.body.json];
      }
    }
    assert AllModels[..|AllModels|] == AllModels;
  }

  /** A backend that answers 200 with a body that is not JSON makes the
      aggregation as written raise, so no map is returned at all. */
  lemma NonJsonOkBodyRaises(fetch: Model -> Outcome)
    requires fetch(SentimentAnalysis) == Status(200, NotJson)
    ensures AggregationRaises(fetch)
  {
  }
}
