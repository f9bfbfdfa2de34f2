/** The OpenAPI records of api/src/schema.py, already parsed and validated,
    and `ModelSpec.from_openapi`, which turns a model's OpenAPI document
    into the UI-facing model specification. */
module OpenApi {
  import opened Wrappers
  import opened Text

  datatype Info = Info(title: string, version: string)

  datatype Schema = Schema(
    ref: Option<string>,
    typeName: Option<string>,
    title: Option<string>,
    enumValues: Option<seq<string>>)

  datatype Parameter = Parameter(name: string, givenIn: string, required: bool, dtype: Schema)

  datatype Content = Content(dtype: Schema)

  datatype RequestBody = RequestBody(required: bool, content: map<string, Content>)

  datatype Response = Response(description: string, content: map<string, Content>)

  datatype Operation = Operation(
    operationId: string,
    summary: string,
    description: string,
    parameters: seq<Parameter>,
    requestBody: RequestBody,
    responses: map<int, Response>)

  datatype Path = Path(post: Option<Operation>)

  datatype Components = Components(schemas: map<string, Schema>)

  /** `paths` keeps the order of the document's mapping. */
  datatype OpenApiJson = OpenApiJson(
    openapi: string,
    info: Info,
    paths: seq<(string, Path)>,
    components: Components)

  datatype ModelSpec = ModelSpec(
    id: string,
    name: string,
    description: string,
    operation: Operation,
    response: Option<Response>,
    components: Components)

  /** The two `ValueError`s `from_openapi` raises. */
  datatype SchemaError = EmptyPaths | ExpectedEndpointNotFound
  {
    function Message(): string
    {
      match this
      case EmptyPaths => "Cannot create model spec from OpenAPI json, paths is empty"
      case ExpectedEndpointNotFound => "Cannot create model spec from OpenAPI json, expected endpoint not found"
    }
  }

  const InferSuffix := "infer"
  const OkStatus := 200

  predicate IsInferPath(key: string)
  {
    EndsWith(key, InferSuffix)
  }

  /** The operation the selection loop ends with: the `post` of the last
      path, in document order, whose key ends with "infer"; `None` when there
      is no such path. */
  function SelectedOperation(paths: seq<(string, Path)>): (r: Option<Operation>)
    ensures r.Some? ==> exists i :: 0 <= i < |paths| && IsInferPath(paths[i].0) && paths[i].1.post == r
  {
    if paths == [] then None
    else
      var last := paths[|paths| - 1];
      if IsInferPath(last.0) then last.1.post
      else
        var r := SelectedOperation(paths[..|paths| - 1]);
        assert r.Some? ==> exists i :: 0 <= i < |paths| - 1 && IsInferPath(paths[i].0) && paths[i].1.post == r;
        r
  }

  /** `operation.responses.get(200)` */
  function OkResponse(operation: Operation): (r: Option<Response>)
    ensures r.Some? <==> OkStatus in operation.responses
    ensures r.Some? ==> r.value == operation.responses[OkStatus]
  {
    if OkStatus in operation.responses then Some(operation.responses[OkStatus]) else None
  }

  /** The display name: `model_id.replace("-", " ").title()`. */
  function DisplayName(modelId: string): (r: string)
    ensures |r| == |modelId|
    ensures '-' !in r
    ensures forall i :: 0 <= i < |r| ==> ToLower(r[i]) == ToLower(if modelId[i] == '-' then ' ' else modelId[i])
  {
    var spaced := ReplaceChar(modelId, '-', ' ');
    TitleKeepsNonLetter(spaced, '-');
    TitleKeepsShape(spaced);
    Title(spaced)
  }

  /** What `ModelSpec.from_openapi(model_id, openapi)` returns or raises. */
  function ModelSpecOf(modelId: string, openapi: OpenApiJson): (r: Result<ModelSpec, SchemaError>)
    ensures |openapi.paths| == 0 ==> r == Err(EmptyPaths)
    ensures r.Ok? <==> |openapi.paths| > 0 && SelectedOperation(openapi.paths).Some?
    ensures r.Err? && |openapi.paths| > 0 ==> r.error == ExpectedEndpointNotFound
    ensures r.Ok? ==> && r.value.id == modelId
                      && r.value.name == DisplayName(modelId)
                      && r.value.operation == SelectedOperation(openapi.paths).value
                      && r.value.description == r.value.operation.description
                      && r.value.response == OkResponse(r.value.operation)
                      && r.value.components == openapi.components
  {
    if |openapi.paths| == 0 then Err(EmptyPaths)
    else match SelectedOperation(openapi.paths)
      case None => Err(ExpectedEndpointNotFound)
      case Some(operation) =>
        Ok(ModelSpec(
          id := modelId,
          name := DisplayName(modelId),
          description := operation.description,
          operation := operation,
          response := OkResponse(operation),
          components := openapi.components))
  }

  /** `ModelSpec.from_openapi`, with its selection loop over the paths. */
  method FromOpenapi(modelId: string, openapi: OpenApiJson) returns (r: Result<ModelSpec, SchemaError>)
    ensures r == ModelSpecOf(modelId, openapi)
  {
    if |openapi.paths| == 0 {
      return Err(EmptyPaths);
    }
    var operation: Option<Operation> := None;
    for i := 0 to |openapi.paths|
      invariant operation == SelectedOperation(openapi.paths[..i])
    {
      var (pathstr, path) := openapi.paths[i];
      assert openapi.paths[..i + 1][..i] == openapi.paths[..i];
      if !IsInferPath(pathstr) {
        continue;
      }
      operation := path.post;
    }
    assert openapi.paths[..|openapi.paths|] == openapi.paths;
    if operation.None? {
      return Err(ExpectedEndpointNotFound);
    }
    var op := operation.value;
    r := Ok(ModelSpec(
      id := modelId,
      name := DisplayName(modelId),
      description := op.description,
      operation := op,
      response := OkResponse(op),
      components := openapi.components));
  }

  // ----- Properties of the selection -----

  /** The last path whose key ends with "infer" decides the selection. */
  lemma {:induction false} SelectedIsLastMatch(paths: seq<(string, Path)>, i: nat)
    requires i < |paths| && IsInferPath(paths[i].0)
    requires forall j :: i < j < |paths| ==> !IsInferPath(paths[j].0)
    ensures SelectedOperation(paths) == paths[i].1.post
    decreases |paths|
  {
    if i < |paths| - 1 {
      var prefix := paths[..|paths| - 1];
      assert prefix[i] == paths[i];
      SelectedIsLastMatch(prefix, i);
    }
  }

  /** Without a path ending in "infer" nothing is selected. */
  lemma NoInferPathSelectsNothing(paths: seq<(string, Path)>)
    requires forall j :: 0 <= j < |paths| ==> !IsInferPath(paths[j].0)
    ensures SelectedOperation(paths) == None
  {
  }

  /** A document with paths but none ending in "infer" is rejected. */
  lemma NoInferPathRejected(modelId: string, openapi: OpenApiJson)
    requires |openapi.paths| > 0
    requires forall j :: 0 <= j < |openapi.paths| ==> !IsInferPath(openapi.paths[j].0)
    ensures ModelSpecOf(modelId, openapi) == Err(ExpectedEndpointNotFound)
  {
  }

  /** A later "infer" path without a `post` resets the selection, so the
      document is rejected even when an earlier "infer" path had one. */
  lemma PostlessLastMatchRejected(modelId: string, openapi: OpenApiJson, i: nat)
    requires i < |openapi.paths| && IsInferPath(openapi.paths[i].0)
    requires openapi.paths[i].1.post.None?
    requires forall j :: i < j < |openapi.paths| ==> !IsInferPath(openapi.paths[j].0)
    ensures ModelSpecOf(modelId, openapi) == Err(ExpectedEndpointNotFound)
  {
    SelectedIsLastMatch(openapi.paths, i);
  }

  /** The paths whose key ends with "infer", in document order. */
  function InferPaths(paths: seq<(string, Path)>): (r: seq<(string, Path)>)
    ensures |r| <= |paths|
    ensures forall p :: p in r <==> p in paths && IsInferPath(p.0)
  {
    if paths == [] then []
    else
      var last := paths[|paths| - 1];
      var front := InferPaths(paths[..|paths| - 1]);
      if IsInferPath(last.0) then front + [last] else front
  }

  /** The filter keeps document order: filtering a concatenation is
      concatenating the filtered parts. */
  lemma {:induction false} InferPathsConcat(a: seq<(string, Path)>, b: seq<(string, Path)>)
    ensures InferPaths(a + b) == InferPaths(a) + InferPaths(b)
    decreases |b|
  {
    if b == [] {
      assert a + b == a;
    } else {
      var front := b[..|b| - 1];
      assert (a + b)[..|a + b| - 1] == a + front;
      assert (a + b)[|a + b| - 1] == b[|b| - 1];
      InferPathsConcat(a, front);
    }
  }

  /** A single path is kept exactly when its key ends with "infer". */
  lemma InferPathsSingle(p: (string, Path))
    ensures InferPaths([p]) == if IsInferPath(p.0) then [p] else []
  {
  }

  /** Dropping every path whose key does not end with "infer" leaves the
      selection unchanged. */
  lemma {:induction false} InferPathsSelectTheSame(paths: seq<(string, Path)>)
    ensures SelectedOperation(InferPaths(paths)) == SelectedOperation(paths)
    decreases |paths|
  {
    if paths != [] {
      var front := paths[..|paths| - 1];
      InferPathsSelectTheSame(front);
      var last := paths[|paths| - 1];
      if IsInferPath(last.0) {
        var f := InferPaths(front) + [last];
        assert f[..|f| - 1] == InferPaths(front);
      }
    }
  }

  /** Paths whose key does not end with "infer" never affect the model
      spec: removing them keeps the result, except that a document left
      with no paths at all is rejected as empty instead of as lacking the
      endpoint. */
  lemma NonInferPathsIrrelevant(modelId: string, openapi: OpenApiJson)
    ensures var filtered := ModelSpecOf(modelId, openapi.(paths := InferPaths(openapi.paths)));
            var original := ModelSpecOf(modelId, openapi);
            && filtered.Ok? == original.Ok?
            && (filtered.Ok? ==> filtered.value == original.value)
            && (InferPaths(openapi.paths) != [] ==> filtered == original)
  {
    InferPathsSelectTheSame(openapi.paths);
  }

  /** Inserting a path whose key does not end with "infer" anywhere in the
      document leaves the selection unchanged. */
  lemma {:induction false} InsertedNonInferPathIrrelevant(
    paths: seq<(string, Path)>, key: string, path: Path, at: nat)
    requires at <= |paths| && !IsInferPath(key)
    ensures SelectedOperation(paths[..at] + [(key, path)] + paths[at..]) == SelectedOperation(paths)
    decreases |paths|
  {
    var grown := paths[..at] + [(key, path)] + paths[at..];
    if at == |paths| {
      assert grown[..|grown| - 1] == paths;
    } else {
      var front := paths[..|paths| - 1];
      assert grown[|grown| - 1] == paths[|paths| - 1];
      assert grown[..|grown| - 1] == front[..at] + [(key, path)] + front[at..];
      InsertedNonInferPathIrrelevant(front, key, path, at);
    }
  }
}
