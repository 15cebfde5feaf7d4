/** What the model takes from libraries without looking inside: digests, serialised sizes,
    JSON parsing and JSON Schema validation.  Every theorem holds for every choice of them. */
module Externals {
  import opened Base
  import opened Inference
  import opened JsonValue

  const MAX_REASONING_BYTES := 8 * 1024 * 1024
  const MAX_REASONING_DETAILS := 4096

  /** Private provider reasoning (openrouter_reasoning.rs), never emitted as events. */
  datatype Reasoning = Reasoning(text: string, details: seq<Json>)

  datatype Libraries = Libraries(
    fingerprint: InferenceRequest -> string,
    requestBytes: InferenceRequest -> nat,
    deltaBytes: string -> nat,
    toolCallsBytes: (seq<ToolCall>, Option<string>) -> nat,
    wireBytes: (InferenceRequest, map<nat, Reasoning>, Option<(string, string)>) -> nat,
    reasoningBytes: Reasoning -> nat,
    schemaCompiles: Json -> bool,
    schemaAccepts: (Json, Json) -> bool,
    parse: string -> Option<Json>,
    jsonBytes: Json -> nat,
    catalogDigest: Json -> string)

  predicate ReasoningDetail(value: Json) {
    && value.Obj?
    && var kind := Get(value, "type");
       kind == Str("reasoning.text") || kind == Str("reasoning.summary") || kind == Str("reasoning.encrypted")
  }

  predicate ValidReasoning(lib: Libraries, r: Reasoning) {
    && |r.details| <= MAX_REASONING_DETAILS
    && lib.reasoningBytes(r) <= MAX_REASONING_BYTES
    && forall i :: 0 <= i < |r.details| ==> ReasoningDetail(r.details[i])
  }

  // ----- InferenceSchemas (schema_validation.rs) -----

  predicate Compiles(lib: Libraries, request: InferenceRequest) {
    && Conversation(request) == Pass
    && (forall i :: 0 <= i < |request.tools| ==> lib.schemaCompiles(request.tools[i].parameters))
    && (request.outputSchema.Some? ==> lib.schemaCompiles(request.outputSchema.value))
  }

  predicate ToolCallsMatch(lib: Libraries, request: InferenceRequest, calls: seq<ToolCall>) {
    forall i :: 0 <= i < |calls| ==>
      exists t :: && 0 <= t < |request.tools| && request.tools[t].name == calls[i].name
                  && lib.schemaAccepts(request.tools[t].parameters, calls[i].arguments)
  }

  /** The tool of that name takes the arguments of the call. */
  predicate Takes(lib: Libraries, request: InferenceRequest, call: ToolCall) {
    exists t :: 0 <= t < |request.tools| && request.tools[t].name == call.name
                && lib.schemaAccepts(request.tools[t].parameters, call.arguments)
  }

  lemma TakenAre(lib: Libraries, request: InferenceRequest, calls: seq<ToolCall>)
    ensures ToolCallsMatch(lib, request, calls) <==> forall i :: 0 <= i < |calls| ==> Takes(lib, request, calls[i])
  {
    if ToolCallsMatch(lib, request, calls) {
      forall i | 0 <= i < |calls| ensures Takes(lib, request, calls[i]) {
        var t :| 0 <= t < |request.tools| && request.tools[t].name == calls[i].name
                 && lib.schemaAccepts(request.tools[t].parameters, calls[i].arguments);
      }
    } else {
      var i :| 0 <= i < |calls|
               && !exists t :: && 0 <= t < |request.tools| && request.tools[t].name == calls[i].name
                               && lib.schemaAccepts(request.tools[t].parameters, calls[i].arguments);
      assert !Takes(lib, request, calls[i]);
    }
  }
}
