/** A complete provider turn, validated before it can supply terminal evidence
    (ai-runtime/src/openrouter_output.rs, openrouter_reasoning.rs). */
module Outputs {
  import opened Base
  import opened Externals
  import opened Inference
  import opened JsonValue
  import opened Streams

  const MAX_OUTPUT_BYTES := 8 * 1024 * 1024
  const MAX_PARALLEL := 128

  datatype Fragments = Fragments(id: Option<string>, name: string, arguments: string)

  /** What has been put together from the frames so far. */
  datatype Output = Output(
    text: string, tools: map<nat, Fragments>, reasoning: Reasoning, finishReason: Option<string>,
    generationId: Option<string>, usage: Option<Json>, receivedBytes: nat)

  const NO_REASONING := Reasoning("", [])
  const NO_OUTPUT := Output("", map[], NO_REASONING, None, None, None, 0)

  datatype DecodedTurn = DecodedTurn(
    text: string, calls: seq<ToolCall>, reasoning: Option<Reasoning>, generationId: string, usage: Json)

  // ----- private reasoning -----

  function AppendReasoningText(text: string, delta: Json): Result<string, RuntimeError> {
    var plain, content := Present(delta, "reasoning"), Present(delta, "reasoning_content");
    if plain.None? && content.None? then Ok(text)
    else if plain.Some? && content.Some? then Err(Protocol)
    else
      var piece := if plain.Some? then plain.value else content.value;
      if !piece.Str? || |text| + |piece.chars| > MAX_REASONING_BYTES then Err(Protocol) else Ok(text + piece.chars)
  }

  function AppendReasoningDetails(details: seq<Json>, delta: Json): Result<seq<Json>, RuntimeError> {
    var more := Present(delta, "reasoning_details");
    if more.None? then Ok(details)
    else if !more.value.Arr? || |details| + |more.value.items| > MAX_REASONING_DETAILS then Err(Protocol)
    else if exists i :: 0 <= i < |more.value.items| && !ReasoningDetail(more.value.items[i]) then Err(Protocol)
    else Ok(details + more.value.items)
  }

  function AppendReasoning(lib: Libraries, reasoning: Reasoning, delta: Json): Result<Reasoning, RuntimeError> {
    var text :- AppendReasoningText(reasoning.text, delta);
    var details :- AppendReasoningDetails(reasoning.details, delta);
    if ValidReasoning(lib, Reasoning(text, details)) then Ok(Reasoning(text, details)) else Err(Protocol)
  }

  // ----- tool fragments -----

  function AppendId(fragment: Fragments, call: Json): Result<Fragments, RuntimeError> {
    var id := Present(call, "id");
    if id.None? then Ok(fragment)
    else if !id.value.Str? || !(0 < |id.value.chars| <= 256) then Err(Protocol)
    else if fragment.id.Some? && fragment.id.value != id.value.chars then Err(Protocol)
    else Ok(fragment.(id := Some(id.value.chars)))
  }

  function AppendField(destination: string, holder: Json, field: string): Result<string, RuntimeError> {
    var value := Present(holder, field);
    if value.None? then Ok(destination)
    else if !value.value.Str? then Err(Protocol) else Ok(destination + value.value.chars)
  }

  function AppendFunction(fragment: Fragments, call: Json): Result<Fragments, RuntimeError> {
    var callee := Present(call, "function");
    if callee.None? then Ok(fragment)
    else
      :- Guard(callee.value.Obj?, Protocol);
      var name :- AppendField(fragment.name, callee.value, "name");
      var arguments :- AppendField(fragment.arguments, callee.value, "arguments");
      if |name| > 256 then Err(Protocol) else Ok(fragment.(name := name, arguments := arguments))
  }

  function AppendTool(tools: map<nat, Fragments>, call: Json): Result<map<nat, Fragments>, RuntimeError> {
    var index := AsU64(Get(call, "index"));
    :- Guard(index.Some? && index.value < MAX_PARALLEL, Protocol);
    var kind := Present(call, "type");
    :- Guard(kind.Some? ==> kind.value == Str("function"), Protocol);
    var fragment := if index.value in tools then tools[index.value] else Fragments(None, "", "");
    var identified :- AppendId(fragment, call);
    var appended :- AppendFunction(identified, call);
    Ok(tools[index.value := appended])
  }

  function AppendTools(tools: map<nat, Fragments>, calls: seq<Json>): Result<map<nat, Fragments>, RuntimeError> {
    if calls == [] then Ok(tools)
    else
      var before :- AppendTools(tools, calls[..|calls| - 1]);
      AppendTool(before, calls[|calls| - 1])
  }

  // ----- one frame -----

  predicate KnownKey(key: string) {
    || key == "role" || key == "content" || key == "tool_calls" || key == "reasoning"
    || key == "reasoning_content" || key == "reasoning_details"
  }

  predicate KnownDelta(delta: Json) {
    && delta.Obj?
    && (forall key :: key in delta.fields ==> KnownKey(key))
    && (Present(delta, "role").Some? ==> Present(delta, "role").value == Str("assistant"))
  }

  /** The visible text of one delta, after its private and tool parts were put aside. */
  function AbsorbDelta(lib: Libraries, o: Output, delta: Json): Result<(Output, seq<string>), RuntimeError> {
    if !KnownDelta(delta) || o.receivedBytes + lib.jsonBytes(delta) > MAX_OUTPUT_BYTES then Err(Protocol)
    else
      var reasoning :- AppendReasoning(lib, o.reasoning, delta);
      var content := Present(delta, "content");
      :- Guard(content.Some? ==> content.value.Str?, Protocol);
      var text := if content.Some? then content.value.chars else "";
      var calls := Present(delta, "tool_calls");
      :- Guard(calls.Some? ==> calls.value.Arr?, Protocol);
      var tools :- AppendTools(o.tools, if calls.Some? then calls.value.items else []);
      Ok((o.(text := o.text + text, tools := tools, reasoning := reasoning,
             receivedBytes := o.receivedBytes + lib.jsonBytes(delta)),
          if text == "" then [] else [text]))
  }

  function Headed(o: Output, value: Json): Output {
    o.(generationId := AsString(Get(value, "id")),
       usage := if Present(value, "usage").Some? then Present(value, "usage") else o.usage)
  }

  function Reasoned(o: Output, choice: Json): Output {
    var reason := AsString(Get(choice, "finish_reason"));
    if reason.Some? then o.(finishReason := reason) else o
  }

  function Absorb(lib: Libraries, o: Output, frame: Frame): Result<(Output, seq<string>), RuntimeError> {
    if frame.Done? then Ok((o, []))
    else
      var value, head := frame.value, Headed(o, frame.value);
      var choices := Get(value, "choices");
      if !choices.Arr? || choices.items == [] then Ok((head, []))
      else AbsorbDelta(lib, Reasoned(head, choices.items[0]), Get(choices.items[0], "delta"))
  }

  function AbsorbAll(lib: Libraries, o: Output, frames: seq<Frame>): Result<(Output, seq<string>), RuntimeError> {
    if frames == [] then Ok((o, []))
    else
      var (before, visible) :- AbsorbAll(lib, o, frames[..|frames| - 1]);
      var (after, more) :- Absorb(lib, before, frames[|frames| - 1]);
      Ok((after, visible + more))
  }

  // ----- one chunk -----

  /** The output decoder as a value. */
  datatype Receiver = Receiving(stream: Stream, output: Output) | Lost

  function FeedOutput(lib: Libraries, model: string, r: Receiver, chunk: string)
    : (Receiver, Result<seq<string>, RuntimeError>)
  {
    if r.Lost? then (Lost, Err(Protocol))
    else
      var (stream, frames) := Feed(lib, model, r.stream, chunk);
      if frames.Err? then (Lost, Err(frames.error))
      else
        match AbsorbAll(lib, r.output, frames.value)
        case Err(e) => (Lost, Err(e))
        case Ok(absorbed) => (Receiving(stream, absorbed.0), Ok(absorbed.1))
  }

  // ----- the end of a turn -----

  predicate Consecutive(tools: map<nat, Fragments>) {
    forall i :: 0 <= i < |tools| ==> i in tools
  }

  /** A fragment that names its call and whose arguments parse. */
  predicate Whole(lib: Libraries, fragment: Fragments) {
    fragment.id.Some? && lib.parse(fragment.arguments).Some?
  }

  function CallOf(lib: Libraries, fragment: Fragments): ToolCall
    requires Whole(lib, fragment)
  {
    ToolCall(fragment.id.value, fragment.name, lib.parse(fragment.arguments).value)
  }

  function CallsOfTools(lib: Libraries, tools: map<nat, Fragments>): Result<seq<ToolCall>, RuntimeError> {
    if !Consecutive(tools) || exists i :: 0 <= i < |tools| && !Whole(lib, tools[i]) then Err(Protocol)
    else Ok(seq(|tools|, i requires 0 <= i < |tools| => CallOf(lib, tools[i])))
  }

  predicate OutputMatches(lib: Libraries, request: InferenceRequest, text: string) {
    request.outputSchema.Some? ==>
      && |text| <= MAX_OUTPUT_BYTES
      && lib.parse(text).Some? && lib.schemaAccepts(request.outputSchema.value, lib.parse(text).value)
  }

  /** The turn a request may end with. */
  predicate AcceptedTurn(lib: Libraries, request: InferenceRequest, reason: Option<string>, text: string,
                         calls: seq<ToolCall>)
  {
    || (reason == Some("stop") && calls == [] && text != "" && OutputMatches(lib, request, text))
    || (reason == Some("tool_calls") && calls != [] && ReturnedTools(request, calls)
        && ToolCallsMatch(lib, request, calls))
  }

  function FinishTurn(lib: Libraries, request: InferenceRequest, r: Receiver): Result<DecodedTurn, RuntimeError> {
    if r.Lost? || !Finished(r.stream) || r.output.usage.None? then Err(Protocol)
    else
      var o, completion := r.output, AsU64(Get(r.output.usage.value, "completion_tokens"));
      :- Guard(completion.Some?, Protocol);
      :- Guard(completion.value <= request.outputReserveTokens, OutputTruncated);
      var calls :- CallsOfTools(lib, o.tools);
      :- Guard(AcceptedTurn(lib, request, o.finishReason, o.text, calls), Protocol);
      :- Guard(o.generationId.Some?, Protocol);
      Ok(DecodedTurn(o.text, calls, if o.reasoning == NO_REASONING then None else Some(o.reasoning),
                     o.generationId.value, o.usage.value))
  }

  // ----- the object -----

  class OutputDecoder {
    const lib: Libraries
    const request: InferenceRequest
    const decoder: Decoder
    var text: string
    var tools: map<nat, Fragments>
    var reasoning: Reasoning
    var finishReason: Option<string>
    var generationId: Option<string>
    var usage: Option<Json>
    var receivedBytes: nat
    var failed: bool

    constructor (lib: Libraries, decoder: Decoder, request: InferenceRequest)
      requires decoder.lib == lib && decoder.View() == Open(0, FRESH)
      ensures Valid() && this.lib == lib && this.decoder == decoder && this.request == request
      ensures View() == Receiving(Open(0, FRESH), NO_OUTPUT)
    {
      this.lib, this.decoder, this.request := lib, decoder, request;
      text, tools, reasoning, receivedBytes := "", map[], Reasoning("", []), 0;
      finishReason, generationId, usage, failed := None, None, None, false;
    }

    /** Model and schemas are checked before any byte is read. */
    static method Create(lib: Libraries, model: string, request: InferenceRequest)
      returns (r: Result<OutputDecoder, RuntimeError>)
      ensures !ModelAccepted(model) || !Compiles(lib, request) ==> r == Err(InvalidRequest)
      ensures ModelAccepted(model) && Compiles(lib, request) ==>
                && r.Ok? && fresh(r.value) && fresh(r.value.decoder) && r.value.Valid()
                && r.value.lib == lib && r.value.decoder.model == model && r.value.request == request
                && r.value.View() == Receiving(Open(0, FRESH), NO_OUTPUT)
    {
      hide Compiles;
      if !ModelAccepted(model) || !Compiles(lib, request) {
        return Err(InvalidRequest);
      }
      var decoder := new Decoder(lib, model);
      var output := new OutputDecoder(lib, decoder, request);
      return Ok(output);
    }

    ghost predicate Valid()
      reads this, decoder
    {
      decoder.lib == lib && (failed || !decoder.failed)
    }

    function Fields(): Output
      reads this
    {
      Output(text, tools, reasoning, finishReason, generationId, usage, receivedBytes)
    }

    function View(): Receiver
      reads this, decoder
    {
      if failed then Lost else Receiving(decoder.View(), Fields())
    }

    method FeedChunk(bytes: string) returns (r: Result<seq<string>, RuntimeError>)
      requires Valid()
      modifies this, decoder
      ensures Valid()
      ensures (View(), r) == FeedOutput(lib, decoder.model, old(View()), bytes)
    {
      hide Feed, AbsorbAll;
      if failed {
        return Err(Protocol);
      }
      FailureBreaks(lib, decoder.model, decoder.View(), bytes);
      var frames := decoder.FeedChunk(bytes);
      if frames.Err? {
        failed := true;
        return Err(frames.error);
      }
      r := AbsorbFrames(frames.value);
      if r.Err? {
        failed := true;
      }
    }

    method AbsorbFrames(frames: seq<Frame>) returns (r: Result<seq<string>, RuntimeError>)
      modifies this
      ensures failed == old(failed)
      ensures match AbsorbAll(lib, old(Fields()), frames)
              case Err(e) => r == Err(e)
              case Ok(absorbed) => r == Ok(absorbed.1) && Fields() == absorbed.0
    {
      hide Absorb;
      var visible: seq<string> := [];
      for k := 0 to |frames|
        invariant failed == old(failed)
        invariant AbsorbAll(lib, old(Fields()), frames[..k]) == Ok((Fields(), visible))
      {
        AbsorbPrefix(lib, old(Fields()), frames, k);
        var more :- AbsorbFrame(frames[k]);
        visible := visible + more;
      }
      assert frames[..|frames|] == frames;
      return Ok(visible);
    }

    method AbsorbFrame(frame: Frame) returns (r: Result<seq<string>, RuntimeError>)
      modifies this
      ensures failed == old(failed)
      ensures match Absorb(lib, old(Fields()), frame)
              case Err(e) => r == Err(e)
              case Ok(absorbed) => r == Ok(absorbed.1) && Fields() == absorbed.0
    {
      hide AbsorbDelta;
      if frame.Done? {
        return Ok([]);
      }
      var value := frame.value;
      generationId := AsString(Get(value, "id"));
      if Present(value, "usage").Some? {
        usage := Present(value, "usage");
      }
      var choices := Get(value, "choices");
      if !choices.Arr? || choices.items == [] {
        return Ok([]);
      }
      var choice := choices.items[0];
      var reason := AsString(Get(choice, "finish_reason"));
      if reason.Some? {
        finishReason := reason;
      }
      r := TakeDelta(Get(choice, "delta"));
    }

    method TakeDelta(delta: Json) returns (r: Result<seq<string>, RuntimeError>)
      modifies this
      ensures failed == old(failed)
      ensures match AbsorbDelta(lib, old(Fields()), delta)
              case Err(e) => r == Err(e)
              case Ok(absorbed) => r == Ok(absorbed.1) && Fields() == absorbed.0
    {
      hide AppendReasoning, AppendTools, KnownDelta;
      NoTools(tools);
      assert text + "" == text;
      if !KnownDelta(delta) {
        return Err(Protocol);
      }
      receivedBytes := receivedBytes + lib.jsonBytes(delta);
      if receivedBytes > MAX_OUTPUT_BYTES {
        return Err(Protocol);
      }
      var thought :- AppendReasoning(lib, reasoning, delta);
      reasoning := thought;
      var visible: seq<string> := [];
      var content := Present(delta, "content");
      if content.Some? {
        if !content.value.Str? {
          return Err(Protocol);
        }
        text := text + content.value.chars;
        if content.value.chars != "" {
          visible := [content.value.chars];
        }
      }
      var calls := Present(delta, "tool_calls");
      if calls.Some? {
        if !calls.value.Arr? {
          return Err(Protocol);
        }
        var appended := AppendCalls(calls.value.items);
        if appended.Fail? {
          return Err(appended.error);
        }
      }
      return Ok(visible);
    }

    method AppendCalls(calls: seq<Json>) returns (r: Check<RuntimeError>)
      modifies this`tools
      ensures match AppendTools(old(tools), calls)
              case Err(e) => r == Fail(e)
              case Ok(after) => r == Pass && tools == after
    {
      hide AppendTool;
      for k := 0 to |calls|
        invariant AppendTools(old(tools), calls[..k]) == Ok(tools)
      {
        ToolsPrefix(old(tools), calls, k);
        var after := AppendTool(tools, calls[k]);
        if after.Err? {
          return Fail(after.error);
        }
        tools := after.value;
      }
      assert calls[..|calls|] == calls;
      return Pass;
    }

    method Finish() returns (r: Result<DecodedTurn, RuntimeError>)
      requires Valid()
      ensures r == FinishTurn(lib, request, View())
    {
      hide ReturnedTools, ToolCallsMatch, OutputMatches, CallOf, Whole;
      if failed {
        return Err(Protocol);
      }
      var finished := decoder.Finish();
      if finished.Fail? || usage.None? {
        return Err(Protocol);
      }
      var completion := AsU64(Get(usage.value, "completion_tokens"));
      if completion.None? {
        return Err(Protocol);
      }
      if completion.value > request.outputReserveTokens {
        return Err(OutputTruncated);
      }
      var calls :- CollectCalls();
      match finishReason {
        case Some(reason) =>
          if reason == "stop" && calls == [] && text != "" {
            if !OutputMatches(lib, request, text) {
              return Err(Protocol);
            }
          } else if reason == "tool_calls" && calls != [] {
            var returned := ValidateReturnedTools(request, calls);
            if returned.Fail? || !ToolCallsMatch(lib, request, calls) {
              return Err(Protocol);
            }
          } else {
            return Err(Protocol);
          }
        case None =>
          return Err(Protocol);
      }
      if generationId.None? {
        return Err(Protocol);
      }
      return Ok(DecodedTurn(text, calls, if reasoning == NO_REASONING then None else Some(reasoning),
                            generationId.value, usage.value));
    }

    /** The fragments in index order, which must be 0, 1, 2, ... */
    method CollectCalls() returns (r: Result<seq<ToolCall>, RuntimeError>)
      ensures r == CallsOfTools(lib, tools)
    {
      hide CallOf, Whole;
      var calls: seq<ToolCall> := [];
      for k := 0 to |tools|
        invariant forall i :: 0 <= i < k ==> i in tools && Whole(lib, tools[i])
        invariant |calls| == k && forall i :: 0 <= i < k ==> calls[i] == CallOf(lib, tools[i])
      {
        if k !in tools {
          return Err(Protocol);
        }
        if !Whole(lib, tools[k]) {
          return Err(Protocol);
        }
        calls := calls + [CallOf(lib, tools[k])];
      }
      CollectedCalls(lib, tools, calls);
      return Ok(calls);
    }
  }

  lemma CollectedCalls(lib: Libraries, tools: map<nat, Fragments>, calls: seq<ToolCall>)
    requires |calls| == |tools| && forall i :: 0 <= i < |tools| ==> i in tools && Whole(lib, tools[i])
    requires forall i :: 0 <= i < |tools| ==> calls[i] == CallOf(lib, tools[i])
    ensures CallsOfTools(lib, tools) == Ok(calls)
  {
    hide Whole, CallOf;
    assert calls == seq(|tools|, i requires 0 <= i < |tools| => CallOf(lib, tools[i]));
  }

  lemma NoTools(tools: map<nat, Fragments>)
    ensures AppendTools(tools, []) == Ok(tools)
  {
  }

  lemma FailureBreaks(lib: Libraries, model: string, s: Stream, chunk: string)
    ensures Feed(lib, model, s, chunk).1.Err? <==> Feed(lib, model, s, chunk).0.Broken?
  {
    hide TakeBytes;
  }

  lemma {:induction false} AbsorbPrefix(lib: Libraries, o: Output, frames: seq<Frame>, k: nat)
    requires k < |frames| && AbsorbAll(lib, o, frames[..k]).Ok?
    ensures var (before, visible) := AbsorbAll(lib, o, frames[..k]).value;
            && (Absorb(lib, before, frames[k]).Err? ==>
                  AbsorbAll(lib, o, frames) == Err(Absorb(lib, before, frames[k]).error))
            && (Absorb(lib, before, frames[k]).Ok? ==>
                  var (after, more) := Absorb(lib, before, frames[k]).value;
                  AbsorbAll(lib, o, frames[..k + 1]) == Ok((after, visible + more)))
    decreases |frames|
  {
    hide Absorb;
    var init := frames[..|frames| - 1];
    assert frames[..k + 1][..k] == frames[..k];
    if k < |init| {
      assert init[..k] == frames[..k] && init[..k + 1] == frames[..k + 1];
      AbsorbPrefix(lib, o, init, k);
    } else {
      assert frames[..k + 1] == frames;
    }
  }

  lemma {:induction false} ToolsPrefix(tools: map<nat, Fragments>, calls: seq<Json>, k: nat)
    requires k < |calls| && AppendTools(tools, calls[..k]).Ok?
    ensures var before := AppendTools(tools, calls[..k]).value;
            && (AppendTool(before, calls[k]).Err? ==>
                AppendTools(tools, calls) == Err(AppendTool(before, calls[k]).error))
            && (AppendTool(before, calls[k]).Ok? ==> AppendTools(tools, calls[..k + 1]) == AppendTool(before, calls[k]))
    decreases |calls|
  {
    hide AppendTool;
    var init := calls[..|calls| - 1];
    assert calls[..k + 1][..k] == calls[..k];
    if k < |init| {
      assert init[..k] == calls[..k] && init[..k + 1] == calls[..k + 1];
      ToolsPrefix(tools, init, k);
    } else {
      assert calls[..k + 1] == calls;
    }
  }
}
