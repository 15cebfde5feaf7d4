/** The bounded server-sent-event decoder (ai-runtime/src/openrouter_stream.rs), against the
    event stream interpretation of section 9.2.6 of the WHATWG HTML Living Standard. */
module Streams {
  import opened Base
  import opened Domain
  import opened Externals
  import opened JsonValue

  const MAX_EVENT := 256 * 1024
  const MAX_STREAM := 64 * 1024 * 1024

  datatype Frame = Chunk(value: Json) | Usage(value: Json) | Done

  /** What the decoder remembers between two bytes. */
  datatype Decoding = Decoding(
    buffer: string, data: string, generation: Option<string>, finish: Option<string>, usageReceived: bool, done: bool)

  const FRESH := Decoding("", "", None, None, false, false)

  predicate AsciiSpace(b: char) {
    b == ' ' || b == '\t' || b == '\n' || b == 0x0C as char || b == '\r'
  }

  predicate StartsWith(s: string, prefix: string) {
    prefix <= s
  }

  // ----- one event -----

  /** The documented meaning of a numeric error code (openrouter.rs, provider_status). */
  function StatusError(code: nat): RuntimeError {
    if code == 401 || code == 403 then ProviderAuth
    else if code == 402 || code == 429 then Quota
    else if code == 400 || code == 404 || code == 422 then Protocol
    else Unavailable
  }

  function ErrorOf(error: Json): RuntimeError {
    var code := AsU64(Get(error, "code"));
    if code.Some? && 100 <= code.value <= 999 && !(200 <= code.value <= 299) then StatusError(code.value) else Protocol
  }

  predicate NonEmptyOutput(value: Json) {
    match value
    case Null => false
    case Str(text) => text != ""
    case Arr(items) => items != []
    case Obj(fields) => fields != map[]
    case _ => true
  }

  predicate CarriesOutput(delta: Json) {
    delta.Obj? && exists key :: key in delta.fields && key != "role" && NonEmptyOutput(delta.fields[key])
  }

  /** The finish reason after one choice, `usage` telling whether the event carries usage. */
  function FinishAfter(finish: Option<string>, choice: Json, usage: bool): Result<Option<string>, RuntimeError> {
    var delta := Get(choice, "delta");
    :- Guard(AsU64(Get(choice, "index")) == Some(0) && delta.Obj?, Protocol);
    :- Guard(!(finish.Some? && CarriesOutput(delta)), Protocol);
    var reason := AsString(Get(choice, "finish_reason"));
    if reason.None? then Ok(finish)
    else
      :- Guard(reason.value != "length", OutputTruncated);
      :- Guard(reason.value == "stop" || reason.value == "tool_calls", Protocol);
      :- Guard(finish.Some? ==> finish.value == reason.value && usage, Protocol);
      Ok(reason)
  }

  predicate UsageShape(usage: Json) {
    usage.Obj? && AsU64(Get(usage, "prompt_tokens")).Some? && AsU64(Get(usage, "completion_tokens")).Some?
  }

  /** The id of an event, which must be the id of the whole stream. */
  function GenerationOf(d: Decoding, value: Json): Result<string, RuntimeError> {
    var id := AsString(Get(value, "id"));
    :- Guard(id.Some? && 0 < |id.value| <= 256, Protocol);
    :- Guard(d.generation.Some? ==> d.generation.value == id.value, Protocol);
    Ok(id.value)
  }

  function JsonEvent(model: string, d: Decoding, value: Json): Result<(Decoding, Frame), RuntimeError> {
    if value.Obj? && "error" in value.fields then Err(ErrorOf(value.fields["error"]))
    else
      :- Guard(AsString(Get(value, "model")) == Some(model), Protocol);
      var id :- GenerationOf(d, value);
      :- Guard(Get(value, "choices").Arr?, Protocol);
      var choices, usage := Get(value, "choices").items, Present(value, "usage");
      :- Guard(|choices| <= 1 && (choices == [] ==> usage.Some?), Protocol);
      var finish :- if choices == [] then Ok(d.finish) else FinishAfter(d.finish, choices[0], usage.Some?);
      if usage.None? then Ok((d.(generation := Some(id), finish := finish), Chunk(value)))
      else
        :- Guard(!d.usageReceived && finish.Some? && UsageShape(usage.value), Protocol);
        Ok((d.(generation := Some(id), finish := finish, usageReceived := true), Usage(value)))
  }

  function Event(lib: Libraries, model: string, d: Decoding, data: string): Result<(Decoding, Frame), RuntimeError> {
    if d.done then Err(Protocol)
    else if data == "[DONE]" then
      if d.finish.None? || !d.usageReceived || d.generation.None? then Err(Protocol) else Ok((d.(done := true), Done))
    else if lib.parse(data).None? then Err(Protocol)
    else JsonEvent(model, d, lib.parse(data).value)
  }

  // ----- one line, one byte -----

  function PayloadOf(line: string): string
    requires StartsWith(line, "data:")
  {
    if |line| > 5 && line[5] == ' ' then line[6..] else line[5..]
  }

  function Joined(data: string, payload: string): string {
    if data == "" then payload else data + "\n" + payload
  }

  predicate Ignored(line: string) {
    StartsWith(line, ":") || StartsWith(line, "event:") || StartsWith(line, "id:") || StartsWith(line, "retry:")
  }

  /** A complete line, without its line feed and carriage return; the buffer is empty again. */
  function TakeLine(lib: Libraries, model: string, d: Decoding, line: string)
    : Result<(Decoding, seq<Frame>), RuntimeError>
  {
    if line == "" then
      if d.data == "" then Ok((d, []))
      else
        var (next, frame) :- Event(lib, model, d.(data := ""), d.data);
        Ok((next, [frame]))
    else if StartsWith(line, "data:") then
      if |Joined(d.data, PayloadOf(line))| > MAX_EVENT then Err(Protocol)
      else Ok((d.(data := Joined(d.data, PayloadOf(line))), []))
    else if Ignored(line) then Ok((d, []))
    else Err(Protocol)
  }

  function WithoutReturn(line: string): string {
    if line != "" && line[|line| - 1] == '\r' then line[..|line| - 1] else line
  }

  function TakeByte(lib: Libraries, model: string, d: Decoding, b: char): Result<(Decoding, seq<Frame>), RuntimeError> {
    if d.done && !AsciiSpace(b) then Err(Protocol)
    else if b == '\n' then TakeLine(lib, model, d.(buffer := ""), WithoutReturn(d.buffer))
    else if |d.buffer| >= MAX_EVENT then Err(Protocol)
    else Ok((d.(buffer := d.buffer + [b]), []))
  }

  function TakeBytes(lib: Libraries, model: string, d: Decoding, bytes: string)
    : Result<(Decoding, seq<Frame>), RuntimeError>
    decreases |bytes|
  {
    if bytes == "" then Ok((d, []))
    else
      var (next, frames) :- TakeByte(lib, model, d, bytes[0]);
      var (last, more) :- TakeBytes(lib, model, next, bytes[1..]);
      Ok((last, frames + more))
  }

  function Prepended(frames: seq<Frame>, r: Result<(Decoding, seq<Frame>), RuntimeError>)
    : Result<(Decoding, seq<Frame>), RuntimeError>
  {
    match r
    case Err(e) => Err(e)
    case Ok(taken) => Ok((taken.0, frames + taken.1))
  }

  lemma PrependedTwice(a: seq<Frame>, b: seq<Frame>, r: Result<(Decoding, seq<Frame>), RuntimeError>)
    ensures Prepended(a, Prepended(b, r)) == Prepended(a + b, r)
    ensures Prepended([], r) == r
  {
    if r.Ok? {
      assert a + (b + r.value.1) == (a + b) + r.value.1;
      assert [] + r.value.1 == r.value.1;
    }
  }

  // ----- one chunk -----

  /** The decoder as a value.  Once it has failed nothing else of it matters. */
  datatype Stream = Open(received: nat, decoding: Decoding) | Broken

  function Feed(lib: Libraries, model: string, s: Stream, chunk: string): (Stream, Result<seq<Frame>, RuntimeError>) {
    if s.Broken? then (Broken, Err(Protocol))
    else if s.received + |chunk| > MAX_STREAM then (Broken, Err(Protocol))
    else
      match TakeBytes(lib, model, s.decoding, chunk)
      case Err(e) => (Broken, Err(e))
      case Ok(taken) => (Open(s.received + |chunk|, taken.0), Ok(taken.1))
  }

  predicate Finished(s: Stream) {
    && s.Open? && s.decoding.done && s.decoding.data == ""
    && forall i :: 0 <= i < |s.decoding.buffer| ==> AsciiSpace(s.decoding.buffer[i])
  }

  predicate ModelAccepted(model: string) {
    0 < |model| <= 256 && forall i :: 0 <= i < |model| ==> !IsSpace(model[i])
  }

  // ----- the decoder object -----

  class Decoder {
    const lib: Libraries
    const model: string
    var buffer: string
    var data: string
    var received: nat
    var generation: Option<string>
    var finish: Option<string>
    var usageReceived: bool
    var done: bool
    var failed: bool

    constructor (lib: Libraries, model: string)
      ensures this.lib == lib && this.model == model && View() == Open(0, FRESH)
    {
      this.lib, this.model := lib, model;
      buffer, data, received := "", "", 0;
      generation, finish, usageReceived, done, failed := None, None, false, false, false;
    }

    function Fields(): Decoding
      reads this
    {
      Decoding(buffer, data, generation, finish, usageReceived, done)
    }

    function View(): Stream
      reads this
    {
      if failed then Broken else Open(received, Fields())
    }


    method FeedChunk(bytes: string) returns (r: Result<seq<Frame>, RuntimeError>)
      modifies this
      ensures (View(), r) == Feed(lib, model, old(View()), bytes)
    {
      if failed {
        return Err(Protocol);
      }
      r := FeedInner(bytes);
      if r.Err? {
        failed := true;
      }
    }

    method FeedInner(bytes: string) returns (r: Result<seq<Frame>, RuntimeError>)
      modifies this
      ensures failed == old(failed)
      ensures if old(received) + |bytes| > MAX_STREAM then r == Err(Protocol)
              else match TakeBytes(lib, model, old(Fields()), bytes)
                   case Err(e) => r == Err(e)
                   case Ok(taken) => r == Ok(taken.1) && Fields() == taken.0 && received == old(received) + |bytes|
    {
      hide TakeByte;
      received := received + |bytes|;
      if received > MAX_STREAM {
        return Err(Protocol);
      }
      var frames: seq<Frame> := [];
      assert bytes[0..] == bytes;
      ghost var start := Fields();
      PrependedTwice([], [], TakeBytes(lib, model, start, bytes));
      for k := 0 to |bytes|
        invariant failed == old(failed) && received == old(received) + |bytes|
        invariant TakeBytes(lib, model, start, bytes) == Prepended(frames, TakeBytes(lib, model, Fields(), bytes[k..]))
      {
        assert bytes[k..][0] == bytes[k] && bytes[k..][1..] == bytes[k + 1..];
        var more :- FeedByte(bytes[k]);
        PrependedTwice(frames, more, TakeBytes(lib, model, Fields(), bytes[k + 1..]));
        frames := frames + more;
      }
      assert bytes[|bytes|..] == "" && frames + [] == frames;
      return Ok(frames);
    }

    method FeedByte(byte: char) returns (r: Result<seq<Frame>, RuntimeError>)
      modifies this
      ensures failed == old(failed) && received == old(received)
      ensures match TakeByte(lib, model, old(Fields()), byte)
              case Err(e) => r == Err(e)
              case Ok(taken) => r == Ok(taken.1) && Fields() == taken.0
    {
      hide TakeLine;
      if done && !AsciiSpace(byte) {
        return Err(Protocol);
      }
      if byte != '\n' {
        if |buffer| >= MAX_EVENT {
          return Err(Protocol);
        }
        buffer := buffer + [byte];
        return Ok([]);
      }
      var line := buffer;
      buffer := "";
      if line != "" && line[|line| - 1] == '\r' {
        line := line[..|line| - 1];
      }
      r := FeedLine(line);
    }

    method FeedLine(line: string) returns (r: Result<seq<Frame>, RuntimeError>)
      modifies this`data, this`generation, this`finish, this`usageReceived, this`done
      ensures match TakeLine(lib, model, old(Fields()), line)
              case Err(e) => r == Err(e)
              case Ok(taken) => r == Ok(taken.1) && Fields() == taken.0
    {
      hide Event;
      if line == "" {
        if data == "" {
          return Ok([]);
        }
        var payload := data;
        data := "";
        var frame :- TakeEvent(payload);
        return Ok([frame]);
      }
      if StartsWith(line, "data:") {
        var payload := PayloadOf(line);
        if data != "" {
          data := data + "\n";
        }
        if |data| + |payload| > MAX_EVENT {
          return Err(Protocol);
        }
        data := data + payload;
        return Ok([]);
      }
      return if Ignored(line) then Ok([]) else Err(Protocol);
    }

    method TakeEvent(payload: string) returns (r: Result<Frame, RuntimeError>)
      modifies this`generation, this`finish, this`usageReceived, this`done
      ensures match Event(lib, model, old(Fields()), payload)
              case Err(e) => r == Err(e)
              case Ok(taken) => r == Ok(taken.1) && Fields() == taken.0
    {
      if done {
        return Err(Protocol);
      }
      if payload == "[DONE]" {
        if finish.None? || !usageReceived || generation.None? {
          return Err(Protocol);
        }
        done := true;
        return Ok(Done);
      }
      var parsed := lib.parse(payload);
      if parsed.None? {
        return Err(Protocol);
      }
      var value := parsed.value;
      if value.Obj? && "error" in value.fields {
        return Err(ErrorOf(value.fields["error"]));
      }
      if AsString(Get(value, "model")) != Some(model) {
        return Err(Protocol);
      }
      var id :- GenerationOf(Fields(), value);
      generation := Some(id);
      if !Get(value, "choices").Arr? {
        return Err(Protocol);
      }
      var choices, usage := Get(value, "choices").items, Present(value, "usage");
      if |choices| > 1 || (choices == [] && usage.None?) {
        return Err(Protocol);
      }
      if choices != [] {
        var reason :- FinishAfter(finish, choices[0], usage.Some?);
        finish := reason;
      }
      if usage.Some? {
        if usageReceived || finish.None? || !UsageShape(usage.value) {
          return Err(Protocol);
        }
        usageReceived := true;
        return Ok(Usage(value));
      }
      return Ok(Chunk(value));
    }

    method Finish() returns (r: Check<RuntimeError>)
      ensures r == if Finished(View()) then Pass else Fail(Protocol)
    {
      if done && !failed && data == "" && forall i :: 0 <= i < |buffer| ==> AsciiSpace(buffer[i]) {
        return Pass;
      }
      return Fail(Protocol);
    }
  }
}
