/** Which frames a provider stream can deliver, written out over the frames themselves: each one is
    of the model asked for, under one id, and in its place among those before it. */
module Frames {
  import opened Base
  import opened Decimal
  import Domain
  import opened EventStream
  import opened Externals
  import opened JsonValue
  import opened Splitting
  import opened Streams

  // ----- the terms -----

  function Member(value: Json, key: string): Json {
    match value
    case Obj(fields) => if key in fields then fields[key] else Null
    case _ => Null
  }

  /** A whole number of 64 bits. */
  predicate IsWhole(value: Json) {
    match value
    case Number(text) =>
      text != "" && (forall i :: 0 <= i < |text| ==> 48 <= text[i] as int <= 57) && WholeValue(text)
    case _ => false
  }

  predicate WholeValue(text: string)
    requires forall i :: 0 <= i < |text| ==> 48 <= text[i] as int <= 57
  {
    DigitsAre(text);
    Value(text) <= 0xFFFF_FFFF_FFFF_FFFF
  }

  lemma DigitsAre(text: string)
    ensures AllDigits(text) <==> forall i :: 0 <= i < |text| ==> 48 <= text[i] as int <= 57
  {
    forall i | 0 <= i < |text| ensures IsDigit(text[i]) <==> 48 <= text[i] as int <= 57 {
    }
  }

  function NumberOf(value: Json): nat
    requires IsWhole(value)
  {
    DigitsAre(value.text);
    Value(value.text)
  }

  lemma NumbersAre(value: Json)
    ensures AsU64(value).Some? <==> IsWhole(value)
    ensures IsWhole(value) ==> AsU64(value) == Some(NumberOf(value))
  {
    if value.Number? {
      DigitsAre(value.text);
    }
  }

  lemma MembersAre(value: Json, key: string)
    ensures Get(value, key) == Member(value, key)
    ensures Present(value, key) == if Member(value, key).Null? then None else Some(Member(value, key))
  {
  }

  function Choices(value: Json): seq<Json> {
    match Member(value, "choices")
    case Arr(items) => items
    case _ => []
  }

  predicate HasUsage(value: Json) {
    !Member(value, "usage").Null?
  }

  /** Anything in a delta, besides its role, that is not empty. */
  predicate Says(delta: Json) {
    delta.Obj? && exists key :: && key in delta.fields && key != "role"
                                && delta.fields[key] !in {Null, Str(""), Arr([]), Obj(map[])}
  }

  /** The frame ends the answer, for this reason. */
  predicate Ends(frame: Frame) {
    !frame.Done? && Choices(frame.value) != [] && Member(Choices(frame.value)[0], "finish_reason").Str?
  }

  function ReasonOf(frame: Frame): string
    requires Ends(frame)
  {
    Member(Choices(frame.value)[0], "finish_reason").chars
  }

  predicate AnyEnd(frames: seq<Frame>) {
    exists j :: 0 <= j < |frames| && Ends(frames[j])
  }

  predicate AnyUsage(frames: seq<Frame>) {
    exists j :: 0 <= j < |frames| && frames[j].Usage?
  }

  predicate Named(model: string, value: Json) {
    && !(value.Obj? && "error" in value.fields)
    && Member(value, "model") == Str(model)
    && Member(value, "id").Str? && 0 < |Member(value, "id").chars| <= 256
    && Member(value, "choices").Arr? && |Choices(value)| <= 1
  }

  predicate ChoiceFollows(before: seq<Frame>, frame: Frame, choice: Json)
    requires !frame.Done? && Choices(frame.value) == [choice]
  {
    && IsWhole(Member(choice, "index")) && NumberOf(Member(choice, "index")) == 0
    && Member(choice, "delta").Obj?
    && (AnyEnd(before) ==> !Says(Member(choice, "delta")))
    && (Ends(frame) ==>
          && (ReasonOf(frame) == "stop" || ReasonOf(frame) == "tool_calls")
          && (forall j :: 0 <= j < |before| && Ends(before[j]) ==> ReasonOf(before[j]) == ReasonOf(frame))
          && (AnyEnd(before) ==> frame.Usage?))
  }

  predicate UsageFollows(before: seq<Frame>, frame: Frame)
    requires frame.Usage?
  {
    && !AnyUsage(before) && (AnyEnd(before) || Ends(frame))
    && Member(frame.value, "usage").Obj?
    && IsWhole(Member(Member(frame.value, "usage"), "prompt_tokens"))
    && IsWhole(Member(Member(frame.value, "usage"), "completion_tokens"))
  }

  /** The frame may come after those before it. */
  predicate Follows(model: string, before: seq<Frame>, frame: Frame) {
    && (forall j :: 0 <= j < |before| ==> !before[j].Done?)
    && if frame.Done? then AnyEnd(before) && AnyUsage(before)
       else
         && Named(model, frame.value) && (frame.Usage? <==> HasUsage(frame.value))
         && (forall j :: 0 <= j < |before| ==> Member(before[j].value, "id") == Member(frame.value, "id"))
         && (Choices(frame.value) == [] ==> frame.Usage?)
         && (Choices(frame.value) != [] ==> ChoiceFollows(before, frame, Choices(frame.value)[0]))
         && (frame.Usage? ==> UsageFollows(before, frame))
  }

  predicate WellFormed(model: string, frames: seq<Frame>) {
    forall k :: 0 <= k < |frames| ==> Follows(model, frames[..k], frames[k])
  }

  /** A part of private reasoning of a known kind. */
  predicate DetailKnown(value: Json) {
    && value.Obj?
    && Member(value, "type") in {Str("reasoning.text"), Str("reasoning.summary"), Str("reasoning.encrypted")}
  }

  lemma DetailIs(value: Json)
    ensures ReasoningDetail(value) <==> DetailKnown(value)
  {
    MembersAre(value, "type");
  }

  // ----- what the decoder remembers of the frames -----

  predicate Tracks(d: Decoding, frames: seq<Frame>) {
    && (d.done <==> exists j :: 0 <= j < |frames| && frames[j].Done?)
    && (d.generation.None? ==> frames == [])
    && (d.generation.Some? ==>
          && frames != []
          && forall j :: 0 <= j < |frames| && !frames[j].Done? ==>
               Member(frames[j].value, "id") == Str(d.generation.value))
    && (d.finish.Some? <==> AnyEnd(frames))
    && (forall j :: 0 <= j < |frames| && Ends(frames[j]) ==> Some(ReasonOf(frames[j])) == d.finish)
    && (d.usageReceived <==> AnyUsage(frames))
  }

  /** The frame that the payload of an event stands for. */
  function FrameOf(lib: Libraries, payload: string): Option<Frame> {
    if payload == "[DONE]" then Some(Done)
    else if lib.parse(payload).None? then None
    else if HasUsage(lib.parse(payload).value) then Some(Usage(lib.parse(payload).value))
    else Some(Chunk(lib.parse(payload).value))
  }

  lemma SaysIs(delta: Json)
    ensures CarriesOutput(delta) <==> Says(delta)
  {
    if delta.Obj? {
      forall key | key in delta.fields
        ensures NonEmptyOutput(delta.fields[key]) <==> delta.fields[key] !in {Null, Str(""), Arr([]), Obj(map[])}
      {
      }
    }
  }

  lemma FinishIs(d: Decoding, before: seq<Frame>, frame: Frame, choice: Json)
    requires Tracks(d, before) && !frame.Done? && Choices(frame.value) == [choice]
    ensures var r := FinishAfter(d.finish, choice, frame.Usage?);
            && (r.Ok? <==> ChoiceFollows(before, frame, choice))
            && (r.Ok? ==> r.value == if Ends(frame) then Some(ReasonOf(frame)) else d.finish)
  {
    hide CarriesOutput, Says, IsWhole, NumberOf;
    MembersAre(choice, "index");
    MembersAre(choice, "delta");
    MembersAre(choice, "finish_reason");
    NumbersAre(Member(choice, "index"));
    SaysIs(Member(choice, "delta"));
    if AnyEnd(before) {
      var j :| 0 <= j < |before| && Ends(before[j]);
      assert Some(ReasonOf(before[j])) == d.finish;
    }
  }

  lemma GenerationIs(model: string, d: Decoding, before: seq<Frame>, value: Json)
    requires Tracks(d, before) && !d.done
    ensures var r, id := GenerationOf(d, value), Member(value, "id");
            && (r.Ok? <==>
                  && id.Str? && 0 < |id.chars| <= 256
                  && forall j :: 0 <= j < |before| && !before[j].Done? ==> Member(before[j].value, "id") == id)
            && (r.Ok? ==> id == Str(r.value))
  {
    MembersAre(value, "id");
    if before != [] {
      assert !before[0].Done?;
    }
  }

  lemma JsonEventIs(model: string, d: Decoding, before: seq<Frame>, value: Json)
    requires Tracks(d, before) && !d.done
    ensures var r, frame := JsonEvent(model, d, value), if HasUsage(value) then Usage(value) else Chunk(value);
            && (r.Ok? <==> Follows(model, before, frame))
            && (r.Ok? ==>
                  && r.value.1 == frame
                  && r.value.0 == d.(generation := r.value.0.generation, finish := r.value.0.finish,
                                     usageReceived := d.usageReceived || frame.Usage?)
                  && r.value.0.generation.Some? && Member(value, "id") == Str(r.value.0.generation.value)
                  && r.value.0.finish == if Ends(frame) then Some(ReasonOf(frame)) else d.finish)
  {
    hide FinishAfter, GenerationOf, IsWhole, ChoiceFollows, Tracks, AnyEnd, AnyUsage;
    var frame := if HasUsage(value) then Usage(value) else Chunk(value);
    assert forall j :: 0 <= j < |before| ==> !before[j].Done? by { NotDone(d, before); }
    assert (d.finish.Some? <==> AnyEnd(before)) && (d.usageReceived <==> AnyUsage(before)) by { Tracked(d, before); }
    MembersAre(value, "model");
    MembersAre(value, "choices");
    MembersAre(value, "usage");
    GenerationIs(model, d, before, value);
    var usage := Member(value, "usage");
    MembersAre(usage, "prompt_tokens");
    MembersAre(usage, "completion_tokens");
    NumbersAre(Member(usage, "prompt_tokens"));
    NumbersAre(Member(usage, "completion_tokens"));
    if Choices(value) != [] && |Choices(value)| <= 1 {
      assert Choices(value) == [Choices(value)[0]];
      FinishIs(d, before, frame, Choices(value)[0]);
    }
  }

  lemma NotDone(d: Decoding, frames: seq<Frame>)
    requires Tracks(d, frames) && !d.done
    ensures forall j :: 0 <= j < |frames| ==> !frames[j].Done?
  {
  }

  lemma Tracked(d: Decoding, frames: seq<Frame>)
    requires Tracks(d, frames)
    ensures (d.finish.Some? <==> AnyEnd(frames)) && (d.usageReceived <==> AnyUsage(frames))
    ensures d.done <==> exists j :: 0 <= j < |frames| && frames[j].Done?
  {
  }

  lemma NextTracks(d: Decoding, next: Decoding, before: seq<Frame>, frame: Frame)
    requires Tracks(d, before)
    requires next.done == (d.done || frame.Done?) && next.usageReceived == (d.usageReceived || frame.Usage?)
    requires next.finish == if Ends(frame) then Some(ReasonOf(frame)) else d.finish
    requires Ends(frame) && AnyEnd(before) ==> Some(ReasonOf(frame)) == d.finish
    requires if frame.Done? then before != [] && next.generation == d.generation
             else && next.generation.Some? && Member(frame.value, "id") == Str(next.generation.value)
                  && (d.generation.Some? ==> next.generation == d.generation)
    ensures Tracks(next, before + [frame])
  {
    var frames := before + [frame];
    assert frames[|before|] == frame;
    assert forall j :: 0 <= j < |before| ==> frames[j] == before[j];
    if AnyEnd(before) {
      var j :| 0 <= j < |before| && Ends(before[j]);
      assert Ends(frames[j]);
    }
    if AnyUsage(before) {
      var j :| 0 <= j < |before| && before[j].Usage?;
      assert frames[j].Usage?;
    }
    if d.done {
      var j :| 0 <= j < |before| && before[j].Done?;
      assert frames[j].Done?;
    }
  }

  /** An event is accepted exactly when its payload stands for a frame that may come next. */
  lemma EventIs(lib: Libraries, model: string, d: Decoding, before: seq<Frame>, payload: string)
    requires Tracks(d, before)
    ensures var r, frame := Event(lib, model, d, payload), FrameOf(lib, payload);
            && (r.Ok? <==> frame.Some? && Follows(model, before, frame.value))
            && (r.Ok? ==> r.value.1 == frame.value && Tracks(r.value.0, before + [frame.value]))
  {
    hide JsonEvent, Tracks, ChoiceFollows, UsageFollows, Named, AnyEnd, AnyUsage;
    Tracked(d, before);
    if d.done {
      var j :| 0 <= j < |before| && before[j].Done?;
    } else if payload == "[DONE]" {
      NotDone(d, before);
      if d.finish.Some? && d.usageReceived {
        Began(d, before);
        NextTracks(d, d.(done := true), before, Done);
      }
    } else if lib.parse(payload).Some? {
      var value := lib.parse(payload).value;
      JsonEventIs(model, d, before, value);
      if JsonEvent(model, d, value).Ok? {
        var (next, frame) := JsonEvent(model, d, value).value;
        SameReason(d, model, before, frame);
        SameId(d, next, model, before, frame);
        NextTracks(d, next, before, frame);
      }
    }
  }

  lemma Began(d: Decoding, before: seq<Frame>)
    requires Tracks(d, before) && AnyEnd(before)
    ensures d.generation.Some? && before != []
  {
  }

  lemma SameReason(d: Decoding, model: string, before: seq<Frame>, frame: Frame)
    requires Tracks(d, before) && !frame.Done? && Follows(model, before, frame)
    ensures Ends(frame) && AnyEnd(before) ==> Some(ReasonOf(frame)) == d.finish
  {
    if Ends(frame) && AnyEnd(before) {
      assert Choices(frame.value) == [Choices(frame.value)[0]];
      var j :| 0 <= j < |before| && Ends(before[j]);
    }
  }

  lemma SameId(d: Decoding, next: Decoding, model: string, before: seq<Frame>, frame: Frame)
    requires Tracks(d, before) && !frame.Done? && Follows(model, before, frame)
    requires next.generation.Some? && Member(frame.value, "id") == Str(next.generation.value)
    ensures d.generation.Some? ==> next.generation == d.generation
  {
    if d.generation.Some? {
      assert Member(before[0].value, "id") == Str(d.generation.value);
    }
  }

  lemma OneMoreFrame(model: string, before: seq<Frame>, frame: Frame)
    ensures WellFormed(model, before + [frame]) <==> WellFormed(model, before) && Follows(model, before, frame)
  {
    hide Follows;
    var frames := before + [frame];
    assert frames[..|before|] == before && frames[|before|] == frame;
    forall k | 0 <= k < |before| ensures frames[..k] == before[..k] && frames[k] == before[k] {
    }
    if WellFormed(model, frames) {
      forall k | 0 <= k < |before| ensures Follows(model, before[..k], before[k]) {
        assert Follows(model, frames[..k], frames[k]);
      }
    }
  }

  // ----- whole event lists -----

  function FramesOf(lib: Libraries, payloads: seq<string>): Option<seq<Frame>> {
    if payloads == [] then Some([])
    else
      var first, rest := FrameOf(lib, payloads[0]), FramesOf(lib, payloads[1..]);
      if first.None? || rest.None? then None else Some([first.value] + rest.value)
  }

  lemma {:induction false} EventsAre(lib: Libraries, model: string, d: Decoding, before: seq<Frame>,
                                     payloads: seq<string>)
    requires Tracks(d, before) && WellFormed(model, before)
    ensures var r, frames := Events(lib, model, d, payloads), FramesOf(lib, payloads);
            && (r.Ok? <==> frames.Some? && WellFormed(model, before + frames.value))
            && (r.Ok? ==> r.value.1 == frames.value && Tracks(r.value.0, before + frames.value))
    decreases |payloads|
  {
    hide Event, Tracks, WellFormed, FrameOf;
    if payloads == [] {
      assert before + [] == before;
    } else {
      EventIs(lib, model, d, before, payloads[0]);
      var frame := FrameOf(lib, payloads[0]);
      if frame.Some? {
        OneMoreFrame(model, before, frame.value);
        var rest := FramesOf(lib, payloads[1..]);
        if Event(lib, model, d, payloads[0]).Ok? {
          EventsAre(lib, model, Event(lib, model, d, payloads[0]).value.0, before + [frame.value], payloads[1..]);
          if rest.Some? {
            assert before + ([frame.value] + rest.value) == (before + [frame.value]) + rest.value;
          }
        } else if rest.Some? {
          assert before + ([frame.value] + rest.value) == (before + [frame.value]) + rest.value;
          if WellFormed(model, (before + [frame.value]) + rest.value) {
            Prefix(model, before + [frame.value], rest.value);
          }
        }
      }
    }
  }

  lemma Prefix(model: string, a: seq<Frame>, b: seq<Frame>)
    requires WellFormed(model, a + b)
    ensures WellFormed(model, a)
  {
    hide Follows;
    forall k | 0 <= k < |a| ensures Follows(model, a[..k], a[k]) {
      assert Follows(model, (a + b)[..k], (a + b)[k]) && (a + b)[..k] == a[..k];
    }
  }

  lemma Nothing(model: string)
    ensures Tracks(FRESH, []) && WellFormed(model, [])
  {
  }

  /** A list of events is accepted exactly when its payloads stand for well-formed frames, and these
      are what is delivered. */
  lemma EventsAccepted(lib: Libraries, model: string, payloads: seq<string>)
    ensures var r, frames := Events(lib, model, FRESH, payloads), FramesOf(lib, payloads);
            && (r.Ok? <==> frames.Some? && WellFormed(model, frames.value))
            && (r.Ok? ==> r.value.1 == frames.value)
  {
    hide Events, FramesOf, Tracks, WellFormed;
    Nothing(model);
    EventsAre(lib, model, FRESH, [], payloads);
    if FramesOf(lib, payloads).Some? {
      assert [] + FramesOf(lib, payloads).value == FramesOf(lib, payloads).value;
    }
  }

  // ----- bytes -----

  /** The line starts with these characters. */
  predicate Begins(line: string, prefix: string) {
    |prefix| <= |line| && forall i :: 0 <= i < |prefix| ==> line[i] == prefix[i]
  }

  /** A complete line is accepted exactly if it ends an event that may come next, or adds to one that
      stays within 262144 bytes, or is a comment, an event name, an id or a retry time. */
  lemma LinesAccepted(lib: Libraries, model: string, d: Decoding, before: seq<Frame>, line: string)
    requires Tracks(d, before)
    ensures TakeLine(lib, model, d, line).Ok? <==>
            if line == "" then
              d.data == "" || (FrameOf(lib, d.data).Some? && Follows(model, before, FrameOf(lib, d.data).value))
            else if Begins(line, "data:") then
              (if d.data == "" then 0 else |d.data| + 1)
              + |line| - (if |line| > 5 && line[5] == ' ' then 6 else 5) <= 262144
            else Begins(line, ":") || Begins(line, "event:") || Begins(line, "id:") || Begins(line, "retry:")
  {
    hide Event, Tracks, Follows;
    BeginsIs(line, "data:");
    BeginsIs(line, ":");
    BeginsIs(line, "event:");
    BeginsIs(line, "id:");
    BeginsIs(line, "retry:");
    assert Tracks(d.(data := ""), before) by { Untouched(d, d.(data := ""), before); }
    EventIs(lib, model, d.(data := ""), before, d.data);
  }

  lemma BeginsIs(line: string, prefix: string)
    ensures StartsWith(line, prefix) <==> Begins(line, prefix)
  {
    if Begins(line, prefix) {
      assert line[..|prefix|] == prefix;
    }
  }

  lemma Untouched(d: Decoding, e: Decoding, frames: seq<Frame>)
    requires Tracks(d, frames) && e == d.(buffer := e.buffer, data := e.data)
    ensures Tracks(e, frames)
  {
  }

  /** A byte is accepted exactly if it completes an acceptable line, or finds room in a line of at
      most 262144 bytes; after the end only white space is. */
  lemma BytesAccepted(lib: Libraries, model: string, d: Decoding, b: char)
    ensures TakeByte(lib, model, d, b).Ok? <==>
            && (d.done ==> b as int in {9, 10, 12, 13, 32})
            && if b as int != 10 then |d.buffer| < 262144
               else TakeLine(lib, model, d.(buffer := ""),
                             if d.buffer != "" && d.buffer[|d.buffer| - 1] as int == 13
                             then d.buffer[..|d.buffer| - 1] else d.buffer).Ok?
  {
    hide TakeLine;
  }

  lemma ByteKeeps(lib: Libraries, model: string, d: Decoding, before: seq<Frame>, b: char)
    requires Tracks(d, before) && WellFormed(model, before) && TakeByte(lib, model, d, b).Ok?
    ensures var (next, more) := TakeByte(lib, model, d, b).value;
            Tracks(next, before + more) && WellFormed(model, before + more)
  {
    hide Event, Tracks, WellFormed, FrameOf, Follows, Ignored;
    var (next, more) := TakeByte(lib, model, d, b).value;
    var line := WithoutReturn(d.buffer);
    if b == '\n' && line == "" && d.data != "" {
      Untouched(d, d.(buffer := "", data := ""), before);
      EventIs(lib, model, d.(buffer := "", data := ""), before, d.data);
      OneMoreFrame(model, before, FrameOf(lib, d.data).value);
    } else {
      assert before + [] == before;
      Untouched(d, next, before);
    }
  }

  lemma {:induction false} BytesKeep(lib: Libraries, model: string, d: Decoding, before: seq<Frame>, bytes: string)
    requires Tracks(d, before) && WellFormed(model, before) && TakeBytes(lib, model, d, bytes).Ok?
    ensures var (next, more) := TakeBytes(lib, model, d, bytes).value;
            Tracks(next, before + more) && WellFormed(model, before + more)
    decreases |bytes|
  {
    hide TakeByte, Tracks, WellFormed;
    if bytes == "" {
      assert before + [] == before;
    } else {
      var (next, frames) := TakeByte(lib, model, d, bytes[0]).value;
      ByteKeeps(lib, model, d, before, bytes[0]);
      BytesKeep(lib, model, next, before + frames, bytes[1..]);
      var more := TakeBytes(lib, model, next, bytes[1..]).value.1;
      assert before + (frames + more) == (before + frames) + more;
    }
  }

  /** Whatever bytes arrive, however they are cut: the frames delivered are well formed.  Each names
      the model asked for, all carry one id, each has at most one choice, at index 0; nothing is said
      after the end, usage comes once and not before the end, and the final mark comes last. */
  lemma DeliveredFramesAreWellFormed(lib: Libraries, model: string, chunks: seq<string>)
    requires FeedAll(lib, model, Open(0, FRESH), chunks).1.Ok?
    ensures WellFormed(model, FeedAll(lib, model, Open(0, FRESH), chunks).1.value)
  {
    hide TakeBytes, Tracks, WellFormed, FeedAll, Concat;
    SplittingIsInvisible(lib, model, Open(0, FRESH), chunks);
    Nothing(model);
    BytesKeep(lib, model, FRESH, [], Concat(chunks));
    var frames := TakeBytes(lib, model, FRESH, Concat(chunks)).value.1;
    assert [] + frames == frames;
  }

  /** A chunk is accepted exactly if the decoder has not failed, the stream stays within 67108864
      bytes, and its bytes are. */
  lemma ChunksAccepted(lib: Libraries, model: string, s: Stream, chunk: string)
    ensures Feed(lib, model, s, chunk).1.Ok? <==>
            s.Open? && s.received + |chunk| <= 67_108_864 && TakeBytes(lib, model, s.decoding, chunk).Ok?
  {
    hide TakeBytes;
  }

  /** A stream is finished exactly after the final mark, with nothing but white space behind it; a model
      is asked for by a name of at most 256 bytes without white space. */
  lemma StreamsEnd(s: Stream, model: string)
    ensures Finished(s) <==>
            && s.Open? && s.decoding.done && s.decoding.data == ""
            && forall i :: 0 <= i < |s.decoding.buffer| ==> s.decoding.buffer[i] as int in {9, 10, 12, 13, 32}
    ensures ModelAccepted(model) <==>
            && 0 < |model| <= 256
            && forall i :: 0 <= i < |model| ==> model[i] as int != 32 && !(9 <= model[i] as int <= 13)
  {
    if s.Open? {
      forall i | 0 <= i < |s.decoding.buffer|
        ensures AsciiSpace(s.decoding.buffer[i]) <==> s.decoding.buffer[i] as int in {9, 10, 12, 13, 32}
      {
      }
    }
    forall i | 0 <= i < |model|
      ensures Domain.IsSpace(model[i]) <==> model[i] as int == 32 || 9 <= model[i] as int <= 13
    {
    }
  }

  // ----- provider errors -----

  /** What the error member of an event means: a status code as HTTP has it, or nothing known. */
  lemma ProviderErrors(lib: Libraries, model: string, d: Decoding, payload: string)
    requires !d.done && payload != "[DONE]" && lib.parse(payload).Some?
    requires lib.parse(payload).value.Obj? && "error" in lib.parse(payload).value.fields
    ensures var code := Member(lib.parse(payload).value.fields["error"], "code");
            Event(lib, model, d, payload) ==
            Err(if !IsWhole(code) then Protocol
                else
                  var n := NumberOf(code);
                  if n == 401 || n == 403 then ProviderAuth
                  else if n == 402 || n == 429 then Quota
                  else if n < 100 || 200 <= n < 300 || n == 400 || n == 404 || n == 422 || 999 < n then Protocol
                  else Unavailable)
  {
    hide IsWhole, NumberOf;
    var error := lib.parse(payload).value.fields["error"];
    MembersAre(error, "code");
    NumbersAre(Member(error, "code"));
  }
}
