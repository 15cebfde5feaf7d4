/** What a decoded turn can be relied on for: it does not depend on how the bytes arrived, it
    is complete, and the journal accepts it. */
module Turns {
  import opened Base
  import opened Externals
  import opened Inference
  import opened JsonValue
  import opened Outputs
  import opened Splitting
  import opened Streams
  import Journal
  import Steps

  // ----- splitting -----

  function Shown(visible: seq<string>, r: Result<(Output, seq<string>), RuntimeError>)
    : Result<(Output, seq<string>), RuntimeError>
  {
    if r.Err? then r else Ok((r.value.0, visible + r.value.1))
  }

  lemma {:induction false} AbsorbSplit(lib: Libraries, o: Output, a: seq<Frame>, b: seq<Frame>)
    ensures AbsorbAll(lib, o, a).Err? ==> AbsorbAll(lib, o, a + b) == AbsorbAll(lib, o, a)
    ensures AbsorbAll(lib, o, a).Ok? ==>
              var (before, visible) := AbsorbAll(lib, o, a).value;
              AbsorbAll(lib, o, a + b) == Shown(visible, AbsorbAll(lib, before, b))
    decreases |b|
  {
    hide Absorb;
    if b == [] {
      assert a + b == a;
      if AbsorbAll(lib, o, a).Ok? {
        assert AbsorbAll(lib, o, a).value.1 + [] == AbsorbAll(lib, o, a).value.1;
      }
    } else {
      var init := b[..|b| - 1];
      AbsorbSplit(lib, o, a, init);
      assert (a + b)[..|a + b| - 1] == a + init && (a + b)[|a + b| - 1] == b[|b| - 1];
      if AbsorbAll(lib, o, a).Ok? {
        var (before, visible) := AbsorbAll(lib, o, a).value;
        var first := AbsorbAll(lib, before, init);
        if first.Ok? {
          var last := Absorb(lib, first.value.0, b[|b| - 1]);
          if last.Ok? {
            assert visible + (first.value.1 + last.value.1) == (visible + first.value.1) + last.value.1;
          }
        }
      }
    }
  }

  /** Feeding chunk after chunk, until the first failure. */
  function FeedOutputs(lib: Libraries, model: string, r: Receiver, chunks: seq<string>)
    : (Receiver, Result<seq<string>, RuntimeError>)
    decreases |chunks|
  {
    if chunks == [] then (r, Ok([]))
    else
      var (next, first) := FeedOutput(lib, model, r, chunks[0]);
      if first.Err? then (next, first)
      else
        var (last, rest) := FeedOutputs(lib, model, next, chunks[1..]);
        (last, if rest.Err? then rest else Ok(first.value + rest.value))
  }

  predicate Ready(r: Receiver) {
    r.Receiving? && Bounded(r.stream)
  }

  lemma OutputTwice(lib: Libraries, model: string, r: Receiver, a: string, b: string)
    requires Ready(r)
    ensures var (t, first), (u, whole) := FeedOutput(lib, model, r, a), FeedOutput(lib, model, r, a + b);
            && (whole.Ok? <==> first.Ok? && FeedOutput(lib, model, t, b).1.Ok?)
            && (whole.Ok? ==>
                  var (v, second) := FeedOutput(lib, model, t, b); u == v && whole.value == first.value + second.value)
    ensures FeedOutput(lib, model, r, a).1.Ok? ==> Ready(FeedOutput(lib, model, r, a).0)
    ensures FeedOutput(lib, model, r, a).1.Err? ==> FeedOutput(lib, model, r, a).0.Lost?
  {
    hide Feed, AbsorbAll;
    FeedTwice(lib, model, r.stream, a, b);
    var (s, frames) := Feed(lib, model, r.stream, a);
    var whole := Feed(lib, model, r.stream, a + b);
    assert whole.1.Ok? <==> frames.Ok? && Feed(lib, model, s, b).1.Ok?;
    if frames.Ok? && Feed(lib, model, s, b).1.Ok? {
      AbsorbSplit(lib, r.output, frames.value, Feed(lib, model, s, b).1.value);
    } else {
      assert FeedOutput(lib, model, r, a + b) == (Lost, Err(whole.1.error));
    }
  }

  /** The whole decoder, too, gives the same result however the network splits the bytes. */
  lemma {:induction false} OutputSplittingIsInvisible(lib: Libraries, model: string, r: Receiver, chunks: seq<string>)
    requires Ready(r)
    ensures var (t, pieces) := FeedOutputs(lib, model, r, chunks);
            var (u, whole) := FeedOutput(lib, model, r, Concat(chunks));
            && (pieces.Ok? <==> whole.Ok?) && t == u && (whole.Ok? ==> pieces == whole)
    decreases |chunks|
  {
    hide Feed, AbsorbAll;
    if chunks == [] {
      NothingToAbsorb(lib, model, r);
    } else {
      OutputTwice(lib, model, r, chunks[0], Concat(chunks[1..]));
      var (t, first) := FeedOutput(lib, model, r, chunks[0]);
      if first.Ok? {
        OutputSplittingIsInvisible(lib, model, t, chunks[1..]);
      }
    }
  }

  lemma NothingToAbsorb(lib: Libraries, model: string, r: Receiver)
    requires Ready(r)
    ensures FeedOutput(lib, model, r, "") == (r, Ok([]))
  {
    TakeNothing(lib, model, r.stream.decoding);
    assert AbsorbAll(lib, r.output, []) == Ok((r.output, []));
  }

  // ----- text -----

  lemma {:induction false} ConcatSplit(a: seq<string>, b: seq<string>)
    ensures Concat(a + b) == Concat(a) + Concat(b)
  {
    if a == [] {
      assert a + b == b;
    } else {
      assert (a + b)[0] == a[0] && (a + b)[1..] == a[1..] + b;
      ConcatSplit(a[1..], b);
    }
  }

  lemma DeltaText(lib: Libraries, o: Output, delta: Json)
    requires AbsorbDelta(lib, o, delta).Ok?
    ensures var (next, visible) := AbsorbDelta(lib, o, delta).value; next.text == o.text + Concat(visible)
  {
    hide AppendReasoning, AppendTools, KnownDelta;
    var visible := AbsorbDelta(lib, o, delta).value.1;
    assert visible != [] ==> visible[1..] == [];
  }

  lemma FrameText(lib: Libraries, o: Output, frame: Frame)
    requires Absorb(lib, o, frame).Ok?
    ensures var (next, visible) := Absorb(lib, o, frame).value; next.text == o.text + Concat(visible)
  {
    hide AbsorbDelta;
    if !frame.Done? && Get(frame.value, "choices").Arr? && Get(frame.value, "choices").items != [] {
      var choice := Get(frame.value, "choices").items[0];
      DeltaText(lib, Reasoned(Headed(o, frame.value), choice), Get(choice, "delta"));
    }
  }

  lemma JoinText(text: string, a: string, b: string)
    ensures (text + a) + b == text + (a + b)
    ensures text + Concat([]) == text
  {
  }

  lemma {:induction false} FramesText(lib: Libraries, o: Output, frames: seq<Frame>)
    requires AbsorbAll(lib, o, frames).Ok?
    ensures var (next, visible) := AbsorbAll(lib, o, frames).value; next.text == o.text + Concat(visible)
    decreases |frames|
  {
    hide Absorb, Concat;
    if frames == [] {
      JoinText(o.text, "", "");
    } else {
      var init, last := frames[..|frames| - 1], frames[|frames| - 1];
      FramesText(lib, o, init);
      var (before, visible) := AbsorbAll(lib, o, init).value;
      var more := Absorb(lib, before, last).value.1;
      FrameText(lib, before, last);
      ConcatSplit(visible, more);
      JoinText(o.text, Concat(visible), Concat(more));
    }
  }

  // ----- agreement of the two decoders -----

  predicate KnownReason(reason: Option<string>) {
    reason == Some("stop") || reason == Some("tool_calls")
  }

  /** Both decoders have read the same ids, finish reasons and usage. */
  predicate Agree(d: Decoding, o: Output) {
    && o.generationId == d.generation && o.finishReason == d.finish
    && (o.usage.Some? <==> d.usageReceived)
    && (o.usage.Some? ==> UsageShape(o.usage.value))
    && (d.finish.Some? ==> KnownReason(d.finish))
    && (d.done ==> d.generation.Some? && d.finish.Some? && d.usageReceived)
  }

  /** The same reading of ids, reasons and usage, whatever else changed. */
  predicate SameHeads(a: Output, b: Output) {
    a.generationId == b.generationId && a.finishReason == b.finishReason && a.usage == b.usage
  }

  lemma DeltaKeepsHeads(lib: Libraries, o: Output, delta: Json)
    requires AbsorbDelta(lib, o, delta).Ok?
    ensures SameHeads(o, AbsorbDelta(lib, o, delta).value.0)
  {
    hide AppendReasoning, AppendTools, KnownDelta;
  }

  lemma AbsorbHeads(lib: Libraries, o: Output, frame: Frame)
    requires Absorb(lib, o, frame).Ok? && !frame.Done? && Get(frame.value, "choices").Arr?
    ensures var choices := Get(frame.value, "choices").items;
            SameHeads(Absorb(lib, o, frame).value.0,
                      if choices == [] then Headed(o, frame.value) else Reasoned(Headed(o, frame.value), choices[0]))
  {
    hide AbsorbDelta;
    var choices := Get(frame.value, "choices").items;
    if choices != [] {
      DeltaKeepsHeads(lib, Reasoned(Headed(o, frame.value), choices[0]), Get(choices[0], "delta"));
    }
  }

  lemma FinishReasons(finish: Option<string>, choice: Json, usage: bool)
    requires FinishAfter(finish, choice, usage).Ok?
    ensures var reason := AsString(Get(choice, "finish_reason"));
            && FinishAfter(finish, choice, usage).value == (if reason.Some? then reason else finish)
            && (reason.Some? ==> KnownReason(reason))
  {
    hide CarriesOutput;
  }

  lemma EventAgrees(lib: Libraries, model: string, d: Decoding, data: string, o: Output)
    requires Agree(d, o) && Event(lib, model, d, data).Ok?
    requires Absorb(lib, o, Event(lib, model, d, data).value.1).Ok?
    ensures Agree(Event(lib, model, d, data).value.0, Absorb(lib, o, Event(lib, model, d, data).value.1).value.0)
  {
    hide AbsorbDelta, FinishAfter, UsageShape;
    var (next, frame) := Event(lib, model, d, data).value;
    if !frame.Done? {
      AbsorbHeads(lib, o, frame);
      var choices := Get(frame.value, "choices").items;
      if choices != [] {
        FinishReasons(d.finish, choices[0], Present(frame.value, "usage").Some?);
      }
    }
  }

  lemma ByteAgrees(lib: Libraries, model: string, d: Decoding, b: char, o: Output)
    requires Agree(d, o) && TakeByte(lib, model, d, b).Ok?
    requires AbsorbAll(lib, o, TakeByte(lib, model, d, b).value.1).Ok?
    ensures Agree(TakeByte(lib, model, d, b).value.0, AbsorbAll(lib, o, TakeByte(lib, model, d, b).value.1).value.0)
  {
    hide Event, Absorb, Ignored, PayloadOf;
    var frames := TakeByte(lib, model, d, b).value.1;
    if frames != [] {
      assert frames[..0] == [];
      assert AbsorbAll(lib, o, frames[..0]) == Ok((o, []));
      EventAgrees(lib, model, d.(buffer := "", data := ""), d.data, o);
    }
  }

  lemma {:induction false} BytesAgree(lib: Libraries, model: string, d: Decoding, bytes: string, o: Output)
    requires Agree(d, o) && TakeBytes(lib, model, d, bytes).Ok?
    requires AbsorbAll(lib, o, TakeBytes(lib, model, d, bytes).value.1).Ok?
    ensures Agree(TakeBytes(lib, model, d, bytes).value.0,
                  AbsorbAll(lib, o, TakeBytes(lib, model, d, bytes).value.1).value.0)
    decreases |bytes|
  {
    hide TakeByte, Absorb, Agree;
    if bytes != "" {
      var (next, first) := TakeByte(lib, model, d, bytes[0]).value;
      var (last, rest) := TakeBytes(lib, model, next, bytes[1..]).value;
      AbsorbSplit(lib, o, first, rest);
      ByteAgrees(lib, model, d, bytes[0], o);
      BytesAgree(lib, model, next, bytes[1..], AbsorbAll(lib, o, first).value.0);
    }
  }

  lemma FreshAgree()
    ensures Agree(FRESH, NO_OUTPUT)
  {
  }

  lemma IncompleteCalls(lib: Libraries, tools: map<nat, Fragments>)
    ensures CallsOfTools(lib, tools).Err? ==> CallsOfTools(lib, tools) == Err(Protocol)
  {
  }

  // ----- private reasoning -----

  predicate SoundReasoning(lib: Libraries, o: Output) {
    o.reasoning == NO_REASONING || ValidReasoning(lib, o.reasoning)
  }

  lemma {:induction false} ReasoningStaysSound(lib: Libraries, o: Output, frames: seq<Frame>)
    requires SoundReasoning(lib, o) && AbsorbAll(lib, o, frames).Ok?
    ensures SoundReasoning(lib, AbsorbAll(lib, o, frames).value.0)
    decreases |frames|
  {
    hide Absorb, SoundReasoning;
    if frames != [] {
      ReasoningStaysSound(lib, o, frames[..|frames| - 1]);
      FrameReasoning(lib, AbsorbAll(lib, o, frames[..|frames| - 1]).value.0, frames[|frames| - 1]);
    }
  }

  lemma FrameReasoning(lib: Libraries, o: Output, frame: Frame)
    requires SoundReasoning(lib, o) && Absorb(lib, o, frame).Ok?
    ensures SoundReasoning(lib, Absorb(lib, o, frame).value.0)
  {
    hide AppendTools, KnownDelta, AppendReasoningText, AppendReasoningDetails, ValidReasoning;
  }

  // ----- whole responses -----

  const LISTENING: Receiver := Receiving(Open(0, FRESH), NO_OUTPUT)

  /** What holds of a receiver that has shown `text` so far. */
  predicate Consistent(lib: Libraries, r: Receiver, text: string) {
    && r.Receiving? && r.stream.Open? && Agree(r.stream.decoding, r.output)
    && SoundReasoning(lib, r.output) && r.output.text == text
  }

  lemma ChunkKeeps(lib: Libraries, model: string, r: Receiver, chunk: string, text: string)
    requires Consistent(lib, r, text) && FeedOutput(lib, model, r, chunk).1.Ok?
    ensures var (next, visible) := FeedOutput(lib, model, r, chunk);
            Consistent(lib, next, text + Concat(visible.value))
  {
    hide TakeBytes, AbsorbAll, Agree, SoundReasoning, Concat;
    var frames := Feed(lib, model, r.stream, chunk).1.value;
    BytesAgree(lib, model, r.stream.decoding, chunk, r.output);
    ReasoningStaysSound(lib, r.output, frames);
    FramesText(lib, r.output, frames);
  }

  lemma {:induction false} ChunksKeep(lib: Libraries, model: string, r: Receiver, chunks: seq<string>, text: string)
    requires Consistent(lib, r, text) && FeedOutputs(lib, model, r, chunks).1.Ok?
    ensures var (last, visible) := FeedOutputs(lib, model, r, chunks);
            Consistent(lib, last, text + Concat(visible.value))
    decreases |chunks|
  {
    hide FeedOutput, Consistent, Concat;
    if chunks == [] {
      JoinText(text, "", "");
    } else {
      var (next, first) := FeedOutput(lib, model, r, chunks[0]);
      ChunkKeeps(lib, model, r, chunks[0], text);
      ChunksKeep(lib, model, next, chunks[1..], text + Concat(first.value));
      var rest := FeedOutputs(lib, model, next, chunks[1..]).1;
      ConcatSplit(first.value, rest.value);
      JoinText(text, Concat(first.value), Concat(rest.value));
    }
  }

  /** A receiver that has failed stays so, and only accepted chunks leave one that receives. */
  lemma {:induction false} FailuresStay(lib: Libraries, model: string, r: Receiver, chunks: seq<string>)
    requires r.Receiving?
    ensures FeedOutputs(lib, model, r, chunks).1.Ok? <==> FeedOutputs(lib, model, r, chunks).0.Receiving?
    decreases |chunks|
  {
    hide Feed, AbsorbAll;
    if chunks != [] && FeedOutput(lib, model, r, chunks[0]).1.Ok? {
      FailuresStay(lib, model, FeedOutput(lib, model, r, chunks[0]).0, chunks[1..]);
    }
  }

  /** Whatever bytes arrive, however they are cut: as long as they are accepted, the ids, finish
      reason and usage kept for the turn are those the stream was checked against, the reasoning
      is valid, and the text is what was shown. */
  lemma DecodersAgree(lib: Libraries, model: string, chunks: seq<string>)
    requires FeedOutputs(lib, model, LISTENING, chunks).0.Receiving?
    ensures var (r, visible) := FeedOutputs(lib, model, LISTENING, chunks);
            visible.Ok? && Consistent(lib, r, Concat(visible.value))
  {
    hide Agree, FeedOutputs, Concat;
    FailuresStay(lib, model, LISTENING, chunks);
    FreshAgree();
    ChunksKeep(lib, model, LISTENING, chunks, "");
    JoinText("", "", Concat(FeedOutputs(lib, model, LISTENING, chunks).1.value));
  }

  /** Nothing visible is lost, repeated or reordered: the text of a decoded turn is what was
      shown on the way, put together. */
  lemma TextIsWhatWasShown(lib: Libraries, model: string, request: InferenceRequest, chunks: seq<string>)
    requires FinishTurn(lib, request, FeedOutputs(lib, model, LISTENING, chunks).0).Ok?
    ensures var (r, visible) := FeedOutputs(lib, model, LISTENING, chunks);
            visible.Ok? && FinishTurn(lib, request, r).value.text == Concat(visible.value)
  {
    hide FeedOutputs, Agree, AcceptedTurn, CallsOfTools, Finished, Concat;
    DecodersAgree(lib, model, chunks);
  }

  /** A finished stream lacks nothing: a turn is refused only for more output than was reserved,
      for incomplete tool fragments, or for output that the request does not allow. */
  lemma FinishedTurns(lib: Libraries, model: string, request: InferenceRequest, chunks: seq<string>)
    requires var r := FeedOutputs(lib, model, LISTENING, chunks).0; r.Receiving? && Finished(r.stream)
    ensures var r := FeedOutputs(lib, model, LISTENING, chunks).0;
            && r.output.usage.Some? && AsU64(Get(r.output.usage.value, "completion_tokens")).Some?
            && KnownReason(r.output.finishReason) && r.output.generationId == r.stream.decoding.generation
            && var used := AsU64(Get(r.output.usage.value, "completion_tokens")).value;
               && (FinishTurn(lib, request, r).Ok? <==>
                     && used <= request.outputReserveTokens && CallsOfTools(lib, r.output.tools).Ok?
                     && AcceptedTurn(lib, request, r.output.finishReason, r.output.text,
                                     CallsOfTools(lib, r.output.tools).value))
               && (FinishTurn(lib, request, r) == Err(OutputTruncated) <==> used > request.outputReserveTokens)
  {
    hide FeedOutputs, CallsOfTools, AcceptedTurn, SoundReasoning;
    DecodersAgree(lib, model, chunks);
    IncompleteCalls(lib, FeedOutputs(lib, model, LISTENING, chunks).0.output.tools);
  }

  lemma AcceptedByTheJournal(lib: Libraries, r: Receiver, run: Journal.Run)
    requires Compiles(lib, run.request) && Steps.PaidRun(run)
    requires r.Receiving? ==> SoundReasoning(lib, r.output)
    requires FinishTurn(lib, run.request, r).Ok? && FinishTurn(lib, run.request, r).value.calls != []
    ensures var turn := FinishTurn(lib, run.request, r).value;
            Steps.CheckTurn(lib, run, turn.calls, turn.reasoning) == Pass
  {
    hide ReturnedTools, Compiles, ToolCallsMatch, ValidReasoning, CallsOfTools, Finished, OutputMatches;
  }
}
