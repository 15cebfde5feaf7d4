/** How a turn is put together from the frames of its stream, written out over their deltas: texts in
    the order of arrival, tool calls by their index. */
module Assembly {
  import opened Base
  import opened Externals
  import opened Frames
  import opened Inference
  import opened JsonValue
  import opened Outputs
  import opened Splitting
  import opened Streams
  import opened Turns

  // ----- the terms -----

  predicate HasDelta(frame: Frame) {
    !frame.Done? && Choices(frame.value) != []
  }

  /** The deltas of the frames, in order. */
  function Deltas(frames: seq<Frame>): seq<Json> {
    if frames == [] then []
    else
      var init, last := frames[..|frames| - 1], frames[|frames| - 1];
      Deltas(init) + if HasDelta(last) then [Member(Choices(last.value)[0], "delta")] else []
  }

  function TextOf(value: Json): string {
    match value
    case Str(chars) => chars
    case _ => ""
  }

  function ItemsOf(value: Json): seq<Json> {
    match value
    case Arr(items) => items
    case _ => []
  }

  /** The texts under a key, put together. */
  function Texts(deltas: seq<Json>, key: string): string {
    if deltas == [] then "" else Texts(deltas[..|deltas| - 1], key) + TextOf(Member(deltas[|deltas| - 1], key))
  }

  /** The private reasoning, under whichever of its two names it comes. */
  function Thoughts(deltas: seq<Json>): string {
    if deltas == [] then ""
    else
      var last := deltas[|deltas| - 1];
      Thoughts(deltas[..|deltas| - 1]) + TextOf(Member(last, "reasoning")) + TextOf(Member(last, "reasoning_content"))
  }

  function Items(deltas: seq<Json>, key: string): seq<Json> {
    if deltas == [] then [] else Items(deltas[..|deltas| - 1], key) + ItemsOf(Member(deltas[|deltas| - 1], key))
  }

  function Bytes(lib: Libraries, deltas: seq<Json>): nat {
    if deltas == [] then 0 else Bytes(lib, deltas[..|deltas| - 1]) + lib.jsonBytes(deltas[|deltas| - 1])
  }

  /** The fragment belongs to the call with this index. */
  predicate At(fragment: Json, i: nat) {
    IsWhole(Member(fragment, "index")) && NumberOf(Member(fragment, "index")) == i
  }

  predicate Used(fragments: seq<Json>, i: nat) {
    exists k :: 0 <= k < |fragments| && At(fragments[k], i)
  }

  predicate HasId(fragment: Json) {
    !Member(fragment, "id").Null?
  }

  predicate Identified(fragments: seq<Json>, i: nat) {
    exists k :: 0 <= k < |fragments| && At(fragments[k], i) && HasId(fragments[k])
  }

  /** Everything sent under a field of the function with this index, put together. */
  function Pieces(fragments: seq<Json>, i: nat, field: string): string {
    if fragments == [] then ""
    else
      var last := fragments[|fragments| - 1];
      Pieces(fragments[..|fragments| - 1], i, field)
      + if At(last, i) then TextOf(Member(Member(last, "function"), field)) else ""
  }

  // ----- tool fragments -----

  /** The fragment may come after those before it. */
  predicate FragmentFollows(before: seq<Json>, fragment: Json) {
    && IsWhole(Member(fragment, "index")) && NumberOf(Member(fragment, "index")) < 128
    && Member(fragment, "type") in {Null, Str("function")}
    && (HasId(fragment) ==>
          && Member(fragment, "id").Str? && 0 < |Member(fragment, "id").chars| <= 256
          && forall k :: 0 <= k < |before| && At(before[k], NumberOf(Member(fragment, "index"))) && HasId(before[k]) ==>
               Member(before[k], "id") == Member(fragment, "id"))
    && var callee := Member(fragment, "function");
       callee.Null?
       || (&& callee.Obj?
           && (Member(callee, "name").Null? || Member(callee, "name").Str?)
           && (Member(callee, "arguments").Null? || Member(callee, "arguments").Str?)
           && |Pieces(before, NumberOf(Member(fragment, "index")), "name") + TextOf(Member(callee, "name"))| <= 256)
  }

  predicate FragmentsFollow(before: seq<Json>, more: seq<Json>) {
    forall k :: 0 <= k < |more| ==> FragmentFollows(before + more[..k], more[k])
  }

  /** One entry of the map of calls under construction. */
  predicate BuiltAt(fragments: seq<Json>, entry: Fragments, i: nat) {
    && entry.name == Pieces(fragments, i, "name") && entry.arguments == Pieces(fragments, i, "arguments")
    && (entry.id.Some? <==> Identified(fragments, i))
    && (forall k :: 0 <= k < |fragments| && At(fragments[k], i) && HasId(fragments[k]) ==>
          entry.id.Some? && Member(fragments[k], "id") == Str(entry.id.value))
  }

  ghost predicate ToolsBuilt(fragments: seq<Json>, tools: map<nat, Fragments>) {
    && (forall i :: i in tools <==> Used(fragments, i))
    && (forall i :: i in tools ==> BuiltAt(fragments, tools[i], i))
  }

  lemma {:induction false} UnusedIsEmpty(fragments: seq<Json>, i: nat, field: string)
    requires !Used(fragments, i)
    ensures Pieces(fragments, i, field) == "" && !Identified(fragments, i)
    decreases |fragments|
  {
    if fragments != [] {
      assert !At(fragments[|fragments| - 1], i);
      assert forall k :: 0 <= k < |fragments| - 1 ==> fragments[..|fragments| - 1][k] == fragments[k];
      UnusedIsEmpty(fragments[..|fragments| - 1], i, field);
    }
  }

  lemma PiecesNext(before: seq<Json>, fragment: Json, i: nat, field: string)
    ensures Pieces(before + [fragment], i, field) ==
            Pieces(before, i, field)
            + if At(fragment, i) then TextOf(Member(Member(fragment, "function"), field)) else ""
  {
    assert (before + [fragment])[..|before|] == before;
  }

  /** What the fragment makes of its entry. */
  lemma EntryIs(before: seq<Json>, fragment: Json, entry: Fragments)
    requires IsWhole(Member(fragment, "index")) && NumberOf(Member(fragment, "index")) < 128
    requires BuiltAt(before, entry, NumberOf(Member(fragment, "index")))
    ensures var identified := AppendId(entry, fragment);
            var r := if identified.Err? then identified else AppendFunction(identified.value, fragment);
            && (r.Ok? && Member(fragment, "type") in {Null, Str("function")} <==> FragmentFollows(before, fragment))
            && (r.Ok? ==>
                  && r.value.id == (if HasId(fragment) then Some(TextOf(Member(fragment, "id"))) else entry.id)
                  && r.value.name == entry.name + TextOf(Member(Member(fragment, "function"), "name"))
                  && r.value.arguments == entry.arguments + TextOf(Member(Member(fragment, "function"), "arguments")))
  {
    hide IsWhole, NumberOf, Pieces;
    var i, callee := NumberOf(Member(fragment, "index")), Member(fragment, "function");
    MembersAre(fragment, "id");
    MembersAre(fragment, "function");
    MembersAre(callee, "name");
    MembersAre(callee, "arguments");
    if entry.id.Some? {
      var k :| 0 <= k < |before| && At(before[k], i) && HasId(before[k]);
    }
  }

  lemma EntryBuilt(before: seq<Json>, fragment: Json, entry: Fragments, after: Fragments, i: nat)
    requires At(fragment, i) && FragmentFollows(before, fragment) && BuiltAt(before, entry, i)
    requires after.id == if HasId(fragment) then Some(TextOf(Member(fragment, "id"))) else entry.id
    requires after.name == entry.name + TextOf(Member(Member(fragment, "function"), "name"))
    requires after.arguments == entry.arguments + TextOf(Member(Member(fragment, "function"), "arguments"))
    ensures BuiltAt(before + [fragment], after, i)
  {
    hide IsWhole, NumberOf, Pieces;
    var fragments := before + [fragment];
    PiecesNext(before, fragment, i, "name");
    PiecesNext(before, fragment, i, "arguments");
    assert fragments[|before|] == fragment && forall k :: 0 <= k < |before| ==> fragments[k] == before[k];
    if Identified(before, i) {
      var k :| 0 <= k < |before| && At(before[k], i) && HasId(before[k]);
      assert At(fragments[k], i) && HasId(fragments[k]);
    }
    if HasId(fragment) {
      assert At(fragments[|before|], i) && HasId(fragments[|before|]);
    }
  }

  lemma OtherEntry(before: seq<Json>, fragment: Json, entry: Fragments, i: nat)
    requires !At(fragment, i) && BuiltAt(before, entry, i)
    ensures BuiltAt(before + [fragment], entry, i)
  {
    hide IsWhole, NumberOf, Pieces;
    var fragments := before + [fragment];
    PiecesNext(before, fragment, i, "name");
    PiecesNext(before, fragment, i, "arguments");
    assert fragments[|before|] == fragment && forall k :: 0 <= k < |before| ==> fragments[k] == before[k];
    assert "" == [];
    if Identified(before, i) {
      var k :| 0 <= k < |before| && At(before[k], i) && HasId(before[k]);
      assert At(fragments[k], i) && HasId(fragments[k]);
    }
  }

  lemma UsedNext(before: seq<Json>, fragment: Json, i: nat)
    ensures Used(before + [fragment], i) <==> Used(before, i) || At(fragment, i)
  {
    hide IsWhole, NumberOf;
    var fragments := before + [fragment];
    assert fragments[|before|] == fragment && forall k :: 0 <= k < |before| ==> fragments[k] == before[k];
    if Used(before, i) {
      var k :| 0 <= k < |before| && At(before[k], i);
      assert At(fragments[k], i);
    }
    if At(fragment, i) {
      assert At(fragments[|before|], i);
    }
  }

  /** A fragment is taken exactly when it may come next, and goes to the call of its index. */
  lemma FragmentIs(before: seq<Json>, tools: map<nat, Fragments>, fragment: Json)
    requires ToolsBuilt(before, tools)
    ensures AppendTool(tools, fragment).Ok? <==> FragmentFollows(before, fragment)
    ensures AppendTool(tools, fragment).Ok? ==> ToolsBuilt(before + [fragment], AppendTool(tools, fragment).value)
  {
    hide IsWhole, NumberOf, Pieces, AppendId, AppendFunction, BuiltAt, FragmentFollows, Used;
    MembersAre(fragment, "index");
    MembersAre(fragment, "type");
    NumbersAre(Member(fragment, "index"));
    FollowingIndex(before, fragment);
    if IsWhole(Member(fragment, "index")) && NumberOf(Member(fragment, "index")) < 128 {
      var i := NumberOf(Member(fragment, "index"));
      var entry := if i in tools then tools[i] else Fragments(None, "", "");
      if i !in tools {
        FreshEntry(before, i);
      }
      EntryIs(before, fragment, entry);
      if AppendTool(tools, fragment).Ok? {
        var after := AppendTool(tools, fragment).value;
        EntryBuilt(before, fragment, entry, after[i], i);
        forall j ensures j in after <==> Used(before + [fragment], j) {
          UsedNext(before, fragment, j);
        }
        forall j | j in after ensures BuiltAt(before + [fragment], after[j], j) {
          if j != i {
            OtherEntry(before, fragment, tools[j], j);
          }
        }
      }
    }
  }

  lemma FollowingIndex(before: seq<Json>, fragment: Json)
    ensures FragmentFollows(before, fragment) ==>
              IsWhole(Member(fragment, "index")) && NumberOf(Member(fragment, "index")) < 128
  {
  }

  lemma FreshEntry(before: seq<Json>, i: nat)
    requires !Used(before, i)
    ensures BuiltAt(before, Fragments(None, "", ""), i)
  {
    hide IsWhole, NumberOf;
    UnusedIsEmpty(before, i, "name");
    UnusedIsEmpty(before, i, "arguments");
  }

  lemma FollowNext(before: seq<Json>, init: seq<Json>, last: Json)
    ensures FragmentsFollow(before, init + [last]) <==>
            FragmentsFollow(before, init) && FragmentFollows(before + init, last)
  {
    hide FragmentFollows;
    var more := init + [last];
    assert more[..|init|] == init && more[|init|] == last;
    forall k | 0 <= k < |init| ensures more[..k] == init[..k] && more[k] == init[k] {
    }
    if FragmentsFollow(before, more) {
      forall k | 0 <= k < |init| ensures FragmentFollows(before + init[..k], init[k]) {
        assert FragmentFollows(before + more[..k], more[k]);
      }
      assert FragmentFollows(before + more[..|init|], more[|init|]);
    }
  }

  lemma {:induction false} FragmentsAre(before: seq<Json>, tools: map<nat, Fragments>, more: seq<Json>)
    requires ToolsBuilt(before, tools)
    ensures AppendTools(tools, more).Ok? <==> FragmentsFollow(before, more)
    ensures AppendTools(tools, more).Ok? ==> ToolsBuilt(before + more, AppendTools(tools, more).value)
    decreases |more|
  {
    hide AppendTool, ToolsBuilt, FragmentsFollow;
    if more == [] {
      assert before + [] == before;
      assert FragmentsFollow(before, more) by { NoneFollow(before); }
    } else {
      var init, last := more[..|more| - 1], more[|more| - 1];
      assert more == init + [last] && before + more == (before + init) + [last];
      FragmentsAre(before, tools, init);
      FollowNext(before, init, last);
      if AppendTools(tools, init).Ok? {
        FragmentIs(before + init, AppendTools(tools, init).value, last);
      }
    }
  }

  lemma NoneFollow(before: seq<Json>)
    ensures FragmentsFollow(before, [])
  {
  }

  // ----- deltas -----

  predicate TextOrNull(value: Json) {
    value.Null? || value.Str?
  }

  /** The private reasoning of a delta may come after what was thought before. */
  predicate ThoughtFollows(lib: Libraries, before: seq<Json>, delta: Json) {
    && TextOrNull(Member(delta, "reasoning")) && TextOrNull(Member(delta, "reasoning_content"))
    && (Member(delta, "reasoning").Null? || Member(delta, "reasoning_content").Null?)
    && (Member(delta, "reasoning_details").Null? || Member(delta, "reasoning_details").Arr?)
    && (Member(delta, "reasoning").Str? || Member(delta, "reasoning_content").Str? ==>
          |Thoughts(before + [delta])| <= 8_388_608)
    && |Items(before + [delta], "reasoning_details")| <= 4096
    && (forall k :: 0 <= k < |ItemsOf(Member(delta, "reasoning_details"))| ==>
          DetailKnown(ItemsOf(Member(delta, "reasoning_details"))[k]))
    && lib.reasoningBytes(Reasoning(Thoughts(before + [delta]), Items(before + [delta], "reasoning_details")))
       <= 8_388_608
  }

  /** The delta may come after those before it. */
  predicate DeltaFollows(lib: Libraries, before: seq<Json>, delta: Json) {
    && delta.Obj?
    && (forall key :: key in delta.fields ==>
          key in {"role", "content", "tool_calls", "reasoning", "reasoning_content", "reasoning_details"})
    && Member(delta, "role") in {Null, Str("assistant")}
    && Bytes(lib, before) + lib.jsonBytes(delta) <= 8_388_608
    && ThoughtFollows(lib, before, delta)
    && TextOrNull(Member(delta, "content"))
    && (Member(delta, "tool_calls").Null? || Member(delta, "tool_calls").Arr?)
    && FragmentsFollow(Items(before, "tool_calls"), ItemsOf(Member(delta, "tool_calls")))
  }

  predicate DeltasFollow(lib: Libraries, deltas: seq<Json>) {
    forall k :: 0 <= k < |deltas| ==> DeltaFollows(lib, deltas[..k], deltas[k])
  }

  /** What has been put together from the deltas. */
  ghost predicate Built(lib: Libraries, deltas: seq<Json>, o: Output) {
    && o.text == Texts(deltas, "content")
    && o.reasoning.text == Thoughts(deltas) && o.reasoning.details == Items(deltas, "reasoning_details")
    && o.receivedBytes == Bytes(lib, deltas)
    && ToolsBuilt(Items(deltas, "tool_calls"), o.tools)
    && |o.reasoning.details| <= 4096
    && (forall k :: 0 <= k < |o.reasoning.details| ==> DetailKnown(o.reasoning.details[k]))
  }

  lemma NextDelta(lib: Libraries, before: seq<Json>, delta: Json)
    ensures var deltas := before + [delta];
            && (forall key :: Texts(deltas, key) == Texts(before, key) + TextOf(Member(delta, key)))
            && (forall key :: Items(deltas, key) == Items(before, key) + ItemsOf(Member(delta, key)))
            && Thoughts(deltas) ==
               Thoughts(before) + TextOf(Member(delta, "reasoning")) + TextOf(Member(delta, "reasoning_content"))
            && Bytes(lib, deltas) == Bytes(lib, before) + lib.jsonBytes(delta)
  {
    assert (before + [delta])[..|before|] == before;
  }

  lemma ThoughtTextIs(before: string, delta: Json)
    ensures var r := AppendReasoningText(before, delta);
            && (r.Ok? <==>
                  && TextOrNull(Member(delta, "reasoning")) && TextOrNull(Member(delta, "reasoning_content"))
                  && (Member(delta, "reasoning").Null? || Member(delta, "reasoning_content").Null?)
                  && (Member(delta, "reasoning").Str? || Member(delta, "reasoning_content").Str? ==>
                        |before + TextOf(Member(delta, "reasoning")) + TextOf(Member(delta, "reasoning_content"))|
                        <= 8_388_608))
            && (r.Ok? ==>
                  r.value == before + TextOf(Member(delta, "reasoning")) + TextOf(Member(delta, "reasoning_content")))
  {
    MembersAre(delta, "reasoning");
    MembersAre(delta, "reasoning_content");
  }

  lemma DetailsAre(before: seq<Json>, delta: Json)
    requires |before| <= 4096
    ensures var r, more := AppendReasoningDetails(before, delta), ItemsOf(Member(delta, "reasoning_details"));
            && (r.Ok? <==>
                  && (Member(delta, "reasoning_details").Null? || Member(delta, "reasoning_details").Arr?)
                  && |before + more| <= 4096
                  && forall k :: 0 <= k < |more| ==> DetailKnown(more[k]))
            && (r.Ok? ==> r.value == before + more)
  {
    hide ReasoningDetail, DetailKnown;
    MembersAre(delta, "reasoning_details");
    var more := ItemsOf(Member(delta, "reasoning_details"));
    forall k | 0 <= k < |more| ensures ReasoningDetail(more[k]) <==> DetailKnown(more[k]) {
      DetailIs(more[k]);
    }
    assert before + [] == before;
  }

  lemma ThoughtIs(lib: Libraries, before: seq<Json>, o: Output, delta: Json)
    requires Built(lib, before, o)
    ensures var r := AppendReasoning(lib, o.reasoning, delta);
            && (r.Ok? <==> ThoughtFollows(lib, before, delta))
            && (r.Ok? ==>
                  && r.value == Reasoning(Thoughts(before + [delta]), Items(before + [delta], "reasoning_details"))
                  && |r.value.details| <= 4096
                  && forall k :: 0 <= k < |r.value.details| ==> DetailKnown(r.value.details[k]))
  {
    hide AppendReasoningText, AppendReasoningDetails, DetailKnown, ReasoningDetail, ToolsBuilt, TextOrNull, Thoughts,
         Items;
    NextDelta(lib, before, delta);
    ThoughtTextIs(o.reasoning.text, delta);
    DetailsAre(o.reasoning.details, delta);
    var details := Items(before + [delta], "reasoning_details");
    forall k | 0 <= k < |details| ensures ReasoningDetail(details[k]) <==> DetailKnown(details[k]) {
      DetailIs(details[k]);
    }
  }

  lemma KeysAre(delta: Json)
    ensures KnownDelta(delta) <==>
            && delta.Obj?
            && (forall key :: key in delta.fields ==>
                  key in {"role", "content", "tool_calls", "reasoning", "reasoning_content", "reasoning_details"})
            && Member(delta, "role") in {Null, Str("assistant")}
  {
    MembersAre(delta, "role");
    if delta.Obj? {
      forall key | key in delta.fields
        ensures KnownKey(key) <==>
                key in {"role", "content", "tool_calls", "reasoning", "reasoning_content", "reasoning_details"}
      {
      }
    }
  }

  /** A delta is taken exactly when it may come next. */
  lemma DeltaIs(lib: Libraries, before: seq<Json>, o: Output, delta: Json)
    requires Built(lib, before, o)
    ensures AbsorbDelta(lib, o, delta).Ok? <==> DeltaFollows(lib, before, delta)
    ensures AbsorbDelta(lib, o, delta).Ok? ==> Built(lib, before + [delta], AbsorbDelta(lib, o, delta).value.0)
  {
    hide KnownDelta, AppendReasoning, AppendTools, ThoughtFollows, FragmentsFollow, ToolsBuilt, DetailKnown, Texts,
         Items, Thoughts, Bytes;
    NextDelta(lib, before, delta);
    KeysAre(delta);
    ThoughtIs(lib, before, o, delta);
    MembersAre(delta, "content");
    MembersAre(delta, "tool_calls");
    FragmentsAre(Items(before, "tool_calls"), o.tools, ItemsOf(Member(delta, "tool_calls")));
    assert o.text + "" == o.text;
  }

  lemma SameBuilt(lib: Libraries, deltas: seq<Json>, a: Output, b: Output)
    requires Built(lib, deltas, a)
    requires b == a.(finishReason := b.finishReason, generationId := b.generationId, usage := b.usage)
    ensures Built(lib, deltas, b)
  {
    hide ToolsBuilt, DetailKnown, Texts, Items, Thoughts, Bytes;
  }

  /** A frame is taken exactly when its delta, if it has one, may come next. */
  lemma FrameIs(lib: Libraries, deltas: seq<Json>, o: Output, frame: Frame)
    requires Built(lib, deltas, o) && (!frame.Done? ==> |Choices(frame.value)| <= 1)
    ensures var r := Absorb(lib, o, frame);
            && (r.Ok? <==> (HasDelta(frame) ==> DeltaFollows(lib, deltas, Member(Choices(frame.value)[0], "delta"))))
            && (r.Ok? ==>
                  Built(lib, if HasDelta(frame) then deltas + [Member(Choices(frame.value)[0], "delta")] else deltas,
                        r.value.0))
  {
    hide AbsorbDelta, DeltaFollows, Built;
    if !frame.Done? {
      MembersAre(frame.value, "choices");
      var head := Headed(o, frame.value);
      SameBuilt(lib, deltas, o, head);
      if HasDelta(frame) {
        var choice := Choices(frame.value)[0];
        MembersAre(choice, "delta");
        SameBuilt(lib, deltas, head, Reasoned(head, choice));
        DeltaIs(lib, deltas, Reasoned(head, choice), Member(choice, "delta"));
      }
    }
  }

  lemma DeltasNext(lib: Libraries, deltas: seq<Json>, delta: Json)
    ensures DeltasFollow(lib, deltas + [delta]) <==> DeltasFollow(lib, deltas) && DeltaFollows(lib, deltas, delta)
  {
    hide DeltaFollows;
    var all := deltas + [delta];
    assert all[..|deltas|] == deltas && all[|deltas|] == delta;
    forall k | 0 <= k < |deltas| ensures all[..k] == deltas[..k] && all[k] == deltas[k] {
    }
    if DeltasFollow(lib, all) {
      forall k | 0 <= k < |deltas| ensures DeltaFollows(lib, deltas[..k], deltas[k]) {
        assert DeltaFollows(lib, all[..k], all[k]);
      }
      assert DeltaFollows(lib, all[..|deltas|], all[|deltas|]);
    }
  }

  lemma {:induction false} AbsorbedIs(lib: Libraries, frames: seq<Frame>)
    requires forall k :: 0 <= k < |frames| && !frames[k].Done? ==> |Choices(frames[k].value)| <= 1
    ensures AbsorbAll(lib, NO_OUTPUT, frames).Ok? <==> DeltasFollow(lib, Deltas(frames))
    ensures AbsorbAll(lib, NO_OUTPUT, frames).Ok? ==>
              Built(lib, Deltas(frames), AbsorbAll(lib, NO_OUTPUT, frames).value.0)
    decreases |frames|
  {
    hide Absorb, Built, DeltasFollow;
    if frames == [] {
      NothingBuilt(lib);
    } else {
      var init, last := frames[..|frames| - 1], frames[|frames| - 1];
      AbsorbedIs(lib, init);
      if HasDelta(last) {
        DeltasNext(lib, Deltas(init), Member(Choices(last.value)[0], "delta"));
      } else {
        assert Deltas(init) + [] == Deltas(init);
      }
      if AbsorbAll(lib, NO_OUTPUT, init).Ok? {
        FrameIs(lib, Deltas(init), AbsorbAll(lib, NO_OUTPUT, init).value.0, last);
      }
    }
  }

  lemma NothingBuilt(lib: Libraries)
    ensures Built(lib, [], NO_OUTPUT) && DeltasFollow(lib, [])
  {
  }

  // ----- whole responses -----

  /** The receiver has exactly the frames that the stream decoder delivers. */
  lemma {:induction false} OutputsAreAbsorbed(lib: Libraries, model: string, s: Stream, o: Output, chunks: seq<string>)
    ensures var fed, all := FeedOutputs(lib, model, Receiving(s, o), chunks), FeedAll(lib, model, s, chunks);
            && (fed.1.Ok? ==>
                  && all.1.Ok? && AbsorbAll(lib, o, all.1.value).Ok?
                  && fed.0 == Receiving(all.0, AbsorbAll(lib, o, all.1.value).value.0))
            && (all.1.Ok? && AbsorbAll(lib, o, all.1.value).Ok? ==> fed.1.Ok?)
    decreases |chunks|
  {
    hide Feed, Absorb, AbsorbAll;
    if chunks == [] {
      assert AbsorbAll(lib, o, []) == Ok((o, [])) by { AbsorbNothing(lib, o); }
    } else {
      var (t, first) := Feed(lib, model, s, chunks[0]);
      if first.Ok? {
        var rest := FeedAll(lib, model, t, chunks[1..]);
        if AbsorbAll(lib, o, first.value).Ok? {
          OutputsAreAbsorbed(lib, model, t, AbsorbAll(lib, o, first.value).value.0, chunks[1..]);
        }
        if rest.1.Ok? {
          AbsorbSplit(lib, o, first.value, rest.1.value);
        }
      }
    }
  }

  lemma AbsorbNothing(lib: Libraries, o: Output)
    ensures AbsorbAll(lib, o, []) == Ok((o, []))
  {
  }

  /** The deltas that a stream delivers. */
  function Said(lib: Libraries, model: string, chunks: seq<string>): seq<Json>
    requires FeedAll(lib, model, Open(0, FRESH), chunks).1.Ok?
  {
    Deltas(FeedAll(lib, model, Open(0, FRESH), chunks).1.value)
  }

  lemma OneChoiceEach(model: string, frames: seq<Frame>)
    requires WellFormed(model, frames)
    ensures forall k :: 0 <= k < |frames| && !frames[k].Done? ==> |Choices(frames[k].value)| <= 1
  {
    forall k | 0 <= k < |frames| && !frames[k].Done? ensures |Choices(frames[k].value)| <= 1 {
      assert Follows(model, frames[..k], frames[k]);
    }
  }

  /** A response is received, however its bytes are cut, exactly when the stream is accepted and each
      of its deltas may come after those before it. */
  lemma ResponsesAccepted(lib: Libraries, model: string, chunks: seq<string>)
    ensures FeedOutputs(lib, model, LISTENING, chunks).1.Ok? <==>
            FeedAll(lib, model, Open(0, FRESH), chunks).1.Ok? && DeltasFollow(lib, Said(lib, model, chunks))
    ensures FeedOutputs(lib, model, LISTENING, chunks).1.Ok? ==>
              && FeedOutputs(lib, model, LISTENING, chunks).0.Receiving?
              && FeedOutputs(lib, model, LISTENING, chunks).0.stream == FeedAll(lib, model, Open(0, FRESH), chunks).0
              && Built(lib, Said(lib, model, chunks), FeedOutputs(lib, model, LISTENING, chunks).0.output)
  {
    hide FeedAll, FeedOutputs, AbsorbAll, WellFormed, DeltasFollow, Built, Deltas;
    OutputsAreAbsorbed(lib, model, Open(0, FRESH), NO_OUTPUT, chunks);
    var all := FeedAll(lib, model, Open(0, FRESH), chunks);
    if all.1.Ok? {
      DeliveredFramesAreWellFormed(lib, model, chunks);
      OneChoiceEach(model, all.1.value);
      AbsorbedIs(lib, all.1.value);
    }
  }

  /** The fragments of a call are complete: it has an id, and its arguments are JSON. */
  predicate CallComplete(lib: Libraries, fragments: seq<Json>, i: nat) {
    Identified(fragments, i) && lib.parse(Pieces(fragments, i, "arguments")).Some?
  }

  /** The call with index i is what was sent under that index. */
  predicate CallAssembled(lib: Libraries, fragments: seq<Json>, i: nat, call: ToolCall) {
    && call.name == Pieces(fragments, i, "name")
    && lib.parse(Pieces(fragments, i, "arguments")) == Some(call.arguments)
    && Identified(fragments, i)
    && forall k :: 0 <= k < |fragments| && At(fragments[k], i) && HasId(fragments[k]) ==>
         Member(fragments[k], "id") == Str(call.id)
  }

  /** The first n numbers. */
  function Firsts(n: nat): (s: set<nat>)
    ensures |s| == n && forall i :: i in s <==> 0 <= i < n
  {
    if n == 0 then {} else Firsts(n - 1) + {n - 1}
  }

  /** Indices are consecutive exactly when those used are the first ones. */
  lemma ConsecutiveIs(tools: map<nat, Fragments>)
    ensures Consecutive(tools) <==> forall i: nat :: i in tools <==> i < |tools|
  {
    if Consecutive(tools) {
      assert Firsts(|tools|) <= tools.Keys;
      SubsetSameSize(Firsts(|tools|), tools.Keys);
    }
  }

  lemma FirstAreConsecutive(tools: map<nat, Fragments>, n: nat)
    requires forall i: nat :: i in tools <==> i < n
    ensures |tools| == n && Consecutive(tools)
  {
    assert tools.Keys == Firsts(n);
    assert |tools| == |tools.Keys|;
  }

  /** The calls of a turn: as many as the indices used, which are the first ones, each complete. */
  lemma CallsAssembled(lib: Libraries, fragments: seq<Json>, tools: map<nat, Fragments>)
    requires ToolsBuilt(fragments, tools)
    ensures CallsOfTools(lib, tools).Ok? ==>
              && (forall i: nat :: Used(fragments, i) <==> i < |CallsOfTools(lib, tools).value|)
              && forall i :: 0 <= i < |CallsOfTools(lib, tools).value| ==>
                   CallAssembled(lib, fragments, i, CallsOfTools(lib, tools).value[i])
  {
    hide Used, At, Pieces, HasId;
    ConsecutiveIs(tools);
    if CallsOfTools(lib, tools).Ok? {
      forall i | 0 <= i < |tools| ensures CallAssembled(lib, fragments, i, CallsOfTools(lib, tools).value[i]) {
        assert BuiltAt(fragments, tools[i], i);
      }
    }
  }

  /** And conversely. */
  lemma CallsComplete(lib: Libraries, fragments: seq<Json>, tools: map<nat, Fragments>, n: nat)
    requires ToolsBuilt(fragments, tools)
    requires forall i: nat :: Used(fragments, i) <==> i < n
    requires forall i: nat :: i < n ==> CallComplete(lib, fragments, i)
    ensures CallsOfTools(lib, tools).Ok?
  {
    hide Used, At, Pieces, HasId;
    FirstAreConsecutive(tools, n);
    forall i | 0 <= i < |tools| ensures Outputs.Whole(lib, tools[i]) {
      assert BuiltAt(fragments, tools[i], i) && CallComplete(lib, fragments, i);
    }
  }

  /** For every way the bytes arrive, a decoded turn is what was sent: its text, its reasoning and the
      name, arguments and id of each call are put together in order from the deltas of the stream. */
  lemma TurnsAreAssembled(lib: Libraries, model: string, request: InferenceRequest, chunks: seq<string>)
    requires FinishTurn(lib, request, FeedOutputs(lib, model, LISTENING, chunks).0).Ok?
    ensures FeedAll(lib, model, Open(0, FRESH), chunks).1.Ok?
    ensures var turn := FinishTurn(lib, request, FeedOutputs(lib, model, LISTENING, chunks).0).value;
            var deltas := Said(lib, model, chunks);
            var thoughts, details := Thoughts(deltas), Items(deltas, "reasoning_details");
            && turn.text == Texts(deltas, "content")
            && turn.reasoning ==
               (if thoughts == "" && details == [] then None else Some(Reasoning(thoughts, details)))
            && (forall i: nat :: Used(Items(deltas, "tool_calls"), i) <==> i < |turn.calls|)
            && (forall i :: 0 <= i < |turn.calls| ==>
                  CallAssembled(lib, Items(deltas, "tool_calls"), i, turn.calls[i]))
    ensures var turn := FinishTurn(lib, request, FeedOutputs(lib, model, LISTENING, chunks).0).value;
            var frames := FeedAll(lib, model, Open(0, FRESH), chunks).1.value;
            forall k :: 0 <= k < |frames| && !frames[k].Done? ==>
              && Member(frames[k].value, "id") == Str(turn.generationId)
              && (frames[k].Usage? ==> Member(frames[k].value, "usage") == turn.usage)
  {
    hide FeedAll, FeedOutputs, DeltasFollow, Deltas, Used, CallAssembled, CallsOfTools, AcceptedTurn, Finished, Texts,
         Items, Thoughts, Bytes, ToolsBuilt, DetailKnown, Said, AnyEnd, AnyUsage, WellFormed;
    ResponsesAccepted(lib, model, chunks);
    FailuresStay(lib, model, LISTENING, chunks);
    UsageOfStream(lib, model, chunks);
    StreamTracks(lib, model, chunks);
    DecodersAgree(lib, model, chunks);
    AgreedReason(lib, FeedOutputs(lib, model, LISTENING, chunks).0, FeedOutputs(lib, model, LISTENING, chunks).1.value);
    var r := FeedOutputs(lib, model, LISTENING, chunks).0;
    var deltas := Said(lib, model, chunks);
    CallsAssembled(lib, Items(deltas, "tool_calls"), r.output.tools);
  }

  // ----- when a response becomes a turn -----

  predicate Assembled(lib: Libraries, fragments: seq<Json>, i: nat, calls: seq<ToolCall>) {
    if i < |calls| then Used(fragments, i) && CallAssembled(lib, fragments, i, calls[i]) else !Used(fragments, i)
  }

  ghost predicate AllAssembled(lib: Libraries, fragments: seq<Json>, calls: seq<ToolCall>) {
    forall i: nat :: Assembled(lib, fragments, i, calls)
  }

  predicate EndedBy(frames: seq<Frame>, reason: string) {
    exists k :: 0 <= k < |frames| && Ends(frames[k]) && ReasonOf(frames[k]) == reason
  }

  predicate WithinReserve(frames: seq<Frame>, reserve: nat) {
    forall k :: 0 <= k < |frames| && frames[k].Usage? ==>
      var completion := Member(Member(frames[k].value, "usage"), "completion_tokens");
      IsWhole(completion) ==> NumberOf(completion) <= reserve
  }

  /** An answer in words that the request allows, or calls that it allows. */
  predicate Permitted(lib: Libraries, request: InferenceRequest, frames: seq<Frame>, text: string, calls: seq<ToolCall>)
  {
    || (EndedBy(frames, "stop") && calls == [] && text != ""
        && (request.outputSchema.Some? ==>
              && |text| <= 8_388_608 && lib.parse(text).Some?
              && lib.schemaAccepts(request.outputSchema.value, lib.parse(text).value)))
    || (EndedBy(frames, "tool_calls") && calls != [] && ReturnedTools(request, calls)
        && forall i :: 0 <= i < |calls| ==> Takes(lib, request, calls[i]))
  }

  lemma OneAssembly(lib: Libraries, fragments: seq<Json>, a: seq<ToolCall>, b: seq<ToolCall>)
    requires AllAssembled(lib, fragments, a) && AllAssembled(lib, fragments, b)
    ensures a == b
  {
    hide Used, At, Pieces, HasId, CallAssembled;
    assert Assembled(lib, fragments, |a|, a) && Assembled(lib, fragments, |a|, b);
    assert Assembled(lib, fragments, |b|, a) && Assembled(lib, fragments, |b|, b);
    forall i | 0 <= i < |a| ensures a[i] == b[i] {
      assert Assembled(lib, fragments, i, a) && Assembled(lib, fragments, i, b);
      OneCall(lib, fragments, i, a[i], b[i]);
    }
  }

  lemma OneCall(lib: Libraries, fragments: seq<Json>, i: nat, a: ToolCall, b: ToolCall)
    requires CallAssembled(lib, fragments, i, a) && CallAssembled(lib, fragments, i, b)
    ensures a == b
  {
    hide At, Pieces, HasId;
    var k :| 0 <= k < |fragments| && At(fragments[k], i) && HasId(fragments[k]);
    assert Member(fragments[k], "id") == Str(a.id) == Str(b.id);
  }

  /** The calls that the decoder makes of its fragments are the assembled ones, if there are any. */
  lemma CallsAre(lib: Libraries, fragments: seq<Json>, tools: map<nat, Fragments>, calls: seq<ToolCall>)
    requires ToolsBuilt(fragments, tools)
    ensures AllAssembled(lib, fragments, calls) <==> CallsOfTools(lib, tools) == Ok(calls)
  {
    hide Used, CallAssembled, CallsOfTools, CallComplete;
    CallsAssembled(lib, fragments, tools);
    if CallsOfTools(lib, tools).Ok? {
      forall i: nat ensures Assembled(lib, fragments, i, CallsOfTools(lib, tools).value) {
      }
      if AllAssembled(lib, fragments, calls) {
        OneAssembly(lib, fragments, calls, CallsOfTools(lib, tools).value);
      }
    } else if AllAssembled(lib, fragments, calls) {
      forall i: nat ensures Used(fragments, i) <==> i < |calls| {
        assert Assembled(lib, fragments, i, calls);
      }
      forall i: nat | i < |calls| ensures CallComplete(lib, fragments, i) {
        assert Assembled(lib, fragments, i, calls);
        CompleteOf(lib, fragments, i, calls[i]);
      }
      CallsComplete(lib, fragments, tools, |calls|);
    }
  }

  lemma CompleteOf(lib: Libraries, fragments: seq<Json>, i: nat, call: ToolCall)
    requires CallAssembled(lib, fragments, i, call)
    ensures CallComplete(lib, fragments, i)
  {
  }

  /** The usage kept is that of the usage frame. */
  predicate UsageKept(frames: seq<Frame>, usage: Option<Json>) {
    && (forall k :: 0 <= k < |frames| && frames[k].Usage? ==> usage == Some(Member(frames[k].value, "usage")))
    && (usage.Some? ==> AnyUsage(frames))
  }

  lemma AbsorbKeepsUsage(lib: Libraries, o: Output, frame: Frame)
    requires Absorb(lib, o, frame).Ok?
    ensures Absorb(lib, o, frame).value.0.usage ==
            if !frame.Done? && HasUsage(frame.value) then Some(Member(frame.value, "usage")) else o.usage
  {
    hide KnownDelta, AppendReasoning, AppendTools;
    if !frame.Done? {
      MembersAre(frame.value, "usage");
    }
  }

  lemma {:induction false} UsageIsKept(lib: Libraries, model: string, frames: seq<Frame>)
    requires WellFormed(model, frames) && AbsorbAll(lib, NO_OUTPUT, frames).Ok?
    ensures UsageKept(frames, AbsorbAll(lib, NO_OUTPUT, frames).value.0.usage)
    decreases |frames|
  {
    hide Absorb, ChoiceFollows, Named, HasUsage, Ends, Member, AnyEnd;
    if frames != [] {
      var init, last := frames[..|frames| - 1], frames[|frames| - 1];
      assert frames == init + [last];
      OneMoreFrame(model, init, last);
      UsageIsKept(lib, model, init);
      AbsorbKeepsUsage(lib, AbsorbAll(lib, NO_OUTPUT, init).value.0, last);
      assert forall k :: 0 <= k < |init| ==> frames[k] == init[k];
      if AnyUsage(init) {
        var k :| 0 <= k < |init| && init[k].Usage?;
        assert frames[k].Usage?;
      }
    }
  }

  lemma ReasonIs(d: Decoding, frames: seq<Frame>, reason: string)
    requires Tracks(d, frames)
    ensures d.finish == Some(reason) <==> EndedBy(frames, reason)
  {
    if d.finish == Some(reason) {
      var k :| 0 <= k < |frames| && Ends(frames[k]);
      assert Some(ReasonOf(frames[k])) == d.finish;
    }
  }

  lemma SpentIs(model: string, frames: seq<Frame>, usage: Option<Json>, reserve: nat)
    requires WellFormed(model, frames) && UsageKept(frames, usage) && usage.Some?
    requires AsU64(Get(usage.value, "completion_tokens")).Some?
    ensures AsU64(Get(usage.value, "completion_tokens")).value <= reserve <==> WithinReserve(frames, reserve)
  {
    hide WellFormed, IsWhole, NumberOf;
    MembersAre(usage.value, "completion_tokens");
    NumbersAre(Member(usage.value, "completion_tokens"));
    var k :| 0 <= k < |frames| && frames[k].Usage?;
    assert usage == Some(Member(frames[k].value, "usage"));
  }

  lemma PermissionIs(lib: Libraries, request: InferenceRequest, d: Decoding, frames: seq<Frame>, text: string,
                     calls: seq<ToolCall>)
    requires Tracks(d, frames)
    ensures AcceptedTurn(lib, request, d.finish, text, calls) <==> Permitted(lib, request, frames, text, calls)
  {
    hide Tracks, EndedBy, ReturnedTools, ToolCallsMatch, Takes;
    TakenAre(lib, request, calls);
    ReasonIs(d, frames, "stop");
    ReasonIs(d, frames, "tool_calls");
  }

  lemma StreamTracks(lib: Libraries, model: string, chunks: seq<string>)
    requires FeedAll(lib, model, Open(0, FRESH), chunks).1.Ok?
    ensures var (s, frames) := FeedAll(lib, model, Open(0, FRESH), chunks);
            s.Open? && Tracks(s.decoding, frames.value) && WellFormed(model, frames.value)
  {
    hide TakeBytes, Tracks, WellFormed, FeedAll, Concat;
    SplittingIsInvisible(lib, model, Open(0, FRESH), chunks);
    Nothing(model);
    BytesKeep(lib, model, FRESH, [], Concat(chunks));
    var frames := TakeBytes(lib, model, FRESH, Concat(chunks)).value.1;
    assert [] + frames == frames;
  }

  lemma UsageOfStream(lib: Libraries, model: string, chunks: seq<string>)
    requires FeedOutputs(lib, model, LISTENING, chunks).1.Ok?
    ensures FeedAll(lib, model, Open(0, FRESH), chunks).1.Ok?
    ensures var r := FeedOutputs(lib, model, LISTENING, chunks).0;
            r.Receiving? && UsageKept(FeedAll(lib, model, Open(0, FRESH), chunks).1.value, r.output.usage)
  {
    hide FeedAll, FeedOutputs, AbsorbAll, WellFormed, UsageKept;
    OutputsAreAbsorbed(lib, model, Open(0, FRESH), NO_OUTPUT, chunks);
    DeliveredFramesAreWellFormed(lib, model, chunks);
    UsageIsKept(lib, model, FeedAll(lib, model, Open(0, FRESH), chunks).1.value);
  }

  /** These are the calls sent, and the request allows them, or the text without calls. */
  ghost predicate Becomes(lib: Libraries, request: InferenceRequest, frames: seq<Frame>, deltas: seq<Json>,
                          calls: seq<ToolCall>)
  {
    && AllAssembled(lib, Items(deltas, "tool_calls"), calls)
    && Permitted(lib, request, frames, Texts(deltas, "content"), calls)
  }

  lemma BecomesIs(lib: Libraries, request: InferenceRequest, d: Decoding, frames: seq<Frame>, deltas: seq<Json>,
                  o: Output, calls: seq<ToolCall>)
    requires Tracks(d, frames) && Built(lib, deltas, o) && o.finishReason == d.finish
    ensures Becomes(lib, request, frames, deltas, calls) <==>
            CallsOfTools(lib, o.tools) == Ok(calls) && AcceptedTurn(lib, request, o.finishReason, o.text, calls)
  {
    hide Texts, Items, Thoughts, Bytes, ToolsBuilt, DetailKnown, CallsOfTools, AcceptedTurn, AllAssembled, Permitted,
         Tracks;
    CallsAre(lib, Items(deltas, "tool_calls"), o.tools, calls);
    PermissionIs(lib, request, d, frames, o.text, calls);
  }

  lemma SomeCalls(lib: Libraries, request: InferenceRequest, d: Decoding, frames: seq<Frame>, deltas: seq<Json>,
                  o: Output)
    requires Tracks(d, frames) && Built(lib, deltas, o) && o.finishReason == d.finish
    ensures (exists calls :: Becomes(lib, request, frames, deltas, calls)) <==>
            && CallsOfTools(lib, o.tools).Ok?
            && AcceptedTurn(lib, request, o.finishReason, o.text, CallsOfTools(lib, o.tools).value)
  {
    hide Becomes, Tracks, Built, CallsOfTools, AcceptedTurn;
    if CallsOfTools(lib, o.tools).Ok? {
      BecomesIs(lib, request, d, frames, deltas, o, CallsOfTools(lib, o.tools).value);
    }
    if calls :| Becomes(lib, request, frames, deltas, calls) {
      BecomesIs(lib, request, d, frames, deltas, o, calls);
    }
  }

  /** A received response becomes a turn exactly when the stream is finished, no more was spent than
      reserved, and the calls assembled from its fragments with its text are what the request allows. */
  lemma TurnsAccepted(lib: Libraries, model: string, request: InferenceRequest, chunks: seq<string>)
    requires FeedOutputs(lib, model, LISTENING, chunks).1.Ok?
    ensures FeedAll(lib, model, Open(0, FRESH), chunks).1.Ok?
    ensures var (s, frames) := FeedAll(lib, model, Open(0, FRESH), chunks);
            FinishTurn(lib, request, FeedOutputs(lib, model, LISTENING, chunks).0).Ok? <==>
            && Finished(s) && WithinReserve(frames.value, request.outputReserveTokens)
            && exists calls :: Becomes(lib, request, frames.value, Said(lib, model, chunks), calls)
  {
    hide FeedAll, FeedOutputs, Finished, Built, Said, CallsOfTools, AcceptedTurn, Becomes, WithinReserve, Tracks,
         WellFormed, DeltasFollow, UsageKept;
    ResponsesAccepted(lib, model, chunks);
    UsageOfStream(lib, model, chunks);
    StreamTracks(lib, model, chunks);
    var (s, frames) := FeedAll(lib, model, Open(0, FRESH), chunks);
    var r := FeedOutputs(lib, model, LISTENING, chunks).0;
    if Finished(s) {
      FinishedTurns(lib, model, request, chunks);
      DecodersAgree(lib, model, chunks);
      AgreedReason(lib, r, FeedOutputs(lib, model, LISTENING, chunks).1.value);
      SpentIs(model, frames.value, r.output.usage, request.outputReserveTokens);
      SomeCalls(lib, request, s.decoding, frames.value, Said(lib, model, chunks), r.output);
    }
  }

  lemma AgreedReason(lib: Libraries, r: Receiver, visible: seq<string>)
    requires Consistent(lib, r, Concat(visible))
    ensures r.Receiving? && r.stream.Open? && r.output.finishReason == r.stream.decoding.finish
    ensures r.output.generationId == r.stream.decoding.generation
  {
    hide SoundReasoning;
  }
}
