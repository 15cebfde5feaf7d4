/** Section 9.2.6 of the WHATWG HTML Living Standard, "Interpreting an event stream", and
    how the decoder relates to it.  The field grammar is ASCII, so bytes stand for the code
    points of the standard. */
module EventStream {
  import opened Base
  import opened Externals
  import opened Streams

  // ----- the standard -----

  const BOM: string := [0xEF as char, 0xBB as char, 0xBF as char]

  function WithoutBom(w: string): string {
    if StartsWith(w, BOM) then w[3..] else w
  }

  /** The complete lines, ended by a line feed, a carriage return, or both in this order. */
  function Lines(w: string, line: string): seq<string>
    decreases |w|
  {
    if w == "" then []
    else if w[0] == '\n' then [line] + Lines(w[1..], "")
    else if w[0] == '\r' then [line] + Lines(if |w| > 1 && w[1] == '\n' then w[2..] else w[1..], "")
    else Lines(w[1..], line + [w[0]])
  }

  function Colon(line: string): (k: nat)
    ensures k <= |line|
  {
    if line == "" || line[0] == ':' then 0 else 1 + Colon(line[1..])
  }

  function FieldName(line: string): string {
    line[..Colon(line)]
  }

  function FieldValue(line: string): string {
    var k := Colon(line);
    if k == |line| then ""
    else if k + 1 < |line| && line[k + 1] == ' ' then line[k + 2..]
    else line[k + 1..]
  }

  /** What one line dispatches, and the data buffer after it. */
  function InterpretLine(line: string, data: string): (seq<string>, string) {
    if line == "" then (if data == "" then [] else [data[..|data| - 1]], "")
    else if line[0] == ':' then ([], data)
    else if FieldName(line) == "data" then ([], data + FieldValue(line) + "\n")
    else ([], data)
  }

  function Interpret(lines: seq<string>, data: string): seq<string> {
    if lines == [] then []
    else
      var (dispatched, next) := InterpretLine(lines[0], data);
      dispatched + Interpret(lines[1..], next)
  }

  /** The data of every dispatched event. */
  function StandardEvents(w: string): seq<string> {
    Interpret(Lines(WithoutBom(w), ""), "")
  }

  // ----- the decoder's reading of the same lines -----

  /** Lines as the decoder cuts them: at line feeds only, less one carriage return. */
  function FeedLines(w: string, line: string): seq<string>
    decreases |w|
  {
    if w == "" then []
    else if w[0] == '\n' then [WithoutReturn(line)] + FeedLines(w[1..], "")
    else FeedLines(w[1..], line + [w[0]])
  }

  function StripFeeds(data: string): string {
    if data != "" && data[0] == '\n' then StripFeeds(data[1..]) else data
  }

  /** Empty data lines in front of an event are lost, and an event without any data too. */
  function Normal(events: seq<string>): seq<string> {
    if events == [] then []
    else (if StripFeeds(events[0]) == "" then [] else [StripFeeds(events[0])]) + Normal(events[1..])
  }

  function Session(d: Decoding): Decoding {
    d.(buffer := "", data := "")
  }

  /** The frames of a sequence of events. */
  function Events(lib: Libraries, model: string, d: Decoding, events: seq<string>)
    : Result<(Decoding, seq<Frame>), RuntimeError>
    decreases |events|
  {
    if events == [] then Ok((d, []))
    else
      var (next, frame) :- Event(lib, model, d, events[0]);
      var (last, more) :- Events(lib, model, next, events[1..]);
      Ok((last, [frame] + more))
  }

  lemma ConsEvents(lib: Libraries, model: string, d: Decoding, event: string, rest: seq<string>)
    requires Event(lib, model, d, event).Ok?
    ensures var (next, frame) := Event(lib, model, d, event).value;
            Events(lib, model, d, [event] + rest) == Prepended([frame], Events(lib, model, next, rest))
  {
    hide Event;
    assert ([event] + rest)[1..] == rest;
  }

  lemma OneEvent(lib: Libraries, model: string, d: Decoding, event: string)
    requires Event(lib, model, d, event).Ok?
    ensures var (next, frame) := Event(lib, model, d, event).value;
            Events(lib, model, d, [event]) == Ok((next, [frame]))
  {
    hide Event;
    ConsEvents(lib, model, d, event, []);
    assert [event] + [] == [event];
    assert [Event(lib, model, d, event).value.1] + [] == [Event(lib, model, d, event).value.1];
  }

  lemma EventIgnoresBuffers(lib: Libraries, model: string, d: Decoding, event: string)
    requires Event(lib, model, d, event).Ok?
    ensures var (next, frame) := Event(lib, model, d, event).value;
            && Event(lib, model, Session(d), event) == Ok((Session(next), frame))
            && next.buffer == d.buffer && next.data == d.data
  {
    hide CarriesOutput, UsageShape;
  }

  /** The data buffer of the standard against that of the decoder. */
  predicate Represents(standard: string, data: string) {
    if standard == "" then data == ""
    else standard[|standard| - 1] == '\n' && StripFeeds(standard[..|standard| - 1]) == data
  }

  predicate NoFeed(s: string) {
    forall i :: 0 <= i < |s| ==> s[i] != '\n'
  }

  lemma {:induction false} StripAppend(a: string, b: string)
    ensures StripFeeds(a) != "" ==> StripFeeds(a + b) == StripFeeds(a) + b
    ensures StripFeeds(a) == "" ==> StripFeeds(a + b) == StripFeeds(b)
    decreases |a|
  {
    if a == "" {
      assert a + b == b;
    } else {
      assert (a + b)[0] == a[0] && (a + b)[1..] == a[1..] + b;
      if a[0] == '\n' {
        StripAppend(a[1..], b);
      }
    }
  }

  lemma AppendRepresents(standard: string, data: string, value: string)
    requires Represents(standard, data) && NoFeed(value)
    ensures Represents(standard + value + "\n", Joined(data, value))
  {
    var next := standard + value + "\n";
    assert next[..|next| - 1] == standard + value;
    assert StripFeeds(value) == value;
    StripAppend(standard, value);
    if standard != "" {
      var init := standard[..|standard| - 1];
      assert standard == init + "\n";
      StripAppend(init, "\n");
      assert StripFeeds("\n") == "" by { assert "\n"[1..] == ""; }
      assert data + "\n" + value == (data + "\n") + value;
    }
  }

  lemma {:induction false} ColonAt(line: string, k: nat)
    requires k < |line| && line[k] == ':' && forall i :: 0 <= i < k ==> line[i] != ':'
    ensures Colon(line) == k
  {
    if k > 0 {
      ColonAt(line[1..], k - 1);
    }
  }

  /** The decoder's reading of a known line agrees with the field grammar. */
  lemma KnownFields(line: string)
    requires line != ""
    ensures StartsWith(line, "data:") ==>
            line[0] != ':' && FieldName(line) == "data" && FieldValue(line) == PayloadOf(line)
    ensures Ignored(line) ==> line[0] == ':' || FieldName(line) != "data"
  {
    if StartsWith(line, "data:") {
      ColonAt(line, 4);
    } else if StartsWith(line, "event:") {
      ColonAt(line, 5);
    } else if StartsWith(line, "id:") {
      ColonAt(line, 2);
    } else if StartsWith(line, "retry:") {
      ColonAt(line, 5);
    }
  }

  lemma LineAgrees(lib: Libraries, model: string, d: Decoding, line: string, standard: string)
    requires d.buffer == "" && NoFeed(line) && Represents(standard, d.data) && TakeLine(lib, model, d, line).Ok?
    ensures var (next, frames) := TakeLine(lib, model, d, line).value;
            var (dispatched, after) := InterpretLine(line, standard);
            && next.buffer == "" && Represents(after, next.data) && |dispatched| <= 1
            && Events(lib, model, Session(d), Normal(dispatched)) == Ok((Session(next), frames))
  {
    hide Event;
    var (next, frames) := TakeLine(lib, model, d, line).value;
    var (dispatched, after) := InterpretLine(line, standard);
    if line == "" {
      if standard != "" {
        assert dispatched[1..] == [] && Normal(dispatched) == if d.data == "" then [] else [d.data];
        if d.data != "" {
          EventIgnoresBuffers(lib, model, d.(data := ""), d.data);
          OneEvent(lib, model, Session(d), d.data);
          assert Session(d.(data := "")) == Session(d);
        }
      }
    } else {
      KnownFields(line);
      if StartsWith(line, "data:") {
        AppendRepresents(standard, d.data, PayloadOf(line));
      }
    }
  }

  lemma EventsPrepend(lib: Libraries, model: string, d: Decoding, first: seq<string>, rest: seq<string>)
    requires |first| <= 1 && Events(lib, model, d, first).Ok?
    ensures Events(lib, model, d, first + rest) ==
            Prepended(Events(lib, model, d, first).value.1,
                      Events(lib, model, Events(lib, model, d, first).value.0, rest))
  {
    hide Event;
    if first == [] {
      assert first + rest == rest;
      PrependedTwice([], [], Events(lib, model, d, rest));
    } else {
      assert first == [first[0]];
      ConsEvents(lib, model, d, first[0], rest);
      OneEvent(lib, model, d, first[0]);
    }
  }

  lemma NormalPrepend(first: seq<string>, rest: seq<string>)
    requires |first| <= 1
    ensures Normal(first + rest) == Normal(first) + Normal(rest) && |Normal(first)| <= 1
  {
    if first == [] {
      assert first + rest == rest;
    } else {
      assert (first + rest)[0] == first[0] && (first + rest)[1..] == rest && first[1..] == [];
    }
  }

  /** Any accepted bytes, from any state: the frames are those of the standard's events on the
      lines cut at line feeds. */
  lemma {:induction false} DecodesFeedLines(lib: Libraries, model: string, d: Decoding, w: string, standard: string)
    requires TakeBytes(lib, model, d, w).Ok? && NoFeed(d.buffer) && Represents(standard, d.data)
    ensures var (last, frames) := TakeBytes(lib, model, d, w).value;
            Events(lib, model, Session(d), Normal(Interpret(FeedLines(w, d.buffer), standard))) ==
                Ok((Session(last), frames))
    decreases |w|
  {
    hide Event, TakeLine, InterpretLine, Represents;
    if w != "" {
      var (next, frames) := TakeByte(lib, model, d, w[0]).value;
      var rest := TakeBytes(lib, model, next, w[1..]).value;
      if w[0] == '\n' {
        var line := WithoutReturn(d.buffer);
        LineAgrees(lib, model, d.(buffer := ""), line, standard);
        var (dispatched, after) := InterpretLine(line, standard);
        DecodesFeedLines(lib, model, next, w[1..], after);
        var lines := FeedLines(w, d.buffer);
        assert lines[0] == line && lines[1..] == FeedLines(w[1..], "");
        var later := Interpret(FeedLines(w[1..], ""), after);
        NormalPrepend(dispatched, later);
        EventsPrepend(lib, model, Session(d), Normal(dispatched), Normal(later));
        assert Session(d.(buffer := "")) == Session(d);
      } else {
        DecodesFeedLines(lib, model, next, w[1..], standard);
        assert Session(next) == Session(d) && frames + rest.1 == rest.1;
      }
    }
  }

  // ----- when the lines themselves agree -----

  predicate NoLoneReturn(w: string) {
    forall i :: 0 <= i < |w| && w[i] == '\r' ==> i + 1 < |w| && w[i + 1] == '\n'
  }

  lemma {:induction false} SameLines(w: string, line: string)
    requires NoLoneReturn(w) && (line == "" || line[|line| - 1] != '\r')
    ensures Lines(w, line) == FeedLines(w, line)
    decreases |w|
  {
    if w != "" {
      assert NoLoneReturn(w[1..]);
      if w[0] == '\r' {
        assert w[1] == '\n' && w[1..][0] == '\n' && w[1..][1..] == w[2..];
        assert NoLoneReturn(w[2..]);
        SameLines(w[2..], "");
        assert WithoutReturn(line + ['\r']) == line;
      } else if w[0] == '\n' {
        SameLines(w[1..], "");
      } else {
        SameLines(w[1..], line + [w[0]]);
      }
    }
  }

  /** A carriage return of its own ends a line for the standard only. */
  lemma {:induction false} MoreLines(w: string, line: string, other: string)
    ensures |FeedLines(w, other)| <= |Lines(w, line)|
    ensures !NoLoneReturn(w) ==> |FeedLines(w, other)| < |Lines(w, line)|
    decreases |w|
  {
    if w != "" {
      if w[0] == '\r' && |w| > 1 && w[1] == '\n' {
        assert w[1..][0] == '\n' && w[1..][1..] == w[2..];
        MoreLines(w[2..], "", "");
        assert NoLoneReturn(w[2..]) ==> NoLoneReturn(w) by {
          assert forall i :: 2 <= i < |w| ==> w[2..][i - 2] == w[i];
        }
      } else if w[0] == '\r' {
        MoreLines(w[1..], "", other + [w[0]]);
      } else {
        MoreLines(w[1..], if w[0] == '\n' then "" else line + [w[0]], if w[0] == '\n' then "" else other + [w[0]]);
        assert NoLoneReturn(w[1..]) ==> NoLoneReturn(w) by {
          assert forall i :: 1 <= i < |w| ==> w[1..][i - 1] == w[i];
        }
      }
    }
  }

  /** The decoder cuts the same lines as the standard exactly when every carriage return is
      followed by a line feed. */
  lemma LinesAgree(w: string)
    ensures Lines(w, "") == FeedLines(w, "") <==> NoLoneReturn(w)
  {
    if NoLoneReturn(w) {
      SameLines(w, "");
    } else {
      MoreLines(w, "", "");
    }
  }

  // ----- byte order marks -----

  lemma {:induction false} UnknownLine(lib: Libraries, model: string, d: Decoding, w: string)
    requires d.buffer != "" && d.buffer[0] == 0xEF as char && TakeBytes(lib, model, d, w).Ok?
    ensures NoFeed(w)
    decreases |w|
  {
    hide Event;
    if w != "" {
      if w[0] != '\n' {
        UnknownLine(lib, model, d.(buffer := d.buffer + [w[0]]), w[1..]);
        assert forall i :: 1 <= i < |w| ==> w[1..][i - 1] == w[i];
      }
    }
  }

  lemma {:induction false} NoLines(w: string, line: string)
    requires NoFeed(w)
    ensures FeedLines(w, line) == [] && (NoLoneReturn(w) ==> Lines(w, line) == [])
    decreases |w|
  {
    if w != "" {
      assert NoFeed(w[1..]);
      assert NoLoneReturn(w) ==> NoLoneReturn(w[1..]);
      NoLines(w[1..], line + [w[0]]);
    }
  }

  /** On streams whose carriage returns all belong to a line feed, the decoder is a strict
      subset of the standard: whatever it accepts, its frames are those of the events that the
      standard dispatches, less their leading empty lines and less events without data. */
  lemma DecodesTheStandard(lib: Libraries, model: string, w: string)
    requires TakeBytes(lib, model, FRESH, w).Ok? && NoLoneReturn(w)
    ensures var (last, frames) := TakeBytes(lib, model, FRESH, w).value;
            Events(lib, model, FRESH, Normal(StandardEvents(w))) == Ok((Session(last), frames))
  {
    hide Event, TakeByte, Interpret, Lines, FeedLines;
    DecodesFeedLines(lib, model, FRESH, w, "");
    LinesAgree(w);
    if StartsWith(w, BOM) {
      BomIsUnknown(lib, model, w);
      NoLines(w, "");
      assert NoFeed(w[3..]) && NoLoneReturn(w[3..]);
      NoLines(w[3..], "");
    }
  }

  lemma BomIsUnknown(lib: Libraries, model: string, w: string)
    requires TakeBytes(lib, model, FRESH, w).Ok? && StartsWith(w, BOM)
    ensures NoFeed(w)
  {
    hide Event, TakeLine;
    assert w[0] == BOM[0];
    assert FRESH.buffer + [w[0]] == [w[0]];
    UnknownLine(lib, model, FRESH.(buffer := [w[0]]), w[1..]);
    assert forall i :: 1 <= i < |w| ==> w[1..][i - 1] == w[i];
  }
}
