/** How the network cuts a stream into chunks is invisible to the decoder. */
module Splitting {
  import opened Base
  import opened Externals
  import opened Streams

  lemma {:induction false} TakeBytesSplit(lib: Libraries, model: string, d: Decoding, a: string, b: string)
    ensures TakeBytes(lib, model, d, a + b) ==
            match TakeBytes(lib, model, d, a)
            case Err(e) => Err(e)
            case Ok(taken) => Prepended(taken.1, TakeBytes(lib, model, taken.0, b))
    decreases |a|
  {
    hide TakeByte;
    if a == "" {
      assert a + b == b;
      PrependedTwice([], [], TakeBytes(lib, model, d, b));
    } else {
      assert (a + b)[0] == a[0] && (a + b)[1..] == a[1..] + b;
      var first := TakeByte(lib, model, d, a[0]);
      if first.Ok? {
        TakeBytesSplit(lib, model, first.value.0, a[1..], b);
        var rest := TakeBytes(lib, model, first.value.0, a[1..]);
        if rest.Ok? {
          PrependedTwice(first.value.1, rest.value.1, TakeBytes(lib, model, rest.value.0, b));
        }
      }
    }
  }

  function Concat(chunks: seq<string>): string {
    if chunks == [] then "" else chunks[0] + Concat(chunks[1..])
  }

  /** Feeding chunk after chunk, until the first failure. */
  function FeedAll(lib: Libraries, model: string, s: Stream, chunks: seq<string>)
    : (Stream, Result<seq<Frame>, RuntimeError>)
    decreases |chunks|
  {
    if chunks == [] then (s, Ok([]))
    else
      var (t, first) := Feed(lib, model, s, chunks[0]);
      if first.Err? then (t, first)
      else
        var (u, rest) := FeedAll(lib, model, t, chunks[1..]);
        (u, if rest.Err? then rest else Ok(first.value + rest.value))
  }

  /** The stream-size bound holds whenever a stream is open. */
  predicate Bounded(s: Stream) {
    s.Open? && s.received <= MAX_STREAM
  }

  /** Two chunks or one: the same acceptance, the same frames and the same state; and while the
      size bound is respected, the same error as well. */
  lemma FeedTwice(lib: Libraries, model: string, s: Stream, a: string, b: string)
    requires Bounded(s)
    ensures var (t, first), (u, whole) := Feed(lib, model, s, a), Feed(lib, model, s, a + b);
            && (whole.Ok? <==> first.Ok? && Feed(lib, model, t, b).1.Ok?)
            && (whole.Ok? ==>
                  var (v, second) := Feed(lib, model, t, b); u == v && whole.value == first.value + second.value)
            && (first.Err? && s.received + |a + b| <= MAX_STREAM ==> whole == first)
            && (first.Ok? && whole.Err? && s.received + |a + b| <= MAX_STREAM ==> Feed(lib, model, t, b).1 == whole)
    ensures Feed(lib, model, s, a).1.Ok? ==> Bounded(Feed(lib, model, s, a).0)
    ensures Feed(lib, model, s, a).1.Err? <==> Feed(lib, model, s, a).0.Broken?
  {
    hide TakeBytes;
    TakeBytesSplit(lib, model, s.decoding, a, b);
  }

  /** For every way of cutting a byte sequence: all chunks are accepted exactly when the whole
      is, then with the same frames and the same state; and within the size bound a failure
      reports the same error. */
  lemma {:induction false} SplittingIsInvisible(lib: Libraries, model: string, s: Stream, chunks: seq<string>)
    requires Bounded(s)
    ensures var (t, pieces), (u, whole) := FeedAll(lib, model, s, chunks), Feed(lib, model, s, Concat(chunks));
            && (pieces.Ok? <==> whole.Ok?) && t == u
            && (whole.Ok? ==> pieces == whole)
            && (s.received + |Concat(chunks)| <= MAX_STREAM ==> pieces == whole)
    decreases |chunks|
  {
    hide TakeBytes;
    if chunks == [] {
      assert TakeBytes(lib, model, s.decoding, "") == Ok((s.decoding, [])) by { TakeNothing(lib, model, s.decoding); }
    } else {
      FeedTwice(lib, model, s, chunks[0], Concat(chunks[1..]));
      var (t, first) := Feed(lib, model, s, chunks[0]);
      if first.Ok? {
        SplittingIsInvisible(lib, model, t, chunks[1..]);
      }
    }
  }

  lemma TakeNothing(lib: Libraries, model: string, d: Decoding)
    ensures TakeBytes(lib, model, d, "") == Ok((d, []))
  {
  }

  // ----- what a failing stream has delivered -----

  /** The frames handed out before the first failure. */
  function Delivered(lib: Libraries, model: string, s: Stream, chunks: seq<string>): seq<Frame>
    decreases |chunks|
  {
    if chunks == [] then []
    else
      var (t, first) := Feed(lib, model, s, chunks[0]);
      if first.Err? then [] else first.value + Delivered(lib, model, t, chunks[1..])
  }

  function Singles(bytes: string): seq<string> {
    seq(|bytes|, i requires 0 <= i < |bytes| => [bytes[i]])
  }

  lemma {:induction false} DeliveredAfter(lib: Libraries, model: string, s: Stream, a: seq<string>, b: seq<string>)
    ensures FeedAll(lib, model, s, a).1.Ok? ==>
              Delivered(lib, model, s, a + b) ==
              FeedAll(lib, model, s, a).1.value + Delivered(lib, model, FeedAll(lib, model, s, a).0, b)
    decreases |a|
  {
    hide Feed;
    if a == [] {
      assert a + b == b;
    } else {
      assert (a + b)[0] == a[0] && (a + b)[1..] == a[1..] + b;
      var (t, first) := Feed(lib, model, s, a[0]);
      if first.Ok? {
        DeliveredAfter(lib, model, t, a[1..], b);
        var (u, rest) := FeedAll(lib, model, t, a[1..]);
        if rest.Ok? {
          assert first.value + (rest.value + Delivered(lib, model, u, b)) == (first.value + rest.value)
                 + Delivered(lib, model, u, b);
        }
      }
    }
  }

  lemma {:induction false} SinglesConcat(a: string)
    ensures Concat(Singles(a)) == a
    decreases |a|
  {
    if a != "" {
      assert Singles(a)[1..] == Singles(a[1..]);
      SinglesConcat(a[1..]);
    }
  }

  /** On a stream that fails, what was delivered depends on the cuts, but only in how much: it
      is always a prefix of what the finest cut delivers. */
  lemma {:induction false} DeliveryIsAPrefix(lib: Libraries, model: string, s: Stream, chunks: seq<string>)
    requires Bounded(s)
    ensures Delivered(lib, model, s, chunks) <= Delivered(lib, model, s, Singles(Concat(chunks)))
    decreases |chunks|
  {
    hide Feed, Bounded;
    if chunks != [] {
      var head, tail := chunks[0], Concat(chunks[1..]);
      var (t, first) := Feed(lib, model, s, head);
      if first.Ok? {
        FeedTwice(lib, model, s, head, tail);
        SinglesConcat(head);
        SplittingIsInvisible(lib, model, s, Singles(head));
        assert Singles(head + tail) == Singles(head) + Singles(tail);
        DeliveredAfter(lib, model, s, Singles(head), Singles(tail));
        DeliveryIsAPrefix(lib, model, t, chunks[1..]);
      }
    }
  }

  /** Exactly when it differs: cut before the failing part, the frames of the accepted part are
      delivered; fed together, none of them is. */
  lemma DeliveryDependsOnTheCut(lib: Libraries, model: string, s: Stream, good: string, bad: string)
    requires Bounded(s)
    requires var (t, first) := Feed(lib, model, s, good); first.Ok? && Feed(lib, model, t, bad).1.Err?
    ensures Delivered(lib, model, s, [good, bad]) == Feed(lib, model, s, good).1.value
    ensures Delivered(lib, model, s, [good + bad]) == []
    ensures Delivered(lib, model, s, [good, bad]) == Delivered(lib, model, s, [good + bad])
            <==> Feed(lib, model, s, good).1.value == []
  {
    hide Feed;
    FeedTwice(lib, model, s, good, bad);
    assert [good, bad][1..] == [bad];
    assert Feed(lib, model, s, good + bad).1.Err?;
    assert [good + bad][0] == good + bad;
  }
}
