/** Reading a log page by page while it grows (inference_journal.rs). */
module Paging {
  import opened Admission
  import opened Base
  import opened Externals
  import opened Histories
  import opened Journal
  import opened Runs
  import opened Steps

  const MAX_PAGE := 200

  datatype EventsPage = EventsPage(requestId: Uuid, events: seq<Event>, nextSequence: nat, hasMore: bool)

  function Smaller(a: nat, b: nat): nat {
    if a <= b then a else b
  }

  /** The cursor is the sequence of the next event wanted. */
  function Page(s: VaultState, id: Uuid, grant: Grant, from: nat, limit: nat, now: Instant)
    : Result<EventsPage, RuntimeError>
  {
    var run :- Readback(s, id, grant, now);
    :- Guard(from != 0 && from <= |run.events| + 1 && limit != 0 && limit <= MAX_PAGE, InvalidRequest);
    var taken := Smaller(limit, |run.events| - (from - 1));
    Ok(EventsPage(id, run.events[from - 1..from - 1 + taken], from + taken, from + taken <= |run.events|))
  }

  /** One reading: the state of the history in which it happens, the grant used, the page size
      and the time. */
  datatype Reading = Reading(moment: nat, grant: Grant, limit: nat, now: Instant)

  predicate InOrder(h: History, readings: seq<Reading>) {
    forall i :: 0 <= i < |readings| ==>
      readings[i].moment < |h.states| && (i > 0 ==> readings[i - 1].moment <= readings[i].moment)
  }

  /** A reader follows the cursor from 1; `None` once a reading is refused. */
  function Follow(h: History, id: Uuid, readings: seq<Reading>): Option<(seq<Event>, nat)>
    requires InOrder(h, readings)
  {
    if readings == [] then Some(([], 1))
    else
      var last := readings[|readings| - 1];
      var before := Follow(h, id, readings[..|readings| - 1]);
      if before.None? then None
      else
        match Page(h.states[last.moment], id, last.grant, before.value.1, last.limit, last.now)
        case Err(_) => None
        case Ok(page) => Some((before.value.0 + page.events, page.nextSequence))
  }

  /** A page is given exactly to the holder of the run's grant, for a cursor within the log or just
      behind it and a size between 1 and 200; it holds so many events, or those that are left. */
  lemma PagesGiven(s: VaultState, id: Uuid, grant: Grant, from: nat, limit: nat, now: Instant)
    ensures Page(s, id, grant, from, limit, now).Ok? <==>
            && id in s.runs && InForce(grant, now) && GivenTo(s.runs[id], grant)
            && 1 <= from <= |s.runs[id].events| + 1 && 1 <= limit <= 200
    ensures !(id in s.runs && InForce(grant, now) && GivenTo(s.runs[id], grant)) ==>
              Page(s, id, grant, from, limit, now) == Err(Forbidden)
    ensures Page(s, id, grant, from, limit, now).Ok? ==>
              var log := s.runs[id].events;
              var next := if from + limit <= |log| then from + limit else |log| + 1;
              Page(s, id, grant, from, limit, now).value ==
              EventsPage(id, log[from - 1..next - 1], next, next != |log| + 1)
  {
    hide InForce, GivenTo;
    if id in s.runs {
      GrantIs(s, id, grant, now);
    }
  }

  lemma PageExtends(s: VaultState, id: Uuid, grant: Grant, from: nat, limit: nat, now: Instant)
    requires Page(s, id, grant, from, limit, now).Ok?
    ensures id in s.runs
    ensures var page, log := Page(s, id, grant, from, limit, now).value, s.runs[id].events;
            && 1 <= from <= |log| + 1 && 1 <= limit
            && page.nextSequence == from + |page.events| <= |log| + 1
            && log[..from - 1] + page.events == log[..page.nextSequence - 1]
            && (page.hasMore <==> page.nextSequence <= |log|)
            && (page.hasMore ==> |page.events| == limit)
  {
    var log := s.runs[id].events;
    var taken := Smaller(limit, |log| - (from - 1));
    assert log[..from - 1] + log[from - 1..from - 1 + taken] == log[..from - 1 + taken];
  }

  /** However the log grows between the readings, the pages together are exactly the events
      before the cursor: nothing is skipped and nothing is read twice. */
  lemma {:induction false} PagesAreAPrefix(lib: Libraries, h: History, id: Uuid, readings: seq<Reading>)
    requires Happens(lib, h) && InOrder(h, readings) && readings != [] && Follow(h, id, readings).Some?
    ensures var s := h.states[readings[|readings| - 1].moment];
            && id in s.runs
            && var (events, cursor) := Follow(h, id, readings).value;
               && 1 <= cursor <= |s.runs[id].events| + 1
               && events == s.runs[id].events[..cursor - 1]
    decreases |readings|
  {
    hide Page;
    var last, init := readings[|readings| - 1], readings[..|readings| - 1];
    var s := h.states[last.moment];
    var (events, cursor) := Follow(h, id, init).value;
    PageExtends(s, id, last.grant, cursor, last.limit, last.now);
    if init != [] {
      PagesAreAPrefix(lib, h, id, init);
      NoWayBack(lib, h, id, init[|init| - 1].moment, last.moment);
      var log := h.states[init[|init| - 1].moment].runs[id].events;
      assert log[..cursor - 1] == s.runs[id].events[..cursor - 1];
    }
  }

  /** The events of all pages of one fixed log, from a cursor on. */
  function ReadAll(s: VaultState, id: Uuid, grant: Grant, from: nat, limit: nat, now: Instant)
    : Result<seq<Event>, RuntimeError>
    requires limit >= 1
    decreases if id in s.runs then |s.runs[id].events| + 1 - from else 0
  {
    var page :- Page(s, id, grant, from, limit, now);
    if !page.hasMore then Ok(page.events)
    else
      var rest :- ReadAll(s, id, grant, page.nextSequence, limit, now);
      Ok(page.events + rest)
  }

  /** On a log that no longer grows, following the cursor ends, with the complete log. */
  lemma {:induction false} PagingEnds(s: VaultState, id: Uuid, grant: Grant, from: nat, limit: nat, now: Instant)
    requires Readback(s, id, grant, now).Ok? && 1 <= limit <= MAX_PAGE && 1 <= from <= |s.runs[id].events| + 1
    ensures ReadAll(s, id, grant, from, limit, now) == Ok(s.runs[id].events[from - 1..])
    decreases |s.runs[id].events| + 1 - from
  {
    var page := Page(s, id, grant, from, limit, now).value;
    PageExtends(s, id, grant, from, limit, now);
    var log := s.runs[id].events;
    if page.hasMore {
      PagingEnds(s, id, grant, page.nextSequence, limit, now);
      assert log[from - 1..] == log[from - 1..page.nextSequence - 1] + log[page.nextSequence - 1..];
    } else {
      assert page.nextSequence - 1 == |log|;
      assert log[..|log|] == log;
      assert page.events == (log[..from - 1] + page.events)[from - 1..];
    }
  }
}
