/** What a continued run takes over from the run it continues: its turn, and the private reasoning
    of every turn before. */
module Lineage {
  import opened Admission
  import opened Authority
  import opened Base
  import opened Continuity
  import opened Externals
  import opened Histories
  import opened Inference
  import opened Invariants
  import opened Journal
  import opened Preservation
  import opened Runs
  import opened Steps

  // ----- reasoning -----

  /** The child's reasoning is the parent's, and exactly when the parent's turn had some, that of the
      parent's turn, kept at the place of the turn in the conversation. */
  predicate Inherits(parent: Run, child: Run) {
    && (forall m :: m in parent.history ==>
          m != |parent.request.messages| ==> m in child.history && child.history[m] == parent.history[m])
    && (forall m :: m in child.history ==> m != |parent.request.messages| ==> m in parent.history)
    && (parent.responseReasoning.Some? ==>
          && |parent.request.messages| in child.history
          && child.history[|parent.request.messages|] == parent.responseReasoning.value)
    && (parent.responseReasoning.None? ==> |parent.request.messages| !in child.history)
  }

  /** A run that continues nothing has none. */
  predicate Descends(runs: map<Uuid, Run>, c: Uuid)
    requires c in runs
  {
    && (runs[c].parent.None? ==> runs[c].history == map[])
    && (runs[c].parent.Some? ==> runs[c].parent.value in runs && Inherits(runs[runs[c].parent.value], runs[c]))
  }

  lemma Known(lib: Libraries, s: VaultState, step: Step, id: Uuid)
    requires Perform(lib, s, step.action, step.now).Writes? && id !in s.runs && About(s, step.action, id)
    ensures step.action.DoPrepare? || step.action.DoContinue?
  {
    hide Append, Account, AppendOverrun, AppendTurn, CheckTurn, DispatchInput, ReserveForDispatch, Prepare, Continue,
         Restart, RegisterRevision, LastOutcome, ToolTurns, Content, ValidGeneration, Current, Owns;
  }

  /** Runs appear only by admission, and by continuation of a run that waits for tools. */
  lemma Appears(lib: Libraries, s: VaultState, step: Step, c: Uuid)
    requires c !in s.runs && c in After(lib, s, step).runs
    ensures Perform(lib, s, step.action, step.now).Writes?
    ensures || (step.action.DoPrepare? && c == step.action.request.requestId)
            || (step.action.DoContinue? && (c == step.action.continuation.requestId
                                            || c == step.action.continuation.parentRequestId))
  {
    hide Perform;
    if !About(s, step.action, c) {
      StepReach(lib, s, step, c);
    } else if Perform(lib, s, step.action, step.now).Writes? {
      Known(lib, s, step, c);
    }
  }

  lemma Admits(lib: Libraries, s: VaultState, request: InferenceRequest, grant: Grant, now: Instant)
    requires Prepare(lib, s, request, grant, now).Ok? && Prepare(lib, s, request, grant, now).value.Write?
    ensures var t := Prepare(lib, s, request, grant, now).value.next;
            && request.requestId in t.runs && Descends(t.runs, request.requestId)
  {
    hide Conversation, ValidateBinding, Compiles, Fences, CheckConnection, Bound;
  }

  lemma WaitingHasNoChild(lib: Libraries, s: VaultState, id: Uuid)
    requires Inv(lib, s) && id in s.runs
    ensures s.runs[id].continuation.Some? <==> s.runs[id].state == ToolsSubmitted
    ensures forall m :: m in s.runs[id].history ==> m < |s.runs[id].request.messages|
  {
    hide Inv, TurnsOk, Coupled, LogOk;
    Local(lib, s, id);
  }

  lemma Bears(lib: Libraries, s: VaultState, c: ToolContinuation, grant: Grant, now: Instant)
    requires Inv(lib, s)
    requires Continue(lib, s, c, grant, now).Ok? && Continue(lib, s, c, grant, now).value.Write?
    ensures var t := Continue(lib, s, c, grant, now).value.next;
            && c.requestId !in s.runs && c.requestId in t.runs && c.parentRequestId in s.runs
            && Descends(t.runs, c.requestId)
  {
    hide Continue, Conversation, Inv, ContinuedRequest, Turn;
    var calls, content, results := ContinueForm(lib, s, c, grant, now);
    WaitingHasNoChild(lib, s, c.parentRequestId);
  }

  lemma StillDescends(lib: Libraries, s: VaultState, t: VaultState, c: Uuid)
    requires Inv(lib, s) && Extends(s, t) && c in s.runs && Descends(s.runs, c)
    ensures c in t.runs && Descends(t.runs, c)
  {
    hide Inv, Extends, Inherits;
    RunKept(s, t, c);
    if s.runs[c].parent.Some? {
      var p := s.runs[c].parent.value;
      RunKept(s, t, p);
      assert LinkedUp(s.runs, c) by { LinkOf(lib, s, c); }
      WaitingHasNoChild(lib, s, p);
      SameInheritance(s.runs[p], t.runs[p], s.runs[c], t.runs[c]);
    }
  }

  lemma SameInheritance(p: Run, q: Run, c: Run, d: Run)
    requires Inherits(p, c) && q.request == p.request && q.history == p.history
    requires q.responseReasoning == p.responseReasoning && d.history == c.history
    ensures Inherits(q, d)
  {
  }

  lemma LinkOf(lib: Libraries, s: VaultState, c: Uuid)
    requires Inv(lib, s) && c in s.runs
    ensures LinkedUp(s.runs, c)
  {
    hide AllLocal, Fenced, Exposure, RootsBound, UniqueRevisions, LinkedUp;
    assert LinkedDown(s.runs, c) && LinkedUp(s.runs, c);
  }

  /** In every state of every history each run has the reasoning it should have inherited, and no
      other. */
  lemma {:induction false} ReasoningIsInherited(lib: Libraries, h: History, i: nat, c: Uuid)
    requires Happens(lib, h) && i < |h.states| && c in h.states[i].runs
    ensures Descends(h.states[i].runs, c)
    decreases i
  {
    hide Inv, After, Perform, Extends, Descends, ReplyTo;
    if i > 0 {
      var s, step := h.states[i - 1], h.steps[i - 1];
      assert Taken(lib, h, i - 1);
      ReachableInv(lib, h, i - 1);
      if c in s.runs {
        ReasoningIsInherited(lib, h, i - 1, c);
        LaterExtends(lib, h, i - 1, i);
        StillDescends(lib, s, h.states[i], c);
      } else {
        NewlyDescends(lib, s, step, c);
      }
    }
  }

  lemma NewlyDescends(lib: Libraries, s: VaultState, step: Step, c: Uuid)
    requires Inv(lib, s) && c !in s.runs && c in After(lib, s, step).runs
    ensures Descends(After(lib, s, step).runs, c)
  {
    hide Inv, Prepare, Continue, Dispatch, Cancel, Delta, Finish, ReconcileCost, FinishTools, RecordGeneration,
         MarkUnknown, ReconcileGeneration, Restart, RegisterRevision, Descends;
    Appears(lib, s, step, c);
    match step.action {
      case DoPrepare(request, grant) => Admits(lib, s, request, grant, step.now);
      case DoContinue(k, grant) => Bears(lib, s, k, grant, step.now);
      case _ => assert false;
    }
  }

  /** The turn of a run kept reasoning, at place m of the conversations that continue it. */
  predicate Thought(run: Run, m: nat) {
    run.responseReasoning.Some? && m == |run.request.messages|
  }

  /** The reasoning of the k-th run of a chain is that of the turns before it: none is missing, none
      is another's, and there is no other. */
  predicate Remembers(runs: map<Uuid, Run>, ids: seq<Uuid>, k: nat)
    requires k < |ids| && forall j :: 0 <= j <= k ==> ids[j] in runs
  {
    && (forall j :: 0 <= j < k && runs[ids[j]].responseReasoning.Some? ==>
          && |runs[ids[j]].request.messages| in runs[ids[k]].history
          && runs[ids[k]].history[|runs[ids[j]].request.messages|] == runs[ids[j]].responseReasoning.value)
    && (forall m :: m in runs[ids[k]].history ==> exists j :: 0 <= j < k && Thought(runs[ids[j]], m))
  }

  /** So it is for every run of every chain from a run that continues nothing. */
  lemma {:induction false} ChainsRemember(lib: Libraries, h: History, i: nat, ids: seq<Uuid>, k: nat)
    requires Happens(lib, h) && i < |h.states| && Chain(h.states[i].runs, ids) && k < |ids|
    requires ids[0] in h.states[i].runs && h.states[i].runs[ids[0]].parent.None?
    ensures forall j :: 0 <= j <= k ==> ids[j] in h.states[i].runs
    ensures Remembers(h.states[i].runs, ids, k)
    decreases k
  {
    hide Inv, Chain, Happens;
    var runs := h.states[i].runs;
    ChainIds(runs, ids);
    ReasoningIsInherited(lib, h, i, ids[k]);
    if k > 0 {
      ChainsRemember(lib, h, i, ids, k - 1);
      ParentOf(lib, h, i, ids, k);
      OneMore(lib, h, i, ids, k);
    }
  }

  lemma ParentOf(lib: Libraries, h: History, i: nat, ids: seq<Uuid>, k: nat)
    requires Happens(lib, h) && i < |h.states| && Chain(h.states[i].runs, ids) && 0 < k < |ids|
    ensures ids[k] in h.states[i].runs && h.states[i].runs[ids[k]].parent == Some(ids[k - 1])
  {
    hide Inv;
    ReachableInv(lib, h, i);
    DownLink(lib, h.states[i], ids[k - 1]);
    assert h.states[i].runs[ids[k - 1]].continuation == Some(ids[k]);
  }

  lemma DownLink(lib: Libraries, s: VaultState, p: Uuid)
    requires Inv(lib, s) && p in s.runs
    ensures LinkedDown(s.runs, p)
  {
    hide AllLocal, Fenced, Exposure, RootsBound, UniqueRevisions, LinkedUp;
    assert LinkedDown(s.runs, p) && LinkedUp(s.runs, p);
  }

  /** One link further: the parent's reasoning stays in place and its own is added. */
  lemma OneMore(lib: Libraries, h: History, i: nat, ids: seq<Uuid>, k: nat)
    requires Happens(lib, h) && i < |h.states| && Chain(h.states[i].runs, ids) && 0 < k < |ids|
    requires ids[k - 1] in h.states[i].runs && ids[k] in h.states[i].runs
    requires forall j :: 0 <= j < k ==> ids[j] in h.states[i].runs
    requires Inherits(h.states[i].runs[ids[k - 1]], h.states[i].runs[ids[k]])
    requires Remembers(h.states[i].runs, ids, k - 1)
    ensures Remembers(h.states[i].runs, ids, k)
  {
    hide Happens, Chain;
    var runs := h.states[i].runs;
    forall j | 0 <= j < k && runs[ids[j]].responseReasoning.Some?
      ensures |runs[ids[j]].request.messages| in runs[ids[k]].history
      ensures runs[ids[k]].history[|runs[ids[j]].request.messages|] == runs[ids[j]].responseReasoning.value
    {
      if j < k - 1 {
        ChainGrows(lib, h, i, ids, j, k - 1);
      }
    }
    forall m | m in runs[ids[k]].history ensures exists j :: 0 <= j < k && Thought(runs[ids[j]], m) {
      if m == |runs[ids[k - 1]].request.messages| {
        assert Thought(runs[ids[k - 1]], m);
      } else {
        var j :| 0 <= j < k - 1 && Thought(runs[ids[j]], m);
      }
    }
  }

  // ----- the turn itself -----

  /** Each of these calls is answered by exactly one of these results, and nothing else is. */
  predicate AnsweredBy(calls: seq<ToolCall>, results: seq<ToolResult>) {
    |results| == |calls| && NoneTwice(results) && forall k :: 0 <= k < |calls| ==> HasResult(results, calls[k].id)
  }

  predicate NoneTwice(results: seq<ToolResult>) {
    forall a, b :: 0 <= a < b < |results| ==> results[a].toolCallId != results[b].toolCallId
  }

  /** The map holds these results and no others. */
  predicate Holds(m: map<string, string>, results: seq<ToolResult>) {
    && |m| == |results|
    && (forall r :: 0 <= r < |results| ==>
          results[r].toolCallId in m && m[results[r].toolCallId] == results[r].content)
    && (forall id :: id in m ==> HasResult(results, id))
  }

  predicate HasResult(results: seq<ToolResult>, id: string) {
    exists r :: 0 <= r < |results| && results[r].toolCallId == id
  }

  lemma OneMoreResult(m: map<string, string>, init: seq<ToolResult>, last: ToolResult)
    requires Holds(m, init)
    ensures last.toolCallId !in m ==> Holds(m[last.toolCallId := last.content], init + [last])
    ensures last.toolCallId in m ==> !NoneTwice(init + [last])
    ensures NoneTwice(init) && last.toolCallId !in m ==> NoneTwice(init + [last])
  {
    var results := init + [last];
    forall id | HasResult(init, id) ensures HasResult(results, id) {
      var r :| 0 <= r < |init| && init[r].toolCallId == id;
      assert results[r].toolCallId == id;
    }
    assert HasResult(results, last.toolCallId) by { assert results[|init|] == last; }
    if last.toolCallId in m {
      var r :| 0 <= r < |init| && init[r].toolCallId == last.toolCallId;
      assert results[r].toolCallId == results[|init|].toolCallId;
    }
  }

  lemma {:induction false} Collected(results: seq<ToolResult>)
    ensures CollectResults(results).Some? <==> NoneTwice(results)
    ensures CollectResults(results).Some? ==> Holds(CollectResults(results).value, results)
    decreases |results|
  {
    hide Holds, NoneTwice;
    if results == [] {
      assert NoneTwice(results) && Holds(map[], results) by { NothingCollected(); }
    } else {
      var init, last := results[..|results| - 1], results[|results| - 1];
      assert results == init + [last];
      Collected(init);
      if CollectResults(init).Some? {
        OneMoreResult(CollectResults(init).value, init, last);
      } else {
        StillTwice(init, last);
      }
    }
  }

  lemma NothingCollected()
    ensures NoneTwice([]) && Holds(map[], [])
  {
  }

  lemma StillTwice(init: seq<ToolResult>, last: ToolResult)
    ensures !NoneTwice(init) ==> !NoneTwice(init + [last])
  {
    if NoneTwice(init + [last]) {
      forall a, b | 0 <= a < b < |init| ensures init[a].toolCallId != init[b].toolCallId {
        assert (init + [last])[a] == init[a] && (init + [last])[b] == init[b];
      }
    }
  }

  lemma AnswersAre(calls: seq<ToolCall>, results: seq<ToolResult>)
    ensures CollectResults(results).Some? && Answered(calls, CollectResults(results).value) <==>
            AnsweredBy(calls, results)
  {
    hide CollectResults;
    Collected(results);
    if CollectResults(results).Some? {
      var m := CollectResults(results).value;
      if Answered(calls, m) {
        forall k | 0 <= k < |calls| ensures HasResult(results, calls[k].id) {
          assert calls[k].id in m;
        }
      }
      if AnsweredBy(calls, results) {
        forall k | 0 <= k < |calls| ensures calls[k].id in m {
          var r :| 0 <= r < |results| && results[r].toolCallId == calls[k].id;
        }
      }
    }
  }

  /** What a continuation needs. */
  ghost predicate Continuable(s: VaultState, c: ToolContinuation, grant: Grant, now: Instant) {
    && InForce(grant, now) && c.schemaVersion == 1 && c.requestId != 0 && c.requestId != c.parentRequestId
    && c.execution == grant.execution && c.profileRevision == grant.profileRevision
    && c.parentRequestId in s.runs && GivenTo(s.runs[c.parentRequestId], grant)
    && s.runs[c.parentRequestId].state == AwaitingTools
    && |ToolTurns(s.runs[c.parentRequestId].events)| == 1
    && var calls := ToolTurns(s.runs[c.parentRequestId].events)[0].0;
    && AnsweredBy(calls, c.results)
    && |s.runs[c.parentRequestId].request.messages| + 1 + |calls| <= 4096
    && c.requestId !in s.runs && |s.runs| < 4096 && |s.runs[c.parentRequestId].events| < 16384
    && Served(s, s.runs[c.parentRequestId].registration.registration)
  }

  lemma ContinueStep(lib: Libraries, s: VaultState, c: ToolContinuation, grant: Grant, now: Instant)
    requires Inv(lib, s)
    ensures var r := Continue(lib, s, c, grant, now);
            r.Ok? && r.value.Write? <==> Continuable(s, c, grant, now)
  {
    hide Inv, Readback, CheckConnection, ContinuationRequest, ToolTurns, ChildRun, AnsweredBy, Answered, CollectResults,
         Served, GivenTo, InForce;
    assert Current(grant, now) <==> InForce(grant, now) by { CurrentIs(grant, now); }
    if c.parentRequestId in s.runs {
      var parent := s.runs[c.parentRequestId];
      GrantIs(s, c.parentRequestId, grant, now);
      ConnectionIs(s, parent.registration);
      WaitingHasNoChild(lib, s, c.parentRequestId);
      if parent.state == AwaitingTools || parent.state == ToolsSubmitted {
        ParentContinues(lib, s, c);
        AnswersAre(ToolTurns(parent.events)[0].0, c.results);
      }
    }
    NotRead(s, c.parentRequestId, grant, now);
  }

  lemma CurrentIs(grant: Grant, now: Instant)
    ensures Current(grant, now) <==> InForce(grant, now)
  {
  }

  lemma NotRead(s: VaultState, id: Uuid, grant: Grant, now: Instant)
    ensures id !in s.runs ==> Readback(s, id, grant, now) == Err(Forbidden)
  {
  }

  /** A waiting run is continued exactly when each of its calls is answered once, by the holder of its
      grant, while there is room and its provider is connected. */
  lemma Continuation(lib: Libraries, h: History, i: nat, c: ToolContinuation, grant: Grant, now: Instant)
    requires Happens(lib, h) && i < |h.states|
    ensures var r := Continue(lib, h.states[i], c, grant, now);
            r.Ok? && r.value.Write? <==> Continuable(h.states[i], c, grant, now)
  {
    hide Inv, Continue, Continuable;
    ReachableInv(lib, h, i);
    ContinueStep(lib, h.states[i], c, grant, now);
  }

  /** The conversation of the new run: the parent's, its turn with the whole text of the parent, and
      after it, in the order of the calls, what the results say of each call. */
  lemma TurnIsAppended(lib: Libraries, s: VaultState, c: ToolContinuation, grant: Grant, now: Instant, k: nat, r: nat)
    requires Continue(lib, s, c, grant, now).Ok? && Continue(lib, s, c, grant, now).value.Write?
    ensures c.parentRequestId in s.runs && c.requestId in Continue(lib, s, c, grant, now).value.next.runs
    ensures var parent := s.runs[c.parentRequestId];
            var child := Continue(lib, s, c, grant, now).value.next.runs[c.requestId];
            var n, turns := |parent.request.messages|, ToolTurns(parent.events);
            && turns != []
            && var (calls, content) := turns[|turns| - 1];
            && |child.request.messages| == n + 1 + |calls| && child.request.messages[..n] == parent.request.messages
            && child.request.messages[n] == Assistant(content, calls)
            && (k < |calls| && r < |c.results| && c.results[r].toolCallId == calls[k].id ==>
                  child.request.messages[n + 1 + k] == Tool(calls[k].id, c.results[r].content))
  {
    hide Conversation, CollectResults, ToolTurns, CheckConnection, Readback, ContinuedHistory, Append;
    Collected(c.results);
    var parent := s.runs[c.parentRequestId];
    var turns := ToolTurns(parent.events);
    var (calls, content) := turns[|turns| - 1];
    var turn := Turn(content, calls, CollectResults(c.results).value);
    var messages := parent.request.messages + turn;
    assert messages[..|parent.request.messages|] == parent.request.messages;
    assert turn[0] == Assistant(content, calls) && |turn| == 1 + |calls|;
    assert k < |calls| ==> messages[|parent.request.messages| + 1 + k] == turn[1 + k];
  }
}
