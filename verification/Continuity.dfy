/** Repeating a call: deltas, receipts and continuations take effect exactly once, and
    continuation chains grow one conversation. */
module Continuity {
  import opened Base
  import opened Domain
  import opened Externals
  import opened Histories
  import opened Inference
  import opened Invariants
  import opened Journal
  import opened Preservation
  import opened Runs
  import opened Steps

  // ----- what a later log can still add -----

  /** After its provider turn a run gets no more text, no other turn and, once it has ended,
      no other outcome. */
  lemma {:induction false} LogTail(a: seq<Event>, b: seq<Event>, state: RunState)
    requires a <= b && Replay(a) == At(state) && !BeforeTools(state) && Replay(b) != Illegal
    ensures Replay(b).At? && !BeforeTools(Replay(b).state)
    ensures Terminal(state) ==> Replay(b) == At(state) && LastOutcome(b) == LastOutcome(a)
    ensures ToolTurns(b) == ToolTurns(a) && Text(b) == Text(a)
    decreases |b|
  {
    if |a| == |b| {
      assert a == b;
    } else {
      var init := b[..|b| - 1];
      assert a <= init;
      LogTail(a, init, state);
    }
  }

  /** The same, for one run in an earlier and a later state of a history. */
  lemma LaterLog(lib: Libraries, s: VaultState, t: VaultState, id: Uuid)
    requires Inv(lib, s) && Inv(lib, t) && Extends(s, t) && id in s.runs && !BeforeTools(s.runs[id].state)
    ensures id in t.runs && RunExtends(s.runs[id], t.runs[id])
    ensures var a, b := s.runs[id], t.runs[id];
            && (Terminal(a.state) ==> LastOutcome(b.events) == LastOutcome(a.events))
            && ToolTurns(b.events) == ToolTurns(a.events) && Content(b.events) == Content(a.events)
  {
    hide Inv, RequestOk, TurnsOk, Coupled, Replay, ToolTurns, LastOutcome, Text;
    Local(lib, s, id);
    Local(lib, t, id);
    assert RunExtends(s.runs[id], t.runs[id]);
    LogTail(s.runs[id].events, t.runs[id].events, s.runs[id].state);
  }

  // ----- deltas -----

  lemma DeltaRecorded(lib: Libraries, s: VaultState, id: Uuid, n: nat, text: string, step: Step)
    requires step.action == DoDelta(id, n, text) && Succeeds(lib, s, step)
    ensures var t := After(lib, s, step);
            id in t.runs && 0 < n <= |t.runs[id].events| && t.runs[id].events[n - 1].kind == TextDelta(text)
  {
  }

  /** A recorded delta takes effect once: sending it again is accepted and changes nothing,
      and sending another text in its place is refused. */
  lemma DeltaOnce(lib: Libraries, h: History, i: nat, j: nat, id: Uuid, n: nat, text: string, again: string,
                  now: Instant)
    requires Happens(lib, h) && i < j < |h.states| && i < |h.steps|
    requires h.steps[i].action == DoDelta(id, n, text) && !h.steps[i].reply.Rejected?
    ensures Delta(lib, h.states[j], id, n, again, now) == if again == text then Ok(Keep(())) else Err(Conflict)
  {
    hide Inv, After, Succeeds, Perform;
    Moment(lib, h, i);
    DeltaRecorded(lib, h.states[i], id, n, text, h.steps[i]);
    NoWayBack(lib, h, id, i + 1, j);
  }

  // ----- receipts -----

  /** The receipt of a finished run is on record. */
  predicate Receipted(s: VaultState, id: Uuid, outcome: TerminalOutcome) {
    id in s.runs && Terminal(s.runs[id].state) && LastOutcome(s.runs[id].events) == Some(outcome)
  }

  lemma FinishWrites(lib: Libraries, s: VaultState, id: Uuid, outcome: TerminalOutcome, actual: Option<u64>,
                     now: Instant)
    requires Inv(lib, s) && Finish(lib, s, id, outcome, actual, now).Ok?
             && Finish(lib, s, id, outcome, actual, now).value.Write?
    ensures var t := Finish(lib, s, id, outcome, actual, now).value.next;
            Receipted(t, id, outcome) && SameCost(t.budget, id, actual)
  {
    hide Inv, RunOk, AppendOverrun, Replay;
    Local(lib, s, id);
    var run := s.runs[id];
    var noticed := AppendOverrun(lib, run, Account(s.budget, Profiled(run).provider, id, actual).value, id, now).value;
    OpenReservation(id, run, Lookup(s.budget, id));
    assert LastOutcome(Pushed(noticed, ProviderTerminal(outcome), now).events) == Some(outcome);
  }

  lemma FinishRecorded(lib: Libraries, s: VaultState, id: Uuid, outcome: TerminalOutcome, actual: Option<u64>,
                       step: Step)
    requires Inv(lib, s) && step.action == DoFinish(id, outcome, actual) && Succeeds(lib, s, step)
    ensures var t := After(lib, s, step); Receipted(t, id, outcome) && SameCost(t.budget, id, actual)
  {
    hide Inv, AppendOverrun, Append, Account, LastOutcome;
    if Finish(lib, s, id, outcome, actual, step.now).value.Write? {
      FinishWrites(lib, s, id, outcome, actual, step.now);
    }
  }

  /** A final receipt repeats without effect exactly when it agrees with the record; a cost
      reported with it stays the recorded cost, and a cost left open may still be reconciled. */
  lemma ReceiptOnce(lib: Libraries, h: History, i: nat, j: nat, id: Uuid, outcome: TerminalOutcome, actual: Option<u64>,
                    again: TerminalOutcome, cost: Option<u64>, now: Instant)
    requires Happens(lib, h) && i < j < |h.states| && i < |h.steps|
    requires h.steps[i].action == DoFinish(id, outcome, actual) && !h.steps[i].reply.Rejected?
    ensures Finish(lib, h.states[j], id, again, cost, now) ==
            if again == outcome && CostOnRecord(h.states[j].budget, id, cost) then Ok(Keep(())) else Err(Conflict)
    ensures actual.Some? ==> CostOnRecord(h.states[j].budget, id, actual)
    ensures id in h.states[j].runs && EndedAs(h.states[j].runs[id], outcome)
  {
    hide Inv, After, Succeeds, Extends, LastOutcome, Account, AppendOverrun, Perform, EndedAs;
    Moment(lib, h, i);
    FinishRecorded(lib, h.states[i], id, outcome, actual, h.steps[i]);
    LaterExtends(lib, h, i + 1, j);
    ReachableInv(lib, h, j);
    LaterLog(lib, h.states[i + 1], h.states[j], id);
    CostKept(lib, h.states[i + 1], h.states[j], id, actual);
    EndKept(lib, h.states[j], id, outcome);
  }

  /** A log with a receipt ends as the receipt says. */
  lemma {:induction false} EndsAsReceived(events: seq<Event>, state: RunState)
    requires Replay(events) == At(state) && LastOutcome(events).Some?
    ensures state == StateOf(LastOutcome(events).value)
    decreases |events|
  {
    var init, kind := events[..|events| - 1], events[|events| - 1].kind;
    if !kind.ProviderTerminal? {
      EndsAsReceived(init, Replay(init).state);
    }
  }

  lemma EndKept(lib: Libraries, s: VaultState, id: Uuid, outcome: TerminalOutcome)
    requires Inv(lib, s) && id in s.runs && LastOutcome(s.runs[id].events) == Some(outcome)
    requires Terminal(s.runs[id].state)
    ensures EndedAs(s.runs[id], outcome)
  {
    hide Inv, RequestOk, TurnsOk, Coupled, Replay, LastOutcome;
    Local(lib, s, id);
    EndsAsReceived(s.runs[id].events, s.runs[id].state);
  }

  lemma CostKept(lib: Libraries, s: VaultState, t: VaultState, id: Uuid, actual: Option<u64>)
    requires Inv(lib, s) && Extends(s, t) && id in s.runs && SameCost(s.budget, id, actual)
    ensures actual.Some? ==> SameCost(t.budget, id, actual)
  {
    hide Inv, RunOk;
    Local(lib, s, id);
    if actual.Some? {
      assert ReservationExtends(s.budget[id], t.budget[id]);
    }
  }

  // ----- tool turns -----

  lemma FinishToolsWrites(lib: Libraries, s: VaultState, id: Uuid, calls: seq<ToolCall>, reasoning: Option<Reasoning>,
                          actual: Option<u64>, now: Instant)
    requires Inv(lib, s) && FinishTools(lib, s, id, calls, reasoning, actual, now).Ok?
    requires FinishTools(lib, s, id, calls, reasoning, actual, now).value.Write?
    ensures var t := FinishTools(lib, s, id, calls, reasoning, actual, now).value.next;
            && id in t.runs && CheckTurn(lib, t.runs[id], calls, reasoning) == Pass
               && TurnRecorded(t.runs[id], calls, reasoning)
  {
    hide Inv, RunOk, AppendOverrun, Account, Coupled, CheckTurn, FinishTools, ToolTurns, Content, TurnRecorded;
    FinishToolsForm(lib, s, id, calls, reasoning, actual, now);
    Local(lib, s, id);
    var run := s.runs[id];
    OpenReservation(id, run, Lookup(s.budget, id));
    ReceiptNoticed(lib, s.budget, id, run, actual, now);
    var noticed := AppendOverrun(lib, run, Account(s.budget, Profiled(run).provider, id, actual).value, id, now).value;
    TurnedReads(noticed, calls, reasoning, now);
    SameChecks(lib, run, Turned(noticed, ToolCalls(calls, Content(noticed.events)), reasoning, now), calls, reasoning);
  }

  lemma FinishToolsRecorded(lib: Libraries, s: VaultState, id: Uuid, calls: seq<ToolCall>, reasoning: Option<Reasoning>,
                            actual: Option<u64>, step: Step)
    requires Inv(lib, s) && step.action == DoFinishTools(id, calls, reasoning, actual) && Succeeds(lib, s, step)
    ensures var t := After(lib, s, step);
            id in t.runs && CheckTurn(lib, t.runs[id], calls, reasoning) == Pass
                && TurnRecorded(t.runs[id], calls, reasoning)
  {
    hide Inv, AppendOverrun, Append, Account, CheckTurn, ToolTurns, Content;
    if FinishTools(lib, s, id, calls, reasoning, actual, step.now).value.Write? {
      FinishToolsWrites(lib, s, id, calls, reasoning, actual, step.now);
    } else {
      OneTurn(lib, s, id);
    }
  }

  lemma OneTurn(lib: Libraries, s: VaultState, id: Uuid)
    requires Inv(lib, s) && id in s.runs
    ensures |ToolTurns(s.runs[id].events)| <= 1
    ensures ToolTurns(s.runs[id].events) != [] ==> !BeforeTools(s.runs[id].state)
  {
    hide Inv, RequestOk, LogOk, AcceptedTurn, Coupled;
    Local(lib, s, id);
  }

  /** A tool turn takes effect once: the same calls and reasoning are accepted again exactly
      when the cost agrees with the record. */
  lemma TurnOnce(lib: Libraries, h: History, i: nat, j: nat, id: Uuid, calls: seq<ToolCall>,
                 reasoning: Option<Reasoning>, actual: Option<u64>, cost: Option<u64>, now: Instant)
    requires Happens(lib, h) && i < j < |h.states| && i < |h.steps|
    requires h.steps[i].action == DoFinishTools(id, calls, reasoning, actual) && !h.steps[i].reply.Rejected?
    ensures FinishTools(lib, h.states[j], id, calls, reasoning, cost, now) ==
            if CostOnRecord(h.states[j].budget, id, cost) then Ok(Keep(())) else Err(Conflict)
  {
    hide Inv, After, Succeeds, Extends, ToolTurns, Account, AppendOverrun, Content, CheckTurn, Perform;
    Moment(lib, h, i);
    FinishToolsRecorded(lib, h.states[i], id, calls, reasoning, actual, h.steps[i]);
    LaterExtends(lib, h, i + 1, j);
    ReachableInv(lib, h, j);
    LaterLog(lib, h.states[i + 1], h.states[j], id);
    SameChecks(lib, h.states[i + 1].runs[id], h.states[j].runs[id], calls, reasoning);
  }

  // ----- admissions and continuations -----

  /** The same assignment, possibly renewed. */
  predicate SameGrant(a: Grant, b: Grant) {
    && a.execution == b.execution && a.machineSubject == b.machineSubject
    && a.profileRevision == b.profileRevision && a.fencingToken == b.fencingToken
  }

  /** A request id is admitted once; the same request from the same assignment reads back. */
  lemma AdmittedOnce(lib: Libraries, h: History, i: nat, j: nat, request: InferenceRequest, grant: Grant,
                     again: InferenceRequest, late: Grant, now: Instant)
    requires Happens(lib, h) && i < j < |h.states| && i < |h.steps|
    requires h.steps[i].action == DoPrepare(request, grant) && !h.steps[i].reply.Rejected?
    requires again.requestId == request.requestId
    ensures !EffectOf(Prepare(lib, h.states[j], again, late, now)).Writes?
    ensures again == request && Current(late, now) && SameGrant(grant, late) ==>
              Prepare(lib, h.states[j], again, late, now) == Ok(Keep(false))
  {
    hide Inv, After, Succeeds, Extends, Conversation, FindRevision, Compiles, Fences, CheckConnection, ValidateBinding,
         NewRun, Perform;
    Moment(lib, h, i);
    PrepareRecorded(lib, h.states[i], request, grant, h.steps[i]);
    LaterExtends(lib, h, i + 1, j);
    RunKept(h.states[i + 1], h.states[j], request.requestId);
  }

  predicate Admitted(lib: Libraries, s: VaultState, request: InferenceRequest, grant: Grant) {
    && request.requestId in s.runs && Owns(s.runs[request.requestId], grant)
    && s.runs[request.requestId].requestFingerprint == lib.fingerprint(request)
  }

  lemma PrepareAnswers(lib: Libraries, s: VaultState, request: InferenceRequest, grant: Grant, now: Instant)
    requires Prepare(lib, s, request, grant, now).Ok?
    ensures request.requestId != NIL && request.execution == grant.execution
            && request.profileRevision == grant.profileRevision
    ensures request.schemaVersion == 1 && Conversation(request) == Pass
    ensures match Prepare(lib, s, request, grant, now).value
            case Keep(_) => Admitted(lib, s, request, grant)
            case Write(next, _) => Admitted(lib, next, request, grant)
  {
    hide Conversation, FindRevision, Compiles, Fences, CheckConnection, ValidateBinding, Matches, Bound;
  }

  lemma PrepareRecorded(lib: Libraries, s: VaultState, request: InferenceRequest, grant: Grant, step: Step)
    requires step.action == DoPrepare(request, grant) && Succeeds(lib, s, step)
    ensures Admitted(lib, After(lib, s, step), request, grant)
    ensures request.requestId != NIL && request.execution == grant.execution
            && request.profileRevision == grant.profileRevision
    ensures request.schemaVersion == 1 && Conversation(request) == Pass
  {
    hide Prepare, Admitted, Conversation;
    PrepareAnswers(lib, s, request, grant, step.now);
  }

  /** The continuation is on record: parent and child are linked and the child is its request. */
  ghost predicate Continued(lib: Libraries, s: VaultState, c: ToolContinuation) {
    && c.parentRequestId in s.runs && c.requestId in s.runs
    && var parent, child := s.runs[c.parentRequestId], s.runs[c.requestId];
       && parent.continuation == Some(c.requestId) && child.parent == Some(c.parentRequestId)
       && ContinuationRequest(parent, c).Ok?
       && child.requestFingerprint == lib.fingerprint(ContinuationRequest(parent, c).value)
  }

  lemma ContinueWrites(lib: Libraries, s: VaultState, c: ToolContinuation, grant: Grant, now: Instant)
    requires Continue(lib, s, c, grant, now).Ok? && Continue(lib, s, c, grant, now).value.Write?
    ensures Continued(lib, Continue(lib, s, c, grant, now).value.next, c)
  {
    hide Continue, ContinuationRequest, ToolTurns, ContinuedRequest, Answered, Replay, Conversation;
    var calls, content, results := ContinueForm(lib, s, c, grant, now);
    var parent := s.runs[c.parentRequestId];
    PushedReads(parent, ToolResultsSubmitted(c.requestId), now);
    SameContinuation(parent, Submitted(parent, c.requestId, now), c);
  }

  lemma SameContinuation(a: Run, b: Run, c: ToolContinuation)
    requires a.request == b.request && ToolTurns(a.events) == ToolTurns(b.events)
    ensures ContinuationRequest(a, c) == ContinuationRequest(b, c)
  {
    hide ToolTurns, CollectResults, Conversation, Answered;
  }

  lemma ContinueReads(lib: Libraries, s: VaultState, c: ToolContinuation, grant: Grant, now: Instant)
    requires Continue(lib, s, c, grant, now) == Ok(Keep(false))
    ensures Continued(lib, s, c)
  {
    hide ContinuationRequest, CheckConnection, ChildRun, Append;
  }

  lemma ContinuedKept(lib: Libraries, s: VaultState, t: VaultState, c: ToolContinuation)
    requires Inv(lib, s) && Inv(lib, t) && Extends(s, t) && Continued(lib, s, c)
    ensures Continued(lib, t, c)
  {
    hide Inv, Extends, ToolTurns, ContinuationRequest, Content, LastOutcome;
    Local(lib, s, c.parentRequestId);
    LocalRun(lib, c.parentRequestId, s.runs[c.parentRequestId], Lookup(s.budget, c.parentRequestId));
    LaterLog(lib, s, t, c.parentRequestId);
    SameContinuation(s.runs[c.parentRequestId], t.runs[c.parentRequestId], c);
    RunKept(s, t, c.requestId);
  }

  /** With the parent on record, what a repeated continuation answers. */
  lemma ContinuedAnswer(lib: Libraries, s: VaultState, c: ToolContinuation, grant: Grant, now: Instant)
    requires Inv(lib, s) && Continued(lib, s, c) && ContinuedParent(s, c, grant, now).Ok?
    ensures Continue(lib, s, c, grant, now) == Ok(Keep(false))
  {
    hide AllLocal, RootsBound, Fenced, Exposure, UniqueRevisions, ContinuationRequest;
    assert LinkedUp(s.runs, c.requestId);
  }

  lemma ParentAccepts(lib: Libraries, s: VaultState, c: ToolContinuation, grant: Grant, now: Instant)
    requires Inv(lib, s) && Continued(lib, s, c) && Current(grant, now) && Owns(s.runs[c.parentRequestId], grant)
    requires c.schemaVersion == 1 && c.requestId != NIL && c.requestId != c.parentRequestId
    requires c.execution == grant.execution && c.profileRevision == grant.profileRevision
    ensures ContinuedParent(s, c, grant, now).Ok?
  {
    hide Inv, ContinuationRequest;
    Local(lib, s, c.parentRequestId);
    LocalRun(lib, c.parentRequestId, s.runs[c.parentRequestId], Lookup(s.budget, c.parentRequestId));
  }

  lemma ContinueRecorded(lib: Libraries, s: VaultState, c: ToolContinuation, grant: Grant, step: Step)
    requires step.action == DoContinue(c, grant) && Succeeds(lib, s, step)
    ensures var t := After(lib, s, step);
            && Continued(lib, t, c) && c.parentRequestId in s.runs && Owns(s.runs[c.parentRequestId], grant)
            && c.schemaVersion == 1 && c.requestId != NIL && c.requestId != c.parentRequestId
            && c.execution == grant.execution && c.profileRevision == grant.profileRevision
  {
    hide Continue, Continued, ContinuationRequest;
    ContinueOwned(lib, s, c, grant, step.now);
    if Continue(lib, s, c, grant, step.now).value.Write? {
      ContinueWrites(lib, s, c, grant, step.now);
    } else {
      ContinueKeep(lib, s, c, grant, step.now);
      ContinueReads(lib, s, c, grant, step.now);
    }
  }

  lemma ContinueKeep(lib: Libraries, s: VaultState, c: ToolContinuation, grant: Grant, now: Instant)
    requires Continue(lib, s, c, grant, now).Ok? && Continue(lib, s, c, grant, now).value.Keep?
    ensures Continue(lib, s, c, grant, now) == Ok(Keep(false))
  {
    hide ContinuedParent, ContinuationRequest, CheckConnection, ChildRun, Append, Readback;
  }

  /** A continuation takes effect once: the same results from the same assignment read back. */
  lemma ContinuedOnce(lib: Libraries, h: History, i: nat, j: nat, c: ToolContinuation, grant: Grant, late: Grant,
                      now: Instant)
    requires Happens(lib, h) && i < j < |h.states| && i < |h.steps|
    requires h.steps[i].action == DoContinue(c, grant) && !h.steps[i].reply.Rejected?
    requires Current(late, now) && SameGrant(grant, late)
    ensures Continue(lib, h.states[j], c, late, now) == Ok(Keep(false))
  {
    hide Inv, After, Succeeds, Extends, Continue, Continued, ContinuedParent, Perform;
    var s, t := h.states[i], h.states[j];
    Moment(lib, h, i);
    ContinueRecorded(lib, s, c, grant, h.steps[i]);
    LaterExtends(lib, h, i + 1, j);
    ReachableInv(lib, h, j);
    ContinuedKept(lib, h.states[i + 1], t, c);
    LaterExtends(lib, h, i, j);
    RunKept(s, t, c.parentRequestId);
    ParentAccepts(lib, t, c, late, now);
    ContinuedAnswer(lib, t, c, late, now);
  }

  // ----- chains -----

  /** Ids of which each is the continuation of the one before. */
  predicate Chain(runs: map<Uuid, Run>, ids: seq<Uuid>) {
    forall i :: 0 <= i < |ids| ==>
      ids[i] in runs && (i + 1 < |ids| ==> runs[ids[i]].continuation == Some(ids[i + 1]))
  }

  lemma ChainLink(runs: map<Uuid, Run>, ids: seq<Uuid>, i: nat)
    requires Linked(runs) && Chain(runs, ids) && i + 1 < |ids|
    ensures Continues(runs[ids[i]], runs[ids[i + 1]])
  {
    assert LinkedDown(runs, ids[i]) && LinkedUp(runs, ids[i + 1]);
  }

  lemma {:induction false} LongerConversations(runs: map<Uuid, Run>, ids: seq<Uuid>, i: nat, j: nat)
    requires Linked(runs) && Chain(runs, ids) && i < j < |ids|
    ensures ids[i] in runs && ids[j] in runs
    ensures var a, b := runs[ids[i]], runs[ids[j]];
            && a.request.messages < b.request.messages
            && b.request == a.request.(requestId := b.request.requestId, messages := b.request.messages)
            && SameAssignment(a, b) && a.registration == b.registration
    decreases j - i
  {
    hide Linked, Chain;
    ChainIds(runs, ids);
    ChainLink(runs, ids, j - 1);
    if i < j - 1 {
      LongerConversations(runs, ids, i, j - 1);
    }
  }

  lemma ChainIds(runs: map<Uuid, Run>, ids: seq<Uuid>)
    requires Chain(runs, ids)
    ensures forall i :: 0 <= i < |ids| ==> ids[i] in runs
  {
  }

  lemma InvLinked(lib: Libraries, s: VaultState)
    requires Inv(lib, s)
    ensures Linked(s.runs)
  {
    hide AllLocal, RootsBound, Fenced, Exposure, UniqueRevisions, Linked;
  }

  /** Along a chain the conversation only grows, under one assignment, profile and model: the
      messages of each run are a proper prefix of those of every later one. */
  lemma ChainGrows(lib: Libraries, h: History, k: nat, ids: seq<Uuid>, i: nat, j: nat)
    requires Happens(lib, h) && k < |h.states| && Chain(h.states[k].runs, ids) && i < j < |ids|
    ensures ids[i] in h.states[k].runs && ids[j] in h.states[k].runs
    ensures var a, b := h.states[k].runs[ids[i]], h.states[k].runs[ids[j]];
            && a.request.messages < b.request.messages
            && b.request == a.request.(requestId := b.request.requestId, messages := b.request.messages)
            && SameAssignment(a, b) && a.registration == b.registration
  {
    hide Inv, Linked;
    ReachableInv(lib, h, k);
    InvLinked(lib, h.states[k]);
    LongerConversations(h.states[k].runs, ids, i, j);
  }

  lemma {:induction false} ChainLength(lib: Libraries, s: VaultState, ids: seq<Uuid>)
    requires Inv(lib, s) && Chain(s.runs, ids) && ids != []
    ensures ids[|ids| - 1] in s.runs && |ids| <= |s.runs[ids[|ids| - 1]].request.messages| <= MAX_MESSAGES
    decreases |ids|
  {
    hide Inv, Linked;
    var init, last := ids[..|ids| - 1], ids[|ids| - 1];
    MessageCount(lib, s, last);
    if init != [] {
      ChainLength(lib, s, init);
      InvLinked(lib, s);
      LongerConversations(s.runs, ids, |ids| - 2, |ids| - 1);
    }
  }

  /** Hence chains have no cycles, and are no longer than a conversation. */
  lemma ChainsEnd(lib: Libraries, h: History, k: nat, ids: seq<Uuid>)
    requires Happens(lib, h) && k < |h.states| && Chain(h.states[k].runs, ids)
    ensures forall i, j :: 0 <= i < j < |ids| ==> ids[i] != ids[j]
    ensures |ids| <= MAX_MESSAGES
  {
    hide Inv, Linked, Chain, Happens, SameAssignment;
    forall i, j | 0 <= i < j < |ids| ensures ids[i] != ids[j] {
      ChainGrows(lib, h, k, ids, i, j);
    }
    ReachableInv(lib, h, k);
    if ids != [] {
      ChainLength(lib, h.states[k], ids);
    }
  }

  lemma MessageCount(lib: Libraries, s: VaultState, id: Uuid)
    requires Inv(lib, s) && id in s.runs
    ensures 1 <= |s.runs[id].request.messages| <= MAX_MESSAGES
  {
    hide Inv, LogOk, TurnsOk, Coupled, HistoryApplies, ValidateBinding;
    Local(lib, s, id);
  }

  /** Submitted runs are exactly those with a continuation, links are mutual inverses, and no
      two runs continue the same parent. */
  lemma LinksAreInverse(lib: Libraries, h: History, k: nat, id: Uuid, other: Uuid)
    requires Happens(lib, h) && k < |h.states| && id in h.states[k].runs && other in h.states[k].runs
    ensures var runs := h.states[k].runs;
            && (runs[id].state == ToolsSubmitted <==> runs[id].continuation.Some?)
            && (runs[id].continuation == Some(other) <==> runs[other].parent == Some(id))
            && (runs[id].parent.Some? && runs[id].parent == runs[other].parent ==> id == other)
  {
    hide Inv, Continues, RunOk;
    var s := h.states[k];
    ReachableInv(lib, h, k);
    InvLinked(lib, s);
    Local(lib, s, id);
    LocalRun(lib, id, s.runs[id], Lookup(s.budget, id));
    assert LinkedDown(s.runs, id) && LinkedUp(s.runs, id) && LinkedUp(s.runs, other) && LinkedDown(s.runs, other);
  }

  // ----- what a continuation can fail on -----

  /** As many distinct results as calls, each call answered: then nothing else was answered. */
  lemma AnsweredIsBijection(calls: seq<ToolCall>, results: map<string, string>)
    requires Distinct(Ids(calls))
    ensures Answered(calls, results) <==> results.Keys == Elements(Ids(calls))
  {
    DistinctElements(Ids(calls));
    var ids := Elements(Ids(calls));
    if Answered(calls, results) {
      assert ids <= results.Keys;
      SubsetSameSize(ids, results.Keys);
    }
    if results.Keys == ids {
      assert |results| == |results.Keys|;
      forall i | 0 <= i < |calls| ensures calls[i].id in results {
        assert Ids(calls)[i] in ids;
      }
    }
  }

  lemma ParentContinues(lib: Libraries, s: VaultState, c: ToolContinuation)
    requires Inv(lib, s) && c.parentRequestId in s.runs
    requires s.runs[c.parentRequestId].state == AwaitingTools || s.runs[c.parentRequestId].state == ToolsSubmitted
    ensures var parent := s.runs[c.parentRequestId];
            && |ToolTurns(parent.events)| == 1
            && var calls := ToolTurns(parent.events)[0].0;
               ContinuationRequest(parent, c).Ok? <==>
               && CollectResults(c.results).Some? && Answered(calls, CollectResults(c.results).value)
               && |parent.request.messages| + 1 + |calls| <= MAX_MESSAGES
  {
    hide Inv, LogOk, Coupled, Scan, ToolTurns, CollectResults, Conversation, ReturnedTools;
    var parent := s.runs[c.parentRequestId];
    Local(lib, s, c.parentRequestId);
    NoTurnYet(lib, c.parentRequestId, parent);
    var calls, content := ToolTurns(parent.events)[0].0, ToolTurns(parent.events)[0].1;
    var results := CollectResults(c.results);
    if results.Some? && Answered(calls, results.value) {
      ContinuationKeepsValidity(parent.request, c.requestId, content, calls, results.value);
    }
  }

  /** For a run waiting for tools the only obstacle left, once each call has its result, is the
      number of messages. */
  lemma ContinuationValidates(lib: Libraries, h: History, k: nat, c: ToolContinuation)
    requires Happens(lib, h) && k < |h.states| && c.parentRequestId in h.states[k].runs
    requires var state := h.states[k].runs[c.parentRequestId].state; state == AwaitingTools || state == ToolsSubmitted
    ensures var parent := h.states[k].runs[c.parentRequestId];
            && |ToolTurns(parent.events)| == 1
            && var calls := ToolTurns(parent.events)[0].0;
               ContinuationRequest(parent, c).Ok? <==>
               && CollectResults(c.results).Some? && Answered(calls, CollectResults(c.results).value)
               && |parent.request.messages| + 1 + |calls| <= MAX_MESSAGES
  {
    hide Inv, ToolTurns, CollectResults, ContinuationRequest, Answered;
    ReachableInv(lib, h, k);
    ParentContinues(lib, h.states[k], c);
  }

  /** Encoding a stored run for its own execution never fails for its binding, conversation or
      reasoning history: continuations keep them valid. */
  lemma StoredRunsEncode(lib: Libraries, h: History, k: nat, id: Uuid, capabilities: Capabilities, framing: Option<u64>)
    requires Happens(lib, h) && k < |h.states| && id in h.states[k].runs
    ensures var run := h.states[k].runs[id];
            var encoded := Encode(lib, run, run.request.execution, capabilities, framing);
            encoded.Fail? ==>
              || encoded.error.Context? || encoded.error == AccountingUnconfirmed
              || (encoded.error == ProviderMismatch && !PaidRun(run))
  {
    hide Inv, LogOk, TurnsOk, Coupled, Conversation, ValidateBinding, CheckContext, ValidateSettings, HistoryApplies;
    ReachableInv(lib, h, k);
    Local(lib, h.states[k], id);
  }

  lemma LostOutput(lib: Libraries, s: VaultState, id: Uuid, receipt: GenerationReceipt, now: Instant)
    requires Inv(lib, s) && ReconcileGeneration(lib, s, id, receipt, now).Ok?
    ensures id in s.runs && s.runs[id].generationId == Some(receipt.id) && Profiled(s.runs[id]).model == receipt.model
    ensures var t := Commit(s, ReconcileGeneration(lib, s, id, receipt, now), true).0;
            && Receipted(t, id, if receipt.cancelled then OutcomeCancelled else OutcomeFailed)
            && SameCost(t.budget, id, Some(receipt.actual))
  {
    hide Inv, Finish;
    var outcome := if receipt.cancelled then OutcomeCancelled else OutcomeFailed;
    if Finish(lib, s, id, outcome, Some(receipt.actual), now).value.Write? {
      FinishWrites(lib, s, id, outcome, Some(receipt.actual), now);
    } else {
      FinishReads(lib, s, id, outcome, Some(receipt.actual), now);
    }
  }

  /** Billing of a lost stream ends the run as cancelled or failed, never as completed, with the
      billed cost on record. */
  lemma LostOutputNeverCompletes(lib: Libraries, h: History, i: nat, id: Uuid, receipt: GenerationReceipt)
    requires Happens(lib, h) && i < |h.steps|
    requires h.steps[i].action == DoReconcileGeneration(id, receipt) && !h.steps[i].reply.Rejected?
    ensures id in h.states[i].runs && h.states[i].runs[id].generationId == Some(receipt.id)
    ensures var t := h.states[i + 1];
            && id in t.runs && t.runs[id].state == (if receipt.cancelled then Cancelled else Failed)
            && CostOnRecord(t.budget, id, Some(receipt.actual))
  {
    hide Inv, ReconcileGeneration, LastOutcome;
    Moment(lib, h, i);
    LostOutput(lib, h.states[i], id, receipt, h.steps[i].now);
    EndKept(lib, h.states[i + 1], id, if receipt.cancelled then OutcomeCancelled else OutcomeFailed);
  }

  lemma FinishReads(lib: Libraries, s: VaultState, id: Uuid, outcome: TerminalOutcome, actual: Option<u64>,
                    now: Instant)
    requires Finish(lib, s, id, outcome, actual, now).Ok? && Finish(lib, s, id, outcome, actual, now).value.Keep?
    ensures Receipted(s, id, outcome) && SameCost(s.budget, id, actual)
  {
    hide AppendOverrun, Append, Account, LastOutcome;
  }
}
