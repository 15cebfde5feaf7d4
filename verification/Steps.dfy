/** Every journal method of the vault as one atomic step on its state
    (inference_journal.rs, inference_tools.rs, openrouter_transport.rs). */
module Steps {
  import opened Base
  import opened Budget
  import opened Domain
  import opened Externals
  import opened Inference
  import opened Journal
  import opened JsonValue
  import opened Money

  /** What a successful step asks for: an answer only, or a new state to commit. */
  datatype Change<+T> = Keep(value: T) | Write(next: VaultState, value: T)

  // ----- connection and proof checks -----

  function DeployedContract(provider: Provider): (string, string) {
    match provider
    case Chatgpt => ("codex-app-server-0.159.0-alpha.12.1-v5-readonly-tool-policy",
                     "native-byte-bound-full-output-reserve-v1")
    case Openrouter => ("openrouter-sse-v3", "openrouter-wire-byte-bound-priced-private-history-v3")
  }

  function CheckConnection(s: VaultState, registered: Registered): Check<RuntimeError> {
    var registration := registered.registration;
    var provider := registration.profile.provider;
    if (registration.adapterVersion, registration.accountingPolicy) != DeployedContract(provider)
    then Fail(CapabilityNotVerified)
    else if provider !in s.connections then Fail(Disconnected)
    else if s.connections[provider] != Connection(provider, registration.credentialGeneration) then Fail(Conflict)
    else Pass
  }

  predicate ProofCovers(proof: VerifiedAdapter, registration: Registration) {
    && proof.adapterVersion == registration.adapterVersion
    && proof.accountingPolicy == registration.accountingPolicy
    && proof.draftRevision == Some(registration.draftRevision)
    && proof.evidence.credentialGeneration == registration.credentialGeneration
    && proof.evidence.settings ==
         Settings(registration.profile.provider, registration.profile.model, registration.profile.contextWindowTokens)
    && ValidateSettings(proof.evidence.settings, proof.evidence.capabilities) == Pass
  }

  /** `find` over the registered revisions; the registry keeps revision numbers unique. */
  ghost function FindRevision(registered: map<Uuid, Registered>, revision: nat): Option<Registered> {
    if op :| op in registered && registered[op].registration.profile.revision == revision
    then Some(registered[op]) else None
  }

  predicate UniqueRevisions(registered: map<Uuid, Registered>) {
    forall a, b :: a in registered && b in registered && a != b ==>
                     registered[a].registration.profile.revision != registered[b].registration.profile.revision
  }

  // ----- the byte bounds checked before dispatch -----

  datatype Preparation = Preparation(framingTokens: Option<u64>, outputLimitSupported: bool,
                                     paidCost: Option<CostEstimate>)

  function WithFraming(bytes: nat, framing: Option<u64>): Option<u64> {
    if framing.Some? && bytes + framing.value <= U64_MAX then Some(bytes + framing.value) else None
  }

  /** Private reasoning can only be attached to assistant messages. */
  predicate HistoryApplies(lib: Libraries, request: InferenceRequest, history: map<nat, Reasoning>) {
    forall k | k in history ::
      k < |request.messages| && request.messages[k].Assistant? && ValidReasoning(lib, history[k])
  }

  function EncodeError(error: InferenceError): RuntimeError {
    if error.Context? then ContextExceeded else CapabilityNotVerified
  }

  /** `ChatRequest::encode`: the checks made before the body is priced. */
  function Encode(lib: Libraries, run: Run, authorized: ExecutionScope, capabilities: Capabilities,
                  framing: Option<u64>)
    : Check<InferenceError>
  {
    var profile, request := Profiled(run), run.request;
    var binding := ValidateBinding(request, authorized, profile);
    if binding.Fail? then binding
    else if Conversation(request).Fail? then Conversation(request)
    else if profile.provider != Openrouter then Fail(ProviderMismatch)
    else
      var settings := ValidateSettings(Settings(profile.provider, profile.model, profile.contextWindowTokens),
                                       capabilities);
      if settings.Fail? then Fail(Context(settings.error))
      else if framing.None? then Fail(AccountingUnconfirmed)
      else if !HistoryApplies(lib, request, run.history) then Fail(ConversationInvalid)
      else
        var input := WithFraming(lib.wireBytes(request, run.history, None), framing);
        if input.None? then Fail(AccountingUnconfirmed)
        else
          var budget := CheckContext(profile.contextWindowTokens, capabilities, input.value,
                                     request.outputReserveTokens);
          if budget.Fail? then Fail(Context(budget.error)) else Pass
  }

  /** `ChatRequest::from_paid_stored`: the bound on the input of the priced request. */
  function PaidInput(lib: Libraries, run: Run, authorized: ExecutionScope, capabilities: Capabilities,
                     framing: Option<u64>, cost: Option<CostEstimate>, now: Instant): Result<u64, RuntimeError>
  {
    if cost.None? then Err(CapabilityNotVerified)
    else
      var price, profile := cost.value, Profiled(run);
      :- Guard(price.model == profile.model
               && price.credentialGeneration == run.registration.registration.credentialGeneration,
               CapabilityNotVerified);
      var ceiling := Ceiling(price, now);
      if ceiling.Err? then Err(RuntimeError.Budget(ceiling.error))
      else
        var encoded := Encode(lib, run, authorized, capabilities, framing);
        if encoded.Fail? then Err(EncodeError(encoded.error))
        else
          var quoted := (MillionTokenPrice(price.inputNanodollarsPerToken),
                         MillionTokenPrice(price.outputNanodollarsPerToken));
          var input := WithFraming(lib.wireBytes(run.request, run.history, Some(quoted)), framing);
          :- Guard(input.Some?, CapabilityNotVerified);
          :- Guard(CheckContext(profile.contextWindowTokens, capabilities, input.value,
                                run.request.outputReserveTokens) == Pass, ContextExceeded);
          :- Guard(price.inputTokens >= input.value && price.outputTokens >= run.request.outputReserveTokens,
                   CapabilityNotVerified);
          Ok(input.value)
  }

  /** `check_byte_upper_bound`, with the error the journal reports. */
  function NativeInput(lib: Libraries, run: Run, capabilities: Capabilities, preparation: Preparation)
    : Result<u64, RuntimeError>
  {
    var request := run.request;
    :- Guard(Conversation(request) == Pass, CapabilityNotVerified);
    :- Guard(preparation.outputLimitSupported || request.outputReserveTokens == capabilities.maxOutputTokens,
             CapabilityNotVerified);
    var input := WithFraming(lib.requestBytes(request), preparation.framingTokens);
    :- Guard(input.Some?, CapabilityNotVerified);
    :- Guard(CheckContext(Profiled(run).contextWindowTokens, capabilities, input.value,
                          request.outputReserveTokens) == Pass, ContextExceeded);
    Ok(input.value)
  }

  // ----- prepare -----

  /** An existing run on the task that a new assignment may not displace. */
  predicate Fences(run: Run, request: InferenceRequest, grant: Grant) {
    && run.request.execution.taskId == request.execution.taskId
    && var same := run.request.execution == request.execution && run.machineSubject == grant.machineSubject
                   && run.fencingToken == grant.fencingToken;
       || run.fencingToken > grant.fencingToken
       || (!same && !Terminal(run.state))
       || (!same && run.fencingToken == grant.fencingToken)
  }

  function NewRun(lib: Libraries, request: InferenceRequest, grant: Grant, registered: Registered, now: Instant): Run {
    Pushed(Run(request, lib.fingerprint(request), grant.machineSubject, grant.fencingToken, Prepared, registered, [],
               None, None, map[], None, None), PreparedEvent, now)
  }

  ghost function Prepare(lib: Libraries, s: VaultState, request: InferenceRequest, grant: Grant, now: Instant)
    : Result<Change<bool>, RuntimeError>
  {
    var id, root := request.requestId, request.execution.rootTaskId;
    :- Guard(Current(grant, now), Forbidden);
    :- Guard(id != NIL && request.execution == grant.execution && request.profileRevision == grant.profileRevision
             && request.schemaVersion == 1 && Conversation(request) == Pass, Forbidden);
    if id in s.runs then
      if !Owns(s.runs[id], grant) then Err(Forbidden)
      else if s.runs[id].requestFingerprint == lib.fingerprint(request) then Ok(Keep(false))
      else Err(Conflict)
    else
      :- Guard(Compiles(lib, request), InvalidRequest);
      :- Guard(|s.runs| < MAX_RUNS, Unavailable);
      :- Guard(root in s.bindings ==> Matches(s.bindings[root], request.execution, request.profileRevision), Forbidden);
      :- Guard(forall other :: other in s.runs ==> !Fences(s.runs[other], request, grant), Forbidden);
      var registered := FindRevision(s.registered, request.profileRevision);
      :- Guard(registered.Some?, CapabilityNotVerified);
      :- Guard(ValidateBinding(request, grant.execution, registered.value.registration.profile) == Pass, Forbidden);
      var connection := CheckConnection(s, registered.value);
      if connection.Fail? then Err(connection.error)
      else Ok(Write(s.(runs := s.runs[id := NewRun(lib, request, grant, registered.value, now)],
                       bindings := Bound(s.bindings, request.execution, request.profileRevision)), true))
  }

  function Bound(bindings: map<Uuid, RootBinding>, scope: ExecutionScope, revision: nat): map<Uuid, RootBinding> {
    if scope.rootTaskId in bindings then bindings
    else bindings[scope.rootTaskId := RootBinding(scope.workspace, scope.ownerSubject, scope.projectId, revision)]
  }

  function Readback(s: VaultState, id: Uuid, grant: Grant, now: Instant): Result<Run, RuntimeError> {
    if !Current(grant, now) || id !in s.runs || !Owns(s.runs[id], grant) then Err(Forbidden) else Ok(s.runs[id])
  }

  // ----- dispatch -----

  function DispatchInput(lib: Libraries, s: VaultState, run: Run, grant: Grant, preparation: Preparation, now: Instant)
    : Result<u64, RuntimeError>
  {
    var connection := CheckConnection(s, run.registration);
    if connection.Fail? then Err(connection.error)
    else
      var registration := run.registration.registration;
      :- Guard(registration.profile.verificationId in s.adapters, CapabilityNotVerified);
      var proof := s.adapters[registration.profile.verificationId];
      :- Guard(ProofCovers(proof, registration), CapabilityNotVerified);
      if registration.profile.provider == Openrouter then
        :- Guard(preparation.outputLimitSupported, CapabilityNotVerified);
        PaidInput(lib, run, grant.execution, proof.evidence.capabilities, preparation.framingTokens,
                  preparation.paidCost, now)
      else NativeInput(lib, run, proof.evidence.capabilities, preparation)
  }

  /** The reservation that a paid dispatch makes and marks in the same commit. */
  ghost function ReserveForDispatch(s: VaultState, run: Run, id: Uuid, input: u64, preparation: Preparation,
                                    now: Instant)
    : Result<Ledger, RuntimeError>
  {
    match (Profiled(run).provider, preparation.paidCost)
    case (Openrouter, Some(cost)) =>
      if || cost.model != Profiled(run).model
         || cost.credentialGeneration != run.registration.registration.credentialGeneration
         || cost.inputTokens < input || cost.outputTokens < run.request.outputReserveTokens
      then Err(CapabilityNotVerified)
      else
        (match Reserve(s.budget, id, run.requestFingerprint, cost, now)
         case Err(e) => Err(RuntimeError.Budget(e))
         case Ok(outcome) =>
           if !outcome.1 then Err(Conflict)
           else match MarkDispatched(outcome.0, id)
                case Err(e) => Err(RuntimeError.Budget(e))
                case Ok(ledger) => Ok(ledger))
    case (Chatgpt, None) => Ok(s.budget)
    case _ => Err(CapabilityNotVerified)
  }

  ghost function Dispatch(lib: Libraries, s: VaultState, id: Uuid, grant: Grant, preparation: Preparation, now: Instant)
    : Result<Change<()>, RuntimeError>
  {
    var run :- Readback(s, id, grant, now);
    :- Guard(run.state == Prepared, Conflict);
    var input :- DispatchInput(lib, s, run, grant, preparation, now);
    var ledger :- ReserveForDispatch(s, run, id, input, preparation, now);
    var logged :- Append(lib, run, DispatchIntent, now);
    Ok(Write(s.(runs := s.runs[id := logged.(state := Dispatching)], budget := ledger), ()))
  }

  // ----- cancel, deltas -----

  function CancelEffect(state: RunState): (RunState, EventKind) {
    if state == AwaitingTools then (Cancelled, CancelledWaitingTools)
    else if state == Prepared then (Cancelled, CancelledBeforeDispatchEvent)
    else (CancellationRequested, CancellationRequestedEvent)
  }

  function Cancel(lib: Libraries, s: VaultState, id: Uuid, grant: Grant, now: Instant)
    : Result<Change<RunState>, RuntimeError>
  {
    var run :- Readback(s, id, grant, now);
    if Terminal(run.state) || run.state == CancellationRequested then Ok(Keep(run.state))
    else
      var (state, kind) := CancelEffect(run.state);
      var logged :- Append(lib, run, kind, now);
      Ok(Write(s.(runs := s.runs[id := logged.(state := state)]), state))
  }

  function Delta(lib: Libraries, s: VaultState, id: Uuid, expected: nat, text: string, now: Instant)
    : Result<Change<()>, RuntimeError>
  {
    if id !in s.runs then Err(Conflict)
    else
      var run := s.runs[id];
      if 0 < expected <= |run.events| then
        if run.events[expected - 1].kind == TextDelta(text) then Ok(Keep(())) else Err(Conflict)
      else
        :- Guard(InFlight(run.state) && expected == |run.events| + 1 && text != "", Conflict);
        var logged :- Append(lib, run, TextDelta(text), now);
        var state := if run.state == CancellationRequested then CancellationRequested else Running;
        Ok(Write(s.(runs := s.runs[id := logged.(state := state)]), ()))
  }

  // ----- terminal receipts and costs -----

  predicate SameCost(budget: Ledger, id: Uuid, actual: Option<u64>) {
    if id in budget then budget[id].actual == actual else actual.None?
  }

  /** What a receipt does to the reservation: settle it, or keep it and mark it uncertain. */
  function Account(budget: Ledger, provider: Provider, id: Uuid, actual: Option<u64>): Result<Ledger, RuntimeError> {
    match (provider, actual)
    case (Openrouter, Some(cost)) =>
      (match Settle(budget, id, cost) case Ok(b) => Ok(b) case Err(e) => Err(RuntimeError.Budget(e)))
    case (Openrouter, None) =>
      (match MarkUncertain(budget, id) case Ok(b) => Ok(b) case Err(e) => Err(RuntimeError.Budget(e)))
    case (Chatgpt, None) => Ok(budget)
    case _ => Err(Conflict)
  }

  function Finish(lib: Libraries, s: VaultState, id: Uuid, outcome: TerminalOutcome, actual: Option<u64>, now: Instant)
    : Result<Change<()>, RuntimeError>
  {
    if id !in s.runs then Err(Conflict)
    else
      var run := s.runs[id];
      if Terminal(run.state) then
        if LastOutcome(run.events) == Some(outcome) && SameCost(s.budget, id, actual)
        then Ok(Keep(())) else Err(Conflict)
      else
        :- Guard(run.state != Prepared && run.state != AwaitingTools, Conflict);
        var budget :- Account(s.budget, Profiled(run).provider, id, actual);
        var noticed :- AppendOverrun(lib, run, budget, id, now);
        var logged :- Append(lib, noticed, ProviderTerminal(outcome), now);
        Ok(Write(s.(runs := s.runs[id := logged.(state := StateOf(outcome))], budget := budget), ()))
  }

  function ReconcileCost(lib: Libraries, s: VaultState, id: Uuid, actual: u64, now: Instant)
    : Result<Change<()>, RuntimeError>
  {
    if id !in s.runs then Err(Conflict)
    else
      var run := s.runs[id];
      :- Guard((Terminal(run.state) || run.state == AwaitingTools) && Profiled(run).provider == Openrouter, Conflict);
      :- Guard(id in s.budget, Conflict);
      if s.budget[id].actual.Some? then
        if s.budget[id].actual.value == actual then Ok(Keep(())) else Err(Conflict)
      else
        match Settle(s.budget, id, actual)
        case Err(e) => Err(RuntimeError.Budget(e))
        case Ok(budget) =>
          var noticed :- AppendOverrun(lib, run, budget, id, now);
          var logged :- Append(lib, noticed, CostReconciled(actual), now);
          Ok(Write(s.(runs := s.runs[id := logged], budget := budget), ()))
  }

  // ----- restart -----

  /** The runs that a new process cannot resume. */
  function Interrupted(s: VaultState): set<Uuid> {
    set id | id in s.runs && InFlight(s.runs[id].state)
  }

  predicate PaidRun(run: Run) {
    Profiled(run).provider == Openrouter
  }

  function Recovered(run: Run, now: Instant): Run {
    Pushed(run, UnknownOutcome, now).(state := Unknown)
  }

  predicate Holdable(budget: Ledger, id: Uuid) {
    id in budget && (budget[id].status == Dispatched || budget[id].status == Uncertain)
  }

  function RecoveredRuns(s: VaultState, ids: set<Uuid>, now: Instant): map<Uuid, Run> {
    map id | id in s.runs :: if id in ids then Recovered(s.runs[id], now) else s.runs[id]
  }

  function RecoveredBudget(s: VaultState, ids: set<Uuid>): Ledger {
    map id | id in s.budget ::
      if id in ids && id in s.runs && PaidRun(s.runs[id]) then s.budget[id].(status := Uncertain) else s.budget[id]
  }

  function Restart(lib: Libraries, s: VaultState, now: Instant): Result<Change<nat>, RuntimeError> {
    var ids := Interrupted(s);
    :- Guard(forall id :: id in ids && PaidRun(s.runs[id]) ==> Holdable(s.budget, id),
             RuntimeError.Budget(DispatchConflict));
    :- Guard(forall id :: id in ids ==> |s.runs[id].events| < MAX_EVENTS, Protocol);
    if ids == {} then Ok(Keep(0))
    else Ok(Write(s.(runs := RecoveredRuns(s, ids, now), budget := RecoveredBudget(s, ids)), |ids|))
  }

  // ----- tool turns -----

  /** The checks a tool turn must pass; they depend on the request of the run only. */
  function CheckTurn(lib: Libraries, run: Run, calls: seq<ToolCall>, reasoning: Option<Reasoning>): Check<RuntimeError>
  {
    if reasoning.Some?
       && !(ValidReasoning(lib, reasoning.value) && PaidRun(run) && reasoning.value != Reasoning("", []))
    then Fail(Protocol)
    else if !ReturnedTools(run.request, calls) then Fail(Protocol)
    else if !Compiles(lib, run.request) then Fail(InvalidRequest)
    else if !ToolCallsMatch(lib, run.request, calls) then Fail(Protocol)
    else Pass
  }

  /** A tool turn leaves a run waiting for results, unless its cancellation was wanted. */
  function AppendTurn(lib: Libraries, noticed: Run, kind: EventKind, reasoning: Option<Reasoning>, now: Instant)
    : Result<Run, RuntimeError>
  {
    var called :- Append(lib, noticed, kind, now);
    var reasoned := called.(responseReasoning := reasoning);
    if noticed.state != CancellationRequested then Ok(reasoned.(state := AwaitingTools))
    else
      var logged :- Append(lib, reasoned, ProviderTerminal(OutcomeCancelled), now);
      Ok(logged.(state := Cancelled))
  }

  function FinishTools(lib: Libraries, s: VaultState, id: Uuid, calls: seq<ToolCall>, reasoning: Option<Reasoning>,
                       actual: Option<u64>, now: Instant): Result<Change<()>, RuntimeError>
  {
    if id !in s.runs then Err(Conflict)
    else
      var run := s.runs[id];
      var checked := CheckTurn(lib, run, calls, reasoning);
      var content := Content(run.events);
      if checked.Fail? then Err(checked.error)
      else if ToolTurns(run.events) != [] then
        if ToolTurns(run.events)[0] == (calls, content) && SameCost(s.budget, id, actual)
           && run.responseReasoning == reasoning
        then Ok(Keep(())) else Err(Conflict)
      else
        :- Guard(InFlight(run.state) || run.state == Unknown, Conflict);
        var budget :- Account(s.budget, Profiled(run).provider, id, actual);
        var noticed :- AppendOverrun(lib, run, budget, id, now);
        var turned :- AppendTurn(lib, noticed, ToolCalls(calls, content), reasoning, now);
        Ok(Write(s.(runs := s.runs[id := turned], budget := budget), ()))
  }

  /** Results keyed by call id, unless some id is answered twice. */
  function CollectResults(results: seq<ToolResult>): Option<map<string, string>> {
    if results == [] then Some(map[])
    else
      var last, collected := results[|results| - 1], CollectResults(results[..|results| - 1]);
      if collected.None? || last.toolCallId in collected.value then None
      else Some(collected.value[last.toolCallId := last.content])
  }

  predicate Answered(calls: seq<ToolCall>, results: map<string, string>) {
    |calls| == |results| && forall i :: 0 <= i < |calls| ==> calls[i].id in results
  }

  function ContinuedRequest(parent: Run, id: Uuid, calls: seq<ToolCall>, content: Option<string>,
                            results: map<string, string>)
    : InferenceRequest
    requires Answered(calls, results)
  {
    parent.request.(requestId := id, messages := parent.request.messages + Turn(content, calls, results))
  }

  function ContinuedHistory(parent: Run): map<nat, Reasoning> {
    if parent.responseReasoning.Some? then parent.history[|parent.request.messages| := parent.responseReasoning.value]
    else parent.history
  }

  function ChildRun(lib: Libraries, parent: Run, parentId: Uuid, request: InferenceRequest, now: Instant): Run {
    Pushed(Run(request, lib.fingerprint(request), parent.machineSubject, parent.fencingToken, Prepared,
               parent.registration, [], Some(parentId), None, ContinuedHistory(parent), None, None), PreparedEvent, now)
  }

  /** The request that a continuation asks for, built from the parent alone. */
  function ContinuationRequest(parent: Run, c: ToolContinuation): Result<InferenceRequest, RuntimeError> {
    var turns := ToolTurns(parent.events);
    :- Guard(turns != [], Protocol);
    var (calls, content) := turns[|turns| - 1];
    var results := CollectResults(c.results);
    :- Guard(results.Some? && Answered(calls, results.value), InvalidRequest);
    var request := ContinuedRequest(parent, c.requestId, calls, content, results.value);
    :- Guard(Conversation(request) == Pass, InvalidRequest);
    Ok(request)
  }

  /** The parent, when this grant may continue it. */
  function ContinuedParent(s: VaultState, c: ToolContinuation, grant: Grant, now: Instant)
    : (r: Result<Run, RuntimeError>)
    ensures r.Ok? ==> c.parentRequestId in s.runs && r.value == s.runs[c.parentRequestId]
  {
    if !Current(grant, now) then Err(Forbidden)
    else
      :- Guard(c.schemaVersion == 1 && c.requestId != NIL && c.requestId != c.parentRequestId
               && c.execution == grant.execution && c.profileRevision == grant.profileRevision, Forbidden);
      var parent :- Readback(s, c.parentRequestId, grant, now);
      :- Guard(parent.state == AwaitingTools || parent.state == ToolsSubmitted, Conflict);
      Ok(parent)
  }

  function Continue(lib: Libraries, s: VaultState, c: ToolContinuation, grant: Grant, now: Instant)
    : Result<Change<bool>, RuntimeError>
  {
    var parent :- ContinuedParent(s, c, grant, now);
    var request :- ContinuationRequest(parent, c);
    var id, parentId := c.requestId, c.parentRequestId;
    if parent.continuation.Some? then
      var run :- Readback(s, parent.continuation.value, grant, now);
      if parent.continuation.value == id && run.requestFingerprint == lib.fingerprint(request)
         && run.parent == Some(parentId)
      then Ok(Keep(false)) else Err(Conflict)
    else
      :- Guard(id !in s.runs, Conflict);
      :- Guard(|s.runs| < MAX_RUNS, Unavailable);
      var connection := CheckConnection(s, parent.registration);
      if connection.Fail? then Err(connection.error)
      else
        var logged :- Append(lib, parent, ToolResultsSubmitted(id), now);
        var submitted := logged.(state := ToolsSubmitted, continuation := Some(id));
        Ok(Write(s.(runs := s.runs[parentId := submitted][id := ChildRun(lib, parent, parentId, request, now)]), true))
  }

  // ----- transport records -----

  predicate ValidGeneration(id: string) {
    && 4 < |id| <= 128 && id[..4] == "gen-"
    && forall i :: 0 <= i < |id| ==>
         var c := id[i]; '0' <= c <= '9' || 'a' <= c <= 'z' || 'A' <= c <= 'Z' || c == '-'
  }

  function RecordGeneration(s: VaultState, id: Uuid, generation: string): Result<Change<()>, RuntimeError> {
    if !ValidGeneration(generation) then Err(Protocol)
    else if id !in s.runs || !PaidRun(s.runs[id]) || s.runs[id].state == Prepared then Err(Conflict)
    else if s.runs[id].generationId.Some? then
      if s.runs[id].generationId.value == generation then Ok(Keep(())) else Err(Conflict)
    else Ok(Write(s.(runs := s.runs[id := s.runs[id].(generationId := Some(generation))]), ()))
  }

  function MarkUnknown(lib: Libraries, s: VaultState, id: Uuid, now: Instant): Result<Change<()>, RuntimeError> {
    if id !in s.runs then Err(Conflict)
    else
      var run := s.runs[id];
      if run.state == Unknown then Ok(Keep(()))
      else if !InFlight(run.state) then Err(Conflict)
      else
        var budget :- if PaidRun(run) then Account(s.budget, Openrouter, id, None) else Ok(s.budget);
        var logged :- Append(lib, run, UnknownOutcome, now);
        Ok(Write(s.(runs := s.runs[id := logged.(state := Unknown)], budget := budget), ()))
  }

  datatype GenerationReceipt = GenerationReceipt(id: string, model: string, actual: u64, cancelled: bool)

  /** `parse_generation`: the provider's billing record of exactly one generation. */
  function ParseGeneration(value: Json, id: string, model: string): Result<GenerationReceipt, RuntimeError> {
    var data := Get(value, "data");
    var cancelled, reason := AsBool(Get(data, "cancelled")), AsString(Get(data, "finish_reason"));
    if || !data.Obj? || AsString(Get(data, "id")) != Some(id) || AsString(Get(data, "model")) != Some(model)
       || AsBool(Get(data, "streamed")) != Some(true) || AsBool(Get(data, "is_byok")) != Some(false) || cancelled.None?
    then Err(Protocol)
    else
      :- Guard(cancelled.value
               || (reason.Some? && reason.value in {"stop", "tool_calls", "length", "content_filter", "error"}),
               Protocol);
      var actual :- ScaledDecimal(Get(data, "total_cost"), 6);
      Ok(GenerationReceipt(id, model, actual, cancelled.value))
  }

  function ReconcileGeneration(lib: Libraries, s: VaultState, id: Uuid, receipt: GenerationReceipt, now: Instant)
    : Result<Change<()>, RuntimeError>
  {
    if id !in s.runs then Err(Conflict)
    else
      var run := s.runs[id];
      :- Guard(PaidRun(run) && Profiled(run).model == receipt.model && run.generationId == Some(receipt.id)
               && (run.state == Unknown || run.state == CancellationRequested || run.state == Failed
                   || run.state == Cancelled),
               Conflict);
      Finish(lib, s, id, if receipt.cancelled then OutcomeCancelled else OutcomeFailed, Some(receipt.actual), now)
  }

  // ----- registering a published revision (publication.rs) -----

  /** What the runtime itself derives the candidate from: the evidence it holds. */
  function ExpectedProfile(s: VaultState, request: Registration, now: Instant): Result<Profile, RuntimeError> {
    var profile := request.profile;
    :- Guard(profile.verificationId in s.adapters, CapabilityNotVerified);
    var verified := s.adapters[profile.verificationId];
    :- Guard((verified.adapterVersion, verified.accountingPolicy) == DeployedContract(profile.provider)
             && verified.draftRevision == Some(request.draftRevision), CapabilityNotVerified);
    :- Guard(profile.provider in s.connections, Disconnected);
    :- Guard(s.connections[profile.provider] == Connection(profile.provider, request.credentialGeneration), Conflict);
    :- Guard(profile.revision > 0, InvalidRequest);
    match PublishProfile("sdlc2", profile.revision - 1, profile.revision - 1, verified.evidence.settings,
                         request.credentialGeneration, verified.evidence, now)
    case Err(_) => Err(CapabilityNotVerified)
    case Ok(expected) => Ok(expected)
  }

  function RegisterRevision(s: VaultState, request: Registration, now: Instant)
    : Result<Change<Registered>, RuntimeError>
  {
    var profile := request.profile;
    if || request.schemaVersion != 1 || request.draftRevision <= 0 || request.operationId == NIL
       || profile.revision == 0 || profile.workspace != "sdlc2" || profile.schemaVersion != 1
    then Err(InvalidRequest)
    else if (request.adapterVersion, request.accountingPolicy) != DeployedContract(profile.provider)
         then Err(CapabilityNotVerified)
    else if request.operationId in s.registered then
      if s.registered[request.operationId].registration == request then Ok(Keep(s.registered[request.operationId]))
      else Err(Conflict)
    else if RevisionTaken(s.registered, profile.revision) then Err(Conflict)
    else
      var expected :- ExpectedProfile(s, request, now);
      :- Guard(expected == profile, CapabilityNotVerified);
      var receipt := Registered(request, now);
      Ok(Write(s.(registered := s.registered[request.operationId := receipt]), receipt))
  }

  predicate RevisionTaken(registered: map<Uuid, Registered>, revision: nat) {
    exists op :: op in registered && registered[op].registration.profile.revision == revision
  }

  // ----- committing -----

  /** A commit replaces the whole state or, when the write fails, nothing. */
  function Commit<T>(s: VaultState, r: Result<Change<T>, RuntimeError>, durable: bool)
    : (VaultState, Result<T, RuntimeError>)
  {
    match r
    case Err(e) => (s, Err(e))
    case Ok(Keep(value)) => (s, Ok(value))
    case Ok(Write(next, value)) => if durable then (next, Ok(value)) else (s, Err(StateWrite))
  }
}
