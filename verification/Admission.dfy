/** What each call that carries a grant has checked: exact conditions, written out in the terms of
    the stored records and of nothing that the steps themselves use. */
module Admission {
  import opened Base
  import opened Budget
  import opened Domain
  import opened Externals
  import opened Histories
  import opened Inference
  import opened Invariants
  import opened Journal
  import opened Money
  import opened Preservation
  import opened Runs
  import opened Steps

  // ----- the terms -----

  predicate InForce(grant: Grant, now: Instant) {
    grant.issuedAt <= now && now < grant.expiresAt && now < grant.leaseExpiresAt
  }

  /** The run was given out to this machine, for this execution and profile, under this token. */
  predicate GivenTo(run: Run, grant: Grant) {
    && run.request.execution == grant.execution && run.request.profileRevision == grant.profileRevision
    && run.machineSubject == grant.machineSubject && run.fencingToken == grant.fencingToken
  }

  /** The adapter is the deployed one, and the provider is connected under the registered generation. */
  predicate Served(s: VaultState, r: Registration) {
    && (r.profile.provider == Chatgpt ==>
          && r.adapterVersion == "codex-app-server-0.159.0-alpha.12.1-v5-readonly-tool-policy"
          && r.accountingPolicy == "native-byte-bound-full-output-reserve-v1")
    && (r.profile.provider == Openrouter ==>
          && r.adapterVersion == "openrouter-sse-v3"
          && r.accountingPolicy == "openrouter-wire-byte-bound-priced-private-history-v3")
    && r.profile.provider in s.connections
    && s.connections[r.profile.provider].provider == r.profile.provider
    && s.connections[r.profile.provider].generation == r.credentialGeneration
  }

  /** The runtime still holds the evidence for exactly what was registered. */
  predicate Proven(s: VaultState, r: Registration) {
    && r.profile.verificationId in s.adapters
    && var proof := s.adapters[r.profile.verificationId];
    && proof.adapterVersion == r.adapterVersion && proof.accountingPolicy == r.accountingPolicy
    && proof.draftRevision == Some(r.draftRevision)
    && proof.evidence.credentialGeneration == r.credentialGeneration
    && proof.evidence.settings.provider == r.profile.provider && proof.evidence.settings.model == r.profile.model
    && proof.evidence.settings.contextWindowTokens == r.profile.contextWindowTokens
    && Capable(r.profile.model, r.profile.contextWindowTokens, proof.evidence.capabilities)
  }

  /** So many input tokens and the reserve fit into the window, and the window into the model. */
  predicate Fits(window: u32, c: Capabilities, input: nat, reserve: u32) {
    0 < reserve <= c.maxOutputTokens && reserve < window && input + reserve <= window <= c.contextLimitTokens
  }

  // ----- dispatching -----

  /** What a native dispatch needs beyond the grant, the connection and the proof. */
  predicate NativeReady(lib: Libraries, run: Run, c: Capabilities, p: Preparation) {
    var request, window := run.request, run.registration.registration.profile.contextWindowTokens;
    && p.paidCost.None? && p.framingTokens.Some?
    && (p.outputLimitSupported || request.outputReserveTokens == c.maxOutputTokens)
    && Fits(window, c, lib.requestBytes(request) + p.framingTokens.value, request.outputReserveTokens)
  }

  lemma ProofIs(s: VaultState, r: Registration)
    ensures Proven(s, r) <==>
            r.profile.verificationId in s.adapters && ProofCovers(s.adapters[r.profile.verificationId], r)
  {
    hide ValidateSettings, Capable;
    if r.profile.verificationId in s.adapters {
      var c := s.adapters[r.profile.verificationId].evidence.capabilities;
      SettingsAre(r.profile.model, r.profile.contextWindowTokens, r.profile.provider, c);
    }
  }

  lemma ServedIs(s: VaultState, r: Registration)
    ensures Served(s, r) <==>
            && (r.adapterVersion, r.accountingPolicy) == DeployedContract(r.profile.provider)
            && r.profile.provider in s.connections
            && s.connections[r.profile.provider] == Connection(r.profile.provider, r.credentialGeneration)
  {
  }

  lemma ConnectionIs(s: VaultState, registered: Registered)
    ensures CheckConnection(s, registered) == Pass <==> Served(s, registered.registration)
  {
    hide Served, DeployedContract;
    ServedIs(s, registered.registration);
  }

  lemma GrantIs(s: VaultState, id: Uuid, grant: Grant, now: Instant)
    requires id in s.runs
    ensures Readback(s, id, grant, now) ==
            if InForce(grant, now) && GivenTo(s.runs[id], grant) then Ok(s.runs[id]) else Err(Forbidden)
  {
  }

  lemma NativeIs(lib: Libraries, run: Run, c: Capabilities, p: Preparation)
    requires Conversation(run.request) == Pass
    ensures NativeInput(lib, run, c, p).Ok? && p.paidCost.None? <==> NativeReady(lib, run, c, p)
  {
    hide Conversation, CheckContext;
    if p.framingTokens.Some? {
      ContextFits(Profiled(run).contextWindowTokens, c, lib.requestBytes(run.request) + p.framingTokens.value,
                  run.request.outputReserveTokens);
    }
  }

  /** What is known of every stored run before it is dispatched. */
  lemma StoredFacts(lib: Libraries, s: VaultState, id: Uuid)
    requires Inv(lib, s) && id in s.runs
    ensures var run := s.runs[id];
            && Conversation(run.request) == Pass && HistoryApplies(lib, run.request, run.history)
            && ValidateBinding(run.request, run.request.execution, Profiled(run)) == Pass
            && (run.state == Prepared ==> |run.events| == 1 && id !in s.budget)
  {
    hide Inv, TurnsOk, Conversation, HistoryApplies, ValidateBinding, Replay, Overruns;
    Local(lib, s, id);
    if s.runs[id].state == Prepared {
      PreparedIsFirst(s.runs[id]);
    }
  }

  lemma NativeStep(lib: Libraries, s: VaultState, id: Uuid, grant: Grant, p: Preparation, now: Instant)
    requires Inv(lib, s) && id in s.runs && s.runs[id].registration.registration.profile.provider == Chatgpt
    ensures var run := s.runs[id];
            var r := run.registration.registration;
            Dispatch(lib, s, id, grant, p, now).Ok? <==>
            && InForce(grant, now) && GivenTo(run, grant) && run.state == Prepared
            && Served(s, r) && Proven(s, r)
            && NativeReady(lib, run, s.adapters[r.profile.verificationId].evidence.capabilities, p)
  {
    hide Inv, Readback, CheckConnection, ProofCovers, NativeInput, Conversation, HistoryApplies, ValidateBinding,
         InForce, GivenTo, Served, Proven, NativeReady;
    var run := s.runs[id];
    StoredFacts(lib, s, id);
    GrantIs(s, id, grant, now);
    ConnectionIs(s, run.registration);
    ProofIs(s, run.registration.registration);
    if run.registration.registration.profile.verificationId in s.adapters {
      var proof := s.adapters[run.registration.registration.profile.verificationId];
      NativeIs(lib, run, proof.evidence.capabilities, p);
    }
  }

  /** A ChatGPT run is dispatched exactly under a grant in force that it was given to, while it is
      prepared, its provider is connected under the registered generation, the evidence for what was
      registered is held, and the whole request with its reserve fits into the window. */
  lemma NativeDispatch(lib: Libraries, h: History, i: nat, id: Uuid, grant: Grant, p: Preparation, now: Instant)
    requires Happens(lib, h) && i < |h.states| && id in h.states[i].runs
    requires h.states[i].runs[id].registration.registration.profile.provider == Chatgpt
    ensures var s, run := h.states[i], h.states[i].runs[id];
            var r := run.registration.registration;
            Dispatch(lib, s, id, grant, p, now).Ok? <==>
            && InForce(grant, now) && GivenTo(run, grant) && run.state == Prepared
            && Served(s, r) && Proven(s, r)
            && NativeReady(lib, run, s.adapters[r.profile.verificationId].evidence.capabilities, p)
  {
    hide Inv, Dispatch, InForce, GivenTo, Served, Proven, NativeReady;
    ReachableInv(lib, h, i);
    NativeStep(lib, h.states[i], id, grant, p, now);
  }

  // ----- paid dispatch -----

  /** The bytes of the request as it is sent, without and with the quoted prices. */
  function SentBytes(lib: Libraries, run: Run, prices: Option<(string, string)>): nat {
    lib.wireBytes(run.request, run.history, prices)
  }

  function Prices(cost: CostEstimate): (string, string) {
    (MillionTokenPrice(cost.inputNanodollarsPerToken), MillionTokenPrice(cost.outputNanodollarsPerToken))
  }

  /** What a paid dispatch needs beyond the grant, the connection and the proof, as far as the
      request and its quote go. */
  predicate PaidReady(lib: Libraries, run: Run, c: Capabilities, p: Preparation, now: Instant) {
    && p.outputLimitSupported && p.framingTokens.Some? && p.paidCost.Some?
    && var request, profile, cost := run.request, run.registration.registration.profile, p.paidCost.value;
    && var framing, window, reserve := p.framingTokens.value, profile.contextWindowTokens, request.outputReserveTokens;
    && cost.model == profile.model && cost.credentialGeneration == run.registration.registration.credentialGeneration
    && Quoted(cost, now)
    && Fits(window, c, SentBytes(lib, run, None) + framing, reserve)
    && Fits(window, c, SentBytes(lib, run, Some(Prices(cost))) + framing, reserve)
    && SentBytes(lib, run, Some(Prices(cost))) + framing <= cost.inputTokens && reserve <= cost.outputTokens
  }

  /** The ledger takes one more reservation: no overrun, and the quote fits under the limit. */
  ghost predicate Affordable(budget: Ledger, fingerprint: string, cost: CostEstimate) {
    && HexText(fingerprint)
    && (forall other :: other in budget ==> budget[other].status != CostOverrun)
    && Nanos(cost) <= 1000 * (30_000_000 - Total(budget))
  }

  lemma ReserveIs(lib: Libraries, s: VaultState, id: Uuid, fingerprint: string, cost: CostEstimate, now: Instant)
    requires Inv(lib, s) && id !in s.budget && Quoted(cost, now)
    ensures Reserve(s.budget, id, fingerprint, cost, now).Ok? <==> Affordable(s.budget, fingerprint, cost)
    ensures Reserve(s.budget, id, fingerprint, cost, now).Ok? ==>
              && Reserve(s.budget, id, fingerprint, cost, now).value.1
              && MarkDispatched(Reserve(s.budget, id, fingerprint, cost, now).value.0, id).Ok?
  {
    hide Inv, HexText, HexDigest, Ceiling, Nanos, Quoted, Total;
    DigestIs(fingerprint);
    CeilingCovers(cost, now);
    ReceiptsThere(lib, s);
    InvExposure(lib, s);
    NoOvershoot(s.budget);
  }

  lemma ReceiptsThere(lib: Libraries, s: VaultState)
    requires Inv(lib, s)
    ensures Receipted(s.budget)
  {
    hide Inv, RunOk;
    forall id | id in s.budget && Closed(s.budget[id]) ensures s.budget[id].actual.Some? {
      assert id in s.runs by { KeysKnown(lib, s, id); }
      Local(lib, s, id);
    }
  }

  lemma KeysKnown(lib: Libraries, s: VaultState, id: Uuid)
    requires Inv(lib, s) && id in s.budget
    ensures id in s.runs
  {
    hide AllLocal, Exposure, Fenced, Linked, RootsBound, UniqueRevisions;
    assert id in s.budget.Keys;
  }

  lemma EncodeIs(lib: Libraries, run: Run, c: Capabilities, framing: Option<u64>)
    requires Conversation(run.request) == Pass && HistoryApplies(lib, run.request, run.history)
    requires ValidateBinding(run.request, run.request.execution, Profiled(run)) == Pass
    requires Profiled(run).provider == Openrouter
    requires ValidateSettings(Settings(Openrouter, Profiled(run).model, Profiled(run).contextWindowTokens), c) == Pass
    ensures Encode(lib, run, run.request.execution, c, framing) == Pass <==>
            && framing.Some?
            && Fits(Profiled(run).contextWindowTokens, c, SentBytes(lib, run, None) + framing.value,
                    run.request.outputReserveTokens)
  {
    hide Conversation, HistoryApplies, ValidateBinding, ValidateSettings, CheckContext;
    if framing.Some? {
      ContextFits(Profiled(run).contextWindowTokens, c, SentBytes(lib, run, None) + framing.value,
                  run.request.outputReserveTokens);
    }
  }

  lemma PaidInputIs(lib: Libraries, run: Run, c: Capabilities, p: Preparation, now: Instant)
    requires Conversation(run.request) == Pass && HistoryApplies(lib, run.request, run.history)
    requires ValidateBinding(run.request, run.request.execution, Profiled(run)) == Pass
    requires Profiled(run).provider == Openrouter
    requires ValidateSettings(Settings(Openrouter, Profiled(run).model, Profiled(run).contextWindowTokens), c) == Pass
    ensures var r := PaidInput(lib, run, run.request.execution, c, p.framingTokens, p.paidCost, now);
            && (p.outputLimitSupported && r.Ok? <==>
                  PaidReady(lib, run, c, p, now) && Nanos(p.paidCost.value) <= 1000 * 0xFFFF_FFFF_FFFF_FFFF)
            && (r.Ok? ==>
                  && p.paidCost.Some? && p.framingTokens.Some?
                  && r.value == SentBytes(lib, run, Some(Prices(p.paidCost.value))) + p.framingTokens.value)
  {
    hide Conversation, HistoryApplies, ValidateBinding, ValidateSettings, CheckContext, Encode, Ceiling, Nanos, Quoted,
         MillionTokenPrice;
    EncodeIs(lib, run, c, p.framingTokens);
    if p.paidCost.Some? {
      CeilingCovers(p.paidCost.value, now);
      if p.framingTokens.Some? {
        ContextFits(Profiled(run).contextWindowTokens, c,
                    SentBytes(lib, run, Some(Prices(p.paidCost.value))) + p.framingTokens.value,
                    run.request.outputReserveTokens);
      }
    }
  }

  lemma PaidStep(lib: Libraries, s: VaultState, id: Uuid, grant: Grant, p: Preparation, now: Instant)
    requires Inv(lib, s) && id in s.runs && s.runs[id].registration.registration.profile.provider == Openrouter
    ensures var run := s.runs[id];
            var r := run.registration.registration;
            Dispatch(lib, s, id, grant, p, now).Ok? <==>
            && InForce(grant, now) && GivenTo(run, grant) && run.state == Prepared
            && Served(s, r) && Proven(s, r)
            && PaidReady(lib, run, s.adapters[r.profile.verificationId].evidence.capabilities, p, now)
            && Affordable(s.budget, run.requestFingerprint, p.paidCost.value)
  {
    hide Inv, Readback, CheckConnection, ValidateSettings, PaidInput, Conversation, HistoryApplies, ValidateBinding,
         InForce, Served, Proven, Quoted, Fits, Reserve, MarkDispatched, Affordable, Nanos, SentBytes, Prices;
    var run := s.runs[id];
    StoredFacts(lib, s, id);
    GrantIs(s, id, grant, now);
    ConnectionIs(s, run.registration);
    ProofIs(s, run.registration.registration);
    if Proven(s, run.registration.registration) {
      var proof := s.adapters[run.registration.registration.profile.verificationId];
      PaidInputIs(lib, run, proof.evidence.capabilities, p, now);
      if p.paidCost.Some? && Quoted(p.paidCost.value, now) && id !in s.budget {
        ReserveIs(lib, s, id, run.requestFingerprint, p.paidCost.value, now);
        AffordableFits(s.budget, run.requestFingerprint, p.paidCost.value);
      }
    }
  }

  lemma AffordableFits(budget: Ledger, fingerprint: string, cost: CostEstimate)
    ensures Affordable(budget, fingerprint, cost) ==> Nanos(cost) <= 1000 * 0xFFFF_FFFF_FFFF_FFFF
  {
    hide Nanos, HexText, Total;
  }

  /** A paid run is dispatched exactly when, beyond that, the request with and without its prices
      fits into the window, a fresh quote covers it, and the ledger has no overrun and room for the
      quoted amount under the limit. */
  lemma PaidDispatch(lib: Libraries, h: History, i: nat, id: Uuid, grant: Grant, p: Preparation, now: Instant)
    requires Happens(lib, h) && i < |h.states| && id in h.states[i].runs
    requires h.states[i].runs[id].registration.registration.profile.provider == Openrouter
    ensures var s, run := h.states[i], h.states[i].runs[id];
            var r := run.registration.registration;
            Dispatch(lib, s, id, grant, p, now).Ok? <==>
            && InForce(grant, now) && GivenTo(run, grant) && run.state == Prepared
            && Served(s, r) && Proven(s, r)
            && PaidReady(lib, run, s.adapters[r.profile.verificationId].evidence.capabilities, p, now)
            && Affordable(s.budget, run.requestFingerprint, p.paidCost.value)
  {
    hide Inv, Dispatch, InForce, GivenTo, Served, Proven, PaidReady, Affordable;
    ReachableInv(lib, h, i);
    PaidStep(lib, h.states[i], id, grant, p, now);
  }

  // ----- admission -----

  /** Everything the conversation and the schemas of a request must be. */
  ghost predicate Acceptable(lib: Libraries, request: InferenceRequest) {
    && 0 < |request.messages| <= 4096 && |request.tools| <= 128
    && (forall i :: 0 <= i < |request.tools| ==>
          NameText(request.tools[i].name) && SchemaText(request.tools[i].parameters))
    && (forall i, j :: 0 <= i < j < |request.tools| ==> request.tools[i].name != request.tools[j].name)
    && (request.outputSchema.Some? ==> SchemaText(request.outputSchema.value))
    && WellBlocked(request.messages) && Distinct(CallIds(request.messages))
    && (forall i :: 0 <= i < |request.tools| ==> lib.schemaCompiles(request.tools[i].parameters))
    && (request.outputSchema.Some? ==> lib.schemaCompiles(request.outputSchema.value))
  }

  lemma AcceptableIs(lib: Libraries, request: InferenceRequest)
    ensures Conversation(request) == Pass && Compiles(lib, request) <==> Acceptable(lib, request)
  {
    hide Conversation, WellBlocked, Distinct, CallIds, NameText, SchemaText;
    ConversationIsGrammar(request);
  }

  /** An execution of this workspace with an owner written without white space. */
  predicate Scoped(scope: ExecutionScope) {
    && scope.workspace == "sdlc2" && 0 < |scope.ownerSubject| <= 256
    && (forall i :: 0 <= i < |scope.ownerSubject| ==> 33 <= scope.ownerSubject[i] as int != 127)
    && scope.projectId != 0 && scope.rootTaskId != 0 && scope.taskId != 0 && scope.agentId != 0
    && scope.executionId != 0
  }

  lemma ScopedIs(scope: ExecutionScope)
    ensures ValidScope(scope) <==> Scoped(scope)
  {
    forall i | 0 <= i < |scope.ownerSubject|
      ensures !IsControl(scope.ownerSubject[i]) && !IsSpace(scope.ownerSubject[i]) <==>
              33 <= scope.ownerSubject[i] as int != 127
    {
    }
  }

  /** Same owner, project, workspace and profile: what one root task is worked on for. */
  predicate SameRoot(a: InferenceRequest, b: InferenceRequest) {
    && a.execution.workspace == b.execution.workspace && a.execution.ownerSubject == b.execution.ownerSubject
    && a.execution.projectId == b.execution.projectId && a.profileRevision == b.profileRevision
  }

  predicate BoundTo(root: RootBinding, request: InferenceRequest) {
    && root.workspace == request.execution.workspace && root.ownerSubject == request.execution.ownerSubject
    && root.projectId == request.execution.projectId && root.profileRevision == request.profileRevision
  }

  /** The other run of the task leaves room: it is of this very assignment, or ended under an older
      token. */
  predicate LeavesRoom(other: Run, request: InferenceRequest, grant: Grant) {
    || other.request.execution.taskId != request.execution.taskId
    || (other.request.execution == request.execution && other.machineSubject == grant.machineSubject
        && other.fencingToken == grant.fencingToken)
    || (other.fencingToken < grant.fencingToken
        && other.state in {Completed, Cancelled, Failed, ToolsSubmitted})
  }

  /** A registered profile of this revision and workspace, whose provider is connected. */
  predicate Offers(s: VaultState, op: Uuid, request: InferenceRequest) {
    && op in s.registered && s.registered[op].registration.profile.revision == request.profileRevision != 0
    && s.registered[op].registration.profile.workspace == request.execution.workspace
    && Served(s, s.registered[op].registration)
  }

  lemma FindsOnly(s: VaultState, revision: nat, op: Uuid)
    requires UniqueRevisions(s.registered) && op in s.registered
    requires s.registered[op].registration.profile.revision == revision
    ensures FindRevision(s.registered, revision) == Some(s.registered[op])
  {
  }

  lemma BindingIs(request: InferenceRequest, authorized: ExecutionScope, profile: Profile)
    ensures ValidateBinding(request, authorized, profile) == Pass <==>
            && Scoped(authorized) && request.execution == authorized && profile.workspace == authorized.workspace
            && request.requestId != 0 && request.schemaVersion == 1
            && request.profileRevision == profile.revision != 0
  {
    hide ValidScope, Scoped;
    ScopedIs(authorized);
  }

  lemma RoomIs(other: Run, request: InferenceRequest, grant: Grant)
    ensures Fences(other, request, grant) <==> !LeavesRoom(other, request, grant)
  {
  }

  lemma UniqueOf(lib: Libraries, s: VaultState)
    requires Inv(lib, s)
    ensures UniqueRevisions(s.registered)
  {
    hide AllLocal, Exposure, Fenced, Linked, RootsBound, UniqueRevisions;
  }

  /** What the admission of a new request needs. */
  ghost predicate Admissible(lib: Libraries, s: VaultState, request: InferenceRequest, grant: Grant, now: Instant) {
    && InForce(grant, now) && request.execution == grant.execution && request.profileRevision == grant.profileRevision
    && request.requestId != 0 && request.schemaVersion == 1 && Scoped(request.execution)
    && Acceptable(lib, request)
    && request.requestId !in s.runs && |s.runs| < 4096
    && (request.execution.rootTaskId in s.bindings ==> BoundTo(s.bindings[request.execution.rootTaskId], request))
    && (forall other :: other in s.runs ==> LeavesRoom(s.runs[other], request, grant))
    && exists op :: Offers(s, op, request)
  }

  lemma AdmissionStep(lib: Libraries, s: VaultState, request: InferenceRequest, grant: Grant, now: Instant)
    requires Inv(lib, s)
    ensures var r := Prepare(lib, s, request, grant, now);
            r.Ok? && r.value.Write? <==> Admissible(lib, s, request, grant, now)
  {
    hide Inv, Conversation, Compiles, Acceptable, ValidateBinding, CheckConnection, FindRevision, Fences, LeavesRoom,
         NewRun, Bound, Scoped, Served, UniqueRevisions, Owns;
    AcceptableIs(lib, request);
    UniqueOf(lib, s);
    forall other | other in s.runs
      ensures Fences(s.runs[other], request, grant) <==> !LeavesRoom(s.runs[other], request, grant)
    {
      RoomIs(s.runs[other], request, grant);
    }
    var found := FindRevision(s.registered, request.profileRevision);
    if found.Some? {
      var op := FoundIs(s, request.profileRevision);
      BindingIs(request, grant.execution, found.value.registration.profile);
      ConnectionIs(s, found.value);
      assert Prepare(lib, s, request, grant, now).Ok? && Prepare(lib, s, request, grant, now).value.Write? ==>
             Offers(s, op, request);
    }
    if op :| Offers(s, op, request) {
      FindsOnly(s, request.profileRevision, op);
    }
  }

  lemma FoundIs(s: VaultState, revision: nat) returns (op: Uuid)
    requires FindRevision(s.registered, revision).Some?
    ensures op in s.registered && s.registered[op].registration.profile.revision == revision
    ensures FindRevision(s.registered, revision) == Some(s.registered[op])
  {
    op :| op in s.registered && s.registered[op].registration.profile.revision == revision
          && FindRevision(s.registered, revision) == Some(s.registered[op]);
  }

  /** A request is newly admitted exactly under these conditions. */
  lemma Admission(lib: Libraries, h: History, i: nat, request: InferenceRequest, grant: Grant, now: Instant)
    requires Happens(lib, h) && i < |h.states|
    ensures var r := Prepare(lib, h.states[i], request, grant, now);
            r.Ok? && r.value.Write? <==> Admissible(lib, h.states[i], request, grant, now)
  {
    hide Inv, Prepare, Admissible;
    ReachableInv(lib, h, i);
    AdmissionStep(lib, h.states[i], request, grant, now);
  }

  // ----- root tasks -----

  lemma RunIsBound(lib: Libraries, s: VaultState, id: Uuid)
    requires Inv(lib, s) && id in s.runs
    ensures s.runs[id].request.execution.rootTaskId in s.bindings
    ensures BoundTo(s.bindings[s.runs[id].request.execution.rootTaskId], s.runs[id].request)
  {
    hide AllLocal, Exposure, Fenced, Linked, UniqueRevisions;
  }

  /** All runs of a root task, at any moments, are for the same owner, project, workspace and
      profile revision. */
  lemma RootsAgree(lib: Libraries, h: History, i: nat, j: nat, a: Uuid, b: Uuid)
    requires Happens(lib, h) && i <= j < |h.states| && a in h.states[i].runs && b in h.states[j].runs
    requires h.states[i].runs[a].request.execution.rootTaskId == h.states[j].runs[b].request.execution.rootTaskId
    ensures SameRoot(h.states[i].runs[a].request, h.states[j].runs[b].request)
  {
    hide Inv, Extends;
    ReachableInv(lib, h, j);
    LaterExtends(lib, h, i, j);
    RunKept(h.states[i], h.states[j], a);
    RunIsBound(lib, h.states[j], a);
    RunIsBound(lib, h.states[j], b);
  }

  /** A new request for another owner, project, workspace or profile than any earlier run of its root
      task had is answered Forbidden, unless a reason that is checked before says otherwise. */
  lemma OtherOwnersAreForbidden(lib: Libraries, h: History, i: nat, j: nat, a: Uuid, request: InferenceRequest,
                                grant: Grant, now: Instant)
    requires Happens(lib, h) && i <= j < |h.states| && a in h.states[i].runs && request.requestId !in h.states[j].runs
    requires h.states[i].runs[a].request.execution.rootTaskId == request.execution.rootTaskId
    requires !SameRoot(h.states[i].runs[a].request, request)
    ensures var r := Prepare(lib, h.states[j], request, grant, now);
            r == Err(Forbidden) || (r == Err(InvalidRequest) && !Acceptable(lib, request))
            || (r == Err(Unavailable) && |h.states[j].runs| >= 4096)
  {
    hide Inv, Extends, Acceptable, Fences, FindRevision, ValidateBinding, CheckConnection, NewRun, Bound, Conversation,
         Compiles, Owns;
    ReachableInv(lib, h, j);
    LaterExtends(lib, h, i, j);
    RunKept(h.states[i], h.states[j], a);
    RunIsBound(lib, h.states[j], a);
    AcceptableIs(lib, request);
  }

  /** Whoever does not hold the grant of a run hears the same of it as of a run that does not exist,
      whatever is asked and whatever its state. */
  lemma StrangersLearnNothing(lib: Libraries, s: VaultState, id: Uuid, grant: Grant, now: Instant,
                              request: InferenceRequest, p: Preparation, c: ToolContinuation)
    requires !(id in s.runs && InForce(grant, now) && GivenTo(s.runs[id], grant))
    ensures Dispatch(lib, s, id, grant, p, now) == Err(Forbidden)
    ensures Cancel(lib, s, id, grant, now) == Err(Forbidden)
    ensures c.parentRequestId == id ==> Continue(lib, s, c, grant, now) == Err(Forbidden)
    ensures request.requestId == id && id in s.runs ==> Prepare(lib, s, request, grant, now) == Err(Forbidden)
  {
    hide DispatchInput, ReserveForDispatch, Conversation, ContinuationRequest, CancelEffect;
    if id in s.runs {
      GrantIs(s, id, grant, now);
    }
  }

  // ----- cancelling, deltas, lost outcomes, provider ids -----

  predicate Ended(run: Run) {
    run.state == Completed || run.state == Cancelled || run.state == Failed || run.state == ToolsSubmitted
  }

  predicate Attempted(run: Run) {
    run.state == Dispatching || run.state == Running || run.state == CancellationRequested
  }

  /** A run is cancelled by the holder of its grant: at once before dispatch and while it waits for
      tools, as a wish while an attempt may be going on, and without effect afterwards. */
  lemma Cancellation(lib: Libraries, s: VaultState, id: Uuid, grant: Grant, now: Instant)
    ensures var r := Cancel(lib, s, id, grant, now);
            && (r.Ok? <==>
                  && id in s.runs && InForce(grant, now) && GivenTo(s.runs[id], grant)
                  && (Ended(s.runs[id]) || s.runs[id].state == CancellationRequested || |s.runs[id].events| < 16384))
            && (r.Ok? ==>
                  r.value.value == match s.runs[id].state
                                   case Prepared => Cancelled
                                   case AwaitingTools => Cancelled
                                   case Dispatching => CancellationRequested
                                   case Running => CancellationRequested
                                   case Unknown => CancellationRequested
                                   case same => same)
            && (r.Ok? && r.value.Write? ==> id in r.value.next.runs && r.value.next.runs[id].state == r.value.value)
  {
    if id in s.runs {
      GrantIs(s, id, grant, now);
    }
  }

  /** A delta is taken exactly when it is the recorded one for its place, or is the next event of an
      attempt, not empty, small enough, and the log has room. */
  lemma Deltas(lib: Libraries, s: VaultState, id: Uuid, expected: nat, text: string, now: Instant)
    ensures Delta(lib, s, id, expected, text, now).Ok? <==>
            && id in s.runs
            && var run := s.runs[id];
               if 0 < expected <= |run.events| then run.events[expected - 1].kind == TextDelta(text)
               else && expected == |run.events| + 1 <= 16384 && Attempted(run)
                    && text != "" && lib.deltaBytes(text) <= 65536
  {
  }

  /** A lost outcome is recorded exactly for an attempt whose log has room, or was already. */
  lemma LostOutcomes(lib: Libraries, h: History, i: nat, id: Uuid, now: Instant)
    requires Happens(lib, h) && i < |h.states|
    ensures MarkUnknown(lib, h.states[i], id, now).Ok? <==>
            && id in h.states[i].runs
            && (h.states[i].runs[id].state == Unknown
                || (Attempted(h.states[i].runs[id]) && |h.states[i].runs[id].events| < 16384))
  {
    hide Inv, Holdable, PaidRun;
    ReachableInv(lib, h, i);
    var s := h.states[i];
    if id in s.runs && InFlight(s.runs[id].state) {
      LossIsHeld(lib, s, id);
    }
  }

  lemma LossIsHeld(lib: Libraries, s: VaultState, id: Uuid)
    requires Inv(lib, s) && id in s.runs && InFlight(s.runs[id].state)
    ensures PaidRun(s.runs[id]) ==> Account(s.budget, Openrouter, id, None).Ok?
  {
    hide Inv;
    if PaidRun(s.runs[id]) {
      InFlightHoldable(lib, s, id);
    }
  }

  predicate GenerationText(text: string) {
    && 4 < |text| <= 128 && text[0] == 'g' && text[1] == 'e' && text[2] == 'n' && text[3] == '-'
    && forall i :: 0 <= i < |text| ==>
         var c := text[i] as int; 48 <= c <= 57 || 65 <= c <= 90 || 97 <= c <= 122 || c == 45
  }

  lemma GenerationIs(text: string)
    ensures ValidGeneration(text) <==> GenerationText(text)
  {
    if 4 < |text| <= 128 {
      assert text[..4] == "gen-" <==> text[0] == 'g' && text[1] == 'e' && text[2] == 'n' && text[3] == '-';
      forall i | 0 <= i < |text|
        ensures var c, n := text[i], text[i] as int;
                ('0' <= c <= '9' || 'a' <= c <= 'z' || 'A' <= c <= 'Z' || c == '-') <==>
                (48 <= n <= 57 || 65 <= n <= 90 || 97 <= n <= 122 || n == 45)
      {
      }
    }
  }

  /** The provider's id is taken exactly once, for a paid run that is past its preparation. */
  lemma ProviderIds(s: VaultState, id: Uuid, generation: string)
    ensures RecordGeneration(s, id, generation).Ok? <==>
            && GenerationText(generation) && id in s.runs
            && s.runs[id].registration.registration.profile.provider == Openrouter && s.runs[id].state != Prepared
            && (s.runs[id].generationId.None? || s.runs[id].generationId == Some(generation))
  {
    hide ValidGeneration, GenerationText;
    GenerationIs(generation);
  }

  /** Billing of a lost stream is accounted only for the recorded id and model of a paid run that
      stopped, as the receipt of a cancelled or a failed outcome. */
  lemma LateBilling(lib: Libraries, s: VaultState, id: Uuid, receipt: GenerationReceipt, now: Instant)
    ensures var outcome := if receipt.cancelled then OutcomeCancelled else OutcomeFailed;
            ReconcileGeneration(lib, s, id, receipt, now) ==
            if && id in s.runs && s.runs[id].registration.registration.profile.provider == Openrouter
               && s.runs[id].registration.registration.profile.model == receipt.model
               && s.runs[id].generationId == Some(receipt.id)
               && s.runs[id].state in {Unknown, CancellationRequested, Failed, Cancelled}
            then Finish(lib, s, id, outcome, Some(receipt.actual), now) else Err(Conflict)
  {
    hide Finish;
  }

  // ----- registering a revision -----

  /** What a new registration needs: it is well formed, its id and revision are free, and it is
      exactly the profile of evidence that the runtime holds and that is valid now. */
  ghost predicate Registrable(s: VaultState, r: Registration, now: Instant) {
    && r.schemaVersion == 1 && 0 < r.draftRevision && r.operationId != 0
    && r.profile.workspace == "sdlc2" && r.profile.schemaVersion == 1
    && r.operationId !in s.registered
    && (forall op :: op in s.registered ==> s.registered[op].registration.profile.revision != r.profile.revision)
    && 0 < r.profile.revision <= 0xFFFF_FFFF_FFFF_FFFF
    && Served(s, r) && Proven(s, r)
    && var evidence := s.adapters[r.profile.verificationId].evidence;
    && evidence.id == r.profile.verificationId
    && evidence.verifiedAt <= now < evidence.expiresAt
    && evidence.expiresAt - evidence.verifiedAt <= 900_000_000_000
  }

  lemma RevisionFree(s: VaultState, revision: nat)
    ensures !RevisionTaken(s.registered, revision) <==>
            forall op :: op in s.registered ==> s.registered[op].registration.profile.revision != revision
  {
  }

  /** The profile that evidence yields under a revision number. */
  lemma ExpectedIs(p: Profile, generation: Uuid, evidence: Evidence, now: Instant)
    requires p.workspace == "sdlc2" && p.schemaVersion == 1 && p.revision > 0
    ensures PublishProfile("sdlc2", p.revision - 1, p.revision - 1, evidence.settings, generation, evidence, now)
            == Ok(p) <==>
            && p.revision <= 0xFFFF_FFFF_FFFF_FFFF && evidence.id == p.verificationId
            && evidence.settings == Settings(p.provider, p.model, p.contextWindowTokens)
            && generation == evidence.credentialGeneration
            && evidence.verifiedAt <= now < evidence.expiresAt
            && evidence.expiresAt - evidence.verifiedAt <= 900_000_000_000
            && Capable(p.model, p.contextWindowTokens, evidence.capabilities)
  {
    hide ValidateSettings, Capable;
    SettingsAre(evidence.settings.model, evidence.settings.contextWindowTokens, evidence.settings.provider,
                evidence.capabilities);
  }

  /** A revision is registered exactly when it is registrable, and read back exactly when the same
      registration is already there. */
  lemma Registering(s: VaultState, r: Registration, now: Instant)
    requires r.operationId !in s.registered
    ensures RegisterRevision(s, r, now).Ok? <==> Registrable(s, r, now)
  {
    hide PublishProfile, Capable, RevisionTaken, Served, DeployedContract;
    ServedIs(s, r);
    RevisionFree(s, r.profile.revision);
    if r.profile.verificationId in s.adapters && r.profile.workspace == "sdlc2" && r.profile.schemaVersion == 1
       && r.profile.revision > 0
    {
      ExpectedIs(r.profile, r.credentialGeneration, s.adapters[r.profile.verificationId].evidence, now);
    }
  }

  lemma RegisteredAgain(s: VaultState, r: Registration, now: Instant)
    requires r.operationId in s.registered
    ensures RegisterRevision(s, r, now).Ok? ==>
              s.registered[r.operationId].registration == r
              && RegisterRevision(s, r, now) == Ok(Keep(s.registered[r.operationId]))
  {
    hide ExpectedProfile, RevisionTaken;
  }
}
