/** The encrypted request history of the runtime (ai-runtime/src/inference_journal.rs):
    runs, their append-only event logs, and the state a log stands for. */
module Journal {
  import opened Base
  import opened Budget
  import opened Domain
  import opened Externals
  import opened Inference

  const MAX_RUNS := 4096
  const MAX_EVENTS := 16384
  const MAX_EVENT_BYTES := 65536

  datatype RunState =
    | Prepared
    | Dispatching
    | Running
    | CancellationRequested
    | Completed
    | Cancelled
    | Failed
    | Unknown
    | AwaitingTools
    | ToolsSubmitted

  predicate Terminal(state: RunState) {
    state == Completed || state == Cancelled || state == Failed || state == ToolsSubmitted
  }

  /** A provider attempt may be going on. */
  predicate InFlight(state: RunState) {
    state == Dispatching || state == Running || state == CancellationRequested
  }

  datatype TerminalOutcome = OutcomeCompleted | OutcomeCancelled | OutcomeFailed

  function StateOf(outcome: TerminalOutcome): RunState {
    match outcome
    case OutcomeCompleted => Completed
    case OutcomeCancelled => Cancelled
    case OutcomeFailed => Failed
  }

  datatype EventKind =
    | PreparedEvent
    | DispatchIntent
    | TextDelta(text: string)
    | CancellationRequestedEvent
    | CancelledBeforeDispatchEvent
    | UnknownOutcome
    | ProviderTerminal(outcome: TerminalOutcome)
    | CostReconciled(actual: u64)
    | CostCeilingExceeded(actualCost: u64, ceiling: u64)
    | ToolCalls(calls: seq<ToolCall>, content: Option<string>)
    | ToolResultsSubmitted(continuationRequestId: Uuid)
    | CancelledWaitingTools

  datatype Event = Event(sequence: nat, occurredAt: Instant, kind: EventKind)

  datatype Run = Run(
    request: InferenceRequest,
    requestFingerprint: string,
    machineSubject: string,
    fencingToken: nat,
    state: RunState,
    registration: Registered,
    events: seq<Event>,
    parent: Option<Uuid>,
    continuation: Option<Uuid>,
    history: map<nat, Reasoning>,
    responseReasoning: Option<Reasoning>,
    generationId: Option<string>)

  datatype RootBinding = RootBinding(workspace: string, ownerSubject: string, projectId: Uuid, profileRevision: nat)

  datatype Connection = Connection(provider: Provider, generation: Uuid)

  /** The part of the vault that inference reads or writes. */
  datatype VaultState = VaultState(
    runs: map<Uuid, Run>,
    bindings: map<Uuid, RootBinding>,
    adapters: map<Uuid, VerifiedAdapter>,
    registered: map<Uuid, Registered>,
    budget: Ledger,
    connections: map<Provider, Connection>)

  /** A verified execution grant. */
  datatype Grant = Grant(
    execution: ExecutionScope, machineSubject: string, profileRevision: nat, fencingToken: nat,
    issuedAt: Instant, expiresAt: Instant, leaseExpiresAt: Instant)

  predicate Current(grant: Grant, now: Instant) {
    grant.issuedAt <= now < grant.expiresAt && now < grant.leaseExpiresAt
  }

  predicate Owns(run: Run, grant: Grant) {
    && run.machineSubject == grant.machineSubject
    && run.request.execution == grant.execution
    && run.request.profileRevision == grant.profileRevision
    && run.fencingToken == grant.fencingToken
  }

  function Profiled(run: Run): Profile {
    run.registration.registration.profile
  }

  predicate Matches(root: RootBinding, scope: ExecutionScope, revision: nat) {
    root == RootBinding(scope.workspace, scope.ownerSubject, scope.projectId, revision)
  }

  // ----- appending -----

  /** Only provider text and tool calls vary in size; every other event is under 200 bytes. */
  predicate Oversized(lib: Libraries, kind: EventKind) {
    match kind
    case TextDelta(text) => lib.deltaBytes(text) > MAX_EVENT_BYTES
    case ToolCalls(calls, content) => lib.toolCallsBytes(calls, content) > MAX_EVENT_BYTES
    case _ => false
  }

  function Pushed(run: Run, kind: EventKind, now: Instant): Run {
    run.(events := run.events + [Event(|run.events| + 1, now, kind)])
  }

  function Append(lib: Libraries, run: Run, kind: EventKind, now: Instant): Result<Run, RuntimeError> {
    if |run.events| >= MAX_EVENTS || Oversized(lib, kind) then Err(Protocol) else Ok(Pushed(run, kind, now))
  }

  function AppendOverrun(lib: Libraries, run: Run, ledger: Ledger, id: Uuid, now: Instant): Result<Run, RuntimeError> {
    if id !in ledger || ledger[id].status != CostOverrun then Ok(run)
    else if ledger[id].actual.None? then Err(Protocol)
    else Append(lib, run, CostCeilingExceeded(ledger[id].actual.value, ledger[id].ceiling), now)
  }

  // ----- replaying a log -----

  /** The phase of a run as its log alone tells it.  Tool calls that arrive while a
      cancellation is wanted leave one possible next phase, being cancelled. */
  datatype Phase = Start | At(state: RunState) | CancellingTools | Illegal

  function Next(phase: Phase, kind: EventKind): Phase {
    match phase
    case Start => if kind == PreparedEvent then At(Prepared) else Illegal
    case Illegal => Illegal
    case CancellingTools =>
      if kind == ProviderTerminal(OutcomeCancelled) then At(Cancelled) else Illegal
    case At(state) =>
      match kind
      case PreparedEvent => Illegal
      case DispatchIntent => if state == Prepared then At(Dispatching) else Illegal
      case TextDelta(_) =>
        if state == CancellationRequested then At(CancellationRequested)
        else if state == Dispatching || state == Running then At(Running) else Illegal
      case CancellationRequestedEvent =>
        if state == Dispatching || state == Running || state == Unknown then At(CancellationRequested) else Illegal
      case CancelledBeforeDispatchEvent => if state == Prepared then At(Cancelled) else Illegal
      case UnknownOutcome => if InFlight(state) then At(Unknown) else Illegal
      case ProviderTerminal(outcome) =>
        if InFlight(state) || state == Unknown then At(StateOf(outcome)) else Illegal
      case CostReconciled(_) => if Terminal(state) || state == AwaitingTools then phase else Illegal
      case CostCeilingExceeded(_, _) => if state == Prepared then Illegal else phase
      case ToolCalls(_, _) =>
        if state == CancellationRequested then CancellingTools
        else if InFlight(state) || state == Unknown then At(AwaitingTools) else Illegal
      case ToolResultsSubmitted(_) => if state == AwaitingTools then At(ToolsSubmitted) else Illegal
      case CancelledWaitingTools => if state == AwaitingTools then At(Cancelled) else Illegal
  }

  function Replay(events: seq<Event>): Phase {
    if events == [] then Start else Next(Replay(events[..|events| - 1]), events[|events| - 1].kind)
  }

  /** The overrun notices, the tool turns and the text of a log, in order. */
  function Overruns(events: seq<Event>): seq<(u64, u64)> {
    if events == [] then []
    else Overruns(events[..|events| - 1])
         + match events[|events| - 1].kind {
             case CostCeilingExceeded(actual, ceiling) => [(actual, ceiling)]
             case _ => []
           }
  }

  function ToolTurns(events: seq<Event>): seq<(seq<ToolCall>, Option<string>)> {
    if events == [] then []
    else ToolTurns(events[..|events| - 1])
         + match events[|events| - 1].kind {
             case ToolCalls(calls, content) => [(calls, content)]
             case _ => []
           }
  }

  function Text(events: seq<Event>): string {
    if events == [] then ""
    else Text(events[..|events| - 1])
         + match events[|events| - 1].kind {
             case TextDelta(text) => text
             case _ => ""
           }
  }

  function Content(events: seq<Event>): Option<string> {
    if Text(events) == "" then None else Some(Text(events))
  }

  /** The outcome of the last provider receipt in a log. */
  function LastOutcome(events: seq<Event>): Option<TerminalOutcome> {
    if events == [] then None
    else match events[|events| - 1].kind
         case ProviderTerminal(outcome) => Some(outcome)
         case _ => LastOutcome(events[..|events| - 1])
  }

  /** Appending one event extends every reading of the log by that event. */
  lemma PushedReads(run: Run, kind: EventKind, now: Instant)
    ensures var events := Pushed(run, kind, now).events;
            && Replay(events) == Next(Replay(run.events), kind)
            && (!kind.CostCeilingExceeded? ==> Overruns(events) == Overruns(run.events))
            && (kind.CostCeilingExceeded? ==>
                Overruns(events) == Overruns(run.events) + [(kind.actualCost, kind.ceiling)])
            && (!kind.ToolCalls? ==> ToolTurns(events) == ToolTurns(run.events))
            && (kind.ToolCalls? ==> ToolTurns(events) == ToolTurns(run.events) + [(kind.calls, kind.content)])
            && (!kind.TextDelta? ==> Text(events) == Text(run.events))
            && (kind.TextDelta? ==> Text(events) == Text(run.events) + kind.text)
  {
    var events := Pushed(run, kind, now).events;
    assert events[..|events| - 1] == run.events;
  }
}
