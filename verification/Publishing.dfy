/** Publication across two stores: Admin's outbox, the runtime's registry, and reconcilers
    between them that may crash, lose answers and send requests that arrive late or twice
    (server/src/ai_publication_worker.rs). */
module Publishing {
  import opened Base
  import opened Domain
  import opened Journal
  import opened Publication
  import opened Steps

  /** What a reconciler holds between two of its calls. */
  datatype Phase =
    | Idle
    | Reading(request: Registration)
    | Sending(request: Registration)
    | Holding(request: Registration, receipt: Registered)
    | Completing(request: Registration)

  /** `wire` holds every registration request ever sent: each may still arrive, any number of
      times. */
  datatype World = World(store: Store, vault: VaultState, wire: set<Registration>, workers: map<nat, Phase>)

  function RequestOf(op: Uuid, o: Operation): Registration {
    Registration(1, op, o.expectedDraft, o.profile, o.generation, o.adapterVersion, o.accountingPolicy)
  }

  function AckOf(request: Registration): Ack {
    Ack(request.operationId, request.profile, request.credentialGeneration, request.adapterVersion,
        request.accountingPolicy)
  }

  datatype BridgeError =
    | Conflicting
    | Rejecting
    | Disconnecting
    | QuotaExceeded
    | Unreachable
    | Malformed
    | Misconfigured

  /** Only answers that the runtime gives for good release the pending slot. */
  predicate DefinitiveRejection(error: BridgeError) {
    error == Rejecting || error == Disconnecting || error == Conflicting
  }

  /** The provider status in the runtime's registry answer. */
  datatype ProviderStatus = ProviderStatus(
    provider: Provider, connected: bool, generation: Option<Uuid>, runtimeAvailable: Option<bool>,
    checkpointReady: Option<bool>)

  datatype ConnectionCheck = IsCurrent | Withdrawn | Undecided

  function CurrentConnection(status: ProviderStatus, generation: Uuid): ConnectionCheck {
    if status.connected != status.generation.Some? then Undecided
    else if !status.connected then Withdrawn
    else if status.generation != Some(generation) then Withdrawn
    else if status.provider == Chatgpt
         && (status.runtimeAvailable != Some(true) || status.checkpointReady != Some(true))
    then Undecided
    else IsCurrent
  }

  /** How the call `register_profile` ends for the reconciler. */
  datatype Answer = NoAnswer | Error(error: BridgeError) | Receipt

  datatype Move =
    | AdminPrepares(publication: PublicationRequest, now: Instant)
    | AdminSavesDraft(settings: Settings, expected: int)
    | AdminRejects(op: Uuid)
    | WorkerReads(worker: nat, op: Uuid)
    | WorkerAsks(worker: nat, answered: bool, now: Instant)
    | RequestArrives(request: Registration, now: Instant, durable: bool)
    | WorkerHears(worker: nat, answer: Answer)
    | WorkerChecks(worker: nat, status: Option<ProviderStatus>)
    | WorkerCompletes(worker: nat, now: Instant, durable: bool)
    | WorkerCrashes(worker: nat)
    | RuntimeChanges(adapters: map<Uuid, VerifiedAdapter>, connections: map<Provider, Connection>)

  function PhaseOf(w: World, worker: nat): Phase {
    if worker in w.workers then w.workers[worker] else Idle
  }

  function To(w: World, worker: nat, phase: Phase): World {
    w.(workers := w.workers[worker := phase])
  }

  function StoreAfter<T>(s: Store, r: Result<Tx<T>, StoreError>): Store {
    Publication.Committed(s, r, true).0
  }

  function Release(w: World, worker: nat, op: Uuid): World {
    To(w.(store := StoreAfter(w.store, RejectPublication(w.store, op))), worker, Idle)
  }

  /** Readback first: an absent receipt must be confirmed before anything is sent. */
  function Asked(w: World, worker: nat, request: Registration, answered: bool, now: Instant): World {
    if !answered then To(w, worker, Idle)
    else if request.operationId in w.vault.registered
    then To(w, worker, Holding(request, w.vault.registered[request.operationId]))
    else if request.operationId in w.store.operations
         && w.store.operations[request.operationId].evidence.expiresAt <= now
    then Release(w, worker, request.operationId)
    else To(w.(wire := w.wire + {request}), worker, Sending(request))
  }

  function Heard(w: World, worker: nat, request: Registration, answer: Answer): World {
    match answer
    case NoAnswer => To(w, worker, Idle)
    case Error(error) =>
      if DefinitiveRejection(error) then Release(w, worker, request.operationId) else To(w, worker, Idle)
    case Receipt =>
      if request.operationId in w.vault.registered
      then To(w, worker, Holding(request, w.vault.registered[request.operationId]))
      else To(w, worker, Idle)
  }

  function Checked(w: World, worker: nat, request: Registration, receipt: Registered, status: Option<ProviderStatus>)
    : World
  {
    if receipt.registration != request || status.None? then To(w, worker, Idle)
    else
      match CurrentConnection(status.value, request.credentialGeneration)
      case Undecided => To(w, worker, Idle)
      case Withdrawn => Release(w, worker, request.operationId)
      case IsCurrent => To(w, worker, Completing(request))
  }

  function Finished(w: World, worker: nat, request: Registration, now: Instant, durable: bool): World {
    var r := CompletePublication(w.store, AckOf(request), now);
    if r == Err(Refused(RevisionConflict)) || r == Err(Refused(VerificationExpired))
    then Release(w, worker, request.operationId)
    else To(w.(store := Publication.Committed(w.store, r, durable).0), worker, Idle)
  }

  ghost function Next(w: World, move: Move): World {
    match move
    case AdminPrepares(publication, now) =>
      w.(store := StoreAfter(w.store, PreparePublication(w.store, publication, now)))
    case AdminSavesDraft(settings, expected) => w.(store := StoreAfter(w.store, SaveDraft(w.store, settings, expected)))
    case AdminRejects(op) => w.(store := StoreAfter(w.store, RejectPublication(w.store, op)))
    case WorkerReads(worker, op) =>
      if PhaseOf(w, worker) == Idle && op in w.store.operations && w.store.operations[op].state == Pending
      then To(w, worker, Reading(RequestOf(op, w.store.operations[op]))) else w
    case WorkerAsks(worker, answered, now) =>
      (match PhaseOf(w, worker) case Reading(request) => Asked(w, worker, request, answered, now) case _ => w)
    case RequestArrives(request, now, durable) =>
      if request in w.wire then w.(vault := Commit(w.vault, RegisterRevision(w.vault, request, now), durable).0) else w
    case WorkerHears(worker, answer) =>
      (match PhaseOf(w, worker) case Sending(request) => Heard(w, worker, request, answer) case _ => w)
    case WorkerChecks(worker, status) =>
      (match PhaseOf(w, worker)
       case Holding(request, receipt) => Checked(w, worker, request, receipt, status)
       case _ => w)
    case WorkerCompletes(worker, now, durable) =>
      (match PhaseOf(w, worker) case Completing(request) => Finished(w, worker, request, now, durable) case _ => w)
    case WorkerCrashes(worker) => To(w, worker, Idle)
    case RuntimeChanges(adapters, connections) =>
      w.(vault := w.vault.(adapters := adapters, connections := connections))
  }

  // ----- what every interleaving keeps -----

  /** The request is the exact candidate that was prepared under its operation id. */
  predicate IsPrepared(s: Store, request: Registration) {
    request.operationId in s.operations && request == RequestOf(request.operationId, s.operations[request.operationId])
  }

  predicate Receipted(vault: VaultState, request: Registration) {
    request.operationId in vault.registered && vault.registered[request.operationId].registration == request
  }

  predicate PhaseOk(w: World, phase: Phase) {
    match phase
    case Idle => true
    case Reading(request) => IsPrepared(w.store, request)
    case Sending(request) => IsPrepared(w.store, request)
    case Holding(request, receipt) =>
      IsPrepared(w.store, request) && request.operationId in w.vault.registered
      && w.vault.registered[request.operationId] == receipt
    case Completing(request) => IsPrepared(w.store, request) && Receipted(w.vault, request)
  }

  /** Every receipt of the runtime is for a prepared candidate. */
  predicate ReceiptsOk(w: World) {
    forall op :: op in w.vault.registered ==>
      w.vault.registered[op].registration.operationId == op && IsPrepared(w.store, w.vault.registered[op].registration)
  }

  /** Nothing is published without the runtime's receipt for exactly that candidate. */
  predicate PublishedAreReceipted(w: World) {
    forall op :: op in w.store.operations && w.store.operations[op].state == Published ==>
      Receipted(w.vault, RequestOf(op, w.store.operations[op]))
  }

  predicate WorldOk(w: World) {
    && StoreOk(w.store) && ReceiptsOk(w) && PublishedAreReceipted(w)
    && (forall request :: request in w.wire ==> IsPrepared(w.store, request))
    && (forall worker :: worker in w.workers ==> PhaseOk(w, w.workers[worker]))
  }

  predicate VaultExtends(a: VaultState, b: VaultState) {
    forall op :: op in a.registered ==> op in b.registered && b.registered[op] == a.registered[op]
  }

  lemma PreparedKept(a: Store, b: Store, request: Registration)
    requires StoreExtends(a, b) && IsPrepared(a, request)
    ensures IsPrepared(b, request)
  {
  }

  /** A step of the two stores, in which every candidate and every receipt stays as it was. */
  lemma Carry(a: World, b: World)
    requires WorldOk(a) && StoreOk(b.store) && StoreExtends(a.store, b.store) && VaultExtends(a.vault, b.vault)
    requires b.wire == a.wire && b.workers == a.workers && ReceiptsOk(b) && PublishedAreReceipted(b)
    ensures WorldOk(b)
  {
    hide StoreOk, StoreExtends, IsPrepared, ReceiptsOk, PublishedAreReceipted;
    forall request | request in b.wire ensures IsPrepared(b.store, request) {
      PreparedKept(a.store, b.store, request);
    }
    forall worker | worker in b.workers ensures PhaseOk(b, b.workers[worker]) {
      var phase := a.workers[worker];
      assert PhaseOk(a, phase);
      if phase != Idle {
        PreparedKept(a.store, b.store, phase.request);
      }
    }
  }

  lemma OneWorker(w: World, worker: nat, phase: Phase)
    requires WorldOk(w) && PhaseOk(w, phase)
    ensures WorldOk(To(w, worker, phase))
  {
    hide StoreOk, ReceiptsOk, PublishedAreReceipted, IsPrepared;
    var next := To(w, worker, phase);
    assert ReceiptsOk(next) && PublishedAreReceipted(next) by { SameStores(w, next); }
    forall k | k in next.workers ensures PhaseOk(next, next.workers[k]) {
      if k != worker {
        assert PhaseOk(w, w.workers[k]);
      }
    }
  }

  lemma SameStores(a: World, b: World)
    requires a.store == b.store && a.vault == b.vault
    ensures ReceiptsOk(a) == ReceiptsOk(b) && PublishedAreReceipted(a) == PublishedAreReceipted(b)
  {
  }

  /** A transaction that publishes nothing. */
  lemma StoreStep(w: World, store: Store)
    requires WorldOk(w) && StoreOk(store) && StoreExtends(w.store, store)
    requires forall op :: op in store.operations && store.operations[op].state == Published ==>
               op in w.store.operations && w.store.operations[op].state == Published
    ensures WorldOk(w.(store := store))
  {
    hide StoreOk;
    var next := w.(store := store);
    forall op | op in store.operations && store.operations[op].state == Published
      ensures Receipted(next.vault, RequestOf(op, store.operations[op]))
    {
      assert RequestOf(op, store.operations[op]) == RequestOf(op, w.store.operations[op]);
    }
    Carry(w, next);
  }

  lemma RejectStep(w: World, op: Uuid)
    requires WorldOk(w)
    ensures var store := StoreAfter(w.store, RejectPublication(w.store, op));
            WorldOk(w.(store := store)) && StoreExtends(w.store, store)
  {
    hide StoreOk, ReceiptsOk, PublishedAreReceipted, IsPrepared;
    var r := RejectPublication(w.store, op);
    if r.Ok? && r.value.Commits? {
      RejectKeepsStore(w.store, op);
      StoreStep(w, r.value.next);
    } else {
      assert w.(store := w.store) == w;
    }
  }

  lemma PrepareStep(w: World, p: PublicationRequest, now: Instant)
    requires WorldOk(w)
    ensures var store := StoreAfter(w.store, PreparePublication(w.store, p, now));
            WorldOk(w.(store := store)) && StoreExtends(w.store, store)
  {
    hide StoreOk, ReceiptsOk, PublishedAreReceipted, IsPrepared, PreparePublication;
    var r := PreparePublication(w.store, p, now);
    if r.Ok? && r.value.Commits? {
      PrepareKeepsStore(w.store, p, now);
      PrepareForm(w.store, p, now);
      StoreStep(w, r.value.next);
    } else {
      assert w.(store := w.store) == w;
    }
  }

  lemma SaveStep(w: World, settings: Settings, expected: int)
    requires WorldOk(w)
    ensures var store := StoreAfter(w.store, SaveDraft(w.store, settings, expected));
            WorldOk(w.(store := store)) && StoreExtends(w.store, store)
  {
    hide StoreOk, ReceiptsOk, PublishedAreReceipted, IsPrepared, DraftModel;
    var r := SaveDraft(w.store, settings, expected);
    if r.Ok? && r.value.Commits? {
      SaveKeepsStore(w.store, settings, expected);
      StoreStep(w, r.value.next);
    } else {
      assert w.(store := w.store) == w;
    }
  }

  /** Completion publishes only what the runtime holds a receipt for. */
  lemma CompleteStep(w: World, request: Registration, now: Instant, durable: bool)
    requires WorldOk(w) && PhaseOk(w, Completing(request))
    ensures var store := Publication.Committed(w.store, CompletePublication(w.store, AckOf(request), now), durable).0;
            WorldOk(w.(store := store)) && StoreExtends(w.store, store)
  {
    hide StoreOk;
    var r := CompletePublication(w.store, AckOf(request), now);
    if r.Ok? && r.value.Commits? && durable {
      var next := w.(store := r.value.next);
      CompleteKeepsStore(w.store, AckOf(request), now);
      forall op | op in next.store.operations && next.store.operations[op].state == Published
        ensures Receipted(next.vault, RequestOf(op, next.store.operations[op]))
      {
        assert RequestOf(op, next.store.operations[op]) == RequestOf(op, w.store.operations[op]);
      }
      Carry(w, next);
    } else {
      assert w.(store := w.store) == w;
    }
  }

  lemma RegisterForm(s: VaultState, request: Registration, now: Instant)
    requires RegisterRevision(s, request, now).Ok? && RegisterRevision(s, request, now).value.Write?
    ensures request.operationId !in s.registered && !RevisionTaken(s.registered, request.profile.revision)
    ensures RegisterRevision(s, request, now).value.next ==
            s.(registered := s.registered[request.operationId := Registered(request, now)])
  {
    hide ExpectedProfile, RevisionTaken;
  }

  lemma ArriveStep(w: World, request: Registration, now: Instant, durable: bool)
    requires WorldOk(w) && request in w.wire
    ensures var vault := Commit(w.vault, RegisterRevision(w.vault, request, now), durable).0;
            WorldOk(w.(vault := vault)) && VaultExtends(w.vault, vault)
  {
    hide StoreOk, RegisterRevision, IsPrepared;
    var r := RegisterRevision(w.vault, request, now);
    if r.Ok? && r.value.Write? && durable {
      RegisterForm(w.vault, request, now);
      var next := w.(vault := r.value.next);
      PublishedKept(w, next);
      Carry(w, next);
    } else {
      assert w.(vault := w.vault) == w;
    }
  }

  lemma PublishedKept(a: World, b: World)
    requires PublishedAreReceipted(a) && a.store == b.store && VaultExtends(a.vault, b.vault)
    ensures PublishedAreReceipted(b)
  {
    forall op | op in b.store.operations && b.store.operations[op].state == Published
      ensures Receipted(b.vault, RequestOf(op, b.store.operations[op]))
    {
      assert Receipted(a.vault, RequestOf(op, a.store.operations[op]));
    }
  }

  lemma ReleaseStep(w: World, worker: nat, op: Uuid)
    requires WorldOk(w)
    ensures WorldOk(Release(w, worker, op)) && WorldExtends(w, Release(w, worker, op))
  {
    hide WorldOk, RejectPublication;
    RejectStep(w, op);
    OneWorker(w.(store := StoreAfter(w.store, RejectPublication(w.store, op))), worker, Idle);
  }

  predicate WorldExtends(a: World, b: World) {
    StoreExtends(a.store, b.store) && VaultExtends(a.vault, b.vault)
  }

  lemma WorkerOk(w: World, worker: nat)
    requires WorldOk(w)
    ensures PhaseOk(w, PhaseOf(w, worker))
  {
    hide StoreOk, ReceiptsOk, PublishedAreReceipted, IsPrepared;
  }

  lemma SendStep(w: World, request: Registration)
    requires WorldOk(w) && IsPrepared(w.store, request)
    ensures WorldOk(w.(wire := w.wire + {request}))
  {
    hide StoreOk, IsPrepared;
    var next := w.(wire := w.wire + {request});
    forall worker | worker in next.workers ensures PhaseOk(next, next.workers[worker]) {
      assert PhaseOk(w, w.workers[worker]);
    }
  }

  lemma RuntimeStep(w: World, adapters: map<Uuid, VerifiedAdapter>, connections: map<Provider, Connection>)
    requires WorldOk(w)
    ensures WorldOk(w.(vault := w.vault.(adapters := adapters, connections := connections)))
  {
    hide StoreOk, IsPrepared;
    var next := w.(vault := w.vault.(adapters := adapters, connections := connections));
    forall worker | worker in next.workers ensures PhaseOk(next, next.workers[worker]) {
      assert PhaseOk(w, w.workers[worker]);
    }
    PublishedKept(w, next);
  }

  lemma AskStep(w: World, worker: nat, request: Registration, answered: bool, now: Instant)
    requires WorldOk(w) && PhaseOk(w, Reading(request))
    ensures WorldOk(Asked(w, worker, request, answered, now))
            && WorldExtends(w, Asked(w, worker, request, answered, now))
  {
    hide WorldOk, Release;
    if !answered {
      OneWorker(w, worker, Idle);
    } else if request.operationId in w.vault.registered {
      OneWorker(w, worker, Holding(request, w.vault.registered[request.operationId]));
    } else if request.operationId in w.store.operations
        && w.store.operations[request.operationId].evidence.expiresAt <= now {
      ReleaseStep(w, worker, request.operationId);
    } else {
      SendStep(w, request);
      OneWorker(w.(wire := w.wire + {request}), worker, Sending(request));
    }
  }

  lemma HearStep(w: World, worker: nat, request: Registration, answer: Answer)
    requires WorldOk(w) && PhaseOk(w, Sending(request))
    ensures WorldOk(Heard(w, worker, request, answer)) && WorldExtends(w, Heard(w, worker, request, answer))
  {
    hide WorldOk, Release;
    OneWorker(w, worker, Idle);
    ReleaseStep(w, worker, request.operationId);
    if request.operationId in w.vault.registered {
      OneWorker(w, worker, Holding(request, w.vault.registered[request.operationId]));
    }
  }

  lemma CheckStep(w: World, worker: nat, request: Registration, receipt: Registered, status: Option<ProviderStatus>)
    requires WorldOk(w) && PhaseOk(w, Holding(request, receipt))
    ensures WorldOk(Checked(w, worker, request, receipt, status))
    ensures WorldExtends(w, Checked(w, worker, request, receipt, status))
  {
    hide WorldOk, Release, CurrentConnection;
    OneWorker(w, worker, Idle);
    ReleaseStep(w, worker, request.operationId);
    if receipt.registration == request {
      OneWorker(w, worker, Completing(request));
    }
  }

  lemma FinishStep(w: World, worker: nat, request: Registration, now: Instant, durable: bool)
    requires WorldOk(w) && PhaseOk(w, Completing(request))
    ensures WorldOk(Finished(w, worker, request, now, durable))
    ensures WorldExtends(w, Finished(w, worker, request, now, durable))
  {
    hide WorldOk, Release, CompletePublication;
    ReleaseStep(w, worker, request.operationId);
    CompleteStep(w, request, now, durable);
    var store := Publication.Committed(w.store, CompletePublication(w.store, AckOf(request), now), durable).0;
    OneWorker(w.(store := store), worker, Idle);
  }

  /** Whatever happens next, in whatever order: the invariants hold, candidates and receipts are
      final, and decisions are never reversed. */
  lemma NextKeeps(w: World, move: Move)
    requires WorldOk(w)
    ensures WorldOk(Next(w, move)) && WorldExtends(w, Next(w, move))
  {
    hide WorldOk, Asked, Heard, Checked, Finished, RegisterRevision, PreparePublication, SaveDraft, RejectPublication,
         PhaseOk;
    match move {
      case AdminPrepares(publication, now) => PrepareStep(w, publication, now);
      case AdminSavesDraft(settings, expected) => SaveStep(w, settings, expected);
      case AdminRejects(op) => RejectStep(w, op);
      case WorkerReads(worker, op) =>
        if PhaseOf(w, worker) == Idle && op in w.store.operations && w.store.operations[op].state == Pending {
          assert PhaseOk(w, Reading(RequestOf(op, w.store.operations[op]))) by { ReadIsPrepared(w, op); }
          OneWorker(w, worker, Reading(RequestOf(op, w.store.operations[op])));
        }
      case WorkerAsks(worker, answered, now) =>
        WorkerOk(w, worker);
        if PhaseOf(w, worker).Reading? {
          AskStep(w, worker, PhaseOf(w, worker).request, answered, now);
        }
      case RequestArrives(request, now, durable) =>
        if request in w.wire {
          ArriveStep(w, request, now, durable);
        }
      case WorkerHears(worker, answer) =>
        WorkerOk(w, worker);
        if PhaseOf(w, worker).Sending? {
          HearStep(w, worker, PhaseOf(w, worker).request, answer);
        }
      case WorkerChecks(worker, status) =>
        WorkerOk(w, worker);
        if PhaseOf(w, worker).Holding? {
          CheckStep(w, worker, PhaseOf(w, worker).request, PhaseOf(w, worker).receipt, status);
        }
      case WorkerCompletes(worker, now, durable) =>
        WorkerOk(w, worker);
        if PhaseOf(w, worker).Completing? {
          FinishStep(w, worker, PhaseOf(w, worker).request, now, durable);
        }
      case WorkerCrashes(worker) =>
        assert PhaseOk(w, Idle) by { IdleOk(w); }
        OneWorker(w, worker, Idle);
      case RuntimeChanges(adapters, connections) => RuntimeStep(w, adapters, connections);
    }
  }

  lemma ReadIsPrepared(w: World, op: Uuid)
    requires op in w.store.operations
    ensures PhaseOk(w, Reading(RequestOf(op, w.store.operations[op])))
  {
  }

  lemma IdleOk(w: World)
    ensures PhaseOk(w, Idle)
  {
  }

  // ----- whole histories -----

  /** A course of events: move i leads from world i to world i + 1. */
  datatype Course = Course(worlds: seq<World>, moves: seq<Move>)

  ghost predicate Moves(c: Course, i: nat)
    requires i < |c.moves| && |c.worlds| == |c.moves| + 1
  {
    c.worlds[i + 1] == Next(c.worlds[i], c.moves[i])
  }

  /** Nothing prepared, nothing registered, no reconciler at work; any drafts and connections. */
  predicate Initial(w: World) {
    && w.store.operations == map[] && w.store.active == None && w.vault.registered == map[]
    && w.wire == {} && w.workers == map[] && forall p :: p in w.store.drafts ==> w.store.drafts[p].revision >= 1
  }

  /** Any moves in any order, from an initial world. */
  ghost predicate Unfolds(c: Course) {
    && |c.worlds| == |c.moves| + 1 && Initial(c.worlds[0])
    && forall i {:trigger Moves(c, i)} :: 0 <= i < |c.moves| ==> Moves(c, i)
  }

  /** In every world: receipts are for prepared candidates, and nothing is published without one. */
  lemma {:induction false} EveryInterleaving(c: Course, i: nat)
    requires Unfolds(c) && i < |c.worlds|
    ensures WorldOk(c.worlds[i])
  {
    hide Next;
    if i > 0 {
      EveryInterleaving(c, i - 1);
      assert Moves(c, i - 1);
      NextKeeps(c.worlds[i - 1], c.moves[i - 1]);
    }
  }

  lemma {:induction false} LaterWorlds(c: Course, i: nat, j: nat)
    requires Unfolds(c) && i <= j < |c.worlds|
    ensures WorldExtends(c.worlds[i], c.worlds[j])
    decreases j
  {
    hide Next, WorldOk;
    if i < j {
      LaterWorlds(c, i, j - 1);
      EveryInterleaving(c, j - 1);
      assert Moves(c, j - 1);
      NextKeeps(c.worlds[j - 1], c.moves[j - 1]);
      ExtendsTogether(c.worlds[i], c.worlds[j - 1], c.worlds[j]);
    }
  }

  lemma ExtendsTogether(a: World, b: World, c: World)
    requires WorldExtends(a, b) && WorldExtends(b, c)
    ensures WorldExtends(a, c)
  {
  }

  /** Whatever crashed, was lost or came late: an operation that is published has the runtime's
      receipt for exactly the request that was prepared, and the active revision is such a one. */
  lemma PublishedMeansRegistered(c: Course, i: nat, op: Uuid)
    requires Unfolds(c) && i < |c.worlds| && op in c.worlds[i].store.operations
    requires c.worlds[i].store.operations[op].state == Published
    ensures var w := c.worlds[i];
            && op in w.vault.registered
            && var o := w.store.operations[op];
            && w.vault.registered[op].registration ==
               Registration(1, op, o.expectedDraft, o.profile, o.generation, o.adapterVersion, o.accountingPolicy)
            && o.revision <= CurrentRevision(w.store)
  {
    hide Next, StoreOk, ReceiptsOk, Unfolds;
    EveryInterleaving(c, i);
    ActiveIsGreatest(c.worlds[i].store);
  }

  lemma ActiveIsGreatest(s: Store)
    requires StoreOk(s)
    ensures forall op :: op in s.operations && s.operations[op].state == Published ==>
            s.operations[op].revision <= CurrentRevision(s)
  {
    hide DistinctRevisions, OnePending, PendingIsNewest;
  }

  /** A receipt that arrives after its operation was rejected stays an orphan: the operation is
      never published, its revision never becomes active, and no other operation ever gets the
      same revision number. */
  lemma OrphansStayOrphans(c: Course, i: nat, j: nat, op: Uuid)
    requires Unfolds(c) && i <= j < |c.worlds| && op in c.worlds[i].store.operations
    requires c.worlds[i].store.operations[op].state == Rejected
    ensures var s, revision := c.worlds[j].store, c.worlds[i].store.operations[op].revision;
            && op in s.operations && s.operations[op].state == Rejected && s.operations[op].revision == revision
            && s.active != Some(revision)
            && forall other :: other in s.operations && other != op ==> s.operations[other].revision != revision
  {
    hide Next, ReceiptsOk, PublishedAreReceipted, Unfolds;
    EveryInterleaving(c, j);
    LaterWorlds(c, i, j);
    RejectedIsInactive(c.worlds[j].store, op);
  }

  lemma RejectedIsInactive(s: Store, op: Uuid)
    requires StoreOk(s) && op in s.operations && s.operations[op].state == Rejected
    ensures s.active != Some(s.operations[op].revision)
    ensures forall other :: other in s.operations && other != op ==>
            s.operations[other].revision != s.operations[op].revision
  {
    hide OnePending, PendingIsNewest, CandidateOk;
  }

  /** No request that any reconciler ever sent can meet the revision number of another operation,
      nor another registration under its own id: those two conflicts never happen. */
  lemma NoRevisionCollision(c: Course, i: nat, request: Registration)
    requires Unfolds(c) && i < |c.worlds| && request in c.worlds[i].wire
    ensures var vault := c.worlds[i].vault;
            && (request.operationId in vault.registered ==>
                vault.registered[request.operationId].registration == request)
            && (request.operationId !in vault.registered ==> !RevisionTaken(vault.registered, request.profile.revision))
  {
    hide Next, PublishedAreReceipted, Unfolds, WorldOk, RevisionTaken;
    EveryInterleaving(c, i);
    SentIsFree(c.worlds[i], request);
  }

  lemma SentIsFree(w: World, request: Registration)
    requires WorldOk(w) && request in w.wire
    ensures request.operationId in w.vault.registered ==>
            w.vault.registered[request.operationId].registration == request
    ensures request.operationId !in w.vault.registered ==> !RevisionTaken(w.vault.registered, request.profile.revision)
  {
    hide OnePending, PendingIsNewest, ActiveIsPublished, PublishedAreReceipted;
    assert IsPrepared(w.store, request);
    forall op | op in w.vault.registered && op != request.operationId
      ensures w.vault.registered[op].registration.profile.revision != request.profile.revision
    {
      assert IsPrepared(w.store, w.vault.registered[op].registration);
    }
  }

  // ----- what decides a publication -----

  /** The worker is at work on this operation, in a phase with a request. */
  predicate WorksOn(w: World, worker: nat, op: Uuid) {
    PhaseOf(w, worker) != Idle && PhaseOf(w, worker).request.operationId == op
  }

  predicate DraftChanged(s: Store, o: Operation) {
    && o.profile.provider in s.drafts
    && var draft := s.drafts[o.profile.provider];
       || draft.revision != o.expectedDraft || draft.model != o.profile.model
       || draft.contextWindowTokens != o.profile.contextWindowTokens
  }

  /** The registry answers consistently, and without a connection of this generation. */
  predicate Gone(status: ProviderStatus, generation: Uuid) {
    || (!status.connected && status.generation.None?)
    || (status.connected && status.generation.Some? && status.generation.value != generation)
  }

  lemma GoneIs(status: ProviderStatus, generation: Uuid)
    ensures CurrentConnection(status, generation) == Withdrawn <==> Gone(status, generation)
  {
  }

  /** What becomes of a pending operation: Admin rejects it; the runtime has confirmed that it has
      no receipt and the evidence has expired; the runtime refuses it for good; its connection is
      withdrawn or replaced; or completion is refused for a changed draft or expired evidence, or
      commits.  Nothing else decides it. */
  function Decision(w: World, move: Move, op: Uuid): OperationState
    requires op in w.store.operations
  {
    var o := w.store.operations[op];
    match move
    case AdminRejects(k) => if k == op then Rejected else Pending
    case WorkerAsks(worker, answered, now) =>
      if && PhaseOf(w, worker).Reading? && WorksOn(w, worker, op) && answered && op !in w.vault.registered
         && o.evidence.expiresAt <= now
      then Rejected else Pending
    case WorkerHears(worker, answer) =>
      if && PhaseOf(w, worker).Sending? && WorksOn(w, worker, op)
         && answer.Error? && answer.error in {Rejecting, Disconnecting, Conflicting}
      then Rejected else Pending
    case WorkerChecks(worker, status) =>
      if && PhaseOf(w, worker).Holding? && WorksOn(w, worker, op) && status.Some?
         && Gone(status.value, o.generation)
      then Rejected else Pending
    case WorkerCompletes(worker, now, durable) =>
      if !PhaseOf(w, worker).Completing? || !WorksOn(w, worker, op) then Pending
      else if DraftChanged(w.store, o) || o.evidence.expiresAt <= now then Rejected
      else if durable then Published else Pending
    case _ => Pending
  }

  predicate IsPending(s: Store, op: Uuid) {
    op in s.operations && s.operations[op].state == Pending
  }

  lemma RejectDecides(s: Store, k: Uuid, op: Uuid)
    requires IsPending(s, op)
    ensures var next := StoreAfter(s, RejectPublication(s, k));
            op in next.operations && next.operations[op].state == (if k == op then Rejected else Pending)
  {
  }

  lemma PrepareDecides(s: Store, p: PublicationRequest, now: Instant, op: Uuid)
    requires IsPending(s, op)
    ensures IsPending(StoreAfter(s, PreparePublication(s, p, now)), op)
  {
    hide Label, Highest, PublishProfile, SameCandidate;
  }

  lemma SaveDecides(s: Store, settings: Settings, expected: int, op: Uuid)
    requires IsPending(s, op)
    ensures IsPending(StoreAfter(s, SaveDraft(s, settings, expected)), op)
  {
    hide DraftModel;
  }

  lemma AskDecides(w: World, worker: nat, request: Registration, answered: bool, now: Instant, op: Uuid)
    requires IsPending(w.store, op)
    ensures var next := Asked(w, worker, request, answered, now).store;
            && op in next.operations
            && next.operations[op].state ==
               if && request.operationId == op && answered && op !in w.vault.registered
                  && w.store.operations[op].evidence.expiresAt <= now
               then Rejected else Pending
  {
    hide RejectPublication;
    RejectDecides(w.store, request.operationId, op);
  }

  lemma HearDecides(w: World, worker: nat, request: Registration, answer: Answer, op: Uuid)
    requires IsPending(w.store, op)
    ensures var next := Heard(w, worker, request, answer).store;
            && op in next.operations
            && next.operations[op].state ==
               if request.operationId == op && answer.Error? && DefinitiveRejection(answer.error) then Rejected
                  else Pending
  {
    hide RejectPublication;
    RejectDecides(w.store, request.operationId, op);
  }

  /** The receipt held is always the one for the request. */
  lemma CheckDecides(w: World, worker: nat, request: Registration, receipt: Registered, status: Option<ProviderStatus>,
                     op: Uuid)
    requires IsPending(w.store, op) && ReceiptsOk(w) && PhaseOk(w, Holding(request, receipt))
    ensures var next := Checked(w, worker, request, receipt, status).store;
            && op in next.operations
            && next.operations[op].state ==
               if && request.operationId == op && status.Some?
                  && Gone(status.value, w.store.operations[op].generation)
               then Rejected else Pending
  {
    hide RejectPublication, CurrentConnection, Gone;
    if status.Some? {
      GoneIs(status.value, request.credentialGeneration);
    }
    RejectDecides(w.store, request.operationId, op);
    assert IsPrepared(w.store, receipt.registration);
  }

  lemma CompleteDecides(w: World, worker: nat, request: Registration, now: Instant, durable: bool, op: Uuid)
    requires IsPending(w.store, op) && StoreOk(w.store) && IsPrepared(w.store, request)
    ensures var next, o := Finished(w, worker, request, now, durable).store, w.store.operations[op];
            && op in next.operations
            && next.operations[op].state ==
               if request.operationId != op then Pending
               else if DraftChanged(w.store, o) || o.evidence.expiresAt <= now then Rejected
               else if durable then Published else Pending
  {
    hide RejectPublication, OnePending, PendingIsNewest, ActiveIsPublished, DistinctRevisions, CandidateOk;
    RejectDecides(w.store, request.operationId, op);
    if request.operationId == op {
      assert Acknowledges(AckOf(request), w.store.operations[op]);
      assert CurrentRevision(w.store) == w.store.operations[op].expectedRevision by { OnlyNewestPends(w.store, op); }
    }
  }

  lemma OnlyNewestPends(s: Store, op: Uuid)
    requires PendingIsNewest(s) && IsPending(s, op)
    ensures CurrentRevision(s) == s.operations[op].expectedRevision
  {
  }

  /** A pending operation stays pending until one of the deciding moves, and that move decides it:
      lost answers, transport, protocol and quota errors, crashes, late requests and changes of
      drafts and connections alone leave it pending. */
  lemma PendingUntilDecided(c: Course, i: nat, op: Uuid)
    requires Unfolds(c) && i < |c.moves| && IsPending(c.worlds[i].store, op)
    ensures op in c.worlds[i + 1].store.operations
    ensures c.worlds[i + 1].store.operations[op].state == Decision(c.worlds[i], c.moves[i], op)
  {
    hide Next, WorldOk, Unfolds, Decision;
    Follows(c, i);
    EveryInterleaving(c, i);
    NextDecides(c.worlds[i], c.moves[i], op);
  }

  lemma Follows(c: Course, i: nat)
    requires Unfolds(c) && i < |c.moves|
    ensures |c.worlds| == |c.moves| + 1 && c.worlds[i + 1] == Next(c.worlds[i], c.moves[i])
  {
    hide Next;
    assert Moves(c, i);
  }

  lemma NextDecides(w: World, move: Move, op: Uuid)
    requires WorldOk(w) && IsPending(w.store, op)
    ensures op in Next(w, move).store.operations && Next(w, move).store.operations[op].state == Decision(w, move, op)
  {
    hide StoreOk, ReceiptsOk, PublishedAreReceipted, IsPrepared, Asked, Heard, Checked, Finished, RegisterRevision,
         PreparePublication, SaveDraft, RejectPublication, Gone, DraftChanged;
    match move {
      case AdminPrepares(publication, now) => PrepareDecides(w.store, publication, now, op);
      case AdminSavesDraft(settings, expected) => SaveDecides(w.store, settings, expected, op);
      case AdminRejects(k) => RejectDecides(w.store, k, op);
      case WorkerAsks(worker, answered, now) =>
        if PhaseOf(w, worker).Reading? { AskDecides(w, worker, PhaseOf(w, worker).request, answered, now, op); }
      case WorkerHears(worker, answer) =>
        if PhaseOf(w, worker).Sending? { HearDecides(w, worker, PhaseOf(w, worker).request, answer, op); }
      case WorkerChecks(worker, status) =>
        WorkerOk(w, worker);
        var phase := PhaseOf(w, worker);
        if phase.Holding? { CheckDecides(w, worker, phase.request, phase.receipt, status, op); }
      case WorkerCompletes(worker, now, durable) =>
        WorkerOk(w, worker);
        if PhaseOf(w, worker).Completing? { CompleteDecides(w, worker, PhaseOf(w, worker).request, now, durable, op); }
      case _ =>
    }
  }

  // ----- what a reconciler does -----

  /** The registry answers that this very connection stands and, for ChatGPT, that it works. */
  predicate Stands(status: ProviderStatus, generation: Uuid) {
    && status.connected && status.generation == Some(generation)
    && (status.provider == Chatgpt ==> status.runtimeAvailable == Some(true) && status.checkpointReady == Some(true))
  }

  lemma StandsIs(status: ProviderStatus, generation: Uuid)
    ensures CurrentConnection(status, generation) == IsCurrent <==> Stands(status, generation)
  {
  }

  /** The runtime has confirmed that it holds no receipt for the operation whose request the worker
      has read, and its evidence is still valid. */
  predicate ConfirmedAbsent(w: World, move: Move) {
    && move.WorkerAsks? && move.answered && PhaseOf(w, move.worker).Reading?
    && var op := PhaseOf(w, move.worker).request.operationId;
    && op !in w.vault.registered && op in w.store.operations && move.now < w.store.operations[op].evidence.expiresAt
  }

  function ReceiptFor(w: World, request: Registration): Phase {
    if request.operationId in w.vault.registered then Holding(request, w.vault.registered[request.operationId])
    else Idle
  }

  /** What the worker holds after a move: it reads a pending candidate as it was prepared, sends it only
      when the runtime has none of it, takes its receipt, and completes only under a connection that
      stands; whatever else it hears it drops the work. */
  function Proceeds(w: World, move: Move, worker: nat): Phase {
    var phase := PhaseOf(w, worker);
    match move
    case WorkerReads(k, op) =>
      if k == worker && phase == Idle && IsPending(w.store, op)
      then
        var o := w.store.operations[op];
        Reading(Registration(1, op, o.expectedDraft, o.profile, o.generation, o.adapterVersion, o.accountingPolicy))
      else phase
    case WorkerAsks(k, answered, now) =>
      if k != worker || !phase.Reading? then phase
      else if ConfirmedAbsent(w, move) then Sending(phase.request)
      else if answered then ReceiptFor(w, phase.request) else Idle
    case WorkerHears(k, answer) =>
      if k != worker || !phase.Sending? then phase
      else if answer == Receipt then ReceiptFor(w, phase.request) else Idle
    case WorkerChecks(k, status) =>
      if k != worker || !phase.Holding? then phase
      else if status.Some? && Stands(status.value, phase.request.credentialGeneration) then Completing(phase.request)
      else Idle
    case WorkerCompletes(k, now, durable) => if k == worker && phase.Completing? then Idle else phase
    case WorkerCrashes(k) => if k == worker then Idle else phase
    case _ => phase
  }

  /** What goes out to the runtime. */
  function Sent(w: World, move: Move): set<Registration> {
    if ConfirmedAbsent(w, move) then {PhaseOf(w, move.worker).request} else {}
  }

  /** A receipt that is held is the one for the request. */
  lemma HeldIsAsked(w: World, request: Registration, receipt: Registered)
    requires ReceiptsOk(w) && PhaseOk(w, Holding(request, receipt))
    ensures receipt.registration == request
  {
    assert IsPrepared(w.store, receipt.registration);
  }

  lemma CheckProceeds(w: World, k: nat, status: Option<ProviderStatus>, worker: nat)
    requires WorldOk(w)
    ensures var move := WorkerChecks(k, status);
            PhaseOf(Next(w, move), worker) == Proceeds(w, move, worker) && Next(w, move).wire == w.wire
  {
    hide StoreOk, ReceiptsOk, PublishedAreReceipted, RejectPublication, CurrentConnection, Stands, PhaseOk;
    WorkerOk(w, k);
    match PhaseOf(w, k) {
      case Holding(request, receipt) =>
        HeldIsAsked(w, request, receipt);
        if status.Some? {
          StandsIs(status.value, request.credentialGeneration);
        }
      case _ =>
    }
  }

  lemma AskProceeds(w: World, k: nat, answered: bool, now: Instant, worker: nat)
    requires WorldOk(w)
    ensures var move := WorkerAsks(k, answered, now);
            && PhaseOf(Next(w, move), worker) == Proceeds(w, move, worker)
            && Next(w, move).wire == w.wire + Sent(w, move)
  {
    hide StoreOk, ReceiptsOk, PublishedAreReceipted, RejectPublication;
    WorkerOk(w, k);
  }

  lemma MoveProceeds(w: World, move: Move, worker: nat)
    requires WorldOk(w)
    ensures PhaseOf(Next(w, move), worker) == Proceeds(w, move, worker)
    ensures Next(w, move).wire == w.wire + Sent(w, move)
  {
    hide WorldOk, RegisterRevision, PreparePublication, SaveDraft, RejectPublication, CompletePublication, Stands,
         Asked, Checked;
    match move {
      case WorkerAsks(k, answered, now) => AskProceeds(w, k, answered, now, worker);
      case WorkerChecks(k, status) => CheckProceeds(w, k, status, worker);
      case _ =>
    }
  }

  /** In every course each worker proceeds like this, and nothing else is ever sent. */
  lemma WorkersProceed(c: Course, i: nat, worker: nat)
    requires Unfolds(c) && i < |c.moves|
    ensures PhaseOf(c.worlds[i + 1], worker) == Proceeds(c.worlds[i], c.moves[i], worker)
    ensures c.worlds[i + 1].wire == c.worlds[i].wire + Sent(c.worlds[i], c.moves[i])
  {
    hide Next, WorldOk, Unfolds, Proceeds, Sent;
    Follows(c, i);
    EveryInterleaving(c, i);
    MoveProceeds(c.worlds[i], c.moves[i], worker);
  }

  /** The active revision only grows, whatever happens. */
  lemma ActiveNeverGoesBack(c: Course, i: nat, j: nat)
    requires Unfolds(c) && i <= j < |c.worlds|
    ensures var before, after := c.worlds[i].store, c.worlds[j].store;
            && CurrentRevision(before) <= CurrentRevision(after)
            && (after.active != before.active ==> CurrentRevision(before) < CurrentRevision(after))
            && OnePending(after.operations)
  {
    hide Next, ReceiptsOk, PublishedAreReceipted, Unfolds;
    EveryInterleaving(c, j);
    LaterWorlds(c, i, j);
  }

  /** The two stores agree on what a candidate is: while its evidence is valid and the runtime
      still holds it, under the same connection, what Admin prepared the runtime registers. */
  lemma PreparedRegisters(s: Store, p: PublicationRequest, at: Instant, vault: VaultState, now: Instant)
    requires StoreOk(s) && PreparePublication(s, p, at).Ok? && PreparePublication(s, p, at).value.Commits?
    requires (p.adapterVersion, p.accountingPolicy) == DeployedContract(p.settings.provider)
    requires p.evidence.id in vault.adapters
    requires vault.adapters[p.evidence.id] ==
             VerifiedAdapter(p.evidence, p.adapterVersion, p.accountingPolicy, Some(p.expectedDraft))
    requires p.settings.provider in vault.connections
    requires vault.connections[p.settings.provider] == Connection(p.settings.provider, p.generation)
    requires at <= now < p.evidence.expiresAt
    requires var o := PreparePublication(s, p, at).value.next.operations[p.operationId];
             p.operationId !in vault.registered && !RevisionTaken(vault.registered, o.revision)
    ensures var o := PreparePublication(s, p, at).value.next.operations[p.operationId];
            RegisterRevision(vault, RequestOf(p.operationId, o), now) ==
            Ok(Write(vault.(registered :=
                            vault.registered[p.operationId := Registered(RequestOf(p.operationId, o), now)]),
                     Registered(RequestOf(p.operationId, o), now)))
  {
    hide PublishProfile, PreparePublication, StoreOk, Highest, HasPending, RevisionTaken, CandidateOk;
    PrepareForm(s, p, at);
    PreparedCandidate(s, p, at);
    var o := PreparePublication(s, p, at).value.next.operations[p.operationId];
    assert CandidateOk(p.operationId, o);
    CandidateFields(p.operationId, o);
    SameProfile(CurrentRevision(s), p, at, o.revision, now);
  }

  lemma CandidateFields(op: Uuid, o: Operation)
    requires CandidateOk(op, o)
    ensures op != NIL && o.revision >= 1 && o.profile.revision == o.revision && o.profile.workspace == "sdlc2"
    ensures o.profile.schemaVersion == 1 && o.expectedDraft >= 1
  {
  }

  /** The candidate is the published profile under its new number. */
  lemma PreparedCandidate(s: Store, p: PublicationRequest, at: Instant)
    requires PreparePublication(s, p, at).Ok? && PreparePublication(s, p, at).value.Commits?
    ensures var o := PreparePublication(s, p, at).value.next.operations[p.operationId];
            var published :=
              PublishProfile(WORKSPACE, CurrentRevision(s), p.expectedRevision, p.settings, p.generation,
                             p.evidence, at);
            && published.Ok? && o.profile == published.value.(revision := o.revision) && o.revision <= I64_MAX
            && o.generation == p.generation && o.expectedDraft == p.expectedDraft
            && o.adapterVersion == p.adapterVersion && o.accountingPolicy == p.accountingPolicy
  {
    hide PublishProfile, Highest, HasPending, Label;
  }

  /** What a profile says depends on the evidence, not on when or after what it is published. */
  lemma SameProfile(current: nat, p: PublicationRequest, at: Instant, revision: nat, now: Instant)
    requires PublishProfile(WORKSPACE, current, p.expectedRevision, p.settings, p.generation, p.evidence, at).Ok?
    requires at <= now < p.evidence.expiresAt && 1 <= revision <= I64_MAX
    ensures var published :=
            PublishProfile(WORKSPACE, current, p.expectedRevision, p.settings, p.generation, p.evidence, at).value;
            && published.provider == p.settings.provider && published.verificationId == p.evidence.id
            && p.settings == p.evidence.settings
            && PublishProfile("sdlc2", revision - 1, revision - 1, p.evidence.settings, p.generation, p.evidence, now)
               == Ok(published.(revision := revision))
  {
    hide ValidateSettings;
  }
}
