/** Admin's store of drafts, immutable profile revisions and the publication outbox
    (infra/src/ai.rs), one workspace of it.  Every method is one transaction, serialised by
    the lock on the active-profile row. */
module Publication {
  import opened Base
  import opened Domain

  const WORKSPACE := "sdlc2"
  const I64_MAX: nat := 0x7FFF_FFFF_FFFF_FFFF

  datatype OperationState = Pending | Published | Rejected

  /** An immutable candidate revision together with its outbox row. */
  datatype Operation = Operation(
    revision: nat, profile: Profile, generation: Uuid, publishedBy: string, expectedRevision: nat,
    expectedDraft: int, evidence: Evidence, adapterVersion: string, accountingPolicy: string, state: OperationState)

  datatype Draft = Draft(model: string, contextWindowTokens: u32, revision: int)

  datatype Store = Store(drafts: map<Provider, Draft>, operations: map<Uuid, Operation>, active: Option<nat>)

  datatype StoreError = OperationConflict | PublicationPending | Refused(error: AiError) | Database

  datatype PublicationRequest = PublicationRequest(
    expectedRevision: nat, expectedDraft: int, operationId: Uuid, actor: string, settings: Settings,
    generation: Uuid, evidence: Evidence, adapterVersion: string, accountingPolicy: string)

  datatype Ack = Ack(operationId: Uuid, profile: Profile, generation: Uuid, adapterVersion: string,
                     accountingPolicy: string)

  /** A transaction that only read, or one that commits a new store. */
  datatype Tx<+T> = Reads(value: T) | Commits(next: Store, value: T)

  function Committed<T>(s: Store, r: Result<Tx<T>, StoreError>, durable: bool): (Store, Result<T, StoreError>) {
    match r
    case Err(e) => (s, Err(e))
    case Ok(Reads(value)) => (s, Ok(value))
    case Ok(Commits(next, value)) => if durable then (next, Ok(value)) else (s, Err(Database))
  }

  predicate Label(value: string) {
    0 < |value| <= 256 && forall i :: 0 <= i < |value| ==> !IsControl(value[i])
  }

  function CurrentRevision(s: Store): nat {
    if s.active.Some? then s.active.value else 0
  }

  predicate HasPending(operations: map<Uuid, Operation>) {
    exists op :: op in operations && operations[op].state == Pending
  }

  /** `max(revision)`, 0 without any. */
  ghost function Highest(operations: map<Uuid, Operation>): (h: nat)
    ensures forall op :: op in operations ==> operations[op].revision <= h
    ensures h == 0 || exists op :: op in operations && operations[op].revision == h
  {
    if operations == map[] then 0
    else
      var op :| op in operations;
      var rest := Highest(operations - {op});
      assert forall k :: k in operations && k != op ==> k in operations - {op};
      if rest <= operations[op].revision then operations[op].revision else rest
  }

  lemma HighestUnique(operations: map<Uuid, Operation>, h: nat)
    requires forall op :: op in operations ==> operations[op].revision <= h
    requires h == 0 || exists op :: op in operations && operations[op].revision == h
    ensures Highest(operations) == h
  {
  }

  predicate DraftMatches(draft: Draft, expected: int, model: string, tokens: u32) {
    draft.revision == expected && draft.model == model && draft.contextWindowTokens == tokens
  }

  /** The same candidate as before, field by field. */
  predicate SameCandidate(o: Operation, p: PublicationRequest) {
    && o.profile.provider == p.settings.provider && o.profile.model == p.settings.model
    && o.profile.contextWindowTokens == p.settings.contextWindowTokens
    && o.publishedBy == p.actor && o.generation == p.generation && o.expectedRevision == p.expectedRevision
    && o.expectedDraft == p.expectedDraft && o.adapterVersion == p.adapterVersion
    && o.accountingPolicy == p.accountingPolicy && o.evidence == p.evidence
  }

  ghost function PreparePublication(s: Store, p: PublicationRequest, now: Instant): Result<Tx<Profile>, StoreError> {
    if p.operationId == NIL || !Label(p.actor) || !Label(p.adapterVersion) || !Label(p.accountingPolicy)
    then Err(StoreError.OperationConflict)
    else if p.operationId in s.operations then
      if SameCandidate(s.operations[p.operationId], p) then Ok(Reads(s.operations[p.operationId].profile))
      else Err(StoreError.OperationConflict)
    else
      :- Guard(!HasPending(s.operations), PublicationPending);
      :- Guard(p.settings.provider in s.drafts, Database);
      :- Guard(DraftMatches(s.drafts[p.settings.provider], p.expectedDraft, p.settings.model,
                            p.settings.contextWindowTokens),
               Refused(RevisionConflict));
      var published :=
        PublishProfile(WORKSPACE, CurrentRevision(s), p.expectedRevision, p.settings, p.generation, p.evidence, now);
      if published.Err? then Err(Refused(published.error))
      else
        var revision := Highest(s.operations) + 1;
        :- Guard(revision <= I64_MAX, Refused(RevisionConflict));
        var profile := published.value.(revision := revision);
        Ok(Commits(s.(operations := s.operations[p.operationId := Candidate(s, p, profile)]), profile))
  }

  function Candidate(s: Store, p: PublicationRequest, profile: Profile): Operation {
    Operation(profile.revision, profile, p.generation, p.actor, CurrentRevision(s), p.expectedDraft, p.evidence,
              p.adapterVersion, p.accountingPolicy, Pending)
  }

  predicate Acknowledges(ack: Ack, o: Operation) {
    ack.profile == o.profile && ack.generation == o.generation && ack.adapterVersion == o.adapterVersion
    && ack.accountingPolicy == o.accountingPolicy
  }

  function CompletePublication(s: Store, ack: Ack, now: Instant): Result<Tx<Profile>, StoreError> {
    if ack.operationId !in s.operations then Err(StoreError.OperationConflict)
    else
      var o := s.operations[ack.operationId];
      :- Guard(Acknowledges(ack, o), StoreError.OperationConflict);
      if o.state == Published then Ok(Reads(o.profile))
      else
        :- Guard(o.state == Pending, StoreError.OperationConflict);
        :- Guard(CurrentRevision(s) == o.expectedRevision, Refused(RevisionConflict));
        :- Guard(o.profile.provider in s.drafts, Database);
        :- Guard(DraftMatches(s.drafts[o.profile.provider], o.expectedDraft, o.profile.model,
                              o.profile.contextWindowTokens),
                 Refused(RevisionConflict));
        :- Guard(o.evidence.expiresAt > now, Refused(VerificationExpired));
        var operations := s.operations[ack.operationId := o.(state := Published)];
        Ok(Commits(s.(operations := operations, active := Some(o.revision)), o.profile))
  }

  function RejectPublication(s: Store, op: Uuid): Result<Tx<()>, StoreError> {
    if op !in s.operations then Err(StoreError.OperationConflict)
    else
      var o := s.operations[op];
      if o.state == Rejected then Ok(Reads(()))
      else if o.state == Published then Err(StoreError.OperationConflict)
      else Ok(Commits(s.(operations := s.operations[op := o.(state := Rejected)]), ()))
  }

  predicate DraftModel(model: string) {
    0 < |model| <= 256 && forall i :: 0 <= i < |model| ==> !IsControl(model[i]) && !IsSpace(model[i])
  }

  function SaveDraft(s: Store, settings: Settings, expected: int): Result<Tx<Draft>, StoreError> {
    if !DraftModel(settings.model) then Err(Refused(InvalidModel))
    else if settings.contextWindowTokens < MIN_AGENT_CONTEXT_WINDOW_TOKENS then Err(Refused(InvalidContextBudget))
    else if expected <= 0 || expected >= I64_MAX then Err(Refused(RevisionConflict))
    else if settings.provider !in s.drafts || s.drafts[settings.provider].revision != expected
         then Err(Refused(RevisionConflict))
    else
      var draft := Draft(settings.model, settings.contextWindowTokens, expected + 1);
      Ok(Commits(s.(drafts := s.drafts[settings.provider := draft]), draft))
  }

  // ----- what every order of transactions keeps -----

  predicate DistinctRevisions(operations: map<Uuid, Operation>) {
    forall a, b :: a in operations && b in operations && a != b ==> operations[a].revision != operations[b].revision
  }

  predicate OnePending(operations: map<Uuid, Operation>) {
    forall a, b :: && a in operations && b in operations
                   && operations[a].state == Pending && operations[b].state == Pending
                   ==> a == b
  }

  /** The pending candidate is the newest revision and was prepared against the active one. */
  predicate PendingIsNewest(s: Store) {
    forall a :: a in s.operations && s.operations[a].state == Pending ==>
      && s.operations[a].expectedRevision == CurrentRevision(s)
      && CurrentRevision(s) < s.operations[a].revision
      && forall b :: b in s.operations && b != a ==> s.operations[b].revision < s.operations[a].revision
  }

  /** The active revision is a published one, the greatest of them. */
  predicate ActiveIsPublished(s: Store) {
    && (s.active.Some? ==>
          exists op :: op in s.operations && s.operations[op].state == Published
              && s.operations[op].revision == s.active.value)
    && (forall op :: op in s.operations && s.operations[op].state == Published ==>
        s.operations[op].revision <= CurrentRevision(s))
  }

  predicate CandidateOk(op: Uuid, o: Operation) {
    && op != NIL && 1 <= o.revision && o.profile.revision == o.revision
    && o.profile.workspace == WORKSPACE && o.profile.schemaVersion == 1 && o.expectedDraft >= 1
  }

  /** Every candidate was made from a draft of its provider, and drafts are never dropped. */
  predicate Drafted(s: Store) {
    forall op :: op in s.operations ==> s.operations[op].profile.provider in s.drafts
  }

  predicate StoreOk(s: Store) {
    && (forall op :: op in s.operations ==> CandidateOk(op, s.operations[op]))
    && (forall p :: p in s.drafts ==> s.drafts[p].revision >= 1)
    && Drafted(s) && DistinctRevisions(s.operations) && OnePending(s.operations) && PendingIsNewest(s)
       && ActiveIsPublished(s)
  }

  /** Candidates are immutable, are decided at most once, and the active revision never goes
      back. */
  predicate StoreExtends(a: Store, b: Store) {
    && (forall op :: op in a.operations ==>
          && op in b.operations && b.operations[op] == a.operations[op].(state := b.operations[op].state)
          && (a.operations[op].state != Pending ==> b.operations[op].state == a.operations[op].state))
    && CurrentRevision(a) <= CurrentRevision(b)
    && (b.active != a.active ==> CurrentRevision(a) < CurrentRevision(b))
  }

  lemma AddCandidate(s: Store, op: Uuid, o: Operation)
    requires StoreOk(s) && op !in s.operations && !HasPending(s.operations) && CandidateOk(op, o)
    requires o.revision == Highest(s.operations) + 1 && o.state == Pending && o.expectedRevision == CurrentRevision(s)
    ensures var next := s.(operations := s.operations[op := o]);
            && DistinctRevisions(next.operations) && OnePending(next.operations)
            && PendingIsNewest(next) && ActiveIsPublished(next)
  {
    hide CandidateOk, Highest;
    assert CurrentRevision(s) <= Highest(s.operations);
    var next := s.(operations := s.operations[op := o]);
    if s.active.Some? {
      var k :| k in s.operations && s.operations[k].state == Published && s.operations[k].revision == s.active.value;
      assert next.operations[k] == s.operations[k];
    }
  }

  lemma PrepareForm(s: Store, p: PublicationRequest, now: Instant)
    requires StoreOk(s) && PreparePublication(s, p, now).Ok? && PreparePublication(s, p, now).value.Commits?
    ensures var (op, o) := (p.operationId, PreparePublication(s, p, now).value.next.operations[p.operationId]);
            && op !in s.operations && !HasPending(s.operations) && CandidateOk(op, o)
            && PreparePublication(s, p, now).value.next == s.(operations := s.operations[op := o])
            && o.profile.provider in s.drafts
            && o.revision == Highest(s.operations) + 1 && o.state == Pending && o.expectedRevision == CurrentRevision(s)
  {
    hide ValidateSettings, Label, Highest, HasPending, DistinctRevisions, OnePending, PendingIsNewest,
         ActiveIsPublished;
  }

  lemma PrepareKeepsStore(s: Store, p: PublicationRequest, now: Instant)
    requires StoreOk(s) && PreparePublication(s, p, now).Ok? && PreparePublication(s, p, now).value.Commits?
    ensures StoreOk(PreparePublication(s, p, now).value.next)
            && StoreExtends(s, PreparePublication(s, p, now).value.next)
  {
    hide PreparePublication, DistinctRevisions, OnePending, PendingIsNewest, ActiveIsPublished, CandidateOk, Highest,
         HasPending;
    PrepareForm(s, p, now);
    AddCandidate(s, p.operationId, PreparePublication(s, p, now).value.next.operations[p.operationId]);
  }

  lemma CompleteKeepsStore(s: Store, ack: Ack, now: Instant)
    requires StoreOk(s) && CompletePublication(s, ack, now).Ok? && CompletePublication(s, ack, now).value.Commits?
    ensures StoreOk(CompletePublication(s, ack, now).value.next)
            && StoreExtends(s, CompletePublication(s, ack, now).value.next)
  {
    var next := CompletePublication(s, ack, now).value.next;
    assert next.operations[ack.operationId].revision == next.active.value;
  }

  lemma RejectCandidate(s: Store, op: Uuid)
    requires StoreOk(s) && op in s.operations && s.operations[op].state == Pending
    ensures var next := s.(operations := s.operations[op := s.operations[op].(state := Rejected)]);
            && DistinctRevisions(next.operations) && OnePending(next.operations)
            && PendingIsNewest(next) && ActiveIsPublished(next)
  {
    hide CandidateOk;
    var next := s.(operations := s.operations[op := s.operations[op].(state := Rejected)]);
    if s.active.Some? {
      var k :| k in s.operations && s.operations[k].state == Published && s.operations[k].revision == s.active.value;
      assert next.operations[k] == s.operations[k];
    }
  }

  lemma RejectKeepsStore(s: Store, op: Uuid)
    requires StoreOk(s) && RejectPublication(s, op).Ok? && RejectPublication(s, op).value.Commits?
    ensures StoreOk(RejectPublication(s, op).value.next) && StoreExtends(s, RejectPublication(s, op).value.next)
  {
    hide DistinctRevisions, OnePending, PendingIsNewest, ActiveIsPublished;
    RejectCandidate(s, op);
  }

  lemma SaveKeepsStore(s: Store, settings: Settings, expected: int)
    requires StoreOk(s) && SaveDraft(s, settings, expected).Ok? && SaveDraft(s, settings, expected).value.Commits?
    ensures StoreOk(SaveDraft(s, settings, expected).value.next)
            && StoreExtends(s, SaveDraft(s, settings, expected).value.next)
  {
    hide DraftModel;
    var next := SaveDraft(s, settings, expected).value.next;
    assert next.operations == s.operations && next.active == s.active;
  }

  /** In a reachable store the completion of an acknowledged pending candidate never meets an
      active revision other than the expected one: it is refused exactly when the draft has
      changed or the evidence has expired. */
  lemma CompletionConflicts(s: Store, ack: Ack, now: Instant)
    requires StoreOk(s) && ack.operationId in s.operations && s.operations[ack.operationId].state == Pending
    requires Acknowledges(ack, s.operations[ack.operationId])
    ensures var o := s.operations[ack.operationId];
            && CurrentRevision(s) == o.expectedRevision && o.profile.provider in s.drafts
            && (CompletePublication(s, ack, now) == Err(Refused(RevisionConflict)) <==>
                  !DraftMatches(s.drafts[o.profile.provider], o.expectedDraft, o.profile.model,
                                o.profile.contextWindowTokens))
            && (CompletePublication(s, ack, now).Ok? <==>
                  && DraftMatches(s.drafts[o.profile.provider], o.expectedDraft, o.profile.model,
                                  o.profile.contextWindowTokens)
                  && now < o.evidence.expiresAt)
  {
  }

  // ----- what each transaction needs, written out -----

  predicate LabelText(value: string) {
    0 < |value| <= 256 && forall i :: 0 <= i < |value| ==> 32 <= value[i] as int != 127
  }

  lemma LabelIs(value: string)
    ensures Label(value) <==> LabelText(value)
  {
    forall i | 0 <= i < |value| ensures !IsControl(value[i]) <==> 32 <= value[i] as int != 127 {
    }
  }

  /** The draft is still the one at this revision, of this model and window. */
  predicate DraftStands(s: Store, provider: Provider, revision: int, model: string, window: u32) {
    && provider in s.drafts && s.drafts[provider].revision == revision && s.drafts[provider].model == model
    && s.drafts[provider].contextWindowTokens == window
  }

  /** The evidence is for these settings under this generation, valid now and for at most a quarter of
      an hour, of a capable model. */
  predicate Evidenced(settings: Settings, generation: Uuid, evidence: Evidence, now: Instant) {
    && evidence.settings == settings && evidence.credentialGeneration == generation
    && evidence.verifiedAt <= now < evidence.expiresAt
    && evidence.expiresAt - evidence.verifiedAt <= 900_000_000_000
    && Capable(settings.model, settings.contextWindowTokens, evidence.capabilities)
  }

  lemma EvidenceIs(current: nat, expected: nat, settings: Settings, generation: Uuid, evidence: Evidence, now: Instant)
    ensures var r := PublishProfile(WORKSPACE, current, expected, settings, generation, evidence, now);
            && (r.Ok? <==>
                  && current == expected < 0xFFFF_FFFF_FFFF_FFFF && Evidenced(settings, generation, evidence, now))
            && (r.Ok? ==>
                  r.value == Profile(1, current + 1, "sdlc2", settings.provider, settings.model,
                                     settings.contextWindowTokens, evidence.id))
  {
    hide ValidateSettings, Capable;
    SettingsAre(settings.model, settings.contextWindowTokens, settings.provider, evidence.capabilities);
  }

  lemma HighestBelow(operations: map<Uuid, Operation>, bound: nat)
    ensures Highest(operations) < bound <==>
            0 < bound && forall op :: op in operations ==> operations[op].revision < bound
  {
    var h := Highest(operations);
    if h > 0 {
      var op :| op in operations && operations[op].revision == h;
    }
  }

  /** One more than the greatest revision there is, 1 when there is none. */
  predicate IsNext(s: Store, revision: nat) {
    && 0 < revision && (forall op :: op in s.operations ==> s.operations[op].revision < revision)
    && (revision == 1 || exists op :: op in s.operations && s.operations[op].revision == revision - 1)
  }

  lemma NextIs(s: Store)
    ensures IsNext(s, Highest(s.operations) + 1)
  {
    hide Highest;
  }

  /** A candidate is newly prepared exactly under a proper label each, with nothing pending, from the
      draft and evidence that stand now, against the active revision, while numbers last; it is read
      back exactly when every term of it is the same. */
  lemma PreparesWhen(s: Store, p: PublicationRequest, now: Instant)
    ensures var r := PreparePublication(s, p, now);
            r.Ok? && r.value.Commits? <==>
            && p.operationId != 0 && LabelText(p.actor) && LabelText(p.adapterVersion) && LabelText(p.accountingPolicy)
            && p.operationId !in s.operations
            && (forall op :: op in s.operations ==>
                  s.operations[op].state != Pending && s.operations[op].revision < 0x7FFF_FFFF_FFFF_FFFF)
            && DraftStands(s, p.settings.provider, p.expectedDraft, p.settings.model, p.settings.contextWindowTokens)
            && p.expectedRevision == CurrentRevision(s) < 0xFFFF_FFFF_FFFF_FFFF
            && Evidenced(p.settings, p.generation, p.evidence, now)
    ensures var r := PreparePublication(s, p, now);
            r.Ok? && r.value.Commits? ==>
              && var profile := r.value.value;
              && profile == Profile(1, profile.revision, "sdlc2", p.settings.provider, p.settings.model,
                                    p.settings.contextWindowTokens, p.evidence.id)
              && IsNext(s, profile.revision)
              && r.value.next ==
                 s.(operations := s.operations[p.operationId :=
                      Operation(profile.revision, profile, p.generation, p.actor, p.expectedRevision, p.expectedDraft,
                                p.evidence, p.adapterVersion, p.accountingPolicy, Pending)])
    ensures var r := PreparePublication(s, p, now);
            r.Ok? && r.value.Reads? <==>
            && p.operationId != 0 && LabelText(p.actor) && LabelText(p.adapterVersion) && LabelText(p.accountingPolicy)
            && p.operationId in s.operations
            && var o := s.operations[p.operationId];
            && o.profile.provider == p.settings.provider && o.profile.model == p.settings.model
            && o.profile.contextWindowTokens == p.settings.contextWindowTokens && o.publishedBy == p.actor
            && o.generation == p.generation && o.expectedRevision == p.expectedRevision
            && o.expectedDraft == p.expectedDraft && o.adapterVersion == p.adapterVersion
            && o.accountingPolicy == p.accountingPolicy && o.evidence == p.evidence
    ensures var r := PreparePublication(s, p, now);
            r.Ok? && r.value.Reads? ==> r.value.value == s.operations[p.operationId].profile
  {
    hide Label, LabelText, Highest, PublishProfile, Evidenced, IsNext;
    NextIs(s);
    LabelIs(p.actor);
    LabelIs(p.adapterVersion);
    LabelIs(p.accountingPolicy);
    HighestBelow(s.operations, 0x7FFF_FFFF_FFFF_FFFF);
    EvidenceIs(CurrentRevision(s), p.expectedRevision, p.settings, p.generation, p.evidence, now);
  }

  /** A pending candidate is completed exactly by an acknowledgement of this very candidate, while the
      revision and the draft it was prepared against stand and its evidence is valid. */
  lemma CompletesWhen(s: Store, ack: Ack, now: Instant)
    ensures var r := CompletePublication(s, ack, now);
            r.Ok? && r.value.Commits? <==>
            && ack.operationId in s.operations
            && var o := s.operations[ack.operationId];
            && o.state == Pending && ack.profile == o.profile && ack.generation == o.generation
            && ack.adapterVersion == o.adapterVersion && ack.accountingPolicy == o.accountingPolicy
            && CurrentRevision(s) == o.expectedRevision
            && DraftStands(s, o.profile.provider, o.expectedDraft, o.profile.model, o.profile.contextWindowTokens)
            && now < o.evidence.expiresAt
    ensures var r := CompletePublication(s, ack, now);
            r.Ok? && r.value.Commits? ==>
              var o := s.operations[ack.operationId];
              && r.value.value == o.profile
              && r.value.next == s.(operations := s.operations[ack.operationId := o.(state := Published)],
                                    active := Some(o.revision))
  {
  }

  /** Only a pending candidate can be rejected; one that was rejected stays so, a published one is
      refused. */
  lemma RejectsWhen(s: Store, op: Uuid)
    ensures var r := RejectPublication(s, op);
            && (r.Ok? <==> op in s.operations && s.operations[op].state in {Pending, Rejected})
            && (r.Ok? && r.value.Reads? <==> op in s.operations && s.operations[op].state == Rejected)
            && (r.Ok? && r.value.Commits? ==>
                  r.value.next == s.(operations := s.operations[op := s.operations[op].(state := Rejected)]))
  {
  }

  /** A draft is saved exactly over the revision it was read at, for a model text without white space
      and a window of at least 64000 tokens. */
  lemma SavesWhen(s: Store, settings: Settings, expected: int)
    ensures var r := SaveDraft(s, settings, expected);
            && (r.Ok? <==>
                  && 0 < |settings.model| <= 256
                  && (forall i :: 0 <= i < |settings.model| ==> 33 <= settings.model[i] as int != 127)
                  && 64_000 <= settings.contextWindowTokens && 0 < expected < 0x7FFF_FFFF_FFFF_FFFF
                  && settings.provider in s.drafts && s.drafts[settings.provider].revision == expected)
            && (r.Ok? ==>
                  r.value.Commits? && r.value.next ==
                  s.(drafts := s.drafts[settings.provider :=
                                 Draft(settings.model, settings.contextWindowTokens, expected + 1)]))
  {
    forall i | 0 <= i < |settings.model|
      ensures !IsControl(settings.model[i]) && !IsSpace(settings.model[i]) <==> 33 <= settings.model[i] as int != 127
    {
    }
  }

  // ----- the store object -----

  class AiStore {
    var drafts: map<Provider, Draft>
    var operations: map<Uuid, Operation>
    var active: Option<nat>

    function View(): Store
      reads this
    {
      Store(drafts, operations, active)
    }

    /** `initialize_registry`: one draft per provider, nothing published. */
    constructor (chatgpt: Draft, openrouter: Draft)
      requires chatgpt.revision >= 1 && openrouter.revision >= 1
      ensures StoreOk(View()) && View() == Store(map[Chatgpt := chatgpt, Openrouter := openrouter], map[], None)
    {
      drafts, operations, active := map[Chatgpt := chatgpt, Openrouter := openrouter], map[], None;
    }

    method AnyPending() returns (pending: bool)
      ensures pending == HasPending(operations)
    {
      var todo := operations.Keys;
      while todo != {}
        invariant todo <= operations.Keys
        invariant forall op :: op in operations && op !in todo ==> operations[op].state != Pending
      {
        var op :| op in todo;
        if operations[op].state == Pending {
          return true;
        }
        todo := todo - {op};
      }
      return false;
    }

    method MaxRevision() returns (highest: nat)
      ensures highest == Highest(operations)
    {
      hide Highest;
      highest := 0;
      var todo := operations.Keys;
      while todo != {}
        invariant todo <= operations.Keys
        invariant forall op :: op in operations && op !in todo ==> operations[op].revision <= highest
        invariant highest == 0 || exists op :: op in operations && operations[op].revision == highest
      {
        var op :| op in todo;
        if operations[op].revision > highest {
          highest := operations[op].revision;
        }
        todo := todo - {op};
      }
      HighestUnique(operations, highest);
    }

    method Prepare(p: PublicationRequest, now: Instant, durable: bool) returns (r: Result<Profile, StoreError>)
      requires StoreOk(View())
      modifies this
      ensures StoreOk(View())
      ensures (View(), r) == Committed(old(View()), PreparePublication(old(View()), p, now), durable)
    {
      hide StoreOk, Highest, HasPending, Label, PublishProfile;
      ghost var before := View();
      if p.operationId == NIL || !Label(p.actor) || !Label(p.adapterVersion) || !Label(p.accountingPolicy) {
        return Err(StoreError.OperationConflict);
      }
      if p.operationId in operations {
        return if SameCandidate(operations[p.operationId], p) then Ok(operations[p.operationId].profile)
          else Err(StoreError.OperationConflict);
      }
      var pending := AnyPending();
      if pending {
        return Err(PublicationPending);
      }
      if p.settings.provider !in drafts {
        return Err(Database);
      }
      if !DraftMatches(drafts[p.settings.provider], p.expectedDraft, p.settings.model, p.settings.contextWindowTokens) {
        return Err(Refused(RevisionConflict));
      }
      var current := if active.Some? then active.value else 0;
      var published :=
        PublishProfile(WORKSPACE, current, p.expectedRevision, p.settings, p.generation, p.evidence, now);
      if published.Err? {
        return Err(Refused(published.error));
      }
      var highest := MaxRevision();
      if highest + 1 > I64_MAX {
        return Err(Refused(RevisionConflict));
      }
      var profile := published.value.(revision := highest + 1);
      if !durable {
        return Err(Database);
      }
      PrepareKeepsStore(View(), p, now);
      operations := operations[p.operationId :=
        Operation(profile.revision, profile, p.generation, p.actor, current, p.expectedDraft, p.evidence,
                  p.adapterVersion, p.accountingPolicy, Pending)];
      assert View() == PreparePublication(before, p, now).value.next;
      return Ok(profile);
    }

    method Complete(ack: Ack, now: Instant, durable: bool) returns (r: Result<Profile, StoreError>)
      requires StoreOk(View())
      modifies this
      ensures StoreOk(View())
      ensures (View(), r) == Committed(old(View()), CompletePublication(old(View()), ack, now), durable)
    {
      hide StoreOk;
      ghost var before := View();
      if ack.operationId !in operations {
        return Err(StoreError.OperationConflict);
      }
      var o := operations[ack.operationId];
      if !Acknowledges(ack, o) {
        return Err(StoreError.OperationConflict);
      }
      if o.state == Published {
        return Ok(o.profile);
      }
      if o.state != Pending {
        return Err(StoreError.OperationConflict);
      }
      var current := if active.Some? then active.value else 0;
      if current != o.expectedRevision {
        return Err(Refused(RevisionConflict));
      }
      if o.profile.provider !in drafts {
        return Err(Database);
      }
      if !DraftMatches(drafts[o.profile.provider], o.expectedDraft, o.profile.model, o.profile.contextWindowTokens) {
        return Err(Refused(RevisionConflict));
      }
      if o.evidence.expiresAt <= now {
        return Err(Refused(VerificationExpired));
      }
      if !durable {
        return Err(Database);
      }
      CompleteKeepsStore(View(), ack, now);
      active := Some(o.revision);
      operations := operations[ack.operationId := o.(state := Published)];
      assert View() == CompletePublication(before, ack, now).value.next;
      return Ok(o.profile);
    }

    method Reject(op: Uuid, durable: bool) returns (r: Result<(), StoreError>)
      requires StoreOk(View())
      modifies this
      ensures StoreOk(View())
      ensures (View(), r) == Committed(old(View()), RejectPublication(old(View()), op), durable)
    {
      hide StoreOk;
      ghost var before := View();
      if op !in operations {
        return Err(StoreError.OperationConflict);
      }
      match operations[op].state {
        case Rejected =>
          return Ok(());
        case Published =>
          return Err(StoreError.OperationConflict);
        case Pending =>
          if !durable {
            return Err(Database);
          }
          RejectKeepsStore(View(), op);
          operations := operations[op := operations[op].(state := Rejected)];
          assert View() == RejectPublication(before, op).value.next;
          return Ok(());
      }
    }
  }
}
