/** Secret-free profiles, verification evidence and context budgets (domain/src/ai.rs). */
module Domain {
  import opened Base
  import opened Decimal

  const MIN_AGENT_CONTEXT_WINDOW_TOKENS: u32 := 64_000

  datatype Provider = Chatgpt | Openrouter

  datatype Settings = Settings(provider: Provider, model: string, contextWindowTokens: u32)

  datatype Capabilities = Capabilities(
    model: string, contextLimitTokens: u32, maxOutputTokens: u32,
    tools: bool, structuredOutput: bool, streaming: bool, cancellation: bool)

  datatype Evidence = Evidence(
    id: Uuid, settings: Settings, credentialGeneration: Uuid, capabilities: Capabilities,
    verifiedAt: Instant, expiresAt: Instant)

  /** Runtime-owned proof that an adapter was verified. */
  datatype VerifiedAdapter = VerifiedAdapter(
    evidence: Evidence, adapterVersion: string, accountingPolicy: string, draftRevision: Option<int>)

  datatype Profile = Profile(
    schemaVersion: nat, revision: nat, workspace: string, provider: Provider, model: string,
    contextWindowTokens: u32, verificationId: Uuid)

  datatype Registration = Registration(
    schemaVersion: nat, operationId: Uuid, draftRevision: int, profile: Profile,
    credentialGeneration: Uuid, adapterVersion: string, accountingPolicy: string)

  datatype Registered = Registered(registration: Registration, registeredAt: Instant)

  datatype AiError =
    | InvalidModel
    | InvalidContextBudget
    | ContextExceedsModelLimit
    | OutputExceedsModelLimit
    | RequiredContextExceedsBudget
    | RequiredCapabilityMissing
    | ConfigurationNotVerified
    | VerificationExpired
    | ConnectionChanged
    | RevisionConflict
    | InvalidWorkspace

  predicate IsSpace(c: char) {
    c == ' ' || '\t' <= c <= '\r'
  }

  predicate IsControl(c: char) {
    c < ' ' || c == 0x7F as char
  }

  predicate ModelName(model: string) {
    && 0 < |model| <= 256
    && !IsSpace(model[0]) && !IsSpace(model[|model| - 1])
    && forall i :: 0 <= i < |model| ==> !IsControl(model[i])
  }

  // ----- ContextBudget -----

  function NewContextBudget(configured: u32, model: Capabilities): Result<(u32, u32), AiError> {
    if configured == 0 || model.contextLimitTokens == 0 || model.maxOutputTokens == 0 then Err(InvalidContextBudget)
    else if configured > model.contextLimitTokens then Err(ContextExceedsModelLimit)
    else Ok((configured, model.maxOutputTokens))
  }

  function InputLimit(budget: (u32, u32), reserve: u32): Result<u32, AiError> {
    if reserve == 0 || reserve > budget.1 then Err(OutputExceedsModelLimit)
    else if reserve >= budget.0 then Err(InvalidContextBudget)
    else Ok(budget.0 - reserve)
  }

  function CheckContext(configured: u32, model: Capabilities, input: nat, reserve: u32): Check<AiError> {
    match NewContextBudget(configured, model)
    case Err(e) => Fail(e)
    case Ok(budget) =>
      match InputLimit(budget, reserve)
      case Err(e) => Fail(e)
      case Ok(limit) => if input > limit then Fail(RequiredContextExceedsBudget) else Pass
  }

  function ValidateSettings(settings: Settings, capabilities: Capabilities): Check<AiError> {
    if !ModelName(settings.model) || settings.model != capabilities.model then Fail(InvalidModel)
    else if settings.contextWindowTokens < MIN_AGENT_CONTEXT_WINDOW_TOKENS then Fail(InvalidContextBudget)
    else match NewContextBudget(settings.contextWindowTokens, capabilities)
         case Err(e) => Fail(e)
         case Ok(_) =>
           if !(capabilities.tools && capabilities.structuredOutput && capabilities.streaming
                && capabilities.cancellation)
           then Fail(RequiredCapabilityMissing) else Pass
  }

  function PublishProfile(workspace: string, current: nat, expected: nat, settings: Settings, generation: Uuid,
                          evidence: Evidence, now: Instant): Result<Profile, AiError>
  {
    if workspace != "sdlc1" && workspace != "sdlc2" then Err(InvalidWorkspace)
    else if current != expected then Err(RevisionConflict)
    else if settings != evidence.settings then Err(ConfigurationNotVerified)
    else if generation != evidence.credentialGeneration then Err(ConnectionChanged)
    else if || evidence.verifiedAt > now || evidence.expiresAt <= now
            || evidence.verifiedAt >= evidence.expiresAt
            || evidence.expiresAt - evidence.verifiedAt > FIFTEEN_MINUTES
    then Err(VerificationExpired)
    else match ValidateSettings(settings, evidence.capabilities)
         case Fail(e) => Err(e)
         case Pass =>
           if current >= U64_MAX then Err(RevisionConflict)
           else Ok(Profile(1, current + 1, workspace, settings.provider, settings.model,
                           settings.contextWindowTokens, evidence.id))
  }

  // ----- the same in terms of characters and numbers -----

  /** A model text without control characters, not beginning or ending with white space, of a model
      that has everything agents need, with room for the window. */
  predicate Capable(model: string, window: u32, c: Capabilities) {
    && 0 < |model| <= 256 && (forall i :: 0 <= i < |model| ==> 32 <= model[i] as int != 127)
    && model[0] != ' ' && model[|model| - 1] != ' '
    && c.model == model && 64_000 <= window <= c.contextLimitTokens && 0 < c.maxOutputTokens
    && c.tools && c.structuredOutput && c.streaming && c.cancellation
  }

  lemma ModelText(model: string)
    ensures ModelName(model) <==>
            && 0 < |model| <= 256 && (forall i :: 0 <= i < |model| ==> 32 <= model[i] as int != 127)
            && model[0] != ' ' && model[|model| - 1] != ' '
  {
    if ModelName(model) {
      forall i | 0 <= i < |model| ensures 32 <= model[i] as int != 127 {
        assert !IsControl(model[i]);
      }
    } else if 0 < |model| <= 256 && forall i :: 0 <= i < |model| ==> 32 <= model[i] as int != 127 {
      assert forall i :: 0 <= i < |model| ==> !IsControl(model[i]);
    }
  }

  lemma SettingsAre(model: string, window: u32, provider: Provider, c: Capabilities)
    ensures ValidateSettings(Settings(provider, model, window), c) == Pass <==> Capable(model, window, c)
  {
    hide ModelName;
    ModelText(model);
  }

  // ----- AcceptanceBudget -----

  datatype AcceptanceBudget = AcceptanceBudget(
    schemaVersion: nat, workspace: string, currency: string,
    limitMicrodollars: string, settledMicrodollars: string, reservedMicrodollars: string,
    uncertainMicrodollars: string, availableMicrodollars: string,
    unsettledRequests: nat, uncertainRequests: nat, blockedReason: Option<string>)

  const EXHAUSTED := "ai_acceptance_budget_exhausted"
  const OVERRUN := "provider_cost_exceeds_reservation"

  /** An amount is a canonical decimal: it parses, and prints back as the same text. */
  function CanonicalAmount(text: string): Option<u64> {
    var parsed := ParseU64(text);
    if parsed.Some? && Print(parsed.value) == text then parsed else None
  }

  function SaturatingSub(a: nat, b: nat): nat {
    if a >= b then a - b else 0
  }

  /** `AcceptanceBudget::valid_for`: the check a reader of the summary makes. */
  predicate ValidFor(b: AcceptanceBudget, workspace: string) {
    var limit, settled, reserved := CanonicalAmount(b.limitMicrodollars),
      CanonicalAmount(b.settledMicrodollars), CanonicalAmount(b.reservedMicrodollars);
    var uncertain, available := CanonicalAmount(b.uncertainMicrodollars), CanonicalAmount(b.availableMicrodollars);
    && limit.Some? && settled.Some? && reserved.Some? && uncertain.Some? && available.Some?
    && settled.value + reserved.value <= U64_MAX
    && var committed := settled.value + reserved.value;
    && b.schemaVersion == 1 && b.workspace == workspace && b.currency == "USD"
    && limit.value == 30_000_000
    && uncertain.value <= reserved.value
    && b.uncertainRequests <= b.unsettledRequests
    && (uncertain.value == 0 <==> b.uncertainRequests == 0)
    && (reserved.value == 0 <==> b.unsettledRequests == 0)
    && available.value == SaturatingSub(limit.value, committed)
    && match b.blockedReason {
         case None => committed < limit.value
         case Some(reason) => (reason == EXHAUSTED && committed >= limit.value) || reason == OVERRUN
       }
  }

  lemma PrintedIsCanonical(n: u64)
    ensures CanonicalAmount(Print(n)) == Some(n)
  {
    PrintParses(n);
  }

  /** The summary is printed from these amounts, which add up with it. */
  predicate PrintedFrom(b: AcceptanceBudget, workspace: string, settled: u64, reserved: u64, uncertain: u64) {
    var committed := settled + reserved;
    && committed <= 0xFFFF_FFFF_FFFF_FFFF && uncertain <= reserved
    && b == AcceptanceBudget(1, workspace, "USD", Print(30_000_000), Print(settled), Print(reserved), Print(uncertain),
                             Print(if committed <= 30_000_000 then 30_000_000 - committed else 0), b.unsettledRequests,
                             b.uncertainRequests, b.blockedReason)
    && b.uncertainRequests <= b.unsettledRequests
    && (uncertain == 0 <==> b.uncertainRequests == 0) && (reserved == 0 <==> b.unsettledRequests == 0)
    && (b.blockedReason == None ==> committed < 30_000_000)
    && (b.blockedReason.Some? ==>
          || b.blockedReason.value == "provider_cost_exceeds_reservation"
          || (b.blockedReason.value == "ai_acceptance_budget_exhausted" && 30_000_000 <= committed))
  }

  /** A reader accepts exactly the summaries that are printed from amounts that add up. */
  lemma ReadersCheck(b: AcceptanceBudget, workspace: string)
    ensures ValidFor(b, workspace) <==>
            exists settled: u64, reserved: u64, uncertain: u64 ::
              PrintedFrom(b, workspace, settled, reserved, uncertain)
  {
    hide Print, ParseU64;
    if ValidFor(b, workspace) {
      assert PrintedFrom(b, workspace, CanonicalAmount(b.settledMicrodollars).value,
                         CanonicalAmount(b.reservedMicrodollars).value, CanonicalAmount(b.uncertainMicrodollars).value);
    }
    if settled: u64, reserved: u64, uncertain: u64 :| PrintedFrom(b, workspace, settled, reserved, uncertain) {
      PrintedReads(b, workspace, settled, reserved, uncertain);
    }
  }

  lemma PrintedReads(b: AcceptanceBudget, workspace: string, settled: u64, reserved: u64, uncertain: u64)
    requires PrintedFrom(b, workspace, settled, reserved, uncertain)
    ensures ValidFor(b, workspace)
  {
    hide Print, ParseU64, CanonicalAmount;
    PrintedIsCanonical(30_000_000);
    PrintedIsCanonical(settled);
    PrintedIsCanonical(reserved);
    PrintedIsCanonical(uncertain);
    PrintedIsCanonical(if settled + reserved <= 30_000_000 then 30_000_000 - (settled + reserved) else 0);
  }

  /** The checks of a context budget amount to this: input and reserved output fit together into
      the configured window, the window into the model's limit, the reserve into its output. */
  lemma ContextFits(configured: u32, model: Capabilities, input: nat, reserve: u32)
    ensures CheckContext(configured, model, input, reserve) == Pass <==>
            && 0 < reserve <= model.maxOutputTokens && reserve < configured
            && input + reserve <= configured <= model.contextLimitTokens
  {
  }
}
