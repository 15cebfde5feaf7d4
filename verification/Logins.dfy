/** All interleavings of the login and withdrawal handlers, with crashes and restarts. */
module Logins {
  import opened Base
  import opened Domain
  import opened Login

  /** Whether a process serves, and whether with a native client: one that failed to start the
      native process serves all the same. */
  datatype Process = Down | Bare | Native

  /** The vault, the process, and the handlers that wait for the native client.  Waiting handlers
      die with their process. */
  datatype System = System(
    accounts: Accounts, process: Process, starting: set<Uuid>, cancelling: set<Uuid>, disconnecting: set<Uuid>,
    expiring: set<Uuid>)

  /** Any commit may fail, in which case nothing changed. */
  datatype Move =
    | StartBegins(op: Uuid, now: Instant, durable: bool)
    | StartEnds(op: Uuid, answer: DeviceAnswer, durable: bool)
    | CancelBegins(op: Uuid, durable: bool)
    | CancelEnds(op: Uuid, confirmed: bool, durable: bool)
    | CancelUnanswered(op: Uuid)
    | DisconnectBegins(op: Uuid, durable: bool)
    | DisconnectEnds(op: Uuid, confirmed: bool, durable: bool)
    | LoginCompletes(op: Uuid, id: Uuid, success: bool, auth: Result<Uuid, RuntimeError>, now: Instant, durable: bool)
    | ExpiryBegins(now: Instant, durable: bool)
    | ExpiryEnds(op: Uuid, confirmed: bool, durable: bool)
    | EntersCredential(op: Uuid, fingerprint: string, generation: Uuid, durable: bool)
    | RemovesCredential(op: Uuid, durable: bool)
    | Crash
    | Startup(account: NativeAccount, now: Instant, durable: bool)
    | StartupBare

  function Kept(s: Accounts, r: Result<Accounts, RuntimeError>, durable: bool): Accounts {
    if r.Ok? && durable then r.value else s
  }

  /** A withdrawal commits before it looks for the native client; only with one does it wait. */
  function Disconnecting(w: System, op: Uuid): System
    requires BeginDisconnect(w.accounts, op).Ok?
  {
    var next := w.(accounts := BeginDisconnect(w.accounts, op).value.next);
    if w.process == Native then next.(disconnecting := w.disconnecting + {op}) else next
  }

  function Step(w: System, move: Move): System {
    var s, native := w.accounts, w.process == Native;
    match move
    case StartBegins(op, now, durable) =>
      if Begins(w, move) then w.(accounts := BeginStart(s, op, now).value.next, starting := w.starting + {op}) else w
    case StartEnds(op, answer, durable) =>
      if op in w.starting
      then w.(accounts := Kept(s, EndStart(s, op, answer), durable), starting := w.starting - {op}) else w
    case CancelBegins(op, durable) =>
      if native && durable && BeginCancel(s, op).Ok? && BeginCancel(s, op).value.value == CallNative
      then w.(accounts := BeginCancel(s, op).value.next, cancelling := w.cancelling + {op}) else w
    case CancelEnds(op, confirmed, durable) =>
      if op in w.cancelling
      then w.(accounts := Kept(s, EndCancel(s, op, confirmed), durable), cancelling := w.cancelling - {op}) else w
    case CancelUnanswered(op) => w.(cancelling := w.cancelling - {op})
    case DisconnectBegins(op, durable) => if Withdraws(w, move) then Disconnecting(w, op) else w
    case DisconnectEnds(op, confirmed, durable) =>
      if op in w.disconnecting
      then w.(accounts := Kept(s, EndDisconnect(s, op, confirmed), durable), disconnecting := w.disconnecting - {op})
      else w
    case LoginCompletes(op, id, success, auth, now, durable) =>
      if native then w.(accounts := Kept(s, CheckpointLogin(s, op, id, success, auth, now), durable)) else w
    case ExpiryBegins(now, durable) =>
      if native && durable
      then w.(accounts := BeginExpire(s, now).0, expiring := w.expiring + BeginExpire(s, now).1) else w
    case ExpiryEnds(op, confirmed, durable) =>
      if op in w.expiring
      then w.(accounts := Kept(s, EndExpire(s, op, confirmed), durable), expiring := w.expiring - {op}) else w
    case EntersCredential(op, fingerprint, generation, durable) =>
      if w.process != Down then w.(accounts := Kept(s, SetOpenrouter(s, op, fingerprint, generation), durable)) else w
    case RemovesCredential(op, durable) =>
      if w.process != Down then w.(accounts := Kept(s, DisconnectOpenrouter(s, op), durable)) else w
    case Crash => System(s, Down, {}, {}, {}, {})
    case Startup(account, now, durable) =>
      if w.process == Down && durable && ReconcileStartup(s, account, now).Ok?
      then w.(accounts := ReconcileStartup(s, account, now).value, process := Native) else w
    case StartupBare => if w.process == Down then w.(process := Bare) else w
  }

  /** A new login begins. */
  predicate Begins(w: System, move: Move) {
    move.StartBegins? && w.process == Native && move.durable && BeginStart(w.accounts, move.op, move.now).Ok?
    && BeginStart(w.accounts, move.op, move.now).value.value == CallNative
  }

  /** A withdrawal begins. */
  predicate Withdraws(w: System, move: Move) {
    move.DisconnectBegins? && w.process != Down && move.durable && BeginDisconnect(w.accounts, move.op).Ok?
    && BeginDisconnect(w.accounts, move.op).value.value == CallNative
  }

  /** A login completes and its authorization becomes the connection. */
  predicate Connects(w: System, move: Move) {
    && move.LoginCompletes? && w.process == Native && move.durable && move.success && move.auth.Ok?
    && move.op in w.accounts.logins && Concerns(w.accounts.logins[move.op], move.id)
    && move.now < w.accounts.logins[move.op].expiresAt
  }

  const NO_ACCOUNTS: Accounts := Accounts(map[], map[], map[], None, None)
  const FIRST: System := System(NO_ACCOUNTS, Down, {}, {}, {}, {})

  /** A course of events: move i leads from system i to system i + 1. */
  datatype Course = Course(systems: seq<System>, moves: seq<Move>)

  predicate Moves(c: Course, i: nat)
    requires i < |c.moves| && |c.systems| == |c.moves| + 1
  {
    c.systems[i + 1] == Step(c.systems[i], c.moves[i])
  }

  /** Any moves in any order, from the empty vault. */
  predicate Unfolds(c: Course) {
    && |c.systems| == |c.moves| + 1 && c.systems[0] == FIRST
    && forall i {:trigger Moves(c, i)} :: 0 <= i < |c.moves| ==> Moves(c, i)
  }

  // ----- what every interleaving keeps -----

  predicate AtMostOneLive(s: Accounts) {
    forall a, b :: a in s.logins && b in s.logins && Live(s.logins[a].status) && Live(s.logins[b].status) ==> a == b
  }

  predicate AnyLive(s: Accounts) {
    exists op :: op in s.logins && Live(s.logins[op].status)
  }

  predicate OneWithdrawal(s: Accounts) {
    forall a, b :: a in s.withdrawals && b in s.withdrawals && Unfinished(s, a) && Unfinished(s, b) ==> a == b
  }

  predicate AccountsOk(s: Accounts) {
    && AtMostOneLive(s)
    && (s.connection.Some? ==> !AnyLive(s))
    && (Withdrawing(s) ==> s.connection.None? && !AnyLive(s))
    && OneWithdrawal(s)
    && (forall op :: op in s.logins && s.logins[op].status == Pending ==> s.logins[op].loginId.Some?)
    && (forall op :: op in s.logins && s.logins[op].status == Starting ==> s.logins[op].loginId.None?)
    && OneUse(s)
  }

  /** No operation id is used for two things. */
  predicate OneUse(s: Accounts) {
    s.logins.Keys !! s.withdrawals.Keys !! s.credentials.Keys
  }

  /** Which logins and withdrawals the waiting handlers are about. */
  predicate HandlersOk(w: System) {
    && (w.process != Native ==> w.starting == {} && w.cancelling == {} && w.disconnecting == {} && w.expiring == {})
    && w.starting <= w.accounts.logins.Keys && w.expiring <= w.accounts.logins.Keys
    && (forall op :: op in w.disconnecting ==>
          Unfinished(w.accounts, op) && w.accounts.withdrawals[op].status == Underway)
    && (forall op :: op in w.cancelling ==>
          op in w.accounts.logins
              && (w.accounts.logins[op].status == Cancelling || w.accounts.logins[op].status == Revoked))
  }

  predicate SystemOk(w: System) {
    AccountsOk(w.accounts) && HandlersOk(w)
  }

  /** Logins and withdrawals are never forgotten. */
  predicate Grows(a: Accounts, b: Accounts) {
    a.logins.Keys <= b.logins.Keys && a.withdrawals.Keys <= b.withdrawals.Keys
        && a.credentials.Keys <= b.credentials.Keys
  }

  lemma StartKeeps(s: Accounts, op: Uuid, now: Instant)
    requires AccountsOk(s) && BeginStart(s, op, now).Ok?
    ensures AccountsOk(BeginStart(s, op, now).value.next)
  {
  }

  lemma StartedKeeps(s: Accounts, op: Uuid, answer: DeviceAnswer)
    requires AccountsOk(s) && EndStart(s, op, answer).Ok?
    ensures AccountsOk(EndStart(s, op, answer).value)
  {
  }

  /** A new status that cannot complete on its own. */
  lemma SettleKeeps(s: Accounts, op: Uuid, status: Status)
    requires AccountsOk(s) && op in s.logins && !Live(status)
    ensures AccountsOk(SetStatus(s, op, status))
  {
  }

  lemma DisconnectKeeps(s: Accounts, op: Uuid)
    requires AccountsOk(s) && BeginDisconnect(s, op).Ok?
    ensures AccountsOk(BeginDisconnect(s, op).value.next)
  {
  }

  lemma DisconnectedKeeps(s: Accounts, op: Uuid, confirmed: bool)
    requires AccountsOk(s) && Unfinished(s, op)
    ensures EndDisconnect(s, op, confirmed).Ok? && AccountsOk(EndDisconnect(s, op, confirmed).value)
  {
    var next := EndDisconnect(s, op, confirmed).value;
    assert forall k :: Unfinished(next, k) && k != op ==> Unfinished(s, k);
    assert Withdrawing(s);
    assert next.logins == s.logins;
  }

  lemma CompletesKeeps(s: Accounts, op: Uuid, id: Uuid, success: bool, auth: Result<Uuid, RuntimeError>, now: Instant)
    requires AccountsOk(s) && CheckpointLogin(s, op, id, success, auth, now).Ok?
    ensures AccountsOk(CheckpointLogin(s, op, id, success, auth, now).value)
  {
    var next := CheckpointLogin(s, op, id, success, auth, now).value;
    if op in s.logins && Concerns(s.logins[op], id) {
      assert forall k :: k in s.logins && k != op ==> !Live(s.logins[k].status);
      assert AnyLive(s);
      assert forall k :: k in next.logins ==> !Live(next.logins[k].status);
    }
  }

  lemma ExpiryKeeps(s: Accounts, now: Instant)
    requires AccountsOk(s)
    ensures AccountsOk(BeginExpire(s, now).0)
  {
    var next := BeginExpire(s, now).0;
    assert forall k :: k in next.logins && Live(next.logins[k].status) ==> Live(s.logins[k].status);
  }

  lemma StartupKeeps(s: Accounts, account: NativeAccount, now: Instant)
    requires AccountsOk(s) && ReconcileStartup(s, account, now).Ok?
    ensures AccountsOk(ReconcileStartup(s, account, now).value)
  {
    var next := ReconcileStartup(s, account, now).value;
    assert forall k :: k in next.logins ==> !Live(next.logins[k].status);
  }

  lemma EntersKeeps(s: Accounts, op: Uuid, fingerprint: string, generation: Uuid)
    requires AccountsOk(s) && SetOpenrouter(s, op, fingerprint, generation).Ok?
    ensures AccountsOk(SetOpenrouter(s, op, fingerprint, generation).value)
  {
    var next := SetOpenrouter(s, op, fingerprint, generation).value;
    assert forall k :: Unfinished(next, k) ==> Unfinished(s, k);
  }

  lemma RemovesKeeps(s: Accounts, op: Uuid)
    requires AccountsOk(s) && DisconnectOpenrouter(s, op).Ok?
    ensures AccountsOk(DisconnectOpenrouter(s, op).value)
  {
    var next := DisconnectOpenrouter(s, op).value;
    assert forall k :: Unfinished(next, k) ==> Unfinished(s, k);
  }

  lemma StepGrows(w: System, move: Move)
    ensures Grows(w.accounts, Step(w, move).accounts)
  {
    hide AnyUndecided, Withdrawing, Undecided;
  }

  lemma StepKeepsHandlers(w: System, move: Move)
    requires SystemOk(w)
    ensures HandlersOk(Step(w, move))
  {
    hide AccountsOk, AnyUndecided, Withdrawing;
  }

  lemma StepKeeps(w: System, move: Move)
    requires SystemOk(w)
    ensures SystemOk(Step(w, move)) && Grows(w.accounts, Step(w, move).accounts)
  {
    hide AccountsOk, BeginStart, EndStart, BeginDisconnect, EndDisconnect, CheckpointLogin, BeginExpire,
         ReconcileStartup, SetOpenrouter, DisconnectOpenrouter;
    StepGrows(w, move);
    StepKeepsHandlers(w, move);
    var s := w.accounts;
    match move {
      case StartBegins(op, now, durable) =>
        if BeginStart(s, op, now).Ok? { StartKeeps(s, op, now); }
      case StartEnds(op, answer, durable) =>
        if EndStart(s, op, answer).Ok? { StartedKeeps(s, op, answer); }
      case CancelBegins(op, durable) =>
        if op in s.logins { SettleKeeps(s, op, Cancelling); }
      case CancelEnds(op, confirmed, durable) =>
        if op in s.logins { SettleKeeps(s, op, if confirmed then Cancelled else Uncertain); }
      case CancelUnanswered(op) =>
      case DisconnectBegins(op, durable) =>
        if BeginDisconnect(s, op).Ok? { DisconnectKeeps(s, op); }
      case DisconnectEnds(op, confirmed, durable) =>
        if op in w.disconnecting { DisconnectedKeeps(s, op, confirmed); }
      case LoginCompletes(op, id, success, auth, now, durable) =>
        if CheckpointLogin(s, op, id, success, auth, now).Ok? { CompletesKeeps(s, op, id, success, auth, now); }
      case ExpiryBegins(now, durable) =>
        ExpiryKeeps(s, now);
      case ExpiryEnds(op, confirmed, durable) =>
        if op in s.logins { SettleKeeps(s, op, if confirmed then Expired else Uncertain); }
      case EntersCredential(op, fingerprint, generation, durable) =>
        if SetOpenrouter(s, op, fingerprint, generation).Ok? { EntersKeeps(s, op, fingerprint, generation); }
      case RemovesCredential(op, durable) =>
        if DisconnectOpenrouter(s, op).Ok? { RemovesKeeps(s, op); }
      case Crash =>
      case Startup(account, now, durable) =>
        if ReconcileStartup(s, account, now).Ok? { StartupKeeps(s, account, now); }
      case StartupBare =>
    }
  }

  lemma {:induction false} EveryInterleaving(c: Course, i: nat)
    requires Unfolds(c) && i < |c.systems|
    ensures SystemOk(c.systems[i])
  {
    hide Step;
    if i > 0 {
      EveryInterleaving(c, i - 1);
      assert Moves(c, i - 1);
      StepKeeps(c.systems[i - 1], c.moves[i - 1]);
    }
  }

  // ----- what each move does -----

  predicate At(s: Accounts, op: Uuid, status: Status) {
    op in s.logins && s.logins[op].status == status
  }

  predicate DecidedOr(s: Accounts, op: Uuid, statuses: set<Status>)
    requires op in s.logins
  {
    s.logins[op].status in statuses
  }

  function To(s: Accounts, op: Uuid, login: ManagedLogin): Accounts {
    s.(logins := s.logins[op := login])
  }

  /** An id that is free, an account without connection, and nothing undecided. */
  predicate MayStart(s: Accounts, op: Uuid) {
    && op !in s.logins && op !in s.withdrawals && op !in s.credentials && s.connection.None?
    && (forall k :: k in s.logins ==> !DecidedOr(s, k, {Starting, Pending, Uncertain, Cancelling, Expiring}))
    && (forall k :: k in s.withdrawals ==>
          s.withdrawals[k].provider == Chatgpt ==> s.withdrawals[k].status == WithdrawalStatus.Withdrawn)
  }

  predicate MayWithdraw(s: Accounts, op: Uuid) {
    && op !in s.logins && op !in s.withdrawals && op !in s.credentials
    && (forall k :: k in s.withdrawals ==>
          s.withdrawals[k].provider == Chatgpt ==> s.withdrawals[k].status == WithdrawalStatus.Withdrawn)
  }

  /** The native answer about `id` is taken for this login. */
  predicate TakenFor(login: ManagedLogin, id: Uuid) {
    (login.status == Pending && login.loginId == Some(id)) || (login.status == Starting && login.loginId == None)
  }

  /** What a durable native completion makes of the accounts. */
  function AfterCompletion(s: Accounts, op: Uuid, id: Uuid, success: bool, auth: Result<Uuid, RuntimeError>,
                           now: Instant): Accounts
    requires op in s.logins
  {
    var login := s.logins[op].(loginId := Some(id));
    if login.expiresAt <= now then To(s, op, login.(status := Uncertain))
    else if !success then To(s, op, login.(status := Failed))
    else if auth.Err? then s
    else To(s, op, login.(status := Completed)).(connection := Some(auth.value))
  }

  function AfterStartup(s: Accounts, now: Instant): Accounts {
    s.(logins := map k | k in s.logins ::
         if DecidedOr(s, k, {Starting, Pending, Uncertain, Cancelling, Expiring})
         then s.logins[k].(status := if s.logins[k].expiresAt <= now then Expired else Interrupted) else s.logins[k],
       withdrawals := map k | k in s.withdrawals ::
         if s.withdrawals[k].provider == Chatgpt then s.withdrawals[k].(status := WithdrawalStatus.Withdrawn)
         else s.withdrawals[k])
  }

  /** The accounts after a move, without the steps of the handlers: the waiting handlers' own records
      are always there, and the contradictions they look for never are. */
  function Outcome(w: System, move: Move): Accounts {
    var s := w.accounts;
    match move
    case StartBegins(op, now, durable) =>
      if w.process == Native && durable && MayStart(s, op)
      then To(s, op, ManagedLogin(None, Starting, now + 900_000_000_000)) else s
    case StartEnds(op, answer, durable) =>
      if op in w.starting && durable && At(s, op, Starting) && answer != MalformedDevice
      then To(s, op, if answer == NoDevice then s.logins[op].(status := Uncertain)
                     else s.logins[op].(loginId := Some(answer.loginId), status := Pending))
      else s
    case CancelBegins(op, durable) =>
      if w.process == Native && durable && At(s, op, Pending) then To(s, op, s.logins[op].(status := Cancelling)) else s
    case CancelEnds(op, confirmed, durable) =>
      if op in w.cancelling && durable && op in s.logins
      then To(s, op, s.logins[op].(status := if confirmed then Cancelled else Uncertain)) else s
    case DisconnectBegins(op, durable) =>
      if w.process != Down && durable && MayWithdraw(s, op)
      then s.(logins := map k | k in s.logins ::
                if DecidedOr(s, k, {Starting, Pending, Uncertain, Cancelling, Expiring})
                then s.logins[k].(status := Revoked) else s.logins[k],
              withdrawals := s.withdrawals[op := Withdrawal(Chatgpt, s.connection, Underway)], connection := None)
      else s
    case DisconnectEnds(op, confirmed, durable) =>
      if op in w.disconnecting && durable && op in s.withdrawals
      then s.(withdrawals := s.withdrawals[op := s.withdrawals[op].(status :=
                if confirmed then WithdrawalStatus.Withdrawn else Unconfirmed)])
      else s
    case LoginCompletes(op, id, success, auth, now, durable) =>
      if w.process == Native && durable && op in s.logins && TakenFor(s.logins[op], id)
      then AfterCompletion(s, op, id, success, auth, now) else s
    case ExpiryBegins(now, durable) =>
      if w.process == Native && durable
      then s.(logins := map k | k in s.logins ::
                if s.logins[k].status == Pending && s.logins[k].expiresAt <= now
                then s.logins[k].(status := Expiring) else s.logins[k])
      else s
    case ExpiryEnds(op, confirmed, durable) =>
      if op in w.expiring && durable && At(s, op, Expiring)
      then To(s, op, s.logins[op].(status := if confirmed then Expired else Uncertain)) else s
    case EntersCredential(op, fingerprint, generation, durable) =>
      if w.process != Down && durable && op !in s.logins && op !in s.withdrawals && op !in s.credentials
      then s.(credentials := s.credentials[op := Entry(fingerprint, generation)], openrouter := Some(generation)) else s
    case RemovesCredential(op, durable) =>
      if w.process != Down && durable && op !in s.logins && op !in s.withdrawals && op !in s.credentials
      then s.(withdrawals := s.withdrawals[op := Withdrawal(Openrouter, s.openrouter, WithdrawalStatus.Withdrawn)],
              openrouter := None)
      else s
    case Startup(account, now, durable) =>
      if w.process == Down && durable && account == (if s.connection.Some? then ChatgptAccount else NoAccount)
      then AfterStartup(s, now) else s
    case _ => s
  }

  lemma StartsIs(s: Accounts, op: Uuid, now: Instant)
    ensures MayStart(s, op) <==> BeginStart(s, op, now).Ok? && BeginStart(s, op, now).value.value == CallNative
    ensures BeginStart(s, op, now).Ok? && BeginStart(s, op, now).value.value == CallNative ==>
              BeginStart(s, op, now).value.next == To(s, op, ManagedLogin(None, Starting, now + 900_000_000_000))
  {
  }

  lemma WithdrawsIs(s: Accounts, op: Uuid)
    ensures MayWithdraw(s, op) <==> BeginDisconnect(s, op).Ok? && BeginDisconnect(s, op).value.value == CallNative
  {
  }

  lemma StartupIs(s: Accounts, account: NativeAccount, now: Instant)
    requires AccountsOk(s)
    ensures ReconcileStartup(s, account, now).Ok? <==>
            account == (if s.connection.Some? then ChatgptAccount else NoAccount)
    ensures ReconcileStartup(s, account, now).Ok? ==> ReconcileStartup(s, account, now).value == AfterStartup(s, now)
  {
  }

  lemma CompletionIs(s: Accounts, op: Uuid, id: Uuid, success: bool, auth: Result<Uuid, RuntimeError>, now: Instant,
                     durable: bool)
    ensures Kept(s, CheckpointLogin(s, op, id, success, auth, now), durable) ==
            if durable && op in s.logins && TakenFor(s.logins[op], id)
            then AfterCompletion(s, op, id, success, auth, now) else s
  {
  }

  lemma CredentialsAre(w: System, move: Move)
    requires SystemOk(w) && (move.EntersCredential? || move.RemovesCredential?)
    ensures Step(w, move).accounts == Outcome(w, move)
  {
    hide AtMostOneLive, OneWithdrawal, AnyLive, Withdrawing, HandlersOk;
  }

  /** The second phases, and cancelling. */
  lemma AnswersAre(w: System, move: Move)
    requires SystemOk(w)
    requires move.StartEnds? || move.CancelBegins? || move.CancelEnds? || move.DisconnectEnds? || move.ExpiryEnds?
    ensures Step(w, move).accounts == Outcome(w, move)
  {
    hide AtMostOneLive, OneWithdrawal, OneUse, AnyLive, Withdrawing;
  }

  lemma MoveIs(w: System, move: Move)
    requires SystemOk(w)
    ensures Step(w, move).accounts == Outcome(w, move)
  {
    hide AnyUndecided, Withdrawing, MayStart, MayWithdraw, BeginStart, HandlersOk, EndStart, BeginCancel, EndCancel,
         EndDisconnect, EndExpire, SetOpenrouter, DisconnectOpenrouter, ReconcileStartup, AfterStartup, CheckpointLogin,
         AccountsOk, Kept, AfterCompletion, TakenFor;
    match move {
      case StartBegins(op, now, durable) => StartsIs(w.accounts, op, now);
      case DisconnectBegins(op, durable) => WithdrawsIs(w.accounts, op);
      case LoginCompletes(op, id, success, auth, now, durable) =>
        CompletionIs(w.accounts, op, id, success, auth, now, durable);
      case EntersCredential(_, _, _, _) => CredentialsAre(w, move);
      case RemovesCredential(_, _) => CredentialsAre(w, move);
      case ExpiryBegins(_, _) =>
      case Startup(account, now, durable) => StartupIs(w.accounts, account, now);
      case Crash =>
      case StartupBare =>
      case CancelUnanswered(_) =>
      case _ => AnswersAre(w, move);
    }
  }

  /** Whatever happened before, a move does exactly what is written above. */
  lemma EveryMove(c: Course, i: nat)
    requires Unfolds(c) && i < |c.moves|
    ensures c.systems[i + 1].accounts == Outcome(c.systems[i], c.moves[i])
  {
    hide Step, Outcome, SystemOk;
    EveryInterleaving(c, i);
    assert Moves(c, i);
    MoveIs(c.systems[i], c.moves[i]);
  }

  // ----- what the interleavings promise -----

  /** At most one login can still complete; a connection excludes any such login; and while a
      withdrawal is unfinished there is neither. */
  lemma LoginsExcludeConnections(c: Course, i: nat)
    requires Unfolds(c) && i < |c.systems|
    ensures var s := c.systems[i].accounts;
            && (forall a, b :: && a in s.logins && b in s.logins && s.logins[a].status in {Starting, Pending}
                               && s.logins[b].status in {Starting, Pending}
                               ==> a == b)
            && (s.connection.Some? ==> forall a :: a in s.logins ==> s.logins[a].status !in {Starting, Pending})
            && ((exists w :: w in s.withdrawals && s.withdrawals[w].provider == Chatgpt
                             && s.withdrawals[w].status != WithdrawalStatus.Withdrawn) ==>
                  s.connection.None? && forall a :: a in s.logins ==> s.logins[a].status !in {Starting, Pending})
  {
    hide Unfolds;
    EveryInterleaving(c, i);
  }

  /** Startup never meets an unfinished withdrawal beside a connection: it fails exactly when
      the native account contradicts the vault, and otherwise leaves nothing undecided. */
  lemma StartupDecidesEverything(c: Course, i: nat, account: NativeAccount, now: Instant)
    requires Unfolds(c) && i < |c.systems|
    ensures var s := c.systems[i].accounts;
            && ReconcileStartup(s, account, now) != Err(StateIntegrity)
            && (ReconcileStartup(s, account, now).Ok? <==>
                  account == (if s.connection.Some? then ChatgptAccount else NoAccount))
            && (ReconcileStartup(s, account, now).Ok? ==>
                  var t := ReconcileStartup(s, account, now).value;
                  && t.connection == s.connection
                  && (forall k :: k in t.logins ==>
                        t.logins[k].status !in {Starting, Pending, Uncertain, Cancelling, Expiring})
                  && forall k :: k in t.withdrawals && t.withdrawals[k].provider == Chatgpt ==>
                       t.withdrawals[k].status == WithdrawalStatus.Withdrawn)
  {
    hide Unfolds;
    EveryInterleaving(c, i);
  }

  /** A handler that comes back with its answer finds its own record: the integrity errors of
      the second phases are unreachable, as is the conflict with a completed login. */
  lemma HandlersFindTheirRecords(c: Course, i: nat, op: Uuid, answer: DeviceAnswer, confirmed: bool)
    requires Unfolds(c) && i < |c.systems|
    ensures var w := c.systems[i];
            && (op in w.starting ==> EndStart(w.accounts, op, answer) != Err(StateIntegrity))
            && (op in w.cancelling ==> EndCancel(w.accounts, op, confirmed).Ok?)
            && (op in w.disconnecting ==> EndDisconnect(w.accounts, op, confirmed).Ok?)
            && (op in w.expiring ==> EndExpire(w.accounts, op, confirmed).Ok?)
            && BeginCancel(w.accounts, op) != Err(StateIntegrity)
  {
    hide Unfolds;
    EveryInterleaving(c, i);
  }

  /** The handler of a completion finds at most one login, in whatever order it looks. */
  lemma CompletionsFindOne(c: Course, i: nat, id: Uuid, a: Uuid, b: Uuid)
    requires Unfolds(c) && i < |c.systems| && a in c.systems[i].accounts.logins && b in c.systems[i].accounts.logins
    requires Concerns(c.systems[i].accounts.logins[a], id) && Concerns(c.systems[i].accounts.logins[b], id)
    ensures a == b
  {
    hide Unfolds;
    EveryInterleaving(c, i);
  }

  // ----- what a withdrawal leaves possible -----

  /** No connection and no login that could still complete. */
  predicate Severed(s: Accounts) {
    s.connection.None? && !AnyLive(s)
  }

  lemma DisconnectSevers(w: System, move: Move)
    requires Withdraws(w, move)
    ensures Severed(Step(w, move).accounts)
  {
    var t := Step(w, move).accounts;
    assert forall k :: k in t.logins ==> !Live(t.logins[k].status);
  }

  predicate LiveLogin(s: Accounts, op: Uuid) {
    op in s.logins && Live(s.logins[op].status)
  }

  lemma OnlyBeginningsAreLive(w: System, move: Move, op: Uuid)
    requires LiveLogin(Step(w, move).accounts, op) && !LiveLogin(w.accounts, op)
    ensures Begins(w, move) && move.op == op
  {
  }

  lemma OnlyCompletionsConnect(w: System, move: Move)
    requires Step(w, move).accounts.connection.Some? && Step(w, move).accounts.connection != w.accounts.connection
    ensures Connects(w, move) && LiveLogin(w.accounts, move.op)
    ensures Step(w, move).accounts.connection == Some(move.auth.value)
  {
  }

  /** A login that can complete after a withdrawal began after it. */
  lemma {:induction false} LiveIsRecent(c: Course, k: nat, i: nat, op: Uuid) returns (j: nat)
    requires Unfolds(c) && k < i < |c.systems| && Withdraws(c.systems[k], c.moves[k])
    requires LiveLogin(c.systems[i].accounts, op)
    ensures k < j < i && Begins(c.systems[j], c.moves[j]) && c.moves[j].op == op
    decreases i
  {
    hide Step, Begins, Withdraws, LiveLogin;
    assert Moves(c, i - 1);
    if k == i - 1 {
      DisconnectSevers(c.systems[k], c.moves[k]);
      NoneLive(c.systems[i].accounts, op);
    } else if LiveLogin(c.systems[i - 1].accounts, op) {
      j := LiveIsRecent(c, k, i - 1, op);
    } else {
      OnlyBeginningsAreLive(c.systems[i - 1], c.moves[i - 1], op);
      j := i - 1;
    }
  }

  lemma NoneLive(s: Accounts, op: Uuid)
    requires Severed(s)
    ensures !LiveLogin(s, op)
  {
  }

  /** Whatever late answers, expiries and restarts there are: a connection after a withdrawal was
      installed, and kept since, by the completion of a login that itself began after the
      withdrawal.  No login that the withdrawal found is ever completed. */
  lemma {:induction false} WithdrawnStaysWithdrawn(c: Course, k: nat, i: nat) returns (j: nat, m: nat)
    requires Unfolds(c) && k < i < |c.systems| && Withdraws(c.systems[k], c.moves[k])
    requires c.systems[i].accounts.connection.Some?
    ensures k < j < m < i && Begins(c.systems[j], c.moves[j]) && Connects(c.systems[m], c.moves[m])
    ensures c.moves[m].op == c.moves[j].op
    ensures forall n :: m < n <= i ==> c.systems[n].accounts.connection == Some(c.moves[m].auth.value)
    decreases i
  {
    hide Step, Begins, Withdraws, Connects, LiveLogin;
    assert Moves(c, i - 1);
    if k == i - 1 {
      DisconnectSevers(c.systems[k], c.moves[k]);
      assert false;
    } else if c.systems[i].accounts.connection == c.systems[i - 1].accounts.connection {
      j, m := WithdrawnStaysWithdrawn(c, k, i - 1);
    } else {
      OnlyCompletionsConnect(c.systems[i - 1], c.moves[i - 1]);
      m := i - 1;
      j := LiveIsRecent(c, k, m, c.moves[m].op);
    }
  }

  // ----- what a late completion does -----

  /** The answer is about no login that may still complete: every login that carries this native
      id was withdrawn, cancelled or has ended. */
  predicate Stale(s: Accounts, id: Uuid) {
    forall op :: op in s.logins && s.logins[op].loginId == Some(id) ==> !Live(s.logins[op].status)
  }

  predicate Waits(s: Accounts, op: Uuid, now: Instant) {
    op in s.logins && s.logins[op].status == Starting && now < s.logins[op].expiresAt
  }

  /** A stale success does connect the account, exactly while another login waits for its own
      native id: the handler takes any id for such a login. */
  lemma LateCompletionConnects(c: Course, i: nat, id: Uuid, generation: Uuid, now: Instant)
    requires Unfolds(c) && i < |c.systems| && c.systems[i].process == Native
    requires Stale(c.systems[i].accounts, id) && c.systems[i].accounts.connection.None?
    ensures forall op :: Waits(c.systems[i].accounts, op, now) <==>
              Step(c.systems[i], LoginCompletes(op, id, true, Ok(generation), now, true)).accounts.connection ==
                  Some(generation)
    ensures forall op :: !Waits(c.systems[i].accounts, op, now) ==>
              Step(c.systems[i], LoginCompletes(op, id, true, Ok(generation), now, true)).accounts.connection == None
  {
    hide Unfolds;
    EveryInterleaving(c, i);
  }

  // ----- what a late cancellation does -----

  lemma RevokedStays(login: ManagedLogin)
    requires login.status == Revoked
    ensures Revoking(login) == login && forall now :: Restarted(login, now) == login
  {
  }

  /** The status of a revoked login changes exactly when a cancellation that was begun before
      the withdrawal writes its answer. */
  lemma RevokedChanges(w: System, move: Move, op: Uuid)
    requires SystemOk(w) && op in w.accounts.logins && w.accounts.logins[op].status == Revoked
    ensures op in Step(w, move).accounts.logins
    ensures Step(w, move).accounts.logins[op].status != Revoked <==>
            move.CancelEnds? && move.op == op && op in w.cancelling && move.durable
  {
    hide AccountsOk, AnyUndecided, Withdrawing, Revoking, Restarted;
    RevokedStays(w.accounts.logins[op]);
  }

  /** And when that answer is not a confirmation, the login is undecided again: no new login can
      begin although the withdrawal revoked this one. */
  lemma LateCancelBlocksLogins(w: System, op: Uuid, other: Uuid, now: Instant)
    requires SystemOk(w) && op in w.cancelling && w.accounts.logins[op].status == Revoked
    requires other !in w.accounts.logins
    ensures BeginStart(Step(w, CancelEnds(op, false, true)).accounts, other, now) == Err(Conflict)
    ensures BeginStart(w.accounts, other, now).Ok? <==>
            && other !in w.accounts.withdrawals && other !in w.accounts.credentials
            && !Withdrawing(w.accounts) && w.accounts.connection.None? && !AnyUndecided(w.accounts)
  {
    var t := Step(w, CancelEnds(op, false, true)).accounts;
    assert Undecided(t.logins[op].status);
  }

  /** The course with one more move. */
  function Then(c: Course, move: Move): Course
    requires c.systems != []
  {
    Course(c.systems + [Step(Last(c), move)], c.moves + [move])
  }

  function Last(c: Course): System
    requires c.systems != []
  {
    c.systems[|c.systems| - 1]
  }

  lemma ThenUnfolds(c: Course, move: Move)
    requires Unfolds(c)
    ensures Unfolds(Then(c, move)) && Last(Then(c, move)) == Step(Last(c), move)
  {
    hide Step;
    var longer := Then(c, move);
    forall i | 0 <= i < |longer.moves| ensures Moves(longer, i) {
      if i < |c.moves| {
        assert Moves(c, i);
      }
    }
  }

  function OneLogin(status: Status, withdrawals: map<Uuid, Withdrawal>, cancelling: set<Uuid>, disconnecting: set<Uuid>)
    : System
  {
    System(NO_ACCOUNTS.(logins := map[1 := ManagedLogin(Some(7), status, FIFTEEN_MINUTES)], withdrawals := withdrawals),
           Native, {}, cancelling, disconnecting, {})
  }

  lemma PendingLogin() returns (c: Course)
    ensures Unfolds(c) && Last(c) == OneLogin(Pending, map[], {}, {})
  {
    hide Unfolds;
    c := Course([FIRST], []);
    assert Unfolds(c) by { NothingYet(); }
    ThenUnfolds(c, Startup(NoAccount, 0, true));
    c := Then(c, Startup(NoAccount, 0, true));
    assert Last(c) == FIRST.(process := Native);
    ThenUnfolds(c, StartBegins(1, 0, true));
    c := Then(c, StartBegins(1, 0, true));
    assert Last(c).starting - {1} == {};
    ThenUnfolds(c, StartEnds(1, Device(7), true));
    c := Then(c, StartEnds(1, Device(7), true));
  }

  lemma NothingYet()
    ensures Unfolds(Course([FIRST], []))
  {
  }

  /** A run in which it happens: a login is being cancelled, the account is withdrawn and that is
      confirmed, a new login could begin; then the cancellation comes back unconfirmed. */
  lemma LateCancelHappens() returns (c: Course)
    ensures Unfolds(c)
    ensures var w := Last(c);
            && 1 in w.cancelling && 1 in w.accounts.logins && w.accounts.logins[1].status == Revoked
            && BeginStart(w.accounts, 3, 0).Ok?
            && BeginStart(Step(w, CancelEnds(1, false, true)).accounts, 3, 0) == Err(Conflict)
  {
    hide SystemOk;
    c := PendingLogin();
    ThenUnfolds(c, CancelBegins(1, true));
    c := Then(c, CancelBegins(1, true));
    assert Last(c) == OneLogin(Cancelling, map[], {1}, {});
    ThenUnfolds(c, DisconnectBegins(2, true));
    c := Then(c, DisconnectBegins(2, true));
    assert Last(c) == OneLogin(Revoked, map[2 := Withdrawal(Chatgpt, None, Underway)], {1}, {2});
    ThenUnfolds(c, DisconnectEnds(2, true, true));
    c := Then(c, DisconnectEnds(2, true, true));
    assert Last(c) == OneLogin(Revoked, map[2 := Withdrawal(Chatgpt, None, Withdrawn)], {1}, {});
    EveryInterleaving(c, |c.moves|);
    LateCancelBlocksLogins(Last(c), 1, 3, 0);
  }

  /** Login 1 is withdrawn but keeps its native id 7, login 3 waits for its own, and the success of 7
      would connect the account. */
  predicate LateCompletionReady(w: System) {
    var s := w.accounts;
    && 1 in s.logins && s.logins[1].status == Revoked && s.logins[1].loginId == Some(7)
    && s.connection.None? && !Withdrawing(s) && Stale(s, 7) && Waits(s, 3, 1)
    && Step(w, LoginCompletes(3, 7, true, Ok(99), 1, true)).accounts.connection == Some(99)
  }

  lemma NewLoginWaits(w: System)
    requires w == OneLogin(Revoked, map[2 := Withdrawal(Chatgpt, None, Withdrawn)], {}, {})
    ensures LateCompletionReady(Step(w, StartBegins(3, 0, true)))
  {
  }

  /** A run in which a stale success connects: login 1 was given the native id 7 and is revoked by
      a confirmed withdrawal; login 3 begins; the success of 7 installs a connection for login 3. */
  lemma LateCompletionHappens() returns (c: Course)
    ensures Unfolds(c)
    ensures LateCompletionReady(Last(c))
  {
    hide SystemOk, LateCompletionReady;
    c := PendingLogin();
    ThenUnfolds(c, DisconnectBegins(2, true));
    c := Then(c, DisconnectBegins(2, true));
    assert Last(c) == OneLogin(Revoked, map[2 := Withdrawal(Chatgpt, None, Underway)], {}, {2});
    ThenUnfolds(c, DisconnectEnds(2, true, true));
    c := Then(c, DisconnectEnds(2, true, true));
    assert Last(c) == OneLogin(Revoked, map[2 := Withdrawal(Chatgpt, None, Withdrawn)], {}, {});
    NewLoginWaits(Last(c));
    ThenUnfolds(c, StartBegins(3, 0, true));
    c := Then(c, StartBegins(3, 0, true));
  }
}
