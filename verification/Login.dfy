/** ChatGPT logins and withdrawals (ai-runtime/src/http.rs).  A handler changes the vault, lets
    go of it for the native call, and changes it again with the answer; so each handler is two
    atomic phases, and anything may happen in between. */
module Login {
  import opened Base
  import opened Domain

  datatype Status =
    | Starting
    | Pending
    | Uncertain
    | Cancelling
    | Expiring
    | Completed
    | Failed
    | Cancelled
    | Expired
    | Interrupted
    | Revoked

  datatype ManagedLogin = ManagedLogin(loginId: Option<Uuid>, status: Status, expiresAt: Instant)

  datatype WithdrawalStatus = Underway | Unconfirmed | Withdrawn

  datatype Withdrawal = Withdrawal(provider: Provider, generation: Option<Uuid>, status: WithdrawalStatus)

  /** An OpenRouter credential that was entered: the digest of its text, and its generation. */
  datatype Entry = Entry(fingerprint: string, generation: Uuid)

  /** The part of the vault that the handlers change: ChatGPT logins, withdrawals of either
      provider, entered credentials, and the generations of the two connections. */
  datatype Accounts = Accounts(
    logins: map<Uuid, ManagedLogin>,
    withdrawals: map<Uuid, Withdrawal>,
    credentials: map<Uuid, Entry>,
    connection: Option<Uuid>,
    openrouter: Option<Uuid>)

  /** May still complete on its own. */
  predicate Live(status: Status) {
    status == Starting || status == Pending
  }

  /** Keeps a new login from starting. */
  predicate Undecided(status: Status) {
    Live(status) || status == Uncertain || status == Cancelling || status == Expiring
  }

  predicate AnyUndecided(s: Accounts) {
    exists op :: op in s.logins && Undecided(s.logins[op].status)
  }

  /** A ChatGPT withdrawal that is not known to be complete. */
  predicate Unfinished(s: Accounts, op: Uuid) {
    op in s.withdrawals && s.withdrawals[op].provider == Chatgpt && s.withdrawals[op].status != Withdrawn
  }

  predicate Withdrawing(s: Accounts) {
    exists op :: op in s.withdrawals && Unfinished(s, op)
  }

  /** The new state, and what the handler goes on with. */
  datatype Turn<+T> = Turn(next: Accounts, value: T)

  datatype Next = CallNative | Answered

  function SetStatus(s: Accounts, op: Uuid, status: Status): Accounts
    requires op in s.logins
  {
    s.(logins := s.logins[op := s.logins[op].(status := status)])
  }

  // ----- starting -----

  function BeginStart(s: Accounts, op: Uuid, now: Instant): Result<Turn<Next>, RuntimeError> {
    if op in s.withdrawals || op in s.credentials || Withdrawing(s) then Err(Conflict)
    else if op in s.logins then Ok(Turn(s, Answered))
    else if s.connection.Some? || AnyUndecided(s) then Err(Conflict)
    else Ok(Turn(s.(logins := s.logins[op := ManagedLogin(None, Starting, now + FIFTEEN_MINUTES)]), CallNative))
  }

  /** What the native process answers: a device code, a malformed one, or nothing usable. */
  datatype DeviceAnswer = Device(loginId: Uuid) | MalformedDevice | NoDevice

  function EndStart(s: Accounts, op: Uuid, answer: DeviceAnswer): Result<Accounts, RuntimeError> {
    if op !in s.logins then Err(StateIntegrity)
    else if s.logins[op].status != Starting then Ok(s)
    else
      match answer
      case Device(id) => Ok(s.(logins := s.logins[op := s.logins[op].(loginId := Some(id), status := Pending)]))
      case MalformedDevice => Err(Protocol)
      case NoDevice => Ok(SetStatus(s, op, Uncertain))
  }

  // ----- cancelling -----

  function BeginCancel(s: Accounts, op: Uuid): Result<Turn<Next>, RuntimeError> {
    if op !in s.logins then Err(InvalidRequest)
    else if s.logins[op].status == Cancelled then Ok(Turn(s, Answered))
    else if s.logins[op].status != Pending then Err(Conflict)
    else if s.logins[op].loginId.None? then Err(StateIntegrity)
    else Ok(Turn(SetStatus(s, op, Cancelling), CallNative))
  }

  /** The answer is written whatever became of the login, unless it completed. */
  function EndCancel(s: Accounts, op: Uuid, confirmed: bool): Result<Accounts, RuntimeError> {
    if op !in s.logins then Err(StateIntegrity)
    else if s.logins[op].status == Completed then Err(Conflict)
    else Ok(SetStatus(s, op, if confirmed then Cancelled else Uncertain))
  }

  // ----- withdrawing -----

  function Revoking(login: ManagedLogin): ManagedLogin {
    if Undecided(login.status) then login.(status := Revoked) else login
  }

  function BeginDisconnect(s: Accounts, op: Uuid): Result<Turn<Next>, RuntimeError> {
    if op in s.withdrawals then
      if s.withdrawals[op].provider == Chatgpt && s.withdrawals[op].status == Withdrawn
      then Ok(Turn(s, Answered)) else Err(Conflict)
    else if op in s.credentials || op in s.logins || Withdrawing(s) then Err(Conflict)
    else
      Ok(Turn(s.(logins := map k | k in s.logins :: Revoking(s.logins[k]),
                 withdrawals := s.withdrawals[op := Withdrawal(Chatgpt, s.connection, Underway)],
                 connection := None), CallNative))
  }

  function EndDisconnect(s: Accounts, op: Uuid, confirmed: bool): Result<Accounts, RuntimeError> {
    if op !in s.withdrawals then Err(StateIntegrity)
    else
      var status := if confirmed then Withdrawn else Unconfirmed;
      Ok(s.(withdrawals := s.withdrawals[op := s.withdrawals[op].(status := status)]))
  }

  // ----- completing and expiring -----

  /** The login a native completion is about. */
  predicate Concerns(login: ManagedLogin, id: Uuid) {
    (login.loginId == Some(id) && login.status == Pending) || (login.loginId.None? && login.status == Starting)
  }

  /** `auth` is what reading the managed home gives: a generation for the authorization found
      there, or an error. */
  function CheckpointLogin(s: Accounts, op: Uuid, id: Uuid, success: bool, auth: Result<Uuid, RuntimeError>,
                           now: Instant)
    : Result<Accounts, RuntimeError>
  {
    if op !in s.logins || !Concerns(s.logins[op], id) then Ok(s)
    else
      var login := s.logins[op].(loginId := Some(id));
      if login.expiresAt <= now then Ok(s.(logins := s.logins[op := login.(status := Uncertain)]))
      else if !success then Ok(s.(logins := s.logins[op := login.(status := Failed)]))
      else if auth.Err? then Err(auth.error)
      else Ok(s.(logins := s.logins[op := login.(status := Completed)], connection := Some(auth.value)))
  }

  predicate Overdue(login: ManagedLogin, now: Instant) {
    login.status == Pending && login.expiresAt <= now
  }

  function BeginExpire(s: Accounts, now: Instant): (Accounts, set<Uuid>) {
    var overdue := set op | op in s.logins && Overdue(s.logins[op], now);
    (s.(logins := map op | op in s.logins ::
                    if op in overdue then s.logins[op].(status := Expiring) else s.logins[op]),
     overdue)
  }

  function EndExpire(s: Accounts, op: Uuid, confirmed: bool): Result<Accounts, RuntimeError> {
    if op !in s.logins then Err(StateIntegrity)
    else if s.logins[op].status != Expiring then Ok(s)
    else Ok(SetStatus(s, op, if confirmed then Expired else Uncertain))
  }

  // ----- startup -----

  datatype NativeAccount = Unreadable | NoAccount | ChatgptAccount | OtherAccount

  function Restarted(login: ManagedLogin, now: Instant): ManagedLogin {
    if !Undecided(login.status) then login
    else login.(status := if login.expiresAt <= now then Expired else Interrupted)
  }

  function ReconcileStartup(s: Accounts, account: NativeAccount, now: Instant): Result<Accounts, RuntimeError> {
    if account == Unreadable || (s.connection.None? && account != NoAccount)
       || (s.connection.Some? && account != ChatgptAccount)
    then Err(ProviderAuth)
    else if s.connection.Some? && Withdrawing(s) then Err(StateIntegrity)
    else Ok(s.(logins := map op | op in s.logins :: Restarted(s.logins[op], now),
               withdrawals := map op | op in s.withdrawals :: Reconciled(s.withdrawals[op])))
  }

  function Reconciled(withdrawal: Withdrawal): Withdrawal {
    if withdrawal.provider == Chatgpt then withdrawal.(status := Withdrawn) else withdrawal
  }

  // ----- the OpenRouter connection -----

  /** Entering a credential; a repeat must bring the same text. */
  function SetOpenrouter(s: Accounts, op: Uuid, fingerprint: string, generation: Uuid): Result<Accounts, RuntimeError> {
    if op in s.withdrawals || op in s.logins then Err(Conflict)
    else if op in s.credentials then if s.credentials[op].fingerprint == fingerprint then Ok(s) else Err(Conflict)
    else Ok(s.(credentials := s.credentials[op := Entry(fingerprint, generation)], openrouter := Some(generation)))
  }

  /** Withdrawing it needs no answer from outside, so it is complete at once. */
  function DisconnectOpenrouter(s: Accounts, op: Uuid): Result<Accounts, RuntimeError> {
    if op in s.withdrawals then
      if s.withdrawals[op].provider == Openrouter && s.withdrawals[op].status == Withdrawn then Ok(s) else Err(Conflict)
    else if op in s.credentials || op in s.logins then Err(Conflict)
    else Ok(s.(withdrawals := s.withdrawals[op := Withdrawal(Openrouter, s.openrouter, Withdrawn)], openrouter := None))
  }

  /** What startup writes: each undecided login has expired or was interrupted, each withdrawal of the
      ChatGPT account is complete, and nothing else changes. */
  lemma StartupWrites(s: Accounts, account: NativeAccount, now: Instant)
    requires ReconcileStartup(s, account, now).Ok?
    ensures var t := ReconcileStartup(s, account, now).value;
            && t == s.(logins := t.logins, withdrawals := t.withdrawals)
            && t.logins.Keys == s.logins.Keys && t.withdrawals.Keys == s.withdrawals.Keys
            && (forall k :: k in s.logins ==>
                  t.logins[k] == if s.logins[k].status !in {Starting, Pending, Uncertain, Cancelling, Expiring}
                                 then s.logins[k]
                                 else s.logins[k].(status := if s.logins[k].expiresAt <= now then Expired
                                                             else Interrupted))
            && (forall k :: k in s.withdrawals ==>
                  t.withdrawals[k] == if s.withdrawals[k].provider != Chatgpt then s.withdrawals[k]
                                      else s.withdrawals[k].(status := WithdrawalStatus.Withdrawn))
  {
  }

  lemma ExpiredAll(s: Accounts, now: Instant, overdue: set<Uuid>, next: map<Uuid, ManagedLogin>)
    requires overdue == set k | k in s.logins && Overdue(s.logins[k], now)
    requires next.Keys == s.logins.Keys
    requires forall k :: k in s.logins ==>
               next[k] == if k in overdue then s.logins[k].(status := Expiring) else s.logins[k]
    ensures BeginExpire(s, now) == (s.(logins := next), overdue)
  {
    assert overdue == BeginExpire(s, now).1;
    assert next == BeginExpire(s, now).0.logins;
  }

  // ----- the handlers as an object -----

  class AccountVault {
    var logins: map<Uuid, ManagedLogin>
    var withdrawals: map<Uuid, Withdrawal>
    var credentials: map<Uuid, Entry>
    var connection: Option<Uuid>
    var openrouter: Option<Uuid>

    constructor ()
      ensures View() == Accounts(map[], map[], map[], None, None)
    {
      logins, withdrawals, credentials, connection, openrouter := map[], map[], map[], None, None;
    }

    function View(): Accounts
      reads this
    {
      Accounts(logins, withdrawals, credentials, connection, openrouter)
    }

    method AnyLoginUndecided() returns (found: bool)
      ensures found == AnyUndecided(View())
    {
      var todo := logins.Keys;
      while todo != {}
        invariant todo <= logins.Keys
        invariant forall op :: op in logins && op !in todo ==> !Undecided(logins[op].status)
      {
        var op :| op in todo;
        if Undecided(logins[op].status) {
          return true;
        }
        todo := todo - {op};
      }
      return false;
    }

    method AnyWithdrawal() returns (found: bool)
      ensures found == Withdrawing(View())
    {
      var todo := withdrawals.Keys;
      while todo != {}
        invariant todo <= withdrawals.Keys
        invariant forall op :: op !in todo ==> !Unfinished(View(), op)
      {
        var op :| op in todo;
        if withdrawals[op].provider == Chatgpt && withdrawals[op].status != Withdrawn {
          assert Unfinished(View(), op);
          return true;
        }
        todo := todo - {op};
      }
      return false;
    }

    method Start(op: Uuid, now: Instant) returns (r: Result<Next, RuntimeError>)
      modifies this
      ensures match BeginStart(old(View()), op, now)
              case Err(e) => r == Err(e) && View() == old(View())
              case Ok(turn) => r == Ok(turn.value) && View() == turn.next
      ensures r == Ok(CallNative) <==>
              && op !in old(withdrawals) && op !in old(credentials) && op !in old(logins) && old(connection).None?
              && (forall k :: k in old(logins) ==>
                    old(logins)[k].status !in {Starting, Pending, Uncertain, Cancelling, Expiring})
              && (forall k :: k in old(withdrawals) && old(withdrawals)[k].provider == Chatgpt ==>
                    old(withdrawals)[k].status == WithdrawalStatus.Withdrawn)
    {
      var withdrawing := AnyWithdrawal();
      if op in withdrawals || op in credentials || withdrawing {
        return Err(Conflict);
      }
      if op in logins {
        return Ok(Answered);
      }
      if connection.Some? {
        return Err(Conflict);
      }
      var undecided := AnyLoginUndecided();
      if undecided {
        return Err(Conflict);
      }
      logins := logins[op := ManagedLogin(None, Starting, now + FIFTEEN_MINUTES)];
      return Ok(CallNative);
    }

    method Started(op: Uuid, answer: DeviceAnswer) returns (r: Check<RuntimeError>)
      modifies this`logins
      ensures match EndStart(old(View()), op, answer)
              case Err(e) => r == Fail(e) && View() == old(View())
              case Ok(next) => r == Pass && View() == next
    {
      if op !in logins {
        return Fail(StateIntegrity);
      }
      var login := logins[op];
      if login.status != Starting {
        return Pass;
      }
      match answer {
        case Device(id) =>
          login := login.(loginId := Some(id));
          login := login.(status := Pending);
        case MalformedDevice =>
          return Fail(Protocol);
        case NoDevice =>
          login := login.(status := Uncertain);
      }
      logins := logins[op := login];
      return Pass;
    }

    /** The withdrawal revokes every login that could still complete, in the same commit. */
    method Disconnect(op: Uuid) returns (r: Result<Next, RuntimeError>)
      modifies this
      ensures match BeginDisconnect(old(View()), op)
              case Err(e) => r == Err(e) && View() == old(View())
              case Ok(turn) => r == Ok(turn.value) && View() == turn.next
      ensures r == Ok(CallNative) ==> connection == None && op in withdrawals && op !in old(withdrawals)
      ensures r == Ok(CallNative) ==>
                forall k :: k in old(logins) ==>
                  && k in logins
                  && logins[k] == if old(logins)[k].status in {Starting, Pending, Uncertain, Cancelling, Expiring}
                                  then old(logins)[k].(status := Revoked) else old(logins)[k]
    {
      if op in withdrawals {
        var previous := withdrawals[op];
        return if previous.provider == Chatgpt && previous.status == Withdrawn then Ok(Answered) else Err(Conflict);
      }
      var withdrawing := AnyWithdrawal();
      if op in credentials || op in logins || withdrawing {
        return Err(Conflict);
      }
      var generation := connection;
      connection := None;
      withdrawals := withdrawals[op := Withdrawal(Chatgpt, generation, Underway)];
      RevokeAll();
      return Ok(CallNative);
    }

    method RevokeAll()
      modifies this`logins
      ensures logins == map k | k in old(logins) :: Revoking(old(logins)[k])
    {
      var todo, next := logins.Keys, logins;
      while todo != {}
        invariant todo <= logins.Keys && next.Keys == logins.Keys
        invariant forall k :: k in logins ==> next[k] == if k in todo then logins[k] else Revoking(logins[k])
      {
        var op :| op in todo;
        if Undecided(next[op].status) {
          next := next[op := next[op].(status := Revoked)];
        }
        todo := todo - {op};
      }
      logins := next;
    }

    method Expire(now: Instant) returns (overdue: set<Uuid>)
      modifies this`logins
      ensures (View(), overdue) == BeginExpire(old(View()), now)
      ensures overdue == set k | k in old(logins) && old(logins)[k].status == Pending && old(logins)[k].expiresAt <= now
      ensures forall k :: k in old(logins) && k !in overdue ==> k in logins && logins[k] == old(logins)[k]
    {
      overdue := {};
      var todo, next := logins.Keys, logins;
      while todo != {}
        invariant todo <= logins.Keys && next.Keys == logins.Keys
        invariant overdue == set k | k in logins && k !in todo && Overdue(logins[k], now)
        invariant forall k :: k in logins ==>
                    next[k] == if k in overdue then logins[k].(status := Expiring) else logins[k]
      {
        var op :| op in todo;
        if Overdue(logins[op], now) {
          next := next[op := next[op].(status := Expiring)];
          overdue := overdue + {op};
        }
        todo := todo - {op};
      }
      ExpiredAll(View(), now, overdue, next);
      logins := next;
    }

    method Cancel(op: Uuid) returns (r: Result<Next, RuntimeError>)
      modifies this`logins
      ensures match BeginCancel(old(View()), op)
              case Err(e) => r == Err(e) && View() == old(View())
              case Ok(turn) => r == Ok(turn.value) && View() == turn.next
    {
      if op !in logins {
        return Err(InvalidRequest);
      }
      var login := logins[op];
      if login.status == Cancelled {
        return Ok(Answered);
      }
      if login.status != Pending {
        return Err(Conflict);
      }
      if login.loginId.None? {
        return Err(StateIntegrity);
      }
      logins := logins[op := login.(status := Cancelling)];
      return Ok(CallNative);
    }

    method CancelAnswered(op: Uuid, confirmed: bool) returns (r: Check<RuntimeError>)
      modifies this`logins
      ensures match EndCancel(old(View()), op, confirmed)
              case Err(e) => r == Fail(e) && View() == old(View())
              case Ok(next) => r == Pass && View() == next
    {
      if op !in logins {
        return Fail(StateIntegrity);
      }
      var login := logins[op];
      if login.status == Completed {
        return Fail(Conflict);
      }
      logins := logins[op := login.(status := if confirmed then Cancelled else Uncertain)];
      return Pass;
    }

    /** The first login found that the completion concerns. */
    method FindConcerned(id: Uuid) returns (r: Option<Uuid>)
      ensures r.None? ==> forall op :: op in logins ==> !Concerns(logins[op], id)
      ensures r.Some? ==> r.value in logins && Concerns(logins[r.value], id)
    {
      var todo := logins.Keys;
      while todo != {}
        invariant todo <= logins.Keys
        invariant forall op :: op in logins && op !in todo ==> !Concerns(logins[op], id)
      {
        var op :| op in todo;
        if Concerns(logins[op], id) {
          return Some(op);
        }
        todo := todo - {op};
      }
      return None;
    }

    /** `op` is the login that the completion was taken for, if any. */
    method Checkpoint(id: Option<Uuid>, success: bool, auth: Result<Uuid, RuntimeError>, now: Instant)
      returns (op: Option<Uuid>, r: Check<RuntimeError>)
      modifies this
      ensures op.None? ==> r == Pass && View() == old(View())
      ensures op.None? && id.Some? ==> forall k :: k in old(logins) ==> !Concerns(old(logins)[k], id.value)
      ensures op.Some? ==> id.Some? && op.value in old(logins) && Concerns(old(logins)[op.value], id.value)
      ensures (op.Some? || connection != old(connection)) ==>
                && op.Some? && id.Some? && op.value in old(logins)
                && var login := old(logins)[op.value];
                   (login.status == Pending && login.loginId == id) || (login.status == Starting && login.loginId.None?)
      ensures op.Some? ==>
                match CheckpointLogin(old(View()), op.value, id.value, success, auth, now)
                case Err(e) => r == Fail(e) && View() == old(View())
                case Ok(next) => r == Pass && View() == next
    {
      if id.None? {
        return None, Pass;
      }
      op := FindConcerned(id.value);
      if op.None? {
        return None, Pass;
      }
      var login := logins[op.value].(loginId := id);
      if login.expiresAt <= now {
        login := login.(status := Uncertain);
      } else if success {
        if auth.Err? {
          return op, Fail(auth.error);
        }
        connection := Some(auth.value);
        login := login.(status := Completed);
      } else {
        login := login.(status := Failed);
      }
      logins := logins[op.value := login];
      return op, Pass;
    }

    method Disconnected(op: Uuid, confirmed: bool) returns (r: Check<RuntimeError>)
      modifies this`withdrawals
      ensures match EndDisconnect(old(View()), op, confirmed)
              case Err(e) => r == Fail(e) && View() == old(View())
              case Ok(next) => r == Pass && View() == next
    {
      if op !in withdrawals {
        return Fail(StateIntegrity);
      }
      withdrawals := withdrawals[op := withdrawals[op].(status := if confirmed then Withdrawn else Unconfirmed)];
      return Pass;
    }

    method ExpiryAnswered(op: Uuid, confirmed: bool) returns (r: Check<RuntimeError>)
      modifies this`logins
      ensures match EndExpire(old(View()), op, confirmed)
              case Err(e) => r == Fail(e) && View() == old(View())
              case Ok(next) => r == Pass && View() == next
    {
      if op !in logins {
        return Fail(StateIntegrity);
      }
      if logins[op].status == Expiring {
        logins := logins[op := logins[op].(status := if confirmed then Expired else Uncertain)];
      }
      return Pass;
    }

    method DecideLogins(now: Instant) returns (decided: map<Uuid, ManagedLogin>)
      ensures decided == map op | op in logins :: Restarted(logins[op], now)
    {
      var todo := logins.Keys;
      decided := logins;
      while todo != {}
        invariant todo <= logins.Keys && decided.Keys == logins.Keys
        invariant forall k :: k in logins ==> decided[k] == if k in todo then logins[k] else Restarted(logins[k], now)
      {
        var op :| op in todo;
        if Undecided(decided[op].status) {
          var status := if decided[op].expiresAt <= now then Expired else Interrupted;
          decided := decided[op := decided[op].(status := status)];
        }
        todo := todo - {op};
      }
    }

    /** A withdrawal cannot be unfinished beside a connection. */
    method CloseWithdrawals() returns (r: Result<map<Uuid, Withdrawal>, RuntimeError>)
      ensures r == if connection.Some? && Withdrawing(View()) then Err(StateIntegrity)
                   else Ok(map op | op in withdrawals :: Reconciled(withdrawals[op]))
    {
      var todo, complete := withdrawals.Keys, withdrawals;
      while todo != {}
        invariant todo <= withdrawals.Keys && complete.Keys == withdrawals.Keys
        invariant forall k :: k in withdrawals ==>
                    complete[k] == if k in todo then withdrawals[k] else Reconciled(withdrawals[k])
        invariant forall k :: k !in todo ==> connection.None? || !Unfinished(View(), k)
      {
        var op :| op in todo;
        if complete[op].provider == Chatgpt && complete[op].status != Withdrawn {
          assert Unfinished(View(), op);
          if connection.Some? {
            return Err(StateIntegrity);
          }
          complete := complete[op := complete[op].(status := Withdrawn)];
        }
        todo := todo - {op};
      }
      assert complete == map op | op in withdrawals :: Reconciled(withdrawals[op]);
      return Ok(complete);
    }

    /** Both loops work on copies; nothing is changed when the second one meets a contradiction. */
    method Reconcile(account: NativeAccount, now: Instant) returns (r: Check<RuntimeError>)
      modifies this
      ensures match ReconcileStartup(old(View()), account, now)
              case Err(e) => r == Fail(e) && View() == old(View())
              case Ok(next) => r == Pass && View() == next
    {
      var connected := connection.Some?;
      if account == Unreadable || (!connected && account != NoAccount) || (connected && account != ChatgptAccount) {
        return Fail(ProviderAuth);
      }
      var decided := DecideLogins(now);
      var complete := CloseWithdrawals();
      if complete.Err? {
        return Fail(complete.error);
      }
      logins, withdrawals := decided, complete.value;
      return Pass;
    }

    method EnterCredential(op: Uuid, fingerprint: string, generation: Uuid) returns (r: Check<RuntimeError>)
      modifies this
      ensures match SetOpenrouter(old(View()), op, fingerprint, generation)
              case Err(e) => r == Fail(e) && View() == old(View())
              case Ok(next) => r == Pass && View() == next
    {
      if op in withdrawals || op in logins {
        return Fail(Conflict);
      }
      if op in credentials {
        return if credentials[op].fingerprint == fingerprint then Pass else Fail(Conflict);
      }
      openrouter := Some(generation);
      credentials := credentials[op := Entry(fingerprint, generation)];
      return Pass;
    }

    method RemoveCredential(op: Uuid) returns (r: Check<RuntimeError>)
      modifies this
      ensures match DisconnectOpenrouter(old(View()), op)
              case Err(e) => r == Fail(e) && View() == old(View())
              case Ok(next) => r == Pass && View() == next
    {
      if op in withdrawals {
        var previous := withdrawals[op];
        return if previous.provider == Openrouter && previous.status == Withdrawn then Pass else Fail(Conflict);
      }
      if op in credentials || op in logins {
        return Fail(Conflict);
      }
      var generation := openrouter;
      openrouter := None;
      withdrawals := withdrawals[op := Withdrawal(Openrouter, generation, Withdrawn)];
      return Pass;
    }
  }
}
