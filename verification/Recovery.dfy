/** Restarts, the one way they can fail for good, and the summary of a reachable ledger. */
module Recovery {
  import opened Base
  import opened Budget
  import opened Domain
  import opened Externals
  import opened Histories
  import opened Invariants
  import opened Journal
  import opened Preservation
  import opened Runs
  import opened Steps

  lemma RestartChecks(lib: Libraries, s: VaultState, now: Instant)
    requires Inv(lib, s)
    ensures Restart(lib, s, now).Ok? <==>
            forall id :: id in s.runs && InFlight(s.runs[id].state) ==> |s.runs[id].events| < MAX_EVENTS
    ensures Restart(lib, s, now).Err? ==> Restart(lib, s, now) == Err(Protocol)
  {
    hide Inv, Holdable, PaidRun, InFlight;
    forall id | id in Interrupted(s) && PaidRun(s.runs[id]) ensures Holdable(s.budget, id) {
      InFlightHoldable(lib, s, id);
    }
    assert forall id :: id in Interrupted(s) <==> id in s.runs && InFlight(s.runs[id].state);
  }

  /** Recovery succeeds exactly when no interrupted run has used up its log: the reservation of
      such a run can always be held. */
  lemma RestartSucceeds(lib: Libraries, h: History, i: nat, now: Instant)
    requires Happens(lib, h) && i < |h.states|
    ensures var s := h.states[i];
            && (Restart(lib, s, now).Ok? <==>
                  forall id :: id in s.runs && Midway(s.runs[id]) ==> |s.runs[id].events| < 16384)
            && (Restart(lib, s, now).Err? ==> Restart(lib, s, now) == Err(Protocol))
  {
    hide Inv, Restart;
    ReachableInv(lib, h, i);
    RestartChecks(lib, h.states[i], now);
  }

  lemma RestartForm(lib: Libraries, s: VaultState, now: Instant)
    requires Restart(lib, s, now).Ok?
    ensures var (t, r) := Commit(s, Restart(lib, s, now), true);
            && r == Ok(|Interrupted(s)|)
            && t == s.(runs := RecoveredRuns(s, Interrupted(s), now), budget := RecoveredBudget(s, Interrupted(s)))
  {
    hide InFlight, PaidRun, Holdable, Recovered;
    var ids := Interrupted(s);
    if ids == {} {
      assert RecoveredRuns(s, ids, now) == s.runs && RecoveredBudget(s, ids) == s.budget;
    }
  }

  lemma NothingInterrupted(lib: Libraries, t: VaultState, later: Instant)
    requires forall id :: id in t.runs ==> !InFlight(t.runs[id].state)
    ensures Interrupted(t) == {} && Restart(lib, t, later) == Ok(Keep(0))
  {
    hide InFlight, PaidRun, Holdable;
    assert Interrupted(t) == {};
  }

  lemma RestartSettles(lib: Libraries, s: VaultState, now: Instant, later: Instant)
    requires Inv(lib, s) && Restart(lib, s, now).Ok?
    ensures var (t, r) := Commit(s, Restart(lib, s, now), true);
            && r == Ok(|Interrupted(s)|) && Interrupted(t) == {}
            && Restart(lib, t, later) == Ok(Keep(0))
            && Total(t.budget) == Total(s.budget)
            && forall id :: id in Interrupted(s) ==>
                 && id in t.runs && t.runs[id].state == Unknown
                 && (PaidRun(s.runs[id]) ==> id in t.budget && t.budget[id].status == Uncertain)
  {
    hide Inv, Exposure, Total, Restart, Commit, PaidRun;
    RestartForm(lib, s, now);
    InvExposure(lib, s);
    forall id | id in Interrupted(s) && PaidRun(s.runs[id]) ensures Holdable(s.budget, id) {
      InFlightHoldable(lib, s, id);
    }
    RecoveredExposure(s, Interrupted(s));
    var t := s.(runs := RecoveredRuns(s, Interrupted(s), now), budget := RecoveredBudget(s, Interrupted(s)));
    NothingInterrupted(lib, t, later);
  }

  /** An attempt at the provider may have been going on. */
  predicate Midway(run: Run) {
    run.state == Dispatching || run.state == Running || run.state == CancellationRequested
  }

  /** What recovery makes of a run and of its reservation. */
  predicate Settled(before: VaultState, after: VaultState, id: Uuid, now: Instant)
    requires id in before.runs && id in after.runs
  {
    var run := before.runs[id];
    if !Midway(run) then after.runs[id] == run && Lookup(after.budget, id) == Lookup(before.budget, id)
    else
      && after.runs[id] == run.(state := Unknown, events := run.events + [Event(|run.events| + 1, now, UnknownOutcome)])
      && if run.registration.registration.profile.provider == Openrouter
         then && id in before.budget && id in after.budget
              && after.budget[id] == before.budget[id].(status := Uncertain)
         else Lookup(after.budget, id) == Lookup(before.budget, id)
  }

  lemma RunSettled(lib: Libraries, s: VaultState, now: Instant, id: Uuid)
    requires Inv(lib, s) && Restart(lib, s, now).Ok? && id in s.runs
    ensures var (t, r) := Commit(s, Restart(lib, s, now), true);
            t.runs.Keys == s.runs.Keys && Settled(s, t, id, now)
  {
    hide Inv, Restart, Commit;
    RestartForm(lib, s, now);
    if InFlight(s.runs[id].state) && PaidRun(s.runs[id]) {
      InFlightHoldable(lib, s, id);
    }
  }

  lemma MidwayCount(s: VaultState)
    ensures Interrupted(s) == set id | id in s.runs && Midway(s.runs[id])
  {
  }

  /** A durable recovery closes every run that was midway, as unknown, and marks the reservation of
      each paid one uncertain; it touches nothing else, refunds nothing and reports how many; and
      doing it again changes nothing and returns 0. */
  lemma RestartOnce(lib: Libraries, h: History, i: nat, now: Instant, later: Instant)
    requires Happens(lib, h) && i < |h.states| && Restart(lib, h.states[i], now).Ok?
    ensures var s := h.states[i];
            var (t, r) := Commit(s, Restart(lib, s, now), true);
            && r == Ok(|set id | id in s.runs && Midway(s.runs[id])|)
            && t.runs.Keys == s.runs.Keys && (forall id :: id in s.runs ==> Settled(s, t, id, now))
            && Restart(lib, t, later) == Ok(Keep(0))
            && Total(t.budget) == Total(s.budget)
  {
    hide Inv, Total, Restart, Commit, Interrupted, Settled, Midway;
    ReachableInv(lib, h, i);
    var s := h.states[i];
    RestartSettles(lib, s, now, later);
    MidwayCount(s);
    assert Commit(s, Restart(lib, s, now), true).0.runs.Keys == s.runs.Keys by { KeysKept(lib, s, now); }
    forall id | id in s.runs ensures Settled(s, Commit(s, Restart(lib, s, now), true).0, id, now) {
      RunSettled(lib, s, now, id);
    }
  }

  lemma KeysKept(lib: Libraries, s: VaultState, now: Instant)
    requires Restart(lib, s, now).Ok?
    ensures Commit(s, Restart(lib, s, now), true).0.runs.Keys == s.runs.Keys
  {
    hide Restart, Commit;
    RestartForm(lib, s, now);
  }

  /** A run that is in flight with a full log is stuck: in every later state of the history it is
      still in flight, its log is the same, and recovery fails. */
  lemma FullLogIsStuck(lib: Libraries, h: History, i: nat, j: nat, id: Uuid, now: Instant)
    requires Happens(lib, h) && i <= j < |h.states| && id in h.states[i].runs
    requires Midway(h.states[i].runs[id]) && |h.states[i].runs[id].events| == 16384
    ensures var s, t := h.states[i], h.states[j];
            && id in t.runs && t.runs[id].state == s.runs[id].state && t.runs[id].events == s.runs[id].events
            && Restart(lib, t, now) == Err(Protocol)
  {
    hide Inv, Extends, Restart;
    LaterExtends(lib, h, i, j);
    ReachableInv(lib, h, i);
    ReachableInv(lib, h, j);
    StaysStuck(lib, h.states[i], h.states[j], id, now);
  }

  lemma StaysStuck(lib: Libraries, s: VaultState, t: VaultState, id: Uuid, now: Instant)
    requires Inv(lib, s) && Inv(lib, t) && Extends(s, t)
    requires id in s.runs && InFlight(s.runs[id].state) && |s.runs[id].events| == MAX_EVENTS
    ensures id in t.runs && t.runs[id].state == s.runs[id].state && t.runs[id].events == s.runs[id].events
    ensures Restart(lib, t, now) == Err(Protocol)
  {
    hide Inv, Extends, Restart, InFlight, Replay;
    RunKept(s, t, id);
    LogBound(lib, s, id);
    LogBound(lib, t, id);
    assert t.runs[id].events == s.runs[id].events;
    RestartChecks(lib, t, now);
  }

  lemma LogBound(lib: Libraries, s: VaultState, id: Uuid)
    requires Inv(lib, s) && id in s.runs
    ensures 1 <= |s.runs[id].events| <= MAX_EVENTS && Replay(s.runs[id].events) == At(s.runs[id].state)
  {
    hide Inv, RequestOk, TurnsOk, Coupled, Replay;
    Local(lib, s, id);
  }

  // ----- the summary -----

  lemma ReachableLedger(lib: Libraries, s: VaultState)
    requires Inv(lib, s)
    ensures SoundLedger(s.budget)
  {
    hide RunOk, Fenced, Linked, Exposure, RootsBound, UniqueRevisions, SoundReservation;
    forall id | id in s.budget ensures SoundReservation(s.budget[id]) && s.budget[id].operationId == id {
      assert id in s.budget.Keys;
      assert LocalOk(lib, id, s.runs[id], Lookup(s.budget, id));
    }
  }

  lemma SummaryReads(lib: Libraries, s: VaultState)
    requires Inv(lib, s)
    ensures Summary(s.budget).Ok? <==> Total(s.budget) <= U64_MAX
    ensures !PaidDispatchBlocked(s.budget) ==> Summary(s.budget).Ok?
    ensures Summary(s.budget).Ok? ==> ValidFor(Summary(s.budget).value, "sdlc2")
  {
    hide Inv, Summary, ValidFor, Total, SoundLedger;
    ReachableLedger(lib, s);
    SummaryReadable(s.budget);
    InvExposure(lib, s);
    NoOvershoot(s.budget);
    if Summary(s.budget).Ok? {
      SummaryIsValid(s.budget);
    }
  }

  /** Any summary the journal can return passes the reader's check; it is returned exactly while
      the commitment fits in 64 bits, in particular while no receipt has exceeded its ceiling. */
  lemma ReachableSummary(lib: Libraries, h: History, i: nat)
    requires Happens(lib, h) && i < |h.states|
    ensures var budget := h.states[i].budget;
            && (Summary(budget).Ok? <==> Total(budget) <= U64_MAX)
            && (!PaidDispatchBlocked(budget) ==> Summary(budget).Ok?)
            && (Summary(budget).Ok? ==> ValidFor(Summary(budget).value, "sdlc2"))
  {
    hide Inv, Summary, ValidFor, Total;
    ReachableInv(lib, h, i);
    SummaryReads(lib, h.states[i]);
  }
}
