/**
 * Persistence of the board: the completeness check the board applies
 * before saving, the debounced auto-save driven by changes to the list,
 * and the manual save.
 *
 * The auto-save is a state machine over the saving flag, the one pending
 * timer and the fingerprint of the last list saved. A run of the change
 * effect, the firing of the timer and the completion of a save are
 * separate steps, because the save is asynchronous: other events can
 * happen while it is in flight.
 */
module KanbanStorage {
  import opened Wrappers
  import opened Values
  import opened ExcelParser
  import Api

  /** The board's completeness test for one record: truthy id, name, status and createdAt; string text fields. */
  predicate RecordComplete(inv: Investor) {
    && Truthy(inv.id)
    && Truthy(inv.name)
    && IsString(inv.kind)
    && IsString(inv.description)
    && Truthy(inv.status)
    && Truthy(inv.createdAt)
    && IsString(inv.email)
    && IsString(inv.linkedin)
  }

  /** `isCompleteInvestorsData`: the empty list counts as complete. */
  predicate IsCompleteInvestorsData(investors: seq<Investor>) {
    |investors| == 0 || forall i :: 0 <= i < |investors| ==> RecordComplete(investors[i])
  }

  /** Every list the save validator accepts is complete; the converse fails on the empty list. */
  lemma ValidImpliesComplete(investors: seq<Investor>)
    requires Api.ValidInvestorsData(investors)
    ensures IsCompleteInvestorsData(investors) && |investors| > 0
  {
  }

  /** The two checks disagree on the empty list: complete, but refused by the save. */
  lemma EmptyListDisagreement()
    ensures IsCompleteInvestorsData([]) && !Api.ValidInvestorsData([])
  {
  }

  /**
   * Completeness asks for a truthy id only, so a record whose id is a
   * truthy non-string (a non-zero number, `true`, an array or an object)
   * passes it but not the save validator.
   */
  lemma NonStringIdDisagreement(inv: Investor)
    requires RecordComplete(inv) && !inv.id.JStr?
    ensures IsCompleteInvestorsData([inv]) && !Api.ValidInvestorsData([inv])
  {
    assert !Api.RecordValid([inv][0]);
  }

  // ---------------------------------------------------------------------
  // The auto-save decision.

  /** What a run of the change effect does once the previous timer is cancelled. */
  datatype AutoSaveDecision =
    | Skipped       // empty list, save in flight, initial load not done, or no project id
    | Incomplete    // refused with an error notice
    | Unchanged     // the list is the one saved last
    | Schedule      // a save is scheduled for two seconds later

  /**
   * The effect's gates in their order. `lastSaved` is the fingerprint:
   * the list saved last, if any; two lists have the same serialisation
   * exactly when they are equal.
   */
  function DecideAutoSave(investors: seq<Investor>, isSaving: bool, loadDone: bool,
                          jsonId: Api.JsonId, lastSaved: Option<seq<Investor>>): (d: AutoSaveDecision)
    ensures d == Schedule ==> |investors| > 0 && !isSaving && loadDone && Api.HasJsonId(jsonId)
                              && IsCompleteInvestorsData(investors) && lastSaved != Some(investors)
    ensures (|investors| == 0 || isSaving || !loadDone || !Api.HasJsonId(jsonId)) <==> d == Skipped
    ensures d == Incomplete <==> d != Skipped && !IsCompleteInvestorsData(investors)
    ensures d == Unchanged <==> d != Skipped && IsCompleteInvestorsData(investors) && lastSaved == Some(investors)
  {
    if |investors| == 0 || isSaving || !loadDone || !Api.HasJsonId(jsonId) then Skipped
    else if !IsCompleteInvestorsData(investors) then Incomplete
    else if lastSaved == Some(investors) then Unchanged
    else Schedule
  }

  /** A list that reaches the timer is non-empty and complete. */
  lemma ScheduledListsAreComplete(investors: seq<Investor>, isSaving: bool, loadDone: bool,
                                  jsonId: Api.JsonId, lastSaved: Option<seq<Investor>>)
    requires DecideAutoSave(investors, isSaving, loadDone, jsonId, lastSaved) == Schedule
    ensures |investors| > 0 && forall i :: 0 <= i < |investors| ==> RecordComplete(investors[i])
  {
  }

  /** Who started a save. */
  datatype Origin = Auto | Manual

  /** A save: the list and project id it was started with. */
  datatype Job = Job(investors: seq<Investor>, jsonId: Api.JsonId, origin: Origin)

  /** A job the coordinator can hand to the store: a non-empty list and a project id. */
  predicate ReadyJob(j: Job) {
    |j.investors| > 0 && Api.HasJsonId(j.jsonId)
  }

  /**
   * The coordinator's state: the saving flag, the one timer slot, the saves
   * in flight (in the order started) and the fingerprint of the last save.
   */
  class AutoSaver {
    var isSaving: bool
    var pending: Option<Job>
    var inFlight: seq<Job>
    var lastSaved: Option<seq<Investor>>

    predicate Valid()
      reads this
    {
      && (isSaving ==> inFlight != [])
      && (pending.Some? ==> ReadyJob(pending.value) && pending.value.origin == Auto)
      && (forall i :: 0 <= i < |inFlight| ==> ReadyJob(inFlight[i]))
    }

    constructor()
      ensures Valid()
      ensures !isSaving && pending.None? && inFlight == [] && lastSaved.None?
    {
      isSaving, pending, inFlight, lastSaved := false, None, [], None;
    }

    /**
     * A run of the change effect after the list, the load flag or the
     * project id changed. The previous run's cleanup first cancels any
     * pending timer; then the gates decide. `notice` says whether the
     * incomplete-data error was shown.
     */
    method OnChange(investors: seq<Investor>, loadDone: bool, jsonId: Api.JsonId) returns (notice: bool)
      requires Valid()
      modifies this
      ensures Valid()
      ensures var d := DecideAutoSave(investors, old(isSaving), loadDone, jsonId, old(lastSaved));
        && (d == Schedule ==> pending == Some(Job(investors, jsonId, Auto)))
        && (d != Schedule ==> pending.None?)
        && (notice <==> d == Incomplete)
      ensures isSaving == old(isSaving) && inFlight == old(inFlight) && lastSaved == old(lastSaved)
    {
      pending := None;
      var d := DecideAutoSave(investors, isSaving, loadDone, jsonId, lastSaved);
      notice := d == Incomplete;
      if d == Schedule {
        pending := Some(Job(investors, jsonId, Auto));
      }
    }

    /** The component unmounts: the last run's cleanup cancels the pending timer. */
    method Teardown()
      requires Valid()
      modifies this
      ensures Valid()
      ensures pending.None? && isSaving == old(isSaving) && inFlight == old(inFlight) && lastSaved == old(lastSaved)
    {
      pending := None;
    }

    /** The debounce timer fires: the save of the list captured when it was scheduled starts. */
    method TimerFire()
      requires Valid() && pending.Some?
      modifies this
      ensures Valid()
      ensures isSaving && pending.None? && inFlight == old(inFlight) + [old(pending.value)]
      ensures lastSaved == old(lastSaved)
    {
      isSaving := true;
      inFlight := inFlight + [pending.value];
      pending := None;
    }

    /**
     * `saveToStorage`. Refused without a project id, for an empty list and
     * for an incomplete one; otherwise a save starts whether or not another
     * is in flight.
     */
    method ManualSave(investors: seq<Investor>, jsonId: Api.JsonId) returns (started: bool)
      requires Valid()
      modifies this
      ensures Valid()
      ensures started <==> Api.HasJsonId(jsonId) && |investors| > 0 && IsCompleteInvestorsData(investors)
      ensures started ==> isSaving && inFlight == old(inFlight) + [Job(investors, jsonId, Manual)]
      ensures !started ==> isSaving == old(isSaving) && inFlight == old(inFlight)
      ensures pending == old(pending) && lastSaved == old(lastSaved)
    {
      if !Api.HasJsonId(jsonId) {
        return false;
      }
      if |investors| > 0 {
        if !IsCompleteInvestorsData(investors) {
          return false;
        }
        isSaving := true;
        inFlight := inFlight + [Job(investors, jsonId, Manual)];
        return true;
      }
      return false;
    }

    /**
     * The save in flight at index `k` completes; `outcomes` are the
     * responses to its requests. The fingerprint moves to its list only if
     * it succeeded, and the saving flag is cleared whatever the outcome.
     * For a manual save, `ok` is what `saveToStorage` returns.
     */
    method SaveDone(k: nat, outcomes: seq<bool>) returns (ok: bool)
      requires Valid() && k < |inFlight|
      requires |outcomes| > Api.MAX_RETRIES
      modifies this
      ensures Valid()
      ensures var j := old(inFlight[k]);
        && (ok ==> lastSaved == Some(j.investors))
        && (!ok ==> lastSaved == old(lastSaved))
        && (ok <==> Api.ValidInvestorsData(j.investors) && exists r :: 0 <= r <= Api.MAX_RETRIES && outcomes[r])
      ensures !isSaving && pending == old(pending)
      ensures inFlight == old(inFlight[..k] + inFlight[k + 1..])
    {
      var job := inFlight[k];
      var requests, waits;
      ok, requests, waits := Api.SaveInvestors(job.investors, job.jsonId, outcomes);
      if ok {
        lastSaved := Some(job.investors);
      } else if Api.ValidInvestorsData(job.investors) {
        assert forall r :: 0 <= r < requests ==> !outcomes[r];
      }
      isSaving := false;
      inFlight := inFlight[..k] + inFlight[k + 1..];
    }
  }

  /**
   * A manual save started while the auto-save is in flight runs beside it,
   * and the first one to finish clears the saving flag while the other is
   * still in flight.
   */
  method OverlappingSaves(investors: seq<Investor>, jsonId: Api.JsonId, outcomes: seq<bool>)
    returns (saving: bool, stillInFlight: nat)
    requires Api.HasJsonId(jsonId) && |investors| > 0 && IsCompleteInvestorsData(investors)
    requires |outcomes| > Api.MAX_RETRIES
    ensures !saving && stillInFlight == 1
  {
    var saver := new AutoSaver();
    var notice := saver.OnChange(investors, true, jsonId);
    saver.TimerFire();
    var started := saver.ManualSave(investors, jsonId);
    assert |saver.inFlight| == 2;
    var ok := saver.SaveDone(0, outcomes);
    saving, stillInFlight := saver.isSaving, |saver.inFlight|;
  }

  /**
   * After a successful save of a list, a change back to that same list
   * schedules nothing.
   */
  method SavedListIsNotSavedAgain(investors: seq<Investor>, jsonId: Api.JsonId, outcomes: seq<bool>)
    returns (ok: bool, scheduled: bool)
    requires Api.HasJsonId(jsonId) && Api.ValidInvestorsData(investors)
    requires |outcomes| > Api.MAX_RETRIES && outcomes[0]
    ensures ok && !scheduled
  {
    var saver := new AutoSaver();
    var notice := saver.OnChange(investors, true, jsonId);
    saver.TimerFire();
    ok := saver.SaveDone(0, outcomes);
    notice := saver.OnChange(investors, true, jsonId);
    scheduled := saver.pending.Some?;
  }
}
