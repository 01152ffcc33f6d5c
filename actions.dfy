/**
 * The card actions of the board: opening the editor on a record or on a
 * new empty card, saving an edited record (validated, then replaced in
 * place or inserted at the top of its status group) and deleting a record.
 * Every accepted change is sent to the store and then noted in the
 * project's change log.
 */
module InvestorActions {
  import opened Wrappers
  import opened Values
  import opened ExcelParser
  import opened InvestorLists
  import KanbanStorage
  import Api

  /** The empty card `handleAddInvestor` opens the editor on. */
  function NewInvestor(uuid: string, status: string, now: string): Investor {
    Investor(id := JStr(uuid), name := JStr(""), kind := JStr(""), description := JStr(""),
             status := JStr(status), investmentMin := None, investmentMax := None,
             createdAt := JStr(now), email := JStr(""), linkedin := JStr(""))
  }

  /** A new card is refused by the save until it is given a name. */
  lemma NewCardNeedsName(investors: seq<Investor>, uuid: string, status: string, now: string)
    ensures ApplySave(investors, NewInvestor(uuid, status, now)) == Rejected
  {
  }

  /** Once named, a new card with an id, a status and a timestamp is accepted. */
  lemma NamedNewCardAccepted(investors: seq<Investor>, uuid: string, status: string, now: string, name: string)
    requires uuid != "" && status != "" && now != "" && name != ""
    ensures ApplySave(investors, NewInvestor(uuid, status, now).(name := JStr(name))) != Rejected
  {
  }

  /** What `handleSaveInvestor` does to the list. */
  datatype SaveEffect = Rejected | Replaced(investors: seq<Investor>) | Inserted(investors: seq<Investor>)

  /** `map(inv => inv.id === u.id ? u : inv)`. */
  function ReplaceById(s: seq<Investor>, u: Investor): (r: seq<Investor>)
    ensures |r| == |s|
  {
    seq(|s|, i requires 0 <= i < |s| => if s[i].id == u.id then u else s[i])
  }

  /**
   * A new record put at the top of its status group: just before the first
   * record with its status, or at the front when there is none.
   */
  function InsertAtGroupTop(s: seq<Investor>, u: Investor): seq<Investor> {
    if |InStatus(s, u.status)| == 0 then [u] + s
    else
      var k := FindStatusIndex(s, u.status);
      if k != -1 then SpliceInsert(s, k, u) else [u] + s
  }

  /**
   * `handleSaveInvestor` on the list: an incomplete record is refused; a
   * record whose id is on the board replaces it; any other is inserted.
   */
  function ApplySave(investors: seq<Investor>, updated: Investor): (r: SaveEffect)
    ensures r.Rejected? <==> !KanbanStorage.RecordComplete(updated)
    ensures r.Replaced? <==>
      KanbanStorage.RecordComplete(updated) && exists i :: 0 <= i < |investors| && investors[i].id == updated.id
    ensures r.Replaced? ==> r.investors == ReplaceById(investors, updated)
    ensures r.Inserted? ==> r.investors == InsertAtGroupTop(investors, updated)
  {
    if !KanbanStorage.RecordComplete(updated) then Rejected
    else if exists i :: 0 <= i < |investors| && investors[i].id == updated.id then
      Replaced(ReplaceById(investors, updated))
    else Inserted(InsertAtGroupTop(investors, updated))
  }

  /**
   * Replacing keeps the length and the id at every position: the record
   * with the edited id is the edited one, every other record is untouched,
   * and unique ids stay unique.
   */
  lemma ReplaceInPlace(s: seq<Investor>, u: Investor)
    ensures var r := ReplaceById(s, u);
      && |r| == |s|
      && (forall i :: 0 <= i < |s| ==> r[i].id == s[i].id)
      && (forall i :: 0 <= i < |s| ==> s[i].id == u.id ==> r[i] == u)
      && (forall i :: 0 <= i < |s| ==> s[i].id != u.id ==> r[i] == s[i])
      && (UniqueIds(s) ==> UniqueIds(r))
  {
  }

  /** Where `InsertAtGroupTop` puts the new record: the first index of its status, or 0. */
  function GroupTop(s: seq<Investor>, u: Investor): (p: nat)
    ensures p <= |s|
    ensures forall j :: 0 <= j < p ==> s[j].status != u.status
    ensures (exists j :: 0 <= j < |s| && s[j].status == u.status) ==> p < |s| && s[p].status == u.status
    ensures (forall j :: 0 <= j < |s| ==> s[j].status != u.status) ==> p == 0
  {
    var k := FindStatusIndex(s, u.status);
    if k >= 0 then k else 0
  }

  /** The insertion is the list cut at `GroupTop` with the new record in the cut. */
  lemma InsertAtGroupTopIsCut(s: seq<Investor>, u: Investor)
    ensures InsertAtGroupTop(s, u) == s[..GroupTop(s, u)] + [u] + s[GroupTop(s, u)..]
  {
    var k := FindStatusIndex(s, u.status);
    if k >= 0 {
      InStatusSublist(s, u.status);
      assert s[k] in s;
    } else {
      assert s[..0] + [u] + s[0..] == [u] + s;
    }
  }

  /**
   * Insertion at the top of the status group: the list grows by the new
   * record, with every other record in its old order around it, put just
   * before the first record of its status, or at the front when no record
   * has that status.
   */
  lemma InsertAtGroupTopPlacement(s: seq<Investor>, u: Investor)
    ensures var r := InsertAtGroupTop(s, u);
      && |r| == |s| + 1
      && multiset(r) == multiset(s) + multiset{u}
      && exists k :: 0 <= k <= |s| && r == s[..k] + [u] + s[k..]
                     && (forall j :: 0 <= j < k ==> s[j].status != u.status)
                     && ((k < |s| && s[k].status == u.status)
                         || (k == 0 && forall j :: 0 <= j < |s| ==> s[j].status != u.status))
  {
    var p := GroupTop(s, u);
    InsertAtGroupTopIsCut(s, u);
    assert s == s[..p] + s[p..];
  }

  /** A record put after no record of its status comes first in its status's filter. */
  lemma InStatusCutSame(pre: seq<Investor>, u: Investor, post: seq<Investor>)
    requires forall j :: 0 <= j < |pre| ==> pre[j].status != u.status
    ensures InStatus(pre + [u] + post, u.status) == [u] + InStatus(pre + post, u.status)
  {
    var st := u.status;
    InStatusAppend(pre + [u], post, st);
    InStatusAppend(pre, [u], st);
    InStatusAppend(pre, post, st);
    InStatusNone(pre, st);
    assert InStatus([u], st) == [u] + InStatus([u][1..], st);
    assert InStatus([u], st) == [u];
    assert InStatus(pre + [u], st) == [u];
    assert InStatus(pre + post, st) == InStatus(post, st);
  }

  /** A record of another status does not change a status's filter. */
  lemma InStatusCutOther(pre: seq<Investor>, u: Investor, post: seq<Investor>, st: Json)
    requires u.status != st
    ensures InStatus(pre + [u] + post, st) == InStatus(pre + post, st)
  {
    InStatusAppend(pre + [u], post, st);
    InStatusAppend(pre, [u], st);
    InStatusAppend(pre, post, st);
    assert InStatus([u], st) == InStatus([u][1..], st);
    assert InStatus(pre, st) + [] == InStatus(pre, st);
  }

  /**
   * The new record heads its status column, whose other cards keep their
   * order; every other column is unchanged.
   */
  lemma InsertHeadsItsColumn(s: seq<Investor>, u: Investor, other: Json)
    requires other != u.status
    ensures InStatus(InsertAtGroupTop(s, u), u.status) == [u] + InStatus(s, u.status)
    ensures InStatus(InsertAtGroupTop(s, u), other) == InStatus(s, other)
  {
    var p := GroupTop(s, u);
    var pre, post := s[..p], s[p..];
    InsertAtGroupTopIsCut(s, u);
    assert s == pre + post;
    assert forall j :: 0 <= j < |pre| ==> pre[j] == s[j];
    InStatusCutSame(pre, u, post);
    InStatusCutOther(pre, u, post, other);
  }

  /**
   * Deletion removes every record with the id and keeps all the others in
   * their order.
   */
  lemma DeleteById(s: seq<Investor>, id: string)
    ensures var r := Without(s, id);
      && (forall j :: 0 <= j < |r| ==> !HasId(r[j], id))
      && (forall x :: x in s && !HasId(x, id) ==> x in r)
      && Sublist(r, s)
      && (forall x :: multiset(r)[x] == if HasId(x, id) then 0 else multiset(s)[x])
  {
    forall x
      ensures multiset(Without(s, id))[x] == if HasId(x, id) then 0 else multiset(s)[x]
    {
      WithoutCount(s, id, x);
    }
    WithoutHasNoId(s, id);
    WithoutMembers(s, id);
    WithoutSublist(s, id);
  }

  /** Deleting the last card leaves an empty list, which the save refuses without a request. */
  lemma DeleteLastCardNotSaved(x: Investor, id: string, jsonId: Api.JsonId)
    requires HasId(x, id)
    ensures Without([x], id) == []
    ensures Api.SaveGateOf(Without([x], id), jsonId) != Api.Proceed
  {
    assert Without([x], id) == [] + Without([x][1..], id);
  }

  /** A change-log note: the prefix and the name as a template literal renders it. */
  function Note(prefix: string, name: Json): (r: Option<string>)
    ensures name.JStr? ==> r == Some(prefix + name.s)
  {
    match JsText(name)
    case Some(t) => Some(prefix + t)
    case None => None
  }

  /** The note for a deletion names the record found, or "Sconosciuto" when none or its name is falsy. */
  function DeleteNote(investors: seq<Investor>, id: string): (r: Option<string>)
    ensures Find(investors, id).None? ==> r == Some("Eliminato investitore: Sconosciuto")
    ensures Find(investors, id).Some? && !Truthy(Find(investors, id).value.name) ==>
              r == Some("Eliminato investitore: Sconosciuto")
    ensures Find(investors, id).Some? && Truthy(Find(investors, id).value.name) ==>
              r == Note("Eliminato investitore: ", Find(investors, id).value.name)
    ensures Find(investors, id).Some? && Find(investors, id).value.name.JStr? && Find(investors, id).value.name.s != "" ==>
              r == Some("Eliminato investitore: " + Find(investors, id).value.name.s)
  {
    var found := Find(investors, id);
    var name := if found.Some? then Or(Some(found.value.name), JStr("Sconosciuto")) else JStr("Sconosciuto");
    assert "Eliminato investitore: " + "Sconosciuto" == "Eliminato investitore: Sconosciuto";
    Note("Eliminato investitore: ", name)
  }

  /**
   * `handleSaveInvestor`. A refused record changes nothing and sends
   * nothing. Otherwise the new list is saved and then, whatever the save's
   * result, the change is noted in the log with one request.
   */
  method HandleSaveInvestor(investors: seq<Investor>, updated: Investor, jsonId: Api.JsonId,
                            saveOutcomes: seq<bool>, trackOutcome: bool)
    returns (effect: SaveEffect, saveOk: bool, saveRequests: nat, note: Option<string>, track: Api.RequestResult)
    requires |saveOutcomes| > Api.MAX_RETRIES
    ensures effect == ApplySave(investors, updated)
    ensures effect.Rejected? ==> !saveOk && saveRequests == 0 && note.None? && track == Api.RequestResult(false, 0)
    ensures !effect.Rejected? ==>
      && (saveRequests == 0 <==> Api.SaveGateOf(effect.investors, jsonId) != Api.Proceed)
      && (saveOk ==> Api.ValidInvestorsData(effect.investors) && Api.HasJsonId(jsonId))
      && note == Note(if effect.Replaced? then "Aggiornato investitore: " else "Nuovo investitore: ", updated.name)
      && track == Api.TrackCardUpdate(jsonId, trackOutcome)
  {
    effect := ApplySave(investors, updated);
    if effect.Rejected? {
      return effect, false, 0, None, Api.RequestResult(false, 0);
    }
    var waits;
    saveOk, saveRequests, waits := Api.SaveInvestors(effect.investors, jsonId, saveOutcomes);
    note := Note(if effect.Replaced? then "Aggiornato investitore: " else "Nuovo investitore: ", updated.name);
    track := Api.TrackCardUpdate(jsonId, trackOutcome);
  }

  /**
   * `handleDeleteInvestor`: the list without the id is handed to the board
   * and saved, and the deletion is noted in the log.
   */
  method HandleDeleteInvestor(investors: seq<Investor>, investorId: string, jsonId: Api.JsonId,
                              saveOutcomes: seq<bool>, trackOutcome: bool)
    returns (newInvestors: seq<Investor>, saveOk: bool, saveRequests: nat, note: Option<string>, track: Api.RequestResult)
    requires |saveOutcomes| > Api.MAX_RETRIES
    ensures newInvestors == Without(investors, investorId)
    ensures saveRequests == 0 <==> Api.SaveGateOf(newInvestors, jsonId) != Api.Proceed
    ensures saveOk ==> Api.ValidInvestorsData(newInvestors) && Api.HasJsonId(jsonId)
    ensures note == DeleteNote(investors, investorId)
    ensures track == Api.TrackCardUpdate(jsonId, trackOutcome)
  {
    newInvestors := Without(investors, investorId);
    var waits;
    saveOk, saveRequests, waits := Api.SaveInvestors(newInvestors, jsonId, saveOutcomes);
    note := DeleteNote(investors, investorId);
    track := Api.TrackCardUpdate(jsonId, trackOutcome);
  }

  /** The editor state the actions keep: the record being edited and whether the editor is open. */
  class ActionsState {
    var editing: Option<Investor>
    var modalOpen: bool

    constructor()
      ensures editing.None? && !modalOpen
    {
      editing, modalOpen := None, false;
    }

    /** `handleEditInvestor`: open the editor on a record. */
    method HandleEditInvestor(inv: Investor)
      modifies this
      ensures editing == Some(inv) && modalOpen
    {
      editing, modalOpen := Some(inv), true;
    }

    /** `handleAddInvestor`: open the editor on a new empty card of the column's status; the list is not touched. */
    method HandleAddInvestor(status: string, uuid: string, now: string)
      modifies this
      ensures editing == Some(NewInvestor(uuid, status, now)) && modalOpen
    {
      editing, modalOpen := Some(NewInvestor(uuid, status, now)), true;
    }

    /** `setIsModalOpen`. */
    method SetModalOpen(open: bool)
      modifies this
      ensures modalOpen == open && editing == old(editing)
    {
      modalOpen := open;
    }
  }
}
