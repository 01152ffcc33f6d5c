/**
 * Drag and drop on the board: which drops change the list and how, the
 * insertion marker the mouse position selects, and the controller state
 * the drag handlers keep between events.
 *
 * The DOM is replaced by what the handlers read from it: the card being
 * dragged (its investor id and the status of the column around it), the
 * droppable container and card under the mouse, and the card's box.
 */
module DragAndDrop {
  import opened Wrappers
  import opened Values
  import opened ExcelParser
  import opened InvestorLists
  import KanbanConstants
  import Api

  // ---------------------------------------------------------------------
  // Drop resolution.

  /**
   * Where a drop lands. `Container` is a droppable column area: `column` is
   * the status attribute of the enclosing column (None when there is no
   * such column, Some("") when the attribute is empty) and `card` the
   * investor id of the card under the mouse, if any (Some("") for a card
   * without one). `NoContainer` is anywhere else.
   */
  datatype DropTarget =
    | DeleteZone
    | Container(column: Option<string>, card: Option<string>)
    | NoContainer

  /** The three kinds of drop that rewrite the list. */
  datatype DropKind = MoveToDropped | Reorder | MoveToColumn

  /** A drop either leaves the list alone, or hands one new list to the board and to the save. */
  datatype DropOutcome = Ignored | Updated(kind: DropKind, investors: seq<Investor>)

  /**
   * The list after a same-column reorder: the dragged record is taken out
   * and put back just above or just below the first card with `targetId`.
   */
  function ReorderedList(s: seq<Investor>, id: string, targetId: string, above: bool): seq<Investor>
    requires FindIndex(s, id) >= 0
  {
    var dragged := s[FindIndex(s, id)];
    var rest := Without(s, id);
    var t := FindIndex(rest, targetId);
    SpliceInsert(rest, if above then t else t + 1, dragged)
  }

  /** `!x` for an optional text: undefined, null and "" are all missing. */
  predicate Missing(x: Option<string>) {
    x.None? || x.value == ""
  }

  /**
   * `handleDrop` once the DOM has been read. `investorId` is the id carried
   * by the drag ("" when none), `sourceStatus` the status of the column the
   * drag started in, and `above` whether the card under the mouse shows
   * the insertion-above marker.
   */
  function ResolveDrop(investors: seq<Investor>, investorId: string, sourceStatus: Option<string>,
                       target: DropTarget, above: bool): (r: DropOutcome)
    ensures investorId == "" ==> r == Ignored
    ensures r.Updated? ==> investorId != "" && FindIndex(investors, investorId) >= 0
    ensures (r.Updated? && r.kind == MoveToDropped) <==>
              (investorId != "" && target == DeleteZone && FindIndex(investors, investorId) >= 0)
    ensures r.Updated? && r.kind == MoveToDropped ==>
              r.investors == Relabel(investors, investorId, KanbanConstants.DROPPED_STATUS)
    ensures r.Updated? && r.kind == MoveToColumn ==>
              && target.Container? && target.column.Some? && !Missing(target.column) && !Missing(sourceStatus)
              && target.column.value != sourceStatus.value
              && r.investors == Relabel(investors, investorId, target.column.value)
    ensures r.Updated? && r.kind == Reorder ==>
              && target.Container? && target.card.Some? && !Missing(target.card) && !Missing(sourceStatus)
              && target.column == sourceStatus && target.card.value != investorId
              && r.investors == ReorderedList(investors, investorId, target.card.value, above)
    ensures investorId != "" && FindIndex(investors, investorId) >= 0 && target.Container?
            && !Missing(target.column) && !Missing(sourceStatus) && target.column.value != sourceStatus.value ==>
              r == Updated(MoveToColumn, Relabel(investors, investorId, target.column.value))
    ensures investorId != "" && FindIndex(investors, investorId) >= 0 && target.Container?
            && !Missing(target.column) && !Missing(sourceStatus) && target.column == sourceStatus
            && !Missing(target.card) && target.card.value != investorId ==>
              r == Updated(Reorder, ReorderedList(investors, investorId, target.card.value, above))
    ensures target.Container? && target.column == sourceStatus && target.card == Some(investorId) ==> r == Ignored
    ensures target == Container(sourceStatus, None) ==> r == Ignored
  {
    if investorId == "" then Ignored
    else
      match target
      case DeleteZone =>
        if FindIndex(investors, investorId) < 0 then Ignored
        else Updated(MoveToDropped, Relabel(investors, investorId, KanbanConstants.DROPPED_STATUS))
      case NoContainer => Ignored
      case Container(column, card) =>
        if column.None? || Missing(sourceStatus) then Ignored
        else if column.value == "" then Ignored
        else if FindIndex(investors, investorId) < 0 then Ignored
        else if card.Some? && column.value == sourceStatus.value then
          if card.value == "" || card.value == investorId then Ignored
          else Updated(Reorder, ReorderedList(investors, investorId, card.value, above))
        else if column.value != sourceStatus.value then
          Updated(MoveToColumn, Relabel(investors, investorId, column.value))
        else Ignored
  }

  /**
   * On a move to another column the point of the drop does not matter:
   * the card under the mouse and the marker it shows change nothing.
   */
  lemma ColumnMoveIgnoresDropPoint(investors: seq<Investor>, investorId: string, source: string, column: string,
                                   card1: Option<string>, card2: Option<string>, above1: bool, above2: bool)
    requires column != source
    ensures ResolveDrop(investors, investorId, Some(source), Container(Some(column), card1), above1)
         == ResolveDrop(investors, investorId, Some(source), Container(Some(column), card2), above2)
  {
  }

  /** A reorder splices the dragged record into the list without it, next to the target. */
  lemma ReorderedListIs(s: seq<Investor>, id: string, targetId: string, above: bool)
    requires FindIndex(s, id) >= 0
    ensures var rest := Without(s, id);
      ReorderedList(s, id, targetId, above)
        == SpliceInsert(rest, if above then FindIndex(rest, targetId) else FindIndex(rest, targetId) + 1, s[FindIndex(s, id)])
  {
  }

  /** The dragged record's index; with unique ids no other record has its id. */
  lemma UniqueIdAt(s: seq<Investor>, id: string)
    requires UniqueIds(s) && FindIndex(s, id) >= 0
    ensures forall j :: 0 <= j < |s| && j != FindIndex(s, id) ==> !HasId(s[j], id)
  {
    var k := FindIndex(s, id);
    forall j | 0 <= j < |s| && j != k
      ensures !HasId(s[j], id)
    {
      if j < k {
        assert s[j].id != s[k].id;
      } else {
        assert s[k].id != s[j].id;
      }
    }
  }

  /** With unique ids, a reorder is a permutation of the list. */
  lemma ReorderIsPermutation(s: seq<Investor>, id: string, targetId: string, above: bool)
    requires UniqueIds(s) && FindIndex(s, id) >= 0
    ensures |ReorderedList(s, id, targetId, above)| == |s|
    ensures multiset(ReorderedList(s, id, targetId, above)) == multiset(s)
  {
    var k := FindIndex(s, id);
    var rest := Without(s, id);
    var t := FindIndex(rest, targetId);
    ReorderedListIs(s, id, targetId, above);
    UniqueIdAt(s, id);
    WithoutSingleMultiset(s, id, k);
  }

  /**
   * Apart from the dragged record, a reorder keeps every record and their
   * relative order: removing the dragged id before or after gives the same list.
   */
  lemma ReorderKeepsOthersInOrder(s: seq<Investor>, id: string, targetId: string, above: bool)
    requires FindIndex(s, id) >= 0
    ensures Without(ReorderedList(s, id, targetId, above), id) == Without(s, id)
  {
    var t := FindIndex(Without(s, id), targetId);
    ReorderedListIs(s, id, targetId, above);
    SplicedBackWithout(s, id, if above then t else t + 1);
  }

  /** Splicing the dragged record back anywhere into the list without it, and removing its id again, gives that list. */
  lemma SplicedBackWithout(s: seq<Investor>, id: string, start: int)
    requires FindIndex(s, id) >= 0
    ensures Without(SpliceInsert(Without(s, id), start, s[FindIndex(s, id)]), id) == Without(s, id)
  {
    WithoutHasNoId(s, id);
    WithoutSpliced(Without(s, id), start, s[FindIndex(s, id)], id);
  }

  /** The target card, having another id, is still found once the dragged record is removed. */
  lemma TargetSurvivesRemoval(s: seq<Investor>, id: string, targetId: string)
    requires FindIndex(s, targetId) >= 0 && targetId != id
    ensures FindIndex(Without(s, id), targetId) >= 0
  {
    var rest := Without(s, id);
    var target := s[FindIndex(s, targetId)];
    WithoutMembers(s, id);
    assert target in rest;
    var m :| 0 <= m < |rest| && rest[m] == target;
    assert HasId(rest[m], targetId);
  }

  /**
   * A reorder onto another card puts the dragged record immediately above
   * that card when the marker says above, and immediately below otherwise.
   */
  lemma ReorderPlacesNextToTarget(s: seq<Investor>, id: string, targetId: string, above: bool)
    requires FindIndex(s, id) >= 0 && FindIndex(s, targetId) >= 0 && targetId != id
    ensures var r := ReorderedList(s, id, targetId, above);
      var q := FindIndex(Without(s, id), targetId);
      && 0 <= q && q + 1 < |r|
      && (above ==> r[q] == s[FindIndex(s, id)] && HasId(r[q + 1], targetId))
      && (!above ==> HasId(r[q], targetId) && r[q + 1] == s[FindIndex(s, id)])
  {
    var rest := Without(s, id);
    var x := s[FindIndex(s, id)];
    TargetSurvivesRemoval(s, id, targetId);
    var q := FindIndex(rest, targetId);
    ReorderedListIs(s, id, targetId, above);
    InsertNextTo(rest, q, x, above);
  }

  /** Inserting at `q` or `q + 1` puts the new record just above or just below the old `rest[q]`. */
  lemma InsertNextTo(rest: seq<Investor>, q: nat, x: Investor, above: bool)
    requires q < |rest|
    ensures var r := SpliceInsert(rest, if above then q else q + 1, x);
      && q + 1 < |r|
      && (above ==> r[q] == x && r[q + 1] == rest[q])
      && (!above ==> r[q] == rest[q] && r[q + 1] == x)
  {
    SpliceNeighbours(rest, if above then q else q + 1, x);
  }

  /** A drop with no id, or a delete-zone drop of an id not on the board, changes nothing. */
  lemma UnknownDropsIgnored(investors: seq<Investor>, investorId: string, sourceStatus: Option<string>, above: bool)
    requires investorId == "" || FindIndex(investors, investorId) < 0
    ensures ResolveDrop(investors, investorId, sourceStatus, DeleteZone, above) == Ignored
  {
  }

  /**
   * Without unique ids a reorder loses records: the removal takes out every
   * copy of the dragged id and only one is put back.
   */
  lemma RepeatedIdReorderShrinks(s: seq<Investor>, id: string, targetId: string, above: bool, i: nat, j: nat)
    requires i < j < |s| && HasId(s[i], id) && HasId(s[j], id)
    ensures FindIndex(s, id) >= 0
    ensures |ReorderedList(s, id, targetId, above)| < |s|
  {
    ReorderedListIs(s, id, targetId, above);
    WithoutDropsTwo(s, id, i, j);
  }

  /**
   * Every drop that changes the list keeps its length when ids are
   * unique, and the save it triggers carries no project id, so it sends
   * nothing.
   */
  lemma DropKeepsLength(investors: seq<Investor>, investorId: string, sourceStatus: Option<string>,
                        target: DropTarget, above: bool)
    requires UniqueIds(investors)
    ensures var r := ResolveDrop(investors, investorId, sourceStatus, target, above);
      r.Updated? ==> |r.investors| == |investors| && Api.SaveGateOf(r.investors, None) == Api.NoJsonId
  {
    var r := ResolveDrop(investors, investorId, sourceStatus, target, above);
    if r.Updated? && r.kind == Reorder {
      ReorderIsPermutation(investors, investorId, target.card.value, above);
    }
  }

  // ---------------------------------------------------------------------
  // The insertion marker.

  /** The midpoint rule: the insertion marker goes above when the mouse is above the card's middle. */
  function InsertAbove(mouseY: real, top: real, height: real): (r: bool) {
    mouseY < top + height / 2.0
  }

  /** For a card of positive height, its upper half selects above and its lower half below. */
  lemma MidpointHalves(mouseY: real, top: real, height: real)
    requires height > 0.0 && top <= mouseY <= top + height
    ensures InsertAbove(mouseY, top, height) <==> mouseY - top < top + height - mouseY
  {
  }

  /** An insertion marker on a card: the droppable container it is in, and its side. */
  datatype Marker = Marker(container: string, above: bool)

  /** The markers left after removing those of the cards in one container. */
  function ClearContainer(markers: map<string, Marker>, container: string): (r: map<string, Marker>)
    ensures forall c :: c in r <==> c in markers && markers[c].container != container
    ensures forall c :: c in r ==> r[c] == markers[c]
  {
    map c | c in markers && markers[c].container != container :: markers[c]
  }

  /** The card a drag starts from: its investor id ("" when it has none) and the status of its column, if found. */
  datatype DragSource = DragSource(investorId: string, column: Option<string>)

  /** Whether the card under a drop shows the insertion-above marker. */
  function AboveMarked(markers: map<string, Marker>, target: DropTarget): (r: bool)
    ensures r ==> target.Container? && target.card.Some? && target.card.value in markers
  {
    target.Container? && target.card.Some? && target.card.value in markers && markers[target.card.value].above
  }

  /** The id a drop carries: the transferred text, else the dragging id. */
  function DroppedId(transfer: string, draggingId: Option<string>): (r: string)
    ensures transfer != "" ==> r == transfer
    ensures transfer == "" && draggingId.Some? ==> r == draggingId.value
    ensures transfer == "" && draggingId.None? ==> r == ""
  {
    if transfer != "" then transfer else draggingId.GetOr("")
  }

  /**
   * The drag handlers' state: the dragging id, the dragged card, the source
   * column's status and the insertion markers shown on cards (by investor
   * id). The drag's data transfer belongs to the drag, not to the
   * handlers: the drag start returns the text it puts there, and the drop
   * is given the text its own drag carries.
   */
  class DragController {
    var draggingId: Option<string>
    var draggingCard: Option<DragSource>
    var sourceStatus: Option<string>
    var markers: map<string, Marker>

    /** The refs are set from `x || null`, so they never hold "". */
    predicate Valid()
      reads this
    {
      && (draggingId.Some? ==> draggingId.value != "")
      && (sourceStatus.Some? ==> sourceStatus.value != "")
    }

    constructor()
      ensures Valid()
      ensures draggingId.None? && draggingCard.None? && sourceStatus.None? && markers == map[]
    {
      draggingId, draggingCard, sourceStatus, markers := None, None, None, map[];
    }

    /**
     * `handleDragStart`. A drag from outside a card changes nothing and
     * puts no text in its data transfer (`data` is ""); the source status is
     * kept from the previous drag when the card is in no column. `data` is
     * the `text/plain` text the drag then carries.
     */
    method HandleDragStart(card: Option<DragSource>) returns (data: string)
      requires Valid()
      modifies this
      ensures Valid()
      ensures card.None? ==> draggingId == old(draggingId) && draggingCard == old(draggingCard)
                             && sourceStatus == old(sourceStatus) && data == ""
      ensures card.Some? ==>
        && draggingCard == card
        && draggingId == (if card.value.investorId == "" then None else Some(card.value.investorId))
        && data == card.value.investorId
        && sourceStatus == (match card.value.column
                            case None => old(sourceStatus)
                            case Some(st) => if st == "" then None else Some(st))
      ensures markers == old(markers)
    {
      if card.None? {
        return "";
      }
      var c := card.value;
      draggingCard := card;
      draggingId := if c.investorId == "" then None else Some(c.investorId);
      if c.column.Some? {
        sourceStatus := if c.column.value == "" then None else Some(c.column.value);
      }
      data := c.investorId;
    }

    /** `handleDragEnd`: for an element target, forgets the dragged card, its id and its source status. */
    method HandleDragEnd(targetIsElement: bool)
      requires Valid()
      modifies this
      ensures Valid()
      ensures targetIsElement ==> draggingId.None? && draggingCard.None? && sourceStatus.None?
      ensures !targetIsElement ==> draggingId == old(draggingId) && draggingCard == old(draggingCard)
                                   && sourceStatus == old(sourceStatus)
      ensures markers == old(markers)
    {
      if !targetIsElement {
        return;
      }
      draggingCard := None;
      sourceStatus := None;
      draggingId := None;
    }

    /**
     * `handleDragOver`. Over a card other than the dragged one, inside a
     * droppable container and while a drag is active, the container's
     * markers are cleared and the card gets the marker the midpoint rule
     * selects; otherwise no marker changes.
     */
    method HandleDragOver(overDeleteZone: bool, container: Option<string>, card: Option<string>,
                          mouseY: real, top: real, height: real)
      requires Valid()
      modifies this
      ensures Valid()
      ensures draggingId == old(draggingId) && draggingCard == old(draggingCard)
              && sourceStatus == old(sourceStatus)
      ensures var active := !overDeleteZone && container.Some? && card.Some?
                            && draggingId.Some? && draggingId.value != card.value;
        && (active ==> markers == ClearContainer(old(markers), container.value)[card.value := Marker(container.value, InsertAbove(mouseY, top, height))])
        && (!active ==> markers == old(markers))
    {
      if overDeleteZone || container.None? {
        return;
      }
      if card.Some? && draggingId.Some? && draggingId.value != card.value {
        var cleared := ClearContainer(markers, container.value);
        markers := cleared[card.value := Marker(container.value, InsertAbove(mouseY, top, height))];
      }
    }

    /** `handleDragLeave`: leaving a card inside a droppable container removes that card's marker. */
    method HandleDragLeave(container: Option<string>, card: Option<string>)
      requires Valid()
      modifies this
      ensures Valid()
      ensures draggingId == old(draggingId) && draggingCard == old(draggingCard)
              && sourceStatus == old(sourceStatus)
      ensures markers == if container.Some? && card.Some? then old(markers) - {card.value} else old(markers)
    {
      if container.Some? && card.Some? {
        markers := markers - {card.value};
      }
    }

    /**
     * `handleDrop` on the board's list. `transfer` is the `text/plain` text
     * of the drop's own data transfer: what its drag start put there, or ""
     * for a drag that set none (one not started on a card, or one from
     * outside the page). Returns what the board is updated with and the
     * number of requests the follow-up save makes; a reorder clears every
     * marker. The save is called without a project id, so it makes no
     * request.
     */
    method HandleDrop(investors: seq<Investor>, transfer: string, target: DropTarget, saveOutcomes: seq<bool>)
      returns (outcome: DropOutcome, saveRequests: nat)
      requires Valid()
      requires |saveOutcomes| > Api.MAX_RETRIES
      modifies this
      ensures Valid()
      ensures outcome == ResolveDrop(investors, DroppedId(transfer, old(draggingId)), old(sourceStatus),
                                     target, AboveMarked(old(markers), target))
      ensures saveRequests == 0
      ensures markers == if outcome.Updated? && outcome.kind == Reorder then map[] else old(markers)
      ensures draggingId == old(draggingId) && draggingCard == old(draggingCard)
              && sourceStatus == old(sourceStatus)
    {
      var investorId := DroppedId(transfer, draggingId);
      var above := AboveMarked(markers, target);
      outcome := ResolveDrop(investors, investorId, sourceStatus, target, above);
      saveRequests := 0;
      if outcome.Updated? {
        var ok, waits;
        ok, saveRequests, waits := Api.SaveInvestors(outcome.investors, None, saveOutcomes);
        if outcome.kind == Reorder {
          markers := map[];
        }
      }
    }
  }

  /**
   * A drag that ends, followed by a drag not started on a card, carries no
   * id to its drop: the earlier card is not moved to the delete zone.
   */
  method EndedDragNotReused(a: Investor, saveOutcomes: seq<bool>) returns (outcome: DropOutcome)
    requires HasId(a, "A") && |saveOutcomes| > Api.MAX_RETRIES
    ensures outcome == Ignored
  {
    var c := new DragController();
    var d1 := c.HandleDragStart(Some(DragSource("A", Some("Contattati"))));
    assert d1 == "A";
    c.HandleDragEnd(true);
    var d2 := c.HandleDragStart(None);
    var requests;
    outcome, requests := c.HandleDrop([a], d2, DeleteZone, saveOutcomes);
  }
}
