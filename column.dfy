/**
 * One column of the board: the records it shows, the count in its badge
 * and the id of its drop area.
 */
module KanbanColumn {
  import opened Values
  import opened ExcelParser
  import opened InvestorLists
  import KanbanConstants

  /** `investors.filter(investor => investor.status === status)`. */
  function ColumnInvestors(investors: seq<Investor>, status: string): seq<Investor> {
    InStatus(investors, JStr(status))
  }

  /** The column shows exactly the records with its status, in the order of the list. */
  lemma ColumnShowsItsStatus(investors: seq<Investor>, status: string)
    ensures Sublist(ColumnInvestors(investors, status), investors)
    ensures forall x :: x in ColumnInvestors(investors, status) <==> x in investors && x.status == JStr(status)
    ensures forall x :: multiset(ColumnInvestors(investors, status))[x]
                        == if x.status == JStr(status) then multiset(investors)[x] else 0
  {
    forall x
      ensures multiset(ColumnInvestors(investors, status))[x]
              == if x.status == JStr(status) then multiset(investors)[x] else 0
    {
      InStatusCount(investors, JStr(status), x);
    }
    InStatusSublist(investors, JStr(status));
    InStatusMembers(investors, JStr(status));
  }

  /** The number in the column's badge. */
  function CountBadge(investors: seq<Investor>, status: string): (n: nat)
    ensures n <= |investors|
    ensures n > 0 <==> exists i :: 0 <= i < |investors| && investors[i].status == JStr(status)
  {
    InStatusMembers(investors, JStr(status));
    var c := ColumnInvestors(investors, status);
    assert c != [] ==> c[0] in c;
    |c|
  }

  /** Columns of different statuses never show the same record. */
  lemma ColumnsDisjoint(investors: seq<Investor>, a: string, b: string)
    requires a != b
    ensures forall x :: x in ColumnInvestors(investors, a) ==> x !in ColumnInvestors(investors, b)
  {
    ColumnShowsItsStatus(investors, a);
    ColumnShowsItsStatus(investors, b);
  }

  /** `droppable-${status.replace(/\s+/g, "-").toLowerCase()}`. */
  function DroppableId(status: string): (id: string)
    ensures |id| >= |"droppable-"| && id[..|"droppable-"|] == "droppable-"
  {
    "droppable-" + Lower(ReplaceWhitespaceRuns(status, "-"))
  }

  /** The id of the delete zone's drop area. */
  const DELETE_ZONE_ID: string := "droppable-delete-zone"

  /** The first letter of a status survives into its id, lowered. */
  lemma DroppableIdFirst(status: string)
    requires |status| >= 1 && !IsWhitespace(status[0])
    ensures |DroppableId(status)| >= 11 && DroppableId(status)[10] == LowerChar(status[0])
  {
    var r := ReplaceWhitespaceRuns(status, "-");
    assert r == [status[0]] + ReplaceWhitespaceRuns(status[1..], "-");
  }

  /** So does the second, when neither is white space. */
  lemma DroppableIdSecond(status: string)
    requires |status| >= 2 && !IsWhitespace(status[0]) && !IsWhitespace(status[1])
    ensures |DroppableId(status)| >= 12 && DroppableId(status)[11] == LowerChar(status[1])
  {
    var r1 := ReplaceWhitespaceRuns(status[1..], "-");
    assert ReplaceWhitespaceRuns(status, "-") == [status[0]] + r1;
    assert r1 == [status[1..][0]] + ReplaceWhitespaceRuns(status[1..][1..], "-");
  }

  /** Statuses that differ in a lowered letter among their first two give different ids. */
  lemma DifferentIds(a: string, b: string)
    requires |a| >= 2 && |b| >= 2 && !IsWhitespace(a[0]) && !IsWhitespace(b[0])
    requires LowerChar(a[0]) != LowerChar(b[0])
             || (!IsWhitespace(a[1]) && !IsWhitespace(b[1]) && LowerChar(a[1]) != LowerChar(b[1]))
    ensures DroppableId(a) != DroppableId(b)
  {
    DroppableIdFirst(a);
    DroppableIdFirst(b);
    if LowerChar(a[0]) == LowerChar(b[0]) {
      DroppableIdSecond(a);
      DroppableIdSecond(b);
      assert DroppableId(a)[11] != DroppableId(b)[11];
    } else {
      assert DroppableId(a)[10] != DroppableId(b)[10];
    }
  }

  /** A status whose first two letters lowered are not "de" does not give the delete zone's id. */
  lemma NotDeleteZone(a: string)
    requires |a| >= 2 && !IsWhitespace(a[0])
    requires LowerChar(a[0]) != 'd' || (!IsWhitespace(a[1]) && LowerChar(a[1]) != 'e')
    ensures DroppableId(a) != DELETE_ZONE_ID
  {
    DroppableIdFirst(a);
    assert DELETE_ZONE_ID[10] == 'd' && DELETE_ZONE_ID[11] == 'e';
    if LowerChar(a[0]) == 'd' {
      DroppableIdSecond(a);
      assert DroppableId(a)[11] != DELETE_ZONE_ID[11];
    } else {
      assert DroppableId(a)[10] != DELETE_ZONE_ID[10];
    }
  }

  /**
   * The ids of the six columns start with "droppable-", so the drop
   * handler's prefix test finds them; no two are equal and none is the
   * delete zone's.
   */
  lemma DroppableIds()
    ensures forall i, j :: 0 <= i < j < |KanbanConstants.INVESTOR_STATUSES| ==>
      DroppableId(KanbanConstants.INVESTOR_STATUSES[i]) != DroppableId(KanbanConstants.INVESTOR_STATUSES[j])
    ensures forall i :: 0 <= i < |KanbanConstants.INVESTOR_STATUSES| ==>
      DroppableId(KanbanConstants.INVESTOR_STATUSES[i]) != DELETE_ZONE_ID
  {
    var s := KanbanConstants.INVESTOR_STATUSES;
    forall i, j | 0 <= i < j < |s|
      ensures DroppableId(s[i]) != DroppableId(s[j])
    {
      DifferentIds(s[i], s[j]);
    }
    forall i | 0 <= i < |s|
      ensures DroppableId(s[i]) != DELETE_ZONE_ID
    {
      NotDeleteZone(s[i]);
    }
  }
}
