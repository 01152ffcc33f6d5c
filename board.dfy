/**
 * The board: the search filter applied to the list before it is split
 * into columns, the statuses shown as columns, and each column's colour.
 */
module KanbanBoard {
  import opened Wrappers
  import opened Values
  import opened ExcelParser
  import opened InvestorLists
  import KanbanConstants
  import KanbanColumn

  /**
   * `(v && v.toLowerCase().includes(q))` for an optional text field: a
   * falsy value does not match, a truthy non-string makes `toLowerCase`
   * throw (None).
   */
  function FieldMatch(v: Json, q: string): (r: Option<bool>)
    ensures !Truthy(v) ==> r == Some(false)
    ensures Truthy(v) ==> (r.None? <==> !v.JStr?)
    ensures v.JStr? && v.s != "" ==> r == Some(Contains(Lower(v.s), q))
  {
    if !Truthy(v) then Some(false)
    else if !v.JStr? then None
    else Some(Contains(Lower(v.s), q))
  }

  /**
   * The search test for one record, evaluated left to right with `||`:
   * the name (always lowered, so a non-string name throws), then type,
   * description and email, each only if the earlier ones did not match.
   */
  function Matches(inv: Investor, q: string): Option<bool> {
    if !inv.name.JStr? then None
    else if Contains(Lower(inv.name.s), q) then Some(true)
    else
      match FieldMatch(inv.kind, q)
      case None => None
      case Some(true) => Some(true)
      case Some(false) =>
        match FieldMatch(inv.description, q)
        case None => None
        case Some(true) => Some(true)
        case Some(false) => FieldMatch(inv.email, q)
  }

  /** For a record whose four searched fields are strings, the test is whether any of them holds the query. */
  lemma MatchesStrings(inv: Investor, q: string)
    requires inv.name.JStr? && inv.kind.JStr? && inv.description.JStr? && inv.email.JStr?
    ensures Matches(inv, q) == Some(Contains(Lower(inv.name.s), q) || Contains(Lower(inv.kind.s), q)
                                    || Contains(Lower(inv.description.s), q) || Contains(Lower(inv.email.s), q))
  {
    if q != [] {
      assert !Contains(Lower(""), q);
    } else {
      assert OccursAt(Lower(inv.name.s), q, 0);
    }
  }

  /** `filter(matches)`: the matching records in order, or None when the test throws on any record. */
  function FilterMatching(s: seq<Investor>, q: string): Option<seq<Investor>> {
    if s == [] then Some([])
    else
      match Matches(s[0], q)
      case None => None
      case Some(keep) =>
        match FilterMatching(s[1..], q)
        case None => None
        case Some(rest) => Some((if keep then [s[0]] else []) + rest)
  }

  /** The filter, when it does not throw, keeps every copy of a matching record and no copy of any other. */
  lemma {:induction false} FilterMatchingCount(s: seq<Investor>, q: string, x: Investor)
    requires FilterMatching(s, q).Some?
    ensures multiset(FilterMatching(s, q).value)[x] == if Matches(x, q) == Some(true) then multiset(s)[x] else 0
  {
    if s != [] {
      FilterMatchingStep(s, q);
      FilterMatchingCount(s[1..], q, x);
      var h := if Matches(s[0], q) == Some(true) then [s[0]] else [];
      HeadCount(h, s[0], FilterMatching(s[1..], q).value, s[1..], x, Matches(s[0], q) == Some(true));
      assert s == [s[0]] + s[1..];
    }
  }

  /** One step of the filter: the first record's test does not throw, nor does the filter of the rest. */
  lemma FilterMatchingStep(s: seq<Investor>, q: string)
    requires s != [] && FilterMatching(s, q).Some?
    ensures Matches(s[0], q).Some? && FilterMatching(s[1..], q).Some?
    ensures FilterMatching(s, q).value
            == (if Matches(s[0], q) == Some(true) then [s[0]] else []) + FilterMatching(s[1..], q).value
  {
  }

  /** Counting `x` in a list headed by `y` or not, in terms of its count in the rest. */
  lemma HeadCount(h: seq<Investor>, y: Investor, t: seq<Investor>, u: seq<Investor>, x: Investor, keep: bool)
    requires h == if keep then [y] else []
    ensures multiset(h + t)[x] == (if keep && x == y then 1 else 0) + multiset(t)[x]
    ensures multiset([y] + u)[x] == (if x == y then 1 else 0) + multiset(u)[x]
  {
    assert multiset(h + t) == multiset(h) + multiset(t);
    assert multiset([y] + u) == multiset{y} + multiset(u);
  }

  /** `filteredInvestors`: a blank query keeps the list, any other is lowered (untrimmed) and checked against each record. */
  function SearchFilter(investors: seq<Investor>, query: string): (r: Option<seq<Investor>>)
    ensures Blank(query) ==> r == Some(investors)
  {
    if Blank(query) then Some(investors) else FilterMatching(investors, Lower(query))
  }

  /**
   * The filter throws exactly when the test throws on some record;
   * otherwise it keeps the matching records, in their order.
   */
  lemma {:induction false} FilterMatchingSpec(s: seq<Investor>, q: string)
    ensures FilterMatching(s, q).None? <==> exists i :: 0 <= i < |s| && Matches(s[i], q).None?
    ensures FilterMatching(s, q).Some? ==> Sublist(FilterMatching(s, q).value, s)
    ensures FilterMatching(s, q).Some? ==>
      forall x :: x in FilterMatching(s, q).value <==> x in s && Matches(x, q) == Some(true)
  {
    if s != [] {
      FilterMatchingSpec(s[1..], q);
      assert s == [s[0]] + s[1..];
      assert forall i :: 1 <= i < |s| ==> s[i] == s[1..][i - 1];
      var r := FilterMatching(s, q);
      if r.Some? {
        var rest := FilterMatching(s[1..], q).value;
        if Matches(s[0], q) == Some(true) {
          assert r.value == [s[0]] + rest;
          assert r.value[0] == s[0] && r.value[1..] == rest;
        } else {
          assert r.value == rest;
        }
      }
    }
  }

  /**
   * A search with a non-blank query keeps exactly the records whose
   * searched fields hold the lowered query, in order; it fails only when
   * some record's test throws.
   */
  lemma SearchFilterSpec(investors: seq<Investor>, query: string)
    requires !Blank(query)
    ensures SearchFilter(investors, query).None? <==>
      exists i :: 0 <= i < |investors| && Matches(investors[i], Lower(query)).None?
    ensures SearchFilter(investors, query).Some? ==> Sublist(SearchFilter(investors, query).value, investors)
    ensures SearchFilter(investors, query).Some? ==>
      forall x :: x in SearchFilter(investors, query).value <==> x in investors && Matches(x, Lower(query)) == Some(true)
  {
    FilterMatchingSpec(investors, Lower(query));
  }

  /** `INVESTOR_STATUSES.filter(status => showDropped || status !== "Drop definitivo")`. */
  function KeepStatuses(s: seq<string>, showDropped: bool): (r: seq<string>)
    ensures |r| <= |s|
    ensures forall x :: x in r <==> x in s && (showDropped || x != KanbanConstants.DROPPED_STATUS)
  {
    if s == [] then []
    else (if showDropped || s[0] != KanbanConstants.DROPPED_STATUS then [s[0]] else []) + KeepStatuses(s[1..], showDropped)
  }

  /**
   * The columns shown: all six in order, or, with dropped records hidden,
   * all but "Drop definitivo" (the last).
   */
  function VisibleStatuses(showDropped: bool): (r: seq<string>)
    ensures |r| <= |KanbanConstants.COLUMN_COLORS|
    ensures r == if showDropped then KanbanConstants.INVESTOR_STATUSES else KanbanConstants.INVESTOR_STATUSES[..5]
  {
    KanbanConstants.ColorsMatchStatuses();
    var s := KanbanConstants.INVESTOR_STATUSES;
    KeepStatusesAll(s);
    KanbanConstants.StatusTable();
    assert s == s[..5] + [s[5]];
    KeepStatusesAppend(s[..5], [s[5]], false);
    KeepStatusesAbsent(s[..5]);
    assert KeepStatuses([s[5]], false) == [] + KeepStatuses([s[5]][1..], false);
    KeepStatuses(s, showDropped)
  }

  lemma {:induction false} KeepStatusesAll(s: seq<string>)
    ensures KeepStatuses(s, true) == s
  {
    if s != [] {
      KeepStatusesAll(s[1..]);
    }
  }

  lemma {:induction false} KeepStatusesAbsent(s: seq<string>)
    requires forall i :: 0 <= i < |s| ==> s[i] != KanbanConstants.DROPPED_STATUS
    ensures KeepStatuses(s, false) == s
  {
    if s != [] {
      KeepStatusesAbsent(s[1..]);
    }
  }

  lemma {:induction false} KeepStatusesAppend(a: seq<string>, b: seq<string>, showDropped: bool)
    ensures KeepStatuses(a + b, showDropped) == KeepStatuses(a, showDropped) + KeepStatuses(b, showDropped)
  {
    if a != [] {
      assert (a + b)[1..] == a[1..] + b;
      KeepStatusesAppend(a[1..], b, showDropped);
    } else {
      assert a + b == b;
    }
  }

  /** `INVESTOR_STATUSES.findIndex(s => s === status)`. */
  function StatusIndex(s: seq<string>, status: string): (r: int)
    ensures -1 <= r < |s|
    ensures r >= 0 ==> s[r] == status && forall j :: 0 <= j < r ==> s[j] != status
    ensures r == -1 <==> status !in s
  {
    if s == [] then -1
    else if s[0] == status then 0
    else
      var k := StatusIndex(s[1..], status);
      assert forall j :: 1 <= j < |s| ==> s[j] == s[1..][j - 1];
      if k == -1 then -1 else k + 1
  }

  /** `COLUMN_COLORS[originalIndex]`: undefined (None) for a status not in the table. */
  function ColumnColour(status: string): (c: Option<string>)
    ensures c.Some? <==> status in KanbanConstants.INVESTOR_STATUSES
  {
    KanbanConstants.ColorsMatchStatuses();
    var k := StatusIndex(KanbanConstants.INVESTOR_STATUSES, status);
    if k == -1 then None else Some(KanbanConstants.COLUMN_COLORS[k])
  }

  /**
   * The column at position `i` of the visible statuses gets the colour of
   * its status's position in the full table, whether or not the dropped
   * column is hidden.
   */
  lemma ColumnColourByStatus(showDropped: bool, i: nat)
    requires i < |VisibleStatuses(showDropped)|
    ensures ColumnColour(VisibleStatuses(showDropped)[i]) == Some(KanbanConstants.COLUMN_COLORS[i])
  {
    KanbanConstants.StatusTable();
    KanbanConstants.ColorsMatchStatuses();
    var s := KanbanConstants.INVESTOR_STATUSES;
    assert VisibleStatuses(showDropped)[i] == s[i];
    DistinctStatusIndex(s, i);
  }

  /** In a table without repeats, a status's index is its position. */
  lemma DistinctStatusIndex(s: seq<string>, i: nat)
    requires i < |s|
    requires forall a, b :: 0 <= a < b < |s| ==> s[a] != s[b]
    ensures StatusIndex(s, s[i]) == i
  {
  }

  /** The records shown in the column of a status: those of the search result with that status. */
  function BoardColumn(investors: seq<Investor>, query: string, status: string): (r: Option<seq<Investor>>)
    ensures Blank(query) ==> r == Some(KanbanColumn.ColumnInvestors(investors, status))
  {
    match SearchFilter(investors, query)
    case None => None
    case Some(found) => Some(KanbanColumn.ColumnInvestors(found, status))
  }

  /** With a blank query the columns together show every record with a visible status. */
  lemma BlankSearchShowsAll(investors: seq<Investor>, query: string, showDropped: bool, x: Investor)
    requires Blank(query) && x in investors
    requires exists k :: 0 <= k < |VisibleStatuses(showDropped)| && x.status == JStr(VisibleStatuses(showDropped)[k])
    ensures exists k :: (0 <= k < |VisibleStatuses(showDropped)|
                         && x in BoardColumn(investors, query, VisibleStatuses(showDropped)[k]).value)
  {
    var k :| 0 <= k < |VisibleStatuses(showDropped)| && x.status == JStr(VisibleStatuses(showDropped)[k]);
    KanbanColumn.ColumnShowsItsStatus(investors, VisibleStatuses(showDropped)[k]);
  }
}
