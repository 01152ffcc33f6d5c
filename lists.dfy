/**
 * The operations on the flat investor list that the board's handlers
 * share: lookup by id (`find`, `findIndex`), removal by id (`filter`),
 * relabelling one record's status (`map`) and insertion with `splice`.
 * The handlers apply them to fresh copies of the list, so they are values here.
 */
module InvestorLists {
  import opened Wrappers
  import opened Values
  import opened ExcelParser

  /** `inv.id === id` for an id given as text. */
  predicate HasId(inv: Investor, id: string) {
    inv.id == JStr(id)
  }

  /** No two records share an id. */
  predicate UniqueIds(s: seq<Investor>) {
    forall i, j :: 0 <= i < j < |s| ==> s[i].id != s[j].id
  }

  /** `findIndex(inv => inv.id === id)`: the first index holding the id, or -1. */
  function FindIndex(s: seq<Investor>, id: string): (r: int)
    ensures -1 <= r < |s|
    ensures r >= 0 ==> HasId(s[r], id) && forall j :: 0 <= j < r ==> !HasId(s[j], id)
    ensures r == -1 <==> forall j :: 0 <= j < |s| ==> !HasId(s[j], id)
  {
    if s == [] then -1
    else if HasId(s[0], id) then 0
    else
      var k := FindIndex(s[1..], id);
      assert forall j :: 1 <= j < |s| ==> s[j] == s[1..][j - 1];
      if k == -1 then -1 else k + 1
  }

  /** `find(inv => inv.id === id)`. */
  function Find(s: seq<Investor>, id: string): (r: Option<Investor>)
    ensures r.Some? <==> exists j :: 0 <= j < |s| && HasId(s[j], id)
    ensures r.Some? ==> r.value in s && HasId(r.value, id)
  {
    var k := FindIndex(s, id);
    if k < 0 then None else Some(s[k])
  }

  /** `filter(inv => inv.id !== id)`. */
  function Without(s: seq<Investor>, id: string): (r: seq<Investor>)
    ensures |r| <= |s|
  {
    if s == [] then []
    else (if HasId(s[0], id) then [] else [s[0]]) + Without(s[1..], id)
  }

  /** Removal by id keeps exactly the records with another id. */
  lemma {:induction false} WithoutMembers(s: seq<Investor>, id: string)
    ensures forall x :: x in Without(s, id) <==> x in s && !HasId(x, id)
  {
    if s != [] {
      WithoutMembers(s[1..], id);
      assert s == [s[0]] + s[1..];
    }
  }

  /** Removal by id keeps every copy of a record with another id and no copy of one with the id. */
  lemma {:induction false} WithoutCount(s: seq<Investor>, id: string, x: Investor)
    ensures multiset(Without(s, id))[x] == if HasId(x, id) then 0 else multiset(s)[x]
  {
    if s != [] {
      WithoutCount(s[1..], id, x);
      var h := if HasId(s[0], id) then [] else [s[0]];
      assert Without(s, id) == h + Without(s[1..], id);
      assert multiset(Without(s, id)) == multiset(h) + multiset(Without(s[1..], id));
      assert s == [s[0]] + s[1..];
    }
  }

  lemma {:induction false} WithoutAppend(a: seq<Investor>, b: seq<Investor>, id: string)
    ensures Without(a + b, id) == Without(a, id) + Without(b, id)
  {
    if a != [] {
      assert (a + b)[1..] == a[1..] + b;
      WithoutAppend(a[1..], b, id);
    } else {
      assert a + b == b;
    }
  }

  /** Removing an id that no record has changes nothing. */
  lemma {:induction false} WithoutAbsent(s: seq<Investor>, id: string)
    requires forall j :: 0 <= j < |s| ==> !HasId(s[j], id)
    ensures Without(s, id) == s
  {
    if s != [] {
      WithoutAbsent(s[1..], id);
    }
  }

  /** Removing the id from a one-record list holding it leaves nothing. */
  lemma WithoutOne(x: Investor, id: string)
    requires HasId(x, id)
    ensures Without([x], id) == []
  {
    assert Without([x], id) == [] + Without([x][1..], id);
  }

  /** Removing an id held only by the record between `pre` and `post` leaves `pre + post`. */
  lemma WithoutSplit(pre: seq<Investor>, x: Investor, post: seq<Investor>, id: string)
    requires HasId(x, id)
    requires forall j :: 0 <= j < |pre| ==> !HasId(pre[j], id)
    requires forall j :: 0 <= j < |post| ==> !HasId(post[j], id)
    ensures Without(pre + [x] + post, id) == pre + post
  {
    WithoutAppend(pre + [x], post, id);
    WithoutAppend(pre, [x], id);
    WithoutOne(x, id);
    WithoutAbsent(pre, id);
    WithoutAbsent(post, id);
    assert Without(pre + [x], id) == pre + [];
    assert pre + [] == pre;
  }

  /** Removing the id held only at index `k` drops exactly that record. */
  lemma WithoutSingle(s: seq<Investor>, id: string, k: nat)
    requires k < |s| && HasId(s[k], id)
    requires forall j :: 0 <= j < |s| && j != k ==> !HasId(s[j], id)
    ensures Without(s, id) == s[..k] + s[k + 1..]
  {
    var pre, post := s[..k], s[k + 1..];
    assert s == pre + [s[k]] + post;
    assert forall j :: 0 <= j < |pre| ==> !HasId(pre[j], id) by {
      assert forall j :: 0 <= j < |pre| ==> pre[j] == s[j];
    }
    assert forall j :: 0 <= j < |post| ==> !HasId(post[j], id) by {
      assert forall j :: 0 <= j < |post| ==> post[j] == s[k + 1 + j];
    }
    WithoutSplit(pre, s[k], post, id);
  }

  /** No record left by a removal has the removed id. */
  lemma WithoutHasNoId(s: seq<Investor>, id: string)
    ensures forall j :: 0 <= j < |Without(s, id)| ==> !HasId(Without(s, id)[j], id)
  {
    WithoutMembers(s, id);
    assert forall j :: 0 <= j < |Without(s, id)| ==> Without(s, id)[j] in Without(s, id);
  }

  /** A removal drops at least one record when one record has the id. */
  lemma {:induction false} WithoutDropsOne(s: seq<Investor>, id: string, j: nat)
    requires j < |s| && HasId(s[j], id)
    ensures |Without(s, id)| < |s|
  {
    if j > 0 {
      WithoutDropsOne(s[1..], id, j - 1);
    }
  }

  /** A removal drops at least two records when two records have the id. */
  lemma {:induction false} WithoutDropsTwo(s: seq<Investor>, id: string, i: nat, j: nat)
    requires i < j < |s| && HasId(s[i], id) && HasId(s[j], id)
    ensures |Without(s, id)| + 2 <= |s|
  {
    if i == 0 {
      WithoutDropsOne(s[1..], id, j - 1);
    } else {
      WithoutDropsTwo(s[1..], id, i - 1, j - 1);
    }
  }

  /** Putting a record with the id into a list without it, and removing the id again, gives the list back. */
  lemma WithoutInserted(rest: seq<Investor>, k: nat, x: Investor, id: string)
    requires k <= |rest| && HasId(x, id)
    requires forall j :: 0 <= j < |rest| ==> !HasId(rest[j], id)
    ensures Without(rest[..k] + [x] + rest[k..], id) == rest
  {
    var pre, post := rest[..k], rest[k..];
    NoIdInPart(rest, pre, 0, id);
    NoIdInPart(rest, post, k, id);
    WithoutSplit(pre, x, post, id);
    assert pre + post == rest;
  }

  /** A part of a list without the id, starting at `lo`, has no record with the id either. */
  lemma NoIdInPart(s: seq<Investor>, part: seq<Investor>, lo: nat, id: string)
    requires lo + |part| <= |s| && forall j :: 0 <= j < |part| ==> part[j] == s[lo + j]
    requires forall j :: 0 <= j < |s| ==> !HasId(s[j], id)
    ensures forall j :: 0 <= j < |part| ==> !HasId(part[j], id)
  {
    forall j | 0 <= j < |part|
      ensures !HasId(part[j], id)
    {
      assert part[j] == s[lo + j];
    }
  }

  /** Removing an id held only at `k` takes exactly that one record out of the multiset. */
  lemma WithoutSingleMultiset(s: seq<Investor>, id: string, k: nat)
    requires k < |s| && HasId(s[k], id)
    requires forall j :: 0 <= j < |s| && j != k ==> !HasId(s[j], id)
    ensures |Without(s, id)| + 1 == |s|
    ensures multiset(Without(s, id)) + multiset{s[k]} == multiset(s)
  {
    WithoutSingle(s, id, k);
    RemoveAtMultiset(s, k);
  }

  /** Removing the id of a record spliced into a list without that id gives the list back. */
  lemma WithoutSpliced(rest: seq<Investor>, start: int, x: Investor, id: string)
    requires HasId(x, id)
    requires forall j :: 0 <= j < |rest| ==> !HasId(rest[j], id)
    ensures Without(SpliceInsert(rest, start, x), id) == rest
  {
    var k := SpliceStart(|rest|, start);
    assert SpliceInsert(rest, start, x) == rest[..k] + [x] + rest[k..];
    WithoutInserted(rest, k, x, id);
  }

  /** Taking out the record at `k` and adding it back gives the same multiset. */
  lemma RemoveAtMultiset(s: seq<Investor>, k: nat)
    requires k < |s|
    ensures multiset(s[..k] + s[k + 1..]) + multiset{s[k]} == multiset(s)
  {
    assert s == s[..k] + [s[k]] + s[k + 1..];
  }

  /** Removal by id is idempotent. */
  lemma {:induction false} WithoutIdempotent(s: seq<Investor>, id: string)
    ensures Without(Without(s, id), id) == Without(s, id)
  {
    WithoutHasNoId(s, id);
    WithoutAbsent(Without(s, id), id);
  }

  /** The position `splice(start, ...)` acts on: negative counts from the end, clamped to the list. */
  function SpliceStart(len: nat, start: int): (k: nat)
    ensures k <= len
    ensures 0 <= start <= len ==> k == start
    ensures start > len ==> k == len
    ensures start < 0 ==> k == if len + start < 0 then 0 else len + start
  {
    if start < 0 then (if len + start < 0 then 0 else len + start)
    else if start > len then len
    else start
  }

  /** The list after `splice(start, 0, x)`. */
  function SpliceInsert(s: seq<Investor>, start: int, x: Investor): (r: seq<Investor>)
    ensures |r| == |s| + 1
    ensures r[SpliceStart(|s|, start)] == x
    ensures r[..SpliceStart(|s|, start)] == s[..SpliceStart(|s|, start)]
    ensures r[SpliceStart(|s|, start) + 1..] == s[SpliceStart(|s|, start)..]
    ensures multiset(r) == multiset(s) + multiset{x}
  {
    var k := SpliceStart(|s|, start);
    assert s == s[..k] + s[k..];
    s[..k] + [x] + s[k..]
  }

  /** Around an in-range insertion point the inserted record sits between the old neighbours. */
  lemma SpliceNeighbours(s: seq<Investor>, k: nat, x: Investor)
    requires k <= |s|
    ensures SpliceInsert(s, k, x)[k] == x
    ensures k < |s| ==> SpliceInsert(s, k, x)[k + 1] == s[k]
    ensures 0 < k ==> SpliceInsert(s, k, x)[k - 1] == s[k - 1]
  {
    var r := SpliceInsert(s, k, x);
    assert SpliceStart(|s|, k) == k;
    if k < |s| {
      assert r[k + 1..][0] == s[k..][0];
    }
    if 0 < k {
      assert r[..k][k - 1] == s[..k][k - 1];
    }
  }

  /** The record with its status replaced. */
  function WithStatus(inv: Investor, status: string): Investor {
    inv.(status := JStr(status))
  }

  /** `map(inv => inv.id === id ? {...inv, status} : inv)`. */
  function Relabel(s: seq<Investor>, id: string, status: string): (r: seq<Investor>)
    ensures |r| == |s|
    ensures forall i :: 0 <= i < |s| ==> r[i] == if HasId(s[i], id) then WithStatus(s[i], status) else s[i]
  {
    seq(|s|, i requires 0 <= i < |s| => if HasId(s[i], id) then WithStatus(s[i], status) else s[i])
  }

  /**
   * Relabelling changes nothing but the status of the records with the
   * id: every record keeps its position and all its other fields.
   */
  lemma RelabelOnlyStatus(s: seq<Investor>, id: string, status: string)
    ensures var r := Relabel(s, id, status);
      && |r| == |s|
      && (forall i :: 0 <= i < |s| ==> r[i].(status := s[i].status) == s[i])
      && (forall i :: 0 <= i < |s| ==> HasId(s[i], id) ==> r[i].status == JStr(status))
      && (forall i :: 0 <= i < |s| ==> !HasId(s[i], id) ==> r[i] == s[i])
      && Without(r, id) == Without(s, id)
  {
    RelabelWithout(s, id, status);
  }

  lemma {:induction false} RelabelWithout(s: seq<Investor>, id: string, status: string)
    ensures Without(Relabel(s, id, status), id) == Without(s, id)
  {
    if s != [] {
      var r := Relabel(s, id, status);
      assert r[1..] == Relabel(s[1..], id, status);
      RelabelWithout(s[1..], id, status);
    }
  }

  // ---------------------------------------------------------------------
  // Order-preserving sublists and the status filter.

  /** `a` is `b` with some elements left out, the rest kept in order. */
  predicate Sublist<T(==)>(a: seq<T>, b: seq<T>)
    decreases |b|
  {
    a == [] || (b != [] && ((a[0] == b[0] && Sublist(a[1..], b[1..])) || Sublist(a, b[1..])))
  }

  /** Removal by id leaves an order-preserving sublist. */
  lemma {:induction false} WithoutSublist(s: seq<Investor>, id: string)
    ensures Sublist(Without(s, id), s)
  {
    if s != [] {
      WithoutSublist(s[1..], id);
      var r := Without(s, id);
      if !HasId(s[0], id) {
        assert r == [s[0]] + Without(s[1..], id);
        assert r[0] == s[0] && r[1..] == Without(s[1..], id);
      } else {
        assert r == Without(s[1..], id);
      }
    }
  }

  /** The head of the status filter's test. */
  function StatusHead(x: Investor, status: Json): seq<Investor> {
    if x.status == status then [x] else []
  }

  /** `filter(inv => inv.status === status)`. */
  function InStatus(s: seq<Investor>, status: Json): (r: seq<Investor>)
    ensures |r| <= |s|
  {
    if s == [] then []
    else StatusHead(s[0], status) + InStatus(s[1..], status)
  }

  lemma {:induction false} InStatusAppend(a: seq<Investor>, b: seq<Investor>, status: Json)
    ensures InStatus(a + b, status) == InStatus(a, status) + InStatus(b, status)
  {
    if a != [] {
      var h := StatusHead(a[0], status);
      assert (a + b)[0] == a[0];
      assert (a + b)[1..] == a[1..] + b;
      assert InStatus(a + b, status) == h + InStatus(a[1..] + b, status);
      InStatusAppend(a[1..], b, status);
      assert InStatus(a, status) == h + InStatus(a[1..], status);
      assert h + (InStatus(a[1..], status) + InStatus(b, status)) == (h + InStatus(a[1..], status)) + InStatus(b, status);
    } else {
      assert a + b == b;
    }
  }

  /** The status filter keeps every copy of a record with the status and no copy of any other. */
  lemma {:induction false} InStatusCount(s: seq<Investor>, status: Json, x: Investor)
    ensures multiset(InStatus(s, status))[x] == if x.status == status then multiset(s)[x] else 0
  {
    if s != [] {
      InStatusCount(s[1..], status, x);
      var tail := InStatus(s[1..], status);
      assert s == [s[0]] + s[1..];
      assert multiset(s) == multiset{s[0]} + multiset(s[1..]);
      if s[0].status == status {
        assert InStatus(s, status) == [s[0]] + tail;
        assert multiset(InStatus(s, status)) == multiset{s[0]} + multiset(tail);
      } else {
        assert InStatus(s, status) == [] + tail;
        assert InStatus(s, status) == tail;
      }
    }
  }

  /** With no record of that status, the status filter is empty. */
  lemma {:induction false} InStatusNone(s: seq<Investor>, status: Json)
    requires forall j :: 0 <= j < |s| ==> s[j].status != status
    ensures InStatus(s, status) == []
  {
    if s != [] {
      InStatusNone(s[1..], status);
    }
  }

  /** The status filter keeps exactly the records of that status, in order. */
  lemma {:induction false} InStatusSublist(s: seq<Investor>, status: Json)
    ensures Sublist(InStatus(s, status), s)
    ensures forall x :: x in s && x.status == status ==> x in InStatus(s, status)
  {
    if s != [] {
      InStatusSublist(s[1..], status);
      assert s == [s[0]] + s[1..];
      var r := InStatus(s, status);
      if s[0].status == status {
        assert r == [s[0]] + InStatus(s[1..], status);
        assert r[0] == s[0] && r[1..] == InStatus(s[1..], status);
      } else {
        assert r == InStatus(s[1..], status);
      }
    }
  }

  /** The status filter's records are the list's records of that status. */
  lemma {:induction false} InStatusMembers(s: seq<Investor>, status: Json)
    ensures forall x :: x in InStatus(s, status) <==> x in s && x.status == status
  {
    if s != [] {
      InStatusMembers(s[1..], status);
      assert s == [s[0]] + s[1..];
    }
  }

  /** `findIndex(inv => inv.status === status)`. */
  function FindStatusIndex(s: seq<Investor>, status: Json): (r: int)
    ensures -1 <= r < |s|
    ensures r >= 0 ==> s[r].status == status && forall j :: 0 <= j < r ==> s[j].status != status
    ensures r == -1 <==> forall j :: 0 <= j < |s| ==> s[j].status != status
  {
    if s == [] then -1
    else if s[0].status == status then 0
    else
      var k := FindStatusIndex(s[1..], status);
      assert forall j :: 1 <= j < |s| ==> s[j] == s[1..][j - 1];
      if k == -1 then -1 else k + 1
  }
}
