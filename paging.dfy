/** The pagination arithmetic shared by the trip and hotel listings:
    `.skip((page - 1) * limit).limit(Number(limit))` over the matching
    documents, with `totalPages: Math.ceil(total / limit)`. */
module Paging {
  import opened Common

  /** `Model.find(query)` over the collection listed in the requested sort
      order: the documents `keep` accepts, in listing order. */
  function Filter<T>(listing: seq<T>, keep: T -> bool): (r: seq<T>)
    ensures |r| <= |listing|
    ensures forall i :: 0 <= i < |r| ==> keep(r[i]) && r[i] in listing
  {
    if listing == [] then []
    else (if keep(listing[0]) then [listing[0]] else []) + Filter(listing[1..], keep)
  }

  /** Nothing that matches is lost. */
  lemma {:induction false} FilterKeepsMatches<T>(listing: seq<T>, keep: T -> bool, x: T)
    requires x in listing && keep(x)
    ensures x in Filter(listing, keep)
  {
    if listing[0] != x {
      FilterKeepsMatches(listing[1..], keep, x);
    }
  }

  /** One page of a listing. `totalPages` is None where `Math.ceil(total / 0)`
      gives `Infinity`, which JSON renders as `null`; a limit of 0 is no limit. */
  datatype Page<T> = Page(items: seq<T>, currentPage: int, totalPages: Option<nat>, total: nat)

  function Skip(page: int, limit: nat): int {
    (page - 1) * limit
  }

  /** `Math.ceil(total / limit)` for a positive limit, in integers. */
  function CeilDiv(total: nat, limit: nat): nat
    requires limit > 0
  {
    if total == 0 then 0 else (total - 1) / limit + 1
  }

  /** `CeilDiv` is the ceiling: the least page count whose pages hold every match. */
  lemma CeilDivIsCeiling(total: nat, limit: nat)
    requires limit > 0
    ensures CeilDiv(total, limit) * limit >= total
    ensures CeilDiv(total, limit) == 0 || (CeilDiv(total, limit) - 1) * limit < total
  {
    if total > 0 {
      var q, m := (total - 1) / limit, (total - 1) % limit;
      assert total - 1 == q * limit + m && 0 <= m < limit;
      assert CeilDiv(total, limit) * limit == q * limit + limit;
    }
  }

  /** The page the store returns for `page` and `limit` over the listing of
      all matches; None where the store rejects a negative skip (answered 500). */
  function Paginate<T>(matching: seq<T>, page: int, limit: nat): Option<Page<T>> {
    var skip := Skip(page, limit);
    if skip < 0 then None
    else
      var from := if skip <= |matching| then skip else |matching|;
      var to := if limit == 0 || from + limit > |matching| then |matching| else from + limit;
      Some(Page(matching[from..to], page, if limit == 0 then None else Some(CeilDiv(|matching|, limit)), |matching|))
  }

  /** A page holds at most `limit` documents, and they are consecutive matches
      starting at the skip. */
  lemma PageShape<T>(matching: seq<T>, page: int, limit: nat)
    requires Paginate(matching, page, limit).Some?
    ensures var p := Paginate(matching, page, limit).value;
      && p.total == |matching| && p.currentPage == page
      && (limit > 0 ==> |p.items| <= limit && p.totalPages == Some(CeilDiv(|matching|, limit)))
      && (limit == 0 ==> p.items == matching && p.totalPages.None?)
      && forall i :: 0 <= i < |p.items| ==> Skip(page, limit) + i < |matching| && p.items[i] == matching[Skip(page, limit) + i]
  {
  }

  /** A page before the first is rejected when there is a limit. */
  lemma PageBeforeFirst<T>(matching: seq<T>, page: int, limit: nat)
    requires page < 1 && limit > 0
    ensures Paginate(matching, page, limit).None?
  {
    assert (page - 1) * limit < 0 by {
      assert (1 - page) * limit > 0;
    }
  }

  /** Multiplying by a positive factor preserves strict order both ways. */
  lemma MulStrictOrder(a: int, b: int, l: int)
    requires l > 0
    ensures a * l < b * l <==> a < b
  {
    assert b * l - a * l == (b - a) * l;
  }

  /** A page starting at or before the end holds the matches from the skip
      up to `limit` of them. */
  lemma PageAt<T>(matching: seq<T>, page: int, limit: nat, skip: nat)
    requires limit > 0 && skip == Skip(page, limit) && skip <= |matching|
    ensures Paginate(matching, page, limit).Some?
    ensures var items := Paginate(matching, page, limit).value.items;
      && |items| == (if skip + limit > |matching| then |matching| - skip else limit)
      && forall j :: 0 <= j < |items| ==> items[j] == matching[skip + j]
  {
  }

  /** Every match appears on exactly the page its position says, and that page
      is within `totalPages`. */
  lemma EveryMatchOnItsPage<T>(matching: seq<T>, limit: nat, i: nat)
    requires limit > 0 && i < |matching|
    ensures var page := i / limit + 1;
      && Paginate(matching, page, limit).Some?
      && page <= Paginate(matching, page, limit).value.totalPages.value
      && i % limit < |Paginate(matching, page, limit).value.items|
      && Paginate(matching, page, limit).value.items[i % limit] == matching[i]
  {
    var q, m := i / limit, i % limit;
    var page := q + 1;
    var skip := q * limit;
    assert i == skip + m && 0 <= m < limit;
    assert Skip(page, limit) == skip;
    PageAt(matching, page, limit, skip);
    CeilDivIsCeiling(|matching|, limit);
    var c := CeilDiv(|matching|, limit);
    MulStrictOrder(q, c, limit);
  }

  /** Past the last page the listing is empty. */
  lemma PastLastPageIsEmpty<T>(matching: seq<T>, page: int, limit: nat)
    requires limit > 0 && page > CeilDiv(|matching|, limit)
    ensures Paginate(matching, page, limit).Some?
    ensures Paginate(matching, page, limit).value.items == []
  {
    CeilDivIsCeiling(|matching|, limit);
    var c := CeilDiv(|matching|, limit);
    var skip := (page - 1) * limit;
    assert skip >= c * limit by {
      MulMonotone(page - 1, c, limit);
    }
    assert Skip(page, limit) == skip;
  }

  /** Multiplying by a positive factor preserves order. */
  lemma MulMonotone(a: int, b: int, l: int)
    requires l > 0 && a >= b
    ensures a * l >= b * l
  {
    assert a * l - b * l == (a - b) * l;
  }
}
