/**
 The paged listings of jobs, alerts and audit entries: the filter, the slice
 and the page count they share, over the ordered result of the query.
 */
module Paging {
  /** `Math.ceil` of a quotient. */
  function Ceil(x: real): int {
    if x.Floor as real == x then x.Floor else x.Floor + 1
  }

  function Max(a: int, b: int): int {
    if a >= b then a else b
  }

  /** `Math.max(Math.ceil(total / limit), 1)`. */
  function TotalPages(total: nat, limit: nat): int
    requires limit >= 1
  {
    Max(Ceil(total as real / limit as real), 1)
  }

  function Min(a: int, b: int): int {
    if a <= b then a else b
  }

  /** `skip: (page - 1) * limit, take: limit`. */
  function Page<T>(rows: seq<T>, page: nat, limit: nat): seq<T>
    requires page >= 1 && limit >= 1
  {
    rows[Min((page - 1) * limit, |rows|)..Min((page - 1) * limit + limit, |rows|)]
  }

  /** Pages 1 to `n`, one after another. */
  function Pages<T>(rows: seq<T>, n: nat, limit: nat): seq<T>
    requires limit >= 1
  {
    if n == 0 then [] else Pages(rows, n - 1, limit) + Page(rows, n, limit)
  }

  function Matching<T>(rows: seq<T>, matches: T -> bool): seq<T> {
    if rows == [] then []
    else Matching(rows[..|rows| - 1], matches) + (if matches(rows[|rows| - 1]) then [rows[|rows| - 1]] else [])
  }

  datatype PageMeta = PageMeta(page: nat, limit: nat, total: nat, totalPages: int)

  datatype PaginatedResult<T> = PaginatedResult(items: seq<T>, meta: PageMeta)

  /** A listing: one page of the matching rows of the ordered table, and the counts. */
  function Listed<T>(rows: seq<T>, matches: T -> bool, page: nat, limit: nat): PaginatedResult<T>
    requires page >= 1 && limit >= 1
  {
    var found := Matching(rows, matches);
    PaginatedResult(Page(found, page, limit), PageMeta(page, limit, |found|, TotalPages(|found|, limit)))
  }

  /** The number of pages is the least that is at least one and holds every row. */
  lemma {:induction false} TotalPagesIsLeast(total: nat, limit: nat, n: int)
    requires limit >= 1
    ensures TotalPages(total, limit) <= n <==> n >= 1 && n * limit >= total
  {
    CeilIsLeast(total as real / limit as real, n);
    QuotientWithin(total, limit, n);
  }

  lemma CeilIsLeast(x: real, n: int)
    ensures Ceil(x) <= n <==> x <= n as real
  {
  }

  lemma QuotientWithin(total: nat, limit: nat, n: int)
    requires limit >= 1
    ensures total as real / limit as real <= n as real <==> total <= n * limit
  {
    var x, l := total as real / limit as real, limit as real;
    assert x * l == total as real;
    assert n as real * l == (n * limit) as real;
    Scaled(n as real, x, l);
  }

  lemma Scaled(a: real, b: real, c: real)
    requires c > 0.0
    ensures a * c >= b * c <==> a >= b
  {
  }

  lemma {:induction false} PagesArePrefix<T>(rows: seq<T>, n: nat, limit: nat)
    requires limit >= 1
    ensures Pages(rows, n, limit) == rows[..Min(n * limit, |rows|)]
  {
    if n > 0 {
      PagesArePrefix(rows, n - 1, limit);
      assert n * limit == (n - 1) * limit + limit;
      var a, b := Min((n - 1) * limit, |rows|), Min(n * limit, |rows|);
      assert rows[..a] + rows[a..b] == rows[..b];
    }
  }

  lemma FullPage<T>(rows: seq<T>, page: nat, limit: nat)
    requires limit >= 1 && 1 <= page < TotalPages(|rows|, limit)
    ensures |Page(rows, page, limit)| == limit
  {
    TotalPagesIsLeast(|rows|, limit, page);
    assert (page - 1) * limit + limit == page * limit;
  }

  lemma LastPage<T>(rows: seq<T>, limit: nat)
    requires rows != [] && limit >= 1 && TotalPages(|rows|, limit) >= 1
    ensures 1 <= |Page(rows, TotalPages(|rows|, limit), limit)| <= limit
  {
    var n := TotalPages(|rows|, limit);
    TotalPagesIsLeast(|rows|, limit, n - 1);
    assert n == 1 ==> (n - 1) * limit == 0;
  }

  lemma EmptyPage<T>(rows: seq<T>, page: nat, limit: nat)
    requires limit >= 1 && page >= 1 && page > TotalPages(|rows|, limit)
    ensures Page(rows, page, limit) == []
  {
    TotalPagesIsLeast(|rows|, limit, page - 1);
  }

  /** Reading pages 1 to `totalPages` gives the list once, in order; all but the last are full and later ones empty. */
  lemma {:induction false} PagesPartition<T>(rows: seq<T>, limit: nat)
    requires limit >= 1
    ensures var n := TotalPages(|rows|, limit);
      && n >= 1 && Pages(rows, n, limit) == rows
      && (forall page: nat :: 1 <= page < n ==> |Page(rows, page, limit)| == limit)
      && (rows != [] ==> 1 <= |Page(rows, n, limit)| <= limit)
      && (forall page: nat :: page > n ==> Page(rows, page, limit) == [])
  {
    var n := TotalPages(|rows|, limit);
    TotalPagesIsLeast(|rows|, limit, n);
    PagesArePrefix(rows, n, limit);
    assert rows[..|rows|] == rows;
    forall page: nat | 1 <= page < n ensures |Page(rows, page, limit)| == limit { FullPage(rows, page, limit); }
    if rows != [] { LastPage(rows, limit); }
    forall page: nat | page > n ensures Page(rows, page, limit) == [] { EmptyPage(rows, page, limit); }
  }

  /** Row `i` is on page `i / limit + 1` and on no other. */
  lemma {:induction false} RowIsOnOnePage<T>(rows: seq<T>, i: nat, limit: nat, page: nat)
    requires limit >= 1 && page >= 1 && i < |rows|
    ensures (page - 1) * limit <= i < (page - 1) * limit + limit <==> page == i / limit + 1
    ensures page == i / limit + 1 ==>
      i % limit < |Page(rows, page, limit)| && Page(rows, page, limit)[i % limit] == rows[i]
  {
    var q := i / limit;
    assert i == q * limit + i % limit;
    OneMultipleFits(page - 1, q, limit, i);
  }

  lemma {:induction false} OneMultipleFits(p: nat, q: nat, limit: nat, i: nat)
    requires q * limit <= i < q * limit + limit
    ensures p * limit <= i < p * limit + limit <==> p == q
  {
    if p < q { Scales(p + 1, q, limit); }
    if p > q { Scales(q + 1, p, limit); }
  }

  lemma Scales(a: int, b: int, c: nat)
    requires a <= b
    ensures a * c <= b * c
  {
  }

  /** A listing keeps every matching row as often as the table holds it and nothing else. */
  lemma {:induction false} MatchingKeeps<T>(rows: seq<T>, matches: T -> bool, row: T)
    ensures multiset(Matching(rows, matches))[row] == if matches(row) then multiset(rows)[row] else 0
  {
    if rows != [] {
      MatchingKeeps(rows[..|rows| - 1], matches, row);
      assert rows == rows[..|rows| - 1] + [rows[|rows| - 1]];
    }
  }

  /** Walking the pages of a filtered listing shows each matching row exactly as often as the table holds it. */
  lemma {:induction false} WalkShowsEachMatch<T>(rows: seq<T>, matches: T -> bool, limit: nat, row: T)
    requires limit >= 1
    ensures var found := Matching(rows, matches);
      multiset(Pages(found, TotalPages(|found|, limit), limit))[row] == if matches(row) then multiset(rows)[row] else 0
  {
    PagesPartition(Matching(rows, matches), limit);
    MatchingKeeps(rows, matches, row);
  }

  /** As many rows match as there are positions that do. */
  lemma {:induction false} MatchingCounts<T>(rows: seq<T>, matches: T -> bool, places: set<nat>)
    requires forall k: nat :: k in places <==> k < |rows| && matches(rows[k])
    ensures |Matching(rows, matches)| == |places|
  {
    if rows == [] {
      assert places == {};
    } else {
      var n := |rows| - 1;
      MatchingCounts(rows[..n], matches, places - {n});
      assert places == places - {n} + if matches(rows[n]) then {n} else {};
    }
  }

  lemma {:induction false} MatchingAppends<T>(a: seq<T>, b: seq<T>, matches: T -> bool)
    ensures Matching(a + b, matches) == Matching(a, matches) + Matching(b, matches)
  {
    if b == [] {
      assert a + b == a;
    } else {
      assert (a + b)[..|a + b| - 1] == a + b[..|b| - 1];
      MatchingAppends(a, b[..|b| - 1], matches);
    }
  }

  /** The order of the table does not change how many match. */
  lemma {:induction false} MatchingIgnoresOrder<T>(rows: seq<T>, ordered: seq<T>, matches: T -> bool)
    requires multiset(rows) == multiset(ordered)
    ensures |Matching(rows, matches)| == |Matching(ordered, matches)|
  {
    if rows == [] {
      assert |multiset(ordered)| == 0;
    } else {
      var n, last := |rows| - 1, rows[|rows| - 1];
      assert last in multiset(rows);
      var k :| 0 <= k < |ordered| && ordered[k] == last;
      assert rows == rows[..n] + [last];
      assert ordered == ordered[..k] + [last] + ordered[k + 1..];
      assert multiset(rows[..n]) == multiset(rows) - multiset{last};
      assert multiset(ordered[..k] + ordered[k + 1..]) == multiset(ordered) - multiset{last};
      MatchingIgnoresOrder(rows[..n], ordered[..k] + ordered[k + 1..], matches);
      MatchingAppends(ordered[..k], ordered[k + 1..], matches);
      MatchingAppends(ordered[..k] + [last], ordered[k + 1..], matches);
      MatchingAppends(ordered[..k], [last], matches);
      assert [last][..0] == [];
    }
  }

  /** A page holds matching rows of the table. */
  lemma {:induction false} PageMatches<T>(rows: seq<T>, matches: T -> bool, page: nat, limit: nat)
    requires page >= 1 && limit >= 1
    ensures forall row :: row in Page(Matching(rows, matches), page, limit) ==> row in rows && matches(row)
  {
    forall row | row in Page(Matching(rows, matches), page, limit)
      ensures row in rows && matches(row)
    {
      MatchingKeeps(rows, matches, row);
      assert row in Matching(rows, matches);
      assert multiset(Matching(rows, matches))[row] > 0;
      assert row in multiset(rows);
    }
  }

  /** The items of pages 1 to `n` of a listing, one after another. */
  function Walk<T>(rows: seq<T>, matches: T -> bool, n: nat, limit: nat): seq<T>
    requires limit >= 1
  {
    if n == 0 then [] else Walk(rows, matches, n - 1, limit) + Listed(rows, matches, n, limit).items
  }

  lemma {:induction false} WalkIsPages<T>(rows: seq<T>, matches: T -> bool, n: nat, limit: nat)
    requires limit >= 1
    ensures Walk(rows, matches, n, limit) == Pages(Matching(rows, matches), n, limit)
  {
    if n > 0 { WalkIsPages(rows, matches, n - 1, limit); }
  }

  lemma {:induction false} MatchingAgrees<T>(rows: seq<T>, p: T -> bool, q: T -> bool)
    requires forall row :: row in rows ==> p(row) == q(row)
    ensures Matching(rows, p) == Matching(rows, q)
  {
    if rows != [] { MatchingAgrees(rows[..|rows| - 1], p, q); }
  }

  /** A TypeORM query over the rows in query order, with the condition built up so far. */
  class SelectQueryBuilder<T(!new)> {
    const rows: seq<T>
    var condition: T -> bool
    var offset: nat
    var size: nat

    constructor (rows: seq<T>)
      ensures this.rows == rows
      ensures forall row :: condition(row)
    {
      this.rows, condition, offset, size := rows, row => true, 0, 0;
    }

    method AndWhere(other: T -> bool)
      modifies this`condition
      ensures forall row :: condition(row) == (old(condition)(row) && other(row))
    {
      var before := condition;
      condition := row => before(row) && other(row);
    }

    method SkipAndTake(offset: nat, size: nat)
      modifies this`offset, this`size
      ensures this.offset == offset && this.size == size
    {
      this.offset, this.size := offset, size;
    }

    /** The slice and the number of all matching rows. */
    method GetManyAndCount() returns (items: seq<T>, total: nat)
      ensures var found := Matching(rows, condition);
        total == |found| && items == found[Min(offset, |found|)..Min(offset + size, |found|)]
    {
      var found := Matching(rows, condition);
      items, total := found[Min(offset, |found|)..Min(offset + size, |found|)], |found|;
    }
  }
}
