/** Pages of a list: the range each shows, and the full preview's prefix-then-slice. */
module Paging {
  const ROWS_PER_VIEW: nat := 15

  /** Pages it takes to show `total` rows, at least one. */
  function LastPage(total: nat, size: nat): (p: nat)
    requires size > 0
    ensures p >= 1 && p * size >= total && (total > 0 ==> (p - 1) * size < total) && (total == 0 ==> p == 1)
  {
    if total == 0 then 1
    else
      var p := (total - 1) / size + 1;
      Floors(total - 1, size);
      assert (p - 1) * size + size == p * size;
      p
  }

  lemma Floors(n: nat, size: nat)
    requires size > 0
    ensures n / size * size <= n < n / size * size + size && n / size >= 0
  {
  }

  datatype Range = Range(lastPage: nat, shown: nat, from: nat, to: nat, beyond: bool)

  function Min(a: int, b: int): int {
    if a < b then a else b
  }

  function Max(a: int, b: int): int {
    if a < b then b else a
  }

  /** What page `page` shows of the list; a number below one is read as one, a number too high as the last. */
  function PageRange(page: int, total: nat, size: nat): (r: Range)
    requires size > 0
    ensures 1 <= r.shown <= r.lastPage
  {
    var lastPage := LastPage(total, size);
    var shown := Min(Max(1, page), lastPage);
    Range(lastPage, shown, if total == 0 then 0 else (shown - 1) * size + 1, Min(total, shown * size),
          total > 0 && page > lastPage)
  }

  /** Products of a page number order as the numbers do. */
  lemma Scaled(a: int, b: int, size: nat)
    requires a <= b
    ensures a * size <= b * size
  {
  }

  /** Whatever page is asked for, the range shown is some rows in order, inside the list, and all of it when short. */
  lemma RangeNeverRunsBackwards(page: int, total: nat, size: nat)
    requires size > 0
    ensures var r := PageRange(page, total, size);
            && (total > 0 ==> 1 <= r.from <= r.to <= total && r.to - r.from < size)
            && (total == 0 ==> r.from == 0 && r.to == 0)
            && (r.beyond <==> total > 0 && r.shown < page)
  {
    var r := PageRange(page, total, size);
    if total > 0 {
      Scaled(r.shown - 1, r.lastPage - 1, size);
      assert (r.shown - 1) * size + size == r.shown * size;
    }
  }

  /**
   * Pages 1 to the last partition 1 to the total: the first starts at 1, each starts where the one
   * before it ended, and the last ends at the total.
   */
  lemma RangesPartition(page: nat, total: nat, size: nat)
    requires size > 0 && total > 0 && 1 <= page <= LastPage(total, size)
    ensures var r := PageRange(page, total, size);
            && r.shown == page && !r.beyond
            && (page == 1 ==> r.from == 1)
            && (page < r.lastPage ==> PageRange(page + 1, total, size).from == r.to + 1 && r.to - r.from + 1 == size)
            && (page == r.lastPage ==> r.to == total)
  {
    var last := LastPage(total, size);
    if page < last {
      Scaled(page, last - 1, size);
      assert (page - 1) * size + size == page * size;
    }
  }

  // ------------------------------------------------------------- correction

  /** A pager over a list that keeps its length: what page it is on, and how often it corrected itself. */
  class Pager {
    const total: nat
    const size: nat
    var page: int
    var corrections: nat

    constructor (page: int, total: nat, size: nat)
      requires size > 0
      ensures this.page == page && this.total == total && this.size == size && corrections == 0
    {
      this.page := page;
      this.total := total;
      this.size := size;
      corrections := 0;
    }

    /** The effect: a page past the end goes to the last. */
    method Correct() returns (fired: bool)
      requires size > 0
      modifies this
      ensures fired == PageRange(old(page), total, size).beyond
      ensures page == if fired then LastPage(total, size) else old(page)
      ensures corrections == old(corrections) + if fired then 1 else 0
      ensures !PageRange(page, total, size).beyond
    {
      var r := PageRange(page, total, size);
      fired := r.beyond;
      if fired {
        page := r.lastPage;
        corrections := corrections + 1;
      }
    }

    /** However often the effect runs, it corrects at most once. */
    method Settle(renders: nat)
      requires size > 0 && renders > 0
      modifies this
      ensures corrections <= old(corrections) + 1
      ensures corrections == old(corrections) + 1 <==> PageRange(old(page), total, size).beyond
      ensures !PageRange(page, total, size).beyond
    {
      var first := Correct();
      for i := 1 to renders
        invariant corrections == old(corrections) + if first then 1 else 0
        invariant !PageRange(page, total, size).beyond
      {
        var again := Correct();
      }
    }
  }

  // ------------------------------------------------------------ full preview

  /** The first `limit` of a plan. */
  function Prefix<T>(plan: seq<T>, limit: nat): seq<T> {
    if limit <= |plan| then plan[..limit] else plan
  }

  function Drop<T>(rows: seq<T>, n: nat): seq<T> {
    if n <= |rows| then rows[n..] else []
  }

  /** A page of the preview: everything up to its end, less what the pages before it showed. */
  function PreviewPage<T>(plan: seq<T>, page: nat): seq<T>
    requires page >= 1
  {
    Drop(Prefix(plan, page * ROWS_PER_VIEW), (page - 1) * ROWS_PER_VIEW)
  }

  function Pages<T>(plan: seq<T>): nat {
    LastPage(|plan|, ROWS_PER_VIEW)
  }

  function FirstPages<T>(plan: seq<T>, n: nat): seq<T> {
    if n == 0 then [] else FirstPages(plan, n - 1) + PreviewPage(plan, n)
  }

  lemma {:induction false} FirstPagesArePrefix<T>(plan: seq<T>, n: nat)
    ensures FirstPages(plan, n) == Prefix(plan, n * ROWS_PER_VIEW)
  {
    if n > 0 {
      FirstPagesArePrefix(plan, n - 1);
      var a, b := Prefix(plan, (n - 1) * ROWS_PER_VIEW), Prefix(plan, n * ROWS_PER_VIEW);
      assert b == a + Drop(b, (n - 1) * ROWS_PER_VIEW);
    } else {
      assert Prefix(plan, 0) == [];
    }
  }

  /** Pages 1 to the last, end to end, are the whole plan: no row lost and none repeated. */
  lemma PagesAreThePlan<T>(plan: seq<T>)
    ensures FirstPages(plan, Pages(plan)) == plan
  {
    FirstPagesArePrefix(plan, Pages(plan));
  }

  /** Every page but the last is full, the last has what is left, and past it there is nothing. */
  lemma PagesAreFull<T>(plan: seq<T>, page: nat)
    requires page >= 1
    ensures page < Pages(plan) ==> |PreviewPage(plan, page)| == ROWS_PER_VIEW
    ensures page == Pages(plan) ==> |PreviewPage(plan, page)| == |plan| - (page - 1) * ROWS_PER_VIEW
    ensures page > Pages(plan) ==> PreviewPage(plan, page) == []
  {
    var last := Pages(plan);
    if page < last {
      Scaled(page, last - 1, ROWS_PER_VIEW);
    } else if page > last {
      Scaled(last, page - 1, ROWS_PER_VIEW);
    }
  }
}
