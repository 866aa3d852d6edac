/** An append-only table whose rows carry a unique, increasing number: the event log and the chat
    inbox of one investigation. Readers page through it with a cursor. */
module SequencedLog {
  import opened Sequences

  datatype Entry<+T> = Entry(number: int, body: T)

  /** `ORDER BY number` over a column with a uniqueness constraint. */
  ghost predicate Sorted<T>(log: seq<Entry<T>>) {
    forall i, j :: 0 <= i < j < |log| ==> log[i].number < log[j].number
  }

  /** How many rows a reader whose cursor is `cursor` has already passed. */
  function Position<T>(log: seq<Entry<T>>, cursor: int): (k: nat)
    ensures k <= |log|
    ensures k > 0 ==> log[k - 1].number <= cursor
    ensures forall i :: k <= i < |log| ==> log[i].number > cursor
  {
    LastPassed(log, cursor, |log|)
  }

  function LastPassed<T>(log: seq<Entry<T>>, cursor: int, n: nat): (k: nat)
    requires n <= |log|
    ensures k <= n
    ensures k > 0 ==> log[k - 1].number <= cursor
    ensures forall i :: k <= i < n ==> log[i].number > cursor
  {
    if n == 0 || log[n - 1].number <= cursor then n else LastPassed(log, cursor, n - 1)
  }

  /** `WHERE number > cursor`. */
  function After<T>(log: seq<Entry<T>>, cursor: int): seq<Entry<T>> {
    log[Position(log, cursor)..]
  }

  /** `WHERE number > cursor ORDER BY number LIMIT limit`. */
  function Page<T>(log: seq<Entry<T>>, cursor: int, limit: nat): seq<Entry<T>> {
    log[Position(log, cursor)..PageEnd(log, cursor, limit)]
  }

  function PageEnd<T>(log: seq<Entry<T>>, cursor: int, limit: nat): (end: nat)
    ensures Position(log, cursor) <= end <= |log|
  {
    var k := Position(log, cursor);
    if k + limit <= |log| then k + limit else |log|
  }

  /** The rows a reader passes when its cursor moves from `low` to `high`. */
  function Between<T>(log: seq<Entry<T>>, low: int, high: int): seq<Entry<T>> {
    var hi := Position(log, high);
    var lo := Position(log, low);
    log[if lo <= hi then lo else hi..hi]
  }

  /** Where a reader's cursor stands after it has consumed `page`. */
  function CursorAfter<T>(cursor: int, page: seq<Entry<T>>): int {
    if page == [] then cursor else page[|page| - 1].number
  }

  /** `INSERT ... ON CONFLICT DO NOTHING`. */
  function Insert<T>(log: seq<Entry<T>>, e: Entry<T>): seq<Entry<T>> {
    var p := Position(log, e.number);
    if p > 0 && log[p - 1].number == e.number then log else log[..p] + [e] + log[p..]
  }

  ghost predicate Numbered<T>(log: seq<Entry<T>>, number: int) {
    exists i :: 0 <= i < |log| && log[i].number == number
  }

  /** Every row of `before` is still in `log`. */
  ghost predicate Grows<T>(before: seq<Entry<T>>, log: seq<Entry<T>>) {
    forall e :: e in before ==> e in log
  }

  lemma SortedAt<T>(log: seq<Entry<T>>, i: int, j: int)
    requires Sorted(log)
    ensures 0 <= i < j < |log| ==> log[i].number < log[j].number
  {
  }

  lemma PositionUnique<T>(log: seq<Entry<T>>, cursor: int, k: nat)
    requires Sorted(log) && k <= |log|
    requires k > 0 ==> log[k - 1].number <= cursor
    requires k < |log| ==> log[k].number > cursor
    ensures Position(log, cursor) == k
  {
    var p := Position(log, cursor);
    SortedAt(log, p, k - 1);
  }

  lemma PositionMonotone<T>(log: seq<Entry<T>>, low: int, high: int)
    requires Sorted(log) && low <= high
    ensures Position(log, low) <= Position(log, high)
  {
  }

  /** After one page the reader has passed exactly the rows up to the end of that page. */
  lemma PositionAfterPage<T>(log: seq<Entry<T>>, cursor: int, limit: nat)
    requires Sorted(log)
    ensures Position(log, CursorAfter(cursor, Page(log, cursor, limit))) == PageEnd(log, cursor, limit)
    ensures cursor <= CursorAfter(cursor, Page(log, cursor, limit))
  {
    var page := Page(log, cursor, limit);
    var end := PageEnd(log, cursor, limit);
    if page != [] {
      assert page[|page| - 1] == log[end - 1];
      SortedAt(log, end - 1, end);
      PositionUnique(log, log[end - 1].number, end);
    }
  }

  /** What the query means: exactly the rows past the cursor, smallest first, and a row is left
      out only when the page is full of smaller ones. */
  lemma PageMeaning<T>(log: seq<Entry<T>>, cursor: int, limit: nat, e: Entry<T>)
    requires Sorted(log)
    ensures Sorted(Page(log, cursor, limit)) && |Page(log, cursor, limit)| <= limit
    ensures e in Page(log, cursor, limit) ==> e in log && e.number > cursor
    ensures e in log && e.number > cursor && e !in Page(log, cursor, limit) ==>
              |Page(log, cursor, limit)| == limit
              && forall f :: f in Page(log, cursor, limit) ==> f.number < e.number
  {
    var k := Position(log, cursor);
    SliceMeaning(log, k, PageEnd(log, cursor, limit), e);
  }

  lemma SliceMeaning<T>(log: seq<Entry<T>>, a: nat, b: nat, e: Entry<T>)
    requires Sorted(log) && a <= b <= |log|
    ensures Sorted(log[a..b])
    ensures e in log[a..b] ==> exists i :: a <= i < b && log[i] == e
    ensures e in log && e !in log[a..b] ==> exists i :: (0 <= i < a || b <= i < |log|) && log[i] == e
    ensures b < |log| ==> forall f :: f in log[a..b] ==> f.number < log[b].number
  {
    forall i | a <= i < b ensures log[i] in log[a..b] {
      assert log[a..b][i - a] == log[i];
    }
  }

  /** Reading one page moves the cursor over exactly the rows of that page. */
  lemma PageExtends<T>(log: seq<Entry<T>>, low: int, cursor: int, limit: nat)
    requires Sorted(log) && low <= cursor
    ensures cursor <= CursorAfter(cursor, Page(log, cursor, limit))
    ensures Between(log, low, cursor) + Page(log, cursor, limit)
         == Between(log, low, CursorAfter(cursor, Page(log, cursor, limit)))
  {
    PositionAfterPage(log, cursor, limit);
    PositionMonotone(log, low, cursor);
    SlicesJoin(log, Position(log, low), Position(log, cursor), PageEnd(log, cursor, limit));
  }

  /** Two pages in a row read what one page of the combined size would read. */
  lemma PagesCompose<T>(log: seq<Entry<T>>, cursor: int, m: nat, n: nat)
    requires Sorted(log)
    ensures Page(log, cursor, m) + Page(log, CursorAfter(cursor, Page(log, cursor, m)), n) == Page(log, cursor, m + n)
  {
    var next := CursorAfter(cursor, Page(log, cursor, m));
    PositionAfterPage(log, cursor, m);
    SlicesJoin(log, Position(log, cursor), PageEnd(log, cursor, m), PageEnd(log, next, n));
  }

  /** A page leaves nothing behind exactly when it is at least as long as what was unread. */
  lemma PageLeaves<T>(log: seq<Entry<T>>, cursor: int, limit: nat)
    requires Sorted(log)
    ensures After(log, CursorAfter(cursor, Page(log, cursor, limit))) == [] <==> |After(log, cursor)| <= limit
  {
    PositionAfterPage(log, cursor, limit);
  }

  /** A conflicting number leaves the table as it is. */
  lemma InsertDuplicate<T>(log: seq<Entry<T>>, e: Entry<T>)
    requires Sorted(log) && Numbered(log, e.number)
    ensures Insert(log, e) == log
  {
    var p := Position(log, e.number);
    var i :| 0 <= i < |log| && log[i].number == e.number;
    assert i < p;
    SortedAt(log, i, p - 1);
  }

  /** `r` is `log` with one more row at place `p`. */
  ghost predicate OneMore<T>(log: seq<Entry<T>>, r: seq<Entry<T>>, p: nat) {
    && |r| == |log| + 1 && p <= |log|
    && (forall i :: 0 <= i < p ==> r[i] == log[i])
    && (forall i :: p < i < |r| ==> r[i] == log[i - 1])
  }

  /** A fresh number lands at the one place that keeps the table sorted. */
  lemma InsertFresh<T>(log: seq<Entry<T>>, e: Entry<T>, p: nat)
    requires Sorted(log) && !Numbered(log, e.number) && p == Position(log, e.number)
    ensures var r := Insert(log, e); OneMore(log, r, p) && r[p] == e
    ensures p > 0 ==> log[p - 1].number < e.number
  {
    assert p > 0 ==> log[p - 1].number != e.number;
  }

  lemma OneMoreSorted<T>(log: seq<Entry<T>>, r: seq<Entry<T>>, p: nat)
    requires Sorted(log) && OneMore(log, r, p)
    requires p > 0 ==> log[p - 1].number < r[p].number
    requires p < |log| ==> r[p].number < log[p].number
    ensures Sorted(r)
  {
    forall i, j | 0 <= i < j < |r| ensures r[i].number < r[j].number {
      SortedAt(log, if i < p then i else i - 1, if j < p then j else j - 1);
      SortedAt(log, i, p - 1);
      SortedAt(log, p, j - 1);
    }
  }

  lemma InsertSorted<T>(log: seq<Entry<T>>, e: Entry<T>)
    requires Sorted(log)
    ensures Sorted(Insert(log, e))
  {
    if Numbered(log, e.number) {
      InsertDuplicate(log, e);
    } else {
      var p := Position(log, e.number);
      InsertFresh(log, e, p);
      OneMoreSorted(log, Insert(log, e), p);
    }
  }

  lemma InsertMembers<T>(log: seq<Entry<T>>, e: Entry<T>)
    requires Sorted(log)
    ensures Grows(log, Insert(log, e))
    ensures !Numbered(log, e.number) ==> e in Insert(log, e)
    ensures forall f :: f in Insert(log, e) ==> f in log || f == e
  {
    if Numbered(log, e.number) {
      InsertDuplicate(log, e);
    } else {
      var p := Position(log, e.number);
      var r := Insert(log, e);
      InsertFresh(log, e, p);
      forall f | f in log ensures f in r {
        var i :| 0 <= i < |log| && log[i] == f;
        assert r[if i < p then i else i + 1] == f;
      }
    }
  }

  lemma OneMorePosition<T>(log: seq<Entry<T>>, r: seq<Entry<T>>, p: nat, cursor: int)
    requires Sorted(log) && Sorted(r) && OneMore(log, r, p)
    ensures Position(r, cursor) == Position(log, cursor) + if r[p].number <= cursor then 1 else 0
  {
    var k := Position(log, cursor);
    if r[p].number <= cursor {
      SortedAt(r, p, k);
      PositionUnique(r, cursor, k + 1);
    } else {
      SortedAt(r, p, k + 1);
      SortedAt(r, p, k);
      PositionUnique(r, cursor, k);
    }
  }

  /** A row inserted past the cursor, or not past `low`, leaves what lies between them alone. */
  lemma InsertKeepsBetween<T>(log: seq<Entry<T>>, e: Entry<T>, low: int, high: int)
    requires Sorted(log) && low <= high
    requires Numbered(log, e.number) || e.number > high || e.number <= low
    ensures Between(Insert(log, e), low, high) == Between(log, low, high)
  {
    if Numbered(log, e.number) {
      InsertDuplicate(log, e);
    } else {
      var p := Position(log, e.number);
      InsertSorted(log, e);
      InsertFresh(log, e, p);
      OneMoreBetween(log, Insert(log, e), p, low, high);
    }
  }

  lemma OneMoreBetween<T>(log: seq<Entry<T>>, r: seq<Entry<T>>, p: nat, low: int, high: int)
    requires Sorted(log) && Sorted(r) && OneMore(log, r, p) && low <= high
    requires r[p].number > high || r[p].number <= low
    ensures Between(r, low, high) == Between(log, low, high)
  {
    PositionMonotone(log, low, high);
    OneMorePosition(log, r, p, low);
    OneMorePosition(log, r, p, high);
    var lo, hi := Position(log, low), Position(log, high);
    var rlo, rhi := Position(r, low), Position(r, high);
    var shift := if r[p].number <= low then 1 else 0;
    assert Between(log, low, high) == log[lo..hi] && Between(r, low, high) == r[rlo..rhi];
    SlicesAgree(log, r, p, lo, hi, shift);
  }

  lemma SlicesAgree<T>(log: seq<Entry<T>>, r: seq<Entry<T>>, p: nat, lo: nat, hi: nat, shift: nat)
    requires OneMore(log, r, p) && lo <= hi <= |log| && shift <= 1
    requires if shift == 0 then hi <= p else p <= lo
    ensures r[lo + shift..hi + shift] == log[lo..hi]
  {
    forall i | 0 <= i < hi - lo ensures r[lo + shift..hi + shift][i] == log[lo..hi][i] {
      assert r[lo + shift + i] == log[lo + i];
    }
  }

  lemma BetweenMember<T>(log: seq<Entry<T>>, low: int, high: int, e: Entry<T>)
    requires Sorted(log)
    ensures e in Between(log, low, high) <==> e in log && low < e.number <= high
  {
    var lo, hi := Position(log, low), Position(log, high);
    if low <= high {
      PositionMonotone(log, low, high);
      assert Between(log, low, high) == log[lo..hi];
      if e in log && low < e.number <= high {
        var i :| 0 <= i < |log| && log[i] == e;
        assert log[lo..hi][i - lo] == e;
      }
    } else {
      PositionMonotone(log, high, low);
      assert Between(log, low, high) == [];
    }
  }

  /** What a reader has passed is an initial part of everything past its first cursor. */
  lemma BetweenIsPrefix<T>(log: seq<Entry<T>>, low: int, high: int)
    requires Sorted(log) && low <= high
    ensures Between(log, low, high) <= After(log, low)
    ensures Sorted(Between(log, low, high))
  {
    PositionMonotone(log, low, high);
  }

  /** A cursor on row `i` has passed exactly the rows up to `i`. */
  lemma CursorAtRow<T>(log: seq<Entry<T>>, low: int, high: int, i: nat)
    requires Sorted(log) && Position(log, low) <= i < Position(log, high)
    ensures low < log[i].number <= high && Position(log, log[i].number) == i + 1
  {
    SortedAt(log, i, Position(log, high) - 1);
    SortedAt(log, i, i + 1);
    PositionUnique(log, log[i].number, i + 1);
  }

  /** Cutting off the last rows a reader passed moves its cursor back to the last one it kept. */
  lemma BetweenCut<T>(log: seq<Entry<T>>, low: int, high: int, keep: nat)
    requires Sorted(log) && low <= high && keep <= |Between(log, low, high)|
    ensures var kept := Between(log, low, high)[..keep];
            low <= CursorAfter(low, kept) <= high && kept == Between(log, low, CursorAfter(low, kept))
  {
    PositionMonotone(log, low, high);
    var lo := Position(log, low);
    var kept := Between(log, low, high)[..keep];
    assert kept == log[lo..lo + keep];
    if keep > 0 {
      CursorAtRow(log, low, high, lo + keep - 1);
      assert kept[keep - 1] == log[lo + keep - 1];
    }
  }

  // ---------------------------------------------------------------------------
  // What a reader is given
  // ---------------------------------------------------------------------------

  lemma PageOrdered<T>(log: seq<Entry<T>>, cursor: int, limit: nat)
    requires Sorted(log)
    ensures var page := Page(log, cursor, limit);
            && Sorted(page) && cursor <= CursorAfter(cursor, page)
            && forall e :: e in page ==> e in log && cursor < e.number <= CursorAfter(cursor, page)
  {
    PositionAfterPage(log, cursor, limit);
    SliceSorted(log, Position(log, cursor), PageEnd(log, cursor, limit));
    forall e | e in Page(log, cursor, limit)
      ensures e in log && cursor < e.number <= CursorAfter(cursor, Page(log, cursor, limit))
    {
      PageMember(log, cursor, limit, e);
    }
  }

  lemma SliceSorted<T>(log: seq<Entry<T>>, a: nat, b: nat)
    requires Sorted(log) && a <= b <= |log|
    ensures Sorted(log[a..b])
  {
  }

  lemma PageMember<T>(log: seq<Entry<T>>, cursor: int, limit: nat, e: Entry<T>)
    requires Sorted(log) && e in Page(log, cursor, limit)
    ensures e in log && cursor < e.number <= CursorAfter(cursor, Page(log, cursor, limit))
  {
    var page := Page(log, cursor, limit);
    var k, end := Position(log, cursor), PageEnd(log, cursor, limit);
    var i :| 0 <= i < |page| && page[i] == e;
    assert e == log[k + i];
    SortedAt(log, k + i, end - 1);
  }

  /** A page is the rows its reader passes with it. */
  lemma PageIsBetween<T>(log: seq<Entry<T>>, cursor: int, limit: nat)
    requires Sorted(log)
    ensures Page(log, cursor, limit) == Between(log, cursor, CursorAfter(cursor, Page(log, cursor, limit)))
  {
    PositionAfterPage(log, cursor, limit);
  }

  lemma SortedConcat<T>(a: seq<Entry<T>>, b: seq<Entry<T>>, pivot: int)
    requires Sorted(a) && Sorted(b)
    requires forall e :: e in a ==> e.number <= pivot
    requires forall e :: e in b ==> pivot < e.number
    ensures Sorted(a + b)
  {
    forall i, j | 0 <= i < j < |a + b| ensures (a + b)[i].number < (a + b)[j].number {
      SortedAt(a, i, j);
      SortedAt(b, i - |a|, j - |a|);
      assert i < |a| ==> a[i] in a;
      assert j >= |a| ==> b[j - |a|] in b;
    }
  }

  /** The cursor is where it started, or at the number of a row. */
  ghost predicate Reached<T>(log: seq<Entry<T>>, low: int, cursor: int) {
    cursor == low || Numbered(log, cursor)
  }

  lemma ReachedGrows<T>(log: seq<Entry<T>>, later: seq<Entry<T>>, low: int, cursor: int)
    requires Reached(log, low, cursor) && Grows(log, later)
    ensures Reached(later, low, cursor)
  {
    if Numbered(log, cursor) {
      var i :| 0 <= i < |log| && log[i].number == cursor;
      assert log[i] in later;
    }
  }

  lemma ReachedAfterPage<T>(log: seq<Entry<T>>, low: int, cursor: int, limit: nat)
    requires Sorted(log) && Reached(log, low, cursor)
    ensures Reached(log, low, CursorAfter(cursor, Page(log, cursor, limit)))
  {
    var page := Page(log, cursor, limit);
    if page != [] {
      assert page[|page| - 1] == log[PageEnd(log, cursor, limit) - 1];
    }
  }

  // ---------------------------------------------------------------------------
  // Inserting many rows under a reader
  // ---------------------------------------------------------------------------

  function InsertAll<T>(log: seq<Entry<T>>, rows: seq<Entry<T>>): seq<Entry<T>>
    decreases rows
  {
    if rows == [] then log else InsertAll(Insert(log, rows[0]), rows[1..])
  }

  /** A row is late for a reader that started at `low` and stands at `high` when its number is new and
      lies in what the reader has already passed. */
  ghost predicate Late<T>(log: seq<Entry<T>>, e: Entry<T>, low: int, high: int) {
    !Numbered(log, e.number) && low < e.number <= high
  }

  ghost predicate NoneBehind<T>(log: seq<Entry<T>>, rows: seq<Entry<T>>, low: int, high: int)
    decreases rows
  {
    rows == [] || (!Late(log, rows[0], low, high) && NoneBehind(Insert(log, rows[0]), rows[1..], low, high))
  }

  lemma {:induction false} InsertAllKeeps<T>(log: seq<Entry<T>>, rows: seq<Entry<T>>)
    requires Sorted(log)
    ensures Sorted(InsertAll(log, rows)) && Grows(log, InsertAll(log, rows))
    decreases rows
  {
    if rows != [] {
      InsertSorted(log, rows[0]);
      InsertMembers(log, rows[0]);
      InsertAllKeeps(Insert(log, rows[0]), rows[1..]);
    }
  }

  /** Rows that are not late leave what the reader has passed alone. */
  lemma {:induction false} InsertAllKeepsBetween<T>(log: seq<Entry<T>>, rows: seq<Entry<T>>, low: int, high: int)
    requires Sorted(log) && low <= high && NoneBehind(log, rows, low, high)
    ensures Between(InsertAll(log, rows), low, high) == Between(log, low, high)
    decreases rows
  {
    if rows != [] {
      InsertSorted(log, rows[0]);
      InsertKeepsBetween(log, rows[0], low, high);
      InsertAllKeepsBetween(Insert(log, rows[0]), rows[1..], low, high);
    }
  }

  /** A late row ends up among the rows the reader has passed without having read it. */
  lemma {:induction false} LateRow<T>(log: seq<Entry<T>>, rows: seq<Entry<T>>, low: int, high: int)
    returns (e: Entry<T>)
    requires Sorted(log) && !NoneBehind(log, rows, low, high)
    ensures e !in log && e in InsertAll(log, rows) && low < e.number <= high
    decreases rows
  {
    var next := Insert(log, rows[0]);
    InsertSorted(log, rows[0]);
    InsertMembers(log, rows[0]);
    InsertAllKeeps(next, rows[1..]);
    if Late(log, rows[0], low, high) {
      e := rows[0];
    } else {
      e := LateRow(next, rows[1..], low, high);
    }
  }
}
