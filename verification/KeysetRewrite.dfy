/**
 The paginated rewrite loop shared by `backfill` (src/normalize.rs, lines
 207-256) and `reidentify_http` (src/reidentify.rs, lines 12-95).
 */
module KeysetRewrite {
  import opened Text
  import opened Ordering

  type Rows<Doc> = map<int, Doc>

  /** The rows the loop is about: ids count from 1. */
  function Selected<Doc>(rows: Rows<Doc>, sel: Doc -> bool): set<int> {
    set id | id in rows && id > 0 && sel(rows[id])
  }

  function Upto(ids: set<int>, last: int): set<int> {
    set id | id in ids && id <= last
  }

  /** The table once the rows in `ids` have been rewritten. */
  function Rewritten<Doc>(rows: Rows<Doc>, f: Doc -> Option<Doc>, ids: set<int>): Rows<Doc> {
    map id | id in rows :: if id in ids && f(rows[id]).Some? then f(rows[id]).value else rows[id]
  }

  function Changed<Doc(==)>(rows: Rows<Doc>, f: Doc -> Option<Doc>, ids: set<int>): set<int> {
    set id | id in ids && id in rows && f(rows[id]).Some? && f(rows[id]).value != rows[id]
  }

  predicate Readable<Doc>(rows: Rows<Doc>, f: Doc -> Option<Doc>, ids: set<int>) {
    forall id :: id in ids && id in rows ==> f(rows[id]).Some?
  }

  /** What the database may refuse during a run: the update of a row, and the page after an id. */
  datatype Faults = Faults(update: int -> bool, page: int -> bool)

  /** The row can be read, and written if it has to be. */
  predicate Passes<Doc(==)>(doc: Doc, f: Doc -> Option<Doc>, faults: Faults, id: int) {
    f(doc).Some? && (f(doc).value == doc || !faults.update(id))
  }

  predicate Passable<Doc(==)>(rows: Rows<Doc>, f: Doc -> Option<Doc>, faults: Faults, ids: set<int>) {
    forall id :: id in ids && id in rows ==> Passes(rows[id], f, faults, id)
  }

  /** `id` is the first row in `ids` that does not pass. */
  predicate FirstFailing<Doc(==)>(rows: Rows<Doc>, f: Doc -> Option<Doc>, faults: Faults, ids: set<int>, id: int) {
    id in ids && id in rows && !Passes(rows[id], f, faults, id) && Passable(rows, f, faults, Upto(ids, id - 1))
  }

  ghost function Elements(xs: seq<int>): set<int> {
    set x | x in xs
  }

  lemma RewriteOne<Doc>(rows: Rows<Doc>, f: Doc -> Option<Doc>, ids: set<int>, id: int)
    requires id in rows && id !in ids && f(rows[id]).Some?
    ensures Rewritten(rows, f, ids + {id}) == Rewritten(rows, f, ids)[id := f(rows[id]).value]
    ensures id in Rewritten(rows, f, ids) && Rewritten(rows, f, ids)[id] == rows[id]
    ensures Changed(rows, f, ids + {id}) ==
      if f(rows[id]).value != rows[id] then Changed(rows, f, ids) + {id} else Changed(rows, f, ids)
    ensures id !in Changed(rows, f, ids)
  {
  }

  /** The ids still to come in the table as it is now, half rewritten. */
  lemma StillToCome<Doc>(rows: Rows<Doc>, sel: Doc -> bool, f: Doc -> Option<Doc>, last: int)
    requires last >= 0
    ensures var all := Selected(rows, sel);
      var now := Rewritten(rows, f, Upto(all, last));
      (set id | id in now && id > last && sel(now[id])) == all - Upto(all, last)
  {
  }

  lemma PageOrder(left: set<int>, n: nat, k: nat)
    requires k < |Lowest(left, n)|
    ensures var page := Lowest(left, n);
      && page[k] in left && (k > 0 ==> page[k - 1] in left && page[k - 1] < page[k])
      && forall id :: id in left && id < page[k] ==> k > 0 && id <= page[k - 1]
  {
    var page := Lowest(left, n);
    LowestPicks(left, n);
    assert page[k] in page && (k > 0 ==> page[k - 1] in page);
    forall id | id in left && id < page[k] ensures k > 0 && id <= page[k - 1] {
      assert id in page;
      var j :| 0 <= j < |page| && page[j] == id;
      assert j < k;
    }
  }

  /** A page is the next ids in order: after it, exactly those up to its last are done. */
  lemma PageNext(all: set<int>, last: int, page: seq<int>, n: nat, k: nat)
    requires page == Lowest(all - Upto(all, last), n) && k < |page|
    ensures page[k] in all && last < page[k]
    ensures Upto(all, page[k]) == Upto(all, if k == 0 then last else page[k - 1]) + {page[k]}
    ensures k > 0 ==> page[k - 1] < page[k]
  {
    hide Lowest;
    var left := all - Upto(all, last);
    PageOrder(left, n, k);
    forall id | id in all && id <= page[k] && id != page[k]
      ensures id <= if k == 0 then last else page[k - 1]
    {
      assert id in left || id <= last;
    }
  }

  class Table<Doc(==)> {
    var rows: Rows<Doc>

    constructor (rows: Rows<Doc>)
      ensures this.rows == rows
    {
      this.rows := rows;
    }
  }

  /** The rows that read differently now. */
  ghost function Altered<Doc>(was: Rows<Doc>, now: Rows<Doc>): set<int> {
    set id | id in now && (id !in was || now[id] != was[id])
  }

  /**
   One row of a page, as fetched. If it passes it reads as its rewrite
   afterwards; if not, nothing has changed. The count grows by the rows altered.
   */
  method RewriteRow<Doc(==)>(table: Table<Doc>, f: Doc -> Option<Doc>, faults: Faults, id: int, doc: Doc, updated: nat)
    returns (ok: bool, count: nat)
    requires id in table.rows && table.rows[id] == doc
    modifies table
    ensures ok <==> Passes(doc, f, faults, id)
    ensures table.rows == if ok then old(table.rows)[id := f(doc).value] else old(table.rows)
    ensures count == updated + |Altered(old(table.rows), table.rows)|
  {
    count := updated;
    var result := f(doc);
    ok := result.Some?;
    if ok && result.value != doc {
      ok := !faults.update(id);
      if ok {
        table.rows := table.rows[id := result.value];
        count := count + 1;
        assert Altered(old(table.rows), table.rows) == {id};
        return;
      }
    }
    assert ok ==> table.rows[id := f(doc).value] == table.rows;
    assert Altered(old(table.rows), table.rows) == {};
  }

  /** Where the loop stands: all rows up to `last` are done, in order, and no other. */
  ghost predicate DoneUpto<Doc>(rows: Rows<Doc>, now: Rows<Doc>, sel: Doc -> bool, f: Doc -> Option<Doc>,
                               faults: Faults, last: int, visited: seq<int>, updated: nat)
  {
    var done := Upto(Selected(rows, sel), last);
    && last >= 0
    && now == Rewritten(rows, f, done)
    && Passable(rows, f, faults, done)
    && Increasing(visited) && Elements(visited) == done
    && updated == |Changed(rows, f, done)|
  }

  lemma NextRow<Doc>(rows: Rows<Doc>, now: Rows<Doc>, sel: Doc -> bool, f: Doc -> Option<Doc>,
                     faults: Faults, last: int, visited: seq<int>, updated: nat, id: int)
    requires DoneUpto(rows, now, sel, f, faults, last, visited, updated)
    requires id in Selected(rows, sel) && last < id
    requires Upto(Selected(rows, sel), id) == Upto(Selected(rows, sel), last) + {id}
    requires Passes(rows[id], f, faults, id)
    ensures id in now && now[id] == rows[id]
    ensures var next := now[id := f(rows[id]).value];
      DoneUpto(rows, next, sel, f, faults, id, visited + [id], updated + |Altered(now, next)|)
  {
    var done := Upto(Selected(rows, sel), last);
    assert id !in done && forall i :: i in done ==> i < id;
    hide Rewritten, Changed, Increasing, Elements, Passable, Altered;
    RewriteOne(rows, f, done, id);
    VisitNext(visited, done, id);
    PassableOne(rows, f, faults, done, id);
    AlteredOne(now, id, f(rows[id]).value);
    hide Selected, Upto, Passes;
  }

  lemma PassableOne<Doc>(rows: Rows<Doc>, f: Doc -> Option<Doc>, faults: Faults, ids: set<int>, id: int)
    requires Passable(rows, f, faults, ids) && id in rows && Passes(rows[id], f, faults, id)
    ensures Passable(rows, f, faults, ids + {id})
  {
  }

  lemma AlteredOne<Doc>(now: Rows<Doc>, id: int, doc: Doc)
    requires id in now
    ensures Altered(now, now[id := doc]) == if now[id] == doc then {} else {id}
  {
  }

  lemma VisitNext(visited: seq<int>, done: set<int>, id: int)
    requires Increasing(visited) && Elements(visited) == done && forall i :: i in done ==> i < id
    ensures Increasing(visited + [id]) && Elements(visited + [id]) == done + {id}
  {
    assert forall v :: v in visited ==> v in Elements(visited);
    forall i | 0 <= i < |visited| ensures visited[i] < id {
      assert visited[i] in visited;
    }
  }

  /** A row not reached yet still reads as it did. */
  lemma NotReached<Doc>(rows: Rows<Doc>, now: Rows<Doc>, sel: Doc -> bool, f: Doc -> Option<Doc>,
                        faults: Faults, last: int, visited: seq<int>, updated: nat, id: int)
    requires DoneUpto(rows, now, sel, f, faults, last, visited, updated)
    requires id in Selected(rows, sel) && last < id
    ensures id in now && now[id] == rows[id]
  {
  }

  /** Where a page stopped at a row that cannot be read. */
  ghost predicate StoppedAt<Doc>(rows: Rows<Doc>, now: Rows<Doc>, sel: Doc -> bool, f: Doc -> Option<Doc>,
                                 faults: Faults, bad: int, visited: seq<int>, updated: nat)
  {
    FirstFailing(rows, f, faults, Selected(rows, sel), bad) && DoneUpto(rows, now, sel, f, faults, bad - 1, visited, updated)
  }

  /** Stopped at a row, or before a page. */
  ghost predicate Interrupted<Doc>(rows: Rows<Doc>, now: Rows<Doc>, sel: Doc -> bool, f: Doc -> Option<Doc>,
                                   faults: Faults, visited: seq<int>, updated: nat)
  {
    || (exists bad :: StoppedAt(rows, now, sel, f, faults, bad, visited, updated))
    || (exists last :: faults.page(last) && DoneUpto(rows, now, sel, f, faults, last, visited, updated))
  }

  lemma Stops<Doc>(rows: Rows<Doc>, now: Rows<Doc>, sel: Doc -> bool, f: Doc -> Option<Doc>,
                   faults: Faults, last: int, visited: seq<int>, updated: nat, bad: int)
    requires DoneUpto(rows, now, sel, f, faults, last, visited, updated)
    requires bad in Selected(rows, sel) && last < bad && !Passes(rows[bad], f, faults, bad)
    requires Upto(Selected(rows, sel), bad) == Upto(Selected(rows, sel), last) + {bad}
    ensures StoppedAt(rows, now, sel, f, faults, bad, visited, updated)
  {
    var all := Selected(rows, sel);
    assert Upto(all, bad - 1) == Upto(all, last) by {
      assert Upto(all, bad - 1) == Upto(all, bad) - {bad};
    }
  }

  /** The rows of one fetched page, up to the first that cannot be read. */
  method RewritePage<Doc(==)>(table: Table<Doc>, f: Doc -> Option<Doc>, faults: Faults, page: seq<int>, before: nat,
                              ghost rows: Rows<Doc>, ghost sel: Doc -> bool, ghost last: int, ghost chunk: nat,
                              ghost seen: seq<int>)
    returns (ok: bool, updated: nat, ghost visited: seq<int>)
    requires DoneUpto(rows, table.rows, sel, f, faults, last, seen, before)
    requires page != [] && page == Lowest(Selected(rows, sel) - Upto(Selected(rows, sel), last), chunk)
    modifies table
    ensures ok ==> DoneUpto(rows, table.rows, sel, f, faults, page[|page| - 1], visited, updated)
    ensures !ok ==> exists bad :: StoppedAt(rows, table.rows, sel, f, faults, bad, visited, updated)
  {
    hide DoneUpto, StoppedAt, Lowest, Selected, Upto;
    ok, updated, visited := true, before, seen;
    var fetched := table.rows;
    ghost var at := last;
    for k := 0 to |page|
      invariant at == (if k == 0 then last else page[k - 1]) && last <= at
      invariant DoneUpto(rows, table.rows, sel, f, faults, at, visited, updated)
    {
      var id := page[k];
      PageNext(Selected(rows, sel), last, page, chunk, k);
      NotReached(rows, fetched, sel, f, faults, last, seen, before, id);
      NotReached(rows, table.rows, sel, f, faults, at, visited, updated, id);
      ghost var now, count := table.rows, updated;
      ok, updated := RewriteRow(table, f, faults, id, fetched[id], updated);
      if !ok {
        Stops(rows, now, sel, f, faults, at, visited, count, id);
        return;
      }
      NextRow(rows, now, sel, f, faults, at, visited, count, id);
      visited := visited + [id];
      at := id;
    }
  }

  lemma Remaining<Doc>(rows: Rows<Doc>, now: Rows<Doc>, sel: Doc -> bool, f: Doc -> Option<Doc>,
                       faults: Faults, last: int, visited: seq<int>, updated: nat)
    requires DoneUpto(rows, now, sel, f, faults, last, visited, updated)
    ensures (set id | id in now && id > last && sel(now[id])) ==
      Selected(rows, sel) - Upto(Selected(rows, sel), last)
  {
    StillToCome(rows, sel, f, last);
  }

  /** All rows done: the whole-table map. */
  ghost predicate AllDone<Doc>(rows: Rows<Doc>, now: Rows<Doc>, sel: Doc -> bool, f: Doc -> Option<Doc>,
                               faults: Faults, visited: seq<int>, updated: nat)
  {
    var all := Selected(rows, sel);
    && now == Rewritten(rows, f, all)
    && Passable(rows, f, faults, all)
    && Increasing(visited) && Elements(visited) == all
    && updated == |Changed(rows, f, all)|
  }

  lemma Finishes<Doc>(rows: Rows<Doc>, now: Rows<Doc>, sel: Doc -> bool, f: Doc -> Option<Doc>,
                      faults: Faults, last: int, visited: seq<int>, updated: nat)
    requires DoneUpto(rows, now, sel, f, faults, last, visited, updated)
    requires Selected(rows, sel) - Upto(Selected(rows, sel), last) == {}
    ensures AllDone(rows, now, sel, f, faults, visited, updated)
  {
    var all := Selected(rows, sel);
    forall id | id in all ensures id in Upto(all, last) {
      assert id !in all - Upto(all, last);
    }
    assert Upto(all, last) == all;
  }

  lemma PageShrinks(all: set<int>, last: int, page: seq<int>, n: nat)
    requires page == Lowest(all - Upto(all, last), n) && page != []
    ensures page[|page| - 1] > last
    ensures |all - Upto(all, page[|page| - 1])| < |all - Upto(all, last)|
    ensures |page| < n ==> all - Upto(all, page[|page| - 1]) == {}
  {
    var left, next := all - Upto(all, last), all - Upto(all, page[|page| - 1]);
    LowestPicks(left, n);
    var top := page[|page| - 1];
    assert top in page;
    assert next <= left - {top};
    SmallerSet(next, left - {top});
    if |page| < n {
      LowestAll(left, n);
      forall id | id in all && id > last ensures id <= top {
        assert id in left;
        var k :| 0 <= k < |page| && page[k] == id;
      }
    }
  }

  lemma SmallerSet(a: set<int>, b: set<int>)
    requires a <= b
    ensures |a| <= |b|
  {
    assert b == a + (b - a);
  }

  /**
   The loop, for any page size. It ends; if nothing fails, every selected row is
   rewritten, exactly once and in ascending order, no other row is touched, and
   `updated` counts the rows that changed. Otherwise it stops at the first row
   that cannot be read or written, or at a page that cannot be fetched, with just
   the rows before it rewritten.
   */
  method RewriteAll<Doc(==)>(table: Table<Doc>, sel: Doc -> bool, f: Doc -> Option<Doc>, faults: Faults, chunk: nat)
    returns (ok: bool, updated: nat, ghost visited: seq<int>)
    requires chunk > 0
    modifies table
    ensures ok ==> AllDone(old(table.rows), table.rows, sel, f, faults, visited, updated)
    ensures !ok ==> Interrupted(old(table.rows), table.rows, sel, f, faults, visited, updated)
  {
    ghost var rows := table.rows;
    ghost var all := Selected(rows, sel);
    var lastId := 0;
    ok, updated, visited := true, 0, [];
    NothingDone(rows, sel, f, faults);
    hide DoneUpto, StoppedAt, AllDone, Lowest, Selected, Upto;
    while true
      invariant ok && all == Selected(rows, sel)
      invariant DoneUpto(rows, table.rows, sel, f, faults, lastId, visited, updated)
      decreases |all - Upto(all, lastId)|
    {
      if faults.page(lastId) {
        ok := false;
        return;
      }
      var ids := set id | id in table.rows && id > lastId && sel(table.rows[id]);
      Remaining(rows, table.rows, sel, f, faults, lastId, visited, updated);
      var page := SelectLowest(ids, chunk);
      if page == [] {
        LowestEmpty(ids, chunk);
        Finishes(rows, table.rows, sel, f, faults, lastId, visited, updated);
        return;
      }
      ok, updated, visited := RewritePage(table, f, faults, page, updated, rows, sel, lastId, chunk, visited);
      if !ok {
        return;
      }
      PageShrinks(all, lastId, page, chunk);
      lastId := page[|page| - 1];
      if |page| < chunk {
        Finishes(rows, table.rows, sel, f, faults, lastId, visited, updated);
        return;
      }
    }
  }

  lemma LowestEmpty(ids: set<int>, n: nat)
    requires n > 0 && Lowest(ids, n) == []
    ensures ids == {}
  {
  }

  lemma NothingDone<Doc>(rows: Rows<Doc>, sel: Doc -> bool, f: Doc -> Option<Doc>, faults: Faults)
    ensures DoneUpto(rows, rows, sel, f, faults, 0, [], 0)
  {
    assert Upto(Selected(rows, sel), 0) == {};
    assert Rewritten(rows, f, {}) == rows;
    assert Changed(rows, f, {}) == {};
  }

  /**
   Row by row, what a finished run leaves: every row with a positive id that was
   selected reads as its rewrite, every other row as before; the rows were visited
   once each in ascending order, and the count is of those that read differently.
   */
  lemma AllDoneMeans<Doc>(rows: Rows<Doc>, now: Rows<Doc>, sel: Doc -> bool, f: Doc -> Option<Doc>,
                          faults: Faults, visited: seq<int>, updated: nat)
    requires AllDone(rows, now, sel, f, faults, visited, updated)
    ensures now.Keys == rows.Keys
    ensures forall id :: id in rows && id > 0 && sel(rows[id]) ==> Some(now[id]) == f(rows[id])
    ensures forall id :: id in rows && !(id > 0 && sel(rows[id])) ==> now[id] == rows[id]
    ensures forall i, j :: 0 <= i < j < |visited| ==> visited[i] < visited[j]
    ensures forall id :: id in visited <==> id in rows && id > 0 && sel(rows[id])
    ensures updated == |set id | id in rows && now[id] != rows[id]|
  {
    var all := Selected(rows, sel);
    assert now.Keys == rows.Keys;
    forall id ensures id in visited <==> id in all {
      assert id in visited <==> id in Elements(visited);
    }
    forall id | id in all ensures Some(now[id]) == f(rows[id]) {
      assert Passes(rows[id], f, faults, id);
    }
    assert (set id | id in rows && now[id] != rows[id]) == Changed(rows, f, all);
  }

  // ─── Running it again ───

  function WholeTable<Doc>(rows: Rows<Doc>, sel: Doc -> bool, f: Doc -> Option<Doc>): Rows<Doc> {
    Rewritten(rows, f, Selected(rows, sel))
  }

  /** Rewriting a selected row gives something rewriting leaves alone. */
  predicate Settles<Doc(==)>(rows: Rows<Doc>, sel: Doc -> bool, f: Doc -> Option<Doc>) {
    forall id :: id in Selected(rows, sel) && f(rows[id]).Some? ==> f(f(rows[id]).value) == f(rows[id])
  }

  /** Rewriting twice does. */
  ghost predicate SettlesTwice<Doc(!new)>(f: Doc -> Option<Doc>) {
    forall d: Doc :: f(d).Some? ==>
      f(f(d).value).Some? && var twice := f(f(d).value).value; f(twice) == Some(twice)
  }

  /** A rewrite that settles: the second run can read every row and updates none. */
  lemma SecondRunUpdatesNone<Doc>(rows: Rows<Doc>, sel: Doc -> bool, f: Doc -> Option<Doc>)
    requires Settles(rows, sel, f) && Readable(rows, f, Selected(rows, sel))
    ensures var once := WholeTable(rows, sel, f);
      && Readable(once, f, Selected(once, sel))
      && WholeTable(once, sel, f) == once
      && Changed(once, f, Selected(once, sel)) == {}
  {
    var once := WholeTable(rows, sel, f);
    forall id | id in Selected(once, sel) ensures f(once[id]) == Some(once[id]) {
      SelectedBefore(rows, sel, f, id);
    }
  }

  /** A row selected after a run was selected, and rewritten, by it. */
  lemma SelectedBefore<Doc>(rows: Rows<Doc>, sel: Doc -> bool, f: Doc -> Option<Doc>, id: int)
    requires Readable(rows, f, Selected(rows, sel)) && id in Selected(WholeTable(rows, sel, f), sel)
    ensures id in Selected(rows, sel) && Some(WholeTable(rows, sel, f)[id]) == f(rows[id])
  {
  }

  /** A rewrite that settles in two: the third run can read every row and updates none. */
  lemma ThirdRunUpdatesNone<Doc(!new)>(rows: Rows<Doc>, sel: Doc -> bool, f: Doc -> Option<Doc>)
    requires SettlesTwice(f) && Readable(rows, f, Selected(rows, sel))
    ensures var once := WholeTable(rows, sel, f);
      var twice := WholeTable(once, sel, f);
      && Readable(once, f, Selected(once, sel)) && Readable(twice, f, Selected(twice, sel))
      && WholeTable(twice, sel, f) == twice
      && Changed(twice, f, Selected(twice, sel)) == {}
  {
    var once := WholeTable(rows, sel, f);
    var twice := WholeTable(once, sel, f);
    forall id | id in Selected(once, sel) ensures f(once[id]).Some? {
      SelectedBefore(rows, sel, f, id);
      var d := rows[id];
      assert f(d) == Some(once[id]);
    }
    forall id | id in Selected(twice, sel) ensures f(twice[id]) == Some(twice[id]) {
      SelectedBefore(once, sel, f, id);
      SelectedBefore(rows, sel, f, id);
      var d := rows[id];
      assert f(d) == Some(once[id]) && f(once[id]) == Some(twice[id]);
    }
    Untouched(twice, sel, f);
  }

  lemma Untouched<Doc>(rows: Rows<Doc>, sel: Doc -> bool, f: Doc -> Option<Doc>)
    requires forall id :: id in Selected(rows, sel) ==> id in rows && f(rows[id]) == Some(rows[id])
    ensures WholeTable(rows, sel, f) == rows && Changed(rows, f, Selected(rows, sel)) == {}
  {
  }
}
