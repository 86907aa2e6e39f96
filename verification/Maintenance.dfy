/** The two maintenance commands as whole-table rewrites (src/normalize.rs and src/reidentify.rs). */
module Maintenance {
  import opened Text
  import opened Services
  import opened Normalize
  import opened Reidentify
  import opened KeysetRewrite

  /** How records are kept as JSON: what is written reads back; not everything can be read. */
  datatype Codec<!Doc> = Codec(decode: Doc -> Option<Service>, encode: Service -> Doc)

  ghost predicate Faithful<Doc>(codec: Codec<Doc>) {
    forall d :: codec.decode(codec.encode(d)) == Some(d)
  }

  function Backfilled<Doc>(codec: Codec<Doc>, fold: Folding): Doc -> Option<Doc> {
    doc =>
      match codec.decode(doc)
      case Some(d) => Some(codec.encode(Normalized(fold, d)))
      case None => None
  }

  function Refound<Doc>(codec: Codec<Doc>, e: Engine): Doc -> Option<Doc> {
    doc =>
      match codec.decode(doc)
      case Some(d) => Some(codec.encode(Reidentified(e, d)))
      case None => None
  }

  predicate Everything<Doc>(doc: Doc) { true }

  /** `backfill` may run again: a second run updates nothing. */
  lemma BackfillAgain<Doc(!new)>(codec: Codec<Doc>, fold: Folding, rows: Rows<Doc>)
    requires Faithful(codec)
    requires Readable(rows, Backfilled(codec, fold), Selected(rows, Everything))
    ensures var f := Backfilled(codec, fold);
      var once := WholeTable(rows, Everything, f);
      WholeTable(once, Everything, f) == once && Changed(once, f, Selected(once, Everything)) == {}
  {
    var f := Backfilled(codec, fold);
    forall id | id in Selected(rows, Everything) ensures f(f(rows[id]).value) == f(rows[id]) {
      NormalizedTwice(fold, codec.decode(rows[id]).value);
    }
    SecondRunUpdatesNone(rows, Everything, f);
  }

  /** `reidentify_http` updates nothing in a second run when every kind it meets is canonical. */
  lemma ReidentifyTwice<Doc(!new)>(codec: Codec<Doc>, e: Engine, rows: Rows<Doc>, hasHttp: Doc -> bool)
    requires Faithful(codec)
    requires Readable(rows, Refound(codec, e), Selected(rows, hasHttp))
    requires forall id :: id in Selected(rows, hasHttp) && codec.decode(rows[id]).Some? ==>
      var kind := codec.decode(rows[id]).value.kind; CanonicalKind(kind) == kind
    ensures var f := Refound(codec, e);
      var once := WholeTable(rows, hasHttp, f);
      WholeTable(once, hasHttp, f) == once && Changed(once, f, Selected(once, hasHttp)) == {}
  {
    var f := Refound(codec, e);
    hide Reidentified, CanonicalKind;
    forall id | id in Selected(rows, hasHttp) ensures f(f(rows[id]).value) == f(rows[id]) {
      CanonicalSettledByOne(e, codec.decode(rows[id]).value);
    }
    SecondRunUpdatesNone(rows, hasHttp, f);
  }

  /** `reidentify_http` may run again: a third run updates nothing, whichever rows carry an HTTP payload. */
  lemma ReidentifyThrice<Doc(!new)>(codec: Codec<Doc>, e: Engine, rows: Rows<Doc>, hasHttp: Doc -> bool)
    requires Faithful(codec)
    requires Readable(rows, Refound(codec, e), Selected(rows, hasHttp))
    ensures var f := Refound(codec, e);
      var once := WholeTable(rows, hasHttp, f);
      var twice := WholeTable(once, hasHttp, f);
      WholeTable(twice, hasHttp, f) == twice && Changed(twice, f, Selected(twice, hasHttp)) == {}
  {
    var f := Refound(codec, e);
    hide Reidentified;
    forall doc | f(doc).Some? ensures
      f(f(doc).value).Some? && var twice := f(f(doc).value).value; f(twice) == Some(twice)
    {
      SettledByTwo(e, codec.decode(doc).value);
    }
    ThirdRunUpdatesNone(rows, hasHttp, f);
  }

  method Backfill<Doc(==)>(table: Table<Doc>, codec: Codec<Doc>, fold: Folding, faults: Faults)
    returns (ok: bool, updated: nat, ghost visited: seq<int>)
    modifies table
    ensures var f := Backfilled(codec, fold);
      if ok then AllDone(old(table.rows), table.rows, Everything, f, faults, visited, updated)
      else Interrupted(old(table.rows), table.rows, Everything, f, faults, visited, updated)
    ensures ok ==> table.rows.Keys == old(table.rows).Keys
    ensures ok ==> forall id :: id in old(table.rows) && id > 0 ==>
      var read := codec.decode(old(table.rows)[id]);
      read.Some? && table.rows[id] == codec.encode(Normalized(fold, read.value))
    ensures ok ==> forall id :: id in old(table.rows) && id <= 0 ==> table.rows[id] == old(table.rows)[id]
  {
    ghost var rows := table.rows;
    ok, updated, visited := RewriteAll(table, Everything, Backfilled(codec, fold), faults, 1000);
    if ok {
      AllDoneMeans(rows, table.rows, Everything, Backfilled(codec, fold), faults, visited, updated);
    }
  }

  method ReidentifyHttp<Doc(==)>(table: Table<Doc>, codec: Codec<Doc>, e: Engine, faults: Faults, hasHttp: Doc -> bool)
    returns (ok: bool, updated: nat, ghost visited: seq<int>)
    modifies table
    ensures var f := Refound(codec, e);
      if ok then AllDone(old(table.rows), table.rows, hasHttp, f, faults, visited, updated)
      else Interrupted(old(table.rows), table.rows, hasHttp, f, faults, visited, updated)
    ensures ok ==> table.rows.Keys == old(table.rows).Keys
    ensures ok ==> forall id :: id in old(table.rows) && id > 0 && hasHttp(old(table.rows)[id]) ==>
      var read := codec.decode(old(table.rows)[id]);
      read.Some? && table.rows[id] == codec.encode(Reidentified(e, read.value))
    ensures ok ==> forall id :: id in old(table.rows) && !(id > 0 && hasHttp(old(table.rows)[id])) ==>
      table.rows[id] == old(table.rows)[id]
  {
    ghost var rows := table.rows;
    ok, updated, visited := RewriteAll(table, hasHttp, Refound(codec, e), faults, 1000);
    if ok {
      AllDoneMeans(rows, table.rows, hasHttp, Refound(codec, e), faults, visited, updated);
    }
  }
}
