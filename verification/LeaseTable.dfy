/**
 A leased work queue (src/queue.rs): what each SQL statement does to the table,
 and what every interleaving of such statements, by any number of workers that
 may crash between any two of them, keeps. A statement is atomic. The stamp a
 worker passes for "now" may be old but is never ahead of the real clock.
 */
module LeaseTable {
  import opened Text
  import opened Ordering

  const LEASE: int := 300

  datatype Row<K> = Row(key: K, attempts: nat, claimedUntil: Option<int>)

  type Rows<K> = map<int, Row<K>>

  // ─── The statements ───

  /** `COALESCE(claimed_until, 0) < now` */
  predicate Claimable<K>(row: Row<K>, now: int) {
    (if row.claimedUntil.Some? then row.claimedUntil.value else 0) < now
  }

  /** `claimed_until IS NOT NULL AND claimed_until < now` */
  predicate Expired<K>(row: Row<K>, now: int) {
    row.claimedUntil.Some? && row.claimedUntil.value < now
  }

  function Free<K>(rows: Rows<K>, locked: set<int>, now: int): set<int> {
    set id | id in rows && id !in locked && Claimable(rows[id], now)
  }

  /** The rows a claim takes: the first `batch` claimable ones no other claim has locked. */
  function Picked<K>(rows: Rows<K>, locked: set<int>, batch: nat, now: int): seq<int> {
    Lowest(Free(rows, locked, now), batch)
  }

  function AfterClaim<K>(rows: Rows<K>, ids: seq<int>, now: int): Rows<K> {
    map id | id in rows :: if id in ids then rows[id].(claimedUntil := Some(now + LEASE)) else rows[id]
  }

  function AfterHeartbeat<K>(rows: Rows<K>, id: int, now: int): Rows<K> {
    if id in rows then rows[id := rows[id].(claimedUntil := Some(now + LEASE))] else rows
  }

  function AfterComplete<K>(rows: Rows<K>, id: int): Rows<K> {
    rows - {id}
  }

  function AfterIncrement<K>(rows: Rows<K>, id: int): Rows<K> {
    if id in rows then rows[id := rows[id].(attempts := rows[id].attempts + 1)] else rows
  }

  /** The first statement of `sweep`. */
  function AfterRequeue<K>(rows: Rows<K>, maxAttempts: int, now: int): Rows<K> {
    map id | id in rows ::
      if Expired(rows[id], now) && rows[id].attempts < maxAttempts
      then rows[id].(claimedUntil := None) else rows[id]
  }

  /** The rows the second statement of `sweep` deletes. */
  function Poisoned<K>(rows: Rows<K>, maxAttempts: int, now: int): set<int> {
    set id | id in rows && Expired(rows[id], now) && rows[id].attempts >= maxAttempts
  }

  predicate HasKey<K(==)>(rows: Rows<K>, key: K) {
    exists id :: id in rows && rows[id].key == key
  }

  /** `INSERT … ON CONFLICT DO NOTHING`; the identity value is used up either way. */
  function AfterInsert<K(==)>(rows: Rows<K>, key: K, nextId: int): Rows<K> {
    if HasKey(rows, key) then rows else rows[nextId := Row(key, 0, None)]
  }

  // ─── Tables with a real clock and a history ───

  /** A claim of a row: the stamp it passed and the time it happened. */
  datatype Grant = Grant(stamp: int, at: int)

  datatype Lease = Lease(id: int, until: int)

  /**
   `keyOf` maps every id ever inserted to its key; `completed` and `dropped`
   hold the ids removed by `complete` and by `sweep`; `leases` every lease ever
   granted, by a claim or a heartbeat; `grants` the claims of each row in order;
   `cut` the leases that a heartbeat has cut short while they ran, until one that
   ends at the same time is given anew; `disturbed` the rows where that happened.
   */
  datatype State<K> = State(
    clock: int, rows: Rows<K>, nextId: int,
    keyOf: map<int, K>, completed: set<int>, dropped: set<int>,
    leases: set<Lease>, grants: map<int, seq<Grant>>,
    cut: set<Lease>, disturbed: set<int>)

  datatype Event<K> =
    | Tick(elapsed: nat)
    | Insert(key: K)
    | Claim(stamp: int, batch: nat, locked: set<int>)
    | Increment(id: int)
    | Heartbeat(id: int, stamp: int)
    | Complete(id: int)
    | Requeue(stamp: int, maxAttempts: int)
    | Drop(stamp: int, maxAttempts: int)

  /** Stamps are not ahead of the clock. */
  predicate Enabled<K>(s: State<K>, e: Event<K>) {
    match e
    case Claim(stamp, _, _) => stamp <= s.clock
    case Heartbeat(_, stamp) => stamp <= s.clock
    case Requeue(stamp, _) => stamp <= s.clock
    case Drop(stamp, _) => stamp <= s.clock
    case _ => true
  }

  /** A heartbeat ends no earlier than any lease still running on the row. */
  predicate Prolongs<K>(s: State<K>, id: int, stamp: int) {
    forall l :: l in s.leases && l.id == id && s.clock <= l.until ==> l.until <= stamp + LEASE
  }

  /** The running leases a heartbeat ends before. */
  function CutBy<K>(s: State<K>, id: int, stamp: int): set<Lease> {
    set l | l in s.leases && l.id == id && s.clock <= l.until && stamp + LEASE < l.until
  }

  function GrantsOf<K>(s: State<K>, id: int): seq<Grant> {
    if id in s.grants then s.grants[id] else []
  }

  function Step<K(==)>(s: State<K>, e: Event<K>): State<K> {
    match e
    case Tick(elapsed) => s.(clock := s.clock + elapsed)
    case Insert(key) =>
      s.(rows := AfterInsert(s.rows, key, s.nextId), nextId := s.nextId + 1,
         keyOf := if HasKey(s.rows, key) then s.keyOf else s.keyOf[s.nextId := key])
    case Claim(stamp, batch, locked) =>
      var ids := Picked(s.rows, locked, batch, stamp);
      var given := set id | id in ids :: Lease(id, stamp + LEASE);
      s.(rows := AfterClaim(s.rows, ids, stamp), leases := s.leases + given, cut := s.cut - given,
         grants := map id | id in s.grants.Keys + (set i | i in ids) ::
           GrantsOf(s, id) + if id in ids then [Grant(stamp, s.clock)] else [])
    case Increment(id) => s.(rows := AfterIncrement(s.rows, id))
    case Heartbeat(id, stamp) =>
      s.(rows := AfterHeartbeat(s.rows, id, stamp),
         leases := if id in s.rows then s.leases + {Lease(id, stamp + LEASE)} else s.leases,
         cut := if id in s.rows then s.cut + CutBy(s, id, stamp) - {Lease(id, stamp + LEASE)} else s.cut,
         disturbed := if id in s.rows && !Prolongs(s, id, stamp) then s.disturbed + {id} else s.disturbed)
    case Complete(id) =>
      s.(rows := AfterComplete(s.rows, id),
         completed := if id in s.rows then s.completed + {id} else s.completed)
    case Requeue(stamp, maxAttempts) =>
      s.(rows := AfterRequeue(s.rows, maxAttempts, stamp))
    case Drop(stamp, maxAttempts) =>
      var ids := Poisoned(s.rows, maxAttempts, stamp);
      s.(rows := s.rows - ids, dropped := s.dropped + ids)
  }

  function Init<K>(clock: int): State<K> {
    State(clock, map[], 1, map[], {}, {}, {}, map[], {}, {})
  }

  predicate Runs<K(==)>(s: State<K>, es: seq<Event<K>>)
    decreases |es|
  {
    es == [] || (Enabled(s, es[0]) && Runs(Step(s, es[0]), es[1..]))
  }

  function After<K(==)>(s: State<K>, es: seq<Event<K>>): State<K>
    decreases |es|
  {
    if es == [] then s else After(Step(s, es[0]), es[1..])
  }

  // ─── What every step keeps ───

  /** Every id ever inserted is present, completed or dropped, and only one of these. */
  predicate Conserved<K>(s: State<K>) {
    && s.keyOf.Keys == s.rows.Keys + s.completed + s.dropped
    && s.rows.Keys !! s.completed && s.rows.Keys !! s.dropped && s.completed !! s.dropped
  }

  /** Ids are fresh, rows keep their keys, and no key is in the table twice. */
  predicate Keyed<K(==)>(s: State<K>) {
    && (forall id :: id in s.keyOf ==> id < s.nextId)
    && (forall id :: id in s.rows ==> id in s.keyOf && s.rows[id].key == s.keyOf[id])
    && (forall i, j :: i in s.rows && j in s.rows && s.rows[i].key == s.rows[j].key ==> i == j)
  }

  /** A lease on a present row ends no later than the row's mark, or has run out. */
  predicate Covered<K>(s: State<K>, l: Lease) {
    l.id in s.rows ==>
      || l.until < s.clock
      || (s.rows[l.id].claimedUntil.Some? && l.until <= s.rows[l.id].claimedUntil.value)
  }

  /** Only a heartbeat that cuts a lease short can leave it uncovered. */
  predicate LeasesCovered<K>(s: State<K>) {
    forall l :: l in s.leases ==> l.id in s.keyOf && (l in s.cut || Covered(s, l))
  }

  /** The lease time a list of claims gave out, less how stale each stamp was. */
  function Granted(gs: seq<Grant>): int {
    if gs == [] then 0
    else Granted(gs[..|gs| - 1]) + LEASE - (gs[|gs| - 1].at - gs[|gs| - 1].stamp)
  }

  /** The claims of a row follow one another only once the lease before has run out. */
  predicate Spaced<K>(s: State<K>, id: int) {
    var gs := GrantsOf(s, id);
    gs != [] ==>
      && id in s.keyOf
      && Lease(id, gs[|gs| - 1].stamp + LEASE) in s.leases
      && gs[0].at + Granted(gs) <= gs[|gs| - 1].stamp + LEASE
  }

  predicate GrantsSpaced<K>(s: State<K>) {
    forall id :: id in s.grants ==> id in s.disturbed || Spaced(s, id)
  }

  /** Cut leases are of disturbed rows. */
  predicate CutsKnown<K>(s: State<K>) {
    forall l :: l in s.cut ==> l.id in s.disturbed
  }

  predicate Inv<K(==)>(s: State<K>) {
    Conserved(s) && Keyed(s) && LeasesCovered(s) && GrantsSpaced(s) && CutsKnown(s)
  }

  // ─── What an insert leaves ───

  function Holders<K(==)>(rows: Rows<K>, key: K): set<int> {
    set id | id in rows && rows[id].key == key
  }

  lemma HoldersExist<K>(rows: Rows<K>, key: K)
    ensures HasKey(rows, key) <==> Holders(rows, key) != {}
  {
    if Holders(rows, key) != {} {
      var id := Choose(Holders(rows, key));
      assert rows[id].key == key;
    }
    if HasKey(rows, key) {
      var id :| id in rows && rows[id].key == key;
      assert id in Holders(rows, key);
    }
  }

  /** The row that holds a key. */
  function Holder<K(==)>(rows: Rows<K>, key: K): (id: int)
    requires HasKey(rows, key)
    ensures id in rows && rows[id].key == key
  {
    HoldersExist(rows, key);
    Least(Holders(rows, key))
  }

  /** After an insert, whether or not the key was there, a row of the table holds it. */
  lemma InsertLeavesRow<K>(s: State<K>, key: K)
    requires Keyed(s)
    ensures var t := Step(s, Insert(key));
      HasKey(t.rows, key) && Holder(t.rows, key) in t.rows && t.rows[Holder(t.rows, key)].key == key
  {
    var t := Step(s, Insert(key));
    if !HasKey(s.rows, key) {
      assert t.rows[s.nextId].key == key;
    }
  }

  /** A row stays in the table until it is completed or dropped. */
  lemma RowStays<K>(s: State<K>, e: Event<K>, id: int)
    requires Conserved(s) && Keyed(s) && id in s.keyOf
    ensures var t := Step(s, e);
      && id in t.keyOf && t.keyOf[id] == s.keyOf[id]
      && (id in s.rows ==> id in t.rows || id in t.completed || id in t.dropped)
  {
    ConservedStep(s, e);
  }

  /** The claims of a row change only when it is claimed. */
  lemma SameGrants<K>(s: State<K>, e: Event<K>, id: int)
    requires id !in s.rows
    ensures GrantsOf(Step(s, e), id) == GrantsOf(s, id)
  {
    if e.Claim? {
      PickedClaimable(s.rows, e.locked, e.batch, e.stamp);
      assert GrantsOf(s, id) + [] == GrantsOf(s, id);
    }
  }

  /** Time, keys and claims only add up. */
  lemma StepGrows<K>(s: State<K>, e: Event<K>)
    requires Keyed(s)
    ensures s.clock <= Step(s, e).clock
    ensures forall id :: id in s.keyOf ==> id in Step(s, e).keyOf && Step(s, e).keyOf[id] == s.keyOf[id]
    ensures forall id :: |GrantsOf(s, id)| <= |GrantsOf(Step(s, e), id)|
  {
  }

  lemma PickedClaimable<K>(rows: Rows<K>, locked: set<int>, batch: nat, now: int)
    ensures forall id :: id in Picked(rows, locked, batch, now) ==>
      id in rows && id !in locked && Claimable(rows[id], now)
    ensures |Picked(rows, locked, batch, now)| <= batch
  {
    LowestPicks(Free(rows, locked, now), batch);
  }

  lemma PickedPresent<K>(rows: Rows<K>, locked: set<int>, batch: nat, now: int)
    ensures forall i :: 0 <= i < |Picked(rows, locked, batch, now)| ==>
      Picked(rows, locked, batch, now)[i] in rows
  {
    PickedClaimable(rows, locked, batch, now);
    forall i | 0 <= i < |Picked(rows, locked, batch, now)|
      ensures Picked(rows, locked, batch, now)[i] in rows
    {
      var id := Picked(rows, locked, batch, now)[i];
      assert id in Picked(rows, locked, batch, now);
    }
  }

  /** `claimed_until`, an absent one counting as 0, is before `now`. */
  predicate Lapsed<K>(row: Row<K>, now: int) {
    match row.claimedUntil case Some(until) => until < now case None => 0 < now
  }

  /**
   Row by row: a claim takes lapsed rows that are not locked, the lowest ids
   first and as many as the batch allows; it marks them 300 seconds ahead and
   changes nothing else.
   */
  lemma ClaimMeans<K>(rows: Rows<K>, locked: set<int>, batch: nat, now: int, id: int)
    requires id in rows
    ensures var ids := Picked(rows, locked, batch, now);
      var after := AfterClaim(rows, ids, now);
      && Increasing(ids) && |ids| <= batch && after.Keys == rows.Keys
      && (id in ids ==> id !in locked && Lapsed(rows[id], now))
      && (id !in ids && id !in locked && Lapsed(rows[id], now) ==>
            |ids| == batch && forall i :: i in ids ==> i < id)
      && after[id] == if id in ids then Row(rows[id].key, rows[id].attempts, Some(now + 300)) else rows[id]
  {
    var free := Free(rows, locked, now);
    LowestPicks(free, batch);
    var ids := Picked(rows, locked, batch, now);
    if id in free && id !in ids && |free| <= batch {
      LowestAll(free, batch);
    }
    hide Lowest;
  }

  /**
   Row by row: a mark before `now` is cleared by the first statement of a sweep,
   and its row deleted by the second once it has had `maxAttempts` attempts; a row
   without such a mark is left alone by both.
   */
  lemma SweepMeans<K>(rows: Rows<K>, maxAttempts: int, now: int, id: int)
    requires id in rows
    ensures var due := rows[id].claimedUntil.Some? && rows[id].claimedUntil.value < now;
      && AfterRequeue(rows, maxAttempts, now).Keys == rows.Keys
      && AfterRequeue(rows, maxAttempts, now)[id] ==
           (if due && rows[id].attempts < maxAttempts then Row(rows[id].key, rows[id].attempts, None) else rows[id])
      && (id in Poisoned(rows, maxAttempts, now) <==> due && maxAttempts <= rows[id].attempts)
    ensures Poisoned(rows, maxAttempts, now) <= rows.Keys
  {
    assert AfterRequeue(rows, maxAttempts, now).Keys == rows.Keys;
  }

  /**
   Exclusion: when a claim takes a row, every lease ever given on it has run
   out in real time, whatever sweeps reset the row's mark in between, but for
   leases that a heartbeat has cut short.
   */
  lemma ClaimExcludes<K>(s: State<K>, stamp: int, batch: nat, locked: set<int>, l: Lease)
    requires LeasesCovered(s) && stamp <= s.clock
    requires l in s.leases && l !in s.cut && l.id in Picked(s.rows, locked, batch, stamp)
    ensures l.until < s.clock
  {
    PickedClaimable(s.rows, locked, batch, stamp);
    assert Covered(s, l);
  }

  /** No row under a live lease is touched by either statement of a sweep. */
  lemma SweepSparesLive<K>(s: State<K>, stamp: int, maxAttempts: int, l: Lease)
    requires LeasesCovered(s) && stamp <= s.clock
    requires l in s.leases && l !in s.cut && l.id in s.rows && s.clock <= l.until
    ensures l.id !in Poisoned(s.rows, maxAttempts, stamp)
    ensures AfterRequeue(s.rows, maxAttempts, stamp)[l.id] == s.rows[l.id]
  {
    assert Covered(s, l);
  }

  lemma ConservedStep<K>(s: State<K>, e: Event<K>)
    requires Conserved(s) && Keyed(s)
    ensures Conserved(Step(s, e))
  {
    match e
    case Insert(key) =>
      assert s.nextId !in s.keyOf;
    case Claim(stamp, batch, locked) =>
      assert Step(s, e).rows.Keys == s.rows.Keys;
    case Requeue(stamp, maxAttempts) =>
      assert Step(s, e).rows.Keys == s.rows.Keys;
    case _ =>
  }

  lemma KeyedStep<K>(s: State<K>, e: Event<K>)
    requires Keyed(s)
    ensures Keyed(Step(s, e))
  {
  }

  lemma CoveredStep<K>(s: State<K>, e: Event<K>, l: Lease)
    requires Conserved(s) && Keyed(s) && LeasesCovered(s) && Enabled(s, e)
    requires l in s.leases && l !in Step(s, e).cut
    ensures Covered(Step(s, e), l)
  {
    match e
    case Claim(stamp, batch, locked) =>
      PickedClaimable(s.rows, locked, batch, stamp);
      if l !in s.cut && l.id in Picked(s.rows, locked, batch, stamp) {
        ClaimExcludes(s, stamp, batch, locked, l);
      }
      assert l in s.cut || Covered(s, l);
    case _ =>
      assert l in s.cut || Covered(s, l);
  }

  lemma LeasesCoveredStep<K>(s: State<K>, e: Event<K>)
    requires Conserved(s) && Keyed(s) && LeasesCovered(s) && Enabled(s, e)
    ensures LeasesCovered(Step(s, e))
  {
    var t := Step(s, e);
    forall l | l in t.leases ensures l.id in t.keyOf && (l in t.cut || Covered(t, l)) {
      if l in s.leases {
        if l !in t.cut {
          CoveredStep(s, e, l);
        }
      } else if e.Claim? {
        PickedClaimable(s.rows, e.locked, e.batch, e.stamp);
      }
    }
  }

  lemma PickedKnown<K>(s: State<K>, e: Event<K>, id: int)
    requires Keyed(s) && e.Claim? && id in Picked(s.rows, e.locked, e.batch, e.stamp)
    ensures id in s.keyOf
  {
    PickedClaimable(s.rows, e.locked, e.batch, e.stamp);
  }

  lemma GrantedSnoc(gs: seq<Grant>, g: Grant)
    ensures Granted(gs + [g]) == Granted(gs) + LEASE - (g.at - g.stamp)
  {
    assert (gs + [g])[..|gs|] == gs;
  }

  lemma ClaimGrants<K>(s: State<K>, e: Event<K>, id: int)
    requires e.Claim? && id in Picked(s.rows, e.locked, e.batch, e.stamp)
    ensures GrantsOf(Step(s, e), id) == GrantsOf(s, id) + [Grant(e.stamp, s.clock)]
    ensures Lease(id, e.stamp + LEASE) in Step(s, e).leases
    ensures Step(s, e).keyOf == s.keyOf
  {
  }

  lemma SpacedClaim<K>(s: State<K>, e: Event<K>, id: int)
    requires Inv(s) && Enabled(s, e) && e.Claim?
    requires id in Picked(s.rows, e.locked, e.batch, e.stamp) && id !in s.disturbed
    ensures Spaced(Step(s, e), id)
  {
    var gs, g := GrantsOf(s, id), Grant(e.stamp, s.clock);
    ClaimGrants(s, e, id);
    GrantedSnoc(gs, g);
    PickedKnown(s, e, id);
    if gs != [] {
      assert Spaced(s, id);
      ClaimExcludes(s, e.stamp, e.batch, e.locked, Lease(id, gs[|gs| - 1].stamp + LEASE));
    }
    hide Step, Picked, GrantsOf, Granted;
    var all := gs + [g];
    assert all[0] == if gs == [] then g else gs[0];
    assert gs == [] ==> Granted(gs) == 0 by {
      EmptyGranted();
    }
  }

  lemma EmptyGranted()
    ensures Granted([]) == 0
  {
  }

  lemma GrantsSpacedStep<K>(s: State<K>, e: Event<K>)
    requires Inv(s) && Enabled(s, e)
    ensures GrantsSpaced(Step(s, e))
  {
    var t := Step(s, e);
    forall id | id in t.grants && id !in t.disturbed ensures Spaced(t, id) {
      if e.Claim? && id in Picked(s.rows, e.locked, e.batch, e.stamp) {
        SpacedClaim(s, e, id);
      } else {
        assert GrantsOf(t, id) == GrantsOf(s, id);
        assert Spaced(s, id);
      }
    }
  }

  /** One statement, by anyone, keeps everything. */
  lemma StepKeeps<K>(s: State<K>, e: Event<K>)
    requires Inv(s) && Enabled(s, e)
    ensures Inv(Step(s, e))
  {
    ConservedStep(s, e);
    KeyedStep(s, e);
    LeasesCoveredStep(s, e);
    GrantsSpacedStep(s, e);
    CutsKnownStep(s, e);
  }

  lemma CutsKnownStep<K>(s: State<K>, e: Event<K>)
    requires CutsKnown(s)
    ensures CutsKnown(Step(s, e))
  {
  }

  /** Every run keeps everything. */
  lemma {:induction false} RunKeeps<K>(s: State<K>, es: seq<Event<K>>)
    requires Inv(s) && Runs(s, es)
    ensures Inv(After(s, es))
    decreases |es|
  {
    if es != [] {
      StepKeeps(s, es[0]);
      RunKeeps(Step(s, es[0]), es[1..]);
    }
  }

  lemma InitInv<K>(clock: int)
    ensures Inv(Init<K>(clock))
  {
  }

  /**
   Over every run from an empty table: ids ever inserted are the disjoint union
   of present, completed and dropped, and a claim then made takes only rows all
   of whose leases have run out or been cut short by a heartbeat.
   */
  lemma Exclusion<K>(clock: int, es: seq<Event<K>>, stamp: int, batch: nat, locked: set<int>)
    requires Runs(Init(clock), es)
    requires stamp <= After(Init(clock), es).clock
    ensures var s := After(Init(clock), es);
      && Conserved(s)
      && forall l :: l in s.leases && l.id in Picked(s.rows, locked, batch, stamp) ==>
           l.until < s.clock || l in s.cut
  {
    InitInv<K>(clock);
    RunKeeps(Init(clock), es);
    var s := After(Init(clock), es);
    forall l | l in s.leases && l.id in Picked(s.rows, locked, batch, stamp) && l !in s.cut
      ensures l.until < s.clock
    {
      ClaimExcludes(s, stamp, batch, locked, l);
    }
  }

  /**
   A row is dropped, in any reachable state, later than its first claim plus
   the lease time of all its claims, less the staleness of their stamps. With
   fresh stamps that is 300 seconds per claim.
   */
  lemma DropIsLate<K>(s: State<K>, stamp: int, maxAttempts: int, id: int)
    requires Inv(s) && stamp <= s.clock
    requires id in Poisoned(s.rows, maxAttempts, stamp) && GrantsOf(s, id) != [] && id !in s.disturbed
    ensures GrantsOf(s, id)[0].at + Granted(GrantsOf(s, id)) < s.clock
  {
    var gs := GrantsOf(s, id);
    assert Spaced(s, id);
    assert Covered(s, Lease(id, gs[|gs| - 1].stamp + LEASE));
  }

  lemma {:induction false} FreshGrants(gs: seq<Grant>)
    requires forall i :: 0 <= i < |gs| ==> gs[i].stamp == gs[i].at
    ensures Granted(gs) == 300 * |gs|
  {
    if gs != [] {
      FreshGrants(gs[..|gs| - 1]);
    }
  }

  predicate RowCovered<K>(s: State<K>, id: int) {
    forall l :: l in s.leases && l.id == id ==> Covered(s, l)
  }

  /**
   `heartbeat` checks neither the holder nor the time. It keeps the leases of
   its row covered exactly when it ends no earlier than every one still running.
   */
  lemma HeartbeatKeepsLeases<K>(s: State<K>, id: int, stamp: int)
    requires RowCovered(s, id) && id in s.rows
    ensures RowCovered(Step(s, Heartbeat(id, stamp)), id) <==> Prolongs(s, id, stamp)
  {
    var t := Step(s, Heartbeat(id, stamp));
    if Prolongs(s, id, stamp) {
      forall l | l in t.leases && l.id == id ensures Covered(t, l) {
        assert l in s.leases || l == Lease(id, stamp + LEASE);
      }
    }
    if RowCovered(t, id) {
      forall l | l in s.leases && l.id == id && s.clock <= l.until ensures l.until <= stamp + LEASE {
        assert Covered(t, l);
      }
    }
  }

  function Events<K>(key: K): seq<Event<K>> {
    [Insert(key), Claim(1000, 1, {}), Heartbeat(1, 500)]
  }

  /** The state after the three events of `Events`. */
  function CutShort<K>(key: K): State<K> {
    State(1000, map[1 := Row(key, 0, Some(800))], 2, map[1 := key], {}, {},
          {Lease(1, 1300), Lease(1, 800)}, map[1 := [Grant(1000, 1000)]], {Lease(1, 1300)}, {1})
  }

  lemma FirstClaim<K>(key: K)
    ensures var s := State(1000, map[1 := Row(key, 0, None)], 2, map[1 := key], {}, {}, {}, map[], {}, {});
      Step(s, Claim(1000, 1, {})) ==
        State(1000, map[1 := Row(key, 0, Some(1300))], 2, map[1 := key], {}, {},
              {Lease(1, 1300)}, map[1 := [Grant(1000, 1000)]], {}, {})
  {
    var s := State(1000, map[1 := Row(key, 0, None)], 2, map[1 := key], {}, {}, {}, map[], {}, {});
    OnlyRowPicked(s.rows, 1000);
    var t := Step(s, Claim(1000, 1, {}));
    assert GrantsOf(s, 1) == [];
    assert [] + [Grant(1000, 1000)] == [Grant(1000, 1000)];
    assert t.grants == map[1 := [Grant(1000, 1000)]];
    assert t.leases == {Lease(1, 1300)};
    assert t.rows == map[1 := Row(key, 0, Some(1300))];
  }

  lemma OnlyRowPicked<K>(rows: Rows<K>, now: int)
    requires rows.Keys == {1} && Claimable(rows[1], now)
    ensures Picked(rows, {}, 1, now) == [1]
  {
    assert Free(rows, {}, now) == {1};
    assert Least({1}) == 1;
    assert Lowest({1} - {1}, 0) == [];
  }

  /**
   A stale heartbeat makes two leases run at once: a row inserted and claimed at
   1000, then given a heartbeat of 500, can be claimed again at 1000 while the
   lease of the first claim runs until 1300.
   */
  lemma StaleHeartbeatOverlaps<K>(key: K)
    ensures Runs(Init(1000), Events(key)) && After(Init(1000), Events(key)) == CutShort(key)
    ensures Lease(1, 1300) in CutShort(key).leases && CutShort(key).clock <= 1300
    ensures 1 in Picked(CutShort(key).rows, {}, 1, CutShort(key).clock)
  {
    var s0 := Init<K>(1000);
    var s1 := Step(s0, Insert(key));
    assert s1 == State(1000, map[1 := Row(key, 0, None)], 2, map[1 := key], {}, {}, {}, map[], {}, {});
    FirstClaim(key);
    var s2 := Step(s1, Claim(1000, 1, {}));
    assert !Prolongs(s2, 1, 500) by {
      assert Lease(1, 1300) in s2.leases;
    }
    assert CutBy(s2, 1, 500) == {Lease(1, 1300)};
    var s3 := Step(s2, Heartbeat(1, 500));
    assert s3 == CutShort(key);
    var es := Events(key);
    assert es[1..] == [Claim(1000, 1, {}), Heartbeat(1, 500)];
    assert es[1..][1..] == [Heartbeat(1, 500)];
    assert es[1..][1..][1..] == [];
    assert After(s3, []) == s3 && Runs(s3, []);
    assert After(s2, [Heartbeat(1, 500)]) == s3 && Runs(s2, [Heartbeat(1, 500)]);
    assert After(s1, es[1..]) == s3 && Runs(s1, es[1..]);
    OnlyRowPicked(s3.rows, 1000);
  }
}
