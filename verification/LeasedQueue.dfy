/** The queue object of src/queue.rs, lines 1-198: a table that its methods update. */
module LeasedQueues {
  import opened Text
  import opened Ordering
  import opened LeaseTable

  class LeasedQueue<K(==)> {
    var rows: Rows<K>
    var nextId: int

    constructor ()
      ensures rows == map[] && nextId == 1
    {
      rows, nextId := map[], 1;
    }

    /**
     `claim_host_scans`, `claim_service_probes`, `claim_enrichments` (lines
     14-96): mark the lowest claimable ids that are not locked, and return them.
     */
    method ClaimRows(batch: nat, now: int, locked: set<int>) returns (claimed: seq<(int, K)>)
      modifies this`rows
      ensures var ids := Picked(old(rows), locked, batch, now);
        && rows == AfterClaim(old(rows), ids, now)
        && |claimed| == |ids|
        && forall i :: 0 <= i < |ids| ==>
          claimed[i].0 == ids[i] && ids[i] in old(rows) && claimed[i].1 == old(rows)[ids[i]].key
    {
      PickedPresent(rows, locked, batch, now);
      var ids := SelectLowest(Free(rows, locked, now), batch);
      var before := rows;
      assert ids == Picked(before, locked, batch, now);
      claimed := seq(|ids|, i requires 0 <= i < |ids| && ids[i] in before => (ids[i], before[ids[i]].key));
      rows := map id | id in rows ::
        if id in ids then rows[id].(claimedUntil := Some(now + LEASE)) else rows[id];
    }

    /** The rows but one are as they were. */
    twostate predicate OthersKept(id: int)
      reads this`rows
    {
      && rows.Keys - {id} == old(rows).Keys - {id}
      && forall i :: i in rows && i != id ==> i in old(rows) && rows[i] == old(rows)[i]
    }

    /**
     Lines 98-109. From then on exactly the stamps past 300 seconds of `now` let
     a claim or a sweep take the row.
     */
    method HeartbeatRow(id: int, now: int)
      modifies this`rows
      ensures rows == AfterHeartbeat(old(rows), id, now)
      ensures OthersKept(id) && (id in rows <==> id in old(rows))
      ensures id in rows ==> rows[id].key == old(rows)[id].key && rows[id].attempts == old(rows)[id].attempts
      ensures id in rows ==> forall later :: Claimable(rows[id], later) <==> now + 300 < later
      ensures id in rows ==> forall later :: Expired(rows[id], later) <==> now + 300 < later
    {
      if id in rows {
        rows := rows[id := rows[id].(claimedUntil := Some(now + LEASE))];
      }
    }

    /** Lines 111-118. No claim takes the row again; its key, if unique, can be queued anew. */
    method CompleteRow(id: int)
      modifies this`rows
      ensures rows == AfterComplete(old(rows), id)
      ensures OthersKept(id) && id !in rows
      ensures forall locked, batch: nat, now :: id !in Picked(rows, locked, batch, now)
      ensures id in old(rows) && (forall i, j :: i in old(rows) && j in old(rows) && old(rows)[i].key == old(rows)[j].key ==> i == j)
        ==> !HasKey(rows, old(rows)[id].key)
    {
      rows := rows - {id};
      forall locked, batch: nat, now ensures id !in Picked(rows, locked, batch, now) {
        PickedClaimable(rows, locked, batch, now);
      }
    }

    /** Lines 146-150. Sweeps drop the row one attempt sooner; claims see no difference. */
    method IncrementAttempts(id: int)
      modifies this`rows
      ensures rows == AfterIncrement(old(rows), id)
      ensures OthersKept(id) && (id in rows <==> id in old(rows))
      ensures id in rows ==> rows[id] == old(rows)[id].(attempts := old(rows)[id].attempts + 1)
      ensures forall max, now :: id in Poisoned(rows, max, now) <==> id in Poisoned(old(rows), max - 1, now)
      ensures forall locked, batch: nat, now :: Picked(rows, locked, batch, now) == Picked(old(rows), locked, batch, now)
    {
      if id in rows {
        rows := rows[id := rows[id].(attempts := rows[id].attempts + 1)];
      }
      forall locked, batch: nat, now ensures Picked(rows, locked, batch, now) == Picked(old(rows), locked, batch, now) {
        assert Free(rows, locked, now) == Free(old(rows), locked, now);
      }
    }

    /** Lines 163-198. */
    method InsertRow(key: K)
      requires nextId !in rows
      modifies this
      ensures rows == AfterInsert(old(rows), key, old(nextId)) && nextId == old(nextId) + 1
      ensures (exists id :: id in rows && rows[id].key == key)
      ensures rows == if exists id :: id in old(rows) && old(rows)[id].key == key then old(rows)
                      else old(rows)[old(nextId) := Row(key, 0, None)]
    {
      if !HasKey(rows, key) {
        rows := rows[nextId := Row(key, 0, None)];
        assert rows[nextId].key == key;
      }
      nextId := nextId + 1;
    }

    /** Lines 120-144, the two statements with nothing between them; returns the rows deleted. */
    method Sweep(maxAttempts: int, now: int) returns (deleted: nat)
      modifies this`rows
      ensures rows == AfterRequeue(old(rows), maxAttempts, now) - Poisoned(old(rows), maxAttempts, now)
      ensures deleted == |Poisoned(old(rows), maxAttempts, now)|
      ensures forall id :: id in rows ==> !Expired(rows[id], now)
    {
      RequeueKeepsPoisoned(rows, maxAttempts, now);
      rows := map id | id in rows ::
        if Expired(rows[id], now) && rows[id].attempts < maxAttempts
        then rows[id].(claimedUntil := None) else rows[id];
      var doomed := set id | id in rows && Expired(rows[id], now) && rows[id].attempts >= maxAttempts;
      deleted := |doomed|;
      rows := rows - doomed;
    }
  }

  /** Requeueing first changes nothing about which rows the second statement deletes. */
  lemma RequeueKeepsPoisoned<K>(rows: Rows<K>, maxAttempts: int, now: int)
    ensures Poisoned(AfterRequeue(rows, maxAttempts, now), maxAttempts, now) == Poisoned(rows, maxAttempts, now)
  {
  }

  /** A row under a lease of `now` comes back from no claim whose stamp is within it. */
  lemma ClaimedStaysClaimed<K>(
    rows: Rows<K>, locked: set<int>, batch: nat, now: int, id: int, later: int, locked': set<int>, batch': nat)
    requires id in Picked(rows, locked, batch, now)
    requires id in Picked(AfterClaim(rows, Picked(rows, locked, batch, now), now), locked', batch', later)
    ensures now + 300 < later
  {
    PickedClaimable(rows, locked, batch, now);
    PickedClaimable(AfterClaim(rows, Picked(rows, locked, batch, now), now), locked', batch', later);
  }
}
