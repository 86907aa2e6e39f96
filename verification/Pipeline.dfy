/**
 The deep-scan and the probe stage together, on the one probe queue they share:
 what becomes of every open port of a completed host.
 */
module Pipeline {
  import opened Text
  import opened LeaseTable
  import opened Stages
  import D = Deepscan
  import P = ProbeStage

  /** Each stage has its own view of the probe queue; the views agree. */
  datatype Pipe = Pipe(scan: D.Sys, probe: P.Stage)

  datatype PipeEvent = Scan(se: D.SysEvent) | Probe(pe: P.StageEvent)

  /** Time passes, and statements on the probe queue run, for both. */
  predicate CanHappen(x: Pipe, e: PipeEvent) {
    match e
    case Scan(se) => D.CanHappen(x.scan, se) && !se.OtherProbe?
    case Probe(pe) => P.CanHappen(x.probe, pe) && !pe.Pass? && !pe.HandIn?
  }

  function Next(x: Pipe, e: PipeEvent): Pipe
    requires CanHappen(x, e)
  {
    match e
    case Scan(se) =>
      var scan := D.Next(x.scan, se);
      Pipe(scan, if se.Pass? then P.Next(x.probe, P.Pass(se.elapsed)) else x.probe.(probes := scan.probes))
    case Probe(pe) =>
      var probe := P.Next(x.probe, pe);
      Pipe(x.scan.(probes := probe.probes), probe)
  }

  function Begin(threshold: nat, clock: int): Pipe {
    Pipe(D.Begin(threshold, clock), P.Begin(clock))
  }

  predicate Happens(x: Pipe, es: seq<PipeEvent>)
    decreases |es|
  {
    es == [] || (CanHappen(x, es[0]) && Happens(Next(x, es[0]), es[1..]))
  }

  function Reached(x: Pipe, es: seq<PipeEvent>): Pipe
    requires Happens(x, es)
    decreases |es|
  {
    if es == [] then x else Reached(Next(x, es[0]), es[1..])
  }

  predicate PipeInv(x: Pipe) {
    D.SysInv(x.scan) && P.StageInv(x.probe) && x.scan.probes == x.probe.probes
  }

  /** What a step of the deep scan does to the probe queue: at most an insert. */
  function HandedIn(s: D.Sys, se: D.SysEvent): Option<ProbeKey>
    requires D.CanHappen(s, se)
  {
    if se.InsertProbe? && se.reply != Refused then
      var phase := s.replicas[se.r].tasks[se.k].phase;
      Some(D.ToProbe(D.PortsOf(phase.result)[phase.done]))
    else None
  }

  lemma ScanOnProbes(s: D.Sys, se: D.SysEvent)
    requires D.CanHappen(s, se) && !se.Pass? && !se.OtherProbe?
    ensures D.Next(s, se).probes ==
      if HandedIn(s, se).Some? then Step(s.probes, Insert(HandedIn(s, se).value)) else s.probes
  {
    D.ProbesStep(s, se);
    hide Step, D.Next, D.PortsOf, D.ToProbe;
  }

  lemma ScanKeeps(x: Pipe, se: D.SysEvent)
    requires PipeInv(x) && CanHappen(x, Scan(se))
    ensures PipeInv(Next(x, Scan(se)))
  {
    D.NextKeeps(x.scan, se);
    if se.Pass? {
      P.NextKeeps(x.probe, P.Pass(se.elapsed));
    } else {
      hide D.SysInv, P.StageInv, Step;
      ScanOnProbes(x.scan, se);
      var handed := HandedIn(x.scan, se);
      if handed.Some? {
        P.NextKeeps(x.probe, P.HandIn(handed.value));
      }
    }
  }

  /** What a step of the probe stage does to the probe queue: at most a claim or a completion. */
  function OnProbes(s: P.Stage, pe: P.StageEvent): Option<Event<ProbeKey>>
    requires P.CanHappen(s, pe)
  {
    match pe
    case ClaimProbes(r, reply, locked) =>
      if reply == Refused then None else Some(Claim(s.replicas[r].t.value, P.BATCH, locked))
    case CompleteProbe(r, k, reply) =>
      if reply == Refused then None else Some(Complete(s.replicas[r].tasks[k].id))
    case _ => None
  }

  lemma ProbeOnProbes(s: P.Stage, pe: P.StageEvent)
    requires P.CanHappen(s, pe) && !pe.Pass? && !pe.HandIn?
    ensures P.Next(s, pe).probes ==
      if OnProbes(s, pe).Some? then Step(s.probes, OnProbes(s, pe).value) else s.probes
  {
    hide Step, P.Wants, P.Items;
  }

  lemma OnProbesEnabled(s: P.Stage, pe: P.StageEvent)
    requires P.StageInv(s) && P.CanHappen(s, pe) && OnProbes(s, pe).Some?
    ensures Enabled(s.probes, OnProbes(s, pe).value) && !OnProbes(s, pe).value.Tick?
  {
    P.ReplicaKnown(s, pe.r);
  }

  lemma ProbeKeeps(x: Pipe, pe: P.StageEvent)
    requires PipeInv(x) && CanHappen(x, Probe(pe))
    ensures PipeInv(Next(x, Probe(pe)))
  {
    P.NextKeeps(x.probe, pe);
    hide D.SysInv, P.StageInv, Step;
    ProbeOnProbes(x.probe, pe);
    var e := OnProbes(x.probe, pe);
    if e.Some? {
      OnProbesEnabled(x.probe, pe);
      D.ProbesMove(x.scan, e.value, x.scan.offered, x.scan.failed);
    }
  }

  lemma {:induction false} ReachedKeeps(x: Pipe, es: seq<PipeEvent>)
    requires PipeInv(x) && Happens(x, es)
    ensures PipeInv(Reached(x, es))
    decreases |es|
  {
    hide PipeInv;
    if es != [] {
      NextKeeps(x, es[0]);
      ReachedKeeps(Next(x, es[0]), es[1..]);
    }
  }

  // ─── What becomes of a port ───

  lemma {:induction false} ReachedSnoc(x: Pipe, es: seq<PipeEvent>)
    requires Happens(x, es) && es != []
    ensures var n := |es| - 1;
      && Happens(x, es[..n]) && CanHappen(Reached(x, es[..n]), es[n])
      && Reached(x, es) == Next(Reached(x, es[..n]), es[n])
    decreases |es|
  {
    hide Next, CanHappen;
    var n := |es| - 1;
    if n > 0 {
      ReachedSnoc(Next(x, es[0]), es[1..]);
      assert es[1..][..n - 1] == es[..n][1..];
      assert es[..n][0] == es[0] && es[1..][n - 1] == es[n];
    } else {
      assert es[..0] == [] && es[1..] == [];
    }
  }

  /** After the first `k` steps the scan had ended and the row was in the probe queue, with that key. */
  ghost predicate InQueue(x: Pipe, es: seq<PipeEvent>, k: nat, scan: int, row: int, key: ProbeKey) {
    && k <= |es| && Happens(x, es[..k])
    && var m := Reached(x, es[..k]);
       scan in m.scan.scans && row in m.probe.probes.rows && m.probe.probes.rows[row].key == key
  }

  /** The step after the first `k` inserted that key for that scan, and reported an error. */
  ghost predicate ErrorAt(x: Pipe, es: seq<PipeEvent>, k: nat, scan: int, key: ProbeKey) {
    && k < |es| && Happens(x, es[..k])
    && var m := Reached(x, es[..k]);
       CanHappen(m, es[k]) && es[k].Scan? && es[k].se.InsertProbe? && es[k].se.reply != Done
       && var phase := m.scan.replicas[es[k].se.r].tasks[es[k].se.k].phase;
          phase.scan == scan && D.ToProbe(D.PortsOf(phase.result)[phase.done]) == key
  }

  lemma NewOffer(x: Pipe, e: PipeEvent, o: D.Offer)
    requires PipeInv(x) && CanHappen(x, e) && o in Next(x, e).scan.offered && o !in x.scan.offered
    ensures var y := Next(x, e);
      o.scan in y.scan.scans && o.row in y.probe.probes.rows && o.row in y.probe.probes.keyOf
      && y.probe.probes.rows[o.row].key == y.probe.probes.keyOf[o.row]
  {
    NextKeeps(x, e);
    if e.Scan? {
      D.NewOffer(x.scan, e.se, o);
    }
    hide D.SysInv, P.StageInv, D.Next, P.Next;
  }

  lemma NextKeeps(x: Pipe, e: PipeEvent)
    requires PipeInv(x) && CanHappen(x, e)
    ensures PipeInv(Next(x, e))
  {
    hide PipeInv, Next;
    match e
    case Scan(se) => ScanKeeps(x, se);
    case Probe(pe) => ProbeKeeps(x, pe);
  }

  lemma NewRefusal(x: Pipe, e: PipeEvent, f: D.Refusal)
    requires PipeInv(x) && CanHappen(x, e) && f in Next(x, e).scan.failed && f !in x.scan.failed
    ensures e.Scan? && e.se.InsertProbe? && e.se.reply != Done
    ensures var phase := x.scan.replicas[e.se.r].tasks[e.se.k].phase;
      phase.scan == f.scan && D.ToProbe(D.PortsOf(phase.result)[phase.done]) == f.key
  {
    if e.Scan? {
      D.NewRefusal(x.scan, e.se, f);
    }
    hide D.SysInv, P.StageInv, D.Next, P.Next;
  }

  lemma KeysStay(x: Pipe, e: PipeEvent)
    requires PipeInv(x) && CanHappen(x, e)
    ensures forall n :: n in x.probe.probes.keyOf ==>
      n in Next(x, e).probe.probes.keyOf && Next(x, e).probe.probes.keyOf[n] == x.probe.probes.keyOf[n]
  {
    match e
    case Scan(se) =>
      D.NextGrows(x.scan, se);
      if se.Pass? {
        StepGrows(x.probe.probes, Tick(se.elapsed));
      }
      hide D.SysInv, P.StageInv, D.Next;
    case Probe(pe) =>
      ProbeOnProbes(x.probe, pe);
      if OnProbes(x.probe, pe).Some? {
        StepGrows(x.probe.probes, OnProbes(x.probe, pe).value);
      }
  }

  lemma {:induction false} OfferWitness(x: Pipe, es: seq<PipeEvent>, o: D.Offer) returns (k: nat)
    requires PipeInv(x) && Happens(x, es) && x.scan.offered == {} && o in Reached(x, es).scan.offered
    ensures o.row in Reached(x, es).probe.probes.keyOf
    ensures InQueue(x, es, k, o.scan, o.row, Reached(x, es).probe.probes.keyOf[o.row])
    decreases |es|
  {
    hide PipeInv, Next, CanHappen;
    k := 0;
    if es != [] {
      var n := |es| - 1;
      var before := es[..n];
      ReachedSnoc(x, es);
      ReachedKeeps(x, before);
      if o in Reached(x, before).scan.offered {
        k := OfferWitness(x, before, o);
        KeysStay(Reached(x, before), es[n]);
        assert before[..k] == es[..k];
      } else {
        NewOffer(Reached(x, before), es[n], o);
        k := |es|;
        assert es[..k] == es;
      }
    }
  }

  lemma {:induction false} ErrorWitness(x: Pipe, es: seq<PipeEvent>, f: D.Refusal) returns (k: nat)
    requires PipeInv(x) && Happens(x, es) && x.scan.failed == {} && f in Reached(x, es).scan.failed
    ensures ErrorAt(x, es, k, f.scan, f.key)
    decreases |es|
  {
    hide PipeInv, Next, D.PortsOf, D.ToProbe;
    k := 0;
    if es != [] {
      var n := |es| - 1;
      var before := es[..n];
      ReachedSnoc(x, es);
      ReachedKeeps(x, before);
      if f in Reached(x, before).scan.failed {
        k := ErrorWitness(x, before, f);
        assert before[..k] == es[..k] && before[k] == es[k];
      } else {
        k := n;
        NewRefusal(Reached(x, before), es[n], f);
      }
    }
  }

  /** The row of that key is in the probe queue still, or was completed as its outcome says. */
  predicate WorkedOff(x: Pipe, row: int, key: ProbeKey) {
    row in x.probe.probes.rows || (row in x.probe.finished && P.OutcomeOk(x.probe, row, key, x.probe.finished[row]))
  }

  /**
   The port is accounted for: a row of its key that was in the probe queue at some
   moment after the scan is there still or has been worked off since, or an insert
   made for the scan reported an error.
   */
  ghost predicate AccountedFor(x: Pipe, es: seq<PipeEvent>, scan: int, key: ProbeKey)
    requires Happens(x, es)
  {
    || (exists k: nat, row :: InQueue(x, es, k, scan, row, key) && WorkedOff(Reached(x, es), row, key))
    || (exists k: nat :: ErrorAt(x, es, k, scan, key))
  }

  lemma KnownIsWorkedOff(x: Pipe, row: int)
    requires PipeInv(x) && row in x.probe.probes.keyOf
    ensures WorkedOff(x, row, x.probe.probes.keyOf[row])
  {
    hide D.SysInv, P.ReplicaOk, P.OutcomeOk, P.ServicesOk, P.EnrichOk;
    assert row in x.probe.probes.rows || row in x.probe.probes.completed;
  }

  lemma BeginInv(threshold: nat, clock: int)
    ensures PipeInv(Begin(threshold, clock))
  {
    D.BeginOk(threshold, clock);
    P.BeginOk(clock);
  }

  lemma HandedIsAccounted(threshold: nat, clock: int, es: seq<PipeEvent>, scan: int, key: ProbeKey)
    requires Happens(Begin(threshold, clock), es)
    requires D.Handed(Reached(Begin(threshold, clock), es).scan, scan, key)
    ensures AccountedFor(Begin(threshold, clock), es, scan, key)
  {
    var b := Begin(threshold, clock);
    var x := Reached(b, es);
    BeginInv(threshold, clock);
    ReachedKeeps(b, es);
    assert x.scan.probes == x.probe.probes;
    hide Reached, Happens, PipeInv, WorkedOff;
    if D.Refusal(scan, key) in x.scan.failed {
      var k := ErrorWitness(b, es, D.Refusal(scan, key));
    } else {
      var o :| o in x.scan.offered && o.scan == scan && o.row in x.scan.probes.keyOf && x.scan.probes.keyOf[o.row] == key;
      var k := OfferWitness(b, es, o);
      KnownIsWorkedOff(x, o.row);
    }
  }

  /**
   End to end, over every interleaving of both stages, however often a host is
   scanned: each open port of the scan a host row was completed on is accounted for.
   */
  lemma PortsAccountedFor(threshold: nat, clock: int, es: seq<PipeEvent>, id: int, j: nat)
    requires Happens(Begin(threshold, clock), es)
    requires var s := Reached(Begin(threshold, clock), es).scan;
      && id in s.scanned && s.scanned[id] in s.scans && s.scans[s.scanned[id]].result.Ports?
      && j < |s.scans[s.scanned[id]].result.ports|
    ensures var s := Reached(Begin(threshold, clock), es).scan;
      var port := s.scans[s.scanned[id]].result.ports[j];
      && D.ScanOf(s, s.scanned[id], id)
      && AccountedFor(Begin(threshold, clock), es, s.scanned[id], ProbeKey(port.ip, port.port, "tcp"))
  {
    BeginInv(threshold, clock);
    ReachedKeeps(Begin(threshold, clock), es);
    var s := Reached(Begin(threshold, clock), es).scan;
    PortHanded(s, id, j);
    hide Reached, Happens, PipeInv, AccountedFor;
    HandedIsAccounted(threshold, clock, es, s.scanned[id], D.ToProbe(D.PortsOf(s.scans[s.scanned[id]].result)[j]));
  }

  lemma PortHanded(s: D.Sys, id: int, j: nat)
    requires D.SysInv(s) && id in s.scanned && s.scanned[id] in s.scans
    requires j < |D.PortsOf(s.scans[s.scanned[id]].result)|
    ensures D.ScanOf(s, s.scanned[id], id)
    ensures D.Handed(s, s.scanned[id], D.ToProbe(D.PortsOf(s.scans[s.scanned[id]].result)[j]))
  {
    hide D.ReplicaOk, D.AttemptsOk, D.ClaimsApart, D.Handed;
    assert D.ScannedOk(s, id);
  }

  lemma {:induction false} KeyStays(x: Pipe, es: seq<PipeEvent>, j: nat, k: nat, row: int)
    requires j <= k <= |es| && PipeInv(x) && Happens(x, es[..j]) && Happens(x, es[..k])
    requires row in Reached(x, es[..j]).probe.probes.keyOf
    ensures row in Reached(x, es[..k]).probe.probes.keyOf
    ensures Reached(x, es[..k]).probe.probes.keyOf[row] == Reached(x, es[..j]).probe.probes.keyOf[row]
    decreases k
  {
    hide PipeInv, Next, CanHappen;
    if j < k {
      var n := k - 1;
      assert es[..k][..n] == es[..n];
      ReachedSnoc(x, es[..k]);
      KeyStays(x, es, j, n, row);
      ReachedKeeps(x, es[..n]);
      KeysStay(Reached(x, es[..n]), es[n]);
    }
  }

  lemma QueuedKey(x: Pipe, es: seq<PipeEvent>, k: nat, scan: int, row: int, key: ProbeKey)
    requires PipeInv(x) && InQueue(x, es, k, scan, row, key)
    ensures row in Reached(x, es[..k]).probe.probes.keyOf && Reached(x, es[..k]).probe.probes.keyOf[row] == key
  {
    ReachedKeeps(x, es[..k]);
    hide Reached, Happens, D.SysInv, P.NumbersOk, P.EnrichOk, P.ServicesOk, P.FinishedOk, P.ReplicaOk;
  }

  /** Two open ports that differ are accounted for by rows that differ. */
  lemma PortsApart(threshold: nat, clock: int, es: seq<PipeEvent>, a: D.OpenPort, b: D.OpenPort,
                   j: nat, k: nat, scan: int, other: int, row: int, next: int)
    requires a != b
    requires InQueue(Begin(threshold, clock), es, j, scan, row, ProbeKey(a.ip, a.port, "tcp"))
    requires InQueue(Begin(threshold, clock), es, k, other, next, ProbeKey(b.ip, b.port, "tcp"))
    ensures row != next
  {
    var x := Begin(threshold, clock);
    BeginInv(threshold, clock);
    QueuedKey(x, es, j, scan, row, ProbeKey(a.ip, a.port, "tcp"));
    QueuedKey(x, es, k, other, next, ProbeKey(b.ip, b.port, "tcp"));
    hide PipeInv, Reached, Happens;
    if row == next {
      if j <= k {
        KeyStays(x, es, j, k, row);
      } else {
        KeyStays(x, es, k, j, row);
      }
    }
  }
}
