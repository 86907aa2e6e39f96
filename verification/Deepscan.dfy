/**
 The deep-scan stage (src/main.rs, lines 207-299) as a state machine: any
 number of replicas, each a claim loop and the scan tasks it has spawned, over
 the host queue and the probe queue. Any replica may crash before any
 statement; a statement's reply may be lost after it ran, or it may be refused.
 */
module Deepscan {
  import opened Ordering
  import opened LeaseTable
  import opened Stages
  import opened Text

  const MAX_CONCURRENT: nat := 2
  const MAX_ATTEMPTS: int := 3
  const SWEEP_EVERY: nat := 50

  datatype OpenPort = OpenPort(ip: string, port: int)

  /** What a scan came back with: the open ports, or an error, which is taken for none. */
  datatype ScanResult = Ports(ports: seq<OpenPort>) | Failed

  function PortsOf(result: ScanResult): seq<OpenPort> {
    if result.Ports? then result.ports else []
  }

  /** The probe row inserted for an open port (line 281). */
  function ToProbe(port: OpenPort): ProbeKey {
    ProbeKey(port.ip, port.port, "tcp")
  }

  /** Where a claim loop stands; `t` is the time it read at the top of the loop. */
  datatype Pc =
    | Top
    | Claiming(t: int)
    | Counting(t: int, id: int, ip: string, nth: nat)
    | Acquiring(t: int, id: int, ip: string)
    | Spawning(t: int, id: int, ip: string)
    | Requeueing(t: int)
    | Dropping(t: int)

  /** Where a scan task stands. */
  datatype Phase =
    | Scanning
    | Inserting(scan: int, result: ScanResult, done: nat)
    | Marking(scan: int, result: ScanResult)
    | Removing(scan: int, result: ScanResult)

  datatype Task = Task(id: int, ip: string, phase: Phase)

  datatype Replica = Replica(pc: Pc, tick: nat, permits: nat, tasks: map<int, Task>)

  const FRESH: Replica := Replica(Top, 0, MAX_CONCURRENT, map[])

  /** A scan of a host row that came to an end. */
  datatype Scan = Scan(id: int, ip: string, result: ScanResult)

  /** An insert made for a scan ran and left the key in this probe row; or reported an error. */
  datatype Offer = Offer(scan: int, row: int)
  datatype Refusal = Refusal(scan: int, key: ProbeKey)

  /**
   History: `counted` has, per host row, the claims whose attempt was counted;
   `scans` numbers the scans that ended; `scanned` has the scan each row removed
   on the normal path was completed on, `traps` that of each row removed on the
   honeypot path; `offered` and `failed` tell how the inserts of each scan went.
   */
  datatype Sys = Sys(
    threshold: nat,
    hosts: State<string>, probes: State<ProbeKey>, replicas: map<int, Replica>,
    counted: map<int, set<int>>, scans: map<int, Scan>, nextScan: int,
    scanned: map<int, int>, traps: map<int, int>, offered: set<Offer>, failed: set<Refusal>)

  datatype SysEvent =
    | Pass(elapsed: nat)
    | Discover(ip: string)
    | OtherProbe(e: Event<ProbeKey>)
    | Start(r: int)
    | Crash(r: int)
    | ReadClock(r: int)
    | ClaimHost(r: int, reply: Reply, locked: set<int>)
    | CountAttempt(r: int, reply: Reply)
    | Acquire(r: int)
    | Spawn(r: int, k: int)
    | RequeueHosts(r: int, reply: Reply)
    | DropHosts(r: int, reply: Reply)
    | FinishScan(r: int, k: int, result: ScanResult)
    | InsertProbe(r: int, k: int, reply: Reply)
    | MarkTrap(r: int, k: int)
    | CompleteHost(r: int, k: int, reply: Reply)
    | Panic(r: int, k: int)

  // ─── The steps ───

  function CountedOf(s: Sys, id: int): set<int> {
    if id in s.counted then s.counted[id] else {}
  }

  predicate HasTask(s: Sys, r: int, k: int) {
    r in s.replicas && k in s.replicas[r].tasks
  }

  predicate ReadyToComplete(task: Task) {
    task.phase.Removing? || (task.phase.Inserting? && task.phase.done == |PortsOf(task.phase.result)|)
  }

  predicate CanHappen(s: Sys, e: SysEvent) {
    match e
    case Pass(_) => true
    case Discover(_) => true
    case OtherProbe(pe) => !pe.Tick? && Enabled(s.probes, pe)
    case Start(r) => r !in s.replicas
    case Crash(r) => r in s.replicas
    case ReadClock(r) => r in s.replicas && s.replicas[r].pc.Top?
    case ClaimHost(r, _, _) => r in s.replicas && s.replicas[r].pc.Claiming?
    case CountAttempt(r, _) => r in s.replicas && s.replicas[r].pc.Counting?
    case Acquire(r) => r in s.replicas && s.replicas[r].pc.Acquiring? && s.replicas[r].permits > 0
    case Spawn(r, k) => r in s.replicas && s.replicas[r].pc.Spawning? && k !in s.replicas[r].tasks
    case RequeueHosts(r, _) => r in s.replicas && s.replicas[r].pc.Requeueing?
    case DropHosts(r, _) => r in s.replicas && s.replicas[r].pc.Dropping?
    case FinishScan(r, k, _) => HasTask(s, r, k) && s.replicas[r].tasks[k].phase.Scanning?
    case InsertProbe(r, k, _) =>
      HasTask(s, r, k) && s.replicas[r].tasks[k].phase.Inserting?
      && s.replicas[r].tasks[k].phase.done < |PortsOf(s.replicas[r].tasks[k].phase.result)|
    case MarkTrap(r, k) => HasTask(s, r, k) && s.replicas[r].tasks[k].phase.Marking?
    case CompleteHost(r, k, _) => HasTask(s, r, k) && ReadyToComplete(s.replicas[r].tasks[k])
    case Panic(r, k) => HasTask(s, r, k)
  }

  function SetReplica(s: Sys, r: int, rep: Replica): Sys {
    s.(replicas := s.replicas[r := rep])
  }

  function SetPc(s: Sys, r: int, pc: Pc): Sys
    requires r in s.replicas
  {
    SetReplica(s, r, s.replicas[r].(pc := pc))
  }

  function SetPhase(s: Sys, r: int, k: int, phase: Phase): Sys
    requires HasTask(s, r, k)
  {
    var rep := s.replicas[r];
    SetReplica(s, r, rep.(tasks := rep.tasks[k := rep.tasks[k].(phase := phase)]))
  }

  /** A statement on the host queue, unless it is refused. */
  function OnHosts(s: Sys, e: Event<string>, reply: Reply): Sys {
    if reply == Refused then s else s.(hosts := Step(s.hosts, e))
  }

  function ClaimIds(s: Sys, t: int, locked: set<int>): seq<int> {
    Picked(s.hosts.rows, locked, 1, t)
  }

  /** Lines 231-239: an empty or failed claim goes round again. */
  function AfterClaimHost(s: Sys, r: int, reply: Reply, locked: set<int>): Sys
    requires r in s.replicas && s.replicas[r].pc.Claiming?
  {
    var t := s.replicas[r].pc.t;
    var ids := ClaimIds(s, t, locked);
    var next := OnHosts(s, Claim(t, 1, locked), reply);
    if reply == Done && ids != [] && ids[0] in s.hosts.rows then
      SetPc(next, r, Counting(t, ids[0], s.hosts.rows[ids[0]].key, |GrantsOf(s.hosts, ids[0])|))
    else SetPc(next, r, Top)
  }

  /** Line 244: a failed count is ignored. */
  function AfterCountAttempt(s: Sys, r: int, reply: Reply): Sys
    requires r in s.replicas && s.replicas[r].pc.Counting?
  {
    var pc := s.replicas[r].pc;
    var next := OnHosts(s, Increment(pc.id), reply);
    var counted := if reply != Refused && pc.id in s.hosts.rows
      then s.counted[pc.id := CountedOf(s, pc.id) + {pc.nth}] else s.counted;
    SetPc(next.(counted := counted), r, Acquiring(pc.t, pc.id, pc.ip))
  }

  /** Lines 259-293: the task takes the permit along; every 50th round ends with a sweep. */
  function AfterSpawn(s: Sys, r: int, k: int): Sys
    requires r in s.replicas && s.replicas[r].pc.Spawning?
  {
    var rep := s.replicas[r];
    var tick := (rep.tick + 1) % 0x1_0000_0000;
    SetReplica(s, r, Replica(
      if tick % SWEEP_EVERY == 0 then Requeueing(rep.pc.t) else Top, tick, rep.permits,
      rep.tasks[k := Task(rep.pc.id, rep.pc.ip, Scanning)]))
  }

  /** `results.len() as u32 > threshold` */
  predicate Trap(s: Sys, result: ScanResult) {
    |PortsOf(result)| % 0x1_0000_0000 > s.threshold
  }

  function ScanEnded(s: Sys, task: Task, result: ScanResult): Sys {
    s.(scans := s.scans[s.nextScan := Scan(task.id, task.ip, result)], nextScan := s.nextScan + 1)
  }

  /** Lines 266-284: one probe row per open port, or none for a suspected honeypot. */
  function AfterFinishScan(s: Sys, r: int, k: int, result: ScanResult): Sys
    requires HasTask(s, r, k)
  {
    SetPhase(ScanEnded(s, s.replicas[r].tasks[k], result), r, k,
             if Trap(s, result) then Marking(s.nextScan, result) else Inserting(s.nextScan, result, 0))
  }

  /** Lines 280-282: an insert that reports an error is only logged. */
  function Offered(s: Sys, scan: int, p: ProbeKey, reply: Reply): Sys {
    var next := if reply == Refused then s else s.(probes := Step(s.probes, Insert(p)));
    next.(
      offered := if reply != Refused && HasKey(next.probes.rows, p)
                 then s.offered + {Offer(scan, Holder(next.probes.rows, p))} else s.offered,
      failed := if reply == Done then s.failed else s.failed + {Refusal(scan, p)})
  }

  function AfterInsertProbe(s: Sys, r: int, k: int, reply: Reply): Sys
    requires HasTask(s, r, k) && s.replicas[r].tasks[k].phase.Inserting?
    requires s.replicas[r].tasks[k].phase.done < |PortsOf(s.replicas[r].tasks[k].phase.result)|
  {
    var Inserting(scan, result, done) := s.replicas[r].tasks[k].phase;
    SetPhase(Offered(s, scan, ToProbe(PortsOf(result)[done]), reply), r, k, Inserting(scan, result, done + 1))
  }

  /** The host row goes; if it was there, its scan enters the history. */
  function Settled(s: Sys, task: Task, reply: Reply): Sys {
    var gone := reply != Refused && task.id in s.hosts.rows;
    OnHosts(s, Complete(task.id), reply).(
      scanned := if gone && task.phase.Inserting? then s.scanned[task.id := task.phase.scan] else s.scanned,
      traps := if gone && task.phase.Removing? then s.traps[task.id := task.phase.scan] else s.traps)
  }

  /** Lines 276 and 287: the task ends and frees its permit. */
  function AfterCompleteHost(s: Sys, r: int, k: int, reply: Reply): Sys
    requires HasTask(s, r, k) && ReadyToComplete(s.replicas[r].tasks[k])
  {
    AfterPanic(Settled(s, s.replicas[r].tasks[k], reply), r, k)
  }

  /** Lines 261-262: a task that panics gives its permit back and leaves its row to expire. */
  function AfterPanic(s: Sys, r: int, k: int): Sys
    requires HasTask(s, r, k)
  {
    var rep := s.replicas[r];
    SetReplica(s, r, rep.(permits := rep.permits + 1, tasks := rep.tasks - {k}))
  }

  function Next(s: Sys, e: SysEvent): Sys
    requires CanHappen(s, e)
  {
    match e
    case Pass(elapsed) =>
      s.(hosts := Step(s.hosts, Tick(elapsed)), probes := Step(s.probes, Tick(elapsed)))
    case Discover(ip) => s.(hosts := Step(s.hosts, Insert(ip)))
    case OtherProbe(pe) => s.(probes := Step(s.probes, pe))
    case Start(r) => SetReplica(s, r, FRESH)
    case Crash(r) => SetReplica(s, r, FRESH)
    case ReadClock(r) => SetPc(s, r, Claiming(s.hosts.clock))
    case ClaimHost(r, reply, locked) => AfterClaimHost(s, r, reply, locked)
    case CountAttempt(r, reply) => AfterCountAttempt(s, r, reply)
    case Acquire(r) =>
      var rep := s.replicas[r];
      SetReplica(s, r, rep.(pc := Spawning(rep.pc.t, rep.pc.id, rep.pc.ip), permits := rep.permits - 1))
    case Spawn(r, k) => AfterSpawn(s, r, k)
    case RequeueHosts(r, reply) =>
      var t := s.replicas[r].pc.t;
      SetPc(OnHosts(s, Requeue(t, MAX_ATTEMPTS), reply), r, if reply == Done then Dropping(t) else Top)
    case DropHosts(r, reply) =>
      SetPc(OnHosts(s, Drop(s.replicas[r].pc.t, MAX_ATTEMPTS), reply), r, Top)
    case FinishScan(r, k, result) => AfterFinishScan(s, r, k, result)
    case InsertProbe(r, k, reply) => AfterInsertProbe(s, r, k, reply)
    case MarkTrap(r, k) =>
      var phase := s.replicas[r].tasks[k].phase;
      SetPhase(s, r, k, Removing(phase.scan, phase.result))
    case CompleteHost(r, k, reply) => AfterCompleteHost(s, r, k, reply)
    case Panic(r, k) => AfterPanic(s, r, k)
  }

  function Begin(threshold: nat, clock: int): Sys {
    Sys(threshold, Init(clock), Init(clock), map[], map[], map[], 1, map[], map[], {}, {})
  }

  predicate Happens(s: Sys, es: seq<SysEvent>)
    decreases |es|
  {
    es == [] || (CanHappen(s, es[0]) && Happens(Next(s, es[0]), es[1..]))
  }

  function Reached(s: Sys, es: seq<SysEvent>): Sys
    requires Happens(s, es)
    decreases |es|
  {
    if es == [] then s else Reached(Next(s, es[0]), es[1..])
  }

  // ─── What every step keeps ───

  /** An insert of that key made for that scan ran, or reported an error. */
  predicate Handed(s: Sys, scan: int, p: ProbeKey) {
    Refusal(scan, p) in s.failed || HasOffer(s, scan, p)
  }

  predicate HasOffer(s: Sys, scan: int, p: ProbeKey) {
    exists o :: o in s.offered && o.scan == scan && o.row in s.probes.keyOf && s.probes.keyOf[o.row] == p
  }

  predicate KnownHost(s: Sys, id: int, ip: string) {
    id in s.hosts.keyOf && s.hosts.keyOf[id] == ip
  }

  /** The first `n` open ports of the scan's result have been handed on for that scan. */
  predicate HandedUpto(s: Sys, scan: int, result: ScanResult, n: nat) {
    n <= |PortsOf(result)| && forall j :: 0 <= j < n ==> Handed(s, scan, ToProbe(PortsOf(result)[j]))
  }

  /** The result is that of the scan, and the scan was of that host row. */
  predicate Scanned(s: Sys, scan: int, id: int, ip: string, result: ScanResult) {
    scan in s.scans && s.scans[scan] == Scan(id, ip, result)
  }

  predicate TaskOk(s: Sys, task: Task) {
    && KnownHost(s, task.id, task.ip)
    && (!task.phase.Scanning? ==>
          && Scanned(s, task.phase.scan, task.id, task.ip, task.phase.result)
          && (task.phase.Inserting? <==> !Trap(s, task.phase.result)))
    && (task.phase.Inserting? ==> HandedUpto(s, task.phase.scan, task.phase.result, task.phase.done))
  }

  predicate PcOk(s: Sys, pc: Pc) {
    match pc
    case Top => true
    case Claiming(t) => t <= s.hosts.clock
    case Counting(t, id, ip, nth) =>
      t <= s.hosts.clock && KnownHost(s, id, ip)
      && nth < |GrantsOf(s.hosts, id)| && nth !in CountedOf(s, id)
    case Acquiring(t, id, ip) => t <= s.hosts.clock && KnownHost(s, id, ip)
    case Spawning(t, id, ip) => t <= s.hosts.clock && KnownHost(s, id, ip)
    case Requeueing(t) => t <= s.hosts.clock
    case Dropping(t) => t <= s.hosts.clock
  }

  /** Free permits, permits with tasks and the one in the loop's hand are all of them. */
  predicate PermitsOk(rep: Replica) {
    rep.permits + |rep.tasks| + (if rep.pc.Spawning? then 1 else 0) == MAX_CONCURRENT
  }

  predicate ReplicaOk(s: Sys, rep: Replica) {
    PermitsOk(rep) && PcOk(s, rep.pc) && forall k :: k in rep.tasks ==> TaskOk(s, rep.tasks[k])
  }

  /** No claim is waiting to be counted by two replicas. */
  predicate SameClaim(a: Pc, b: Pc) {
    a.Counting? && b.Counting? && a.id == b.id && a.nth == b.nth
  }

  predicate ClaimsApart(s: Sys) {
    forall q, r :: q in s.replicas && r in s.replicas && q != r ==>
      !SameClaim(s.replicas[q].pc, s.replicas[r].pc)
  }

  /** Each counted attempt is a claim of its own. */
  predicate AttemptsOk(s: Sys) {
    && (forall id, n :: id in s.counted && n in s.counted[id] ==> 0 <= n < |GrantsOf(s.hosts, id)|)
    && (forall id :: id in s.hosts.rows ==> s.hosts.rows[id].attempts <= |CountedOf(s, id)|)
    && forall id :: id in s.hosts.dropped ==> DroppedOk(s.hosts, id)
  }

  /** Dropped after at least three claims, and later than the first of them plus the lease time of all. */
  predicate DroppedOk(hosts: State<string>, id: int) {
    var gs := GrantsOf(hosts, id);
    |gs| >= MAX_ATTEMPTS && gs[0].at + Granted(gs) < hosts.clock
  }

  predicate NumbersOk(s: Sys) {
    forall n :: n in s.scans ==> n < s.nextScan
  }

  /** That scan was of that host row. */
  predicate ScanOf(s: Sys, scan: int, id: int) {
    scan in s.scans && id in s.hosts.keyOf && s.scans[scan].id == id && s.scans[scan].ip == s.hosts.keyOf[id]
  }

  /** Completed on the normal path: a scan of that row under the threshold, every open port handed on for it. */
  predicate ScannedOk(s: Sys, id: int) {
    && id in s.scanned && ScanOf(s, s.scanned[id], id)
    && var result := s.scans[s.scanned[id]].result;
       !Trap(s, result) && HandedUpto(s, s.scanned[id], result, |PortsOf(result)|)
  }

  /** Completed on the honeypot path: a scan of that row found more ports than the threshold. */
  predicate TrapOk(s: Sys, id: int) {
    id in s.traps && ScanOf(s, s.traps[id], id) && Trap(s, s.scans[s.traps[id]].result)
  }

  /** Each row removed by `complete` went one way or the other. */
  predicate FinishedOk(s: Sys) {
    && s.hosts.completed == s.scanned.Keys + s.traps.Keys && s.scanned.Keys !! s.traps.Keys
    && (forall id :: id in s.scanned ==> ScannedOk(s, id))
    && (forall id :: id in s.traps ==> TrapOk(s, id))
  }

  predicate SysInv(s: Sys) {
    && Inv(s.hosts) && Inv(s.probes) && s.hosts.clock == s.probes.clock && s.hosts.disturbed == {}
    && AttemptsOk(s) && NumbersOk(s) && FinishedOk(s) && ClaimsApart(s)
    && forall r :: r in s.replicas ==> ReplicaOk(s, s.replicas[r])
  }

  /** What a replica relies on only grows. */
  ghost predicate Grows(s: Sys, t: Sys) {
    && s.threshold == t.threshold
    && s.hosts.clock <= t.hosts.clock
    && (forall id :: id in s.hosts.keyOf ==> id in t.hosts.keyOf && t.hosts.keyOf[id] == s.hosts.keyOf[id])
    && (forall id :: |GrantsOf(s.hosts, id)| <= |GrantsOf(t.hosts, id)|)
    && (forall id :: id in s.probes.keyOf ==> id in t.probes.keyOf && t.probes.keyOf[id] == s.probes.keyOf[id])
    && s.failed <= t.failed && s.offered <= t.offered
    && (forall n :: n in s.scans ==> n in t.scans && t.scans[n] == s.scans[n])
  }

  lemma HandedGrows(s: Sys, t: Sys, scan: int, p: ProbeKey)
    requires Grows(s, t) && Handed(s, scan, p)
    ensures Handed(t, scan, p)
  {
    if Refusal(scan, p) !in s.failed {
      var o :| o in s.offered && o.scan == scan && o.row in s.probes.keyOf && s.probes.keyOf[o.row] == p;
      assert o in t.offered && t.probes.keyOf[o.row] == p;
    }
  }

  lemma HandedUptoGrows(s: Sys, t: Sys, scan: int, result: ScanResult, n: nat)
    requires Grows(s, t) && HandedUpto(s, scan, result, n)
    ensures HandedUpto(t, scan, result, n)
  {
    forall j | 0 <= j < n ensures Handed(t, scan, ToProbe(PortsOf(result)[j])) {
      HandedGrows(s, t, scan, ToProbe(PortsOf(result)[j]));
    }
  }

  lemma TaskGrows(s: Sys, t: Sys, task: Task)
    requires Grows(s, t) && TaskOk(s, task)
    ensures TaskOk(t, task)
  {
    hide HandedUpto;
    if task.phase.Inserting? {
      HandedUptoGrows(s, t, task.phase.scan, task.phase.result, task.phase.done);
    }
  }

  lemma ReplicaGrows(s: Sys, t: Sys, rep: Replica)
    requires Grows(s, t) && ReplicaOk(s, rep)
    requires rep.pc.Counting? ==> rep.pc.nth !in CountedOf(t, rep.pc.id)
    ensures ReplicaOk(t, rep)
  {
    hide TaskOk;
    assert PcOk(s, rep.pc);
    assert PcOk(t, rep.pc);
    forall k | k in rep.tasks ensures TaskOk(t, rep.tasks[k]) {
      TaskGrows(s, t, rep.tasks[k]);
    }
  }

  lemma ScannedGrows(s: Sys, t: Sys, id: int)
    requires Grows(s, t) && ScannedOk(s, id) && id in t.scanned && t.scanned[id] == s.scanned[id]
    ensures ScannedOk(t, id)
  {
    var result := s.scans[s.scanned[id]].result;
    hide HandedUpto;
    HandedUptoGrows(s, t, s.scanned[id], result, |PortsOf(result)|);
  }

  lemma TrapGrows(s: Sys, t: Sys, id: int)
    requires Grows(s, t) && TrapOk(s, id) && id in t.traps && t.traps[id] == s.traps[id]
    ensures TrapOk(t, id)
  {
  }

  lemma FinishedGrows(s: Sys, t: Sys)
    requires Grows(s, t) && FinishedOk(s)
    requires t.scanned == s.scanned && t.traps == s.traps && t.hosts.completed == s.hosts.completed
    ensures FinishedOk(t)
  {
    hide ScannedOk, TrapOk, Grows;
    forall id | id in t.scanned ensures ScannedOk(t, id) {
      ScannedGrows(s, t, id);
    }
    forall id | id in t.traps ensures TrapOk(t, id) {
      TrapGrows(s, t, id);
    }
  }

  lemma ReplicaParts(s: Sys, rep: Replica)
    requires ReplicaOk(s, rep)
    ensures PermitsOk(rep) && PcOk(s, rep.pc) && forall k :: k in rep.tasks ==> TaskOk(s, rep.tasks[k])
  {
  }

  lemma ReplicaKnown(s: Sys, r: int)
    requires SysInv(s) && r in s.replicas
    ensures PermitsOk(s.replicas[r]) && PcOk(s, s.replicas[r].pc)
    ensures forall k :: k in s.replicas[r].tasks ==> TaskOk(s, s.replicas[r].tasks[k])
  {
    ReplicaParts(s, s.replicas[r]);
  }

  /** No claim a replica waits to count is among the counted ones. */
  predicate Uncounted(s: Sys, t: Sys) {
    forall r :: r in s.replicas && s.replicas[r].pc.Counting? ==>
      s.replicas[r].pc.nth !in CountedOf(t, s.replicas[r].pc.id)
  }

  /** A step of the tables and the history alone: no replica moves. */
  lemma TablesCount(s: Sys, t: Sys)
    requires SysInv(s) && Inv(t.hosts) && Inv(t.probes) && t.hosts.clock == t.probes.clock && t.hosts.disturbed == {}
    requires Grows(s, t) && AttemptsOk(t) && NumbersOk(t) && FinishedOk(t)
    requires Uncounted(s, t) && t.replicas == s.replicas
    ensures SysInv(t)
  {
    hide Inv, AttemptsOk, NumbersOk, FinishedOk, ReplicaOk, Grows;
    forall r | r in t.replicas ensures ReplicaOk(t, t.replicas[r]) {
      ReplicaGrows(s, t, s.replicas[r]);
    }
  }

  /** And no attempt is counted. */
  lemma TablesMove(s: Sys, t: Sys)
    requires SysInv(s) && Inv(t.hosts) && Inv(t.probes) && t.hosts.clock == t.probes.clock && t.hosts.disturbed == {}
    requires Grows(s, t) && AttemptsOk(t) && NumbersOk(t) && FinishedOk(t)
    requires t.counted == s.counted && t.replicas == s.replicas
    ensures SysInv(t)
  {
    hide SysInv, Inv, AttemptsOk, NumbersOk, FinishedOk, Grows;
    forall r | r in s.replicas && s.replicas[r].pc.Counting?
      ensures s.replicas[r].pc.nth !in CountedOf(t, s.replicas[r].pc.id)
    {
      ReplicaKnown(s, r);
    }
    TablesCount(s, t);
  }

  /** A step of one replica alone, to a place where it waits to count no other's claim. */
  lemma ReplicaMoves(s: Sys, r: int, rep: Replica)
    requires SysInv(s) && ReplicaOk(s, rep)
    requires forall q :: q in s.replicas && q != r ==> !SameClaim(s.replicas[q].pc, rep.pc)
    ensures SysInv(SetReplica(s, r, rep))
  {
    hide Inv, ReplicaOk, Handed, FinishedOk, AttemptsOk;
    var t := SetReplica(s, r, rep);
    assert Grows(s, t);
    FinishedGrows(s, t);
    assert AttemptsOk(t) by { AttemptsSame(s, t); }
    forall q | q in t.replicas ensures ReplicaOk(t, t.replicas[q]) {
      var one := if q == r then rep else s.replicas[q];
      ReplicaParts(s, one);
      ReplicaGrows(s, t, one);
    }
  }

  lemma AttemptsSame(s: Sys, t: Sys)
    requires AttemptsOk(s) && t.hosts == s.hosts && t.counted == s.counted
    ensures AttemptsOk(t)
  {
    forall id | id in t.hosts.rows ensures t.hosts.rows[id].attempts <= |CountedOf(t, id)| {
      assert CountedOf(t, id) == CountedOf(s, id);
    }
  }

  lemma DroppedKept(s: Sys, e: Event<string>, t: Sys, id: int)
    requires AttemptsOk(s) && Inv(s.hosts) && s.hosts.disturbed == {} && Enabled(s.hosts, e)
    requires e.Drop? ==> e.maxAttempts == MAX_ATTEMPTS
    requires t.hosts == Step(s.hosts, e) && id in t.hosts.dropped
    ensures DroppedOk(t.hosts, id)
  {
    if id in s.hosts.dropped {
      SameGrants(s.hosts, e, id);
      assert DroppedOk(s.hosts, id);
      StepGrows(s.hosts, e);
    } else {
      DroppedAfterClaims(s, e, id);
      assert GrantsOf(t.hosts, id) == GrantsOf(s.hosts, id);
    }
  }

  /** What a sweep drops has been counted three times, so claimed three times. */
  lemma DroppedAfterClaims(s: Sys, e: Event<string>, id: int)
    requires AttemptsOk(s) && Inv(s.hosts) && s.hosts.disturbed == {} && Enabled(s.hosts, e)
    requires e.Drop? && id in Poisoned(s.hosts.rows, MAX_ATTEMPTS, e.stamp)
    ensures DroppedOk(s.hosts, id)
  {
    assert forall n :: n in CountedOf(s, id) ==> 0 <= n < |GrantsOf(s.hosts, id)|;
    CountBelow(CountedOf(s, id), |GrantsOf(s.hosts, id)|);
    DropIsLate(s.hosts, e.stamp, MAX_ATTEMPTS, id);
  }

  lemma {:induction false} CountBelow(a: set<int>, n: nat)
    requires forall x :: x in a ==> 0 <= x < n
    ensures |a| <= n
  {
    if a != {} {
      var x := Choose(a);
      assert 0 <= x < n;
      CountBelow(a - {n - 1}, n - 1);
    }
  }

  lemma CountsKept(s: Sys, e: Event<string>, t: Sys)
    requires AttemptsOk(s) && !e.Increment? && Inv(s.hosts)
    requires t.hosts == Step(s.hosts, e) && t.counted == s.counted
    ensures forall id, n :: id in t.counted && n in t.counted[id] ==> 0 <= n < |GrantsOf(t.hosts, id)|
    ensures forall id :: id in t.hosts.rows ==> t.hosts.rows[id].attempts <= |CountedOf(t, id)|
  {
    StepGrows(s.hosts, e);
    hide DroppedOk, Conserved, LeasesCovered, GrantsSpaced, CutsKnown;
    forall id | id in t.hosts.rows ensures t.hosts.rows[id].attempts <= |CountedOf(t, id)| {
      assert CountedOf(t, id) == CountedOf(s, id);
    }
    forall id, n | id in t.counted && n in t.counted[id] ensures 0 <= n < |GrantsOf(t.hosts, id)| {
      assert n in s.counted[id];
    }
  }

  lemma AttemptsKept(s: Sys, e: Event<string>, t: Sys)
    requires AttemptsOk(s) && !e.Increment? && Inv(s.hosts) && s.hosts.disturbed == {} && Enabled(s.hosts, e)
    requires e.Drop? ==> e.maxAttempts == MAX_ATTEMPTS
    requires t.hosts == Step(s.hosts, e) && t.counted == s.counted
    ensures AttemptsOk(t)
  {
    CountsKept(s, e, t);
    hide DroppedOk, Inv, Step, Enabled;
    forall id | id in t.hosts.dropped ensures DroppedOk(t.hosts, id) {
      DroppedKept(s, e, t, id);
    }
  }

  /** A statement on the host queue that neither counts nor completes. */
  lemma HostsMove(s: Sys, e: Event<string>)
    requires SysInv(s) && Enabled(s.hosts, e)
    requires !e.Increment? && !e.Complete? && !e.Tick? && !e.Heartbeat?
    requires e.Drop? ==> e.maxAttempts == MAX_ATTEMPTS
    ensures SysInv(s.(hosts := Step(s.hosts, e)))
  {
    var t := s.(hosts := Step(s.hosts, e));
    StepKeeps(s.hosts, e);
    StepGrows(s.hosts, e);
    assert t.hosts.completed == s.hosts.completed && t.hosts.clock == s.hosts.clock;
    assert t.hosts.disturbed == s.hosts.disturbed;
    hide Step, FinishedOk, AttemptsOk, ReplicaOk;
    AttemptsKept(s, e, t);
    FinishedGrows(s, t);
    TablesMove(s, t);
  }

  lemma ProbesMove(s: Sys, e: Event<ProbeKey>, offered: set<Offer>, failed: set<Refusal>)
    requires SysInv(s) && Enabled(s.probes, e) && !e.Tick? && s.offered <= offered && s.failed <= failed
    ensures SysInv(s.(probes := Step(s.probes, e), offered := offered, failed := failed))
  {
    var t := s.(probes := Step(s.probes, e), offered := offered, failed := failed);
    StepKeeps(s.probes, e);
    StepGrows(s.probes, e);
    assert t.probes.clock == s.probes.clock;
    hide Step, FinishedOk, AttemptsOk, ReplicaOk;
    AttemptsSame(s, t);
    FinishedGrows(s, t);
    TablesMove(s, t);
  }

  lemma ClockMoves(s: Sys, elapsed: nat)
    requires SysInv(s)
    ensures SysInv(Next(s, Pass(elapsed)))
  {
    var t := Next(s, Pass(elapsed));
    StepKeeps(s.hosts, Tick(elapsed));
    StepKeeps(s.probes, Tick(elapsed));
    StepGrows(s.hosts, Tick(elapsed));
    StepGrows(s.probes, Tick(elapsed));
    AttemptsKept(s, Tick(elapsed), t);
    FinishedGrows(s, t);
    TablesMove(s, t);
  }

  // ─── The claim loop ───

  lemma CountingMoves(s: Sys, r: int, pc: Pc)
    requires SysInv(s) && r in s.replicas && !s.replicas[r].pc.Spawning?
    requires pc.Counting? && PcOk(s, pc)
    requires forall q :: q in s.replicas && s.replicas[q].pc.Counting? && s.replicas[q].pc.id == pc.id ==>
      s.replicas[q].pc.nth != pc.nth
    ensures SysInv(SetPc(s, r, pc))
  {
    hide SysInv, TaskOk, PcOk;
    ReplicaKnown(s, r);
    var rep := s.replicas[r].(pc := pc);
    assert ReplicaOk(s, rep);
    ReplicaMoves(s, r, rep);
  }

  /** A claim about to be counted has never been counted, nor is any other replica about to. */
  lemma ClaimedMoves(s: Sys, r: int, locked: set<int>, id: int)
    requires SysInv(s) && CanHappen(s, ClaimHost(r, Done, locked))
    requires id in s.hosts.rows && id in ClaimIds(s, s.replicas[r].pc.t, locked)
    ensures var t := s.replicas[r].pc.t;
      var next := OnHosts(s, Claim(t, 1, locked), Done);
      SysInv(SetPc(next, r, Counting(t, id, s.hosts.rows[id].key, |GrantsOf(s.hosts, id)|)))
  {
    hide SysInv, Step, Picked, GrantsOf, Enabled, ClaimIds, KnownHost, CountedOf;
    var t := s.replicas[r].pc.t;
    ReplicaKnown(s, r);
    ClaimFacts(s, t, locked, id);
    NewlyClaimed(s, id, s.(hosts := Step(s.hosts, Claim(t, 1, locked))));
    HostsMove(s, Claim(t, 1, locked));
    CountingMoves(s.(hosts := Step(s.hosts, Claim(t, 1, locked))), r,
                  Counting(t, id, s.hosts.rows[id].key, |GrantsOf(s.hosts, id)|));
  }

  lemma ClaimFacts(s: Sys, t: int, locked: set<int>, id: int)
    requires t <= s.hosts.clock && id in ClaimIds(s, t, locked)
    ensures var next := Step(s.hosts, Claim(t, 1, locked));
      && Enabled(s.hosts, Claim(t, 1, locked))
      && next.keyOf == s.hosts.keyOf && next.clock == s.hosts.clock
      && |GrantsOf(next, id)| == |GrantsOf(s.hosts, id)| + 1
  {
    ClaimGrants(s.hosts, Claim(t, 1, locked), id);
  }

  lemma ClaimEnabled(s: State<string>, t: int, locked: set<int>)
    requires t <= s.clock
    ensures Enabled(s, Claim(t, 1, locked))
  {
  }

  lemma ClaimMoves(s: Sys, r: int, reply: Reply, locked: set<int>)
    requires SysInv(s) && CanHappen(s, ClaimHost(r, reply, locked))
    ensures SysInv(AfterClaimHost(s, r, reply, locked))
  {
    var t := s.replicas[r].pc.t;
    var e := Claim(t, 1, locked);
    var ids := ClaimIds(s, t, locked);
    hide SysInv, Step, Picked, GrantsOf, Enabled;
    if reply == Done && ids != [] && ids[0] in s.hosts.rows {
      ClaimedMoves(s, r, locked, ids[0]);
    } else {
      ReplicaKnown(s, r);
      ClaimEnabled(s.hosts, t, locked);
      if reply != Refused {
        HostsMove(s, e);
      }
      PcMoves(OnHosts(s, e, reply), r, Top);
    }
  }

  lemma NewlyClaimed(s: Sys, id: int, t: Sys)
    requires SysInv(s) && id in s.hosts.rows
    requires t.counted == s.counted && t.hosts.keyOf == s.hosts.keyOf
    ensures KnownHost(t, id, s.hosts.rows[id].key)
    ensures |GrantsOf(s.hosts, id)| !in CountedOf(t, id)
    ensures forall q :: q in s.replicas && s.replicas[q].pc.Counting? && s.replicas[q].pc.id == id ==>
      s.replicas[q].pc.nth < |GrantsOf(s.hosts, id)|
  {
    NotYetClaimed(s, id);
  }

  lemma NotYetClaimed(s: Sys, id: int)
    requires SysInv(s)
    ensures forall q :: q in s.replicas && s.replicas[q].pc.Counting? && s.replicas[q].pc.id == id ==>
      s.replicas[q].pc.nth < |GrantsOf(s.hosts, id)|
  {
    forall q | q in s.replicas && s.replicas[q].pc.Counting? && s.replicas[q].pc.id == id
      ensures s.replicas[q].pc.nth < |GrantsOf(s.hosts, id)|
    {
      ReplicaParts(s, s.replicas[q]);
    }
  }

  lemma AttemptCounted(s: Sys, id: int, n: nat, t: Sys)
    requires AttemptsOk(s) && id in s.hosts.rows && n !in CountedOf(s, id) && n < |GrantsOf(s.hosts, id)|
    requires t.hosts == Step(s.hosts, Increment(id))
    requires t.counted == s.counted[id := CountedOf(s, id) + {n}]
    ensures AttemptsOk(t)
  {
    forall i | i in t.hosts.rows ensures t.hosts.rows[i].attempts <= |CountedOf(t, i)| {
      assert CountedOf(t, i) == if i == id then CountedOf(s, id) + {n} else CountedOf(s, i);
    }
    forall i, m | i in t.counted && m in t.counted[i] ensures 0 <= m < |GrantsOf(t.hosts, i)| {
      assert GrantsOf(t.hosts, i) == GrantsOf(s.hosts, i);
    }
    forall i | i in t.hosts.dropped ensures DroppedOk(t.hosts, i) {
      assert DroppedOk(s.hosts, i) && GrantsOf(t.hosts, i) == GrantsOf(s.hosts, i);
    }
  }

  /** The claim numbered `n` has been counted. */
  function Counted(s: Sys, id: int, n: nat): Sys {
    s.(hosts := Step(s.hosts, Increment(id)), counted := s.counted[id := CountedOf(s, id) + {n}])
  }

  lemma CountedFields(s: Sys, id: int, n: nat)
    ensures var t := Counted(s, id, n);
      && t.hosts == Step(s.hosts, Increment(id)) && t.probes == s.probes && t.replicas == s.replicas
      && t.counted == s.counted[id := CountedOf(s, id) + {n}] && t.threshold == s.threshold
      && t.scans == s.scans && t.nextScan == s.nextScan && t.scanned == s.scanned && t.traps == s.traps
      && t.offered == s.offered && t.failed == s.failed
  {
  }

  lemma IncrementKeeps(hosts: State<string>, id: int)
    requires Inv(hosts)
    ensures var t := Step(hosts, Increment(id));
      && Inv(t) && t.disturbed == hosts.disturbed && t.clock == hosts.clock && t.completed == hosts.completed
  {
    StepKeeps(hosts, Increment(id));
    hide Inv;
  }

  lemma CountedTables(s: Sys, id: int, n: nat)
    requires SysInv(s) && id in s.hosts.rows && n !in CountedOf(s, id) && n < |GrantsOf(s.hosts, id)|
    ensures var t := Counted(s, id, n);
      && Inv(t.hosts) && Inv(t.probes) && t.hosts.clock == t.probes.clock && t.hosts.disturbed == {}
      && AttemptsOk(t) && NumbersOk(t) && FinishedOk(t) && Grows(s, t)
  {
    var t := Counted(s, id, n);
    IncrementKeeps(s.hosts, id);
    StepGrows(s.hosts, Increment(id));
    AttemptCounted(s, id, n, t);
    CountedFields(s, id, n);
    hide Inv, AttemptsOk, FinishedOk, ReplicaOk, Step, Counted;
    assert Grows(s, t);
    FinishedGrows(s, t);
  }

  /** Counting a claim that no replica still waits to count. */
  lemma CountedMoves(s: Sys, id: int, n: nat)
    requires SysInv(s) && id in s.hosts.rows && n !in CountedOf(s, id) && n < |GrantsOf(s.hosts, id)|
    requires forall q :: q in s.replicas && s.replicas[q].pc.Counting? && s.replicas[q].pc.id == id ==>
      s.replicas[q].pc.nth != n
    ensures SysInv(Counted(s, id, n))
  {
    var t := Counted(s, id, n);
    CountedTables(s, id, n);
    CountedFields(s, id, n);
    hide SysInv, Step, Inv, AttemptsOk, NumbersOk, FinishedOk, Grows, Counted;
    forall r | r in s.replicas && s.replicas[r].pc.Counting?
      ensures s.replicas[r].pc.nth !in CountedOf(t, s.replicas[r].pc.id)
    {
      ReplicaKnown(s, r);
    }
    TablesCount(s, t);
  }

  lemma CountMoves(s: Sys, r: int, reply: Reply)
    requires SysInv(s) && CanHappen(s, CountAttempt(r, reply))
    ensures SysInv(AfterCountAttempt(s, r, reply))
  {
    var pc := s.replicas[r].pc;
    NotCountedByOthers(s, r);
    ReplicaKnown(s, r);
    hide SysInv, TaskOk, Step;
    var rep := s.replicas[r].(pc := Acquiring(pc.t, pc.id, pc.ip));
    ReplicaTo(s, r, rep);
    var u := SetReplica(s, r, rep);
    if reply != Refused && pc.id in s.hosts.rows {
      CountedMoves(u, pc.id, pc.nth);
    } else if reply != Refused {
      NothingToCount(s.hosts, pc.id);
    }
  }

  lemma NothingToCount(hosts: State<string>, id: int)
    requires id !in hosts.rows
    ensures Step(hosts, Increment(id)) == hosts
  {
  }

  lemma NotCountedByOthers(s: Sys, r: int)
    requires SysInv(s) && r in s.replicas && s.replicas[r].pc.Counting?
    ensures var pc := s.replicas[r].pc;
      forall q :: q in s.replicas && q != r && s.replicas[q].pc.Counting? && s.replicas[q].pc.id == pc.id ==>
        s.replicas[q].pc.nth != pc.nth
  {
    forall q | q in s.replicas && q != r && s.replicas[q].pc.Counting? && s.replicas[q].pc.id == s.replicas[r].pc.id
      ensures s.replicas[q].pc.nth != s.replicas[r].pc.nth
    {
      assert !SameClaim(s.replicas[q].pc, s.replicas[r].pc);
    }
  }

  /** A replica moves to any place that is all right, without a new claim to count. */
  lemma ReplicaTo(s: Sys, r: int, next: Replica)
    requires SysInv(s) && r in s.replicas
    requires PermitsOk(next) && PcOk(s, next.pc) && (next.pc == s.replicas[r].pc || !next.pc.Counting?)
    requires forall k :: k in next.tasks ==> TaskOk(s, next.tasks[k])
    ensures SysInv(SetReplica(s, r, next))
  {
    hide PcOk, TaskOk, Inv, AttemptsOk, FinishedOk;
    assert ReplicaOk(s, next);
    ReplicaMoves(s, r, next);
  }

  lemma SpawnMoves(s: Sys, r: int, k: int)
    requires SysInv(s) && CanHappen(s, Spawn(r, k))
    ensures SysInv(AfterSpawn(s, r, k))
  {
    hide SysInv, SetReplica;
    var rep := s.replicas[r];
    ReplicaKnown(s, r);
    hide KnownHost;
    var tick := (rep.tick + 1) % 0x1_0000_0000;
    var task := Task(rep.pc.id, rep.pc.ip, Scanning);
    var next := Replica(if tick % SWEEP_EVERY == 0 then Requeueing(rep.pc.t) else Top, tick, rep.permits,
                        rep.tasks[k := task]);
    SizeOfUpdate(rep.tasks, k, task);
    ReplicaTo(s, r, next);
  }

  lemma SizeOfUpdate(tasks: map<int, Task>, k: int, task: Task)
    ensures |tasks[k := task]| == |tasks| + if k in tasks then 0 else 1
    ensures k in tasks ==> |tasks - {k}| == |tasks| - 1
  {
    assert tasks[k := task].Keys == tasks.Keys + {k};
    assert (tasks - {k}).Keys == tasks.Keys - {k};
    assert |tasks| == |tasks.Keys| && |tasks[k := task]| == |tasks[k := task].Keys|;
    assert |tasks - {k}| == |(tasks - {k}).Keys|;
  }

  lemma PcMoves(s: Sys, r: int, pc: Pc)
    requires SysInv(s) && r in s.replicas && PcOk(s, pc)
    requires !s.replicas[r].pc.Spawning? && !pc.Spawning? && !pc.Counting?
    ensures SysInv(SetPc(s, r, pc))
  {
    hide SysInv;
    ReplicaKnown(s, r);
    ReplicaTo(s, r, s.replicas[r].(pc := pc));
  }

  lemma AcquireMoves(s: Sys, r: int)
    requires SysInv(s) && CanHappen(s, Acquire(r))
    ensures SysInv(Next(s, Acquire(r)))
  {
    hide SysInv;
    var rep := s.replicas[r];
    ReplicaKnown(s, r);
    ReplicaTo(s, r, rep.(pc := Spawning(rep.pc.t, rep.pc.id, rep.pc.ip), permits := rep.permits - 1));
  }

  /** Either statement of a sweep, with the time its loop read. */
  lemma SweepMoves(s: Sys, r: int, e: Event<string>, reply: Reply, pc: Pc)
    requires SysInv(s) && r in s.replicas && !s.replicas[r].pc.Spawning?
    requires Enabled(s.hosts, e) && (e.Requeue? || (e.Drop? && e.maxAttempts == MAX_ATTEMPTS))
    requires pc.Top? || (pc.Dropping? && pc.t <= s.hosts.clock)
    ensures SysInv(SetPc(OnHosts(s, e, reply), r, pc))
  {
    hide SysInv;
    if reply != Refused {
      HostsMove(s, e);
    }
    PcMoves(OnHosts(s, e, reply), r, pc);
  }

  lemma LoopMoves(s: Sys, e: SysEvent)
    requires SysInv(s) && CanHappen(s, e)
    requires e.ReadClock? || e.Acquire? || e.RequeueHosts? || e.DropHosts?
    ensures SysInv(Next(s, e))
  {
    hide SysInv, SetPc, OnHosts;
    ReplicaKnown(s, e.r);
    match e
    case ReadClock(r) => PcMoves(s, r, Claiming(s.hosts.clock));
    case Acquire(r) => AcquireMoves(s, r);
    case RequeueHosts(r, reply) =>
      var t := s.replicas[r].pc.t;
      SweepMoves(s, r, Requeue(t, MAX_ATTEMPTS), reply, if reply == Done then Dropping(t) else Top);
    case DropHosts(r, reply) =>
      SweepMoves(s, r, Drop(s.replicas[r].pc.t, MAX_ATTEMPTS), reply, Top);
  }

  // ─── The scan tasks ───

  /** A task moves on, its replica's loop standing still. */
  lemma PhaseMoves(s: Sys, r: int, k: int, phase: Phase)
    requires SysInv(s) && HasTask(s, r, k)
    requires TaskOk(s, s.replicas[r].tasks[k].(phase := phase))
    ensures SysInv(SetPhase(s, r, k, phase))
  {
    hide SysInv, TaskOk;
    var rep := s.replicas[r];
    var task := rep.tasks[k].(phase := phase);
    ReplicaKnown(s, r);
    SizeOfUpdate(rep.tasks, k, task);
    ReplicaTo(s, r, rep.(tasks := rep.tasks[k := task]));
  }

  lemma ScanEndedMoves(s: Sys, task: Task, result: ScanResult)
    requires SysInv(s)
    ensures SysInv(ScanEnded(s, task, result))
  {
    var next := ScanEnded(s, task, result);
    hide AttemptsOk, FinishedOk, ReplicaOk, Inv;
    AttemptsSame(s, next);
    assert Grows(s, next);
    FinishedGrows(s, next);
    TablesMove(s, next);
  }

  lemma FinishScanMoves(s: Sys, r: int, k: int, result: ScanResult)
    requires SysInv(s) && CanHappen(s, FinishScan(r, k, result))
    ensures SysInv(AfterFinishScan(s, r, k, result))
  {
    hide SysInv;
    var task := s.replicas[r].tasks[k];
    ScanEndedMoves(s, task, result);
    var next := ScanEnded(s, task, result);
    ReplicaKnown(next, r);
    PhaseMoves(next, r, k, if Trap(s, result) then Marking(s.nextScan, result) else Inserting(s.nextScan, result, 0));
  }

  lemma OfferMoves(s: Sys, scan: int, p: ProbeKey, reply: Reply)
    requires SysInv(s)
    ensures SysInv(Offered(s, scan, p, reply)) && Handed(Offered(s, scan, p, reply), scan, p)
    ensures Offered(s, scan, p, reply).replicas == s.replicas
  {
    var next := Offered(s, scan, p, reply);
    if reply == Refused {
      hide AttemptsOk, FinishedOk, ReplicaOk, Inv;
      AttemptsSame(s, next);
      assert Grows(s, next);
      FinishedGrows(s, next);
      TablesMove(s, next);
    } else {
      ProbesMove(s, Insert(p), next.offered, next.failed);
      OfferIsOfRow(s, scan, p, reply);
      assert Offer(scan, Holder(next.probes.rows, p)) in next.offered;
    }
  }

  /** An insert that ran leaves its offer to a row that is in the probe queue and holds the key. */
  lemma OfferIsOfRow(s: Sys, scan: int, p: ProbeKey, reply: Reply)
    requires SysInv(s) && reply != Refused
    ensures var t := Offered(s, scan, p, reply);
      && HasKey(t.probes.rows, p)
      && var row := Holder(t.probes.rows, p);
         row in t.probes.keyOf && t.probes.keyOf[row] == p && t.offered == s.offered + {Offer(scan, row)}
  {
    InsertLeavesRow(s.probes, p);
    StepKeeps(s.probes, Insert(p));
    hide AttemptsOk, FinishedOk, ReplicaOk, LeasesCovered, GrantsSpaced;
  }

  lemma InsertedTaskOk(s: Sys, task: Task)
    requires TaskOk(s, task) && task.phase.Inserting? && task.phase.done < |PortsOf(task.phase.result)|
    requires Handed(s, task.phase.scan, ToProbe(PortsOf(task.phase.result)[task.phase.done]))
    ensures TaskOk(s, task.(phase := Inserting(task.phase.scan, task.phase.result, task.phase.done + 1)))
  {
    hide Handed;
  }

  lemma InsertMoves(s: Sys, r: int, k: int, reply: Reply)
    requires SysInv(s) && CanHappen(s, InsertProbe(r, k, reply))
    ensures SysInv(AfterInsertProbe(s, r, k, reply))
  {
    hide SysInv, TaskOk, Offered, SetPhase;
    var Inserting(scan, result, done) := s.replicas[r].tasks[k].phase;
    var p := ToProbe(PortsOf(result)[done]);
    OfferMoves(s, scan, p, reply);
    var next := Offered(s, scan, p, reply);
    ReplicaKnown(next, r);
    InsertedTaskOk(next, next.replicas[r].tasks[k]);
    PhaseMoves(next, r, k, Inserting(scan, result, done + 1));
  }

  lemma SettledParts(s: Sys, task: Task, reply: Reply)
    requires SysInv(s) && ReadyToComplete(task)
    ensures var t := Settled(s, task, reply);
      && Grows(s, t)
      && t.hosts.completed == t.scanned.Keys + t.traps.Keys && t.scanned.Keys !! t.traps.Keys
  {
    StepGrows(s.hosts, Complete(task.id));
    hide AttemptsOk, NumbersOk, ClaimsApart, ReplicaOk, ScannedOk, TrapOk, PortsOf, LeasesCovered, GrantsSpaced, CutsKnown;
  }

  lemma SettledFinished(s: Sys, task: Task, reply: Reply)
    requires SysInv(s) && TaskOk(s, task) && ReadyToComplete(task)
    ensures Grows(s, Settled(s, task, reply)) && FinishedOk(Settled(s, task, reply))
  {
    var t := Settled(s, task, reply);
    SettledParts(s, task, reply);
    if reply != Refused && task.id in s.hosts.rows {
      SettledScan(s, task, reply);
    }
    hide Grows, Step, Inv, AttemptsOk, ClaimsApart, ReplicaOk, NumbersOk, ScannedOk, TrapOk;
    forall id | id in t.scanned ensures ScannedOk(t, id) {
      if id in s.scanned && t.scanned[id] == s.scanned[id] {
        ScannedGrows(s, t, id);
      }
    }
    forall id | id in t.traps ensures TrapOk(t, id) {
      if id in s.traps && t.traps[id] == s.traps[id] {
        TrapGrows(s, t, id);
      }
    }
  }

  /** The scan a task completes its row on is in order. */
  lemma SettledScan(s: Sys, task: Task, reply: Reply)
    requires SysInv(s) && TaskOk(s, task) && ReadyToComplete(task)
    requires reply != Refused && task.id in s.hosts.rows
    ensures var t := Settled(s, task, reply);
      if task.phase.Inserting? then ScannedOk(t, task.id) else TrapOk(t, task.id)
  {
    var t := Settled(s, task, reply);
    SettledParts(s, task, reply);
    TaskGrows(s, t, task);
    assert t.hosts.keyOf == s.hosts.keyOf;
    hide Grows, Handed, Step, SysInv;
  }

  lemma SettleMoves(s: Sys, task: Task, reply: Reply)
    requires SysInv(s) && TaskOk(s, task) && ReadyToComplete(task)
    ensures SysInv(Settled(s, task, reply)) && Settled(s, task, reply).replicas == s.replicas
  {
    var t := Settled(s, task, reply);
    SettledFinished(s, task, reply);
    if reply == Refused {
      AttemptsSame(s, t);
    } else {
      StepKeeps(s.hosts, Complete(task.id));
      AttemptsKept(s, Complete(task.id), t);
    }
    TablesMove(s, t);
  }

  lemma CompleteMoves(s: Sys, r: int, k: int, reply: Reply)
    requires SysInv(s) && CanHappen(s, CompleteHost(r, k, reply))
    ensures SysInv(AfterCompleteHost(s, r, k, reply))
  {
    var task := s.replicas[r].tasks[k];
    hide SysInv, Step, TaskOk, Settled, AfterPanic;
    ReplicaKnown(s, r);
    SettleMoves(s, task, reply);
    PanicMoves(Settled(s, task, reply), r, k);
  }

  lemma PanicMoves(s: Sys, r: int, k: int)
    requires SysInv(s) && HasTask(s, r, k)
    ensures SysInv(AfterPanic(s, r, k))
  {
    hide SysInv, TaskOk;
    var rep := s.replicas[r];
    ReplicaKnown(s, r);
    SizeOfUpdate(rep.tasks, k, rep.tasks[k]);
    ReplicaTo(s, r, rep.(permits := rep.permits + 1, tasks := rep.tasks - {k}));
  }

  // ─── Every run ───

  lemma FreshMoves(s: Sys, r: int)
    requires SysInv(s)
    ensures SysInv(SetReplica(s, r, FRESH))
  {
    assert ReplicaOk(s, FRESH);
    ReplicaMoves(s, r, FRESH);
  }

  /** Any step, by any replica or by a crash, keeps everything. */
  lemma NextKeeps(s: Sys, e: SysEvent)
    requires SysInv(s) && CanHappen(s, e)
    ensures SysInv(Next(s, e))
  {
    hide SysInv, Step, SetPhase, SetReplica;
    match e
    case Pass(elapsed) => ClockMoves(s, elapsed);
    case Discover(ip) => HostsMove(s, Insert(ip));
    case OtherProbe(pe) => ProbesMove(s, pe, s.offered, s.failed);
    case Start(r) => FreshMoves(s, r);
    case Crash(r) => FreshMoves(s, r);
    case ClaimHost(r, reply, locked) => ClaimMoves(s, r, reply, locked);
    case CountAttempt(r, reply) => CountMoves(s, r, reply);
    case Spawn(r, k) => SpawnMoves(s, r, k);
    case FinishScan(r, k, result) => FinishScanMoves(s, r, k, result);
    case InsertProbe(r, k, reply) => InsertMoves(s, r, k, reply);
    case MarkTrap(r, k) => MarkMoves(s, r, k);
    case CompleteHost(r, k, reply) => CompleteMoves(s, r, k, reply);
    case Panic(r, k) => PanicMoves(s, r, k);
    case _ => LoopMoves(s, e);
  }

  lemma MarkMoves(s: Sys, r: int, k: int)
    requires SysInv(s) && CanHappen(s, MarkTrap(r, k))
    ensures SysInv(Next(s, MarkTrap(r, k)))
  {
    hide SysInv;
    ReplicaKnown(s, r);
    var phase := s.replicas[r].tasks[k].phase;
    PhaseMoves(s, r, k, Removing(phase.scan, phase.result));
  }

  lemma {:induction false} ReachedKeeps(s: Sys, es: seq<SysEvent>)
    requires SysInv(s) && Happens(s, es)
    ensures SysInv(Reached(s, es))
    decreases |es|
  {
    hide SysInv;
    if es != [] {
      NextKeeps(s, es[0]);
      ReachedKeeps(Next(s, es[0]), es[1..]);
    }
  }

  lemma BeginOk(threshold: nat, clock: int)
    ensures SysInv(Begin(threshold, clock))
  {
    InitInv<string>(clock);
    InitInv<ProbeKey>(clock);
  }

  // ─── The hand-off ───

  /** The scan the row was completed on. */
  function ScanFor(s: Sys, id: int): int
    requires FinishedOk(s) && id in s.hosts.completed
  {
    if id in s.traps then s.traps[id] else s.scanned[id]
  }

  lemma {:induction false} ReachedSnoc(s: Sys, es: seq<SysEvent>)
    requires Happens(s, es) && es != []
    ensures var n := |es| - 1;
      && Happens(s, es[..n]) && CanHappen(Reached(s, es[..n]), es[n])
      && Reached(s, es) == Next(Reached(s, es[..n]), es[n])
    decreases |es|
  {
    var n := |es| - 1;
    if n > 0 {
      ReachedSnoc(Next(s, es[0]), es[1..]);
      assert es[1..][..n - 1] == es[..n][1..];
      assert es[..n][0] == es[0] && es[1..][n - 1] == es[n];
    } else {
      assert es[..0] == [] && es[1..] == [];
    }
  }

  /** After the first `k` steps the scan had ended and the row was in the probe queue, with that key. */
  ghost predicate InQueue(s: Sys, es: seq<SysEvent>, k: nat, scan: int, row: int, p: ProbeKey) {
    && k <= |es| && Happens(s, es[..k])
    && var m := Reached(s, es[..k]);
       scan in m.scans && row in m.probes.rows && m.probes.rows[row].key == p
  }

  /** The step after the first `k` inserted that key for that scan, and reported an error. */
  ghost predicate ErrorAt(s: Sys, es: seq<SysEvent>, k: nat, scan: int, p: ProbeKey) {
    && k < |es| && Happens(s, es[..k])
    && var m := Reached(s, es[..k]);
       CanHappen(m, es[k]) && es[k].InsertProbe? && es[k].reply != Done
       && var phase := m.replicas[es[k].r].tasks[es[k].k].phase;
          phase.scan == scan && ToProbe(PortsOf(phase.result)[phase.done]) == p
  }

  /** What one step adds to the offers and refusals. */
  lemma LoopOffers(s: Sys, e: SysEvent)
    requires CanHappen(s, e)
    requires !e.FinishScan? && !e.InsertProbe? && !e.MarkTrap? && !e.CompleteHost? && !e.Panic?
    ensures Next(s, e).offered == s.offered && Next(s, e).failed == s.failed
  {
    hide Step, AfterClaimHost, AfterCountAttempt, AfterSpawn;
    match e
    case ClaimHost(r, reply, locked) => ClaimOffers(s, r, reply, locked);
    case CountAttempt(r, reply) => CountOffers(s, r, reply);
    case Spawn(r, k) => SpawnOffers(s, r, k);
    case _ =>
  }

  lemma ClaimOffers(s: Sys, r: int, reply: Reply, locked: set<int>)
    requires r in s.replicas && s.replicas[r].pc.Claiming?
    ensures var t := AfterClaimHost(s, r, reply, locked);
      t.offered == s.offered && t.failed == s.failed && t.probes == s.probes
  {
    hide Step, ClaimIds, GrantsOf, OnHosts;
    OnHostsKeeps(s, Claim(s.replicas[r].pc.t, 1, locked), reply);
  }

  lemma CountOffers(s: Sys, r: int, reply: Reply)
    requires r in s.replicas && s.replicas[r].pc.Counting?
    ensures var t := AfterCountAttempt(s, r, reply);
      t.offered == s.offered && t.failed == s.failed && t.probes == s.probes
  {
    hide Step, CountedOf;
  }

  lemma SpawnOffers(s: Sys, r: int, k: int)
    requires r in s.replicas && s.replicas[r].pc.Spawning?
    ensures var t := AfterSpawn(s, r, k);
      t.offered == s.offered && t.failed == s.failed && t.probes == s.probes
  {
  }

  lemma StepOffers(s: Sys, e: SysEvent)
    requires CanHappen(s, e)
    ensures !e.InsertProbe? ==> Next(s, e).offered == s.offered && Next(s, e).failed == s.failed
    ensures e.InsertProbe? ==>
      var phase := s.replicas[e.r].tasks[e.k].phase;
      Next(s, e) == SetPhase(Offered(s, phase.scan, ToProbe(PortsOf(phase.result)[phase.done]), e.reply), e.r, e.k,
                             Inserting(phase.scan, phase.result, phase.done + 1))
  {
    hide Step, Trap, PortsOf, ToProbe, Offered, AfterClaimHost, AfterCountAttempt, AfterSpawn, SetPc, OnHosts;
    match e
    case FinishScan(_, _, _) =>
    case InsertProbe(_, _, _) =>
    case MarkTrap(_, _) =>
    case CompleteHost(r, k, reply) => SettledOffers(s, s.replicas[r].tasks[k], reply);
    case Panic(_, _) =>
    case _ => LoopOffers(s, e);
  }

  lemma SettledOffers(s: Sys, task: Task, reply: Reply)
    ensures var t := Settled(s, task, reply);
      t.offered == s.offered && t.failed == s.failed && t.probes == s.probes && t.replicas == s.replicas
  {
    hide Step;
  }

  lemma NewOffer(s: Sys, e: SysEvent, o: Offer)
    requires SysInv(s) && CanHappen(s, e) && o in Next(s, e).offered && o !in s.offered
    ensures var t := Next(s, e);
      o.scan in t.scans && o.row in t.probes.rows && o.row in t.probes.keyOf
      && t.probes.rows[o.row].key == t.probes.keyOf[o.row]
  {
    StepOffers(s, e);
    NextKeeps(s, e);
    var phase := s.replicas[e.r].tasks[e.k].phase;
    ReplicaKnown(s, e.r);
    if e.reply != Refused {
      OfferIsOfRow(s, phase.scan, ToProbe(PortsOf(phase.result)[phase.done]), e.reply);
    }
    hide Step, AttemptsOk, FinishedOk, ReplicaOk, LeasesCovered, GrantsSpaced, HandedUpto, PortsOf, ToProbe;
  }

  /** Every offer was made to a row that was in the probe queue then, after its scan had ended. */
  lemma {:induction false} OfferWitness(s: Sys, es: seq<SysEvent>, o: Offer) returns (k: nat)
    requires SysInv(s) && Happens(s, es) && s.offered == {} && o in Reached(s, es).offered
    ensures o.row in Reached(s, es).probes.keyOf
    ensures InQueue(s, es, k, o.scan, o.row, Reached(s, es).probes.keyOf[o.row])
    decreases |es|
  {
    hide SysInv, Next, CanHappen;
    k := 0;
    if es != [] {
      var n := |es| - 1;
      var before := es[..n];
      ReachedSnoc(s, es);
      ReachedKeeps(s, before);
      if o in Reached(s, before).offered {
        k := OfferWitness(s, before, o);
        NextGrows(Reached(s, before), es[n]);
        assert before[..k] == es[..k];
      } else {
        NewOffer(Reached(s, before), es[n], o);
        k := |es|;
        assert es[..k] == es;
      }
    }
  }

  lemma NextGrows(s: Sys, e: SysEvent)
    requires SysInv(s) && CanHappen(s, e)
    ensures forall n :: n in s.probes.keyOf ==>
      n in Next(s, e).probes.keyOf && Next(s, e).probes.keyOf[n] == s.probes.keyOf[n]
  {
    ProbesStep(s, e);
    match e
    case Pass(elapsed) => StepGrows(s.probes, Tick(elapsed));
    case OtherProbe(pe) => StepGrows(s.probes, pe);
    case InsertProbe(r, k, reply) =>
      var phase := s.replicas[r].tasks[k].phase;
      StepGrows(s.probes, Insert(ToProbe(PortsOf(phase.result)[phase.done])));
    case _ =>
  }

  /** What a step does to the probe queue. */
  lemma ProbesStep(s: Sys, e: SysEvent)
    requires CanHappen(s, e)
    ensures Next(s, e).probes ==
      match e
      case Pass(elapsed) => Step(s.probes, Tick(elapsed))
      case OtherProbe(pe) => Step(s.probes, pe)
      case InsertProbe(r, k, reply) =>
        var phase := s.replicas[r].tasks[k].phase;
        if reply == Refused then s.probes
        else Step(s.probes, Insert(ToProbe(PortsOf(phase.result)[phase.done])))
      case _ => s.probes
  {
    hide Step, Trap, PortsOf, ToProbe, AfterClaimHost, AfterCountAttempt, AfterSpawn, HasKey, Holder, Settled;
    match e
    case CompleteHost(r, k, reply) => SettledOffers(s, s.replicas[r].tasks[k], reply);
    case ClaimHost(r, reply, locked) => ClaimOffers(s, r, reply, locked);
    case CountAttempt(r, reply) => CountOffers(s, r, reply);
    case Spawn(r, k) => SpawnOffers(s, r, k);
    case _ =>
  }

  lemma {:induction false} ErrorWitness(s: Sys, es: seq<SysEvent>, f: Refusal) returns (k: nat)
    requires SysInv(s) && Happens(s, es) && s.failed == {} && f in Reached(s, es).failed
    ensures ErrorAt(s, es, k, f.scan, f.key)
    decreases |es|
  {
    hide SysInv, Step, Next, PortsOf, ToProbe;
    k := 0;
    if es != [] {
      var n := |es| - 1;
      var before := es[..n];
      ReachedSnoc(s, es);
      ReachedKeeps(s, before);
      if f in Reached(s, before).failed {
        k := ErrorWitness(s, before, f);
        assert before[..k] == es[..k] && before[k] == es[k];
      } else {
        k := n;
        NewRefusal(Reached(s, before), es[n], f);
      }
    }
  }

  lemma NewRefusal(s: Sys, e: SysEvent, f: Refusal)
    requires SysInv(s) && CanHappen(s, e) && f in Next(s, e).failed && f !in s.failed
    ensures e.InsertProbe? && e.reply != Done
    ensures var phase := s.replicas[e.r].tasks[e.k].phase;
      phase.scan == f.scan && ToProbe(PortsOf(phase.result)[phase.done]) == f.key
  {
    StepOffers(s, e);
    hide SysInv, Step, Next, PortsOf, ToProbe;
  }

  lemma ReachedFinished(threshold: nat, clock: int, es: seq<SysEvent>)
    requires Happens(Begin(threshold, clock), es)
    ensures FinishedOk(Reached(Begin(threshold, clock), es))
    ensures Reached(Begin(threshold, clock), es).threshold == threshold
  {
    BeginOk(threshold, clock);
    ReachedKeeps(Begin(threshold, clock), es);
    ThresholdStays(Begin(threshold, clock), es);
  }

  /**
   The port was handed on for the scan: at some moment after the scan had ended
   its key was in the probe queue, or an insert made for the scan reported an error.
   */
  ghost predicate HandedOn(s: Sys, es: seq<SysEvent>, scan: int, p: ProbeKey) {
    || (exists k: nat, row :: InQueue(s, es, k, scan, row, p))
    || (exists k: nat :: ErrorAt(s, es, k, scan, p))
  }

  lemma HandedWasOn(threshold: nat, clock: int, es: seq<SysEvent>, scan: int, p: ProbeKey)
    requires Happens(Begin(threshold, clock), es) && Handed(Reached(Begin(threshold, clock), es), scan, p)
    ensures HandedOn(Begin(threshold, clock), es, scan, p)
  {
    var b := Begin(threshold, clock);
    var s := Reached(b, es);
    BeginOk(threshold, clock);
    hide Reached, Happens, SysInv;
    if Refusal(scan, p) in s.failed {
      var k := ErrorWitness(b, es, Refusal(scan, p));
    } else {
      var o :| o in s.offered && o.scan == scan && o.row in s.probes.keyOf && s.probes.keyOf[o.row] == p;
      var k := OfferWitness(b, es, o);
    }
  }

  /**
   The hand-off, over every interleaving with crashes, lost replies and zombie
   tasks, however often a host is scanned. A host row removed by `complete` was
   completed on a scan of that very row. It was taken for a honeypot exactly when
   the result had more ports than the threshold. If not, a row of the address and
   number of each port was in the probe queue at some moment after that scan (or
   its insert for that scan reported an error). A failed scan counts as one without ports, so the rows
   whose host was scanned are exactly those whose result is not `Failed`, and
   every honeypot is one of them.
   */
  lemma HandOff(threshold: nat, clock: int, es: seq<SysEvent>, id: int)
    requires Happens(Begin(threshold, clock), es)
    requires id in Reached(Begin(threshold, clock), es).hosts.completed
    ensures FinishedOk(Reached(Begin(threshold, clock), es))
    ensures var s := Reached(Begin(threshold, clock), es);
      var scan := ScanFor(s, id);
      && ScanOf(s, scan, id)
      && var result := s.scans[scan].result;
         && (id in s.traps <==> result.Ports? && |result.ports| % 0x1_0000_0000 > threshold)
         && (id !in s.traps && result.Ports? ==> forall j :: 0 <= j < |result.ports| ==>
               HandedOn(Begin(threshold, clock), es, scan, ProbeKey(result.ports[j].ip, result.ports[j].port, "tcp")))
  {
    hide Reached, Happens, Handed, HandedOn;
    ReachedFinished(threshold, clock, es);
    var s := Reached(Begin(threshold, clock), es);
    if id in s.traps {
      assert TrapOk(s, id);
    } else {
      assert ScannedOk(s, id);
      var scan := s.scanned[id];
      var result := s.scans[scan].result;
      forall j | 0 <= j < |PortsOf(result)|
        ensures HandedOn(Begin(threshold, clock), es, scan, ToProbe(PortsOf(result)[j]))
      {
        HandedWasOn(threshold, clock, es, scan, ToProbe(PortsOf(result)[j]));
      }
    }
  }

  lemma {:induction false} KeyStays(s: Sys, es: seq<SysEvent>, j: nat, k: nat, row: int)
    requires j <= k <= |es| && SysInv(s) && Happens(s, es[..j]) && Happens(s, es[..k])
    requires row in Reached(s, es[..j]).probes.keyOf
    ensures row in Reached(s, es[..k]).probes.keyOf
    ensures Reached(s, es[..k]).probes.keyOf[row] == Reached(s, es[..j]).probes.keyOf[row]
    decreases k
  {
    hide SysInv, Next;
    if j < k {
      var n := k - 1;
      assert es[..k][..n] == es[..n];
      ReachedSnoc(s, es[..k]);
      KeyStays(s, es, j, n, row);
      ReachedKeeps(s, es[..n]);
      NextGrows(Reached(s, es[..n]), es[n]);
    }
  }

  lemma QueuedKey(s: Sys, es: seq<SysEvent>, k: nat, scan: int, row: int, p: ProbeKey)
    requires SysInv(s) && InQueue(s, es, k, scan, row, p)
    ensures row in Reached(s, es[..k]).probes.keyOf && Reached(s, es[..k]).probes.keyOf[row] == p
  {
    ReachedKeeps(s, es[..k]);
    hide Reached, Happens, ReplicaOk, AttemptsOk, FinishedOk, ClaimsApart;
  }

  /** Two open ports that differ never share a row: the rows their inserts left, at whatever moments, differ. */
  lemma PortsApart(threshold: nat, clock: int, es: seq<SysEvent>, a: OpenPort, b: OpenPort,
                   j: nat, k: nat, scan: int, other: int, row: int, next: int)
    requires a != b
    requires InQueue(Begin(threshold, clock), es, j, scan, row, ProbeKey(a.ip, a.port, "tcp"))
    requires InQueue(Begin(threshold, clock), es, k, other, next, ProbeKey(b.ip, b.port, "tcp"))
    ensures row != next
  {
    var s := Begin(threshold, clock);
    BeginOk(threshold, clock);
    QueuedKey(s, es, j, scan, row, ProbeKey(a.ip, a.port, "tcp"));
    QueuedKey(s, es, k, other, next, ProbeKey(b.ip, b.port, "tcp"));
    hide SysInv, Reached, Happens;
    if row == next {
      if j <= k {
        KeyStays(s, es, j, k, row);
      } else {
        KeyStays(s, es, k, j, row);
      }
    }
  }

  lemma {:induction false} ThresholdStays(s: Sys, es: seq<SysEvent>)
    requires Happens(s, es)
    ensures Reached(s, es).threshold == s.threshold
    decreases |es|
  {
    if es != [] {
      assert Next(s, es[0]).threshold == s.threshold by { ThresholdStep(s, es[0]); }
      hide Next, CanHappen;
      ThresholdStays(Next(s, es[0]), es[1..]);
    }
  }

  lemma ThresholdStep(s: Sys, e: SysEvent)
    requires CanHappen(s, e)
    ensures Next(s, e).threshold == s.threshold
  {
    hide Step, Trap, PortsOf;
  }

  /**
   A failed scan loses its host: from any state, when it ends and the row is
   completed, the row is gone and the probe queue is as it was. Only the history
   tells it from a scan without open ports.
   */
  lemma FailedScanLoses(s: Sys, r: int, k: int, result: ScanResult)
    requires SysInv(s) && CanHappen(s, FinishScan(r, k, result)) && PortsOf(result) == []
    requires s.replicas[r].tasks[k].id in s.hosts.rows
    ensures var id := s.replicas[r].tasks[k].id;
      var u := Next(s, FinishScan(r, k, result));
      && CanHappen(u, CompleteHost(r, k, Done))
      && var t := Next(u, CompleteHost(r, k, Done));
         && id in t.hosts.completed && id !in t.hosts.rows && t.probes == s.probes
         && id in t.scanned && t.scanned[id] in t.scans && t.scans[t.scanned[id]].result == result
  {
    hide SysInv;
    assert !Trap(s, result);
  }

  /**
   A claim whose reply comes takes at most one row, and the replica holds that
   row from then on: no row is claimed and forgotten but by a lost reply.
   */
  lemma ClaimHeld(s: Sys, r: int, locked: set<int>, id: int)
    requires r in s.replicas && s.replicas[r].pc.Claiming?
    requires id in ClaimIds(s, s.replicas[r].pc.t, locked)
    ensures ClaimIds(s, s.replicas[r].pc.t, locked) == [id] && id in s.hosts.rows
    ensures var t := AfterClaimHost(s, r, Done, locked);
      && t.replicas[r].pc.Counting? && t.replicas[r].pc.id == id && t.replicas[r].pc.ip == s.hosts.rows[id].key
      && id in t.hosts.rows && t.hosts.rows[id].claimedUntil.Some?
      && t.hosts.rows[id].claimedUntil.value == s.replicas[r].pc.t + 300
  {
    var t := s.replicas[r].pc.t;
    hide Picked, Claimable, GrantsOf, Step, OnHosts;
    ClaimIsOne(s.hosts, locked, t, id);
    MarkedAhead(s.hosts, locked, t, id);
    OnHostsKeeps(s, Claim(t, 1, locked), Done);
  }

  lemma OnHostsKeeps(s: Sys, e: Event<string>, reply: Reply)
    ensures var t := OnHosts(s, e, reply);
      && t.replicas == s.replicas && t.probes == s.probes && t.offered == s.offered && t.failed == s.failed
      && (reply != Refused ==> t.hosts == Step(s.hosts, e))
  {
    hide Step;
  }

  lemma ClaimIsOne(hosts: State<string>, locked: set<int>, t: int, id: int)
    requires id in Picked(hosts.rows, locked, 1, t)
    ensures Picked(hosts.rows, locked, 1, t) == [id] && id in hosts.rows
  {
    PickedClaimable(hosts.rows, locked, 1, t);
    hide Picked;
  }

  lemma MarkedAhead(hosts: State<string>, locked: set<int>, t: int, id: int)
    requires id in Picked(hosts.rows, locked, 1, t) && id in hosts.rows
    ensures var rows := Step(hosts, Claim(t, 1, locked)).rows;
      id in rows && rows[id].claimedUntil.Some? && rows[id].claimedUntil.value == t + 300
  {
    hide Picked, GrantsOf;
  }

  /** Counting an attempt adds one to the row's attempts, if the row is there and the statement runs, and no more. */
  lemma CountAdds(s: Sys, r: int, reply: Reply)
    requires r in s.replicas && s.replicas[r].pc.Counting?
    ensures var id := s.replicas[r].pc.id;
      var rows := AfterCountAttempt(s, r, reply).hosts.rows;
      && rows.Keys == s.hosts.rows.Keys
      && forall i :: i in rows ==>
           rows[i] == if i == id && reply != Refused then s.hosts.rows[i].(attempts := s.hosts.rows[i].attempts + 1)
                      else s.hosts.rows[i]
  {
    var e := Increment(s.replicas[r].pc.id);
    OnHostsKeeps(s, e, reply);
    hide OnHosts, CountedOf;
  }

  /** Overdue by the time the loop read. */
  predicate Overdue(row: Row<string>, t: int) {
    row.claimedUntil.Some? && row.claimedUntil.value < t
  }

  /** The first statement of a sweep frees the rows overdue by the time its loop read, of less than three attempts. */
  lemma RequeueFrees(s: Sys, r: int, reply: Reply, id: int)
    requires CanHappen(s, RequeueHosts(r, reply)) && id in s.hosts.rows && reply != Refused
    ensures var rows := Next(s, RequeueHosts(r, reply)).hosts.rows;
      && id in rows
      && rows[id] == if Overdue(s.hosts.rows[id], s.replicas[r].pc.t) && s.hosts.rows[id].attempts < 3
                     then Row(s.hosts.rows[id].key, s.hosts.rows[id].attempts, None) else s.hosts.rows[id]
  {
    var e := Requeue(s.replicas[r].pc.t, MAX_ATTEMPTS);
    SweepMeans(s.hosts.rows, MAX_ATTEMPTS, s.replicas[r].pc.t, id);
    OnHostsKeeps(s, e, reply);
    hide OnHosts, AfterRequeue;
  }

  /** The second drops the others that are overdue. */
  lemma DropTakes(s: Sys, r: int, reply: Reply, id: int)
    requires CanHappen(s, DropHosts(r, reply)) && id in s.hosts.rows && reply != Refused
    ensures var hosts := Next(s, DropHosts(r, reply)).hosts;
      if Overdue(s.hosts.rows[id], s.replicas[r].pc.t) && s.hosts.rows[id].attempts >= 3
      then id !in hosts.rows && id in hosts.dropped
      else id in hosts.rows && hosts.rows[id] == s.hosts.rows[id]
  {
    var e := Drop(s.replicas[r].pc.t, MAX_ATTEMPTS);
    SweepMeans(s.hosts.rows, MAX_ATTEMPTS, s.replicas[r].pc.t, id);
    OnHostsKeeps(s, e, reply);
    hide OnHosts, Poisoned;
  }

  /** How many scans a replica has spawned in a run. */
  function Spawns(es: seq<SysEvent>, r: int): nat {
    if es == [] then 0 else (if es[0].Spawn? && es[0].r == r then 1 else 0) + Spawns(es[1..], r)
  }

  predicate NeverRestarts(es: seq<SysEvent>, r: int) {
    forall i :: 0 <= i < |es| ==> es[i] != Crash(r) && es[i] != Start(r)
  }

  /** The replica and its count are still there. */
  predicate SameTick(s: Sys, t: Sys, r: int) {
    r in s.replicas && r in t.replicas && t.replicas[r].tick == s.replicas[r].tick
  }

  lemma LoopTick(s: Sys, e: SysEvent, r: int)
    requires CanHappen(s, e) && r in s.replicas
    requires e.ReadClock? || e.Acquire? || e.RequeueHosts? || e.DropHosts? || e.ClaimHost? || e.CountAttempt?
    ensures SameTick(s, Next(s, e), r)
  {
    hide Step, Picked, GrantsOf, CountedOf, OnHosts;
    match e
    case ClaimHost(q, reply, locked) => OnHostsKeeps(s, Claim(s.replicas[q].pc.t, 1, locked), reply);
    case CountAttempt(q, reply) => OnHostsKeeps(s, Increment(s.replicas[q].pc.id), reply);
    case RequeueHosts(q, reply) => OnHostsKeeps(s, Requeue(s.replicas[q].pc.t, MAX_ATTEMPTS), reply);
    case DropHosts(q, reply) => OnHostsKeeps(s, Drop(s.replicas[q].pc.t, MAX_ATTEMPTS), reply);
    case _ =>
  }

  lemma TaskTick(s: Sys, e: SysEvent, r: int)
    requires CanHappen(s, e) && r in s.replicas
    requires e.FinishScan? || e.InsertProbe? || e.MarkTrap? || e.CompleteHost? || e.Panic?
    ensures SameTick(s, Next(s, e), r)
  {
    hide Step, Trap, PortsOf, ToProbe, Settled, Offered;
    match e
    case CompleteHost(q, k, reply) => SettledOffers(s, s.replicas[q].tasks[k], reply);
    case InsertProbe(q, k, reply) =>
      var Inserting(scan, result, done) := s.replicas[q].tasks[k].phase;
      OfferedReplicas(s, scan, ToProbe(PortsOf(result)[done]), reply);
    case _ =>
  }

  lemma OfferedReplicas(s: Sys, scan: int, p: ProbeKey, reply: Reply)
    ensures Offered(s, scan, p, reply).replicas == s.replicas
  {
    hide Step, HasKey, Holder;
  }

  lemma TickStep(s: Sys, e: SysEvent, r: int)
    requires CanHappen(s, e) && r in s.replicas && e != Crash(r) && e != Start(r)
    ensures r in Next(s, e).replicas
    ensures Next(s, e).replicas[r].tick ==
      if e.Spawn? && e.r == r then (s.replicas[r].tick + 1) % 0x1_0000_0000 else s.replicas[r].tick
  {
    if e.ReadClock? || e.Acquire? || e.RequeueHosts? || e.DropHosts? || e.ClaimHost? || e.CountAttempt? {
      LoopTick(s, e, r);
      hide Next, CanHappen;
    } else if e.FinishScan? || e.InsertProbe? || e.MarkTrap? || e.CompleteHost? || e.Panic? {
      TaskTick(s, e, r);
      hide Next, CanHappen;
    } else {
      hide Step, AfterClaimHost, AfterCountAttempt, AfterFinishScan, AfterInsertProbe, AfterCompleteHost, AfterPanic,
           SetPhase, OnHosts;
    }
  }

  lemma {:induction false} TickCounts(s: Sys, es: seq<SysEvent>, r: int)
    requires Happens(s, es) && r in s.replicas && NeverRestarts(es, r) && s.replicas[r].tick < 0x1_0000_0000
    ensures r in Reached(s, es).replicas
    ensures Reached(s, es).replicas[r].tick == (s.replicas[r].tick + Spawns(es, r)) % 0x1_0000_0000
    decreases |es|
  {
    hide Next, CanHappen;
    if es != [] {
      assert es[0] != Crash(r) && es[0] != Start(r);
      TickStep(s, es[0], r);
      forall i | 0 <= i < |es[1..]| ensures es[1..][i] != Crash(r) && es[1..][i] != Start(r) {
        assert es[1..][i] == es[i + 1];
      }
      TickCounts(Next(s, es[0]), es[1..], r);
    }
  }

  /**
   The sweep comes due on every fiftieth scan a replica spawns since it started,
   up to the wrap-around of its 32-bit count, and on no other.
   */
  lemma SweepDue(s: Sys, es: seq<SysEvent>, r: int, k: int)
    requires Happens(s, es) && r in s.replicas && s.replicas[r] == FRESH && NeverRestarts(es, r)
    requires r in Reached(s, es).replicas && Reached(s, es).replicas[r].pc.Spawning?
    ensures AfterSpawn(Reached(s, es), r, k).replicas[r].pc.Requeueing? <==>
      (Spawns(es, r) + 1) % 0x1_0000_0000 % 50 == 0
  {
    TickCounts(s, es, r);
    SpawnPc(Reached(s, es), r, k);
    hide Reached, Happens, Spawns, AfterSpawn, CanHappen;
    WrapOnce(Spawns(es, r));
  }

  lemma WrapOnce(n: nat)
    ensures (n % 0x1_0000_0000 + 1) % 0x1_0000_0000 == (n + 1) % 0x1_0000_0000
  {
  }

  lemma SpawnPc(s: Sys, r: int, k: int)
    requires r in s.replicas && s.replicas[r].pc.Spawning?
    ensures AfterSpawn(s, r, k).replicas[r].pc.Requeueing? <==> (s.replicas[r].tick + 1) % 0x1_0000_0000 % 50 == 0
  {
  }

  // ─── A scan with nothing in its way ───

  /** A task on its way: the scan is known, and so many inserts are done. */
  predicate Underway(s: Sys, r: int, k: int, id: int, result: ScanResult, done: nat) {
    && HasTask(s, r, k) && s.replicas[r].tasks[k].id == id && id in s.hosts.rows && done <= |PortsOf(result)|
    && s.replicas[r].tasks[k].phase.Inserting? && s.replicas[r].tasks[k].phase.result == result
    && s.replicas[r].tasks[k].phase.done == done
  }

  /** The inserts that are left, and the completion. */
  function Rest(r: int, k: int, n: nat): seq<SysEvent> {
    if n == 0 then [CompleteHost(r, k, Done)] else [InsertProbe(r, k, Done)] + Rest(r, k, n - 1)
  }

  /** The first `n` open ports have a row in the probe queue. */
  predicate Queued(s: Sys, result: ScanResult, n: nat) {
    n <= |PortsOf(result)|
    && forall j :: 0 <= j < n ==>
         HasKey(s.probes.rows, ProbeKey(PortsOf(result)[j].ip, PortsOf(result)[j].port, "tcp"))
  }

  lemma InsertAddsKey<K>(s: State<K>, key: K, other: K)
    ensures HasKey(Step(s, Insert(key)).rows, key)
    ensures HasKey(s.rows, other) && s.nextId !in s.rows ==> HasKey(Step(s, Insert(key)).rows, other)
  {
    var t := Step(s, Insert(key));
    if !HasKey(s.rows, key) {
      assert t.rows[s.nextId].key == key;
    }
    if HasKey(s.rows, other) && s.nextId !in s.rows {
      var id :| id in s.rows && s.rows[id].key == other;
      assert id in t.rows && t.rows[id].key == other;
    }
  }

  lemma FreshId(s: Sys)
    requires SysInv(s)
    ensures s.probes.nextId !in s.probes.rows
  {
    assert Keyed(s.probes);
    hide Conserved, LeasesCovered, GrantsSpaced, CutsKnown, AttemptsOk, NumbersOk, FinishedOk, ClaimsApart, ReplicaOk;
  }

  lemma OfferedFields(s: Sys, scan: int, p: ProbeKey)
    ensures var t := Offered(s, scan, p, Done);
      t.hosts == s.hosts && t.replicas == s.replicas && t.probes == Step(s.probes, Insert(p))
  {
    hide Step, HasKey, Holder;
  }

  lemma OneMoreQueued(s: Sys, t: Sys, result: ScanResult, done: nat)
    requires Queued(s, result, done) && done < |PortsOf(result)| && s.probes.nextId !in s.probes.rows
    requires var port := PortsOf(result)[done]; t.probes == Step(s.probes, Insert(ProbeKey(port.ip, port.port, "tcp")))
    ensures Queued(t, result, done + 1)
  {
    hide PortsOf, Step, HasKey;
    var p := ProbeKey(PortsOf(result)[done].ip, PortsOf(result)[done].port, "tcp");
    forall j | 0 <= j < done + 1
      ensures HasKey(t.probes.rows, ProbeKey(PortsOf(result)[j].ip, PortsOf(result)[j].port, "tcp"))
    {
      InsertAddsKey(s.probes, p, ProbeKey(PortsOf(result)[j].ip, PortsOf(result)[j].port, "tcp"));
    }
  }

  lemma InsertGoesOn(s: Sys, r: int, k: int, id: int, result: ScanResult, done: nat)
    requires SysInv(s) && Underway(s, r, k, id, result, done) && Queued(s, result, done) && done < |PortsOf(result)|
    ensures CanHappen(s, InsertProbe(r, k, Done))
    ensures var t := Next(s, InsertProbe(r, k, Done)); Underway(t, r, k, id, result, done + 1) && Queued(t, result, done + 1)
  {
    FreshId(s);
    hide SysInv, PortsOf, Step, Queued;
    var port := PortsOf(result)[done];
    OfferedFields(s, s.replicas[r].tasks[k].phase.scan, ProbeKey(port.ip, port.port, "tcp"));
    OneMoreQueued(s, Next(s, InsertProbe(r, k, Done)), result, done);
  }

  lemma LastCompletes(s: Sys, r: int, k: int, id: int, result: ScanResult)
    requires Underway(s, r, k, id, result, |PortsOf(result)|)
    ensures CanHappen(s, CompleteHost(r, k, Done))
    ensures var t := Next(s, CompleteHost(r, k, Done)); id in t.hosts.completed && t.probes == s.probes
  {
    hide PortsOf, Settled;
    CompletedBy(s, s.replicas[r].tasks[k]);
  }

  lemma CompletedBy(s: Sys, task: Task)
    requires task.id in s.hosts.rows
    ensures var t := Settled(s, task, Done); task.id in t.hosts.completed && t.probes == s.probes && t.replicas == s.replicas
  {
  }

  lemma HappensThen(s: Sys, e: SysEvent, es: seq<SysEvent>)
    requires CanHappen(s, e) && Happens(Next(s, e), es)
    ensures Happens(s, [e] + es) && Reached(s, [e] + es) == Reached(Next(s, e), es)
  {
    hide CanHappen, Next;
    assert ([e] + es)[1..] == es;
  }

  lemma NothingHappens(s: Sys)
    ensures Happens(s, []) && Reached(s, []) == s
  {
  }

  lemma RestIs(r: int, k: int, n: nat)
    ensures Rest(r, k, n) == if n == 0 then [CompleteHost(r, k, Done)] + [] else [InsertProbe(r, k, Done)] + Rest(r, k, n - 1)
  {
  }

  lemma QueuedStays(s: Sys, t: Sys, result: ScanResult, n: nat)
    requires t.probes == s.probes && Queued(s, result, n)
    ensures Queued(t, result, n)
  {
  }

  lemma {:induction false} RestHappens(s: Sys, r: int, k: int, id: int, result: ScanResult, done: nat)
    requires SysInv(s) && Underway(s, r, k, id, result, done) && Queued(s, result, done) && done <= |PortsOf(result)|
    ensures Happens(s, Rest(r, k, |PortsOf(result)| - done))
    ensures id in Reached(s, Rest(r, k, |PortsOf(result)| - done)).hosts.completed
    ensures Queued(Reached(s, Rest(r, k, |PortsOf(result)| - done)), result, |PortsOf(result)|)
    decreases |PortsOf(result)| - done
  {
    hide *;
    var n := |PortsOf(result)| - done;
    RestIs(r, k, n);
    if n == 0 {
      var e := CompleteHost(r, k, Done);
      LastCompletes(s, r, k, id, result);
      NothingHappens(Next(s, e));
      HappensThen(s, e, []);
      QueuedStays(s, Next(s, e), result, done);
    } else {
      var e := InsertProbe(r, k, Done);
      InsertGoesOn(s, r, k, id, result, done);
      NextKeeps(s, e);
      RestHappens(Next(s, e), r, k, id, result, done + 1);
      HappensThen(s, e, Rest(r, k, n - 1));
    }
  }

  lemma FinishStarts(s: Sys, r: int, k: int, result: ScanResult)
    requires HasTask(s, r, k) && s.replicas[r].tasks[k].id in s.hosts.rows
    requires result.Ports? && |result.ports| % 0x1_0000_0000 <= s.threshold
    ensures var t := AfterFinishScan(s, r, k, result);
      Underway(t, r, k, s.replicas[r].tasks[k].id, result, 0) && Queued(t, result, 0)
  {
    hide HasKey;
  }

  /**
   With nothing in its way, from any state: a scan that ends with at most as many
   ports as the threshold goes on, insert by insert, until its host is completed
   and every port of it is in the probe queue.
   */
  lemma ScanHandsOn(s: Sys, r: int, k: int, result: ScanResult)
    requires SysInv(s) && HasTask(s, r, k) && s.replicas[r].tasks[k].phase.Scanning?
    requires s.replicas[r].tasks[k].id in s.hosts.rows
    requires result.Ports? && |result.ports| % 0x1_0000_0000 <= s.threshold
    ensures CanHappen(s, FinishScan(r, k, result))
    ensures Happens(AfterFinishScan(s, r, k, result), Rest(r, k, |result.ports|))
    ensures s.replicas[r].tasks[k].id in Reached(AfterFinishScan(s, r, k, result), Rest(r, k, |result.ports|)).hosts.completed
    ensures Queued(Reached(AfterFinishScan(s, r, k, result), Rest(r, k, |result.ports|)), result, |result.ports|)
  {
    FinishScanMoves(s, r, k, result);
    FinishStarts(s, r, k, result);
    hide SysInv, Happens, Reached, Underway, AfterFinishScan, Rest, Queued;
    RestHappens(AfterFinishScan(s, r, k, result), r, k, s.replicas[r].tasks[k].id, result, 0);
  }

  /** A replica never runs more scans than it has permits. */
  lemma PermitBound(threshold: nat, clock: int, es: seq<SysEvent>, r: int)
    requires Happens(Begin(threshold, clock), es)
    requires r in Reached(Begin(threshold, clock), es).replicas
    ensures |Reached(Begin(threshold, clock), es).replicas[r].tasks| <= 2
  {
    BeginOk(threshold, clock);
    ReachedKeeps(Begin(threshold, clock), es);
    var s := Reached(Begin(threshold, clock), es);
    ReplicaParts(s, s.replicas[r]);
  }

  /**
   Every host row ever dropped, by a sweep whose reply came or was lost, had been
   claimed at least three times, and went later than its first claim plus the
   lease time of all its claims (300 seconds each, less the staleness of their stamps).
   */
  lemma PoisonBound(threshold: nat, clock: int, es: seq<SysEvent>, id: int)
    requires Happens(Begin(threshold, clock), es)
    requires id in Reached(Begin(threshold, clock), es).hosts.dropped
    ensures var s := Reached(Begin(threshold, clock), es);
      var gs := GrantsOf(s.hosts, id);
      && |gs| >= 3
      && gs[0].at + Granted(gs) < s.hosts.clock
  {
    BeginOk(threshold, clock);
    ReachedKeeps(Begin(threshold, clock), es);
    var s := Reached(Begin(threshold, clock), es);
    assert DroppedOk(s.hosts, id);
  }

  /** With fresh stamps: later than 900 seconds after its first claim. */
  lemma FreshPoisonBound(threshold: nat, clock: int, es: seq<SysEvent>, id: int)
    requires Happens(Begin(threshold, clock), es)
    requires var s := Reached(Begin(threshold, clock), es);
      && id in s.hosts.dropped
      && forall i :: 0 <= i < |GrantsOf(s.hosts, id)| ==> GrantsOf(s.hosts, id)[i].stamp == GrantsOf(s.hosts, id)[i].at
    ensures var s := Reached(Begin(threshold, clock), es);
      var gs := GrantsOf(s.hosts, id);
      gs != [] && gs[0].at + 900 < s.hosts.clock
  {
    hide Reached, Happens;
    PoisonBound(threshold, clock, es, id);
    FreshGrants(GrantsOf(Reached(Begin(threshold, clock), es).hosts, id));
  }

  /** Nothing is lost: ids ever queued are present, completed or dropped, and only one of these. */
  lemma Conservation(threshold: nat, clock: int, es: seq<SysEvent>)
    requires Happens(Begin(threshold, clock), es)
    ensures Conserved(Reached(Begin(threshold, clock), es).hosts)
    ensures Conserved(Reached(Begin(threshold, clock), es).probes)
  {
    BeginOk(threshold, clock);
    ReachedKeeps(Begin(threshold, clock), es);
  }
}
