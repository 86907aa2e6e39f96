/**
 The probe stage (src/main.rs, lines 333-391, with `upsert_service` and
 `maybe_enqueue_enrichments` of src/probe/dispatch.rs) as a state machine: any
 number of replicas hand probe rows on to the services table and the enrichment
 queue. No sweep is ever run here, so a row whose worker dies is claimed again.
 */
module ProbeStage {
  import opened Text
  import opened LeaseTable
  import opened Stages

  const BATCH: nat := 10

  datatype EnrichKey = EnrichKey(service: int, kind: string)

  /** What a probe found, as far as the hand-off looks at it. */
  datatype Found = Found(kind: string, http: bool, rtsp: bool, tags: seq<string>)

  /** The enrichments a service asks for, in the order they are queued (dispatch.rs, lines 207-216). */
  function Wants(found: Found): seq<string> {
    (if found.http then ["favicon"] else [])
    + (if found.rtsp then ["rtsp_frame"] else [])
    + (if "camera" in found.tags then ["camera_frame"] else [])
  }

  /**
   How the task that completed a row had fared: the probe failed or ran out of
   time; it found a firewall; its save reported an error; or the service was
   stored and the first `queued` enrichments asked for.
   */
  datatype Outcome =
    | Unanswered
    | Firewalled(found: Found)
    | Unsaved(found: Found, reply: Reply)
    | Stored(found: Found, queued: nat)

  /** A probe of a row that ended, and a save that was tried for it. */
  datatype Report = Report(id: int, key: ProbeKey, found: Option<Found>)
  datatype SaveTry = SaveTry(probe: int, id: int, key: ProbeKey, found: Found, reply: Reply)

  /** An insert made for a probe ran and left the key in this enrichment row; or reported an error. */
  datatype Ask = Ask(probe: int, row: int)
  datatype AskError = AskError(probe: int, key: EnrichKey)

  /** How the row was completed, on which probe. */
  datatype Finish = Finish(probe: int, outcome: Outcome)

  datatype Service = Service(id: int, found: Found)

  datatype Phase =
    | Probing
    | Saving(found: Found)
    | Queueing(found: Found, done: nat)
    | Ending(outcome: Outcome)

  /** `probe` numbers the probe once it has ended. */
  datatype Task = Task(id: int, key: ProbeKey, probe: int, phase: Phase)

  datatype Item = Item(id: int, key: ProbeKey)

  /** A claim loop with the time it read and the claimed items not yet spawned, and its tasks. */
  datatype Replica = Replica(t: Option<int>, pending: seq<Item>, tasks: map<int, Task>)

  const FRESH: Replica := Replica(None, [], map[])

  /**
   `services`: the stored services. History: `reports` numbers the probes that
   ended, `saves` has the saves tried, `finished` how the rows removed by
   `complete` ended, `asked` and `failed` how the enrichment inserts went.
   */
  datatype Stage = Stage(
    probes: State<ProbeKey>, enrich: State<EnrichKey>,
    services: map<ProbeKey, Service>, nextService: int, replicas: map<int, Replica>,
    reports: map<int, Report>, nextReport: int, saves: set<SaveTry>, finished: map<int, Finish>,
    asked: set<Ask>, failed: set<AskError>)

  datatype StageEvent =
    | Pass(elapsed: nat)
    | HandIn(key: ProbeKey)
    | OtherEnrich(e: Event<EnrichKey>)
    | Start(r: int)
    | Crash(r: int)
    | ReadClock(r: int)
    | ClaimProbes(r: int, reply: Reply, locked: set<int>)
    | Spawn(r: int, k: int)
    | EndProbe(r: int, k: int, found: Option<Found>)
    | Save(r: int, k: int, reply: Reply)
    | QueueEnrichment(r: int, k: int, reply: Reply)
    | CompleteProbe(r: int, k: int, reply: Reply)
    | Panic(r: int, k: int)

  // ─── The steps ───

  predicate HasTask(s: Stage, r: int, k: int) {
    r in s.replicas && k in s.replicas[r].tasks
  }

  predicate CanHappen(s: Stage, e: StageEvent) {
    match e
    case Pass(_) => true
    case HandIn(_) => true
    case OtherEnrich(ee) => (ee.Claim? || ee.Complete?) && Enabled(s.enrich, ee)
    case Start(r) => r !in s.replicas
    case Crash(r) => r in s.replicas
    case ReadClock(r) => r in s.replicas && s.replicas[r].t.None? && s.replicas[r].pending == []
    case ClaimProbes(r, _, _) => r in s.replicas && s.replicas[r].t.Some?
    case Spawn(r, k) => r in s.replicas && s.replicas[r].pending != [] && k !in s.replicas[r].tasks
    case EndProbe(r, k, _) => HasTask(s, r, k) && s.replicas[r].tasks[k].phase.Probing?
    case Save(r, k, _) => HasTask(s, r, k) && s.replicas[r].tasks[k].phase.Saving?
    case QueueEnrichment(r, k, _) =>
      HasTask(s, r, k) && s.replicas[r].tasks[k].phase.Queueing?
      && s.replicas[r].tasks[k].phase.done < |Wants(s.replicas[r].tasks[k].phase.found)|
    case CompleteProbe(r, k, _) => HasTask(s, r, k) && Ended(s.replicas[r].tasks[k].phase).Some?
    case Panic(r, k) => HasTask(s, r, k)
  }

  /** The outcome a task is about to complete its row with. */
  function Ended(phase: Phase): Option<Outcome> {
    match phase
    case Ending(outcome) => Some(outcome)
    case Queueing(found, done) => if done == |Wants(found)| then Some(Stored(found, done)) else None
    case _ => None
  }

  function SetReplica(s: Stage, r: int, rep: Replica): Stage {
    s.(replicas := s.replicas[r := rep])
  }

  function SetPhase(s: Stage, r: int, k: int, phase: Phase): Stage
    requires HasTask(s, r, k)
  {
    var rep := s.replicas[r];
    SetReplica(s, r, rep.(tasks := rep.tasks[k := rep.tasks[k].(phase := phase)]))
  }

  function Items(rows: Rows<ProbeKey>, ids: seq<int>): (items: seq<Item>)
    ensures |items| <= |ids|
    ensures forall i :: 0 <= i < |items| ==> items[i].id in rows && rows[items[i].id].key == items[i].key
  {
    if ids == [] then []
    else (if ids[0] in rows then [Item(ids[0], rows[ids[0]].key)] else []) + Items(rows, ids[1..])
  }

  /** Lines 334-342. */
  function AfterClaimProbes(s: Stage, r: int, reply: Reply, locked: set<int>): Stage
    requires r in s.replicas && s.replicas[r].t.Some?
  {
    var rep := s.replicas[r];
    var t := rep.t.value;
    var next := if reply == Refused then s else s.(probes := Step(s.probes, Claim(t, BATCH, locked)));
    SetReplica(next, r, Replica(None,
      if reply == Done then Items(s.probes.rows, Picked(s.probes.rows, locked, BATCH, t)) else [], rep.tasks))
  }

  /** Lines 344-353: one task per item, as many as there are. */
  function AfterSpawn(s: Stage, r: int, k: int): Stage
    requires r in s.replicas && s.replicas[r].pending != []
  {
    var rep := s.replicas[r];
    var item := rep.pending[0];
    SetReplica(s, r, Replica(rep.t, rep.pending[1..], rep.tasks[k := Task(item.id, item.key, 0, Probing)]))
  }

  /** A probe that fails or runs out of time leaves nothing; `firewalled` is not stored either. */
  function AfterEndProbe(found: Option<Found>): Phase {
    if found.None? then Ending(Unanswered)
    else if found.value.kind == "firewalled" then Ending(Firewalled(found.value))
    else Saving(found.value)
  }

  function Reported(s: Stage, task: Task, found: Option<Found>): Stage {
    s.(reports := s.reports[s.nextReport := Report(task.id, task.key, found)], nextReport := s.nextReport + 1)
  }

  function AfterReport(s: Stage, r: int, k: int, found: Option<Found>): Stage
    requires HasTask(s, r, k)
  {
    var rep, task := s.replicas[r], s.replicas[r].tasks[k];
    SetReplica(Reported(s, task, found), r,
               rep.(tasks := rep.tasks[k := task.(probe := s.nextReport, phase := AfterEndProbe(found))]))
  }

  /** `INSERT INTO services … ON CONFLICT DO UPDATE`: the id stays once given, the data is the latest. */
  function Saved(s: Stage, task: Task, found: Found, reply: Reply): Stage {
    var tried := s.(saves := s.saves + {SaveTry(task.probe, task.id, task.key, found, reply)});
    if reply == Refused then tried
    else
      var id := if task.key in s.services then s.services[task.key].id else s.nextService;
      tried.(services := s.services[task.key := Service(id, found)], nextService := s.nextService + 1)
  }

  /** `INSERT INTO queue_enrichments`; the first error ends the queueing. */
  function Asked(s: Stage, probe: int, key: EnrichKey, reply: Reply): Stage {
    var next := if reply == Refused then s else s.(enrich := Step(s.enrich, Insert(key)));
    next.(
      asked := if reply != Refused && HasKey(next.enrich.rows, key)
               then s.asked + {Ask(probe, Holder(next.enrich.rows, key))} else s.asked,
      failed := if reply == Done then s.failed else s.failed + {AskError(probe, key)})
  }

  function AfterQueue(s: Stage, r: int, k: int, reply: Reply): Stage
    requires HasTask(s, r, k) && s.replicas[r].tasks[k].phase.Queueing?
    requires s.replicas[r].tasks[k].phase.done < |Wants(s.replicas[r].tasks[k].phase.found)|
    requires s.replicas[r].tasks[k].key in s.services
  {
    var task := s.replicas[r].tasks[k];
    var Queueing(found, done) := task.phase;
    SetPhase(Asked(s, task.probe, EnrichKey(s.services[task.key].id, Wants(found)[done]), reply), r, k,
             if reply == Done then Queueing(found, done + 1) else Ending(Stored(found, done)))
  }

  /** The row goes, if it is still there, whatever came of the probe (lines 378, 382 and 386). */
  function Settled(s: Stage, task: Task, outcome: Outcome, reply: Reply): Stage {
    if reply == Refused then s
    else
      s.(probes := Step(s.probes, Complete(task.id)),
         finished := if task.id in s.probes.rows then s.finished[task.id := Finish(task.probe, outcome)] else s.finished)
  }

  function WithoutTask(s: Stage, r: int, k: int): Stage
    requires HasTask(s, r, k)
  {
    SetReplica(s, r, s.replicas[r].(tasks := s.replicas[r].tasks - {k}))
  }

  function Next(s: Stage, e: StageEvent): Stage
    requires CanHappen(s, e)
  {
    match e
    case Pass(elapsed) =>
      s.(probes := Step(s.probes, Tick(elapsed)), enrich := Step(s.enrich, Tick(elapsed)))
    case HandIn(key) => s.(probes := Step(s.probes, Insert(key)))
    case OtherEnrich(ee) => s.(enrich := Step(s.enrich, ee))
    case Start(r) => SetReplica(s, r, FRESH)
    case Crash(r) => SetReplica(s, r, FRESH)
    case ReadClock(r) => SetReplica(s, r, s.replicas[r].(t := Some(s.probes.clock)))
    case ClaimProbes(r, reply, locked) => AfterClaimProbes(s, r, reply, locked)
    case Spawn(r, k) => AfterSpawn(s, r, k)
    case EndProbe(r, k, found) => AfterReport(s, r, k, found)
    case Save(r, k, reply) =>
      var task := s.replicas[r].tasks[k];
      SetPhase(Saved(s, task, task.phase.found, reply), r, k,
               if reply == Done then Queueing(task.phase.found, 0) else Ending(Unsaved(task.phase.found, reply)))
    case QueueEnrichment(r, k, reply) =>
      if s.replicas[r].tasks[k].key in s.services then AfterQueue(s, r, k, reply) else s
    case CompleteProbe(r, k, reply) =>
      var task := s.replicas[r].tasks[k];
      WithoutTask(Settled(s, task, Ended(task.phase).value, reply), r, k)
    case Panic(r, k) => WithoutTask(s, r, k)
  }

  function Begin(clock: int): Stage {
    Stage(Init(clock), Init(clock), map[], 1, map[], map[], 1, {}, map[], {}, {})
  }

  predicate Happens(s: Stage, es: seq<StageEvent>)
    decreases |es|
  {
    es == [] || (CanHappen(s, es[0]) && Happens(Next(s, es[0]), es[1..]))
  }

  function Reached(s: Stage, es: seq<StageEvent>): Stage
    requires Happens(s, es)
    decreases |es|
  {
    if es == [] then s else Reached(Next(s, es[0]), es[1..])
  }

  // ─── What every step keeps ───

  predicate KnownProbe(s: Stage, id: int, key: ProbeKey) {
    id in s.probes.keyOf && s.probes.keyOf[id] == key
  }

  /** That probe was of that row, and this is what it came back with. */
  predicate Reports(s: Stage, probe: int, id: int, key: ProbeKey, found: Option<Found>) {
    probe in s.reports && s.reports[probe] == Report(id, key, found)
  }

  /** It answered, and was no firewall. */
  predicate Answered(s: Stage, probe: int, id: int, key: ProbeKey, found: Found) {
    Reports(s, probe, id, key, Some(found)) && found.kind != "firewalled"
  }

  /** An insert of that enrichment made for that probe ran. */
  predicate HasAsk(s: Stage, probe: int, key: EnrichKey) {
    exists a :: a in s.asked && a.probe == probe && a.row in s.enrich.keyOf && s.enrich.keyOf[a.row] == key
  }

  /** The service is stored and the first `n` enrichments asked for have been queued for that probe. */
  predicate AskedUpto(s: Stage, probe: int, key: ProbeKey, found: Found, n: nat) {
    && key in s.services && n <= |Wants(found)|
    && forall j :: 0 <= j < n ==> HasAsk(s, probe, EnrichKey(s.services[key].id, Wants(found)[j]))
  }

  /** The probe answered, and what it found was saved. */
  predicate Kept(s: Stage, probe: int, id: int, key: ProbeKey, found: Found) {
    Answered(s, probe, id, key, found) && SaveTry(probe, id, key, found, Done) in s.saves
  }

  predicate OutcomeOk(s: Stage, id: int, key: ProbeKey, finish: Finish) {
    match finish.outcome
    case Unanswered => Reports(s, finish.probe, id, key, None)
    case Firewalled(found) => Reports(s, finish.probe, id, key, Some(found)) && found.kind == "firewalled"
    case Unsaved(found, reply) =>
      && reply != Done && Answered(s, finish.probe, id, key, found)
      && SaveTry(finish.probe, id, key, found, reply) in s.saves
    case Stored(found, queued) =>
      && Kept(s, finish.probe, id, key, found)
      && AskedUpto(s, finish.probe, key, found, queued)
      && (queued < |Wants(found)| ==>
            AskError(finish.probe, EnrichKey(s.services[key].id, Wants(found)[queued])) in s.failed)
  }

  predicate TaskOk(s: Stage, task: Task) {
    && KnownProbe(s, task.id, task.key)
    && match task.phase
       case Probing => true
       case Saving(found) => Answered(s, task.probe, task.id, task.key, found)
       case Queueing(found, done) =>
         Kept(s, task.probe, task.id, task.key, found) && AskedUpto(s, task.probe, task.key, found, done)
       case Ending(outcome) => OutcomeOk(s, task.id, task.key, Finish(task.probe, outcome))
  }

  predicate ReplicaOk(s: Stage, rep: Replica) {
    && (rep.t.Some? ==> rep.t.value <= s.probes.clock)
    && (forall i :: 0 <= i < |rep.pending| ==> KnownProbe(s, rep.pending[i].id, rep.pending[i].key))
    && (forall k :: k in rep.tasks ==> TaskOk(s, rep.tasks[k]))
  }

  predicate FinishedOk(s: Stage) {
    && s.probes.completed == s.finished.Keys
    && forall id :: id in s.finished ==> id in s.probes.keyOf && OutcomeOk(s, id, s.probes.keyOf[id], s.finished[id])
  }

  /** The enrichments there are, by what asks for them. */
  predicate AsksFor(found: Found, kind: string) {
    || (kind == "favicon" && found.http)
    || (kind == "rtsp_frame" && found.rtsp)
    || (kind == "camera_frame" && "camera" in found.tags)
  }

  /** That probe was of the stored service of that key, and found what asks for the enrichment. */
  predicate AskedBy(s: Stage, e: EnrichKey, key: ProbeKey, probe: int) {
    && key in s.services && s.services[key].id == e.service
    && probe in s.reports && s.reports[probe].key == key
    && s.reports[probe].found.Some? && AsksFor(s.reports[probe].found.value, e.kind)
  }

  predicate AskedFor(s: Stage, e: EnrichKey) {
    exists key, probe :: key in s.services && probe in s.reports && AskedBy(s, e, key, probe)
  }

  /** Every enrichment ever queued is of a stored service, and was asked for by findings of a probe of it. */
  predicate EnrichOk(s: Stage) {
    forall id :: id in s.enrich.keyOf ==> AskedFor(s, s.enrich.keyOf[id])
  }

  /** A save of that key ran, with this payload. */
  predicate SaveRan(s: Stage, key: ProbeKey, found: Found) {
    exists x :: x in s.saves && x.key == key && x.found == found && x.reply != Refused
  }

  /** Services have ids of their own; what is saved was found by a probe, and what is stored has been saved. */
  predicate ServicesOk(s: Stage) {
    && (forall key :: key in s.services ==> s.services[key].id < s.nextService)
    && (forall a, b :: a in s.services && b in s.services && s.services[a].id == s.services[b].id ==> a == b)
    && (forall x :: x in s.saves ==>
          Answered(s, x.probe, x.id, x.key, x.found) && (x.reply != Refused ==> x.key in s.services))
    && (forall key :: key in s.services ==> SaveRan(s, key, s.services[key].found))
  }

  predicate TablesOk(s: Stage) {
    && Inv(s.probes) && Inv(s.enrich) && s.probes.clock == s.enrich.clock
    && s.probes.dropped == {} && s.enrich.dropped == {}
  }

  predicate NumbersOk(s: Stage) {
    forall n :: n in s.reports ==> n < s.nextReport
  }

  predicate StageInv(s: Stage) {
    && TablesOk(s) && NumbersOk(s) && EnrichOk(s) && ServicesOk(s) && FinishedOk(s)
    && forall r :: r in s.replicas ==> ReplicaOk(s, s.replicas[r])
  }

  ghost predicate Grows(s: Stage, t: Stage) {
    && s.probes.clock <= t.probes.clock
    && (forall id :: id in s.probes.keyOf ==> id in t.probes.keyOf && t.probes.keyOf[id] == s.probes.keyOf[id])
    && (forall id :: id in s.enrich.keyOf ==> id in t.enrich.keyOf && t.enrich.keyOf[id] == s.enrich.keyOf[id])
    && (forall key :: key in s.services ==> key in t.services && t.services[key].id == s.services[key].id)
    && s.failed <= t.failed && s.asked <= t.asked && s.saves <= t.saves
    && (forall n :: n in s.reports ==> n in t.reports && t.reports[n] == s.reports[n])
  }

  lemma HasAskGrows(s: Stage, t: Stage, probe: int, key: EnrichKey)
    requires Grows(s, t) && HasAsk(s, probe, key)
    ensures HasAsk(t, probe, key)
  {
    var a :| a in s.asked && a.probe == probe && a.row in s.enrich.keyOf && s.enrich.keyOf[a.row] == key;
    assert a in t.asked && t.enrich.keyOf[a.row] == key;
  }

  lemma AskedGrows(s: Stage, t: Stage, probe: int, key: ProbeKey, found: Found, n: nat)
    requires Grows(s, t) && AskedUpto(s, probe, key, found, n)
    ensures AskedUpto(t, probe, key, found, n)
  {
    hide Wants, HasAsk;
    forall j | 0 <= j < n ensures HasAsk(t, probe, EnrichKey(t.services[key].id, Wants(found)[j])) {
      HasAskGrows(s, t, probe, EnrichKey(s.services[key].id, Wants(found)[j]));
    }
  }

  lemma OutcomeGrows(s: Stage, t: Stage, id: int, key: ProbeKey, finish: Finish)
    requires Grows(s, t) && OutcomeOk(s, id, key, finish)
    ensures OutcomeOk(t, id, key, finish)
  {
    hide Wants;
    if finish.outcome.Stored? {
      AskedGrows(s, t, finish.probe, key, finish.outcome.found, finish.outcome.queued);
    }
  }

  lemma TaskGrows(s: Stage, t: Stage, task: Task)
    requires Grows(s, t) && TaskOk(s, task)
    ensures TaskOk(t, task)
  {
    hide AskedUpto, OutcomeOk;
    if task.phase.Queueing? {
      AskedGrows(s, t, task.probe, task.key, task.phase.found, task.phase.done);
    } else if task.phase.Ending? {
      OutcomeGrows(s, t, task.id, task.key, Finish(task.probe, task.phase.outcome));
    }
  }

  lemma ReplicaGrows(s: Stage, t: Stage, rep: Replica)
    requires Grows(s, t) && ReplicaOk(s, rep)
    ensures ReplicaOk(t, rep)
  {
    hide TaskOk;
    forall k | k in rep.tasks ensures TaskOk(t, rep.tasks[k]) {
      TaskGrows(s, t, rep.tasks[k]);
    }
  }

  lemma FinishedGrows(s: Stage, t: Stage)
    requires Grows(s, t) && FinishedOk(s)
    requires t.finished == s.finished && t.probes.completed == s.probes.completed
    ensures FinishedOk(t)
  {
    hide OutcomeOk;
    forall id | id in t.finished ensures OutcomeOk(t, id, t.probes.keyOf[id], t.finished[id]) {
      OutcomeGrows(s, t, id, s.probes.keyOf[id], s.finished[id]);
    }
  }

  lemma ReplicaKnown(s: Stage, r: int)
    requires StageInv(s) && r in s.replicas
    ensures ReplicaOk(s, s.replicas[r])
  {
  }

  /** The tables and the history move, and no replica. */
  lemma TablesMove(s: Stage, t: Stage)
    requires StageInv(s) && Grows(s, t) && t.replicas == s.replicas
    requires TablesOk(t) && NumbersOk(t) && EnrichOk(t) && ServicesOk(t) && FinishedOk(t)
    ensures StageInv(t)
  {
    hide TablesOk, NumbersOk, EnrichOk, ServicesOk, FinishedOk, ReplicaOk, Grows;
    forall r | r in t.replicas ensures ReplicaOk(t, t.replicas[r]) {
      ReplicaGrows(s, t, s.replicas[r]);
    }
  }

  /** One replica moves, and nothing else. */
  lemma ReplicaMoves(s: Stage, r: int, rep: Replica)
    requires StageInv(s) && ReplicaOk(s, rep)
    ensures StageInv(SetReplica(s, r, rep))
  {
    var t := SetReplica(s, r, rep);
    hide TablesOk, EnrichOk, ServicesOk, FinishedOk, ReplicaOk;
    assert Grows(s, t);
    SameTables(s, t);
    ServicesStay(s, t);
    FinishedGrows(s, t);
    forall q | q in t.replicas ensures ReplicaOk(t, t.replicas[q]) {
      ReplicaGrows(s, t, if q == r then rep else s.replicas[q]);
    }
  }

  lemma SameTables(s: Stage, t: Stage)
    requires TablesOk(s) && EnrichOk(s) && t.probes == s.probes && t.enrich == s.enrich && Grows(s, t)
    ensures TablesOk(t) && EnrichOk(t)
  {
    EnrichStaysOk(s, t);
  }

  lemma AskedForStays(s: Stage, t: Stage, e: EnrichKey)
    requires Grows(s, t) && AskedFor(s, e)
    ensures AskedFor(t, e)
  {
    var key, probe :| key in s.services && probe in s.reports && AskedBy(s, e, key, probe);
    assert t.services[key].id == e.service && t.reports[probe] == s.reports[probe];
    assert AskedBy(t, e, key, probe);
  }

  lemma EnrichStaysOk(s: Stage, t: Stage)
    requires Grows(s, t) && EnrichOk(s) && t.enrich.keyOf == s.enrich.keyOf
    ensures EnrichOk(t)
  {
    hide AskedFor;
    forall id | id in t.enrich.keyOf ensures AskedFor(t, t.enrich.keyOf[id]) {
      AskedForStays(s, t, s.enrich.keyOf[id]);
    }
  }

  lemma ServicesStay(s: Stage, t: Stage)
    requires ServicesOk(s) && t.services == s.services && t.nextService == s.nextService && t.saves == s.saves && Grows(s, t)
    ensures ServicesOk(t)
  {
    forall key | key in t.services ensures SaveRan(t, key, t.services[key].found) {
      assert SaveRan(s, key, s.services[key].found);
    }
  }

  /** A statement on the probe queue that completes nothing. */
  lemma ProbesMove(s: Stage, e: Event<ProbeKey>)
    requires StageInv(s) && Enabled(s.probes, e) && (e.Insert? || e.Claim?)
    ensures StageInv(s.(probes := Step(s.probes, e)))
  {
    var t := s.(probes := Step(s.probes, e));
    StepKeeps(s.probes, e);
    StepGrows(s.probes, e);
    assert t.probes.clock == s.probes.clock && t.probes.dropped == {} && t.probes.completed == s.probes.completed;
    hide Step, FinishedOk, ReplicaOk, EnrichOk;
    assert Grows(s, t);
    EnrichStaysOk(s, t);
    ServicesStay(s, t);
    hide ServicesOk;
    FinishedGrows(s, t);
    TablesMove(s, t);
  }

  lemma EnrichMoves(s: Stage, e: Event<EnrichKey>)
    requires StageInv(s) && Enabled(s.enrich, e) && (e.Claim? || e.Complete?)
    ensures StageInv(s.(enrich := Step(s.enrich, e)))
  {
    var t := s.(enrich := Step(s.enrich, e));
    StepKeeps(s.enrich, e);
    StepGrows(s.enrich, e);
    assert t.enrich.clock == s.enrich.clock && t.enrich.dropped == {} && t.enrich.keyOf == s.enrich.keyOf;
    hide Step, FinishedOk, ReplicaOk, EnrichOk;
    assert Grows(s, t);
    EnrichStaysOk(s, t);
    ServicesStay(s, t);
    hide ServicesOk;
    FinishedGrows(s, t);
    TablesMove(s, t);
  }

  lemma ClockMoves(s: Stage, elapsed: nat)
    requires StageInv(s)
    ensures StageInv(Next(s, Pass(elapsed)))
  {
    var t := Next(s, Pass(elapsed));
    StepKeeps(s.probes, Tick(elapsed));
    StepKeeps(s.enrich, Tick(elapsed));
    hide FinishedOk, ReplicaOk, Inv, EnrichOk;
    assert Grows(s, t);
    EnrichStaysOk(s, t);
    ServicesStay(s, t);
    hide ServicesOk;
    FinishedGrows(s, t);
    TablesMove(s, t);
  }

  /** Replaces the phase of a task by one that is all right. */
  lemma PhaseMoves(s: Stage, r: int, k: int, phase: Phase)
    requires StageInv(s) && HasTask(s, r, k) && TaskOk(s, s.replicas[r].tasks[k].(phase := phase))
    ensures StageInv(SetPhase(s, r, k, phase))
  {
    hide StageInv, TaskOk;
    ReplicaKnown(s, r);
    var rep := s.replicas[r];
    ReplicaMoves(s, r, rep.(tasks := rep.tasks[k := rep.tasks[k].(phase := phase)]));
  }

  lemma TaskKnown(s: Stage, r: int, k: int)
    requires StageInv(s) && HasTask(s, r, k)
    ensures TaskOk(s, s.replicas[r].tasks[k])
  {
    ReplicaKnown(s, r);
  }

  lemma ClaimMoves(s: Stage, r: int, reply: Reply, locked: set<int>)
    requires StageInv(s) && CanHappen(s, ClaimProbes(r, reply, locked))
    ensures StageInv(AfterClaimProbes(s, r, reply, locked))
  {
    var t := s.replicas[r].t.value;
    var ids := Picked(s.probes.rows, locked, BATCH, t);
    ItemsKnown(s, ids);
    ReplicaKnown(s, r);
    hide StageInv, Picked, Items, TaskOk, KnownProbe, Step;
    var items := if reply == Done then Items(s.probes.rows, ids) else [];
    if reply == Refused {
      PendingMoves(s, r, items);
    } else {
      var next := s.(probes := Step(s.probes, Claim(t, BATCH, locked)));
      ProbesMove(s, Claim(t, BATCH, locked));
      ClaimKeepsKnown(s, next, Claim(t, BATCH, locked));
      PendingMoves(next, r, items);
    }
  }

  lemma ClaimKeepsKnown(s: Stage, t: Stage, e: Event<ProbeKey>)
    requires e.Claim? && t.probes == Step(s.probes, e)
    ensures forall id, key :: KnownProbe(s, id, key) ==> KnownProbe(t, id, key)
  {
  }

  lemma PendingMoves(s: Stage, r: int, items: seq<Item>)
    requires StageInv(s) && r in s.replicas
    requires forall i :: 0 <= i < |items| ==> KnownProbe(s, items[i].id, items[i].key)
    ensures StageInv(SetReplica(s, r, Replica(None, items, s.replicas[r].tasks)))
  {
    hide StageInv, TaskOk, KnownProbe;
    ReplicaKnown(s, r);
    ReplicaMoves(s, r, Replica(None, items, s.replicas[r].tasks));
  }

  lemma ItemsKnown(s: Stage, ids: seq<int>)
    requires StageInv(s)
    ensures var items := Items(s.probes.rows, ids);
      forall i :: 0 <= i < |items| ==> KnownProbe(s, items[i].id, items[i].key)
  {
    hide Items;
  }

  lemma SpawnMoves(s: Stage, r: int, k: int)
    requires StageInv(s) && CanHappen(s, Spawn(r, k))
    ensures StageInv(AfterSpawn(s, r, k))
  {
    hide StageInv;
    ReplicaKnown(s, r);
    var rep := s.replicas[r];
    var item := rep.pending[0];
    var task := Task(item.id, item.key, 0, Probing);
    assert TaskOk(s, task);
    hide TaskOk;
    ReplicaMoves(s, r, Replica(rep.t, rep.pending[1..], rep.tasks[k := task]));
  }

  lemma SavedGrows(s: Stage, task: Task, found: Found, reply: Reply)
    ensures Grows(s, Saved(s, task, found, reply))
  {
  }

  lemma SavedIds(s: Stage, task: Task, found: Found, reply: Reply)
    requires ServicesOk(s)
    ensures var t := Saved(s, task, found, reply);
      && (forall key :: key in t.services ==> t.services[key].id < t.nextService)
      && (forall a, b :: a in t.services && b in t.services && t.services[a].id == t.services[b].id ==> a == b)
  {
    hide SaveRan, Answered;
  }

  lemma SavedServices(s: Stage, task: Task, found: Found, reply: Reply)
    requires ServicesOk(s) && Answered(s, task.probe, task.id, task.key, found)
    ensures ServicesOk(Saved(s, task, found, reply))
  {
    var t := Saved(s, task, found, reply);
    SavedIds(s, task, found, reply);
    forall key | key in t.services ensures SaveRan(t, key, t.services[key].found) {
      if reply != Refused && key == task.key {
        assert SaveTry(task.probe, task.id, key, found, reply) in t.saves;
      } else {
        assert SaveRan(s, key, s.services[key].found);
      }
    }
  }

  lemma SavedMoves(s: Stage, task: Task, found: Found, reply: Reply)
    requires StageInv(s) && Answered(s, task.probe, task.id, task.key, found)
    ensures StageInv(Saved(s, task, found, reply)) && Saved(s, task, found, reply).replicas == s.replicas
    ensures reply == Done ==> task.key in Saved(s, task, found, reply).services
  {
    var t := Saved(s, task, found, reply);
    hide TablesOk, EnrichOk, ServicesOk, FinishedOk, ReplicaOk, Answered, NumbersOk, Grows;
    SavedServices(s, task, found, reply);
    SavedGrows(s, task, found, reply);
    SameNumbers(s, t);
    SameTables(s, t);
    FinishedGrows(s, t);
    TablesMove(s, t);
  }

  lemma SameNumbers(s: Stage, t: Stage)
    requires NumbersOk(s) && t.reports == s.reports && t.nextReport == s.nextReport
    ensures NumbersOk(t)
  {
  }

  lemma SaveMoves(s: Stage, r: int, k: int, reply: Reply)
    requires StageInv(s) && CanHappen(s, Save(r, k, reply))
    ensures StageInv(Next(s, Save(r, k, reply)))
  {
    hide StageInv, Saved;
    TaskKnown(s, r, k);
    var task := s.replicas[r].tasks[k];
    var found := task.phase.found;
    SavedMoves(s, task, found, reply);
    var next := Saved(s, task, found, reply);
    TaskKnown(next, r, k);
    assert SaveTry(task.probe, task.id, task.key, found, reply) in next.saves by { SaveIsTried(s, task, found, reply); }
    PhaseMoves(next, r, k, if reply == Done then Queueing(found, 0) else Ending(Unsaved(found, reply)));
  }

  lemma SaveIsTried(s: Stage, task: Task, found: Found, reply: Reply)
    ensures SaveTry(task.probe, task.id, task.key, found, reply) in Saved(s, task, found, reply).saves
  {
  }

  /** An insert that ran leaves its ask to a row that is in the enrichment queue and holds the key. */
  lemma AskIsOfRow(s: Stage, probe: int, key: EnrichKey, reply: Reply)
    requires Inv(s.enrich) && reply != Refused
    ensures var t := Asked(s, probe, key, reply);
      && HasKey(t.enrich.rows, key)
      && var row := Holder(t.enrich.rows, key);
         row in t.enrich.keyOf && t.enrich.keyOf[row] == key && t.asked == s.asked + {Ask(probe, row)}
  {
    InsertLeavesRow(s.enrich, key);
    StepKeeps(s.enrich, Insert(key));
    hide LeasesCovered, GrantsSpaced;
  }

  lemma AskedTables(s: Stage, probe: int, key: EnrichKey, reply: Reply)
    requires TablesOk(s) && EnrichOk(s) && AskedFor(s, key)
    ensures var t := Asked(s, probe, key, reply);
      TablesOk(t) && EnrichOk(t) && Grows(s, t)
  {
    var t := Asked(s, probe, key, reply);
    StepKeeps(s.enrich, Insert(key));
    StepGrows(s.enrich, Insert(key));
    hide Inv, Holder, AskedFor;
    assert Grows(s, t);
    forall id | id in t.enrich.keyOf ensures AskedFor(t, t.enrich.keyOf[id]) {
      AskedForStays(s, t, t.enrich.keyOf[id]);
    }
  }

  lemma AskedMoves(s: Stage, probe: int, key: EnrichKey, reply: Reply)
    requires StageInv(s) && AskedFor(s, key)
    ensures var t := Asked(s, probe, key, reply);
      && StageInv(t) && t.replicas == s.replicas && t.services == s.services
      && (if reply == Done then HasAsk(t, probe, key) else AskError(probe, key) in t.failed)
  {
    var t := Asked(s, probe, key, reply);
    AskedTables(s, probe, key, reply);
    if reply != Refused {
      assert TablesOk(s);
      AskIsOfRow(s, probe, key, reply);
      assert Ask(probe, Holder(t.enrich.rows, key)) in t.asked;
    }
    hide Step, TablesOk, EnrichOk, FinishedOk, ReplicaOk, ServicesOk, Holder, HasKey, Grows;
    ServicesStay(s, t);
    FinishedGrows(s, t);
    TablesMove(s, t);
  }

  lemma AskedOneMore(s: Stage, probe: int, key: ProbeKey, found: Found, n: nat)
    requires AskedUpto(s, probe, key, found, n) && n < |Wants(found)|
    requires HasAsk(s, probe, EnrichKey(s.services[key].id, Wants(found)[n]))
    ensures AskedUpto(s, probe, key, found, n + 1)
  {
    hide Wants, HasAsk;
  }

  lemma WantsMeans(found: Found, j: nat)
    requires j < |Wants(found)|
    ensures AsksFor(found, Wants(found)[j])
  {
  }

  lemma WantAsked(s: Stage, task: Task)
    requires TaskOk(s, task) && task.phase.Queueing? && task.phase.done < |Wants(task.phase.found)|
    ensures task.key in s.services
    ensures AskedFor(s, EnrichKey(s.services[task.key].id, Wants(task.phase.found)[task.phase.done]))
  {
    WantsMeans(task.phase.found, task.phase.done);
    hide Wants, AsksFor, HasAsk;
    assert AskedBy(s, EnrichKey(s.services[task.key].id, Wants(task.phase.found)[task.phase.done]), task.key, task.probe);
  }

  lemma QueueMoves(s: Stage, r: int, k: int, reply: Reply)
    requires StageInv(s) && CanHappen(s, QueueEnrichment(r, k, reply))
    ensures s.replicas[r].tasks[k].key in s.services
    ensures StageInv(AfterQueue(s, r, k, reply))
  {
    hide StageInv, Asked, Wants, HasAsk;
    TaskKnown(s, r, k);
    var task := s.replicas[r].tasks[k];
    var Queueing(found, done) := task.phase;
    var want := EnrichKey(s.services[task.key].id, Wants(found)[done]);
    WantAsked(s, task);
    AskedMoves(s, task.probe, want, reply);
    var next := Asked(s, task.probe, want, reply);
    TaskKnown(next, r, k);
    if reply == Done {
      AskedOneMore(next, task.probe, task.key, found, done);
    }
    hide AskedUpto;
    PhaseMoves(next, r, k, if reply == Done then Queueing(found, done + 1) else Ending(Stored(found, done)));
  }

  lemma EndedOk(s: Stage, task: Task)
    requires TaskOk(s, task) && Ended(task.phase).Some?
    ensures KnownProbe(s, task.id, task.key) && OutcomeOk(s, task.id, task.key, Finish(task.probe, Ended(task.phase).value))
  {
  }

  lemma SettledParts(s: Stage, task: Task, outcome: Outcome)
    requires StageInv(s)
    ensures var t := Settled(s, task, outcome, Done);
      Grows(s, t) && t.probes.completed == t.finished.Keys && t.probes.keyOf == s.probes.keyOf
  {
    hide EnrichOk, ServicesOk, ReplicaOk, OutcomeOk, NumbersOk, LeasesCovered, GrantsSpaced;
  }

  lemma SettleFinished(s: Stage, task: Task, outcome: Outcome)
    requires StageInv(s) && KnownProbe(s, task.id, task.key) && OutcomeOk(s, task.id, task.key, Finish(task.probe, outcome))
    ensures FinishedOk(Settled(s, task, outcome, Done)) && Grows(s, Settled(s, task, outcome, Done))
  {
    var t := Settled(s, task, outcome, Done);
    SettledParts(s, task, outcome);
    hide OutcomeOk, Grows, Step, TablesOk, NumbersOk, EnrichOk, ServicesOk, ReplicaOk;
    forall id | id in t.finished ensures id in t.probes.keyOf && OutcomeOk(t, id, t.probes.keyOf[id], t.finished[id]) {
      if id in s.finished && t.finished[id] == s.finished[id] {
        OutcomeGrows(s, t, id, s.probes.keyOf[id], s.finished[id]);
      } else {
        OutcomeGrows(s, t, id, task.key, Finish(task.probe, outcome));
      }
    }
  }

  lemma SettleMoves(s: Stage, task: Task, outcome: Outcome, reply: Reply)
    requires StageInv(s) && KnownProbe(s, task.id, task.key) && OutcomeOk(s, task.id, task.key, Finish(task.probe, outcome))
    ensures StageInv(Settled(s, task, outcome, reply)) && Settled(s, task, outcome, reply).replicas == s.replicas
  {
    if reply != Refused {
      var t := Settled(s, task, outcome, reply);
      SettleFinished(s, task, outcome);
      StepKeeps(s.probes, Complete(task.id));
      assert t.probes.clock == s.probes.clock && t.probes.dropped == {};
      hide Step, FinishedOk, ReplicaOk, Grows, EnrichOk;
      ServicesStay(s, t);
      EnrichStaysOk(s, t);
      hide ServicesOk, NumbersOk;
      TablesMove(s, t);
    }
  }

  lemma TaskLeaves(s: Stage, r: int, k: int)
    requires StageInv(s) && HasTask(s, r, k)
    ensures StageInv(WithoutTask(s, r, k))
  {
    hide StageInv, TaskOk;
    ReplicaKnown(s, r);
    ReplicaMoves(s, r, s.replicas[r].(tasks := s.replicas[r].tasks - {k}));
  }

  lemma CompleteMoves(s: Stage, r: int, k: int, reply: Reply)
    requires StageInv(s) && CanHappen(s, CompleteProbe(r, k, reply))
    ensures StageInv(Next(s, CompleteProbe(r, k, reply)))
  {
    hide StageInv, TaskOk, OutcomeOk, KnownProbe, Settled, WithoutTask;
    TaskKnown(s, r, k);
    var task := s.replicas[r].tasks[k];
    EndedOk(s, task);
    SettleMoves(s, task, Ended(task.phase).value, reply);
    TaskLeaves(Settled(s, task, Ended(task.phase).value, reply), r, k);
  }

  lemma FreshMoves(s: Stage, r: int)
    requires StageInv(s)
    ensures StageInv(SetReplica(s, r, FRESH))
  {
    hide StageInv;
    ReplicaMoves(s, r, FRESH);
  }

  lemma ReadMoves(s: Stage, r: int)
    requires StageInv(s) && r in s.replicas
    ensures StageInv(SetReplica(s, r, s.replicas[r].(t := Some(s.probes.clock))))
  {
    hide StageInv, TaskOk;
    ReplicaKnown(s, r);
    ReplicaMoves(s, r, s.replicas[r].(t := Some(s.probes.clock)));
  }

  lemma ReportedMoves(s: Stage, task: Task, found: Option<Found>)
    requires StageInv(s)
    ensures StageInv(Reported(s, task, found))
  {
    var t := Reported(s, task, found);
    hide TablesOk, EnrichOk, ServicesOk, FinishedOk, ReplicaOk;
    assert Grows(s, t);
    ServicesStay(s, t);
    SameTables(s, t);
    FinishedGrows(s, t);
    TablesMove(s, t);
  }

  lemma EndProbeMoves(s: Stage, r: int, k: int, found: Option<Found>)
    requires StageInv(s) && HasTask(s, r, k)
    ensures StageInv(AfterReport(s, r, k, found))
  {
    hide StageInv;
    var rep, task := s.replicas[r], s.replicas[r].tasks[k];
    ReportedMoves(s, task, found);
    var next := Reported(s, task, found);
    TaskKnown(next, r, k);
    ReplicaKnown(next, r);
    var ended := task.(probe := s.nextReport, phase := AfterEndProbe(found));
    assert TaskOk(next, ended);
    hide TaskOk;
    ReplicaMoves(next, r, rep.(tasks := rep.tasks[k := ended]));
  }

  /** Any step keeps everything. */
  lemma NextKeeps(s: Stage, e: StageEvent)
    requires StageInv(s) && CanHappen(s, e)
    ensures StageInv(Next(s, e))
  {
    hide StageInv, Step, SetPhase, SetReplica, WithoutTask, Settled, Saved, AfterReport, AfterQueue;
    match e
    case Pass(elapsed) => ClockMoves(s, elapsed);
    case HandIn(key) => ProbesMove(s, Insert(key));
    case OtherEnrich(ee) => EnrichMoves(s, ee);
    case Start(r) => FreshMoves(s, r);
    case Crash(r) => FreshMoves(s, r);
    case ReadClock(r) => ReadMoves(s, r);
    case ClaimProbes(r, reply, locked) => ClaimMoves(s, r, reply, locked);
    case Spawn(r, k) => SpawnMoves(s, r, k);
    case EndProbe(r, k, found) => EndProbeMoves(s, r, k, found);
    case Save(r, k, reply) => SaveMoves(s, r, k, reply);
    case QueueEnrichment(r, k, reply) => QueueMoves(s, r, k, reply);
    case CompleteProbe(r, k, reply) => CompleteMoves(s, r, k, reply);
    case Panic(r, k) => TaskLeaves(s, r, k);
  }

  lemma {:induction false} ReachedKeeps(s: Stage, es: seq<StageEvent>)
    requires StageInv(s) && Happens(s, es)
    ensures StageInv(Reached(s, es))
    decreases |es|
  {
    hide StageInv;
    if es != [] {
      NextKeeps(s, es[0]);
      ReachedKeeps(Next(s, es[0]), es[1..]);
    }
  }

  lemma BeginOk(clock: int)
    ensures StageInv(Begin(clock))
  {
    InitInv<ProbeKey>(clock);
    InitInv<EnrichKey>(clock);
  }

  // ─── The hand-off ───

  lemma {:induction false} ReachedSnoc(s: Stage, es: seq<StageEvent>)
    requires Happens(s, es) && es != []
    ensures var n := |es| - 1;
      && Happens(s, es[..n]) && CanHappen(Reached(s, es[..n]), es[n])
      && Reached(s, es) == Next(Reached(s, es[..n]), es[n])
    decreases |es|
  {
    hide Next, CanHappen;
    var n := |es| - 1;
    if n > 0 {
      ReachedSnoc(Next(s, es[0]), es[1..]);
      assert es[1..][..n - 1] == es[..n][1..];
      assert es[..n][0] == es[0] && es[1..][n - 1] == es[n];
    } else {
      assert es[..0] == [] && es[1..] == [];
    }
  }

  /** After the first `k` steps the probe had ended and the row was in the enrichment queue, with that key. */
  ghost predicate InQueue(s: Stage, es: seq<StageEvent>, k: nat, probe: int, row: int, key: EnrichKey) {
    && k <= |es| && Happens(s, es[..k])
    && var m := Reached(s, es[..k]);
       probe in m.reports && row in m.enrich.rows && m.enrich.rows[row].key == key
  }

  /** The enrichment the next step of a queueing task inserts. */
  function Wanted(s: Stage, task: Task): Option<EnrichKey> {
    if task.phase.Queueing? && task.phase.done < |Wants(task.phase.found)| && task.key in s.services
    then Some(EnrichKey(s.services[task.key].id, Wants(task.phase.found)[task.phase.done]))
    else None
  }

  /** The step after the first `k` inserted that enrichment for that probe, and reported an error. */
  ghost predicate ErrorAt(s: Stage, es: seq<StageEvent>, k: nat, probe: int, key: EnrichKey) {
    && k < |es| && Happens(s, es[..k])
    && var m := Reached(s, es[..k]);
       CanHappen(m, es[k]) && es[k].QueueEnrichment? && es[k].reply != Done
       && var task := m.replicas[es[k].r].tasks[es[k].k];
          task.probe == probe && Wanted(m, task) == Some(key)
  }

  /** What one step adds to the asks and their errors. */
  lemma StepAsks(s: Stage, e: StageEvent)
    requires CanHappen(s, e)
    ensures !e.QueueEnrichment? ==> Next(s, e).asked == s.asked && Next(s, e).failed == s.failed
    ensures e.QueueEnrichment? ==>
      var task := s.replicas[e.r].tasks[e.k];
      if Wanted(s, task).None? then Next(s, e) == s
      else
        var t := Asked(s, task.probe, Wanted(s, task).value, e.reply);
        Next(s, e).asked == t.asked && Next(s, e).failed == t.failed
        && Next(s, e).enrich == t.enrich && Next(s, e).reports == t.reports
  {
    hide Step, Wants, Items, Picked, Asked;
  }

  lemma NewAsk(s: Stage, e: StageEvent, a: Ask)
    requires StageInv(s) && CanHappen(s, e) && a in Next(s, e).asked && a !in s.asked
    ensures var t := Next(s, e);
      a.probe in t.reports && a.row in t.enrich.rows && a.row in t.enrich.keyOf
      && t.enrich.rows[a.row].key == t.enrich.keyOf[a.row]
  {
    StepAsks(s, e);
    var task := s.replicas[e.r].tasks[e.k];
    var key := Wanted(s, task).value;
    if e.reply != Refused {
      AskIsOfRow(s, task.probe, key, e.reply);
    }
    TaskKnown(s, e.r, e.k);
    hide Step, StageInv, Wants, Next, AskedUpto;
    assert task.probe in s.reports;
  }

  lemma NewError(s: Stage, e: StageEvent, f: AskError)
    requires CanHappen(s, e) && f in Next(s, e).failed && f !in s.failed
    ensures e.QueueEnrichment? && e.reply != Done
    ensures var task := s.replicas[e.r].tasks[e.k];
      task.probe == f.probe && Wanted(s, task) == Some(f.key)
  {
    StepAsks(s, e);
    hide Step, Wants, Next, HasKey, Holder;
  }

  /** What a step does to the enrichment queue. */
  lemma EnrichGrows(s: Stage, e: StageEvent)
    requires StageInv(s) && CanHappen(s, e)
    ensures forall n :: n in s.enrich.keyOf ==>
      n in Next(s, e).enrich.keyOf && Next(s, e).enrich.keyOf[n] == s.enrich.keyOf[n]
  {
    StepAsks(s, e);
    match e
    case Pass(elapsed) => StepGrows(s.enrich, Tick(elapsed));
    case OtherEnrich(ee) => StepGrows(s.enrich, ee);
    case QueueEnrichment(r, k, reply) =>
      if Wanted(s, s.replicas[r].tasks[k]).Some? {
        StepGrows(s.enrich, Insert(Wanted(s, s.replicas[r].tasks[k]).value));
      }
    case _ => EnrichStays(s, e);
  }

  lemma EnrichStays(s: Stage, e: StageEvent)
    requires CanHappen(s, e) && !e.Pass? && !e.OtherEnrich? && !e.QueueEnrichment?
    ensures Next(s, e).enrich == s.enrich
  {
    hide Step, Wants, Items, Picked;
  }

  /** Every ask was made to a row that was in the enrichment queue then, after its probe had ended. */
  lemma {:induction false} AskWitness(s: Stage, es: seq<StageEvent>, a: Ask) returns (k: nat)
    requires StageInv(s) && Happens(s, es) && s.asked == {} && a in Reached(s, es).asked
    ensures a.row in Reached(s, es).enrich.keyOf
    ensures InQueue(s, es, k, a.probe, a.row, Reached(s, es).enrich.keyOf[a.row])
    decreases |es|
  {
    hide StageInv, Next, CanHappen;
    k := 0;
    if es != [] {
      var n := |es| - 1;
      var before := es[..n];
      ReachedSnoc(s, es);
      ReachedKeeps(s, before);
      if a in Reached(s, before).asked {
        k := AskWitness(s, before, a);
        EnrichGrows(Reached(s, before), es[n]);
        assert before[..k] == es[..k];
      } else {
        NewAsk(Reached(s, before), es[n], a);
        k := |es|;
        assert es[..k] == es;
      }
    }
  }

  lemma {:induction false} ErrorWitness(s: Stage, es: seq<StageEvent>, f: AskError) returns (k: nat)
    requires Happens(s, es) && s.failed == {} && f in Reached(s, es).failed
    ensures ErrorAt(s, es, k, f.probe, f.key)
    decreases |es|
  {
    hide Next, Wanted;
    k := 0;
    if es != [] {
      var n := |es| - 1;
      var before := es[..n];
      ReachedSnoc(s, es);
      if f in Reached(s, before).failed {
        k := ErrorWitness(s, before, f);
        assert before[..k] == es[..k] && before[k] == es[k];
      } else {
        k := n;
        NewError(Reached(s, before), es[n], f);
      }
    }
  }

  /** At some moment after the probe had ended the enrichment was in the queue. */
  ghost predicate WasQueued(s: Stage, es: seq<StageEvent>, probe: int, key: EnrichKey) {
    exists k: nat, row :: InQueue(s, es, k, probe, row, key)
  }

  lemma AskWasQueued(clock: int, es: seq<StageEvent>, probe: int, key: EnrichKey)
    requires Happens(Begin(clock), es) && HasAsk(Reached(Begin(clock), es), probe, key)
    ensures WasQueued(Begin(clock), es, probe, key)
  {
    var s := Reached(Begin(clock), es);
    BeginOk(clock);
    hide Reached, Happens, StageInv;
    var a :| a in s.asked && a.probe == probe && a.row in s.enrich.keyOf && s.enrich.keyOf[a.row] == key;
    var k := AskWitness(Begin(clock), es, a);
  }

  /** In the order they are queued. */
  lemma HandedInOrder(clock: int, es: seq<StageEvent>, id: int)
    requires Happens(Begin(clock), es)
    requires id in Reached(Begin(clock), es).probes.completed
    ensures var s := Reached(Begin(clock), es);
      id in s.finished && id in s.probes.keyOf && OutcomeOk(s, id, s.probes.keyOf[id], s.finished[id])
    ensures var s := Reached(Begin(clock), es);
      var key, probe, outcome := s.probes.keyOf[id], s.finished[id].probe, s.finished[id].outcome;
      outcome.Stored? ==>
        var wants := Wants(outcome.found);
        && key in s.services && outcome.queued <= |wants|
        && (forall j :: 0 <= j < outcome.queued ==>
              WasQueued(Begin(clock), es, probe, EnrichKey(s.services[key].id, wants[j])))
        && (outcome.queued < |wants| ==>
              exists k: nat :: ErrorAt(Begin(clock), es, k, probe, EnrichKey(s.services[key].id, wants[outcome.queued])))
  {
    BeginOk(clock);
    ReachedKeeps(Begin(clock), es);
    hide Reached, Happens, WasQueued, ErrorAt, Wants, HasAsk, TablesOk, ServicesOk, EnrichOk, ReplicaOk;
    var s := Reached(Begin(clock), es);
    var key, probe, outcome := s.probes.keyOf[id], s.finished[id].probe, s.finished[id].outcome;
    assert OutcomeOk(s, id, key, s.finished[id]);
    if outcome.Stored? {
      forall j | 0 <= j < outcome.queued
        ensures WasQueued(Begin(clock), es, probe, EnrichKey(s.services[key].id, Wants(outcome.found)[j]))
      {
        AskWasQueued(clock, es, probe, EnrichKey(s.services[key].id, Wants(outcome.found)[j]));
      }
      if outcome.queued < |Wants(outcome.found)| {
        var want := EnrichKey(s.services[key].id, Wants(outcome.found)[outcome.queued]);
        var k := ErrorWitness(Begin(clock), es, AskError(probe, want));
      }
    }
  }

  /** Favicons come before frames, and those of streams before those of cameras. */
  function Place(kind: string): nat {
    if kind == "favicon" then 0 else if kind == "rtsp_frame" then 1 else 2
  }

  lemma PlaceOf(found: Found, kind: string) returns (j: nat)
    requires AsksFor(found, kind)
    ensures j < |Wants(found)| && Wants(found)[j] == kind
    ensures forall i :: 0 <= i <= j ==> Place(Wants(found)[i]) <= Place(kind)
  {
    j := (if kind != "favicon" && found.http then 1 else 0) + (if kind == "camera_frame" && found.rtsp then 1 else 0);
  }

  /** The enrichment was in the queue after that probe, or the insert of it, or of one that comes before it, reported an error. */
  ghost predicate QueuedOrFailed(s: Stage, es: seq<StageEvent>, probe: int, service: int, found: Found, kind: string) {
    || WasQueued(s, es, probe, EnrichKey(service, kind))
    || exists k: nat, earlier :: AsksFor(found, earlier) && Place(earlier) <= Place(kind)
         && ErrorAt(s, es, k, probe, EnrichKey(service, earlier))
  }

  /**
   The hand-off, over every interleaving with crashes and lost replies, however
   often a service is probed: a probe row removed by `complete` was completed on a
   probe of that row. Either it failed; or it found a firewall; or its save
   reported an error; or its findings were saved, and each enrichment they ask
   for (a favicon for a page, a frame for a stream, a frame for what is tagged as
   a camera) was in the queue at some moment after that probe, unless an insert
   for that probe, of it or of one that comes before it, reported an error.
   */
  lemma HandOff(clock: int, es: seq<StageEvent>, id: int)
    requires Happens(Begin(clock), es)
    requires id in Reached(Begin(clock), es).probes.completed
    ensures var s := Reached(Begin(clock), es);
      id in s.finished && id in s.probes.keyOf && OutcomeOk(s, id, s.probes.keyOf[id], s.finished[id])
    ensures var s := Reached(Begin(clock), es);
      var key, probe, outcome := s.probes.keyOf[id], s.finished[id].probe, s.finished[id].outcome;
      outcome.Stored? ==>
        && key in s.services
        && forall kind :: AsksFor(outcome.found, kind) ==>
             QueuedOrFailed(Begin(clock), es, probe, s.services[key].id, outcome.found, kind)
  {
    HandedInOrder(clock, es, id);
    var s := Reached(Begin(clock), es);
    var key, probe, outcome := s.probes.keyOf[id], s.finished[id].probe, s.finished[id].outcome;
    hide Reached, Happens, WasQueued, ErrorAt, Wants, HasAsk, AsksFor, Place;
    if outcome.Stored? {
      var found, service := outcome.found, s.services[key].id;
      forall kind | AsksFor(found, kind) ensures QueuedOrFailed(Begin(clock), es, probe, service, found, kind) {
        var j := PlaceOf(found, kind);
        if j < outcome.queued {
          assert WasQueued(Begin(clock), es, probe, EnrichKey(service, Wants(found)[j]));
        } else {
          WantsMeans(found, outcome.queued);
          var k: nat :| ErrorAt(Begin(clock), es, k, probe, EnrichKey(service, Wants(found)[outcome.queued]));
          assert Place(Wants(found)[outcome.queued]) <= Place(kind);
        }
      }
    }
  }

  /** The save statement of the task that completed the row ran. */
  predicate FindingsSaved(outcome: Outcome) {
    outcome.Stored? || (outcome.Unsaved? && outcome.reply != Refused)
  }

  /**
   Exactly when a service is stored: some save of its key ran. What is stored is
   the payload of such a save, found by a probe of that key that was no firewall;
   and a completed row whose own save ran has its service stored.
   */
  lemma StoredExactly(clock: int, es: seq<StageEvent>, key: ProbeKey)
    requires Happens(Begin(clock), es)
    ensures var s := Reached(Begin(clock), es);
      && (key in s.services <==> exists x :: x in s.saves && x.key == key && x.reply != Refused)
      && (key in s.services ==> exists x ::
            x in s.saves && x.key == key && x.reply != Refused && s.services[key].found == x.found
            && Answered(s, x.probe, x.id, key, x.found))
      && (forall id :: id in s.finished && KnownProbe(s, id, key) && FindingsSaved(s.finished[id].outcome) ==>
            key in s.services)
  {
    BeginOk(clock);
    ReachedKeeps(Begin(clock), es);
    var s := Reached(Begin(clock), es);
    if key in s.services {
      assert SaveRan(s, key, s.services[key].found);
      var x :| x in s.saves && x.key == key && x.found == s.services[key].found && x.reply != Refused;
      assert Answered(s, x.probe, x.id, key, x.found);
    }
    forall id | id in s.finished && KnownProbe(s, id, key) && FindingsSaved(s.finished[id].outcome)
      ensures key in s.services
    {
      assert OutcomeOk(s, id, key, s.finished[id]);
    }
  }

  /**
   A save that reports an error does not keep the row: from any state, the row is
   completed all the same, and its findings are stored exactly when the statement
   ran, or the service was there before.
   */
  lemma FailedSaveCompletes(s: Stage, r: int, k: int, reply: Reply)
    requires StageInv(s) && CanHappen(s, Save(r, k, reply)) && reply != Done
    requires s.replicas[r].tasks[k].id in s.probes.rows
    ensures var task := s.replicas[r].tasks[k];
      var u := Next(s, Save(r, k, reply));
      && CanHappen(u, CompleteProbe(r, k, Done))
      && var t := Next(u, CompleteProbe(r, k, Done));
         && task.id in t.probes.completed && task.id !in t.probes.rows
         && task.id in t.finished && t.finished[task.id] == Finish(task.probe, Unsaved(task.phase.found, reply))
         && (task.key in t.services <==> reply == Lost || task.key in s.services)
         && (reply == Lost ==> t.services[task.key].found == task.phase.found)
  {
    hide StageInv;
  }

  /** No probe and no enrichment is ever given up: ids handed in are present or completed. */
  lemma NoneDropped(clock: int, es: seq<StageEvent>)
    requires Happens(Begin(clock), es)
    ensures var s := Reached(Begin(clock), es);
      && s.probes.keyOf.Keys == s.probes.rows.Keys + s.probes.completed
      && s.enrich.keyOf.Keys == s.enrich.rows.Keys + s.enrich.completed
      && s.probes.rows.Keys !! s.probes.completed && s.enrich.rows.Keys !! s.enrich.completed
  {
    BeginOk(clock);
    ReachedKeeps(Begin(clock), es);
  }

  /**
   Every enrichment ever queued names a stored service, only that one, and was
   asked for by what a probe of that very service found.
   */
  lemma EnrichmentsAskedFor(clock: int, es: seq<StageEvent>, id: int)
    requires Happens(Begin(clock), es)
    requires id in Reached(Begin(clock), es).enrich.keyOf
    ensures var s := Reached(Begin(clock), es);
      var e := s.enrich.keyOf[id];
      exists key, probe :: key in s.services && probe in s.reports && AskedBy(s, e, key, probe)
        && forall other :: other in s.services && s.services[other].id == e.service ==> other == key
  {
    BeginOk(clock);
    ReachedKeeps(Begin(clock), es);
    var s := Reached(Begin(clock), es);
    hide Reached, Happens, AsksFor;
    assert AskedFor(s, s.enrich.keyOf[id]);
    var key, probe :| AskedBy(s, s.enrich.keyOf[id], key, probe);
  }

  lemma {:induction false} ItemsAre(rows: Rows<ProbeKey>, ids: seq<int>)
    requires forall i :: 0 <= i < |ids| ==> ids[i] in rows
    ensures |Items(rows, ids)| == |ids|
    ensures forall i :: 0 <= i < |ids| ==> Items(rows, ids)[i] == Item(ids[i], rows[ids[i]].key)
  {
    if ids != [] {
      ItemsAre(rows, ids[1..]);
    }
  }

  /** A claim whose reply comes takes ten rows at most, and each of them waits to be probed by its key. */
  lemma ProbesTaken(s: Stage, r: int, locked: set<int>)
    requires r in s.replicas && s.replicas[r].t.Some?
    ensures var ids := Picked(s.probes.rows, locked, 10, s.replicas[r].t.value);
      var pending := AfterClaimProbes(s, r, Done, locked).replicas[r].pending;
      && |pending| == |ids| <= 10
      && forall i :: 0 <= i < |ids| ==>
           ids[i] in s.probes.rows && pending[i] == Item(ids[i], s.probes.rows[ids[i]].key)
  {
    var ids := Picked(s.probes.rows, locked, 10, s.replicas[r].t.value);
    PickedClaimable(s.probes.rows, locked, 10, s.replicas[r].t.value);
    PickedPresent(s.probes.rows, locked, 10, s.replicas[r].t.value);
    ItemsAre(s.probes.rows, ids);
    hide Picked, Items, Step;
  }

  // ─── A probe with nothing in its way ───

  /** A task on its way: the findings are stored, and so many enrichments queued. */
  predicate Underway(s: Stage, r: int, k: int, id: int, key: ProbeKey, service: Service, done: nat) {
    && HasTask(s, r, k) && s.replicas[r].tasks[k].id == id && s.replicas[r].tasks[k].key == key
    && id in s.probes.rows && done <= |Wants(service.found)|
    && s.replicas[r].tasks[k].phase == Queueing(service.found, done)
    && key in s.services && s.services[key] == service
    && forall j :: 0 <= j < done ==> HasKey(s.enrich.rows, EnrichKey(service.id, Wants(service.found)[j]))
  }

  /** The enrichments that are left, and the completion. */
  function Rest(r: int, k: int, n: nat): seq<StageEvent> {
    if n == 0 then [CompleteProbe(r, k, Done)] else [QueueEnrichment(r, k, Done)] + Rest(r, k, n - 1)
  }

  lemma RestIs(r: int, k: int, n: nat)
    ensures Rest(r, k, n) ==
      if n == 0 then [CompleteProbe(r, k, Done)] + [] else [QueueEnrichment(r, k, Done)] + Rest(r, k, n - 1)
  {
  }

  lemma HappensThen(s: Stage, e: StageEvent, es: seq<StageEvent>)
    requires CanHappen(s, e) && Happens(Next(s, e), es)
    ensures Happens(s, [e] + es) && Reached(s, [e] + es) == Reached(Next(s, e), es)
  {
    hide CanHappen, Next;
    assert ([e] + es)[1..] == es;
  }

  lemma NothingHappens(s: Stage)
    ensures Happens(s, []) && Reached(s, []) == s
  {
  }

  lemma InsertAddsKey<K>(s: State<K>, key: K, other: K)
    requires Keyed(s)
    ensures HasKey(Step(s, Insert(key)).rows, key)
    ensures HasKey(s.rows, other) ==> HasKey(Step(s, Insert(key)).rows, other)
  {
    var t := Step(s, Insert(key));
    if !HasKey(s.rows, key) {
      assert t.rows[s.nextId].key == key;
    }
    if HasKey(s.rows, other) {
      var id :| id in s.rows && s.rows[id].key == other;
      assert id in t.rows && t.rows[id].key == other;
    }
  }

  lemma AskedFields(s: Stage, probe: int, key: EnrichKey)
    ensures var t := Asked(s, probe, key, Done);
      && t.probes == s.probes && t.replicas == s.replicas && t.services == s.services
      && t.enrich == Step(s.enrich, Insert(key))
  {
    hide Step, HasKey, Holder;
  }

  lemma EnrichKeyed(s: Stage)
    requires StageInv(s)
    ensures Keyed(s.enrich)
  {
    hide Conserved, LeasesCovered, GrantsSpaced, CutsKnown, NumbersOk, EnrichOk, ServicesOk, FinishedOk, ReplicaOk;
  }

  lemma QueueGoesOn(s: Stage, r: int, k: int, id: int, key: ProbeKey, service: Service, done: nat)
    requires StageInv(s) && Underway(s, r, k, id, key, service, done) && done < |Wants(service.found)|
    ensures CanHappen(s, QueueEnrichment(r, k, Done))
    ensures Underway(Next(s, QueueEnrichment(r, k, Done)), r, k, id, key, service, done + 1)
  {
    EnrichKeyed(s);
    hide StageInv, Wants, Step, Asked, Keyed, HasKey;
    var want := EnrichKey(service.id, Wants(service.found)[done]);
    AskedFields(s, s.replicas[r].tasks[k].probe, want);
    var t := Next(s, QueueEnrichment(r, k, Done));
    assert t.enrich == Step(s.enrich, Insert(want));
    forall j | 0 <= j < done + 1
      ensures HasKey(t.enrich.rows, EnrichKey(service.id, Wants(service.found)[j]))
    {
      InsertAddsKey(s.enrich, want, EnrichKey(service.id, Wants(service.found)[j]));
    }
  }

  /** The row is completed, the findings are stored, and every enrichment they ask for is queued. */
  ghost predicate HandedOn(s: Stage, id: int, key: ProbeKey, service: Service) {
    && id in s.probes.completed && key in s.services && s.services[key] == service
    && forall kind :: AsksFor(service.found, kind) ==> HasKey(s.enrich.rows, EnrichKey(service.id, kind))
  }

  lemma LastCompletes(s: Stage, r: int, k: int, id: int, key: ProbeKey, service: Service)
    requires Underway(s, r, k, id, key, service, |Wants(service.found)|)
    ensures CanHappen(s, CompleteProbe(r, k, Done))
    ensures HandedOn(Next(s, CompleteProbe(r, k, Done)), id, key, service)
  {
    hide Wants, HasKey, Settled, AsksFor;
    CompletedBy(s, s.replicas[r].tasks[k], Stored(service.found, |Wants(service.found)|));
    forall kind | AsksFor(service.found, kind) ensures HasKey(s.enrich.rows, EnrichKey(service.id, kind)) {
      var j := PlaceOf(service.found, kind);
    }
  }

  lemma CompletedBy(s: Stage, task: Task, outcome: Outcome)
    requires task.id in s.probes.rows
    ensures var t := Settled(s, task, outcome, Done);
      task.id in t.probes.completed && t.services == s.services && t.enrich == s.enrich && t.replicas == s.replicas
  {
  }

  lemma {:induction false} RestHappens(s: Stage, r: int, k: int, id: int, key: ProbeKey, service: Service, done: nat)
    requires StageInv(s) && Underway(s, r, k, id, key, service, done) && done <= |Wants(service.found)|
    ensures Happens(s, Rest(r, k, |Wants(service.found)| - done))
    ensures HandedOn(Reached(s, Rest(r, k, |Wants(service.found)| - done)), id, key, service)
    decreases |Wants(service.found)| - done
  {
    hide *;
    var n := |Wants(service.found)| - done;
    RestIs(r, k, n);
    if n == 0 {
      var e := CompleteProbe(r, k, Done);
      LastCompletes(s, r, k, id, key, service);
      NothingHappens(Next(s, e));
      HappensThen(s, e, []);
    } else {
      var e := QueueEnrichment(r, k, Done);
      QueueGoesOn(s, r, k, id, key, service, done);
      NextKeeps(s, e);
      RestHappens(Next(s, e), r, k, id, key, service, done + 1);
      HappensThen(s, e, Rest(r, k, n - 1));
    }
  }

  lemma SaveStarts(s: Stage, r: int, k: int)
    requires HasTask(s, r, k) && s.replicas[r].tasks[k].phase.Saving? && s.replicas[r].tasks[k].id in s.probes.rows
    ensures var task := s.replicas[r].tasks[k];
      var t := Next(s, Save(r, k, Done));
      && task.key in t.services && t.services[task.key].found == task.phase.found
      && Underway(t, r, k, task.id, task.key, t.services[task.key], 0)
  {
    hide Wants, HasKey;
  }

  /**
   With nothing in its way, from any state: findings that are saved go on,
   enrichment by enrichment, until the row is completed, they are stored, and all
   they ask for is queued.
   */
  lemma ProbeHandsOn(s: Stage, r: int, k: int)
    requires StageInv(s) && HasTask(s, r, k) && s.replicas[r].tasks[k].phase.Saving?
    requires s.replicas[r].tasks[k].id in s.probes.rows
    ensures CanHappen(s, Save(r, k, Done))
    ensures var task := s.replicas[r].tasks[k];
      var t := Next(s, Save(r, k, Done));
      var es := Rest(r, k, |Wants(task.phase.found)|);
      && task.key in t.services && t.services[task.key].found == task.phase.found
      && Happens(t, es) && HandedOn(Reached(t, es), task.id, task.key, t.services[task.key])
  {
    SaveMoves(s, r, k, Done);
    SaveStarts(s, r, k);
    var task := s.replicas[r].tasks[k];
    var t := Next(s, Save(r, k, Done));
    hide StageInv, Happens, Reached, Underway, Next, Rest, Wants, HandedOn;
    RestHappens(t, r, k, task.id, task.key, t.services[task.key], 0);
  }

  // ─── What is stored is the latest ───

  /** The step after the first `k` saved findings for that key, and its statement ran. */
  ghost predicate SavesAt(s: Stage, es: seq<StageEvent>, k: nat, key: ProbeKey) {
    && k < |es| && Happens(s, es[..k]) && CanHappen(Reached(s, es[..k]), es[k])
    && es[k].Save? && es[k].reply != Refused
    && Reached(s, es[..k]).replicas[es[k].r].tasks[es[k].k].key == key
  }

  /** A step leaves the services alone, but for a save that runs. */
  lemma ServicesStep(s: Stage, e: StageEvent)
    requires CanHappen(s, e)
    ensures Next(s, e).services ==
      if e.Save? && e.reply != Refused then
        var task := s.replicas[e.r].tasks[e.k];
        s.services[task.key := Service(if task.key in s.services then s.services[task.key].id else s.nextService,
                                       task.phase.found)]
      else s.services
  {
    hide Step, Wants, Items, Picked, Asked, Settled;
    match e
    case QueueEnrichment(r, k, reply) => QueueLeavesServices(s, r, k, reply);
    case CompleteProbe(r, k, reply) => SettleLeavesServices(s, s.replicas[r].tasks[k], Ended(s.replicas[r].tasks[k].phase).value, reply);
    case _ =>
  }

  lemma QueueLeavesServices(s: Stage, r: int, k: int, reply: Reply)
    requires CanHappen(s, QueueEnrichment(r, k, reply))
    ensures Next(s, QueueEnrichment(r, k, reply)).services == s.services
  {
    hide Step, Wants, HasKey, Holder;
  }

  lemma SettleLeavesServices(s: Stage, task: Task, outcome: Outcome, reply: Reply)
    ensures Settled(s, task, outcome, reply).services == s.services
  {
    hide Step;
  }

  /** The id of a service stays once given, whatever is saved later. */
  lemma {:induction false} ServiceKeepsId(s: Stage, es: seq<StageEvent>, key: ProbeKey)
    requires Happens(s, es) && key in s.services
    ensures key in Reached(s, es).services && Reached(s, es).services[key].id == s.services[key].id
    decreases |es|
  {
    hide Next, CanHappen;
    if es != [] {
      ServicesStep(s, es[0]);
      ServiceKeepsId(Next(s, es[0]), es[1..], key);
    }
  }

  /** A stored service holds what the last save of its key that ran had found. */
  lemma {:induction false} LatestSave(clock: int, es: seq<StageEvent>, key: ProbeKey) returns (k: nat)
    requires Happens(Begin(clock), es) && key in Reached(Begin(clock), es).services
    ensures SavesAt(Begin(clock), es, k, key)
    ensures var m := Reached(Begin(clock), es[..k]);
      Reached(Begin(clock), es).services[key].found == m.replicas[es[k].r].tasks[es[k].k].phase.found
    ensures forall j: nat :: k < j ==> !SavesAt(Begin(clock), es, j, key)
    decreases |es|
  {
    var s := Begin(clock);
    var n := |es| - 1;
    var before := es[..n];
    hide Next, CanHappen, Begin;
    assert es != [] by { NothingStoredFirst(clock, es, key); }
    ReachedSnoc(s, es);
    var m := Reached(s, before);
    ServicesStep(m, es[n]);
    if es[n].Save? && es[n].reply != Refused && m.replicas[es[n].r].tasks[es[n].k].key == key {
      k := n;
    } else {
      k := LatestSave(clock, before, key);
      assert before[..k] == es[..k] && before[k] == es[k];
      forall j: nat | k < j ensures !SavesAt(s, es, j, key) {
        if j < n {
          assert before[..j] == es[..j] && before[j] == es[j];
          assert !SavesAt(s, before, j, key);
        }
      }
    }
  }

  lemma NothingStoredFirst(clock: int, es: seq<StageEvent>, key: ProbeKey)
    requires Happens(Begin(clock), es) && key in Reached(Begin(clock), es).services
    ensures es != []
  {
  }
}
