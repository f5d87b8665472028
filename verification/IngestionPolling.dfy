/** Polling for a parse ends: on a clock that does not run backwards, the number of polls of a generation
    is bounded by the timeout and the backoff, because no command is served before its ready time. */
module IngestionPolling {
  import opened Tables
  import opened DeliverySpec
  import opened IngestionSpec
  import opened IngestionMachine
  import opened IngestionInvariants
  import opened IngestionSteps
  import opened IngestionContinue
  import opened IngestionEnds
  import opened IngestionService
  import opened IngestionDelivery
  import opened IngestionSafety
  import opened IngestionTheorems
  import Delivery = DeliveryMachine

  // ---- the schedule -----------------------------------------------------------------------------

  /** Seconds the first n polls are spread over, were it not for the deadline. */
  function Elapsed(interval: real, n: nat): real {
    if n == 0 then 0.0 else Elapsed(interval, n - 1) + Delay(interval, n - 1)
  }

  lemma DelayAtLeast(interval: real, k: nat)
    requires 0.0 < interval <= 60.0
    ensures interval <= Delay(interval, k) <= 60.0
  {
  }

  lemma {:induction false} ElapsedMonotone(interval: real, m: nat, n: nat)
    requires 0.0 < interval <= 60.0 && m <= n
    ensures Elapsed(interval, m) <= Elapsed(interval, n)
    decreases n - m
  {
    if m < n {
      ElapsedMonotone(interval, m, n - 1);
      DelayAtLeast(interval, n - 1);
    }
  }

  /** n equal intervals. */
  function Repeated(interval: real, n: nat): real {
    if n == 0 then 0.0 else Repeated(interval, n - 1) + interval
  }

  lemma {:induction false} RepeatedIsProduct(interval: real, n: nat)
    ensures Repeated(interval, n) == n as real * interval
  {
    if n > 0 {
      RepeatedIsProduct(interval, n - 1);
    }
  }

  lemma {:induction false} ElapsedAtLeast(interval: real, n: nat)
    requires 0.0 < interval <= 60.0
    ensures Elapsed(interval, n) >= Repeated(interval, n)
  {
    if n > 0 {
      ElapsedAtLeast(interval, n - 1);
      DelayAtLeast(interval, n - 1);
    }
  }

  // ---- what time has to do with a state -----------------------------------------------------------

  /** A clock reading and the provider policy read together with it. */
  datatype Reading = Reading(at: real, cfg: Config)

  /** The cursor's deadline and interval are those of this reading. */
  predicate SetBy(r: Reading, c: Cursor) {
    r.cfg.Valid() && c.deadline == Some(r.at + r.cfg.timeout) && c.interval == r.cfg.interval
  }

  /** A deadline was set at one of these readings, none later than the latest. */
  ghost predicate DeadlineSet(read: set<Reading>, c: Cursor, latest: real) {
    c.deadline.Some? ==> exists r :: r in read && r.at <= latest && SetBy(r, c)
  }

  /** Every earlier poll has waited out its delay since the deadline was set, unless capped by it. */
  predicate OnSchedule(r: Reading, c: Cursor)
    requires c.step > 0 && c.readyAt.Some? && c.deadline.Some?
  {
    && c.readyAt.value <= c.deadline.value
    && c.readyAt.value >= Lesser(c.deadline.value, r.at + Elapsed(c.interval, c.step))
    && Elapsed(c.interval, c.step - 1) < r.cfg.timeout
  }

  /** One reading set the deadline, and the polls keep its schedule. */
  predicate TimedBy(r: Reading, c: Cursor, latest: real) {
    && r.at <= latest && SetBy(r, c)
    && (c.step > 0 ==> c.readyAt.Some? && OnSchedule(r, c))
  }

  ghost predicate Timed(read: set<Reading>, c: Cursor, latest: real) {
    && (c.step > 0 ==> c.deadline.Some?)
    && (c.deadline.Some? ==> exists r :: r in read && TimedBy(r, c, latest))
  }

  ghost predicate JobsTimed(read: set<Reading>, jobs: map<JobId, Job>, latest: real) {
    forall j :: j in jobs ==> Timed(read, jobs[j].cursor, latest)
  }

  ghost predicate HandlersTimed(read: set<Reading>, handlers: map<nat, Handler>, latest: real) {
    forall w :: w in handlers && HasLocal(handlers[w]) ==> DeadlineSet(read, handlers[w].l.cursor, latest)
  }

  /** The command of a scheduled position is not due before the cursor says so. */
  predicate CommandTimed(m: Message, jobs: map<JobId, Job>) {
    m.intent.topic == TOPIC && m.intent.payload.Command? && m.intent.payload.job in jobs
    && AtCursor(m.intent.payload.generation, m.intent.payload.step, jobs[m.intent.payload.job].cursor)
    && m.intent.payload.step > 0
    ==> m.intent.notBefore == jobs[m.intent.payload.job].cursor.readyAt
  }

  ghost predicate CommandsTimed(outbox: map<MessageId, Message>, jobs: map<JobId, Job>) {
    forall id :: id in outbox ==> CommandTimed(outbox[id], jobs)
  }

  function MessageOf(c: Delivery.Consumer): MessageId {
    if c.Selected? then c.id else c.lease.message
  }

  /** Whoever selected a message did so once it was due. */
  ghost predicate ConsumersDue(core: Delivery.System, latest: real) {
    forall w :: w in core.consumers && MessageOf(core.consumers[w]) in core.db.outbox ==>
      Reached(Due(core.db.outbox[MessageOf(core.consumers[w])].intent), latest)
  }

  ghost predicate TimeOk(read: set<Reading>, s: System, latest: real) {
    && JobsTimed(read, s.jobs, latest) && HandlersTimed(read, s.handlers, latest)
    && CommandsTimed(s.core.db.outbox, s.jobs) && ConsumersDue(s.core, latest)
  }

  // ---- one cursor ---------------------------------------------------------------------------------

  lemma FlushTimed(read: set<Reading>, c: Cursor, d: Cursor, latest: real)
    requires Timed(read, c, latest) && DeadlineSet(read, d, latest) && Extends(c, d)
    ensures Timed(read, d, latest)
  {
    if c.deadline.Some? {
      var r :| r in read && TimedBy(r, c, latest);
      assert TimedBy(r, d, latest);
    } else if d.deadline.Some? {
      var r :| r in read && r.at <= latest && SetBy(r, d);
      assert TimedBy(r, d, latest);
    }
  }

  /** Time passing changes nothing about how a cursor got its deadline. */
  lemma StaysTimed(read: set<Reading>, c: Cursor, latest: real, now: real)
    requires Timed(read, c, latest) && latest <= now
    ensures Timed(read, c, now)
  {
    if c.deadline.Some? {
      var r :| r in read && TimedBy(r, c, latest);
      assert TimedBy(r, c, now);
    }
  }

  lemma StaysSet(read: set<Reading>, c: Cursor, latest: real, now: real)
    requires DeadlineSet(read, c, latest) && latest <= now
    ensures DeadlineSet(read, c, now)
  {
  }

  lemma TimeStaysOk(read: set<Reading>, s: System, latest: real, now: real)
    requires TimeOk(read, s, latest) && latest <= now
    ensures TimeOk(read, s, now)
  {
    forall j | j in s.jobs ensures Timed(read, s.jobs[j].cursor, now) {
      StaysTimed(read, s.jobs[j].cursor, latest, now);
    }
    forall w | w in s.handlers && HasLocal(s.handlers[w]) ensures DeadlineSet(read, s.handlers[w].l.cursor, now) {
      StaysSet(read, s.handlers[w].l.cursor, latest, now);
    }
  }

  /** The next poll stays on schedule: the current one was due, and its ready time bounds the sum so far. */
  lemma ScheduledTimed(read: set<Reading>, c: Cursor, now: real)
    requires Timed(read, c, now) && c.deadline.Some? && now < c.deadline.value
    requires c.step > 0 ==> c.readyAt.Some? && c.readyAt.value <= now
    ensures Timed(read, Scheduled(c, now), now)
  {
    var r :| r in read && TimedBy(r, c, now);
    ScheduledBy(r, c, now);
  }

  lemma ScheduledBy(r: Reading, c: Cursor, now: real)
    requires TimedBy(r, c, now) && c.deadline.Some? && now < c.deadline.value
    requires c.step > 0 ==> c.readyAt.Some? && c.readyAt.value <= now
    ensures TimedBy(r, Scheduled(c, now), now)
  {
  }

  lemma BoundedStep(read: set<Reading>, c: Cursor, latest: real) returns (r: Reading)
    requires Timed(read, c, latest) && c.step > 0
    ensures r in read && SetBy(r, c)
    ensures forall n: nat :: Elapsed(c.interval, n) >= r.cfg.timeout ==> c.step <= n
  {
    r :| r in read && TimedBy(r, c, latest);
    forall n: nat | Elapsed(c.interval, n) >= r.cfg.timeout ensures c.step <= n {
      if c.step > n {
        ElapsedMonotone(c.interval, n, c.step - 1);
      }
    }
  }

  // ---- steps --------------------------------------------------------------------------------------

  lemma DeliverTimed(p: Policy, read: set<Reading>, s: System, a: Delivery.Action, now: real, t: System)
    requires TimeOk(read, s, now) && Delivers(p, s, a, now, t) && Delivery.LeasesSound(s.core)
    ensures TimeOk(read, t, now)
  {
    DeliverCarries(p, s.core, a);
    DeliverConsumersDue(p, s.core, a, now);
    forall id | id in t.core.db.outbox ensures CommandTimed(t.core.db.outbox[id], t.jobs) {
      if id in s.core.db.outbox {
        assert CommandTimed(s.core.db.outbox[id], s.jobs);
      }
    }
  }

  /** A message is selected only when due, and taken only after being selected. */
  lemma DeliverConsumersDue(p: Policy, core: Delivery.System, a: Delivery.Action, now: real)
    requires Delivery.Enabled(p, core, a) && !a.Commit? && ReadsClock(a, now) && Delivery.LeasesSound(core)
    requires ConsumersDue(core, now) && Carried(core.db, Delivery.Next(p, core, a).db)
    ensures ConsumersDue(Delivery.Next(p, core, a), now)
  {
  }

  lemma RestartTimed(read: set<Reading>, s: System, t: System, job: JobId, id: MessageId, now: real)
    requires TimeOk(read, s, now) && CommandsSound(s) && Restarted(s, t, job, id)
    requires Delivery.LeasesSound(s.core)
    requires t.jobs[job] == (if job in s.jobs then Retried(s.jobs[job]) else NewJob(t.jobs[job].source))
    ensures TimeOk(read, t, now)
  {
    forall m | m in t.core.db.outbox ensures CommandTimed(t.core.db.outbox[m], t.jobs) {
      if m in s.core.db.outbox {
        assert CommandTimed(s.core.db.outbox[m], s.jobs);
      }
    }
  }

  lemma OperatorTimed(read: set<Reading>, s: System, t: System, now: real)
    requires TimeOk(read, s, now) && t.core == s.core && t.handlers == s.handlers
    requires t.jobs.Keys == s.jobs.Keys
    requires forall j :: j in s.jobs ==> t.jobs[j].cursor == s.jobs[j].cursor
    ensures TimeOk(read, t, now)
  {
  }

  lemma DeadlineAdded(read: set<Reading>, cfg: Config, c: Cursor, now: real)
    requires cfg.Valid() && Reading(now, cfg) in read && DeadlineSet(read, c, now)
    ensures DeadlineSet(read, WithDeadline(c, cfg, now), now)
  {
    if c.deadline.None? {
      assert SetBy(Reading(now, cfg), WithDeadline(c, cfg, now));
    }
  }

  lemma BeginDeadline(read: set<Reading>, cfg: Config, s: System, l: Local, now: real, next: Handler)
    requires cfg.Valid() && Reading(now, cfg) in read
    requires l.job in s.jobs && BeginNext(cfg, s, l, now, next) && DeadlineSet(read, l.cursor, now)
    ensures HasLocal(next) && DeadlineSet(read, next.l.cursor, now)
  {
    DeadlineAdded(read, cfg, l.cursor, now);
  }

  lemma ConfirmDeadline(read: set<Reading>, cfg: Config, s: System, l: Local, intent: OpIntent, document: string,
                        now: real, e: Effect, next: Handler)
    requires cfg.Valid() && Reading(now, cfg) in read && l.job in s.jobs && DeadlineSet(read, l.cursor, now)
    requires ConfirmsUpload(cfg, s, l, intent, document, now, e, next)
    ensures HasLocal(next) && DeadlineSet(read, next.l.cursor, now)
  {
    if UploadSaved(cfg, l, intent, document, now, next) {
      var upload := ConfirmedUpload(intent, document, next.l.cursor.upload.value.datasetName);
      DeadlineAdded(read, cfg, l.cursor.(upload := Some(upload)), now);
    }
  }

  /** Only reading the upload off the cursor or confirming it sets a deadline, and never over an old one. */
  lemma NextDeadline(read: set<Reading>, cfg: Config, s: System, w: nat, now: real, h: Handler, e: Effect,
                     next: Handler)
    requires cfg.Valid() && HandlerOk(s, h) && HasLocal(h) && !h.Refresh? && Allows(cfg, s, w, now, h, e, next)
    requires Reading(now, cfg) in read && DeadlineSet(read, h.l.cursor, now)
    ensures HasLocal(next) && DeadlineSet(read, next.l.cursor, now)
  {
    if h.Begin? {
      BeginDeadline(read, cfg, s, h.l, now, next);
    } else if h.UploadConfirm? {
      ConfirmDeadline(read, cfg, s, h.l, h.intent, h.document, now, e, next);
    } else {
      AllowsProceeds(cfg, s, w, now, h, e, next);
    }
  }

  /** Jobs whose positions and ready times are kept keep their commands' times. */
  lemma CommandsStayTimed(s: System, t: System)
    requires JobsExtend(s, t) && t.core == s.core && CommandsTimed(s.core.db.outbox, s.jobs)
    ensures CommandsTimed(t.core.db.outbox, t.jobs)
  {
  }

  lemma CommitTimed(read: set<Reading>, s: System, w: nat, e: Effect, now: real, next: Handler, t: System)
    requires Serving(s) && Synced(s) && w in s.handlers && Shape(s, w, e, now, next, t)
    requires JobsTimed(read, s.jobs, now) && HandlersTimed(read, s.handlers, now)
    ensures JobsTimed(read, t.jobs, now)
  {
    if e.Commit? {
      var l := s.handlers[w].l;
      assert Serves(s, w) && Effective(s, w) && InSync(s.jobs[l.job].cursor, l);
      if l.dirty {
        FlushTimed(read, s.jobs[l.job].cursor, l.cursor, now);
      }
    }
  }

  lemma HandleHandlersTimed(read: set<Reading>, cfg: Config, s: System, w: nat, e: Effect, now: real, next: Handler)
    requires cfg.Valid() && w in s.handlers && Serves(s, w) && HandlerOk(s, s.handlers[w])
    requires Reading(now, cfg) in read && Allows(cfg, s, w, now, s.handlers[w], e, next)
    requires JobsTimed(read, s.jobs, now) && HandlersTimed(read, s.handlers, now)
    ensures HasLocal(next) ==> DeadlineSet(read, next.l.cursor, now)
  {
    var h := s.handlers[w];
    if h.Load? {
      LoadFacts(cfg, s, w, e, now, next);
    } else if !h.Refresh? && HasLocal(h) {
      NextDeadline(read, cfg, s, w, now, h, e, next);
    }
  }

  lemma HandleTimed(read: set<Reading>, cfg: Config, s: System, w: nat, e: Effect, now: real, t: System)
    requires cfg.Valid() && Reading(now, cfg) in read && HandlersOk(s) && Serving(s)
    requires Synced(s) && w in s.handlers && w in t.handlers && Continues(cfg, s, w, e, now, t.handlers[w], t)
    requires TimeOk(read, s, now)
    ensures TimeOk(read, t, now)
  {
    var next := t.handlers[w];
    assert Serves(s, w) && HandlerOk(s, s.handlers[w]);
    HandleHandlersTimed(read, cfg, s, w, e, now, next);
    ContinueShape(cfg, s, w, e, now, next, t);
    ShapeTimed(read, s, w, e, now, next, t);
  }

  lemma ShapeHandlersTimed(read: set<Reading>, s: System, w: nat, e: Effect, now: real, next: Handler, t: System)
    requires w in s.handlers && Shape(s, w, e, now, next, t)
    requires HandlersTimed(read, s.handlers, now) && ConsumersDue(s.core, now)
    requires HasLocal(next) ==> DeadlineSet(read, next.l.cursor, now)
    ensures t.core == s.core && HandlersTimed(read, t.handlers, now) && ConsumersDue(t.core, now)
  {
  }

  lemma ShapeTimed(read: set<Reading>, s: System, w: nat, e: Effect, now: real, next: Handler, t: System)
    requires Serving(s) && Synced(s) && w in s.handlers && Shape(s, w, e, now, next, t)
    requires TimeOk(read, s, now) && (HasLocal(next) ==> DeadlineSet(read, next.l.cursor, now))
    ensures TimeOk(read, t, now)
  {
    ShapeJobs(s, w, e, now, next, t);
    ShapeHandlersTimed(read, s, w, e, now, next, t);
    CommandsStayTimed(s, t);
    CommitTimed(read, s, w, e, now, next, t);
  }

  /** The message a handler serves at a scheduled position was due at the position's ready time. */
  lemma ServedWhenReady(read: set<Reading>, s: System, w: nat, now: real)
    requires TimeOk(read, s, now) && w in s.handlers && Serves(s, w) && HasLocal(s.handlers[w])
    requires var l := s.handlers[w].l; AtCursor(l.generation, l.step, s.jobs[l.job].cursor)
    ensures var c := s.jobs[s.handlers[w].l.job].cursor; c.step > 0 ==> c.readyAt.Some? && c.readyAt.value <= now
  {
  }

  lemma FinishJobTimed(read: set<Reading>, a: Job, l: Local, o: Outcome, now: real)
    requires Timed(read, a.cursor, now) && DeadlineSet(read, l.cursor, now)
    requires InSync(a.cursor, l) && FinalJob(a, l, o, now).Some?
    requires a.cursor.step > 0 ==> a.cursor.readyAt.Some? && a.cursor.readyAt.value <= now
    ensures Timed(read, FinalJob(a, l, o, now).value.cursor, now)
    ensures !Successor(l, o, now) ==> FinalJob(a, l, o, now).value.cursor.readyAt == a.cursor.readyAt
  {
    FlushTimed(read, a.cursor, l.cursor, now);
    if Successor(l, o, now) {
      ScheduledTimed(read, l.cursor, now);
    }
  }

  lemma FinishTimed(read: set<Reading>, s: System, w: nat, l: Local, o: Outcome, id: MessageId, now: real, t: System)
    requires TimeOk(read, s, now) && l.job in s.jobs && CommandsSound(s)
    requires Delivery.LeasesSound(s.core)
    requires Finished(s, w, l, NextCommand(s, l, o, now), id, t)
    requires FinalJob(s.jobs[l.job], l, o, now) == Some(t.jobs[l.job])
    requires InSync(s.jobs[l.job].cursor, l)
    ensures TimeOk(read, t, now)
  {
    ServedWhenReady(read, s, w, now);
    FinishJobTimed(read, s.jobs[l.job], l, o, now);
    FinishCommandsTimed(s, w, l, NextCommand(s, l, o, now), id, t);
    FinishConsumersDue(s, w, l, NextCommand(s, l, o, now), id, t, now);
  }

  lemma FinishConsumersDue(s: System, w: nat, l: Local, next: Option<Event>, id: MessageId, t: System, now: real)
    requires Finished(s, w, l, next, id, t) && Delivery.LeasesSound(s.core) && ConsumersDue(s.core, now)
    ensures ConsumersDue(t.core, now)
  {
  }

  /** No old command sits at the successor's position, so its time is the successor's own. */
  lemma FinishCommandsTimed(s: System, w: nat, l: Local, next: Option<Event>, id: MessageId, t: System)
    requires CommandsTimed(s.core.db.outbox, s.jobs) && CommandsSound(s) && l.job in s.jobs
    requires Finished(s, w, l, next, id, t)
    requires next.None? ==> t.jobs[l.job].cursor.readyAt == s.jobs[l.job].cursor.readyAt
    ensures CommandsTimed(t.core.db.outbox, t.jobs)
  {
  }

  lemma GiveUpTimed(read: set<Reading>, s: System, w: nat, l: Local, now: real)
    requires Serving(s) && Synced(s) && w in s.handlers && s.handlers[w] == Reconcile(l) && Fenced(s, w, l, now)
    requires TimeOk(read, s, now)
    ensures TimeOk(read, Gone(Committed(s, l, s.journal, Some(ReconciliationRequired)), w), now)
  {
    var next, e := Reconcile(Clean(l)), Commit(s.journal, Some(ReconciliationRequired));
    var u := Goto(Committed(s, l, s.journal, Some(ReconciliationRequired)), w, next);
    assert Serves(s, w);
    GiveUpShape(s, w, l, now, u);
    ShapeJobs(s, w, e, now, next, u);
    CommandsStayTimed(s, u);
    CommitTimed(read, s, w, e, now, next, u);
  }

  lemma AckTimed(read: set<Reading>, s: System, w: nat, t: System, now: real)
    requires TimeOk(read, s, now) && w in s.handlers && Acknowledged(s, w, t)
    ensures TimeOk(read, t, now)
  {
  }

  lemma FinalTimed(p: Policy, read: set<Reading>, s: System, w: nat, l: Local, o: Outcome, id: MessageId, now: real,
                   t: System)
    requires Delivery.IndexSound(s.core.db) && Delivery.LeasesSound(s.core) && CommandsSound(s)
    requires Serving(s) && Synced(s) && w in s.handlers && s.handlers[w] == Finish(l, o) && HandlersOk(s)
    requires EndsFinal(p, s, w, l, o, id, now, t) && TimeOk(read, s, now)
    ensures TimeOk(read, t, now)
  {
    assert HandlerOk(s, s.handlers[w]);
    EndFinished(p, s, w, l, o, id, now, t);
    assert Serves(s, w) && Effective(s, w);
    FinishTimed(read, s, w, l, o, id, now, t);
  }

  lemma AckOnlyTimed(p: Policy, read: set<Reading>, s: System, w: nat, now: real, t: System)
    requires w in s.handlers && EndsAcking(p, s, w, now, t) && TimeOk(read, s, now)
    ensures TimeOk(read, t, now)
  {
    AckShape(p, s, w, now, t);
    AckTimed(read, s, w, t, now);
  }

  lemma EndTimed(p: Policy, read: set<Reading>, s: System, w: nat, id: MessageId, now: real, t: System)
    requires Delivery.IndexSound(s.core.db) && Delivery.LeasesSound(s.core) && CommandsSound(s)
    requires Serving(s) && Synced(s) && HandlersOk(s) && w in s.handlers && Ends(p, s, w, id, now, t)
    requires TimeOk(read, s, now)
    ensures TimeOk(read, t, now)
  {
    match s.handlers[w]
    case AckOnly => AckOnlyTimed(p, read, s, w, now, t);
    case Finish(l, o) => FinalTimed(p, read, s, w, l, o, id, now, t);
    case Reconcile(l) => GiveUpTimed(read, s, w, l, now);
    case _ =>
  }

  lemma SubmitTimed(p: Policy, read: set<Reading>, s: System, job: JobId, source: Source, id: MessageId, now: real,
                    t: System)
    requires Inv(p, s) && Submits(p, s, job, source, id, now, t) && TimeOk(read, s, now)
    ensures TimeOk(read, t, now)
  {
    SubmitRestarts(p, s, t, job, source, id, now);
    RestartTimed(read, s, t, job, id, now);
  }

  lemma RetryTimed(p: Policy, read: set<Reading>, s: System, job: JobId, force: bool, id: MessageId, now: real,
                   t: System)
    requires Inv(p, s) && Retries(p, s, job, force, id, now, t) && TimeOk(read, s, now)
    ensures TimeOk(read, t, now)
  {
    RetryRestarts(p, s, t, job, force, id, now);
    RestartTimed(read, s, t, job, id, now);
  }

  lemma RequestTimed(p: Policy, read: set<Reading>, s: System, job: JobId, id: MessageId, now: real, t: System)
    requires FirstCommands(s) && Requests(p, s, job, id, now, t) && TimeOk(read, s, now)
    ensures TimeOk(read, t, now)
  {
  }

  lemma OverrideTimed(read: set<Reading>, s: System, job: JobId, kind: Failure, now: real, t: System)
    requires Overrides(s, job, kind, t) && TimeOk(read, s, now)
    ensures TimeOk(read, t, now)
  {
  }

  lemma StartTimed(p: Policy, read: set<Reading>, s: System, step: Step, t: System)
    requires Inv(p, s) && Serviced(p, s, step, t) && TimeOk(read, s, step.now)
    requires step.Submit? || step.Request? || step.Retry?
    ensures TimeOk(read, t, step.now)
  {
    match step
    case Submit(job, source, id, now) => SubmitTimed(p, read, s, job, source, id, now, t);
    case Request(job, id, now) => RequestTimed(p, read, s, job, id, now, t);
    case Retry(job, force, id, now) => RetryTimed(p, read, s, job, force, id, now, t);
    case _ =>
  }

  lemma ServiceTimed(p: Policy, read: set<Reading>, s: System, step: Step, t: System)
    requires Inv(p, s) && Serviced(p, s, step, t) && TimeOk(read, s, step.now)
    ensures TimeOk(read, t, step.now)
  {
    match step
    case Deliver(a, now) => DeliverTimed(p, read, s, a, now, t);
    case Override(job, kind, now) => OverrideTimed(read, s, job, kind, now, t);
    case Recover(_, _, now) => OperatorTimed(read, s, t, now);
    case _ => StartTimed(p, read, s, step, t);
  }

  lemma HandlerStepTimed(p: Policy, read: set<Reading>, s: System, step: Step, t: System)
    requires Inv(p, s) && TakesStep(p, s, step, t) && (step.Handle? || step.End?) && TimeOk(read, s, step.now)
    requires step.Handle? ==> Reading(step.now, step.cfg) in read
    ensures TimeOk(read, t, step.now)
  {
    if step.Handle? {
      HandleTimed(read, step.cfg, s, step.w, step.e, step.now, t);
    } else {
      EndTimed(p, read, s, step.w, step.id, step.now, t);
    }
  }

  /** Each step at a reading that is not behind keeps the schedule. */
  lemma StepTimed(p: Policy, read: set<Reading>, s: System, step: Step, t: System, latest: real)
    requires Inv(p, s) && TakesStep(p, s, step, t) && TimeOk(read, s, latest) && latest <= step.now
    requires step.Handle? ==> Reading(step.now, step.cfg) in read
    ensures TimeOk(read, t, step.now)
  {
    TimeStaysOk(read, s, latest, step.now);
    if step.Handle? || step.End? {
      HandlerStepTimed(p, read, s, step, t);
    } else {
      ServiceTimed(p, read, s, step, t);
    }
  }

  // ---- over runs ------------------------------------------------------------------------------------

  /** The clock never runs backwards. */
  ghost predicate Monotone(steps: seq<Step>) {
    forall i, k :: 0 <= i < k < |steps| ==> steps[i].now <= steps[k].now
  }

  /** A step at a later reading keeps the schedule. */
  ghost predicate KeepsTime(read: set<Reading>, s: System, step: Step, t: System) {
    forall latest :: TimeOk(read, s, latest) && latest <= step.now ==> TimeOk(read, t, step.now)
  }

  lemma StepKeepsTime(p: Policy, read: set<Reading>, s: System, step: Step, t: System)
    requires Inv(p, s) && TakesStep(p, s, step, t) && (step.Handle? ==> Reading(step.now, step.cfg) in read)
    ensures KeepsTime(read, s, step, t)
  {
    forall latest | TimeOk(read, s, latest) && latest <= step.now ensures TimeOk(read, t, step.now) {
      StepTimed(p, read, s, step, t, latest);
    }
  }

  /** Every reading of the first n steps that may have set a deadline. */
  function Readings(steps: seq<Step>, n: nat): set<Reading>
    requires n <= |steps|
  {
    set k | 0 <= k < n && steps[k].Handle? :: Reading(steps[k].now, steps[k].cfg)
  }

  ghost predicate TimedHistory(read: set<Reading>, states: seq<System>, steps: seq<Step>, n: nat) {
    && n <= |steps| == |states| - 1 && (forall latest :: TimeOk(read, states[0], latest))
    && forall i {:trigger steps[i]} :: 0 <= i < n ==> KeepsTime(read, states[i], steps[i], states[i + 1])
  }

  lemma RunTimedHistory(p: Policy, states: seq<System>, steps: seq<Step>, n: nat)
    requires Runs(p, states, steps) && n <= |steps|
    ensures TimedHistory(Readings(steps, n), states, steps, n)
  {
    forall i | 0 <= i < n ensures KeepsTime(Readings(steps, n), states[i], steps[i], states[i + 1]) {
      RunInv(p, states, steps, i);
      StepKeepsTime(p, Readings(steps, n), states[i], steps[i], states[i + 1]);
    }
  }

  lemma {:induction false} RunTimed(read: set<Reading>, states: seq<System>, steps: seq<Step>, n: nat, i: nat)
    requires TimedHistory(read, states, steps, n) && Monotone(steps) && 0 < i <= n
    ensures TimeOk(read, states[i], steps[i - 1].now)
  {
    assert KeepsTime(read, states[i - 1], steps[i - 1], states[i]);
    if i == 1 {
      assert TimeOk(read, states[0], steps[0].now);
    } else {
      RunTimed(read, states, steps, n, i - 1);
    }
  }

  /** Step k read the clock and the provider policy that this deadline and interval come from. */
  predicate Sets(step: Step, c: Cursor) {
    step.Handle? && SetBy(Reading(step.now, step.cfg), c)
  }

  /** On a clock that never runs backwards no generation schedules more polls than it takes for the
      delays min(60, interval * 2^min(k, 16)) to add up to the timeout that was read, with the interval, when
      its deadline was set, whatever the configuration becomes afterwards. */
  lemma PollsBounded(p: Policy, states: seq<System>, steps: seq<Step>, i: nat, j: JobId) returns (k: nat)
    requires Runs(p, states, steps) && Monotone(steps) && i < |states| && j in states[i].jobs
    requires states[i].jobs[j].cursor.step > 0
    ensures k < i && Sets(steps[k], states[i].jobs[j].cursor)
    ensures var c := states[i].jobs[j].cursor;
      forall n: nat :: Elapsed(c.interval, n) >= steps[k].cfg.timeout ==> c.step <= n
  {
    RunStartsEmpty(p, states, steps);
    var r := ReadingFound(p, states, steps, i, j);
    k :| 0 <= k < i && steps[k].Handle? && r == Reading(steps[k].now, steps[k].cfg);
  }

  lemma ReadingFound(p: Policy, states: seq<System>, steps: seq<Step>, i: nat, j: JobId) returns (r: Reading)
    requires Runs(p, states, steps) && Monotone(steps) && 0 < i < |states| && j in states[i].jobs
    requires states[i].jobs[j].cursor.step > 0
    ensures r in Readings(steps, i) && SetBy(r, states[i].jobs[j].cursor)
    ensures var c := states[i].jobs[j].cursor;
      forall n: nat :: Elapsed(c.interval, n) >= r.cfg.timeout ==> c.step <= n
  {
    RunTimedHistory(p, states, steps, i);
    RunTimed(Readings(steps, i), states, steps, i, i);
    r := BoundedStep(Readings(steps, i), states[i].jobs[j].cursor, steps[i - 1].now);
  }

  /** The same bound, for whatever reading may have set the deadline. */
  lemma StepWithin(p: Policy, states: seq<System>, steps: seq<Step>, i: nat, j: JobId, n: nat)
    requires Runs(p, states, steps) && Monotone(steps) && i < |states| && j in states[i].jobs
    requires var c := states[i].jobs[j].cursor;
      forall k :: 0 <= k < i && Sets(steps[k], c) ==> Elapsed(c.interval, n) >= steps[k].cfg.timeout
    ensures states[i].jobs[j].cursor.step <= n
  {
    if states[i].jobs[j].cursor.step > 0 {
      var k := PollsBounded(p, states, steps, i, j);
    }
  }

  lemma RunStartsEmpty(p: Policy, states: seq<System>, steps: seq<Step>)
    requires Runs(p, states, steps)
    ensures states[0].jobs == map[]
  {
  }

  /** ... so a handler that asks for another poll at that bound finds the deadline passed: its final
      transaction fails the job instead. */
  lemma LastPollFails(p: Policy, states: seq<System>, steps: seq<Step>, i: nat, w: nat, l: Local)
    requires Runs(p, states, steps) && Monotone(steps) && i < |steps|
    requires steps[i].End? && steps[i].w == w && w in states[i].handlers && states[i].handlers[w] == Finish(l, Schedule)
    requires forall k :: 0 <= k < i && Sets(steps[k], l.cursor) ==>
      Elapsed(l.cursor.interval, l.step) >= steps[k].cfg.timeout
    ensures l.job in states[i + 1].jobs && states[i + 1].jobs[l.job].status == Failed(ParseFailed)
  {
    PollsAgainOrFails(p, states, steps, i, w, l);
    if states[i + 1].jobs[l.job].status != Failed(ParseFailed) {
      SameSetters(steps, i, l.cursor, states[i + 1].jobs[l.job].cursor);
      StepWithin(p, states, steps, i + 1, l.job, l.step);
    }
  }

  /** The cursor of the next poll has the deadline and the interval of this one. */
  predicate PollsAgain(c: Cursor, k: nat, d: Cursor) {
    d.deadline == c.deadline && d.interval == c.interval && d.step == k + 1
  }

  lemma PollsAgainOrFails(p: Policy, states: seq<System>, steps: seq<Step>, i: nat, w: nat, l: Local)
    requires Runs(p, states, steps) && i < |steps| && steps[i].End? && steps[i].w == w
    requires w in states[i].handlers && states[i].handlers[w] == Finish(l, Schedule)
    ensures l.job in states[i + 1].jobs
    ensures var j := states[i + 1].jobs[l.job];
      j.status == Failed(ParseFailed) || PollsAgain(l.cursor, l.step, j.cursor)
  {
    RunInv(p, states, steps, i);
    EndsAtBound(p, states[i], w, l, steps[i].id, steps[i].now, states[i + 1]);
  }

  lemma SameSetters(steps: seq<Step>, i: nat, c: Cursor, d: Cursor)
    requires i < |steps| && steps[i].End? && d.deadline == c.deadline && d.interval == c.interval
    ensures forall k :: 0 <= k < i + 1 && Sets(steps[k], d) ==> k < i && Sets(steps[k], c)
  {
  }

  lemma EndsAtBound(p: Policy, s: System, w: nat, l: Local, id: MessageId, now: real, t: System)
    requires Delivery.IndexSound(s.core.db) && CommandsSound(s) && Serving(s) && Synced(s) && HandlersOk(s)
    requires w in s.handlers && s.handlers[w] == Finish(l, Schedule) && EndsFinal(p, s, w, l, Schedule, id, now, t)
    ensures l.job in t.jobs
    ensures var j := t.jobs[l.job];
      j.status == Failed(ParseFailed) || PollsAgain(l.cursor, l.step, j.cursor)
  {
    assert Serves(s, w) && HandlerOk(s, s.handlers[w]) && Effective(s, w) && InSync(s.jobs[l.job].cursor, l);
    FinalJobFacts(s.jobs[l.job], l, Schedule, now);
  }

  lemma RatioCovers(interval: real, timeout: real, n: nat)
    requires 0.0 < interval <= 60.0 && n as real * interval >= timeout
    ensures Elapsed(interval, n) >= timeout
  {
    ElapsedAtLeast(interval, n);
    RepeatedIsProduct(interval, n);
  }

  /** An explicit bound: polls never exceed timeout / interval, rounded up. */
  lemma PollsBoundedByRatio(p: Policy, states: seq<System>, steps: seq<Step>, i: nat, j: JobId) returns (k: nat)
    requires Runs(p, states, steps) && Monotone(steps) && i < |states| && j in states[i].jobs
    requires states[i].jobs[j].cursor.step > 0
    ensures k < i && Sets(steps[k], states[i].jobs[j].cursor)
    ensures var c := states[i].jobs[j].cursor; (c.step - 1) as real * c.interval < steps[k].cfg.timeout
  {
    k := PollsBounded(p, states, steps, i, j);
    var c := states[i].jobs[j].cursor;
    if (c.step - 1) as real * c.interval >= steps[k].cfg.timeout {
      RatioCovers(c.interval, steps[k].cfg.timeout, c.step - 1);
    }
  }

  /** While the timeout is 120 seconds polled from 1 second on, a parse is polled at most seven times. */
  lemma SevenPolls(p: Policy, states: seq<System>, steps: seq<Step>, i: nat, j: JobId)
    requires Runs(p, states, steps) && Monotone(steps) && i < |states| && j in states[i].jobs
    requires forall k :: 0 <= k < i && steps[k].Handle? ==> steps[k].cfg == Config(120.0, 1.0)
    ensures states[i].jobs[j].cursor.step <= 7
  {
    SevenDelays();
    StepWithin(p, states, steps, i, j, 7);
  }

  /** 1 + 2 + 4 + 8 + 16 + 32 + 60 = 123 */
  lemma SevenDelays()
    ensures Elapsed(1.0, 7) >= 120.0 > Elapsed(1.0, 6)
  {
  }
}
