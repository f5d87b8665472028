/** Ingestion on top of the delivery protocol: each running consumer of the ingestion topic is a small
    program whose points are the places between two transactions or remote writes. The provider, the
    artifact store and local failures answer nondeterministically; a consumer may stop at any point. */
module IngestionMachine {
  import opened Tables
  import opened DeliverySpec
  import opened IngestionSpec
  import Delivery = DeliveryMachine

  /** Provider policy, read anew whenever a deadline is first set. */
  datatype Config = Config(timeout: real, interval: real) {
    predicate Valid() {
      1.0 <= timeout <= 86400.0 && 0.1 <= interval <= 60.0
    }
  }

  predicate IngestPolicy(p: Policy) {
    p.Valid() && p.topics == map[TOPIC := Some(TOPIC)]
  }

  datatype ParseStatus = NotStarted | Queued | InProgress | Done | ParseFail | Cancelled | Unrecognised

  /** What one handler holds in memory: the command it serves (also its generation fence), and the
      cursor as last saved on the session's job object; `dirty` until a commit has flushed it. */
  datatype Local = Local(job: JobId, generation: nat, step: nat, cursor: Cursor, dirty: bool)

  datatype Outcome = Fail(kind: Failure) | Schedule | Succeed | VerifiedArtifact

  datatype Handler =
    | Load                                                  // about to read the job
    | AckOnly                                               // job terminal or command obsolete: just acknowledge
    | MarkRunning(l: Local)
    | Refresh(l: Local)                                     // status committed, job about to be re-read
    | Begin(l: Local)                                       // about to read the upload operation and ask the provider
    | UploadDeclare(l: Local, intent: OpIntent)
    | UploadStart(l: Local, intent: OpIntent)
    | UploadPost(l: Local, intent: OpIntent)
    | UploadUnknown(l: Local)
    | UploadConfirm(l: Local, intent: OpIntent, document: string)
    | ParseDeclare(l: Local)
    | ParseCheck(l: Local)
    | ParseStart(l: Local)
    | ParsePost(l: Local)
    | ParseUnknown(l: Local)
    | ParseConfirm(l: Local, run: Option<ParseStatus>)
    | PollCheck(l: Local)
    | Finish(l: Local, outcome: Outcome)                    // final transaction
    | Reconcile(l: Local)                                   // record an unknown outcome, then give up unacknowledged

  datatype System = System(
    core: Delivery.System, jobs: map<JobId, Job>, journal: Journal, versions: map<VersionKey, VersionRow>,
    handlers: map<nat, Handler>,
    posts: map<OpKey, nat>)                                 // remote writes issued so far

  datatype Step =
    | Deliver(a: Delivery.Action, now: real)                // any delivery action except the guarded commit
    | Submit(job: JobId, source: Source, id: MessageId, now: real)
    | Request(job: JobId, id: MessageId, now: real)         // dispatch, or a repeated submit
    | Retry(job: JobId, force: bool, id: MessageId, now: real)
    | Override(job: JobId, kind: Failure, now: real)        // operator sets a failure status
    | Recover(job: JobId, document: string, now: real)      // operator verifies an upload receipt
    | Handle(w: nat, e: Effect, now: real, cfg: Config)     // a transaction or remote write inside a handler
    | End(w: nat, id: MessageId, now: real)                 // a handler's last transaction

  // ---- pieces of a handler step ----------------------------------------------------------------

  predicate HasLocal(h: Handler) {
    !h.Load? && !h.AckOnly?
  }

  function KeyOfParse(s: System, l: Local): OpKey
    requires l.job in s.jobs
  {
    ParseKey(UploadIdentity(s.jobs[l.job].source), l.job, l.cursor.generation)
  }

  function KeyOfUpload(s: System, l: Local): OpKey
    requires l.job in s.jobs
  {
    UploadKey(UploadIdentity(s.jobs[l.job].source))
  }

  function LeaseOf(s: System, w: nat): Lease
    requires Delivery.IsRunning(s.core, w)
  {
    s.core.consumers[w].lease
  }

  /** Lease guard and generation fence, both checked under row locks before every commit. */
  predicate Fenced(s: System, w: nat, l: Local, now: real) {
    && Delivery.IsRunning(s.core, w) && LeaseOf(s, w).message in s.core.db.outbox
    && Guard(s.core.db, LeaseOf(s, w), now)
    && l.job in s.jobs && s.jobs[l.job].cursor.generation == l.generation
  }

  function Flushed(j: Job, l: Local, status: Option<JobStatus>): Job {
    j.(cursor := if l.dirty then l.cursor else j.cursor,
       status := if status.Some? then status.value else j.status)
  }

  /** An intermediate commit: journal, flushed cursor and status, nothing else. */
  function Committed(s: System, l: Local, journal: Journal, status: Option<JobStatus>): System
    requires l.job in s.jobs
  {
    s.(journal := journal, jobs := s.jobs[l.job := Flushed(s.jobs[l.job], l, status)])
  }

  function Goto(s: System, w: nat, next: Handler): System {
    s.(handlers := s.handlers[w := next])
  }

  function Clean(l: Local): Local {
    l.(dirty := false)
  }

  function Save(l: Local, c: Cursor): Local {
    l.(cursor := c, dirty := true)
  }

  /** The deadline is set once, before anything is submitted. */
  function WithDeadline(c: Cursor, cfg: Config, now: real): Cursor {
    if c.deadline.Some? then c else c.(deadline := Some(now + cfg.timeout), interval := cfg.interval)
  }

  function Posted(s: System, key: OpKey): System {
    s.(posts := s.posts[key := Posts(s, key) + 1])
  }

  function Posts(s: System, key: OpKey): nat {
    if key in s.posts then s.posts[key] else 0
  }

  /** How an observed parse status ends this command; a late answer fails instead. */
  predicate Observes(l: Local, run: ParseStatus, next: Handler) {
    || Fails(l, next)
    || (next == Finish(l, Schedule) && (run.NotStarted? || run.Queued? || run.InProgress?))
    || (next == Finish(l, Succeed) && run.Done?)
    || (next == Reconcile(l) && run.Unrecognised?)
  }

  /** A document query that may itself fail: transiently (poll again later) or for good. */
  predicate Reads(l: Local, next: Handler) {
    next == Reconcile(l) || (next.Finish? && next.l == l && !next.outcome.VerifiedArtifact?)
  }

  // ---- one handler program point each -----------------------------------------------------------

  predicate LoadNext(s: System, w: nat, next: Handler) {
    && Delivery.IsRunning(s.core, w) && LeaseOf(s, w).message in s.core.db.outbox
    && var i := s.core.db.outbox[LeaseOf(s, w).message].intent;
       && i.payload.Command? && i.payload.job in s.jobs
       && LeaseOf(s, w).resource == TOPIC + ":" + UploadIdentity(s.jobs[i.payload.job].source)
       && var j := s.jobs[i.payload.job];
          if Terminal(j.status) || Behind(i.payload.generation, i.payload.step, j.cursor) then next == AckOnly
          else
            && AtCursor(i.payload.generation, i.payload.step, j.cursor)
            && var l := Local(i.payload.job, i.payload.generation, i.payload.step, j.cursor, false);
               next == if j.status.Running? then Begin(l) else MarkRunning(l)
  }

  /** Past the upload: the deadline is on the cursor and the parse phase decides what follows. */
  predicate AfterUpload(cfg: Config, l: Local, c: Cursor, now: real, next: Handler) {
    var l' := Save(l, WithDeadline(c, cfg, now));
    next == if l'.cursor.phase.Prepare? then ParseDeclare(l') else PollCheck(l')
  }

  predicate BeginNext(cfg: Config, s: System, l: Local, now: real, next: Handler)
    requires l.job in s.jobs
  {
    var key, src := KeyOfUpload(s, l), s.jobs[l.job].source;
    if key in s.journal && s.journal[key].state.LegacyUnknown? then next == Reconcile(l)
    else
      || Fails(l, next)
      || (next == Finish(l, Schedule) && l.cursor.deadline.Some?)
      || (l.cursor.upload.None? && next == Reconcile(l))
      || (l.cursor.upload.None? && next == Finish(l, VerifiedArtifact))
      || (l.cursor.upload.None? && next.UploadDeclare? && next.l == l && next.intent.UploadIntent?
          && var i := next.intent; i == UploadIntentOf(src, i.scope, i.dataset, i.sha256, i.filename))
      || (l.cursor.upload.Some? && UploadVerified(s.journal, src, l.cursor.upload.value, l.cursor.upload.value.scope)
          && AfterUpload(cfg, l, l.cursor, now, next))
  }

  predicate UploadQueried(l: Local, intent: OpIntent, row: Operation, next: Handler) {
    || next == Reconcile(l)
    || Fails(l, next)
    || (next == UploadStart(l, intent) && !row.state.Confirmed?)
    || (next.UploadConfirm? && next.l == l && next.intent == intent)
  }

  predicate ParseQueried(l: Local, row: Operation, next: Handler) {
    || (next.Finish? && next.l == l && (next.outcome.Fail? || next.outcome.Schedule?))
    || next == Reconcile(l)
    || (next == ParseCheck(l) && !row.state.Confirmed?)
    || (next.ParseConfirm? && next.l == l && next.run.Some?
        && var run := next.run.value;
           row.state.Confirmed? || !(run.NotStarted? || run.ParseFail? || run.Cancelled?))
  }

  function ConfirmedUpload(intent: OpIntent, document: string, name: string): VerifiedUpload
    requires intent.UploadIntent?
  {
    VerifiedUpload(intent.dataset, name, document, intent.filename, intent.sha256, intent.scope)
  }

  function UploadReceiptFor(intent: OpIntent, document: string): Receipt
    requires intent.UploadIntent?
  {
    UploadReceipt(intent.dataset, document, intent.filename, intent.sha256)
  }

  /** The database or remote effect of one step: none, one fenced commit, or one remote write. */
  datatype Effect = Quiet | Commit(journal: Journal, status: Option<JobStatus>) | Post(key: OpKey)

  predicate Fails(l: Local, next: Handler) {
    next.Finish? && next.l == l && next.outcome.Fail?
  }

  predicate DeclaresUpload(s: System, l: Local, intent: OpIntent, e: Effect, next: Handler)
    requires l.job in s.jobs
  {
    var key := KeyOfUpload(s, l);
    match Declare(s.journal, key, intent)
    case Legacy => e.Quiet? && next == Reconcile(l)
    case Conflict => e.Quiet? && Fails(l, next)
    case Row(journal) => e == Commit(journal, None) && UploadQueried(Clean(l), intent, journal[key], next)
  }

  predicate ConfirmsUpload(cfg: Config, s: System, l: Local, intent: OpIntent, document: string, now: real, e: Effect,
                           next: Handler)
    requires l.job in s.jobs
  {
    && intent.UploadIntent?
    && var key, receipt := KeyOfUpload(s, l), UploadReceiptFor(intent, document);
       if ConfirmConflicts(s.journal, key, receipt) then e.Quiet? && Fails(l, next)
       else
         && e == Commit(Confirm(s.journal, key, receipt), None)
         && (Fails(Clean(l), next) || UploadSaved(cfg, l, intent, document, now, next))
  }

  /** The verified upload, under the dataset name of the current configuration, goes onto the cursor. */
  predicate UploadSaved(cfg: Config, l: Local, intent: OpIntent, document: string, now: real, next: Handler)
    requires intent.UploadIntent?
  {
    && HasLocal(next) && next.l.cursor.upload.Some?
    && var upload := ConfirmedUpload(intent, document, next.l.cursor.upload.value.datasetName);
       AfterUpload(cfg, Clean(l), l.cursor.(upload := Some(upload)), now, next)
  }

  predicate DeclaresParse(s: System, l: Local, e: Effect, next: Handler)
    requires l.job in s.jobs
  {
    && l.cursor.upload.Some?
    && var key, upload := KeyOfParse(s, l), l.cursor.upload.value;
       match Declare(s.journal, key, ParseIntent(upload.dataset, upload.document))
       case Legacy => e.Quiet? && next == Reconcile(l)
       case Conflict => e.Quiet? && Fails(l, next)
       case Row(journal) => e == Commit(journal, None) && ParseQueried(Clean(l), journal[key], next)
  }

  predicate ConfirmsParse(s: System, l: Local, run: Option<ParseStatus>, e: Effect, next: Handler)
    requires l.job in s.jobs
  {
    && l.cursor.upload.Some?
    && var key, receipt := KeyOfParse(s, l), ParseReceipt(l.cursor.upload.value.document);
       if ConfirmConflicts(s.journal, key, receipt) then
         e.Quiet? && if run.None? then next == ParseUnknown(l) else Fails(l, next)
       else
         && e == Commit(Confirm(s.journal, key, receipt), None)
         && var l' := Save(l, l.cursor.(phase := Poll));
            if run.Some? then Observes(l', run.value, next) else Reads(l', next)
  }

  predicate UploadPoint(h: Handler) {
    h.UploadDeclare? || h.UploadStart? || h.UploadPost? || h.UploadUnknown? || h.UploadConfirm?
  }

  /** Which effect and which next point each program point of the upload allows. */
  predicate UploadAllows(cfg: Config, s: System, now: real, h: Handler, e: Effect, next: Handler)
    requires UploadPoint(h) && h.l.job in s.jobs
  {
    var key := KeyOfUpload(s, h.l);
    match h
    case UploadDeclare(l, intent) => DeclaresUpload(s, l, intent, e, next)
    case UploadStart(l, intent) =>
      && e == Commit(Start(s.journal, key), None)
      && next == if Startable(s.journal, key) then UploadPost(Clean(l), intent) else Reconcile(Clean(l))
    case UploadPost(l, intent) =>
      && e == Post(key)
      && (next == UploadUnknown(l) || Fails(l, next) || (next.UploadConfirm? && next.l == l && next.intent == intent))
    case UploadUnknown(l) => e == Commit(MarkUnknown(s.journal, key), None) && next == Reconcile(Clean(l))
    case UploadConfirm(l, intent, document) => ConfirmsUpload(cfg, s, l, intent, document, now, e, next)
  }

  predicate ParsePoint(h: Handler) {
    h.ParseDeclare? || h.ParseCheck? || h.ParseStart? || h.ParsePost? || h.ParseUnknown?
  }

  /** ... and each program point of the parse submission up to its confirmation. */
  predicate ParseAllows(s: System, h: Handler, e: Effect, next: Handler)
    requires ParsePoint(h) && h.l.job in s.jobs
  {
    var key := KeyOfParse(s, h.l);
    match h
    case ParseDeclare(l) => DeclaresParse(s, l, e, next)
    case ParseCheck(l) =>
      && e.Quiet?
      && next == if Unfinished(s.journal, UploadIdentity(s.jobs[l.job].source)) then Reconcile(l) else ParseStart(l)
    case ParseStart(l) =>
      && e == Commit(Start(s.journal, key), None)
      && next == if Startable(s.journal, key) then ParsePost(Clean(l)) else Reconcile(Clean(l))
    case ParsePost(l) =>
      || (e.Quiet? && next == ParseUnknown(l))     // deadline reached before the POST
      || (e == Post(key) && (next == ParseUnknown(l) || next == ParseConfirm(l, None) || Fails(l, next)))
    case ParseUnknown(l) => e == Commit(MarkUnknown(s.journal, key), None) && next == Reconcile(Clean(l))
  }

  /** Which effect and which next point each program point allows. */
  predicate Allows(cfg: Config, s: System, w: nat, now: real, h: Handler, e: Effect, next: Handler)
    requires HasLocal(h) ==> h.l.job in s.jobs
  {
    if UploadPoint(h) then UploadAllows(cfg, s, now, h, e, next)
    else if ParsePoint(h) then ParseAllows(s, h, e, next)
    else
      match h
      case Load => e.Quiet? && LoadNext(s, w, next)
      case MarkRunning(l) => e == Commit(s.journal, Some(Running)) && next == Refresh(l)
      case Refresh(l) => e.Quiet? && next == Begin(l.(cursor := s.jobs[l.job].cursor))
      case Begin(l) => e.Quiet? && BeginNext(cfg, s, l, now, next)
      case ParseConfirm(l, run) => ConfirmsParse(s, l, run, e, next)
      case PollCheck(l) =>
        && e.Quiet? && l.cursor.upload.Some?
        && if PollVerified(s, l) then Reads(l, next) else next == Reconcile(l)
      case _ => false     // acknowledging, finishing and giving up end the handler
  }

  /** The parse of the cursor's own upload is confirmed for its generation. */
  predicate PollVerified(s: System, l: Local)
    requires l.job in s.jobs && l.cursor.upload.Some?
  {
    ParseVerified(s.journal, s.jobs[l.job].source, l.job, l.cursor.generation, l.cursor.upload.value)
  }

  function Applied(s: System, h: Handler, e: Effect): System
    requires e.Commit? ==> HasLocal(h) && h.l.job in s.jobs
  {
    match e
    case Quiet => s
    case Commit(journal, status) => Committed(s, h.l, journal, status)
    case Post(key) => Posted(s, key)
  }

  /** A step that leaves the handler running; every commit passes the lease guard and the fence. */
  predicate Continues(cfg: Config, s: System, w: nat, e: Effect, now: real, next: Handler, t: System)
    requires w in s.handlers
  {
    var h := s.handlers[w];
    && (HasLocal(h) ==> h.l.job in s.jobs)
    && Allows(cfg, s, w, now, h, e, next)
    && (e.Commit? ==> HasLocal(h) && Fenced(s, w, h.l, now))
    && t == Goto(Applied(s, h, e), w, next)
  }

  // ---- steps that end the handler ----------------------------------------------------------------

  function Gone(s: System, w: nat): System {
    s.(handlers := s.handlers - {w})
  }

  /** Status, cursor and version row of the final transaction; None when it raises instead. */
  function FinalJob(j: Job, l: Local, outcome: Outcome, now: real): Option<Job> {
    var saved := Flushed(j, l, None);
    match outcome
    case Fail(kind) => Some(saved.(status := Failed(kind)))
    case VerifiedArtifact => Some(saved.(status := ArtifactVerified))
    case Succeed => Some(saved.(status := Succeeded))
    case Schedule =>
      if l.cursor.deadline.None? then None
      else if now >= l.cursor.deadline.value then Some(saved.(status := Failed(ParseFailed)))
      else Some(saved.(cursor := Scheduled(l.cursor, now)))
  }

  /** Scheduling enqueues the command of the next cursor position in the same transaction. */
  predicate Successor(l: Local, outcome: Outcome, now: real) {
    outcome.Schedule? && l.cursor.deadline.Some? && now < l.cursor.deadline.value
  }

  function SuccessorEvent(s: System, l: Local, now: real): Event
    requires l.job in s.jobs && l.cursor.deadline.Some?
  {
    var c := Scheduled(l.cursor, now);
    CommandEvent(l.job, s.jobs[l.job].source, c.generation, c.step, c.readyAt)
  }

  function FinalVersions(s: System, l: Local, outcome: Outcome): map<VersionKey, VersionRow>
    requires l.job in s.jobs
  {
    if outcome.Succeed? && l.cursor.upload.Some? then
      var upload := l.cursor.upload.value;
      s.versions[VersionOf(s.jobs[l.job].source) := VersionRow(l.job, upload.dataset, upload.document)]
    else s.versions
  }

  /** The delivery part of the final transaction: the successor, if any, and the inbox row. */
  predicate FinalCore(p: Policy, s: System, w: nat, l: Local, outcome: Outcome, id: MessageId, now: real,
                      core: Delivery.System)
    requires l.job in s.jobs
  {
    if Successor(l, outcome, now) then
      var a := Delivery.Enqueue(id, SuccessorEvent(s, l, now), now);
      && Delivery.Enabled(p, s.core, a)
      && Delivery.Enabled(p, Delivery.Next(p, s.core, a), Delivery.Commit(w, now))
      && core == Delivery.Next(p, Delivery.Next(p, s.core, a), Delivery.Commit(w, now))
    else
      Delivery.Enabled(p, s.core, Delivery.Commit(w, now)) && core == Delivery.Next(p, s.core, Delivery.Commit(w, now))
  }

  predicate EndsAcking(p: Policy, s: System, w: nat, now: real, t: System) {
    && Delivery.Enabled(p, s.core, Delivery.Commit(w, now))
    && t == Gone(s, w).(core := Delivery.Next(p, s.core, Delivery.Commit(w, now)))
  }

  predicate EndsFinal(p: Policy, s: System, w: nat, l: Local, outcome: Outcome, id: MessageId, now: real, t: System) {
    && Fenced(s, w, l, now)
    && FinalJob(s.jobs[l.job], l, outcome, now).Some?
    && FinalCore(p, s, w, l, outcome, id, now, t.core)
    && t == Gone(s, w).(core := t.core, versions := FinalVersions(s, l, outcome),
                        jobs := s.jobs[l.job := FinalJob(s.jobs[l.job], l, outcome, now).value])
  }

  predicate EndsGivingUp(s: System, w: nat, l: Local, now: real, t: System) {
    Fenced(s, w, l, now) && t == Gone(Committed(s, l, s.journal, Some(ReconciliationRequired)), w)
  }

  predicate Ends(p: Policy, s: System, w: nat, id: MessageId, now: real, t: System)
    requires w in s.handlers
  {
    match s.handlers[w]
    case AckOnly => EndsAcking(p, s, w, now, t)
    case Finish(l, outcome) => EndsFinal(p, s, w, l, outcome, id, now, t)
    case Reconcile(l) => EndsGivingUp(s, w, l, now, t)
    case _ => false
  }

  // ---- the whole step relation --------------------------------------------------------------------

  function HandlersAfter(p: Policy, s: System, a: Delivery.Action): map<nat, Handler>
    requires Delivery.Enabled(p, s.core, a)
  {
    match a
    case Take(w, _, _) =>
      if Delivery.IsRunning(Delivery.Next(p, s.core, a), w) then s.handlers[w := Load] else s.handlers - {w}
    case Release(w) => s.handlers - {w}
    case LoseConsumer(w) => s.handlers - {w}
    case _ => s.handlers
  }

  /** Other producers use other topics, and all but the service use their own deduplication keys. Commands
      carried over from before the cursor existed are on the ingestion topic without generation and step. */
  predicate Foreign(a: Delivery.Action) {
    a.Enqueue? ==> a.event.dedup.TextKey? && !Commanding(a.event.intent)
  }

  /** A command as the service writes it. */
  predicate Commanding(i: Intent) {
    i.topic == TOPIC && i.payload.Command?
  }

  /** The clock reading an action carries, if it reads the clock. */
  predicate ReadsClock(a: Delivery.Action, now: real) {
    match a
    case LosePublisher(_) => true
    case Release(_) => true
    case LoseConsumer(_) => true
    case _ => a.now == now
  }

  predicate RecoverAllowed(s: System, job: JobId, document: string)
  {
    && job in s.jobs
    && var key := UploadKey(UploadIdentity(s.jobs[job].source));
       && key in s.journal && !s.journal[key].state.LegacyUnknown? && s.journal[key].intent.UploadIntent?
       && !ConfirmConflicts(s.journal, key, UploadReceiptFor(s.journal[key].intent, document))
  }

  function Recovered(s: System, job: JobId, document: string): System
    requires RecoverAllowed(s, job, document)
  {
    var key := UploadKey(UploadIdentity(s.jobs[job].source));
    s.(journal := Confirm(s.journal, key, UploadReceiptFor(s.journal[key].intent, document)))
  }

  function EnqueueCommand(job: JobId, source: Source, generation: nat, id: MessageId, now: real): Delivery.Action {
    Delivery.Enqueue(id, CommandEvent(job, source, generation, 0, None), now)
  }

  predicate Delivers(p: Policy, s: System, a: Delivery.Action, now: real, t: System) {
    && !a.Commit? && Foreign(a) && ReadsClock(a, now) && Delivery.Enabled(p, s.core, a)
    && t == s.(core := Delivery.Next(p, s.core, a), handlers := HandlersAfter(p, s, a))
  }

  predicate Submits(p: Policy, s: System, job: JobId, source: Source, id: MessageId, now: real, t: System) {
    && job !in s.jobs
    && var a := EnqueueCommand(job, source, 0, id, now);
       && Delivery.Enabled(p, s.core, a)
       && t == s.(jobs := s.jobs[job := NewJob(source)], core := Delivery.Next(p, s.core, a))
  }

  predicate Requests(p: Policy, s: System, job: JobId, id: MessageId, now: real, t: System) {
    && job in s.jobs
    && if Terminal(s.jobs[job].status) then t == s
       else
         var a := EnqueueCommand(job, s.jobs[job].source, s.jobs[job].cursor.generation, id, now);
         Delivery.Enabled(p, s.core, a) && t == s.(core := Delivery.Next(p, s.core, a))
  }

  predicate Retries(p: Policy, s: System, job: JobId, force: bool, id: MessageId, now: real, t: System) {
    && job in s.jobs && Retryable(s.jobs[job], force)
    && var j := Retried(s.jobs[job]);
       var a := EnqueueCommand(job, j.source, j.cursor.generation, id, now);
       && Delivery.Enabled(p, s.core, a)
       && t == s.(jobs := s.jobs[job := j], core := Delivery.Next(p, s.core, a))
  }

  predicate Overrides(s: System, job: JobId, kind: Failure, t: System) {
    job in s.jobs && t == s.(jobs := s.jobs[job := s.jobs[job].(status := Failed(kind))])
  }

  /** A step of a user, an operator, the publisher or a consumer between two handlers. */
  predicate Serviced(p: Policy, s: System, step: Step, t: System) {
    match step
    case Deliver(a, now) => Delivers(p, s, a, now, t)
    case Submit(job, source, id, now) => Submits(p, s, job, source, id, now, t)
    case Request(job, id, now) => Requests(p, s, job, id, now, t)
    case Retry(job, force, id, now) => Retries(p, s, job, force, id, now, t)
    case Override(job, kind, _) => Overrides(s, job, kind, t)
    case Recover(job, document, _) => RecoverAllowed(s, job, document) && t == Recovered(s, job, document)
    case _ => false
  }

  predicate TakesStep(p: Policy, s: System, step: Step, t: System) {
    match step
    case Handle(w, e, now, cfg) =>
      cfg.Valid() && w in s.handlers && w in t.handlers && Continues(cfg, s, w, e, now, t.handlers[w], t)
    case End(w, id, now) => w in s.handlers && Ends(p, s, w, id, now, t)
    case _ => Serviced(p, s, step, t)
  }

  /** Any set of uploads may have been inherited from before the journal existed. */
  predicate Initial(s: System) {
    && s.core == Delivery.INITIAL && s.jobs == map[] && s.versions == map[] && s.handlers == map[] && s.posts == map[]
    && forall k :: k in s.journal ==>
      k.UploadKey? && s.journal[k] == Operation(MigratedIntent, LegacyUnknown, NoReceipt)
  }

  ghost predicate IsRun(p: Policy, states: seq<System>, steps: seq<Step>) {
    && |states| == |steps| + 1 && Initial(states[0])
    && forall i :: 0 <= i < |steps| ==> TakesStep(p, states[i], steps[i], states[i + 1])
  }
}
