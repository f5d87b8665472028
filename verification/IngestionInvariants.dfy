/** What every reachable state of the ingestion machine satisfies. */
module IngestionInvariants {
  import opened Tables
  import opened DeliverySpec
  import opened IngestionSpec
  import opened IngestionMachine
  import Delivery = DeliveryMachine

  // ---- commands and cursors ---------------------------------------------------------------------

  /** A command of the service belongs to a job, sits on its identity's resource under the
      deduplication key of its position, and is never ahead of the job's cursor. */
  predicate CommandSound(m: Message, jobs: map<JobId, Job>) {
    if Commanding(m.intent) then
      && m.intent.payload.job in jobs
      && var c, j := m.intent.payload, jobs[m.intent.payload.job];
         && m.intent.key == UploadIdentity(j.source)
         && m.dedup == CommandKey(c.job, c.generation, c.step)
         && (Behind(c.generation, c.step, j.cursor) || AtCursor(c.generation, c.step, j.cursor))
    else m.dedup.TextKey?
  }

  ghost predicate CommandsSound(s: System) {
    forall id :: id in s.core.db.outbox ==> CommandSound(s.core.db.outbox[id], s.jobs)
  }

  ghost predicate FirstCommands(s: System) {
    forall j :: j in s.jobs ==> IngestKey(j, s.jobs[j].cursor.generation) in s.core.db.index
  }

  /** The command of a cursor position is in the outbox and not acknowledged. */
  predicate Awaits(db: Db, job: JobId, c: Cursor) {
    var key := CommandKey(job, c.generation, c.step);
    key in db.index && (TOPIC, db.index[key]) !in db.inbox
  }

  /** Every non-terminal job has an unacknowledged command for exactly its current cursor. */
  ghost predicate LiveCommands(s: System) {
    forall j :: j in s.jobs && !Terminal(s.jobs[j].status) ==> Awaits(s.core.db, j, s.jobs[j].cursor)
  }

  /** Nothing on the ingestion topic but a command is ever acknowledged. */
  ghost predicate OnlyCommandsAcked(s: System) {
    forall id :: id in s.core.db.outbox && (TOPIC, id) in s.core.db.inbox ==>
      s.core.db.outbox[id].intent.topic == TOPIC ==> s.core.db.outbox[id].intent.payload.Command?
  }

  /** Consumers only ever select messages of the ingestion topic. */
  ghost predicate SelectedCommands(s: System) {
    forall w :: w in s.core.consumers && s.core.consumers[w].Selected? ==>
      s.core.consumers[w].id in s.core.db.outbox && s.core.db.outbox[s.core.consumers[w].id].intent.topic == TOPIC
  }

  // ---- handlers ---------------------------------------------------------------------------------

  function PayloadOf(s: System, w: nat): Payload
    requires Delivery.IsRunning(s.core, w) && LeaseOf(s, w).message in s.core.db.outbox
  {
    s.core.db.outbox[LeaseOf(s, w).message].intent.payload
  }

  /** A handler serves the command its lease was taken for. */
  predicate Serves(s: System, w: nat)
    requires w in s.handlers
  {
    && Delivery.IsRunning(s.core, w) && LeaseOf(s, w).message in s.core.db.outbox
    && s.core.db.outbox[LeaseOf(s, w).message].intent.topic == TOPIC
    && (HasLocal(s.handlers[w]) ==>
          && s.handlers[w].l.job in s.jobs
          && PayloadOf(s, w) == Command(s.handlers[w].l.job, s.handlers[w].l.generation, s.handlers[w].l.step))
  }

  ghost predicate Serving(s: System) {
    forall w :: w in s.handlers ==> Serves(s, w)
  }

  /** d is c with more of the same generation's work done at the same position. */
  predicate Extends(c: Cursor, d: Cursor) {
    && d.generation == c.generation && d.step == c.step && d.readyAt == c.readyAt
    && (c.upload.Some? ==> d.upload == c.upload)
    && (c.deadline.Some? ==> d.deadline == c.deadline && d.interval == c.interval)
    && (c.phase.Poll? ==> d.phase.Poll?)
  }

  predicate InSync(c: Cursor, l: Local) {
    c.step == l.step && if l.dirty then Extends(c, l.cursor) else l.cursor == c
  }

  /** The row still carries this handler's owner and epoch, and its job is still in its generation. */
  predicate Effective(s: System, w: nat)
    requires w in s.handlers && Serves(s, w)
  {
    Names(s.core.db, LeaseOf(s, w)) && HasLocal(s.handlers[w])
    && s.jobs[s.handlers[w].l.job].cursor.generation == s.handlers[w].l.generation
  }

  ghost predicate Synced(s: System) {
    forall w :: w in s.handlers && Serves(s, w) && Effective(s, w) ==>
      InSync(s.jobs[s.handlers[w].l.job].cursor, s.handlers[w].l)
  }

  /** The command is not the current one of a live job. */
  predicate Obsolete(c: Payload, jobs: map<JobId, Job>) {
    c.Command? && c.job in jobs && (Terminal(jobs[c.job].status) || Behind(c.generation, c.step, jobs[c.job].cursor))
  }

  /** A command acknowledged without work is obsolete. */
  ghost predicate AcksObsolete(s: System) {
    forall w :: w in s.handlers && Serves(s, w) && s.handlers[w].AckOnly? && Names(s.core.db, LeaseOf(s, w)) ==>
      Obsolete(PayloadOf(s, w), s.jobs)
  }

  // ---- cursor against journal -------------------------------------------------------------------

  /** Receipts of confirmed operations answer their intents. */
  predicate OperationShaped(k: OpKey, o: Operation) {
    && (k.ParseKey? ==> o.intent.ParseIntent? && !o.state.LegacyUnknown?)
    && (k.UploadKey? ==> o.intent.UploadIntent? || (o.intent.MigratedIntent? && o.state.LegacyUnknown?))
    && (o.state.Confirmed? && k.ParseKey? ==> o.receipt == ParseReceipt(o.intent.document))
    && (o.state.Confirmed? && k.UploadKey? ==>
          && o.intent.UploadIntent? && o.receipt.UploadReceipt?
          && o.receipt == UploadReceiptFor(o.intent, o.receipt.document))
  }

  ghost predicate JournalShaped(journal: Journal) {
    forall k :: k in journal ==> OperationShaped(k, journal[k])
  }

  /** A cursor claims no more than the journal has confirmed. */
  predicate Backed(journal: Journal, job: JobId, source: Source, c: Cursor) {
    && (c.upload.Some? ==> UploadVerified(journal, source, c.upload.value, c.upload.value.scope))
    && (c.phase.Poll? && c.upload.Some? ==> ParseVerified(journal, source, job, c.generation, c.upload.value))
  }

  ghost predicate JobsBacked(s: System) {
    forall j :: j in s.jobs ==>
      ValidCursor(s.jobs[j].cursor) && Backed(s.journal, j, s.jobs[j].source, s.jobs[j].cursor)
  }

  /** What holds at each program point. */
  predicate PointOk(source: Source, h: Handler) {
    match h
    case Load => true
    case AckOnly => true
    case MarkRunning(l) => !l.dirty
    case Refresh(l) => !l.dirty
    case Begin(l) => !l.dirty
    case UploadDeclare(l, i) => !l.dirty && l.cursor.upload.None? && IntentFor(source, i)
    case UploadStart(l, i) => !l.dirty && l.cursor.upload.None? && IntentFor(source, i)
    case UploadPost(l, i) => !l.dirty && l.cursor.upload.None? && IntentFor(source, i)
    case UploadUnknown(l) => !l.dirty && l.cursor.upload.None?
    case UploadConfirm(l, i, _) => !l.dirty && l.cursor.upload.None? && IntentFor(source, i)
    case ParseDeclare(l) => Ready(l) && l.cursor.phase.Prepare?
    case ParseCheck(l) => Ready(l) && l.cursor.phase.Prepare?
    case ParseStart(l) => Ready(l) && l.cursor.phase.Prepare?
    case ParsePost(l) => Ready(l) && l.cursor.phase.Prepare?
    case ParseUnknown(l) => Ready(l) && l.cursor.phase.Prepare?
    case ParseConfirm(l, _) => Ready(l) && l.cursor.phase.Prepare?
    case PollCheck(l) => Ready(l) && l.cursor.phase.Poll?
    case Finish(l, o) => (o.Succeed? ==> Ready(l) && l.cursor.phase.Poll?) && (o.Schedule? ==> l.cursor.deadline.Some?)
    case Reconcile(_) => true
  }

  predicate Ready(l: Local) {
    l.cursor.upload.Some? && l.cursor.deadline.Some?
  }

  predicate IntentFor(s: Source, i: OpIntent) {
    i.UploadIntent? && i == UploadIntentOf(s, i.scope, i.dataset, i.sha256, i.filename)
  }

  /** The operation a handler is working on has been declared with the handler's own intent. */
  predicate Recorded(journal: Journal, source: Source, h: Handler)
    requires HasLocal(h)
  {
    var upload := UploadKey(UploadIdentity(source));
    var parse := ParseKey(UploadIdentity(source), h.l.job, h.l.cursor.generation);
    && (h.UploadStart? || h.UploadPost? || h.UploadConfirm? ==>
          upload in journal && journal[upload].intent == h.intent && !journal[upload].state.LegacyUnknown?)
    && (h.ParseCheck? || h.ParseStart? || h.ParsePost? || h.ParseConfirm? ==>
          parse in journal && h.l.cursor.upload.Some?
          && journal[parse].intent == ParseIntent(h.l.cursor.upload.value.dataset, h.l.cursor.upload.value.document))
  }

  predicate HandlerIn(journal: Journal, source: Source, h: Handler)
    requires HasLocal(h)
  {
    && PointOk(source, h) && ValidCursor(h.l.cursor)
    && Backed(journal, h.l.job, source, h.l.cursor) && Recorded(journal, source, h)
  }

  predicate HandlerOk(s: System, h: Handler) {
    HasLocal(h) ==> h.l.job in s.jobs && HandlerIn(s.journal, s.jobs[h.l.job].source, h)
  }

  ghost predicate HandlersOk(s: System) {
    forall w :: w in s.handlers ==> HandlerOk(s, s.handlers[w])
  }

  /** A succeeded job polls a confirmed parse of its upload, and a version row binds that document. */
  predicate Bound(s: System, j: JobId)
    requires j in s.jobs
  {
    var c, v := s.jobs[j].cursor, VersionOf(s.jobs[j].source);
    && c.phase.Poll? && c.upload.Some? && v in s.versions
    && s.versions[v].dataset == c.upload.value.dataset && s.versions[v].document == c.upload.value.document
  }

  ghost predicate SucceededBound(s: System) {
    forall j :: j in s.jobs && s.jobs[j].status.Succeeded? ==> Bound(s, j)
  }

  // ---- remote writes ----------------------------------------------------------------------------

  /** At most one parse submission per upload identity is executing or unknown. */
  ghost predicate OneInFlight(journal: Journal) {
    forall k1, k2, identity :: InFlight(journal, k1, identity) && InFlight(journal, k2, identity) ==> k1 == k2
  }

  /** What the unfinished query saw is still true while the lease row is still the handler's. */
  ghost predicate CheckStillHolds(s: System) {
    forall w :: w in s.handlers && Serves(s, w) && s.handlers[w].ParseStart? && Names(s.core.db, LeaseOf(s, w)) ==>
      !Unfinished(s.journal, UploadIdentity(s.jobs[s.handlers[w].l.job].source))
  }

  /** The handler is about to issue the remote write of this operation. */
  predicate AboutToPost(s: System, w: nat, key: OpKey) {
    && w in s.handlers && HasLocal(s.handlers[w]) && s.handlers[w].l.job in s.jobs
    && (|| (s.handlers[w].UploadPost? && key == KeyOfUpload(s, s.handlers[w].l))
        || (s.handlers[w].ParsePost? && key == KeyOfParse(s, s.handlers[w].l)))
  }

  predicate PastIntended(journal: Journal, key: OpKey) {
    key in journal && !journal[key].state.Intended?
  }

  ghost predicate PostsOnce(s: System) {
    && (forall key :: Posts(s, key) <= 1)
    && (forall key :: Posts(s, key) == 1 ==> PastIntended(s.journal, key))
    && (forall w, key :: AboutToPost(s, w, key) ==> PastIntended(s.journal, key) && Posts(s, key) == 0)
    && (forall w, v, key :: AboutToPost(s, w, key) && AboutToPost(s, v, key) ==> w == v)
  }

  ghost predicate Inv(p: Policy, s: System) {
    && Delivery.Inv(p, s.core)
    && CommandsSound(s) && FirstCommands(s) && LiveCommands(s) && OnlyCommandsAcked(s)
    && SelectedCommands(s) && Serving(s) && Synced(s) && AcksObsolete(s)
    && JournalShaped(s.journal) && JobsBacked(s) && HandlersOk(s) && SucceededBound(s)
    && OneInFlight(s.journal) && CheckStillHolds(s) && PostsOnce(s)
  }
}
