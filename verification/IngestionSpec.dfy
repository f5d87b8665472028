/** Ingestion jobs, their execution cursor and the provider-operation journal: what each service
    transaction does, as functions of the rows it reads. */
module IngestionSpec {
  import opened Tables
  import opened DeliverySpec

  const TOPIC := "knowledge.ingest.v1"

  type JobId = nat

  /** The columns of a job that identify its source; no transaction changes them. */
  datatype Source = Source(app: string, documentId: string, version: string, dataset: string, artifactRefs: string)

  function DatasetOf(s: Source): string {
    if s.dataset == "" then "default" else s.dataset
  }

  /** The name hashed into the upload identity; shared by every job for the same source version. */
  function UploadIdentity(s: Source): string {
    "knowledge-upload:" + s.app + ":" + s.version + ":" + DatasetOf(s)
  }

  // ---- cursor --------------------------------------------------------------------------------

  datatype VerifiedUpload = VerifiedUpload(dataset: string, datasetName: string, document: string,
                                           filename: string, sha256: string, scope: string)

  datatype Phase = Prepare | Poll

  datatype Cursor = Cursor(generation: nat, step: nat, phase: Phase, upload: Option<VerifiedUpload>,
                           deadline: Option<real>, interval: real, readyAt: Option<real>)

  /** The model validator: what may be stored as a cursor. */
  predicate ValidCursor(c: Cursor) {
    && 0.1 <= c.interval <= 60.0
    && (c.phase.Poll? ==> c.upload.Some? && c.deadline.Some?)
    && (c.deadline.Some? ==> c.upload.Some?)
    && (c.step > 0 ==> c.readyAt.Some? && c.deadline.Some?)
  }

  function FreshCursor(generation: nat, upload: Option<VerifiedUpload>): Cursor {
    Cursor(generation, 0, Prepare, upload, None, 1.0, None)
  }

  /** Lexicographic order of (generation, step). */
  predicate Behind(g: nat, k: nat, c: Cursor) {
    g < c.generation || (g == c.generation && k < c.step)
  }

  predicate AtCursor(g: nat, k: nat, c: Cursor) {
    g == c.generation && k == c.step
  }

  // ---- jobs ----------------------------------------------------------------------------------

  datatype Failure = Unclassified | ConfigError | ParseFailed | ArtifactUnreadable | ExternalApiError | BindingMissing

  datatype JobStatus =
    | Accepted | Running | ReconciliationRequired | Succeeded | ArtifactVerified | Failed(kind: Failure)

  predicate Terminal(s: JobStatus) {
    s.Succeeded? || s.ArtifactVerified? || s.Failed?
  }

  datatype Job = Job(source: Source, status: JobStatus, cursor: Cursor)

  function NewJob(source: Source): Job {
    Job(source, Accepted, FreshCursor(0, None))
  }

  function CommandKey(job: JobId, generation: nat, step: nat): DedupKey {
    if step == 0 then IngestKey(job, generation) else PollKey(job, generation, step)
  }

  /** The outbox command of one cursor position; every command of a job shares its identity's resource. */
  function CommandEvent(job: JobId, source: Source, generation: nat, step: nat, notBefore: Option<real>): Event {
    Event(Intent(TOPIC, UploadIdentity(source), Command(job, generation, step), map[], notBefore),
          CommandKey(job, generation, step))
  }

  predicate Retryable(j: Job, force: bool) {
    Terminal(j.status) && !j.status.Succeeded? && (j.status == Failed(ConfigError) ==> force)
  }

  /** A new generation keeps the verified upload and drops phase, step and timers. */
  function Retried(j: Job): Job {
    j.(status := Accepted, cursor := FreshCursor(j.cursor.generation + 1, j.cursor.upload))
  }

  // ---- poll schedule -------------------------------------------------------------------------

  function Lesser(a: real, b: real): (r: real)
    ensures r <= a && r <= b && (r == a || r == b)
  {
    if a < b then a else b
  }

  /** min(60, interval * 2 ** min(step, 16)) seconds */
  function Delay(interval: real, step: nat): real {
    Lesser(60.0, interval * Pow2(Min(step, 16)) as real)
  }

  /** The cursor one poll later: next step, ready after the delay but never after the deadline. */
  function Scheduled(c: Cursor, now: real): Cursor
    requires c.deadline.Some?
  {
    c.(step := c.step + 1, readyAt := Some(Lesser(c.deadline.value, now + Delay(c.interval, c.step))))
  }

  // ---- provider operations --------------------------------------------------------------------

  datatype OpKey = UploadKey(identity: string) | ParseKey(identity: string, job: JobId, generation: nat)

  datatype OpIntent =
    | UploadIntent(scope: string, dataset: string, app: string, version: string, refs: string, sha256: string,
                   filename: string)
    | ParseIntent(dataset: string, document: string)
    | MigratedIntent

  datatype OpState = Intended | Executing | Unknown | Confirmed | LegacyUnknown

  datatype Receipt =
    | NoReceipt
    | UploadReceipt(dataset: string, document: string, filename: string, sha256: string)
    | ParseReceipt(document: string)

  datatype Operation = Operation(intent: OpIntent, state: OpState, receipt: Receipt)

  type Journal = map<OpKey, Operation>

  datatype Declared = Legacy | Conflict | Row(journal: Journal)

  /** `operation`: record the intent once; a legacy row or another intent is an error. */
  function Declare(j: Journal, key: OpKey, intent: OpIntent): Declared {
    if key !in j then Row(j[key := Operation(intent, Intended, NoReceipt)])
    else if j[key].state.LegacyUnknown? then Legacy
    else if j[key].intent != intent then Conflict
    else Row(j)
  }

  /** `start` claims an operation exactly when it is still only intended. */
  predicate Startable(j: Journal, key: OpKey) {
    key in j && j[key].state.Intended?
  }

  function Start(j: Journal, key: OpKey): Journal {
    if Startable(j, key) then j[key := j[key].(state := Executing)] else j
  }

  /** `confirm` refuses a second receipt that differs. */
  predicate ConfirmConflicts(j: Journal, key: OpKey, receipt: Receipt) {
    key in j && j[key].state.Confirmed? && j[key].receipt != receipt
  }

  function Confirm(j: Journal, key: OpKey, receipt: Receipt): Journal {
    if key in j then j[key := j[key].(state := Confirmed, receipt := receipt)] else j
  }

  function MarkUnknown(j: Journal, key: OpKey): Journal {
    if key in j && j[key].state.Executing? then j[key := j[key].(state := Unknown)] else j
  }

  /** A parse submission under the identity whose outcome nobody has confirmed. */
  predicate InFlight(j: Journal, key: OpKey, identity: string) {
    key in j && key.ParseKey? && key.identity == identity && (j[key].state.Executing? || j[key].state.Unknown?)
  }

  predicate Unfinished(j: Journal, identity: string) {
    exists key :: key in j && InFlight(j, key, identity)
  }

  function UploadIntentOf(s: Source, scope: string, dataset: string, sha256: string, filename: string): OpIntent {
    UploadIntent(scope, dataset, s.app, s.version, s.artifactRefs, sha256, filename)
  }

  function ReceiptOf(u: VerifiedUpload): Receipt {
    UploadReceipt(u.dataset, u.document, u.filename, u.sha256)
  }

  /** The guard before an upload already on the cursor is trusted: it must be the journal's. */
  predicate UploadVerified(j: Journal, s: Source, u: VerifiedUpload, scope: string) {
    var key := UploadKey(UploadIdentity(s));
    && key in j && j[key].state.Confirmed? && j[key].receipt == ReceiptOf(u)
    && j[key].intent == UploadIntentOf(s, scope, u.dataset, u.sha256, u.filename)
  }

  predicate ParseVerified(j: Journal, s: Source, job: JobId, generation: nat, u: VerifiedUpload) {
    var key := ParseKey(UploadIdentity(s), job, generation);
    && key in j && j[key].state.Confirmed? && j[key].receipt == ParseReceipt(u.document)
    && j[key].intent == ParseIntent(u.dataset, u.document)
  }

  // ---- domain versions -----------------------------------------------------------------------

  datatype VersionKey = VersionKey(app: string, documentId: string, dataset: string, version: string)
  datatype VersionRow = VersionRow(ingestion: JobId, dataset: string, document: string)

  function VersionOf(s: Source): VersionKey {
    VersionKey(s.app, s.documentId, DatasetOf(s), s.version)
  }
}
