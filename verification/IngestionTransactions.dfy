/** The ingestion service's transactions: each method updates the job, journal and version rows in place,
    together with the delivery tables they share a transaction with. A result of None is a transaction that
    raises and is rolled back. The machine's steps are made of the same transactions. */
module IngestionTransactions {
  import opened Tables
  import opened DeliverySpec
  import opened IngestionSpec
  import M = IngestionMachine
  import Delivery = DeliveryMachine
  import Tasks = DurableTasks

  /** What a consumer session checks before each of its commits: its lease and its job's generation. */
  datatype Fence = Fence(lease: Lease, job: JobId, generation: nat)

  datatype Admission =
    | Rejected                       // no such job, or a command on another job's resource
    | Ahead                          // ahead of the persisted cursor
    | Done                           // terminal or obsolete: acknowledge and change nothing
    | Serve(l: M.Local, running: bool)

  /** The tables after a handler's final transaction. */
  function FinalDb(db: Db, source: Source, l: M.Local, outcome: M.Outcome, id: MessageId, message: MessageId,
                   now: real): Db
    requires message in db.outbox
  {
    if M.Successor(l, outcome, now) then
      var c := Scheduled(l.cursor, now);
      var e := CommandEvent(l.job, source, c.generation, c.step, c.readyAt);
      Acknowledge(DeliverySpec.Enqueue(db, id, e, now), message)
    else Acknowledge(db, message)
  }

  /** The machine's last handler step changes the tables exactly so. */
  lemma FinalCoreIsFinalDb(p: Policy, s: M.System, w: nat, l: M.Local, o: M.Outcome, id: MessageId, now: real,
                           core: Delivery.System)
    requires l.job in s.jobs && Delivery.IsRunning(s.core, w) && M.LeaseOf(s, w).message in s.core.db.outbox
    requires M.FinalCore(p, s, w, l, o, id, now, core)
    ensures core.db == FinalDb(s.core.db, s.jobs[l.job].source, l, o, id, M.LeaseOf(s, w).message, now)
  {
  }

  class Ingestion {
    const tasks: Tasks.DurableTasks
    var jobs: map<JobId, Job>
    var journal: Journal
    var versions: map<VersionKey, VersionRow>

    constructor (tasks: Tasks.DurableTasks)
      ensures this.tasks == tasks && jobs == map[] && journal == map[] && versions == map[]
    {
      this.tasks := tasks;
      jobs, journal, versions := map[], map[], map[];
    }

    predicate Current(f: Fence, now: real)
      reads this, tasks.db
    {
      && Guard(tasks.db.Snapshot(), f.lease, now)
      && f.job in jobs && jobs[f.job].cursor.generation == f.generation
    }

    // ---- provider operations ------------------------------------------------------------------------

    /** Records the intent once. None: the fence refused the commit. */
    method Operation(f: Fence, key: OpKey, intent: OpIntent, now: real) returns (r: Option<Declared>)
      modifies this`journal
      ensures r.None? ==> journal == old(journal) && !Current(f, now)
      ensures r.Some? ==> r.value == Declare(old(journal), key, intent)
      ensures r.Some? ==> journal == if r.value.Row? then r.value.journal else old(journal)
      ensures r.Some? && r.value.Row? ==> key in journal && journal[key].intent == intent && Current(f, now)
    {
      if key in journal {
        if journal[key].state.LegacyUnknown? {
          return Some(Legacy);
        }
        if journal[key].intent != intent {
          return Some(Conflict);
        }
      }
      if !Current(f, now) {
        return None;
      }
      if key !in journal {
        journal := journal[key := IngestionSpec.Operation(intent, Intended, NoReceipt)];
      }
      r := Some(Row(journal));
    }

    /** Claims an operation before its network write; only the session that finds it intended wins. */
    method Start(f: Fence, key: OpKey, now: real) returns (r: Option<bool>)
      modifies this`journal
      ensures r.None? <==> !Current(f, now)
      ensures r.Some? ==> r.value == Startable(old(journal), key)
      ensures journal == if r.Some? then IngestionSpec.Start(old(journal), key) else old(journal)
      ensures r == Some(true) ==> key in journal && journal[key].state.Executing? && !Startable(journal, key)
    {
      if !Current(f, now) {
        return None;
      }
      var claimed := key in journal && journal[key].state.Intended?;
      if claimed {
        journal := journal[key := journal[key].(state := Executing)];
      }
      r := Some(claimed);
    }

    /** Stores a receipt; a confirmed operation keeps the one it has. */
    method Confirm(f: Fence, key: OpKey, receipt: Receipt, now: real) returns (ok: bool)
      requires key in journal
      modifies this`journal
      ensures ok <==> !ConfirmConflicts(old(journal), key, receipt) && Current(f, now)
      ensures journal == if ok then IngestionSpec.Confirm(old(journal), key, receipt) else old(journal)
      ensures old(journal)[key].state.Confirmed? ==> journal == old(journal)
    {
      if journal[key].state.Confirmed? && journal[key].receipt != receipt {
        return false;
      }
      if !Current(f, now) {
        return false;
      }
      journal := journal[key := journal[key].(state := Confirmed, receipt := receipt)];
      ok := true;
    }

    method MarkUnknown(f: Fence, key: OpKey, now: real) returns (ok: bool)
      modifies this`journal
      ensures ok <==> Current(f, now)
      ensures journal == if ok then IngestionSpec.MarkUnknown(old(journal), key) else old(journal)
    {
      if !Current(f, now) {
        return false;
      }
      if key in journal && journal[key].state.Executing? {
        journal := journal[key := journal[key].(state := IngestionSpec.Unknown)];
      }
      ok := true;
    }

    // ---- jobs ---------------------------------------------------------------------------------------

    /** The first command of a job's generation, as the tables take it. */
    function CommandDb(job: JobId, j: Job, id: MessageId, now: real): Db
      reads tasks.db
    {
      DeliverySpec.Enqueue(tasks.db.Snapshot(), id, CommandEvent(job, j.source, j.cursor.generation, 0, None), now)
    }

    predicate CommandAccepted(job: JobId, j: Job)
      reads tasks.db
    {
      Accepts(tasks.db.Snapshot(), CommandEvent(job, j.source, j.cursor.generation, 0, None))
    }

    /** A new key creates an accepted job with its command; a known key must stand for the same source, and
        a live job is dispatched again. */
    method Submit(job: JobId, source: Source, id: MessageId, now: real) returns (ok: bool)
      requires id !in tasks.db.outbox
      modifies this`jobs, tasks.db
      ensures var j := if job in old(jobs) then old(jobs)[job] else NewJob(source);
        && (ok <==> j.source == source && (Terminal(j.status) || old(CommandAccepted(job, j))))
        && jobs == (if ok then old(jobs)[job := j] else old(jobs))
        && tasks.db.Snapshot() == (if ok && !Terminal(j.status) then old(CommandDb(job, j, id, now))
                                   else old(tasks.db.Snapshot()))
    {
      var j := if job in jobs then jobs[job] else NewJob(source);
      if j.source != source {
        return false;
      }
      if !Terminal(j.status) {
        var stored := tasks.Enqueue(CommandEvent(job, j.source, j.cursor.generation, 0, None), id, now);
        if stored.None? {
          return false;
        }
      }
      jobs := jobs[job := j];
      ok := true;
    }

    /** Only a terminal, unsucceeded job may be retried, and a configuration error only by force. */
    method Retry(job: JobId, force: bool, id: MessageId, now: real) returns (ok: bool)
      requires id !in tasks.db.outbox
      modifies this`jobs, tasks.db
      ensures ok <==>
        job in old(jobs) && Retryable(old(jobs)[job], force) && old(CommandAccepted(job, Retried(jobs[job])))
      ensures jobs == if ok then old(jobs)[job := Retried(old(jobs)[job])] else old(jobs)
      ensures tasks.db.Snapshot() ==
        if ok then old(CommandDb(job, Retried(jobs[job]), id, now)) else old(tasks.db.Snapshot())
    {
      if job !in jobs || !Terminal(jobs[job].status) || jobs[job].status.Succeeded? {
        return false;
      }
      if jobs[job].status == Failed(ConfigError) && !force {
        return false;
      }
      var previous := jobs[job].cursor;
      var j := jobs[job].(status := Accepted, cursor := FreshCursor(previous.generation + 1, previous.upload));
      var stored := tasks.Enqueue(CommandEvent(job, j.source, j.cursor.generation, 0, None), id, now);
      if stored.None? {
        return false;
      }
      jobs := jobs[job := j];
      ok := true;
    }

    /** What becomes of a command that reached its handler. */
    method Process(lease: Lease, job: JobId, generation: nat, step: nat) returns (r: Admission)
      ensures r.Rejected? <==> job !in jobs || lease.resource != TOPIC + ":" + UploadIdentity(jobs[job].source)
      ensures !r.Rejected? ==>
        && (r.Done? <==> Terminal(jobs[job].status) || Behind(generation, step, jobs[job].cursor))
        && (r.Serve? <==> !Terminal(jobs[job].status) && AtCursor(generation, step, jobs[job].cursor))
      ensures r.Serve? ==>
        r == Serve(M.Local(job, generation, step, jobs[job].cursor, false), jobs[job].status.Running?)
    {
      if job !in jobs || lease.resource != TOPIC + ":" + UploadIdentity(jobs[job].source) {
        return Rejected;
      }
      var j := jobs[job];
      var sameGeneration := generation == j.cursor.generation;
      if Terminal(j.status) || generation < j.cursor.generation || (sameGeneration && step < j.cursor.step) {
        return Done;
      }
      if generation != j.cursor.generation || step != j.cursor.step {
        return Ahead;
      }
      r := Serve(M.Local(job, generation, step, j.cursor, false), j.status.Running?);
    }

    /** The handler's last transaction: job row, version row, perhaps the successor command, and the inbox
        row commit together or not at all. */
    method Complete(f: Fence, l: M.Local, outcome: M.Outcome, id: MessageId, now: real) returns (ok: bool)
      requires f.job == l.job && f.generation == l.generation && f.lease.message in tasks.db.outbox
      requires id !in tasks.db.outbox
      modifies this`jobs, this`versions, tasks.db
      ensures ok <==>
        && old(Current(f, now)) && M.FinalJob(old(jobs)[l.job], l, outcome, now).Some?
        && (M.Successor(l, outcome, now) ==>
              var c := Scheduled(l.cursor, now);
              Accepts(old(tasks.db.Snapshot()),
                      CommandEvent(l.job, old(jobs)[l.job].source, c.generation, c.step, c.readyAt)))
      ensures !ok ==> jobs == old(jobs) && versions == old(versions) && tasks.db.Snapshot() == old(tasks.db.Snapshot())
      ensures ok ==>
        && jobs == old(jobs)[l.job := M.FinalJob(old(jobs)[l.job], l, outcome, now).value]
        && tasks.db.Snapshot() ==
           FinalDb(old(tasks.db.Snapshot()), old(jobs)[l.job].source, l, outcome, id, f.lease.message, now)
        && versions == (if outcome.Succeed? && l.cursor.upload.Some? then
                          var upload := l.cursor.upload.value;
                          old(versions)[VersionOf(old(jobs)[l.job].source) :=
                                          VersionRow(l.job, upload.dataset, upload.document)]
                        else old(versions))
    {
      if !Current(f, now) {
        return false;
      }
      var j := jobs[l.job];
      if l.dirty {
        j := j.(cursor := l.cursor);
      }
      match outcome {
        case Fail(kind) => j := j.(status := Failed(kind));
        case VerifiedArtifact => j := j.(status := ArtifactVerified);
        case Succeed =>
          j := j.(status := Succeeded);
          if l.cursor.upload.Some? {
            var upload := l.cursor.upload.value;
            versions := versions[VersionOf(j.source) := VersionRow(l.job, upload.dataset, upload.document)];
          }
        case Schedule =>
          if l.cursor.deadline.None? {
            return false;
          }
          if now >= l.cursor.deadline.value {
            j := j.(status := Failed(ParseFailed));
          } else {
            var following := Scheduled(l.cursor, now);
            var command := CommandEvent(l.job, j.source, following.generation, following.step, following.readyAt);
            var stored := tasks.Enqueue(command, id, now);
            if stored.None? {
              return false;
            }
            j := j.(cursor := following);
          }
      }
      jobs := jobs[l.job := j];
      tasks.db.inbox := tasks.db.inbox + {(tasks.db.outbox[f.lease.message].intent.topic, f.lease.message)};
      ok := true;
    }
  }
}
