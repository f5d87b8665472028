/** Submit, dispatch, retry, operator actions and every delivery action keep the ingestion invariants. */
module IngestionService {
  import opened Tables
  import opened DeliverySpec
  import opened IngestionSpec
  import opened IngestionMachine
  import opened IngestionInvariants
  import opened IngestionSteps
  import opened IngestionContinue
  import Delivery = DeliveryMachine

  /** Handlers, journal and remote writes as they were; job rows may change. */
  predicate Bystanders(s: System, t: System) {
    t.handlers == s.handlers && t.posts == s.posts && t.versions == s.versions && t.core.consumers == s.core.consumers
  }

  /** Tables after a service transaction: nothing, or one new command under a free key. */
  ghost predicate CommandAdded(x: Db, y: Db, e: Option<Event>, id: MessageId) {
    && y.inbox == x.inbox && y.execution == x.execution
    && (e.None? ==> y.outbox == x.outbox && y.index == x.index)
    && (e.Some? ==>
          && id !in x.outbox && e.value.dedup !in x.index
          && y.index == x.index[e.value.dedup := id]
          && y.outbox.Keys == x.outbox.Keys + {id}
          && y.outbox[id].intent == e.value.intent && y.outbox[id].dedup == e.value.dedup
          && forall k :: k in x.outbox ==> y.outbox[k] == x.outbox[k])
  }

  lemma EnqueueAdds(p: Policy, core: Delivery.System, id: MessageId, e: Event, now: real)
    requires Delivery.Enabled(p, core, Delivery.Enqueue(id, e, now))
    ensures var after := Delivery.Next(p, core, Delivery.Enqueue(id, e, now));
      && CommandAdded(core.db, after.db, if e.dedup in core.db.index then None else Some(e), id)
      && after.consumers == core.consumers && (e.dedup in core.db.index ==> after == core)
  {
  }

  /** A job was created or moved to a later generation, together with its first command; all else stays. */
  ghost predicate Restarted(s: System, t: System, job: JobId, id: MessageId) {
    && Bystanders(s, t) && t.journal == s.journal
    && job in t.jobs && t.jobs.Keys == s.jobs.Keys + {job}
    && (forall j :: j in s.jobs && j != job ==> t.jobs[j] == s.jobs[j])
    && (job in s.jobs ==>
          t.jobs[job].source == s.jobs[job].source && t.jobs[job].cursor.generation > s.jobs[job].cursor.generation)
    && t.jobs[job].cursor.step == 0 && !Terminal(t.jobs[job].status)
    && CommandAdded(s.core.db, t.core.db,
                    Some(CommandEvent(job, t.jobs[job].source, t.jobs[job].cursor.generation, 0, None)), id)
  }

  lemma FreshKey(s: System, job: JobId, generation: nat)
    requires Delivery.IndexSound(s.core.db) && CommandsSound(s)
    requires job in s.jobs ==> generation > s.jobs[job].cursor.generation
    ensures IngestKey(job, generation) !in s.core.db.index
  {
  }

  lemma SubmitRestarts(p: Policy, s: System, t: System, job: JobId, source: Source, id: MessageId, now: real)
    requires Delivery.IndexSound(s.core.db) && CommandsSound(s) && Submits(p, s, job, source, id, now, t)
    ensures Restarted(s, t, job, id) && t.jobs[job] == NewJob(source)
  {
  }

  lemma RetryRestarts(p: Policy, s: System, t: System, job: JobId, force: bool, id: MessageId, now: real)
    requires Delivery.IndexSound(s.core.db) && CommandsSound(s) && Retries(p, s, job, force, id, now, t)
    ensures Restarted(s, t, job, id) && t.jobs[job] == Retried(s.jobs[job])
  {
    var j := Retried(s.jobs[job]);
    FreshKey(s, job, j.cursor.generation);
    EnqueueAdds(p, s.core, id, CommandEvent(job, j.source, j.cursor.generation, 0, None), now);
  }

  /** Dispatch and repeated submits add nothing: the generation's first command is always there. */
  lemma RequestIsIdempotent(p: Policy, s: System, t: System, job: JobId, id: MessageId, now: real)
    requires FirstCommands(s) && Requests(p, s, job, id, now, t)
    ensures t == s
  {
  }

  lemma RestartCommands(s: System, t: System, job: JobId, id: MessageId)
    requires CommandsSound(s) && FirstCommands(s) && Restarted(s, t, job, id)
    ensures CommandsSound(t) && FirstCommands(t)
  {
  }

  lemma RestartLive(s: System, t: System, job: JobId, id: MessageId)
    requires Delivery.InboxCounts(s.core) && LiveCommands(s) && Restarted(s, t, job, id)
    ensures LiveCommands(t)
  {
  }

  lemma RestartAcked(s: System, t: System, job: JobId, id: MessageId)
    requires OnlyCommandsAcked(s) && Restarted(s, t, job, id)
    ensures OnlyCommandsAcked(t)
  {
  }

  /** The handlers of the old generation are fenced off from the first moment of the new one. */
  lemma RestartHandlers(s: System, t: System, job: JobId, id: MessageId)
    requires CommandsSound(s) && Serving(s) && Synced(s) && AcksObsolete(s) && Restarted(s, t, job, id)
    ensures Serving(t) && Synced(t) && AcksObsolete(t)
  {
    forall v | v in t.handlers
      ensures Serves(t, v) && Serves(s, v)
      ensures Effective(t, v) ==> Effective(s, v) && s.handlers[v].l.job != job
      ensures t.handlers[v].AckOnly? && Names(t.core.db, LeaseOf(t, v)) ==> Obsolete(PayloadOf(t, v), t.jobs)
    {
      assert Serves(s, v);
      assert CommandSound(s.core.db.outbox[LeaseOf(s, v).message], s.jobs);
    }
  }

  lemma RestartBacked(s: System, t: System, job: JobId, id: MessageId)
    requires JobsBacked(s) && HandlersOk(s) && SucceededBound(s) && Restarted(s, t, job, id)
    requires t.jobs[job] == (if job in s.jobs then Retried(s.jobs[job]) else NewJob(t.jobs[job].source))
    ensures JobsBacked(t) && HandlersOk(t) && SucceededBound(t)
  {
    forall v | v in t.handlers ensures HandlerOk(t, t.handlers[v]) {
      assert HandlerOk(s, s.handlers[v]);
    }
    forall j | j in t.jobs && t.jobs[j].status.Succeeded? ensures Bound(t, j) {
      assert Bound(s, j);
    }
  }

  /** With the same handlers on jobs of the same sources, the remote-write bounds carry over. */
  lemma SameHandlersPosts(s: System, t: System)
    requires t.handlers == s.handlers && t.posts == s.posts && s.jobs.Keys <= t.jobs.Keys && HandlersOk(s)
    requires forall j :: j in s.jobs ==> t.jobs[j].source == s.jobs[j].source
    requires PostsOnce(s) && Grows(s.journal, t.journal)
    ensures PostsOnce(t)
  {
    forall v: nat, key: OpKey | AboutToPost(t, v, key) ensures AboutToPost(s, v, key) {
      assert HandlerOk(s, s.handlers[v]);
    }
    assert forall key :: Posts(t, key) == Posts(s, key);
  }

  lemma SameHandlersCheck(s: System, t: System)
    requires t.handlers == s.handlers && t.core.consumers == s.core.consumers && s.jobs.Keys <= t.jobs.Keys
    requires forall j :: j in s.jobs ==> t.jobs[j].source == s.jobs[j].source
    requires forall id :: id in s.core.db.outbox ==>
      id in t.core.db.outbox && t.core.db.outbox[id] == s.core.db.outbox[id]
    requires t.core.db.execution == s.core.db.execution
    requires forall identity :: Unfinished(t.journal, identity) ==> Unfinished(s.journal, identity)
    requires Serving(s) && CheckStillHolds(s)
    ensures CheckStillHolds(t)
  {
  }

  // ---- operator ---------------------------------------------------------------------------------

  /** An operator override leaves every cursor alone and only makes a job terminal. */
  ghost predicate Overridden(s: System, t: System) {
    && t.core == s.core && t.handlers == s.handlers && t.journal == s.journal
    && t.versions == s.versions && t.posts == s.posts
    && t.jobs.Keys == s.jobs.Keys
    && forall j :: j in s.jobs ==>
         && t.jobs[j].source == s.jobs[j].source && t.jobs[j].cursor == s.jobs[j].cursor
         && (t.jobs[j].status == s.jobs[j].status || t.jobs[j].status.Failed?)
  }

  lemma OverrideCommands(s: System, t: System)
    requires Overridden(s, t) && CommandsSound(s) && FirstCommands(s) && LiveCommands(s)
    ensures CommandsSound(t) && FirstCommands(t) && LiveCommands(t)
  {
  }

  lemma OverrideHandlers(s: System, t: System)
    requires Overridden(s, t) && Serving(s) && Synced(s) && AcksObsolete(s)
    ensures Serving(t) && Synced(t) && AcksObsolete(t)
  {
  }

  lemma OverrideBacked(s: System, t: System)
    requires Overridden(s, t) && JobsBacked(s) && HandlersOk(s) && SucceededBound(s)
    ensures JobsBacked(t) && HandlersOk(t) && SucceededBound(t)
  {
  }

  /** Operator recovery only ever confirms an upload: it puts nothing in flight. */
  lemma RecoverGrows(s: System, job: JobId, document: string)
    requires JournalShaped(s.journal) && OneInFlight(s.journal) && RecoverAllowed(s, job, document)
    ensures var t := Recovered(s, job, document);
      && Grows(s.journal, t.journal) && JournalShaped(t.journal) && OneInFlight(t.journal)
      && forall identity :: Unfinished(t.journal, identity) ==> Unfinished(s.journal, identity)
  {
    var key := UploadKey(UploadIdentity(s.jobs[job].source));
    var receipt := UploadReceiptFor(s.journal[key].intent, document);
    ConfirmGrows(s.journal, key, receipt);
    var t := Recovered(s, job, document);
    assert forall k, identity :: InFlight(t.journal, k, identity) ==> InFlight(s.journal, k, identity);
  }

  lemma RecoverKeeps(s: System, t: System)
    requires Grows(s.journal, t.journal) && t.jobs == s.jobs && t.handlers == s.handlers && t.versions == s.versions
    requires JobsBacked(s) && HandlersOk(s) && SucceededBound(s)
    ensures JobsBacked(t) && HandlersOk(t) && SucceededBound(t)
  {
  }
}
