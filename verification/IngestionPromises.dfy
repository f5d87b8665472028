/** What every reachable state of the ingestion machine promises to jobs, operators and other services. */
module IngestionPromises {
  import opened Tables
  import opened DeliverySpec
  import opened IngestionSpec
  import opened IngestionMachine
  import opened IngestionInvariants
  import opened IngestionService
  import opened IngestionSafety
  import opened IngestionTheorems
  import Delivery = DeliveryMachine

  ghost predicate Reachable(p: Policy, s: System) {
    exists states, steps :: Runs(p, states, steps) && states[|steps|] == s
  }

  lemma ReachableInv(p: Policy, s: System)
    requires Reachable(p, s)
    ensures IngestPolicy(p) && Inv(p, s)
  {
    var states, steps :| Runs(p, states, steps) && states[|steps|] == s;
    RunInv(p, states, steps, |steps|);
  }

  lemma ReachableHandler(p: Policy, s: System, w: nat)
    requires Reachable(p, s) && w in s.handlers
    ensures HandlerOk(s, s.handlers[w])
  {
    ReachableInv(p, s);
  }

  // ---- cursor and journal -------------------------------------------------------------------------

  /** The persisted cursor never claims more than the journal has confirmed: its upload is the receipt of
      the confirmed upload of this source version, polling means the parse of that document under this
      job and generation was confirmed, and success means both and a version row bound to the document. */
  lemma CursorClaimsAreConfirmed(p: Policy, s: System, j: JobId)
    requires Reachable(p, s) && j in s.jobs
    ensures var c, key := s.jobs[j].cursor, UploadKey(UploadIdentity(s.jobs[j].source));
      c.upload.Some? ==>
        key in s.journal && s.journal[key].state.Confirmed? && s.journal[key].receipt == ReceiptOf(c.upload.value)
    ensures var c, key := s.jobs[j].cursor, ParseKey(UploadIdentity(s.jobs[j].source), j, s.jobs[j].cursor.generation);
      c.phase.Poll? ==>
        && c.upload.Some? && key in s.journal && s.journal[key].state.Confirmed?
        && s.journal[key].receipt == ParseReceipt(c.upload.value.document)
    ensures s.jobs[j].status.Succeeded? ==> s.jobs[j].cursor.phase.Poll? && Bound(s, j)
  {
    ReachableInv(p, s);
    var c := s.jobs[j].cursor;
    assert ValidCursor(c) && Backed(s.journal, j, s.jobs[j].source, c);
    if s.jobs[j].status.Succeeded? {
      assert Bound(s, j);
    }
  }

  /** A polling handler always finds its confirmed parse receipt: the error branch for a missing or
      different one cannot be reached. */
  lemma PollReceiptIsThere(p: Policy, s: System, w: nat)
    requires Reachable(p, s) && w in s.handlers && s.handlers[w].PollCheck?
    ensures var l := s.handlers[w].l;
      l.job in s.jobs && l.cursor.upload.Some?
      && ParseVerified(s.journal, s.jobs[l.job].source, l.job, l.cursor.generation, l.cursor.upload.value)
  {
    ReachableHandler(p, s, w);
  }

  /** The check of a stored upload against the journal fails exactly when the provider scope has changed. */
  lemma CursorConflictIff(p: Policy, s: System, w: nat, scope: string)
    requires Reachable(p, s) && w in s.handlers && HasLocal(s.handlers[w]) && s.handlers[w].l.cursor.upload.Some?
    ensures var l := s.handlers[w].l;
      l.job in s.jobs
      && (UploadVerified(s.journal, s.jobs[l.job].source, l.cursor.upload.value, scope) <==>
            scope == l.cursor.upload.value.scope)
  {
    ReachableHandler(p, s, w);
  }

  /** Application names and version ids hold no ':', so an upload identity stands for one version of one
      application in one dataset. */
  lemma IdentityInjective(a: Source, b: Source)
    requires ':' !in a.app && ':' !in b.app && ':' !in a.version && ':' !in b.version
    requires UploadIdentity(a) == UploadIdentity(b)
    ensures a.app == b.app && a.version == b.version && DatasetOf(a) == DatasetOf(b)
  {
    var n := |"knowledge-upload:"|;
    var x, y := a.app + ":" + (a.version + ":" + DatasetOf(a)), b.app + ":" + (b.version + ":" + DatasetOf(b));
    assert UploadIdentity(a) == "knowledge-upload:" + x && UploadIdentity(b) == "knowledge-upload:" + y;
    assert x == UploadIdentity(a)[n..] && y == UploadIdentity(b)[n..];
    SplitsOnce(a.app, a.version + ":" + DatasetOf(a), b.app, b.version + ":" + DatasetOf(b));
    SplitsOnce(a.version, DatasetOf(a), b.version, DatasetOf(b));
  }

  /** Jobs for the same source version and dataset share one provider document. */
  lemma OneDocumentPerVersion(p: Policy, s: System, i: JobId, j: JobId)
    requires Reachable(p, s) && i in s.jobs && j in s.jobs
    requires s.jobs[i].cursor.upload.Some? && s.jobs[j].cursor.upload.Some?
    requires UploadIdentity(s.jobs[i].source) == UploadIdentity(s.jobs[j].source)
    ensures s.jobs[i].cursor.upload.value.document == s.jobs[j].cursor.upload.value.document
  {
    ReachableInv(p, s);
    assert Backed(s.journal, i, s.jobs[i].source, s.jobs[i].cursor);
    assert Backed(s.journal, j, s.jobs[j].source, s.jobs[j].cursor);
  }

  /** Per upload identity at most one parse submission is in doubt, across jobs, generations and crashes. */
  lemma OneParseInDoubt(p: Policy, s: System, identity: string, k1: OpKey, k2: OpKey)
    requires Reachable(p, s) && InFlight(s.journal, k1, identity) && InFlight(s.journal, k2, identity)
    ensures k1 == k2
  {
    ReachableInv(p, s);
  }

  // ---- commands -----------------------------------------------------------------------------------

  /** The message is a command of the job at this position. */
  predicate Commands(m: Message, j: JobId, g: nat, k: nat) {
    m.intent.topic == TOPIC && m.intent.payload == Command(j, g, k)
  }

  /** A live job always has exactly one command for its current position; nobody has acknowledged it, and
      it waits on the execution resource of the job's upload identity. */
  lemma CurrentCommandWaits(p: Policy, s: System, j: JobId) returns (id: MessageId)
    requires Reachable(p, s) && j in s.jobs && !Terminal(s.jobs[j].status)
    ensures id in s.core.db.outbox && (TOPIC, id) !in s.core.db.inbox
    ensures s.core.db.outbox[id].intent.key == UploadIdentity(s.jobs[j].source)
    ensures var c := s.jobs[j].cursor;
      forall m :: m in s.core.db.outbox ==> (Commands(s.core.db.outbox[m], j, c.generation, c.step) <==> m == id)
  {
    ReachableInv(p, s);
    id := CurrentCommandIn(s, j);
  }

  lemma CurrentCommandIn(s: System, j: JobId) returns (id: MessageId)
    requires Delivery.IndexSound(s.core.db) && CommandsSound(s) && LiveCommands(s) && j in s.jobs
    requires !Terminal(s.jobs[j].status)
    ensures id in s.core.db.outbox && (TOPIC, id) !in s.core.db.inbox
    ensures s.core.db.outbox[id].intent.key == UploadIdentity(s.jobs[j].source)
    ensures var c := s.jobs[j].cursor;
      forall m :: m in s.core.db.outbox ==> (Commands(s.core.db.outbox[m], j, c.generation, c.step) <==> m == id)
  {
    var c := s.jobs[j].cursor;
    assert Awaits(s.core.db, j, c);
    id := s.core.db.index[CommandKey(j, c.generation, c.step)];
    assert CommandSound(s.core.db.outbox[id], s.jobs);
    forall m | m in s.core.db.outbox ensures Commands(s.core.db.outbox[m], j, c.generation, c.step) <==> m == id {
      assert CommandSound(s.core.db.outbox[m], s.jobs);
    }
  }

  /** No command is ever ahead of its job's cursor, so that error branch is unreachable. */
  lemma CommandsNeverAhead(p: Policy, s: System, id: MessageId)
    requires Reachable(p, s) && id in s.core.db.outbox && Commanding(s.core.db.outbox[id].intent)
    ensures var c := s.core.db.outbox[id].intent.payload;
      c.job in s.jobs
      && (Behind(c.generation, c.step, s.jobs[c.job].cursor) || AtCursor(c.generation, c.step, s.jobs[c.job].cursor))
  {
    ReachableInv(p, s);
    assert CommandSound(s.core.db.outbox[id], s.jobs);
  }

  /** What is acknowledged on the ingestion topic is a command its job no longer needs: the job is terminal
      or further on. A message without generation and step is never acknowledged. */
  lemma AcknowledgedIsObsolete(p: Policy, s: System, id: MessageId)
    requires Reachable(p, s) && id in s.core.db.outbox && (TOPIC, id) in s.core.db.inbox
    requires s.core.db.outbox[id].intent.topic == TOPIC
    ensures Obsolete(s.core.db.outbox[id].intent.payload, s.jobs)
  {
    ReachableInv(p, s);
    assert CommandSound(s.core.db.outbox[id], s.jobs);
    var c := s.core.db.outbox[id].intent.payload;
    if !Terminal(s.jobs[c.job].status) {
      assert Awaits(s.core.db, c.job, s.jobs[c.job].cursor);
    }
  }

  /** A command acknowledged without work is obsolete when that commits, and nothing but its inbox row,
      its handler and its consumer changes. */
  lemma ObsoleteAckChangesNothing(p: Policy, s: System, w: nat, id: MessageId, now: real, t: System)
    requires Reachable(p, s) && w in s.handlers && s.handlers[w].AckOnly? && Ends(p, s, w, id, now, t)
    ensures Serves(s, w) && Obsolete(PayloadOf(s, w), s.jobs)
    ensures t.jobs == s.jobs && t.journal == s.journal && t.versions == s.versions && t.posts == s.posts
    ensures t.core.db == s.core.db.(inbox := s.core.db.inbox + {(TOPIC, LeaseOf(s, w).message)})
  {
    ReachableInv(p, s);
    AckedCommand(p, s, w, now);
  }

  /** Dispatching a live job again, or submitting it again, changes nothing at all. */
  lemma DispatchIsIdempotent(p: Policy, s: System, job: JobId, id: MessageId, now: real, t: System)
    requires Reachable(p, s) && Requests(p, s, job, id, now, t)
    ensures t == s
  {
    ReachableInv(p, s);
    RequestIsIdempotent(p, s, t, job, id, now);
  }

  /** A second retry finds a live job, and a retried job starts over under its next generation with one
      fresh command; every handler of the old generation is fenced off. */
  lemma RetryStartsOver(p: Policy, s: System, job: JobId, force: bool, id: MessageId, now: real, t: System)
    requires Reachable(p, s) && Retries(p, s, job, force, id, now, t)
    ensures !Retryable(t.jobs[job], true)
    ensures id !in s.core.db.outbox && id in t.core.db.outbox
    ensures Commands(t.core.db.outbox[id], job, s.jobs[job].cursor.generation + 1, 0)
    ensures t.jobs[job].cursor.upload == s.jobs[job].cursor.upload
    ensures forall w, clock :: w in t.handlers && HasLocal(t.handlers[w]) && t.handlers[w].l.job == job ==>
      !Fenced(t, w, t.handlers[w].l, clock)
  {
    ReachableInv(p, s);
    RetryRestarts(p, s, t, job, force, id, now);
    RestartFences(s, t, job, id);
  }

  lemma RestartFences(s: System, t: System, job: JobId, id: MessageId)
    requires CommandsSound(s) && Serving(s) && Restarted(s, t, job, id)
    ensures forall w, clock :: w in t.handlers && HasLocal(t.handlers[w]) && t.handlers[w].l.job == job ==>
      !Fenced(t, w, t.handlers[w].l, clock)
  {
  }

  // ---- the delivery protocol underneath --------------------------------------------------------------

  /** The final transaction of each command commits at most once, exactly when its inbox row appears. */
  lemma EachCommandOnce(p: Policy, s: System, id: MessageId)
    requires Reachable(p, s) && id in s.core.db.outbox
    ensures Delivery.Handled(s.core, id) == Delivery.Receipts(s.core.db, id) <= 1
  {
    ReachableInv(p, s);
  }
}
