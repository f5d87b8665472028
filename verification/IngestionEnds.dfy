/** The last transaction of a handler keeps the ingestion invariants. */
module IngestionEnds {
  import opened Tables
  import opened DeliverySpec
  import opened IngestionSpec
  import opened IngestionMachine
  import opened IngestionInvariants
  import opened IngestionSteps
  import opened IngestionContinue
  import Delivery = DeliveryMachine

  lemma CommandKeyInjective(j1: JobId, g1: nat, k1: nat, j2: JobId, g2: nat, k2: nat)
    ensures CommandKey(j1, g1, k1) == CommandKey(j2, g2, k2) <==> j1 == j2 && g1 == g2 && k1 == k2
  {
  }

  // ---- acknowledging without work -----------------------------------------------------------------

  /** Acknowledging one command leaves the awaited command of a job alone unless it is that command. */
  lemma AcknowledgeKeeps(db: Db, id: MessageId, job: JobId, c: Cursor)
    requires IndexSoundAt(db, CommandKey(job, c.generation, c.step)) && id in db.outbox && Awaits(db, job, c)
    requires db.outbox[id].dedup != CommandKey(job, c.generation, c.step)
    ensures Awaits(Acknowledge(db, id), job, c)
  {
  }

  predicate IndexSoundAt(db: Db, k: DedupKey) {
    k in db.index ==> db.index[k] in db.outbox && db.outbox[db.index[k]].dedup == k
  }

  lemma AckLive(p: Policy, s: System, w: nat, now: real, t: System)
    requires Delivery.IndexSound(s.core.db) && CommandsSound(s) && LiveCommands(s) && Serving(s) && AcksObsolete(s)
    requires w in s.handlers && s.handlers[w].AckOnly? && Delivery.Enabled(p, s.core, Delivery.Commit(w, now))
    requires t == Gone(s, w).(core := Delivery.Next(p, s.core, Delivery.Commit(w, now)))
    ensures LiveCommands(t)
  {
    assert Serves(s, w);
    var m := LeaseOf(s, w).message;
    var c := PayloadOf(s, w);
    assert CommandSound(s.core.db.outbox[m], s.jobs);
    forall j | j in t.jobs && !Terminal(t.jobs[j].status) ensures Awaits(t.core.db, j, t.jobs[j].cursor) {
      var x := s.jobs[j].cursor;
      CommandKeyInjective(c.job, c.generation, c.step, j, x.generation, x.step);
      assert IndexSoundAt(s.core.db, CommandKey(j, x.generation, x.step));
      AcknowledgeKeeps(s.core.db, m, j, x);
    }
  }

  /** Besides the inbox row, acknowledging changes nothing but the consumer and its handler. */
  predicate Acknowledged(s: System, w: nat, t: System)
    requires w in s.handlers
  {
    && Delivery.IsRunning(s.core, w) && t.core.consumers == s.core.consumers[w := Delivery.Acked(LeaseOf(s, w))]
    && t.core.db.outbox == s.core.db.outbox && t.core.db.index == s.core.db.index
    && t.core.db.execution == s.core.db.execution
    && t == Gone(s, w).(core := t.core)
  }

  lemma AckShape(p: Policy, s: System, w: nat, now: real, t: System)
    requires w in s.handlers && Delivery.Enabled(p, s.core, Delivery.Commit(w, now))
    requires t == Gone(s, w).(core := Delivery.Next(p, s.core, Delivery.Commit(w, now)))
    ensures Acknowledged(s, w, t)
  {
  }

  lemma AckCommands(s: System, w: nat, t: System)
    requires w in s.handlers && Acknowledged(s, w, t) && CommandsSound(s) && FirstCommands(s) && SelectedCommands(s)
    ensures CommandsSound(t) && FirstCommands(t) && SelectedCommands(t)
  {
  }

  lemma AckHandlers(s: System, w: nat, t: System)
    requires w in s.handlers && Acknowledged(s, w, t) && Serving(s) && Synced(s) && AcksObsolete(s)
    requires CheckStillHolds(s)
    ensures Serving(t) && Synced(t) && AcksObsolete(t) && CheckStillHolds(t)
  {
  }

  lemma AckBacked(s: System, w: nat, t: System)
    requires w in s.handlers && Acknowledged(s, w, t) && JobsBacked(s) && HandlersOk(s) && SucceededBound(s)
    ensures JobsBacked(t) && HandlersOk(t) && SucceededBound(t)
  {
  }

  lemma AckAcked(s: System, w: nat, t: System)
    requires w in s.handlers && Acknowledged(s, w, t) && OnlyCommandsAcked(s) && Serves(s, w)
    requires PayloadOf(s, w).Command?
    requires t.core.db.inbox == s.core.db.inbox + {(TOPIC, LeaseOf(s, w).message)}
    ensures OnlyCommandsAcked(t)
  {
  }

  // ---- the delivery part of a final transaction ----------------------------------------------------

  lemma FinalCoreInv(p: Policy, s: System, w: nat, l: Local, o: Outcome, id: MessageId, now: real,
                     core: Delivery.System)
    requires p.Valid() && Delivery.Inv(p, s.core) && l.job in s.jobs && FinalCore(p, s, w, l, o, id, now, core)
    ensures Delivery.Inv(p, core)
  {
    if Successor(l, o, now) {
      var a := Delivery.Enqueue(id, SuccessorEvent(s, l, now), now);
      Delivery.StepKeepsInv(p, s.core, a);
      Delivery.StepKeepsInv(p, Delivery.Next(p, s.core, a), Delivery.Commit(w, now));
    } else {
      Delivery.StepKeepsInv(p, s.core, Delivery.Commit(w, now));
    }
  }

  /** Tables after a handler's final transaction: perhaps one new command under a free key, one new inbox
      row, every lease untouched. */
  ghost predicate FinalTables(x: Db, y: Db, m: MessageId, next: Option<Event>, id: MessageId) {
    && m in x.outbox && y.inbox == x.inbox + {(x.outbox[m].intent.topic, m)} && y.execution == x.execution
    && (next.None? ==> y.outbox == x.outbox && y.index == x.index)
    && (next.Some? ==>
          && id !in x.outbox && next.value.dedup !in x.index
          && y.index == x.index[next.value.dedup := id]
          && y.outbox.Keys == x.outbox.Keys + {id}
          && y.outbox[id].intent == next.value.intent && y.outbox[id].dedup == next.value.dedup
          && forall k :: k in x.outbox ==> y.outbox[k] == x.outbox[k])
  }

  /** The job row is terminal at its position, or one step further with the command of that step next. */
  ghost predicate JobFinished(s: System, l: Local, next: Option<Event>, t: System)
    requires l.job in s.jobs
  {
    && t.jobs.Keys == s.jobs.Keys && (forall j :: j in s.jobs && j != l.job ==> t.jobs[j] == s.jobs[j])
    && var a, b := s.jobs[l.job], t.jobs[l.job];
       && b.source == a.source && b.cursor.generation == a.cursor.generation
       && b.cursor.upload == l.cursor.upload && b.cursor.phase == l.cursor.phase && ValidCursor(b.cursor)
       && Extends(a.cursor, l.cursor)
       && (next.None? ==> b.cursor.step == a.cursor.step && Terminal(b.status))
       && (next.Some? ==>
             && b.status == a.status && b.cursor.step == a.cursor.step + 1
             && next.value == CommandEvent(l.job, a.source, b.cursor.generation, b.cursor.step, b.cursor.readyAt))
  }

  /** A finished handler, summarised: its job row is finished in that sense, the next command is in the
      outbox, and its own command is acknowledged. */
  ghost predicate Finished(s: System, w: nat, l: Local, next: Option<Event>, id: MessageId, t: System) {
    && w in s.handlers && Serves(s, w) && HasLocal(s.handlers[w]) && s.handlers[w].l == l
    && Names(s.core.db, LeaseOf(s, w)) && AtCursor(l.generation, l.step, s.jobs[l.job].cursor)
    && FinalTables(s.core.db, t.core.db, LeaseOf(s, w).message, next, id)
    && t.core.consumers == s.core.consumers[w := Delivery.Acked(LeaseOf(s, w))]
    && t.handlers == s.handlers - {w} && t.journal == s.journal && t.posts == s.posts
    && JobFinished(s, l, next, t)
  }

  function NextCommand(s: System, l: Local, o: Outcome, now: real): Option<Event>
    requires l.job in s.jobs
  {
    if Successor(l, o, now) then Some(SuccessorEvent(s, l, now)) else None
  }

  /** No command is ahead of a cursor, so the successor's deduplication key is free. */
  lemma SuccessorIsNew(s: System, l: Local)
    requires Delivery.IndexSound(s.core.db) && CommandsSound(s) && l.job in s.jobs
    requires AtCursor(l.generation, l.step, s.jobs[l.job].cursor)
    ensures CommandKey(l.job, l.generation, l.step + 1) !in s.core.db.index
  {
  }

  lemma FinalTablesHold(p: Policy, s: System, w: nat, l: Local, o: Outcome, id: MessageId, now: real,
                        core: Delivery.System)
    requires Delivery.IsRunning(s.core, w) && LeaseOf(s, w).message in s.core.db.outbox && l.job in s.jobs
    requires FinalCore(p, s, w, l, o, id, now, core)
    requires Successor(l, o, now) ==> SuccessorEvent(s, l, now).dedup !in s.core.db.index
    ensures FinalTables(s.core.db, core.db, LeaseOf(s, w).message, NextCommand(s, l, o, now), id)
    ensures core.consumers == s.core.consumers[w := Delivery.Acked(LeaseOf(s, w))]
  {
  }

  /** What a final transaction makes of the job row, by cases of the outcome. */
  lemma FinalJobFacts(a: Job, l: Local, o: Outcome, now: real)
    requires InSync(a.cursor, l) && a.cursor.generation == l.generation && ValidCursor(l.cursor)
    requires FinalJob(a, l, o, now).Some?
    ensures var b, more := FinalJob(a, l, o, now).value, Successor(l, o, now);
      && b.source == a.source && b.cursor.generation == a.cursor.generation
      && b.cursor.upload == l.cursor.upload && b.cursor.phase == l.cursor.phase && ValidCursor(b.cursor)
      && Extends(a.cursor, l.cursor)
      && (!more ==> b.cursor.step == a.cursor.step && Terminal(b.status))
      && (more ==> b.status == a.status && b.cursor.step == a.cursor.step + 1 && b.cursor == Scheduled(l.cursor, now))
  {
  }

  lemma JobFinishes(s: System, l: Local, o: Outcome, now: real, t: System)
    requires l.job in s.jobs && InSync(s.jobs[l.job].cursor, l) && s.jobs[l.job].cursor.generation == l.generation
    requires ValidCursor(l.cursor) && FinalJob(s.jobs[l.job], l, o, now).Some?
    requires t.jobs == s.jobs[l.job := FinalJob(s.jobs[l.job], l, o, now).value]
    ensures JobFinished(s, l, NextCommand(s, l, o, now), t)
  {
    FinalJobFacts(s.jobs[l.job], l, o, now);
  }

  /** A handler that passes its guards works on the job's own cursor, under the row it named. */
  lemma FencedFacts(s: System, w: nat, l: Local, now: real)
    requires Synced(s) && w in s.handlers && Serves(s, w) && HasLocal(s.handlers[w]) && s.handlers[w].l == l
    requires Fenced(s, w, l, now)
    ensures InSync(s.jobs[l.job].cursor, l) && Names(s.core.db, LeaseOf(s, w))
    ensures AtCursor(l.generation, l.step, s.jobs[l.job].cursor)
  {
    assert Effective(s, w);
  }

  lemma EndFinished(p: Policy, s: System, w: nat, l: Local, o: Outcome, id: MessageId, now: real, t: System)
    requires Delivery.IndexSound(s.core.db) && CommandsSound(s) && Serving(s) && Synced(s)
    requires w in s.handlers && s.handlers[w] == Finish(l, o) && ValidCursor(l.cursor)
    requires EndsFinal(p, s, w, l, o, id, now, t)
    ensures l.job in s.jobs && Finished(s, w, l, NextCommand(s, l, o, now), id, t)
    ensures FinalCore(p, s, w, l, o, id, now, t.core)
    ensures t.versions == FinalVersions(s, l, o) && FinalJob(s.jobs[l.job], l, o, now) == Some(t.jobs[l.job])
  {
    assert Serves(s, w);
    FencedFacts(s, w, l, now);
    JobFinishes(s, l, o, now, t);
    SuccessorIsNew(s, l);
    FinalTablesHold(p, s, w, l, o, id, now, t.core);
  }

  lemma FinishCommands(s: System, w: nat, l: Local, next: Option<Event>, id: MessageId, t: System)
    requires CommandsSound(s) && FirstCommands(s) && Finished(s, w, l, next, id, t)
    ensures CommandsSound(t) && FirstCommands(t)
  {
    forall m | m in t.core.db.outbox ensures CommandSound(t.core.db.outbox[m], t.jobs) {
      if m in s.core.db.outbox {
        assert CommandSound(s.core.db.outbox[m], s.jobs);
      }
    }
  }

  lemma OthersStillAwait(s: System, w: nat, l: Local, next: Option<Event>, id: MessageId, t: System, j: JobId)
    requires Delivery.IndexSound(s.core.db) && CommandsSound(s) && LiveCommands(s) && Finished(s, w, l, next, id, t)
    requires j in s.jobs && j != l.job && !Terminal(s.jobs[j].status)
    ensures Awaits(t.core.db, j, t.jobs[j].cursor)
  {
  }

  lemma FinishLive(s: System, w: nat, l: Local, next: Option<Event>, id: MessageId, t: System)
    requires Delivery.IndexSound(s.core.db) && Delivery.InboxCounts(s.core) && CommandsSound(s) && LiveCommands(s)
    requires Finished(s, w, l, next, id, t)
    ensures LiveCommands(t)
  {
    forall j | j in t.jobs && !Terminal(t.jobs[j].status) ensures Awaits(t.core.db, j, t.jobs[j].cursor) {
      if j != l.job {
        OthersStillAwait(s, w, l, next, id, t, j);
      }
    }
  }

  lemma FinishAcked(s: System, w: nat, l: Local, next: Option<Event>, id: MessageId, t: System)
    requires OnlyCommandsAcked(s) && Finished(s, w, l, next, id, t)
    ensures OnlyCommandsAcked(t)
  {
  }

  lemma FinishSelected(s: System, w: nat, l: Local, next: Option<Event>, id: MessageId, t: System)
    requires SelectedCommands(s) && Finished(s, w, l, next, id, t)
    ensures SelectedCommands(t)
  {
  }

  lemma FinishServing(s: System, w: nat, l: Local, next: Option<Event>, id: MessageId, t: System)
    requires Serving(s) && Finished(s, w, l, next, id, t)
    ensures Serving(t)
  {
  }

  lemma FinishSynced(s: System, w: nat, l: Local, next: Option<Event>, id: MessageId, t: System)
    requires Delivery.LeasesSound(s.core) && Delivery.OwnersDistinct(s.core) && CommandsSound(s)
    requires Serving(s) && Synced(s) && Finished(s, w, l, next, id, t)
    ensures Synced(t)
  {
    forall v | v in t.handlers && Serves(t, v) && Effective(t, v)
      ensures InSync(t.jobs[t.handlers[v].l.job].cursor, t.handlers[v].l)
    {
      assert Serves(s, v) && Names(s.core.db, LeaseOf(s, v));
      IdentitiesApart(s, w, v);
      assert Effective(s, v);
    }
  }

  lemma FinishAcks(s: System, w: nat, l: Local, next: Option<Event>, id: MessageId, t: System)
    requires Delivery.LeasesSound(s.core) && Delivery.OwnersDistinct(s.core) && CommandsSound(s) && AcksObsolete(s)
    requires Serving(s) && Finished(s, w, l, next, id, t)
    ensures AcksObsolete(t)
  {
    forall v | v in t.handlers && Serves(t, v) && t.handlers[v].AckOnly? && Names(t.core.db, LeaseOf(t, v))
      ensures Obsolete(PayloadOf(t, v), t.jobs)
    {
      assert Serves(s, v) && Names(s.core.db, LeaseOf(s, v));
      IdentitiesApart(s, w, v);
    }
  }

  lemma FinishBacked(s: System, w: nat, l: Local, next: Option<Event>, id: MessageId, t: System)
    requires HandlersOk(s) && JobsBacked(s) && Finished(s, w, l, next, id, t)
    ensures JobsBacked(t)
  {
  }

  lemma FinishHandlers(s: System, w: nat, l: Local, next: Option<Event>, id: MessageId, t: System)
    requires HandlersOk(s) && Finished(s, w, l, next, id, t)
    ensures HandlersOk(t)
  {
  }

  /** Two cursors of the same source version that both carry a verified upload carry the same document. */
  lemma SameVersionSameUpload(journal: Journal, j1: JobId, s1: Source, c1: Cursor, j2: JobId, s2: Source, c2: Cursor)
    requires Backed(journal, j1, s1, c1) && Backed(journal, j2, s2, c2) && c1.upload.Some? && c2.upload.Some?
    requires VersionOf(s1) == VersionOf(s2)
    ensures c1.upload.value.dataset == c2.upload.value.dataset && c1.upload.value.document == c2.upload.value.document
  {
  }

  /** A later success of the same source version binds the same document again. */
  lemma BoundStays(s: System, w: nat, l: Local, o: Outcome, next: Option<Event>, id: MessageId, t: System, j: JobId)
    requires JobsBacked(s) && Finished(s, w, l, next, id, t) && t.versions == FinalVersions(s, l, o)
    requires Backed(s.journal, l.job, s.jobs[l.job].source, l.cursor) && j in s.jobs && j != l.job && Bound(s, j)
    ensures Bound(t, j)
  {
    assert Backed(s.journal, j, s.jobs[j].source, s.jobs[j].cursor);
    if o.Succeed? && l.cursor.upload.Some? && VersionOf(s.jobs[j].source) == VersionOf(s.jobs[l.job].source) {
      SameVersionSameUpload(s.journal, j, s.jobs[j].source, s.jobs[j].cursor, l.job, s.jobs[l.job].source, l.cursor);
    }
  }

  lemma OwnBound(s: System, w: nat, l: Local, o: Outcome, next: Option<Event>, id: MessageId, now: real, t: System)
    requires SucceededBound(s) && Finished(s, w, l, next, id, t) && t.versions == FinalVersions(s, l, o)
    requires FinalJob(s.jobs[l.job], l, o, now) == Some(t.jobs[l.job]) && PointOk(s.jobs[l.job].source, Finish(l, o))
    requires t.jobs[l.job].status.Succeeded?
    ensures Bound(t, l.job)
  {
    if !o.Succeed? {
      assert Bound(s, l.job);
    }
  }

  lemma FinishBound(s: System, w: nat, l: Local, o: Outcome, next: Option<Event>, id: MessageId, now: real, t: System)
    requires HandlersOk(s) && JobsBacked(s) && SucceededBound(s) && Finished(s, w, l, next, id, t)
    requires s.handlers[w] == Finish(l, o) && t.versions == FinalVersions(s, l, o)
    requires FinalJob(s.jobs[l.job], l, o, now) == Some(t.jobs[l.job])
    ensures SucceededBound(t)
  {
    assert HandlerOk(s, s.handlers[w]);
    forall j | j in t.jobs && t.jobs[j].status.Succeeded? ensures Bound(t, j) {
      if j == l.job {
        OwnBound(s, w, l, o, next, id, now, t);
      } else {
        assert Bound(s, j);
        BoundStays(s, w, l, o, next, id, t, j);
      }
    }
  }

  lemma FinishPosts(s: System, w: nat, l: Local, next: Option<Event>, id: MessageId, t: System)
    requires Finished(s, w, l, next, id, t) && PostsOnce(s)
    ensures PostsOnce(t)
  {
    forall v: nat, key: OpKey | AboutToPost(t, v, key) ensures AboutToPost(s, v, key) {}
    assert forall key :: Posts(t, key) == Posts(s, key);
  }

  lemma FinishCheck(s: System, w: nat, l: Local, next: Option<Event>, id: MessageId, t: System)
    requires Finished(s, w, l, next, id, t) && Serving(s) && CheckStillHolds(s)
    ensures CheckStillHolds(t)
  {
    forall v | v in t.handlers && Serves(t, v) && t.handlers[v].ParseStart? && Names(t.core.db, LeaseOf(t, v))
      ensures !Unfinished(t.journal, UploadIdentity(t.jobs[t.handlers[v].l.job].source))
    {
      assert Serves(s, v) && Names(s.core.db, LeaseOf(s, v));
    }
  }

  // ---- a handler that simply goes away -----------------------------------------------------------

  lemma GoneServes(s: System, w: nat)
    ensures Serving(s) ==> Serving(Gone(s, w))
    ensures Synced(s) ==> Synced(Gone(s, w))
    ensures AcksObsolete(s) ==> AcksObsolete(Gone(s, w))
  {
  }

  lemma GoneKeeps(s: System, w: nat)
    ensures HandlersOk(s) ==> HandlersOk(Gone(s, w))
    ensures CheckStillHolds(s) ==> CheckStillHolds(Gone(s, w))
  {
  }

  lemma FewerHandlersPosts(s: System, w: nat, t: System)
    requires PostsOnce(s) && t.handlers == s.handlers - {w} && t.jobs == s.jobs && t.journal == s.journal
    requires t.posts == s.posts
    ensures PostsOnce(t)
  {
    forall v: nat, key: OpKey | AboutToPost(t, v, key) ensures AboutToPost(s, v, key) {}
    assert forall key :: Posts(t, key) == Posts(s, key);
  }
}
