/** Steps inside a handler keep the ingestion invariants. */
module IngestionContinue {
  import opened Tables
  import opened DeliverySpec
  import opened IngestionSpec
  import opened IngestionMachine
  import opened IngestionInvariants
  import opened IngestionSteps
  import Delivery = DeliveryMachine

  lemma ContinueCommands(s: System, w: nat, e: Effect, now: real, next: Handler, t: System)
    requires Serving(s) && Synced(s) && CommandsSound(s) && FirstCommands(s)
    requires w in s.handlers && Shape(s, w, e, now, next, t)
    ensures CommandsSound(t) && FirstCommands(t)
  {
    ShapeJobs(s, w, e, now, next, t);
    forall id | id in t.core.db.outbox ensures CommandSound(t.core.db.outbox[id], t.jobs) {
      assert CommandSound(s.core.db.outbox[id], s.jobs);
    }
  }

  lemma ContinueLive(s: System, w: nat, e: Effect, now: real, next: Handler, t: System)
    requires Delivery.IndexSound(s.core.db) && Delivery.FreshWhileNamed(s.core) && Serving(s) && Synced(s)
    requires CommandsSound(s) && LiveCommands(s)
    requires w in s.handlers && Shape(s, w, e, now, next, t)
    ensures LiveCommands(t)
  {
  }

  /** Reading the job gives a handler for exactly the command it holds. */
  predicate FromLoad(s: System, w: nat, next: Handler)
    requires w in s.handlers && Serves(s, w)
  {
    && (HasLocal(next) ==>
          && next.l.job in s.jobs && PayloadOf(s, w) == Command(next.l.job, next.l.generation, next.l.step)
          && next.l.cursor == s.jobs[next.l.job].cursor && !next.l.dirty
          && AtCursor(next.l.generation, next.l.step, next.l.cursor) && (next.Begin? || next.MarkRunning?))
    && (!HasLocal(next) ==>
          next.AckOnly? && Obsolete(PayloadOf(s, w), s.jobs))
  }

  lemma LoadFacts(cfg: Config, s: System, w: nat, e: Effect, now: real, next: Handler)
    requires w in s.handlers && s.handlers[w].Load? && Serves(s, w) && Allows(cfg, s, w, now, s.handlers[w], e, next)
    ensures FromLoad(s, w, next)
  {
  }

  /** What the next point is, relative to the current one. */
  predicate Follows(s: System, w: nat, e: Effect, next: Handler)
    requires w in s.handlers && Serves(s, w)
  {
    var h := s.handlers[w];
    if h.Load? then FromLoad(s, w, next)
    else if h.Refresh? then next == Begin(h.l.(cursor := s.jobs[h.l.job].cursor))
    else HasLocal(h) && Carries(h, e, next)
  }

  lemma ContinueFollows(cfg: Config, s: System, w: nat, e: Effect, now: real, next: Handler, t: System)
    requires cfg.Valid() && w in s.handlers && Serves(s, w) && HandlerOk(s, s.handlers[w])
    requires Continues(cfg, s, w, e, now, next, t)
    ensures Follows(s, w, e, next)
  {
    var h := s.handlers[w];
    if h.Load? {
      LoadFacts(cfg, s, w, e, now, next);
    } else if !h.Refresh? {
      AllowsProceeds(cfg, s, w, now, h, e, next);
    }
  }

  lemma ContinueServing(s: System, w: nat, e: Effect, now: real, next: Handler, t: System)
    requires Serving(s) && Synced(s) && w in s.handlers && Shape(s, w, e, now, next, t) && Follows(s, w, e, next)
    ensures Serving(t)
  {
  }

  lemma OwnSync(s: System, w: nat, e: Effect, now: real, next: Handler, t: System)
    requires Serving(s) && Synced(s) && w in s.handlers && Shape(s, w, e, now, next, t) && Follows(s, w, e, next)
    requires s.handlers[w].Refresh? ==> !s.handlers[w].l.dirty
    requires Serves(t, w) && Effective(t, w)
    ensures InSync(t.jobs[next.l.job].cursor, next.l)
  {
  }

  lemma ContinueSynced(s: System, w: nat, e: Effect, now: real, next: Handler, t: System)
    requires Delivery.LeasesSound(s.core) && Delivery.OwnersDistinct(s.core) && CommandsSound(s)
    requires Serving(s) && Synced(s) && w in s.handlers && Shape(s, w, e, now, next, t) && Follows(s, w, e, next)
    requires s.handlers[w].Refresh? ==> !s.handlers[w].l.dirty
    ensures Synced(t)
  {
    ShapeJobs(s, w, e, now, next, t);
    forall v | v in t.handlers && Serves(t, v) && Effective(t, v)
      ensures InSync(t.jobs[t.handlers[v].l.job].cursor, t.handlers[v].l)
    {
      if v == w {
        OwnSync(s, w, e, now, next, t);
      } else {
        assert Serves(s, v) && Effective(s, v);
        if e.Commit? {
          assert Serves(s, w);
          IdentitiesApart(s, w, v);
        }
      }
    }
  }

  lemma ObsoleteStays(s: System, t: System, c: Payload)
    requires JobsExtend(s, t) && Obsolete(c, s.jobs)
    requires t.jobs[c.job] == s.jobs[c.job]
    ensures Obsolete(c, t.jobs)
  {
  }

  lemma ContinueAcks(s: System, w: nat, e: Effect, now: real, next: Handler, t: System)
    requires Delivery.LeasesSound(s.core) && Delivery.OwnersDistinct(s.core) && CommandsSound(s)
    requires Serving(s) && Synced(s) && AcksObsolete(s) && w in s.handlers && Shape(s, w, e, now, next, t)
    requires Follows(s, w, e, next)
    ensures AcksObsolete(t)
  {
    ShapeJobs(s, w, e, now, next, t);
    forall v | v in t.handlers && Serves(t, v) && t.handlers[v].AckOnly? && Names(t.core.db, LeaseOf(t, v))
      ensures Obsolete(PayloadOf(t, v), t.jobs)
    {
      if v != w {
        assert Serves(s, v) && Obsolete(PayloadOf(s, v), s.jobs);
        if e.Commit? {
          assert Serves(s, w);
          IdentitiesApart(s, w, v);
        }
        ObsoleteStays(s, t, PayloadOf(s, v));
      }
    }
  }

  // ---- cursor against journal -------------------------------------------------------------------

  /** The journal after the step's effect. */
  function JournalAfter(s: System, e: Effect): Journal {
    if e.Commit? then e.journal else s.journal
  }

  lemma BeginBacked(cfg: Config, s: System, l: Local, now: real, next: Handler)
    requires HandlerOk(s, Begin(l)) && BeginNext(cfg, s, l, now, next) && HasLocal(next)
    ensures Backed(s.journal, l.job, s.jobs[l.job].source, next.l.cursor)
  {
  }

  /** Confirming the upload is what entitles the cursor to carry it. */
  lemma UploadConfirmBacked(cfg: Config, s: System, l: Local, intent: OpIntent, document: string, now: real,
                            e: Effect, next: Handler)
    requires HandlerOk(s, UploadConfirm(l, intent, document)) && HasLocal(next)
    requires ConfirmsUpload(cfg, s, l, intent, document, now, e, next)
    ensures Backed(JournalAfter(s, e), l.job, s.jobs[l.job].source, next.l.cursor)
  {
  }

  /** Confirming the parse submission is what entitles the cursor to the poll phase. */
  lemma ParseConfirmBacked(s: System, l: Local, run: Option<ParseStatus>, e: Effect, next: Handler)
    requires HandlerOk(s, ParseConfirm(l, run)) && ConfirmsParse(s, l, run, e, next) && HasLocal(next)
    ensures Backed(JournalAfter(s, e), l.job, s.jobs[l.job].source, next.l.cursor)
  {
  }

  lemma AllowsBacked(cfg: Config, s: System, w: nat, now: real, h: Handler, e: Effect, next: Handler)
    requires HasLocal(h) && HandlerOk(s, h) && Allows(cfg, s, w, now, h, e, next) && !h.Refresh?
    requires Proceeds(s, h, e, next) && Grows(s.journal, JournalAfter(s, e))
    ensures Backed(JournalAfter(s, e), h.l.job, s.jobs[h.l.job].source, next.l.cursor)
  {
    if h.Begin? {
      BeginBacked(cfg, s, h.l, now, next);
    } else if h.UploadConfirm? {
      UploadConfirmBacked(cfg, s, h.l, h.intent, h.document, now, e, next);
    } else if h.ParseConfirm? {
      ParseConfirmBacked(s, h.l, h.run, e, next);
    } else {
      BackedGrows(s.journal, JournalAfter(s, e), h.l.job, s.jobs[h.l.job].source, h.l.cursor);
    }
  }

  lemma UploadDeclareRecorded(s: System, l: Local, intent: OpIntent, e: Effect, next: Handler)
    requires l.job in s.jobs && DeclaresUpload(s, l, intent, e, next) && HasLocal(next)
    ensures Recorded(JournalAfter(s, e), s.jobs[l.job].source, next)
  {
  }

  lemma UploadConfirmRecorded(cfg: Config, s: System, l: Local, intent: OpIntent, document: string, now: real,
                              e: Effect, next: Handler)
    requires l.job in s.jobs && ConfirmsUpload(cfg, s, l, intent, document, now, e, next) && HasLocal(next)
    ensures Recorded(JournalAfter(s, e), s.jobs[l.job].source, next)
  {
  }

  lemma UploadRecorded(cfg: Config, s: System, now: real, h: Handler, e: Effect, next: Handler)
    requires UploadPoint(h) && HandlerOk(s, h) && UploadAllows(cfg, s, now, h, e, next) && HasLocal(next)
    requires Grows(s.journal, JournalAfter(s, e))
    ensures Recorded(JournalAfter(s, e), s.jobs[h.l.job].source, next)
  {
    match h
    case UploadDeclare(l, intent) => UploadDeclareRecorded(s, l, intent, e, next);
    case UploadConfirm(l, intent, document) => UploadConfirmRecorded(cfg, s, l, intent, document, now, e, next);
    case _ =>
  }

  lemma ParseDeclareRecorded(s: System, l: Local, e: Effect, next: Handler)
    requires l.job in s.jobs && DeclaresParse(s, l, e, next) && HasLocal(next)
    ensures Recorded(JournalAfter(s, e), s.jobs[l.job].source, next)
  {
  }

  lemma ParseRecorded(s: System, h: Handler, e: Effect, next: Handler)
    requires ParsePoint(h) && HandlerOk(s, h) && ParseAllows(s, h, e, next) && HasLocal(next)
    requires Grows(s.journal, JournalAfter(s, e))
    ensures Recorded(JournalAfter(s, e), s.jobs[h.l.job].source, next)
  {
    match h
    case ParseDeclare(l) => ParseDeclareRecorded(s, l, e, next);
    case _ =>
  }

  lemma OtherRecorded(cfg: Config, s: System, w: nat, now: real, h: Handler, e: Effect, next: Handler)
    requires HasLocal(h) && !UploadPoint(h) && !ParsePoint(h) && h.l.job in s.jobs
    requires Allows(cfg, s, w, now, h, e, next) && HasLocal(next)
    ensures Recorded(JournalAfter(s, e), s.jobs[h.l.job].source, next)
  {
  }

  lemma AllowsRecorded(cfg: Config, s: System, w: nat, now: real, h: Handler, e: Effect, next: Handler)
    requires HasLocal(h) && HandlerOk(s, h) && Allows(cfg, s, w, now, h, e, next) && HasLocal(next)
    requires Grows(s.journal, JournalAfter(s, e))
    ensures Recorded(JournalAfter(s, e), s.jobs[h.l.job].source, next)
  {
    if UploadPoint(h) {
      UploadRecorded(cfg, s, now, h, e, next);
    } else if ParsePoint(h) {
      ParseRecorded(s, h, e, next);
    } else {
      OtherRecorded(cfg, s, w, now, h, e, next);
    }
  }

  lemma AllowsIn(cfg: Config, s: System, w: nat, now: real, h: Handler, e: Effect, next: Handler)
    requires cfg.Valid() && HasLocal(h) && HandlerOk(s, h) && Allows(cfg, s, w, now, h, e, next) && !h.Refresh?
    requires Grows(s.journal, JournalAfter(s, e))
    ensures HasLocal(next) && next.l.job == h.l.job
    ensures HandlerIn(JournalAfter(s, e), s.jobs[h.l.job].source, next)
  {
    AllowsProceeds(cfg, s, w, now, h, e, next);
    AllowsBacked(cfg, s, w, now, h, e, next);
    AllowsRecorded(cfg, s, w, now, h, e, next);
  }

  lemma NextOk(cfg: Config, s: System, w: nat, e: Effect, now: real, next: Handler, t: System)
    requires cfg.Valid() && JobsBacked(s) && w in s.handlers && Serves(s, w) && HandlerOk(s, s.handlers[w])
    requires Continues(cfg, s, w, e, now, next, t)
    requires Grows(s.journal, JournalAfter(s, e))
    ensures HasLocal(next) ==> next.l.job in s.jobs && HandlerIn(JournalAfter(s, e), s.jobs[next.l.job].source, next)
  {
    var h := s.handlers[w];
    if h.Load? {
      LoadFacts(cfg, s, w, e, now, next);
    } else if !h.Refresh? {
      AllowsIn(cfg, s, w, now, h, e, next);
    }
  }

  lemma ContinueHandlers(s: System, w: nat, e: Effect, now: real, next: Handler, t: System)
    requires Serving(s) && Synced(s) && HandlersOk(s) && w in s.handlers && Shape(s, w, e, now, next, t)
    requires Grows(s.journal, JournalAfter(s, e))
    requires HasLocal(next) ==> next.l.job in s.jobs && HandlerIn(JournalAfter(s, e), s.jobs[next.l.job].source, next)
    ensures HandlersOk(t)
  {
  }

  lemma ContinueJobsBacked(s: System, w: nat, e: Effect, now: real, next: Handler, t: System)
    requires Serving(s) && Synced(s) && HandlersOk(s) && JobsBacked(s) && w in s.handlers
    requires Shape(s, w, e, now, next, t)
    requires Grows(s.journal, JournalAfter(s, e))
    ensures JobsBacked(t)
  {
  }

  lemma ContinueBound(s: System, w: nat, e: Effect, now: real, next: Handler, t: System)
    requires Serving(s) && Synced(s) && SucceededBound(s) && w in s.handlers && Shape(s, w, e, now, next, t)
    ensures SucceededBound(t)
  {
  }
}
