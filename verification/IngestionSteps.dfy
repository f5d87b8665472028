/** What one handler step changes, program point by program point, summarised for the invariant proofs. */
module IngestionSteps {
  import opened Tables
  import opened DeliverySpec
  import opened IngestionSpec
  import opened IngestionMachine
  import opened IngestionInvariants
  import Delivery = DeliveryMachine

  // ---- the journal only grows -------------------------------------------------------------------

  /** No operation is forgotten, changes its intent, returns to intended, or changes once confirmed. */
  ghost predicate Grows(a: Journal, b: Journal) {
    forall k :: k in a ==> k in b && GrowsAt(a[k], b[k])
  }

  predicate GrowsAt(x: Operation, y: Operation) {
    && y.intent == x.intent
    && (x.state.Confirmed? ==> y == x)
    && (!x.state.Intended? ==> !y.state.Intended?)
    && (x.state.LegacyUnknown? <==> y.state.LegacyUnknown?)
  }

  lemma DeclareGrows(j: Journal, key: OpKey, intent: OpIntent)
    requires JournalShaped(j) && Declare(j, key, intent).Row?
    requires if key.ParseKey? then intent.ParseIntent? else intent.UploadIntent?
    ensures var b := Declare(j, key, intent).journal;
      && Grows(j, b) && JournalShaped(b) && key in b && b[key].intent == intent && !b[key].state.LegacyUnknown?
  {
  }

  lemma StartGrows(j: Journal, key: OpKey)
    requires JournalShaped(j)
    ensures Grows(j, Start(j, key)) && JournalShaped(Start(j, key))
  {
  }

  lemma MarkUnknownGrows(j: Journal, key: OpKey)
    requires JournalShaped(j)
    ensures Grows(j, MarkUnknown(j, key)) && JournalShaped(MarkUnknown(j, key))
  {
  }

  lemma ConfirmGrows(j: Journal, key: OpKey, receipt: Receipt)
    requires JournalShaped(j) && key in j && !j[key].state.LegacyUnknown? && !ConfirmConflicts(j, key, receipt)
    requires if key.ParseKey? then j[key].intent.ParseIntent? && receipt == ParseReceipt(j[key].intent.document)
             else j[key].intent.UploadIntent? && receipt.UploadReceipt?
                  && receipt == UploadReceiptFor(j[key].intent, receipt.document)
    ensures Grows(j, Confirm(j, key, receipt)) && JournalShaped(Confirm(j, key, receipt))
  {
  }

  lemma BackedGrows(a: Journal, b: Journal, job: JobId, source: Source, c: Cursor)
    requires Grows(a, b) && Backed(a, job, source, c)
    ensures Backed(b, job, source, c)
  {
  }

  // ---- shape of a step that leaves the handler running --------------------------------------------

  /** The next point serves the same command, and its cursor carries the work forward; a dirty cursor
      becomes clean only by a commit. */
  predicate Carries(h: Handler, e: Effect, next: Handler)
    requires HasLocal(h)
  {
    && HasLocal(next)
    && next.l.job == h.l.job && next.l.generation == h.l.generation && next.l.step == h.l.step
    && (|| next.l == h.l
        || (e.Commit? && next.l == Clean(h.l))
        || (next.l.dirty && Extends(h.l.cursor, next.l.cursor)))
  }

  /** Every point carries the command on and keeps what the next point relies on. */
  predicate Proceeds(s: System, h: Handler, e: Effect, next: Handler)
    requires HasLocal(h) && h.l.job in s.jobs
  {
    && Carries(h, e, next) && PointOk(s.jobs[h.l.job].source, next) && ValidCursor(next.l.cursor)
    && (next.l.cursor != h.l.cursor ==> h.Begin? || h.UploadConfirm? || h.ParseConfirm?)
  }

  /** The handler works for a known job and satisfies what its program point relies on. */
  predicate Stands(s: System, h: Handler) {
    HasLocal(h) && h.l.job in s.jobs && PointOk(s.jobs[h.l.job].source, h) && ValidCursor(h.l.cursor)
  }

  lemma UploadDeclareProceeds(s: System, l: Local, intent: OpIntent, e: Effect, next: Handler)
    requires Stands(s, UploadDeclare(l, intent)) && DeclaresUpload(s, l, intent, e, next)
    ensures Proceeds(s, UploadDeclare(l, intent), e, next)
  {
  }

  lemma UploadConfirmProceeds(cfg: Config, s: System, l: Local, intent: OpIntent, document: string, now: real,
                              e: Effect, next: Handler)
    requires cfg.Valid() && Stands(s, UploadConfirm(l, intent, document))
    requires ConfirmsUpload(cfg, s, l, intent, document, now, e, next)
    ensures Proceeds(s, UploadConfirm(l, intent, document), e, next)
  {
  }

  lemma UploadProceeds(cfg: Config, s: System, now: real, h: Handler, e: Effect, next: Handler)
    requires cfg.Valid() && UploadPoint(h) && Stands(s, h) && UploadAllows(cfg, s, now, h, e, next)
    ensures Proceeds(s, h, e, next)
  {
    match h
    case UploadDeclare(l, intent) => UploadDeclareProceeds(s, l, intent, e, next);
    case UploadConfirm(l, intent, document) => UploadConfirmProceeds(cfg, s, l, intent, document, now, e, next);
    case _ =>
  }

  lemma ParseDeclareProceeds(s: System, l: Local, e: Effect, next: Handler)
    requires Stands(s, ParseDeclare(l)) && DeclaresParse(s, l, e, next)
    ensures Proceeds(s, ParseDeclare(l), e, next)
  {
  }

  lemma ParseProceeds(s: System, h: Handler, e: Effect, next: Handler)
    requires ParsePoint(h) && Stands(s, h) && ParseAllows(s, h, e, next)
    ensures Proceeds(s, h, e, next)
  {
    match h
    case ParseDeclare(l) => ParseDeclareProceeds(s, l, e, next);
    case _ =>
  }

  lemma ParseConfirmProceeds(s: System, l: Local, run: Option<ParseStatus>, e: Effect, next: Handler)
    requires Stands(s, ParseConfirm(l, run)) && ConfirmsParse(s, l, run, e, next)
    ensures Proceeds(s, ParseConfirm(l, run), e, next)
  {
  }

  lemma BeginProceeds(cfg: Config, s: System, l: Local, now: real, next: Handler)
    requires cfg.Valid() && Stands(s, Begin(l)) && BeginNext(cfg, s, l, now, next)
    ensures Proceeds(s, Begin(l), Quiet, next)
  {
  }

  lemma AllowsProceeds(cfg: Config, s: System, w: nat, now: real, h: Handler, e: Effect, next: Handler)
    requires cfg.Valid() && Stands(s, h) && Allows(cfg, s, w, now, h, e, next) && !h.Refresh?
    ensures Proceeds(s, h, e, next)
  {
    if UploadPoint(h) {
      UploadProceeds(cfg, s, now, h, e, next);
    } else if ParsePoint(h) {
      ParseProceeds(s, h, e, next);
    } else if h.ParseConfirm? {
      ParseConfirmProceeds(s, h.l, h.run, e, next);
    } else if h.Begin? {
      BeginProceeds(cfg, s, h.l, now, next);
    }
  }

  lemma AllowsJournal(cfg: Config, s: System, w: nat, now: real, h: Handler, e: Effect, next: Handler)
    requires HandlerOk(s, h) && Allows(cfg, s, w, now, h, e, next) && JournalShaped(s.journal) && e.Commit?
    ensures Grows(s.journal, e.journal) && JournalShaped(e.journal)
  {
    match h
    case UploadDeclare(l, intent) => DeclareGrows(s.journal, KeyOfUpload(s, l), intent);
    case UploadStart(l, _) => StartGrows(s.journal, KeyOfUpload(s, l));
    case UploadUnknown(l) => MarkUnknownGrows(s.journal, KeyOfUpload(s, l));
    case UploadConfirm(l, intent, document) =>
      ConfirmGrows(s.journal, KeyOfUpload(s, l), UploadReceiptFor(intent, document));
    case ParseDeclare(l) =>
      var upload := l.cursor.upload.value;
      DeclareGrows(s.journal, KeyOfParse(s, l), ParseIntent(upload.dataset, upload.document));
    case ParseStart(l) => StartGrows(s.journal, KeyOfParse(s, l));
    case ParseUnknown(l) => MarkUnknownGrows(s.journal, KeyOfParse(s, l));
    case ParseConfirm(l, _) => ConfirmGrows(s.journal, KeyOfParse(s, l), ParseReceipt(l.cursor.upload.value.document));
    case _ =>
  }

  // ---- consequences of holding the lease ----------------------------------------------------------

  /** Two handlers whose lease rows are both still their own serve different upload identities. */
  lemma IdentitiesApart(s: System, w: nat, v: nat)
    requires Delivery.LeasesSound(s.core) && Delivery.OwnersDistinct(s.core) && CommandsSound(s)
    requires w in s.handlers && v in s.handlers && w != v && Serves(s, w) && Serves(s, v)
    requires Names(s.core.db, LeaseOf(s, w)) && Names(s.core.db, LeaseOf(s, v))
    requires PayloadOf(s, w).Command? && PayloadOf(s, v).Command?
    ensures PayloadOf(s, w).job in s.jobs && PayloadOf(s, v).job in s.jobs
    ensures UploadIdentity(s.jobs[PayloadOf(s, w).job].source) != UploadIdentity(s.jobs[PayloadOf(s, v).job].source)
    ensures PayloadOf(s, w).job != PayloadOf(s, v).job
  {
  }

  /** A handler that passes its guards holds the unacknowledged command of its job's current cursor. */
  lemma OwnCommand(s: System, w: nat, now: real)
    requires Delivery.IndexSound(s.core.db) && Delivery.FreshWhileNamed(s.core) && CommandsSound(s) && Synced(s)
    requires w in s.handlers && Serves(s, w) && HasLocal(s.handlers[w]) && Fenced(s, w, s.handlers[w].l, now)
    ensures Awaits(s.core.db, s.handlers[w].l.job, s.jobs[s.handlers[w].l.job].cursor)
    ensures var l := s.handlers[w].l; s.core.db.index[CommandKey(l.job, l.generation, l.step)] == LeaseOf(s, w).message
    ensures InSync(s.jobs[s.handlers[w].l.job].cursor, s.handlers[w].l)
  {
  }

  /** Job rows after a handler step: same source and position, cursor only extended. */
  ghost predicate JobsExtend(s: System, t: System) {
    && t.jobs.Keys == s.jobs.Keys
    && forall j :: j in s.jobs ==> t.jobs[j].source == s.jobs[j].source && Extends(s.jobs[j].cursor, t.jobs[j].cursor)
  }

  /** A step without its program: what every intermediate step has in common. */
  predicate Shape(s: System, w: nat, e: Effect, now: real, next: Handler, t: System)
    requires w in s.handlers
  {
    var h := s.handlers[w];
    && (HasLocal(h) ==> h.l.job in s.jobs)
    && (!HasLocal(h) ==> e.Quiet?)
    && (e.Commit? ==> Fenced(s, w, h.l, now) && (e.status.Some? ==> !Terminal(e.status.value)))
    && t == Goto(Applied(s, h, e), w, next)
  }

  lemma ContinueShape(cfg: Config, s: System, w: nat, e: Effect, now: real, next: Handler, t: System)
    requires w in s.handlers && Continues(cfg, s, w, e, now, next, t)
    ensures Shape(s, w, e, now, next, t)
  {
  }

  lemma ShapeJobs(s: System, w: nat, e: Effect, now: real, next: Handler, t: System)
    requires Serving(s) && Synced(s) && w in s.handlers && Shape(s, w, e, now, next, t)
    ensures JobsExtend(s, t)
    ensures forall j :: j in s.jobs && t.jobs[j] != s.jobs[j] ==> e.Commit? && j == s.handlers[w].l.job
    ensures forall j :: j in s.jobs && t.jobs[j].status != s.jobs[j].status ==> !Terminal(t.jobs[j].status)
  {
    if e.Commit? {
      assert Serves(s, w) && Effective(s, w);
    }
  }
}
