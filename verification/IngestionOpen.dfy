/** The way from any program point to success, for a handler left to itself: at each point that is open some answer
    of the provider leads to a later open point, until the final transaction that succeeds. */
module IngestionOpen {
  import opened Tables
  import opened DeliverySpec
  import opened IngestionSpec
  import opened IngestionMachine
  import opened IngestionInvariants
  import opened IngestionSteps
  import opened IngestionContinue
  import opened IngestionProgress
  import opened IngestionParses
  import Delivery = DeliveryMachine

  /** The upload operation of this source was inherited from before the journal, or recorded for another
      application, version or set of artifact references. */
  predicate Barred(journal: Journal, source: Source) {
    var key := UploadKey(UploadIdentity(source));
    key in journal && (journal[key].state.LegacyUnknown? || !IntentFor(source, journal[key].intent))
  }

  /** Nothing stands between this program point and success but the provider's answers. */
  predicate OpenAt(journal: Journal, source: Source, h: Handler)
    requires HasLocal(h)
  {
    var upload := UploadKey(UploadIdentity(source));
    var parse := ParseKey(UploadIdentity(source), h.l.job, h.l.cursor.generation);
    match h
    case MarkRunning(_) => !Barred(journal, source)
    case Refresh(_) => !Barred(journal, source)
    case Begin(_) => !Barred(journal, source)
    case UploadDeclare(_, i) =>
      upload in journal ==> !journal[upload].state.LegacyUnknown? && journal[upload].intent == i
    case UploadStart(_, _) => Startable(journal, upload)
    case UploadPost(_, _) => upload in journal ==> !journal[upload].state.Confirmed?
    case UploadConfirm(_, i, document) =>
      i.UploadIntent? && !ConfirmConflicts(journal, upload, UploadReceiptFor(i, document))
    case ParseDeclare(_) => true
    case ParseCheck(_) => Startable(journal, parse) && !Unfinished(journal, UploadIdentity(source))
    case ParseStart(_) => Startable(journal, parse)
    case ParsePost(_) => true
    case ParseConfirm(_, run) => run.None? || run.value.Done?
    case PollCheck(_) => true
    case Finish(_, o) => o.Succeed?
    case _ => false
  }

  /** One open point leads on to another. */
  predicate Onto(s: System, h: Handler, e: Effect, next: Handler)
    requires HasLocal(h) && h.l.job in s.jobs
  {
    && HasLocal(next) && Rank(next) > Rank(h)
    && OpenAt(JournalAfter(s, e), s.jobs[h.l.job].source, next)
  }

  // ---- the upload -----------------------------------------------------------------------------------------

  lemma BeginOn(cfg: Config, s: System, l: Local, now: real) returns (next: Handler)
    requires cfg.Valid() && HandlerOk(s, Begin(l)) && OpenAt(s.journal, s.jobs[l.job].source, Begin(l))
    ensures BeginNext(cfg, s, l, now, next) && Onto(s, Begin(l), Quiet, next)
  {
    var source, key := s.jobs[l.job].source, KeyOfUpload(s, l);
    if l.cursor.upload.None? {
      var intent := if key in s.journal then s.journal[key].intent
                    else UploadIntentOf(source, "scope", "dataset", "sha256", "filename");
      next := UploadDeclare(l, intent);
    } else {
      var l' := Save(l, WithDeadline(l.cursor, cfg, now));
      next := if l'.cursor.phase.Prepare? then ParseDeclare(l') else PollCheck(l');
    }
  }

  /** An operation that is only intended goes out as a POST; after any other the provider is asked what it has. */
  lemma UploadDeclareOn(s: System, l: Local, i: OpIntent) returns (e: Effect, next: Handler)
    requires HandlerOk(s, UploadDeclare(l, i)) && JournalShaped(s.journal)
    requires OpenAt(s.journal, s.jobs[l.job].source, UploadDeclare(l, i))
    ensures DeclaresUpload(s, l, i, e, next) && Onto(s, UploadDeclare(l, i), e, next)
  {
    var key := KeyOfUpload(s, l);
    var journal := Declare(s.journal, key, i).journal;
    e := Commit(journal, None);
    if journal[key].state.Intended? {
      next := UploadStart(Clean(l), i);
    } else if journal[key].state.Confirmed? {
      assert OperationShaped(key, s.journal[key]);
      next := UploadConfirm(Clean(l), i, journal[key].receipt.document);
    } else {
      next := UploadConfirm(Clean(l), i, "document");
    }
  }

  lemma UploadConfirmOn(cfg: Config, s: System, l: Local, i: OpIntent, document: string, now: real)
    returns (e: Effect, next: Handler)
    requires cfg.Valid() && HandlerOk(s, UploadConfirm(l, i, document))
    requires OpenAt(s.journal, s.jobs[l.job].source, UploadConfirm(l, i, document))
    ensures ConfirmsUpload(cfg, s, l, i, document, now, e, next) && Onto(s, UploadConfirm(l, i, document), e, next)
  {
    e := Commit(Confirm(s.journal, KeyOfUpload(s, l), UploadReceiptFor(i, document)), None);
    var c := l.cursor.(upload := Some(ConfirmedUpload(i, document, "name")));
    next := ParseDeclare(Save(Clean(l), WithDeadline(c, cfg, now)));
  }

  lemma UploadOn(cfg: Config, s: System, h: Handler, now: real) returns (e: Effect, next: Handler)
    requires cfg.Valid() && UploadPoint(h) && HandlerOk(s, h) && JournalShaped(s.journal)
    requires OpenAt(s.journal, s.jobs[h.l.job].source, h)
    ensures UploadAllows(cfg, s, now, h, e, next) && Onto(s, h, e, next)
  {
    var l, key := h.l, KeyOfUpload(s, h.l);
    match h
    case UploadDeclare(_, i) => e, next := UploadDeclareOn(s, l, i);
    case UploadStart(_, i) => e, next := Commit(Start(s.journal, key), None), UploadPost(Clean(l), i);
    case UploadPost(_, i) => e, next := Post(key), UploadConfirm(l, i, "document");
    case UploadConfirm(_, i, document) => e, next := UploadConfirmOn(cfg, s, l, i, document, now);
  }

  // ---- the parse ------------------------------------------------------------------------------------------

  /** With another submission of the identity in doubt, or one's own under way, the provider is asked instead. */
  lemma ParseDeclareOn(s: System, l: Local) returns (e: Effect, next: Handler)
    requires HandlerOk(s, ParseDeclare(l)) && JournalShaped(s.journal) && ParsesBelong(s.journal)
    ensures DeclaresParse(s, l, e, next) && Onto(s, ParseDeclare(l), e, next)
  {
    OwnParse(s, l);
    var key, upload := KeyOfParse(s, l), l.cursor.upload.value;
    var journal := Declare(s.journal, key, ParseIntent(upload.dataset, upload.document)).journal;
    e := Commit(journal, None);
    if journal[key].state.Intended? && !Unfinished(journal, key.identity) {
      next := ParseCheck(Clean(l));
    } else {
      next := ParseConfirm(Clean(l), Some(Done));
    }
  }

  lemma ParseOn(s: System, h: Handler) returns (e: Effect, next: Handler)
    requires ParsePoint(h) && !h.ParseDeclare? && h.l.job in s.jobs && OpenAt(s.journal, s.jobs[h.l.job].source, h)
    ensures ParseAllows(s, h, e, next) && Onto(s, h, e, next)
  {
    var l, key := h.l, KeyOfParse(s, h.l);
    match h
    case ParseCheck(_) => e, next := Quiet, ParseStart(l);
    case ParseStart(_) => e, next := Commit(Start(s.journal, key), None), ParsePost(Clean(l));
    case ParsePost(_) => e, next := Post(key), ParseConfirm(l, None);
  }

  lemma ConfirmOn(s: System, l: Local, run: Option<ParseStatus>) returns (e: Effect, next: Handler)
    requires JournalShaped(s.journal) && HandlerOk(s, ParseConfirm(l, run))
    requires OpenAt(s.journal, s.jobs[l.job].source, ParseConfirm(l, run))
    ensures ConfirmsParse(s, l, run, e, next) && Onto(s, ParseConfirm(l, run), e, next)
  {
    var key, receipt := KeyOfParse(s, l), ParseReceipt(l.cursor.upload.value.document);
    assert OperationShaped(key, s.journal[key]);
    e := Commit(Confirm(s.journal, key, receipt), None);
    next := Finish(Save(l, l.cursor.(phase := Poll)), Succeed);
  }

  // ---- every open point -----------------------------------------------------------------------------------

  lemma EarlyOn(cfg: Config, s: System, w: nat, h: Handler, now: real) returns (e: Effect, next: Handler)
    requires cfg.Valid() && HandlerOk(s, h) && (h.MarkRunning? || h.Refresh? || h.Begin?)
    requires OpenAt(s.journal, s.jobs[h.l.job].source, h)
    ensures Allows(cfg, s, w, now, h, e, next) && Onto(s, h, e, next)
  {
    match h
    case MarkRunning(l) => e, next := Commit(s.journal, Some(Running)), Refresh(l);
    case Refresh(l) => e, next := Quiet, Begin(l.(cursor := s.jobs[l.job].cursor));
    case Begin(l) =>
      next := BeginOn(cfg, s, l, now);
      e := Quiet;
  }

  lemma GoesOnto(cfg: Config, s: System, w: nat, h: Handler, now: real) returns (e: Effect, next: Handler)
    requires cfg.Valid() && HasLocal(h) && HandlerOk(s, h) && JournalShaped(s.journal) && ParsesBelong(s.journal)
    requires OpenAt(s.journal, s.jobs[h.l.job].source, h) && !h.Finish?
    ensures Allows(cfg, s, w, now, h, e, next) && Onto(s, h, e, next)
  {
    if h.MarkRunning? || h.Refresh? || h.Begin? {
      e, next := EarlyOn(cfg, s, w, h, now);
    } else if UploadPoint(h) {
      e, next := UploadOn(cfg, s, h, now);
    } else if h.ParseDeclare? {
      e, next := ParseDeclareOn(s, h.l);
    } else if ParsePoint(h) {
      e, next := ParseOn(s, h);
    } else if h.ParseConfirm? {
      e, next := ConfirmOn(s, h.l, h.run);
    } else {
      e, next := Quiet, Finish(h.l, Succeed);
    }
  }
}
