/** A handler that holds its lease and its generation is never stuck: the errors the code guards against at
    the start and at the end of a command cannot occur. */
module IngestionProgress {
  import opened Tables
  import opened DeliverySpec
  import opened IngestionSpec
  import opened IngestionMachine
  import opened IngestionInvariants
  import opened IngestionSteps
  import opened IngestionEnds
  import opened IngestionPromises
  import Delivery = DeliveryMachine

  /** Reading the job finds it, on the lease's own resource, with a command that is not ahead of it. */
  lemma LoadFindsJob(s: System, w: nat) returns (next: Handler)
    requires CommandsSound(s) && Delivery.LeasesSound(s.core) && w in s.handlers && Serves(s, w)
    requires PayloadOf(s, w).Command?
    ensures LoadNext(s, w, next)
  {
    var m := s.core.db.outbox[LeaseOf(s, w).message];
    assert CommandSound(m, s.jobs);
    assert Delivery.HasLease(s.core, w);
    var c, j := m.intent.payload, s.jobs[m.intent.payload.job];
    var l := Local(c.job, c.generation, c.step, j.cursor, false);
    next := if Terminal(j.status) || Behind(c.generation, c.step, j.cursor) then AckOnly
            else if j.status.Running? then Begin(l) else MarkRunning(l);
  }

  predicate EndPoint(h: Handler) {
    h.AckOnly? || h.Finish? || h.Reconcile?
  }

  lemma UploadGoesOn(cfg: Config, s: System, now: real, h: Handler) returns (e: Effect, next: Handler)
    requires UploadPoint(h) && HandlerOk(s, h)
    ensures UploadAllows(cfg, s, now, h, e, next)
  {
    var l, key := h.l, KeyOfUpload(s, h.l);
    match h
    case UploadDeclare(_, intent) =>
      match Declare(s.journal, key, intent) {
        case Legacy => e, next := Quiet, Reconcile(l);
        case Conflict => e, next := Quiet, Finish(l, Fail(ExternalApiError));
        case Row(journal) => e, next := Commit(journal, None), Reconcile(Clean(l));
      }
    case UploadStart(_, intent) =>
      e := Commit(Start(s.journal, key), None);
      next := if Startable(s.journal, key) then UploadPost(Clean(l), intent) else Reconcile(Clean(l));
    case UploadPost(_, _) => e, next := Post(key), UploadUnknown(l);
    case UploadUnknown(_) => e, next := Commit(MarkUnknown(s.journal, key), None), Reconcile(Clean(l));
    case UploadConfirm(_, intent, document) =>
      var receipt := UploadReceiptFor(intent, document);
      if ConfirmConflicts(s.journal, key, receipt) {
        e, next := Quiet, Finish(l, Fail(ExternalApiError));
      } else {
        e, next := Commit(Confirm(s.journal, key, receipt), None), Finish(Clean(l), Fail(ExternalApiError));
      }
  }

  lemma ParseGoesOn(s: System, h: Handler) returns (e: Effect, next: Handler)
    requires ParsePoint(h) && HandlerOk(s, h)
    ensures ParseAllows(s, h, e, next)
  {
    var l, key := h.l, KeyOfParse(s, h.l);
    match h
    case ParseDeclare(_) =>
      match Declare(s.journal, key, ParseIntent(l.cursor.upload.value.dataset, l.cursor.upload.value.document)) {
        case Legacy => e, next := Quiet, Reconcile(l);
        case Conflict => e, next := Quiet, Finish(l, Fail(ExternalApiError));
        case Row(journal) => e, next := Commit(journal, None), Reconcile(Clean(l));
      }
    case ParseCheck(_) =>
      e := Quiet;
      next := if Unfinished(s.journal, UploadIdentity(s.jobs[l.job].source)) then Reconcile(l) else ParseStart(l);
    case ParseStart(_) =>
      e := Commit(Start(s.journal, key), None);
      next := if Startable(s.journal, key) then ParsePost(Clean(l)) else Reconcile(Clean(l));
    case ParsePost(_) => e, next := Quiet, ParseUnknown(l);
    case ParseUnknown(_) => e, next := Commit(MarkUnknown(s.journal, key), None), Reconcile(Clean(l));
  }

  lemma OtherGoesOn(cfg: Config, s: System, w: nat, now: real, h: Handler) returns (e: Effect, next: Handler)
    requires HasLocal(h) && !UploadPoint(h) && !ParsePoint(h) && !EndPoint(h) && HandlerOk(s, h)
    ensures Allows(cfg, s, w, now, h, e, next)
  {
    var l := h.l;
    match h
    case MarkRunning(_) => e, next := Commit(s.journal, Some(Running)), Refresh(l);
    case Refresh(_) => e, next := Quiet, Begin(l.(cursor := s.jobs[l.job].cursor));
    case Begin(_) =>
      var key := KeyOfUpload(s, l);
      e := Quiet;
      next := if key in s.journal && s.journal[key].state.LegacyUnknown? then Reconcile(l)
              else Finish(l, Fail(ExternalApiError));
    case ParseConfirm(_, run) =>
      var key, receipt := KeyOfParse(s, l), ParseReceipt(l.cursor.upload.value.document);
      var polling := Save(l, l.cursor.(phase := Poll));
      if ConfirmConflicts(s.journal, key, receipt) {
        e, next := Quiet, if run.None? then ParseUnknown(l) else Finish(l, Fail(ExternalApiError));
      } else {
        e, next := Commit(Confirm(s.journal, key, receipt), None), Finish(polling, Fail(ParseFailed));
      }
    case PollCheck(_) => e, next := Quiet, Reconcile(l);
  }

  /** Every program point before the last allows a step. */
  lemma GoesOn(cfg: Config, s: System, w: nat, now: real) returns (e: Effect, next: Handler)
    requires CommandsSound(s) && Delivery.LeasesSound(s.core) && w in s.handlers && Serves(s, w)
    requires HandlerOk(s, s.handlers[w])
    requires !EndPoint(s.handlers[w]) && PayloadOf(s, w).Command?
    ensures Allows(cfg, s, w, now, s.handlers[w], e, next) && (e.Commit? ==> HasLocal(s.handlers[w]))
  {
    var h := s.handlers[w];
    if h.Load? {
      next := LoadFindsJob(s, w);
      e := Quiet;
    } else if UploadPoint(h) {
      e, next := UploadGoesOn(cfg, s, now, h);
    } else if ParsePoint(h) {
      e, next := ParseGoesOn(s, h);
    } else {
      e, next := OtherGoesOn(cfg, s, w, now, h);
    }
  }

  /** The delivery part of the final transaction is always possible: the successor's key is free. */
  lemma FinalCorePossible(p: Policy, s: System, w: nat, l: Local, o: Outcome, id: MessageId, now: real)
    returns (core: Delivery.System)
    requires l.job in s.jobs && Delivery.Enabled(p, s.core, Delivery.Commit(w, now)) && id !in s.core.db.outbox
    requires Successor(l, o, now) ==> SuccessorEvent(s, l, now).dedup !in s.core.db.index
    ensures FinalCore(p, s, w, l, o, id, now, core)
  {
    core := s.core;
    if Successor(l, o, now) {
      core := Delivery.Next(p, core, Delivery.Enqueue(id, SuccessorEvent(s, l, now), now));
    }
    core := Delivery.Next(p, core, Delivery.Commit(w, now));
  }

  lemma FinishReady(s: System, w: nat, l: Local, o: Outcome, now: real)
    requires Delivery.IndexSound(s.core.db) && CommandsSound(s) && Synced(s) && w in s.handlers && Serves(s, w)
    requires s.handlers[w] == Finish(l, o) && PointOk(s.jobs[l.job].source, s.handlers[w]) && Fenced(s, w, l, now)
    ensures FinalJob(s.jobs[l.job], l, o, now).Some?
    ensures Successor(l, o, now) ==> SuccessorEvent(s, l, now).dedup !in s.core.db.index
  {
    assert Effective(s, w) && InSync(s.jobs[l.job].cursor, l);
    SuccessorIsNew(s, l);
  }

  /** The final transaction never raises: the deadline is there, and the successor can be enqueued. */
  lemma FinishGoesThrough(p: Policy, s: System, w: nat, l: Local, o: Outcome, id: MessageId, now: real)
    returns (t: System)
    requires Delivery.IndexSound(s.core.db) && CommandsSound(s) && Synced(s) && w in s.handlers && Serves(s, w)
    requires s.handlers[w] == Finish(l, o) && PointOk(s.jobs[l.job].source, s.handlers[w]) && Fenced(s, w, l, now)
    requires id !in s.core.db.outbox
    ensures Ends(p, s, w, id, now, t)
  {
    FinishReady(s, w, l, o, now);
    var core := FinalCorePossible(p, s, w, l, o, id, now);
    t := Gone(s, w).(core := core, versions := FinalVersions(s, l, o),
                     jobs := s.jobs[l.job := FinalJob(s.jobs[l.job], l, o, now).value]);
  }

  lemma OtherEndGoesThrough(p: Policy, s: System, w: nat, id: MessageId, now: real) returns (t: System)
    requires w in s.handlers && Delivery.Enabled(p, s.core, Delivery.Commit(w, now))
    requires s.handlers[w].AckOnly? || (s.handlers[w].Reconcile? && Fenced(s, w, s.handlers[w].l, now))
    ensures Ends(p, s, w, id, now, t)
  {
    if s.handlers[w].AckOnly? {
      t := Gone(s, w).(core := Delivery.Next(p, s.core, Delivery.Commit(w, now)));
    } else {
      t := Gone(Committed(s, s.handlers[w].l, s.journal, Some(ReconciliationRequired)), w);
    }
  }

  /** What a handler needs for its next transaction: a live lease on a command, and its job still in the
      handler's generation. */
  predicate MayCommit(s: System, w: nat, now: real)
    requires w in s.handlers
  {
    && Delivery.IsRunning(s.core, w) && LeaseOf(s, w).message in s.core.db.outbox
    && Guard(s.core.db, LeaseOf(s, w), now)
    && PayloadOf(s, w).Command?
    && (HasLocal(s.handlers[w]) ==> Fenced(s, w, s.handlers[w].l, now))
  }

  lemma EndGoesThrough(p: Policy, s: System, w: nat, id: MessageId, now: real) returns (t: System)
    requires Delivery.IndexSound(s.core.db) && CommandsSound(s) && Synced(s) && HandlersOk(s) && w in s.handlers
    requires Serves(s, w)
    requires EndPoint(s.handlers[w]) && MayCommit(s, w, now) && id !in s.core.db.outbox
    ensures Ends(p, s, w, id, now, t)
  {
    if s.handlers[w].Finish? {
      assert HandlerOk(s, s.handlers[w]);
      t := FinishGoesThrough(p, s, w, s.handlers[w].l, s.handlers[w].outcome, id, now);
    } else {
      t := OtherEndGoesThrough(p, s, w, id, now);
    }
  }

  lemma MiddleGoesThrough(cfg: Config, s: System, w: nat, now: real) returns (e: Effect, next: Handler, t: System)
    requires CommandsSound(s) && Delivery.LeasesSound(s.core) && HandlersOk(s) && w in s.handlers && Serves(s, w)
    requires !EndPoint(s.handlers[w]) && MayCommit(s, w, now)
    ensures w in t.handlers && t.handlers[w] == next && Continues(cfg, s, w, e, now, next, t)
  {
    assert HandlerOk(s, s.handlers[w]);
    e, next := GoesOn(cfg, s, w, now);
    t := Goto(Applied(s, s.handlers[w], e), w, next);
  }

  lemma NeverStuck(p: Policy, cfg: Config, s: System, w: nat, id: MessageId, now: real) returns (step: Step, t: System)
    requires Delivery.IndexSound(s.core.db) && Delivery.LeasesSound(s.core) && CommandsSound(s) && Synced(s)
    requires HandlersOk(s) && w in s.handlers && Serves(s, w) && MayCommit(s, w, now) && id !in s.core.db.outbox
    requires cfg.Valid()
    ensures TakesStep(p, s, step, t) && ((step.Handle? && step.w == w) || (step.End? && step.w == w))
  {
    if EndPoint(s.handlers[w]) {
      t := EndGoesThrough(p, s, w, id, now);
      step := End(w, id, now);
    } else {
      var e, next;
      e, next, t := MiddleGoesThrough(cfg, s, w, now);
      step := Handle(w, e, now, cfg);
    }
  }

  /** In every reachable state a handler whose lease is live, and whose job is still in its generation, has
      a next step of its own. */
  lemma HandlersNeverStuck(p: Policy, cfg: Config, s: System, w: nat, id: MessageId, now: real)
    returns (step: Step, t: System)
    requires Reachable(p, s) && cfg.Valid() && w in s.handlers && MayCommit(s, w, now) && id !in s.core.db.outbox
    ensures TakesStep(p, s, step, t) && ((step.Handle? && step.w == w) || (step.End? && step.w == w))
  {
    ReachableInv(p, s);
    assert Serves(s, w);
    step, t := NeverStuck(p, cfg, s, w, id, now);
  }

  // ---- the way to success -----------------------------------------------------------------------------------

  /** How far a program point is on the way from reading the job to the final transaction. */
  function Rank(h: Handler): nat {
    match h
    case Load => 0
    case MarkRunning(_) => 1
    case Refresh(_) => 2
    case Begin(_) => 3
    case UploadDeclare(_, _) => 4
    case UploadStart(_, _) => 5
    case UploadPost(_, _) => 6
    case UploadUnknown(_) => 7
    case UploadConfirm(_, _, _) => 7
    case ParseDeclare(_) => 8
    case ParseCheck(_) => 9
    case ParseStart(_) => 10
    case ParsePost(_) => 11
    case ParseUnknown(_) => 12
    case ParseConfirm(_, _) => 12
    case PollCheck(_) => 13
    case AckOnly => 14
    case Finish(_, _) => 14
    case Reconcile(_) => 14
  }

  /** A failed command, or an outcome nobody knows. */
  predicate Failing(h: Handler) {
    h.Reconcile? || h.UploadUnknown? || h.ParseUnknown? || (h.Finish? && h.outcome.Fail?)
  }

  predicate Forward(h: Handler, next: Handler) {
    Rank(next) > Rank(h) && !Failing(next)
  }

  /** What keeps a handler from going forward whatever the provider answers from now on: doubt about an
      earlier write, another intent or receipt under the same key, or a bad answer already received. */
  predicate Blocked(s: System, h: Handler)
    requires HasLocal(h) ==> h.l.job in s.jobs
  {
    match h
    case Begin(l) => KeyOfUpload(s, l) in s.journal && s.journal[KeyOfUpload(s, l)].state.LegacyUnknown?
    case UploadDeclare(l, intent) => !Declare(s.journal, KeyOfUpload(s, l), intent).Row?
    case UploadStart(l, _) => !Startable(s.journal, KeyOfUpload(s, l))
    case UploadUnknown(_) => true
    case UploadConfirm(l, intent, document) =>
      intent.UploadIntent? ==> ConfirmConflicts(s.journal, KeyOfUpload(s, l), UploadReceiptFor(intent, document))
    case ParseDeclare(l) =>
      && l.cursor.upload.Some?
      && var upload := l.cursor.upload.value;
         !Declare(s.journal, KeyOfParse(s, l), ParseIntent(upload.dataset, upload.document)).Row?
    case ParseCheck(l) => Unfinished(s.journal, UploadIdentity(s.jobs[l.job].source))
    case ParseStart(l) => !Startable(s.journal, KeyOfParse(s, l))
    case ParseUnknown(_) => true
    case ParseConfirm(_, run) => run.Some? && (run.value.ParseFail? || run.value.Cancelled? || run.value.Unrecognised?)
    case _ => false
  }

  /** Some answer of the provider takes the handler forward. */
  ghost predicate CanGoForward(cfg: Config, s: System, w: nat, now: real, h: Handler)
    requires HasLocal(h) ==> h.l.job in s.jobs
  {
    exists e, next :: Allows(cfg, s, w, now, h, e, next) && Forward(h, next)
  }

  lemma BeginForward(cfg: Config, s: System, l: Local, now: real) returns (next: Handler)
    requires cfg.Valid() && HandlerOk(s, Begin(l)) && !Blocked(s, Begin(l))
    ensures BeginNext(cfg, s, l, now, next) && Forward(Begin(l), next)
  {
    if l.cursor.upload.None? {
      next := UploadDeclare(l, UploadIntentOf(s.jobs[l.job].source, "scope", "dataset", "sha256", "filename"));
    } else {
      var l' := Save(l, WithDeadline(l.cursor, cfg, now));
      next := if l'.cursor.phase.Prepare? then ParseDeclare(l') else PollCheck(l');
    }
  }

  lemma StartForward(cfg: Config, s: System, w: nat, now: real, h: Handler)
    requires cfg.Valid() && HandlerOk(s, h) && (h.MarkRunning? || h.Refresh? || h.Begin?) && !Blocked(s, h)
    ensures CanGoForward(cfg, s, w, now, h)
  {
    match h
    case MarkRunning(l) =>
      assert Allows(cfg, s, w, now, h, Commit(s.journal, Some(Running)), Refresh(l)) && Forward(h, Refresh(l));
    case Refresh(l) =>
      var next := Begin(l.(cursor := s.jobs[l.job].cursor));
      assert Allows(cfg, s, w, now, h, Quiet, next) && Forward(h, next);
    case Begin(l) =>
      var next := BeginForward(cfg, s, l, now);
      assert Allows(cfg, s, w, now, h, Quiet, next) && Forward(h, next);
  }

  lemma UploadForward(cfg: Config, s: System, now: real, h: Handler) returns (e: Effect, next: Handler)
    requires cfg.Valid() && HandlerOk(s, h) && UploadPoint(h) && !Blocked(s, h)
    ensures UploadAllows(cfg, s, now, h, e, next) && Forward(h, next)
  {
    var l, key := h.l, KeyOfUpload(s, h.l);
    match h
    case UploadDeclare(_, intent) =>
      e, next := Commit(Declare(s.journal, key, intent).journal, None), UploadConfirm(Clean(l), intent, "document");
    case UploadStart(_, intent) => e, next := Commit(Start(s.journal, key), None), UploadPost(Clean(l), intent);
    case UploadPost(_, intent) => e, next := Post(key), UploadConfirm(l, intent, "document");
    case UploadConfirm(_, intent, document) =>
      e := Commit(Confirm(s.journal, key, UploadReceiptFor(intent, document)), None);
      var c := l.cursor.(upload := Some(ConfirmedUpload(intent, document, "name")));
      next := ParseDeclare(Save(Clean(l), WithDeadline(c, cfg, now)));
  }

  lemma DeclareForward(s: System, l: Local) returns (e: Effect, next: Handler)
    requires HandlerOk(s, ParseDeclare(l)) && !Blocked(s, ParseDeclare(l))
    ensures DeclaresParse(s, l, e, next) && Forward(ParseDeclare(l), next)
  {
    var key, upload := KeyOfParse(s, l), l.cursor.upload.value;
    var journal := Declare(s.journal, key, ParseIntent(upload.dataset, upload.document)).journal;
    e := Commit(journal, None);
    next := if journal[key].state.Confirmed? then ParseConfirm(Clean(l), Some(Done)) else ParseCheck(Clean(l));
  }

  lemma ParseForward(s: System, h: Handler) returns (e: Effect, next: Handler)
    requires ParsePoint(h) && !h.ParseDeclare? && h.l.job in s.jobs && !Blocked(s, h)
    ensures ParseAllows(s, h, e, next) && Forward(h, next)
  {
    var l, key := h.l, KeyOfParse(s, h.l);
    match h
    case ParseCheck(_) => e, next := Quiet, ParseStart(l);
    case ParseStart(_) => e, next := Commit(Start(s.journal, key), None), ParsePost(Clean(l));
    case ParsePost(_) => e, next := Post(key), ParseConfirm(l, None);
  }

  lemma ConfirmForward(s: System, l: Local, run: Option<ParseStatus>) returns (e: Effect, next: Handler)
    requires JournalShaped(s.journal) && HandlerOk(s, ParseConfirm(l, run)) && !Blocked(s, ParseConfirm(l, run))
    ensures ConfirmsParse(s, l, run, e, next) && Forward(ParseConfirm(l, run), next)
  {
    var key, receipt := KeyOfParse(s, l), ParseReceipt(l.cursor.upload.value.document);
    assert OperationShaped(key, s.journal[key]);
    e := Commit(Confirm(s.journal, key, receipt), None);
    next := Finish(Save(l, l.cursor.(phase := Poll)), if run.None? || run.value.Done? then Succeed else Schedule);
  }

  lemma LaterForward(cfg: Config, s: System, w: nat, now: real, h: Handler)
    requires cfg.Valid() && JournalShaped(s.journal) && HandlerOk(s, h) && !Blocked(s, h)
    requires UploadPoint(h) || ParsePoint(h) || h.ParseConfirm? || h.PollCheck?
    ensures CanGoForward(cfg, s, w, now, h)
  {
    var e, next;
    if UploadPoint(h) {
      e, next := UploadForward(cfg, s, now, h);
    } else if h.ParseDeclare? {
      e, next := DeclareForward(s, h.l);
    } else if ParsePoint(h) {
      e, next := ParseForward(s, h);
    } else if h.ParseConfirm? {
      e, next := ConfirmForward(s, h.l, h.run);
    } else {
      e, next := Quiet, Finish(h.l, Succeed);
    }
    assert Allows(cfg, s, w, now, h, e, next) && Forward(h, next);
  }

  lemma BlockedStays(cfg: Config, s: System, w: nat, now: real, h: Handler, e: Effect, next: Handler)
    requires HandlerOk(s, h) && HasLocal(h) && Blocked(s, h) && Allows(cfg, s, w, now, h, e, next)
    ensures !Forward(h, next)
  {
  }

  lemma GoesForward(cfg: Config, s: System, w: nat, now: real)
    requires cfg.Valid() && CommandsSound(s) && Delivery.LeasesSound(s.core) && JournalShaped(s.journal)
    requires w in s.handlers && Serves(s, w) && HandlerOk(s, s.handlers[w]) && PayloadOf(s, w).Command?
    requires !EndPoint(s.handlers[w]) && !Blocked(s, s.handlers[w])
    ensures CanGoForward(cfg, s, w, now, s.handlers[w])
  {
    var h := s.handlers[w];
    if h.Load? {
      var next := LoadFindsJob(s, w);
      assert Allows(cfg, s, w, now, h, Quiet, next) && Forward(h, next);
    } else if h.MarkRunning? || h.Refresh? || h.Begin? {
      StartForward(cfg, s, w, now, h);
    } else {
      LaterForward(cfg, s, w, now, h);
    }
  }

  /** In every reachable state a handler before its final transaction can go forward, for suitable answers
      of the provider, if and only if nothing blocks it; ranks end at the final transaction. */
  lemma ForwardIff(p: Policy, cfg: Config, s: System, w: nat, now: real)
    requires Reachable(p, s) && cfg.Valid() && w in s.handlers && MayCommit(s, w, now) && !EndPoint(s.handlers[w])
    ensures HasLocal(s.handlers[w]) ==> s.handlers[w].l.job in s.jobs
    ensures CanGoForward(cfg, s, w, now, s.handlers[w]) <==> !Blocked(s, s.handlers[w])
  {
    ReachableInv(p, s);
    ForwardUnlessBlocked(cfg, s, w, now);
  }

  lemma ForwardUnlessBlocked(cfg: Config, s: System, w: nat, now: real)
    requires cfg.Valid() && CommandsSound(s) && Delivery.LeasesSound(s.core) && JournalShaped(s.journal)
    requires HandlersOk(s)
    requires w in s.handlers && Serves(s, w) && PayloadOf(s, w).Command? && !EndPoint(s.handlers[w])
    ensures CanGoForward(cfg, s, w, now, s.handlers[w]) <==> !Blocked(s, s.handlers[w])
  {
    assert HandlerOk(s, s.handlers[w]);
    if Blocked(s, s.handlers[w]) {
      forall e, next | Allows(cfg, s, w, now, s.handlers[w], e, next) ensures !Forward(s.handlers[w], next) {
        BlockedStays(cfg, s, w, now, s.handlers[w], e, next);
      }
    } else {
      GoesForward(cfg, s, w, now);
    }
  }
}
