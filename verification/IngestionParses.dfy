/** Every parse operation in the journal is about the confirmed upload of its identity, so a job never finds
    another intent recorded under its own parse key. */
module IngestionParses {
  import opened Tables
  import opened DeliverySpec
  import opened IngestionSpec
  import opened IngestionMachine
  import opened IngestionInvariants
  import opened IngestionSteps
  import opened IngestionContinue
  import opened IngestionService
  import opened IngestionSafety
  import opened IngestionTheorems
  import opened IngestionPromises
  import Delivery = DeliveryMachine

  predicate ParseBelongs(journal: Journal, k: OpKey)
    requires k in journal && k.ParseKey?
  {
    var upload := UploadKey(k.identity);
    && upload in journal && journal[upload].state.Confirmed? && journal[upload].receipt.UploadReceipt?
    && journal[k].intent == ParseIntent(journal[upload].receipt.dataset, journal[upload].receipt.document)
  }

  ghost predicate ParsesBelong(journal: Journal) {
    forall k :: k in journal && k.ParseKey? ==> ParseBelongs(journal, k)
  }

  /** Confirmed uploads and recorded intents do not change, so what belonged before still does. */
  lemma BelongsStays(a: Journal, b: Journal, k: OpKey)
    requires Grows(a, b) && k in a && k.ParseKey? && ParseBelongs(a, k)
    ensures k in b && ParseBelongs(b, k)
  {
    assert GrowsAt(a[k], b[k]) && GrowsAt(a[UploadKey(k.identity)], b[UploadKey(k.identity)]);
  }

  /** Only declaring the parse adds a parse operation, and then for the handler's own verified upload. */
  lemma NewParse(cfg: Config, s: System, w: nat, now: real, h: Handler, e: Effect, next: Handler, k: OpKey)
    requires HandlerOk(s, h) && Allows(cfg, s, w, now, h, e, next) && e.Commit? && k in e.journal && k.ParseKey?
    ensures k in s.journal || (h.ParseDeclare? && k == KeyOfParse(s, h.l))
  {
    if UploadPoint(h) {
      UploadAddsNoParse(cfg, s, now, h, e, next, k);
    } else if ParsePoint(h) && !h.ParseDeclare? {
      ParseAddsNone(s, h, e, next, k);
    }
  }

  lemma UploadAddsNoParse(cfg: Config, s: System, now: real, h: Handler, e: Effect, next: Handler, k: OpKey)
    requires UploadPoint(h) && h.l.job in s.jobs && UploadAllows(cfg, s, now, h, e, next) && e.Commit?
    requires k in e.journal && k.ParseKey?
    ensures k in s.journal
  {
  }

  lemma ParseAddsNone(s: System, h: Handler, e: Effect, next: Handler, k: OpKey)
    requires ParsePoint(h) && !h.ParseDeclare? && h.l.job in s.jobs && ParseAllows(s, h, e, next) && e.Commit?
    requires k in e.journal
    ensures k in s.journal
  {
  }

  lemma DeclaredBelongs(s: System, l: Local, e: Effect, next: Handler)
    requires HandlerOk(s, ParseDeclare(l)) && DeclaresParse(s, l, e, next) && e.Commit?
    requires KeyOfParse(s, l) !in s.journal
    ensures KeyOfParse(s, l) in e.journal && ParseBelongs(e.journal, KeyOfParse(s, l))
  {
  }

  lemma CommitBelongs(cfg: Config, s: System, w: nat, now: real, h: Handler, e: Effect, next: Handler)
    requires HandlerOk(s, h) && Allows(cfg, s, w, now, h, e, next) && e.Commit?
    requires ParsesBelong(s.journal) && Grows(s.journal, e.journal)
    ensures ParsesBelong(e.journal)
  {
    forall k | k in e.journal && k.ParseKey? ensures ParseBelongs(e.journal, k) {
      NewParse(cfg, s, w, now, h, e, next, k);
      if k in s.journal {
        BelongsStays(s.journal, e.journal, k);
      } else {
        DeclaredBelongs(s, h.l, e, next);
      }
    }
  }

  lemma HandleBelongs(cfg: Config, s: System, w: nat, e: Effect, now: real, next: Handler, t: System)
    requires JournalShaped(s.journal) && ParsesBelong(s.journal) && w in s.handlers && HandlerOk(s, s.handlers[w])
    requires Continues(cfg, s, w, e, now, next, t)
    ensures ParsesBelong(t.journal)
  {
    if e.Commit? {
      AllowsJournal(cfg, s, w, now, s.handlers[w], e, next);
      CommitBelongs(cfg, s, w, now, s.handlers[w], e, next);
    }
  }

  lemma RecoverBelongs(s: System, job: JobId, document: string)
    requires JournalShaped(s.journal) && OneInFlight(s.journal) && RecoverAllowed(s, job, document)
    requires ParsesBelong(s.journal)
    ensures ParsesBelong(Recovered(s, job, document).journal)
  {
    RecoverGrows(s, job, document);
    var t := Recovered(s, job, document);
    forall k | k in t.journal && k.ParseKey? ensures ParseBelongs(t.journal, k) {
      BelongsStays(s.journal, t.journal, k);
    }
  }

  lemma ServiceBelongs(p: Policy, s: System, step: Step, t: System)
    requires JournalShaped(s.journal) && OneInFlight(s.journal) && ParsesBelong(s.journal) && Serviced(p, s, step, t)
    ensures ParsesBelong(t.journal)
  {
    if step.Recover? {
      RecoverBelongs(s, step.job, step.document);
    } else {
      ServiceKeepsJournal(p, s, step, t);
    }
  }

  lemma StepBelongs(p: Policy, s: System, step: Step, t: System)
    requires JournalShaped(s.journal) && OneInFlight(s.journal) && HandlersOk(s) && ParsesBelong(s.journal)
    requires TakesStep(p, s, step, t)
    ensures ParsesBelong(t.journal)
  {
    match step
    case Handle(w, e, now, cfg) => HandleBelongs(cfg, s, w, e, now, t.handlers[w], t);
    case End(w, id, now) => EndKeepsJournal(p, s, w, id, now, t);
    case _ => ServiceBelongs(p, s, step, t);
  }

  // ---- over runs ------------------------------------------------------------------------------------------

  /** All that is known of a state that a run can reach. */
  ghost predicate Good(p: Policy, s: System) {
    IngestPolicy(p) && Inv(p, s) && ParsesBelong(s.journal)
  }

  lemma StepGood(p: Policy, s: System, step: Step, t: System)
    requires Good(p, s) && TakesStep(p, s, step, t)
    ensures Good(p, t)
  {
    StepKeepsInv(p, s, step, t);
    StepBelongs(p, s, step, t);
  }

  /** States that steps of the machine lead through. */
  ghost predicate IsPath(p: Policy, states: seq<System>, steps: seq<Step>) {
    && |states| == |steps| + 1
    && forall i {:trigger steps[i]} :: 0 <= i < |steps| ==> TakesStep(p, states[i], steps[i], states[i + 1])
  }

  ghost predicate KeepsGood(p: Policy, s: System, t: System) {
    Good(p, s) ==> Good(p, t)
  }

  lemma StepKeepsGood(p: Policy, s: System, step: Step, t: System)
    requires TakesStep(p, s, step, t)
    ensures KeepsGood(p, s, t)
  {
    if Good(p, s) {
      StepGood(p, s, step, t);
    }
  }

  /** The states of a path, without its steps. */
  ghost predicate GoodTrail(p: Policy, states: seq<System>) {
    forall i, k {:trigger states[i], states[k]} :: 0 <= i < k == i + 1 < |states| ==> KeepsGood(p, states[i], states[k])
  }

  lemma PathStep(p: Policy, states: seq<System>, steps: seq<Step>, i: nat)
    requires IsPath(p, states, steps) && i < |steps|
    ensures KeepsGood(p, states[i], states[i + 1])
  {
    StepKeepsGood(p, states[i], steps[i], states[i + 1]);
  }

  lemma PathTrail(p: Policy, states: seq<System>, steps: seq<Step>)
    requires IsPath(p, states, steps)
    ensures GoodTrail(p, states)
  {
    forall i, k | 0 <= i < k == i + 1 < |states| ensures KeepsGood(p, states[i], states[k]) {
      PathStep(p, states, steps, i);
    }
  }

  lemma {:induction false} TrailGood(p: Policy, states: seq<System>, i: nat)
    requires i < |states| && Good(p, states[0]) && GoodTrail(p, states)
    ensures Good(p, states[i])
  {
    if i > 0 {
      TrailGood(p, states, i - 1);
      assert KeepsGood(p, states[i - 1], states[i]);
    }
  }

  lemma RunIsPath(p: Policy, states: seq<System>, steps: seq<Step>)
    requires Runs(p, states, steps)
    ensures IsPath(p, states, steps) && IngestPolicy(p) && Initial(states[0])
  {
  }

  lemma InitialGood(p: Policy, s: System)
    requires IngestPolicy(p) && Initial(s)
    ensures Good(p, s)
  {
    InitialInv(p, s);
  }

  lemma ReachableGood(p: Policy, s: System)
    requires Reachable(p, s)
    ensures Good(p, s)
  {
    var states, steps :| Runs(p, states, steps) && states[|steps|] == s;
    RunIsPath(p, states, steps);
    PathTrail(p, states, steps);
    InitialGood(p, states[0]);
    TrailGood(p, states, |steps|);
  }

  /** Declaring the parse records it, or finds it as this job and generation recorded it. */
  predicate Declarable(s: System, l: Local) {
    && l.job in s.jobs && l.cursor.upload.Some?
    && var upload := l.cursor.upload.value;
       Declare(s.journal, KeyOfParse(s, l), ParseIntent(upload.dataset, upload.document)).Row?
  }

  /** The parse operation of a handler's own job and generation is about the handler's own upload. */
  lemma OwnParse(s: System, l: Local)
    requires HandlerOk(s, ParseDeclare(l)) && JournalShaped(s.journal) && ParsesBelong(s.journal)
    ensures Declarable(s, l)
  {
    var key := KeyOfParse(s, l);
    if key in s.journal {
      assert ParseBelongs(s.journal, key) && OperationShaped(key, s.journal[key]);
    }
  }

  /** The error branch for another intent recorded under a job's own parse key, or for an inherited one, cannot be
      reached. */
  lemma OwnParseIsRecorded(p: Policy, s: System, w: nat)
    requires Reachable(p, s) && w in s.handlers && s.handlers[w].ParseDeclare?
    ensures Declarable(s, s.handlers[w].l)
  {
    ReachableGood(p, s);
    HandlersParse(s, w);
  }

  lemma HandlersParse(s: System, w: nat)
    requires HandlersOk(s) && JournalShaped(s.journal) && ParsesBelong(s.journal)
    requires w in s.handlers && s.handlers[w].ParseDeclare?
    ensures Declarable(s, s.handlers[w].l)
  {
    assert HandlerOk(s, s.handlers[w]);
    OwnParse(s, s.handlers[w].l);
  }
}
