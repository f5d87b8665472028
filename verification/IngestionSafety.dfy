/** Every step keeps the ingestion invariants, and what follows over whole runs, for any clock. */
module IngestionSafety {
  import opened Tables
  import opened DeliverySpec
  import opened IngestionSpec
  import opened IngestionMachine
  import opened IngestionInvariants
  import opened IngestionSteps
  import opened IngestionContinue
  import opened IngestionPosts
  import opened IngestionEnds
  import opened IngestionService
  import opened IngestionDelivery
  import Delivery = DeliveryMachine

  // ---- one step ---------------------------------------------------------------------------------

  lemma DeliverKeepsInv(p: Policy, s: System, a: Delivery.Action, now: real, t: System)
    requires IngestPolicy(p) && Inv(p, s) && Delivers(p, s, a, now, t)
    ensures Inv(p, t)
  {
    Delivery.StepKeepsInv(p, s.core, a);
    DeliverCarries(p, s.core, a);
    DeliverCommands(s, t);
    DeliverAcked(s, t);
    DeliverSelected(p, s, a, t);
    DeliverServing(p, s, a, t);
    DeliverHandlers(p, s, a, t);
    DeliverPosts(p, s, a, t);
    forall j | j in t.jobs && t.jobs[j].status.Succeeded? ensures Bound(t, j) {
      assert Bound(s, j);
    }
  }

  lemma RestartKeepsInv(p: Policy, s: System, job: JobId, id: MessageId, t: System)
    requires Inv(p, s) && Restarted(s, t, job, id) && Delivery.Inv(p, t.core)
    requires t.jobs[job] == (if job in s.jobs then Retried(s.jobs[job]) else NewJob(t.jobs[job].source))
    ensures Inv(p, t)
  {
    RestartCommands(s, t, job, id);
    RestartLive(s, t, job, id);
    RestartAcked(s, t, job, id);
    RestartHandlers(s, t, job, id);
    RestartBacked(s, t, job, id);
    RestartPosts(s, t, job, id);
  }

  lemma RestartPosts(s: System, t: System, job: JobId, id: MessageId)
    requires Restarted(s, t, job, id) && Serving(s) && HandlersOk(s) && PostsOnce(s) && CheckStillHolds(s)
    requires SelectedCommands(s)
    ensures PostsOnce(t) && CheckStillHolds(t) && SelectedCommands(t)
  {
    SameHandlersPosts(s, t);
    SameHandlersCheck(s, t);
  }

  lemma SubmitKeepsInv(p: Policy, s: System, job: JobId, source: Source, id: MessageId, now: real, t: System)
    requires p.Valid() && Inv(p, s) && Submits(p, s, job, source, id, now, t)
    ensures Inv(p, t)
  {
    Delivery.StepKeepsInv(p, s.core, EnqueueCommand(job, source, 0, id, now));
    SubmitRestarts(p, s, t, job, source, id, now);
    RestartKeepsInv(p, s, job, id, t);
  }

  lemma RetryKeepsInv(p: Policy, s: System, job: JobId, force: bool, id: MessageId, now: real, t: System)
    requires p.Valid() && Inv(p, s) && Retries(p, s, job, force, id, now, t)
    ensures Inv(p, t)
  {
    var j := Retried(s.jobs[job]);
    Delivery.StepKeepsInv(p, s.core, EnqueueCommand(job, j.source, j.cursor.generation, id, now));
    RetryRestarts(p, s, t, job, force, id, now);
    RestartKeepsInv(p, s, job, id, t);
  }

  lemma OverrideKeepsInv(p: Policy, s: System, job: JobId, kind: Failure, t: System)
    requires Inv(p, s) && Overrides(s, job, kind, t)
    ensures Inv(p, t)
  {
    OverrideShape(s, job, kind, t);
    OverrideCommands(s, t);
    OverrideHandlers(s, t);
    OverrideBacked(s, t);
    OverridePosts(s, t);
  }

  lemma OverrideShape(s: System, job: JobId, kind: Failure, t: System)
    requires Overrides(s, job, kind, t)
    ensures Overridden(s, t)
  {
  }

  lemma OverridePosts(s: System, t: System)
    requires Overridden(s, t) && Serving(s) && HandlersOk(s) && PostsOnce(s) && CheckStillHolds(s)
    ensures PostsOnce(t) && CheckStillHolds(t)
  {
    SameHandlersPosts(s, t);
    SameHandlersCheck(s, t);
  }

  lemma RecoverKeepsInv(p: Policy, s: System, job: JobId, document: string, t: System)
    requires Inv(p, s) && RecoverAllowed(s, job, document) && t == Recovered(s, job, document)
    ensures Inv(p, t)
  {
    RecoverGrows(s, job, document);
    RecoverKeeps(s, t);
    RecoverOthers(s, t);
    SameHandlersPosts(s, t);
    SameHandlersCheck(s, t);
  }

  lemma RecoverOthers(s: System, t: System)
    requires t.core == s.core && t.jobs == s.jobs && t.handlers == s.handlers
    ensures CommandsSound(s) ==> CommandsSound(t)
    ensures FirstCommands(s) ==> FirstCommands(t)
    ensures LiveCommands(s) ==> LiveCommands(t)
    ensures OnlyCommandsAcked(s) ==> OnlyCommandsAcked(t)
    ensures SelectedCommands(s) ==> SelectedCommands(t)
    ensures Serving(s) ==> Serving(t)
    ensures Synced(s) ==> Synced(t)
    ensures AcksObsolete(s) ==> AcksObsolete(t)
  {
  }

  /** Everything but the remote-write bounds, for a step inside a handler. */
  lemma ContinueKeepsCore(p: Policy, cfg: Config, s: System, w: nat, e: Effect, now: real, next: Handler, t: System)
    requires cfg.Valid() && Inv(p, s) && w in s.handlers && Continues(cfg, s, w, e, now, next, t)
    ensures CommandsSound(t) && FirstCommands(t) && LiveCommands(t) && SelectedCommands(t)
    ensures Serving(t) && Synced(t) && AcksObsolete(t) && SucceededBound(t)
    ensures Shape(s, w, e, now, next, t)
  {
    ContinueShape(cfg, s, w, e, now, next, t);
    assert Serves(s, w) && HandlerOk(s, s.handlers[w]);
    ContinueFollows(cfg, s, w, e, now, next, t);
    ContinueCommands(s, w, e, now, next, t);
    ContinueLive(s, w, e, now, next, t);
    ContinueServing(s, w, e, now, next, t);
    ContinueSynced(s, w, e, now, next, t);
    ContinueAcks(s, w, e, now, next, t);
    ContinueBound(s, w, e, now, next, t);
  }

  lemma ContinueKeepsJournal(cfg: Config, s: System, w: nat, e: Effect, now: real, next: Handler, t: System)
    requires w in s.handlers && Continues(cfg, s, w, e, now, next, t) && HandlerOk(s, s.handlers[w])
    requires JournalShaped(s.journal) && Serving(s) && OneInFlight(s.journal) && CheckStillHolds(s)
    ensures t.journal == JournalAfter(s, e) && Grows(s.journal, t.journal) && JournalShaped(t.journal)
    ensures OneInFlight(t.journal)
  {
    if e.Commit? {
      AllowsJournal(cfg, s, w, now, s.handlers[w], e, next);
      ContinueInFlight(cfg, s, w, e, now, next, t);
    }
  }

  lemma ContinueKeepsBacked(cfg: Config, s: System, w: nat, e: Effect, now: real, next: Handler, t: System)
    requires cfg.Valid() && Serving(s) && Synced(s) && HandlersOk(s) && JobsBacked(s)
    requires w in s.handlers && Continues(cfg, s, w, e, now, next, t) && Shape(s, w, e, now, next, t)
    requires Grows(s.journal, JournalAfter(s, e))
    ensures JobsBacked(t) && HandlersOk(t)
  {
    assert Serves(s, w) && HandlerOk(s, s.handlers[w]);
    NextOk(cfg, s, w, e, now, next, t);
    ContinueHandlers(s, w, e, now, next, t);
    ContinueJobsBacked(s, w, e, now, next, t);
  }

  lemma HandleKeepsInv(p: Policy, cfg: Config, s: System, w: nat, e: Effect, now: real, t: System)
    requires cfg.Valid() && Inv(p, s) && w in s.handlers && w in t.handlers
    requires Continues(cfg, s, w, e, now, t.handlers[w], t)
    ensures Inv(p, t)
  {
    var next := t.handlers[w];
    ContinueKeepsCore(p, cfg, s, w, e, now, next, t);
    assert HandlerOk(s, s.handlers[w]);
    ContinueKeepsJournal(cfg, s, w, e, now, next, t);
    ContinueKeepsBacked(cfg, s, w, e, now, next, t);
    ContinueStartsOwn(cfg, s, w, e, now, next, t);
    ContinueCheck(s, w, e, now, next, t);
    ContinuePosts(cfg, s, w, e, now, next, t);
  }

  lemma AckKeepsInv(p: Policy, s: System, w: nat, now: real, t: System)
    requires p.Valid() && Inv(p, s) && w in s.handlers && s.handlers[w].AckOnly? && EndsAcking(p, s, w, now, t)
    ensures Inv(p, t)
  {
    Delivery.StepKeepsInv(p, s.core, Delivery.Commit(w, now));
    AckLive(p, s, w, now, t);
    AckShape(p, s, w, now, t);
    AckedCommand(p, s, w, now);
    AckAcked(s, w, t);
    AckCommands(s, w, t);
    AckHandlers(s, w, t);
    AckBacked(s, w, t);
    FewerHandlersPosts(s, w, t);
  }

  lemma AckedCommand(p: Policy, s: System, w: nat, now: real)
    requires Serving(s) && AcksObsolete(s) && w in s.handlers && s.handlers[w].AckOnly?
    requires Delivery.Enabled(p, s.core, Delivery.Commit(w, now))
    ensures Serves(s, w) && Obsolete(PayloadOf(s, w), s.jobs)
  {
  }

  lemma FinishKeepsInv(p: Policy, s: System, w: nat, l: Local, o: Outcome, id: MessageId, now: real, t: System)
    requires p.Valid() && Inv(p, s) && w in s.handlers && s.handlers[w] == Finish(l, o)
    requires EndsFinal(p, s, w, l, o, id, now, t)
    ensures Inv(p, t)
  {
    assert HandlerOk(s, s.handlers[w]);
    EndFinished(p, s, w, l, o, id, now, t);
    var next := NextCommand(s, l, o, now);
    FinalCoreInv(p, s, w, l, o, id, now, t.core);
    FinishCommands(s, w, l, next, id, t);
    FinishLive(s, w, l, next, id, t);
    FinishSelected(s, w, l, next, id, t);
    FinishAcked(s, w, l, next, id, t);
    FinishServing(s, w, l, next, id, t);
    FinishSynced(s, w, l, next, id, t);
    FinishAcks(s, w, l, next, id, t);
    FinishBacked(s, w, l, next, id, t);
    FinishHandlers(s, w, l, next, id, t);
    FinishBound(s, w, l, o, next, id, now, t);
    FinishPosts(s, w, l, next, id, t);
    FinishCheck(s, w, l, next, id, t);
  }

  /** Giving up unacknowledged is one more fenced commit, after which the handler is gone. */
  lemma GiveUpKeepsInv(p: Policy, s: System, w: nat, l: Local, now: real, t: System)
    requires Inv(p, s) && w in s.handlers && s.handlers[w] == Reconcile(l) && EndsGivingUp(s, w, l, now, t)
    ensures Inv(p, t)
  {
    var u := Goto(Committed(s, l, s.journal, Some(ReconciliationRequired)), w, Reconcile(Clean(l)));
    GiveUpSplits(s, w, l, now, t);
    GiveUpCommits(p, s, w, l, now, u);
    GoneKeepsInv(p, u, w);
  }

  lemma GiveUpSplits(s: System, w: nat, l: Local, now: real, t: System)
    requires EndsGivingUp(s, w, l, now, t)
    ensures t == Gone(Goto(Committed(s, l, s.journal, Some(ReconciliationRequired)), w, Reconcile(Clean(l))), w)
  {
  }

  lemma GiveUpShape(s: System, w: nat, l: Local, now: real, u: System)
    requires w in s.handlers && s.handlers[w] == Reconcile(l) && Fenced(s, w, l, now) && Serves(s, w)
    requires u == Goto(Committed(s, l, s.journal, Some(ReconciliationRequired)), w, Reconcile(Clean(l)))
    ensures var next, e := Reconcile(Clean(l)), Commit(s.journal, Some(ReconciliationRequired));
      Shape(s, w, e, now, next, u) && Follows(s, w, e, next)
  {
  }

  lemma GiveUpCommits(p: Policy, s: System, w: nat, l: Local, now: real, u: System)
    requires Inv(p, s) && w in s.handlers && s.handlers[w] == Reconcile(l) && Fenced(s, w, l, now)
    requires u == Goto(Committed(s, l, s.journal, Some(ReconciliationRequired)), w, Reconcile(Clean(l)))
    ensures Inv(p, u)
  {
    var next, e := Reconcile(Clean(l)), Commit(s.journal, Some(ReconciliationRequired));
    assert Serves(s, w);
    GiveUpShape(s, w, l, now, u);
    ContinueCommands(s, w, e, now, next, u);
    ContinueLive(s, w, e, now, next, u);
    ContinueServing(s, w, e, now, next, u);
    ContinueSynced(s, w, e, now, next, u);
    ContinueAcks(s, w, e, now, next, u);
    ContinueBound(s, w, e, now, next, u);
    GiveUpBacked(s, w, l, now, u);
    ContinueCheck(s, w, e, now, next, u);
    GiveUpPosts(s, w, l, now, u);
  }

  lemma GiveUpBacked(s: System, w: nat, l: Local, now: real, u: System)
    requires Serving(s) && Synced(s) && HandlersOk(s) && JobsBacked(s) && w in s.handlers
    requires s.handlers[w] == Reconcile(l)
    requires Shape(s, w, Commit(s.journal, Some(ReconciliationRequired)), now, Reconcile(Clean(l)), u)
    ensures HandlersOk(u) && JobsBacked(u)
  {
    var next, e := Reconcile(Clean(l)), Commit(s.journal, Some(ReconciliationRequired));
    assert HandlerOk(s, s.handlers[w]);
    ContinueHandlers(s, w, e, now, next, u);
    ContinueJobsBacked(s, w, e, now, next, u);
  }

  lemma GiveUpPosts(s: System, w: nat, l: Local, now: real, u: System)
    requires PostsOnce(s) && Serving(s) && Synced(s) && w in s.handlers && s.handlers[w] == Reconcile(l)
    requires Shape(s, w, Commit(s.journal, Some(ReconciliationRequired)), now, Reconcile(Clean(l)), u)
    ensures PostsOnce(u)
  {
    forall v: nat, key: OpKey | AboutToPost(u, v, key) ensures AboutToPost(s, v, key) {
      AboutBefore(s, w, Commit(s.journal, Some(ReconciliationRequired)), now, Reconcile(Clean(l)), u, v, key);
    }
    assert forall key :: Posts(u, key) == Posts(s, key);
  }

  lemma GoneKeepsInv(p: Policy, s: System, w: nat)
    requires Inv(p, s)
    ensures Inv(p, Gone(s, w))
  {
    GoneServes(s, w);
    GoneKeeps(s, w);
    FewerHandlersPosts(s, w, Gone(s, w));
    forall j | j in s.jobs && s.jobs[j].status.Succeeded? ensures Bound(Gone(s, w), j) {
      assert Bound(s, j);
    }
  }

  lemma EndKeepsInv(p: Policy, s: System, w: nat, id: MessageId, now: real, t: System)
    requires p.Valid() && Inv(p, s) && w in s.handlers && Ends(p, s, w, id, now, t)
    ensures Inv(p, t)
  {
    if s.handlers[w].Finish? {
      FinishKeepsInv(p, s, w, s.handlers[w].l, s.handlers[w].outcome, id, now, t);
    } else {
      UnfinishedEndKeepsInv(p, s, w, id, now, t);
    }
  }

  lemma UnfinishedEndKeepsInv(p: Policy, s: System, w: nat, id: MessageId, now: real, t: System)
    requires p.Valid() && Inv(p, s) && w in s.handlers && !s.handlers[w].Finish? && Ends(p, s, w, id, now, t)
    ensures Inv(p, t)
  {
    match s.handlers[w]
    case AckOnly => AckKeepsInv(p, s, w, now, t);
    case Reconcile(l) => GiveUpKeepsInv(p, s, w, l, now, t);
    case _ =>
  }

  lemma ServiceKeepsInv(p: Policy, s: System, step: Step, t: System)
    requires IngestPolicy(p) && Inv(p, s) && Serviced(p, s, step, t)
    ensures Inv(p, t)
  {
    match step
    case Deliver(a, now) => DeliverKeepsInv(p, s, a, now, t);
    case Submit(job, source, id, now) => SubmitKeepsInv(p, s, job, source, id, now, t);
    case Request(job, id, now) => RequestIsIdempotent(p, s, t, job, id, now);
    case Retry(job, force, id, now) => RetryKeepsInv(p, s, job, force, id, now, t);
    case Override(job, kind, now) => OverrideKeepsInv(p, s, job, kind, t);
    case Recover(job, document, now) => RecoverKeepsInv(p, s, job, document, t);
    case _ =>
  }

  lemma HandlerStepKeepsInv(p: Policy, s: System, step: Step, t: System)
    requires p.Valid() && Inv(p, s) && TakesStep(p, s, step, t) && (step.Handle? || step.End?)
    ensures Inv(p, t)
  {
    if step.Handle? {
      HandleKeepsInv(p, step.cfg, s, step.w, step.e, step.now, t);
    } else {
      EndKeepsInv(p, s, step.w, step.id, step.now, t);
    }
  }

  lemma StepKeepsInv(p: Policy, s: System, step: Step, t: System)
    requires IngestPolicy(p) && Inv(p, s) && TakesStep(p, s, step, t)
    ensures Inv(p, t)
  {
    if step.Handle? || step.End? {
      HandlerStepKeepsInv(p, s, step, t);
    } else {
      ServiceKeepsInv(p, s, step, t);
    }
  }

  lemma InitialCommands(s: System)
    requires Initial(s)
    ensures CommandsSound(s) && FirstCommands(s) && LiveCommands(s) && OnlyCommandsAcked(s)
    ensures SelectedCommands(s) && JobsBacked(s) && SucceededBound(s)
  {
  }

  lemma InitialHandlers(s: System)
    requires Initial(s)
    ensures Serving(s) && Synced(s) && AcksObsolete(s) && HandlersOk(s) && CheckStillHolds(s)
  {
  }

  lemma InitialJournal(s: System)
    requires Initial(s)
    ensures JournalShaped(s.journal) && OneInFlight(s.journal) && PostsOnce(s)
  {
  }

  lemma InitialCore(p: Policy)
    ensures Delivery.Inv(p, Delivery.INITIAL)
  {
  }

  lemma InitialInv(p: Policy, s: System)
    requires p.Valid() && Initial(s)
    ensures Inv(p, s)
  {
    InitialCore(p);
    InitialCommands(s);
    InitialHandlers(s);
    InitialJournal(s);
  }

  ghost predicate KeepsInv(p: Policy, s: System, t: System) {
    Inv(p, s) ==> Inv(p, t)
  }

  lemma StepKeeps(p: Policy, s: System, step: Step, t: System)
    requires IngestPolicy(p) && TakesStep(p, s, step, t)
    ensures KeepsInv(p, s, t)
  {
    if Inv(p, s) {
      StepKeepsInv(p, s, step, t);
    }
  }

  /** The states of a run, without its steps. */
  ghost predicate Trace(p: Policy, states: seq<System>) {
    && states != [] && Initial(states[0])
    && forall i, k {:trigger states[i], states[k]} :: 0 <= i < k == i + 1 < |states| ==>
      KeepsInv(p, states[i], states[k])
  }

  lemma RunTrace(p: Policy, states: seq<System>, steps: seq<Step>)
    requires IngestPolicy(p) && IsRun(p, states, steps)
    ensures Trace(p, states)
  {
    forall i, k | 0 <= i < k == i + 1 < |states| ensures KeepsInv(p, states[i], states[k]) {
      StepKeeps(p, states[i], steps[i], states[k]);
    }
  }

  lemma {:induction false} TraceInv(p: Policy, states: seq<System>, i: nat)
    requires p.Valid() && Trace(p, states) && i < |states|
    ensures Inv(p, states[i])
  {
    if i == 0 {
      InitialInv(p, states[0]);
    } else {
      TraceInv(p, states, i - 1);
      assert KeepsInv(p, states[i - 1], states[i]);
    }
  }

  lemma RunInv(p: Policy, states: seq<System>, steps: seq<Step>, i: nat)
    requires IngestPolicy(p) && IsRun(p, states, steps) && i < |states|
    ensures Inv(p, states[i])
  {
    RunTrace(p, states, steps);
    TraceInv(p, states, i);
  }
}
