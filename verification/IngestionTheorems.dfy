/** What holds over every run of the ingestion machine, whatever the clock readings, crashes, retries,
    concurrent workers and operator actions. */
module IngestionTheorems {
  import opened Tables
  import opened DeliverySpec
  import opened IngestionSpec
  import opened IngestionMachine
  import opened IngestionInvariants
  import opened IngestionSteps
  import opened IngestionContinue
  import opened IngestionPosts
  import opened IngestionEnds
  import opened IngestionService
  import opened IngestionSafety
  import Delivery = DeliveryMachine

  ghost predicate Runs(p: Policy, states: seq<System>, steps: seq<Step>) {
    IngestPolicy(p) && IsRun(p, states, steps)
  }

  // ---- what one step may do ----------------------------------------------------------------------

  predicate IsPost(step: Step, key: OpKey) {
    step.Handle? && step.e == Post(key)
  }

  /** The position grows lexicographically, a verified upload stays for good, and within a generation the
      deadline, the interval and the poll phase never move back. */
  predicate Onward(c: Cursor, d: Cursor) {
    && (Behind(c.generation, c.step, d) || AtCursor(c.generation, c.step, d))
    && (c.upload.Some? ==> d.upload == c.upload)
    && (d.generation == c.generation ==>
          && (c.deadline.Some? ==> d.deadline == c.deadline && d.interval == c.interval)
          && (c.phase.Poll? ==> d.phase.Poll?))
    && (ReadyByDeadline(c) ==> ReadyByDeadline(d))
  }

  /** A scheduled poll is never due after the deadline. */
  predicate ReadyByDeadline(c: Cursor) {
    c.step > 0 ==> c.readyAt.Some? && c.deadline.Some? && c.readyAt.value <= c.deadline.value
  }

  ghost predicate JobsOnward(s: System, t: System) {
    && (forall j :: j in s.jobs ==>
          j in t.jobs && t.jobs[j].source == s.jobs[j].source && Onward(s.jobs[j].cursor, t.jobs[j].cursor))
    && (forall j :: j in t.jobs && j !in s.jobs ==> ReadyByDeadline(t.jobs[j].cursor))
  }

  /** A step of a handler that works for generation g of a job and writes to the database. */
  predicate CommitsFor(s: System, step: Step, job: JobId, g: nat) {
    && (step.End? || (step.Handle? && step.e.Commit?))
    && step.w in s.handlers && HasLocal(s.handlers[step.w])
    && s.handlers[step.w].l.job == job && s.handlers[step.w].l.generation == g
  }

  ghost predicate PostsAdvance(s: System, step: Step, t: System) {
    && (forall key :: Posts(t, key) == Posts(s, key) + if IsPost(step, key) then 1 else 0)
    && (forall w, key :: AboutToPost(t, w, key) ==>
          AboutToPost(s, w, key) || Claims(s.journal, t.journal, key))
    && (forall key :: IsPost(step, key) ==> AboutToPost(s, step.w, key))
  }

  /** A handler commits only for the generation its job is in. */
  ghost predicate FencesHold(s: System, step: Step) {
    forall j, g :: CommitsFor(s, step, j, g) ==> j in s.jobs && s.jobs[j].cursor.generation == g
  }

  ghost predicate Advances(s: System, step: Step, t: System) {
    Grows(s.journal, t.journal) && JobsOnward(s, t) && PostsAdvance(s, step, t) && FencesHold(s, step)
  }

  lemma HandleGrows(cfg: Config, s: System, w: nat, e: Effect, now: real, next: Handler, t: System)
    requires JournalShaped(s.journal) && w in s.handlers && HandlerOk(s, s.handlers[w])
    requires Continues(cfg, s, w, e, now, next, t)
    ensures Grows(s.journal, t.journal)
  {
    if e.Commit? {
      AllowsJournal(cfg, s, w, now, s.handlers[w], e, next);
    }
  }

  lemma ServiceKeepsJournal(p: Policy, s: System, step: Step, t: System)
    requires Serviced(p, s, step, t) && !step.Recover?
    ensures t.journal == s.journal
  {
  }

  lemma ServiceGrows(p: Policy, s: System, step: Step, t: System)
    requires JournalShaped(s.journal) && OneInFlight(s.journal) && Serviced(p, s, step, t)
    ensures Grows(s.journal, t.journal)
  {
    if step.Recover? {
      RecoverGrows(s, step.job, step.document);
    } else {
      ServiceKeepsJournal(p, s, step, t);
    }
  }

  lemma EndKeepsJournal(p: Policy, s: System, w: nat, id: MessageId, now: real, t: System)
    requires w in s.handlers && Ends(p, s, w, id, now, t)
    ensures t.journal == s.journal
  {
  }

  lemma StepGrows(p: Policy, s: System, step: Step, t: System)
    requires JournalShaped(s.journal) && OneInFlight(s.journal) && HandlersOk(s) && TakesStep(p, s, step, t)
    ensures Grows(s.journal, t.journal)
  {
    match step
    case Handle(w, e, now, cfg) => HandleGrows(cfg, s, w, e, now, t.handlers[w], t);
    case End(w, id, now) => EndKeepsJournal(p, s, w, id, now, t);
    case _ => ServiceGrows(p, s, step, t);
  }

  lemma FinalOnward(a: Job, l: Local, o: Outcome, now: real)
    requires InSync(a.cursor, l) && a.cursor.generation == l.generation && FinalJob(a, l, o, now).Some?
    ensures FinalJob(a, l, o, now).value.source == a.source && Onward(a.cursor, FinalJob(a, l, o, now).value.cursor)
  {
  }

  lemma FinishOnward(p: Policy, s: System, w: nat, l: Local, o: Outcome, id: MessageId, now: real, t: System)
    requires EndsFinal(p, s, w, l, o, id, now, t) && InSync(s.jobs[l.job].cursor, l)
    ensures JobsOnward(s, t)
  {
    FinalOnward(s.jobs[l.job], l, o, now);
  }

  lemma GiveUpOnward(s: System, w: nat, l: Local, now: real, t: System)
    requires EndsGivingUp(s, w, l, now, t) && InSync(s.jobs[l.job].cursor, l)
    ensures JobsOnward(s, t)
  {
  }

  lemma EndOnward(p: Policy, s: System, w: nat, id: MessageId, now: real, t: System)
    requires Serving(s) && Synced(s) && w in s.handlers && Ends(p, s, w, id, now, t)
    ensures JobsOnward(s, t)
  {
    assert Serves(s, w);
    match s.handlers[w]
    case AckOnly => SameCursorsOnward(s, t);
    case Finish(l, o) =>
      assert Effective(s, w);
      FinishOnward(p, s, w, l, o, id, now, t);
    case Reconcile(l) =>
      assert Effective(s, w);
      GiveUpOnward(s, w, l, now, t);
    case _ =>
  }

  lemma SubmitOnward(p: Policy, s: System, job: JobId, source: Source, id: MessageId, now: real, t: System)
    requires Submits(p, s, job, source, id, now, t)
    ensures JobsOnward(s, t)
  {
  }

  lemma RetryOnward(p: Policy, s: System, job: JobId, force: bool, id: MessageId, now: real, t: System)
    requires Retries(p, s, job, force, id, now, t)
    ensures JobsOnward(s, t)
  {
  }

  /** Jobs that keep their cursors. */
  lemma SameCursorsOnward(s: System, t: System)
    requires t.jobs.Keys == s.jobs.Keys
    requires forall j :: j in s.jobs ==> t.jobs[j].source == s.jobs[j].source && t.jobs[j].cursor == s.jobs[j].cursor
    ensures JobsOnward(s, t)
  {
  }

  lemma DeliverOnward(p: Policy, s: System, a: Delivery.Action, now: real, t: System)
    requires Delivers(p, s, a, now, t)
    ensures JobsOnward(s, t)
  {
  }

  lemma RequestOnward(p: Policy, s: System, job: JobId, id: MessageId, now: real, t: System)
    requires Requests(p, s, job, id, now, t)
    ensures JobsOnward(s, t)
  {
  }

  lemma OverrideOnward(s: System, job: JobId, kind: Failure, t: System)
    requires Overrides(s, job, kind, t)
    ensures JobsOnward(s, t)
  {
  }

  lemma ServiceOnward(p: Policy, s: System, step: Step, t: System)
    requires Serviced(p, s, step, t)
    ensures JobsOnward(s, t)
  {
    match step
    case Submit(job, source, id, now) => SubmitOnward(p, s, job, source, id, now, t);
    case Retry(job, force, id, now) => RetryOnward(p, s, job, force, id, now, t);
    case Deliver(a, now) => DeliverOnward(p, s, a, now, t);
    case Request(job, id, now) => RequestOnward(p, s, job, id, now, t);
    case Override(job, kind, _) => OverrideOnward(s, job, kind, t);
    case Recover(_, _, _) => SameCursorsOnward(s, t);
    case _ =>
  }

  lemma HandleOnward(cfg: Config, s: System, w: nat, e: Effect, now: real, next: Handler, t: System)
    requires Serving(s) && Synced(s) && w in s.handlers && Continues(cfg, s, w, e, now, next, t)
    ensures JobsOnward(s, t)
  {
    ContinueShape(cfg, s, w, e, now, next, t);
    ShapeOnward(s, w, e, now, next, t);
  }

  lemma ShapeOnward(s: System, w: nat, e: Effect, now: real, next: Handler, t: System)
    requires Serving(s) && Synced(s) && w in s.handlers && Shape(s, w, e, now, next, t)
    ensures JobsOnward(s, t)
  {
    ShapeJobs(s, w, e, now, next, t);
  }

  lemma StepOnward(p: Policy, s: System, step: Step, t: System)
    requires Serving(s) && Synced(s) && TakesStep(p, s, step, t)
    ensures JobsOnward(s, t)
  {
    match step
    case Handle(w, e, now, cfg) => HandleOnward(cfg, s, w, e, now, t.handlers[w], t);
    case End(w, id, now) => EndOnward(p, s, w, id, now, t);
    case _ => ServiceOnward(p, s, step, t);
  }

  lemma HandleCounts(cfg: Config, s: System, w: nat, e: Effect, now: real, next: Handler, t: System, key: OpKey)
    requires w in s.handlers && Continues(cfg, s, w, e, now, next, t)
    ensures Posts(t, key) == Posts(s, key) + if e == Post(key) then 1 else 0
    ensures e == Post(key) ==> AboutToPost(s, w, key)
  {
    if e == Post(key) {
      PostTarget(cfg, s, w, now, s.handlers[w], e, next);
    }
  }

  lemma StepCounts(p: Policy, s: System, step: Step, t: System, key: OpKey)
    requires TakesStep(p, s, step, t)
    ensures Posts(t, key) == Posts(s, key) + if IsPost(step, key) then 1 else 0
    ensures IsPost(step, key) ==> AboutToPost(s, step.w, key)
  {
    if step.Handle? {
      HandleCounts(step.cfg, s, step.w, step.e, step.now, t.handlers[step.w], t, key);
    } else {
      OthersPostNothing(p, s, step, t);
    }
  }

  lemma OthersPostNothing(p: Policy, s: System, step: Step, t: System)
    requires TakesStep(p, s, step, t) && !step.Handle?
    ensures t.posts == s.posts
  {
  }

  /** A handler becomes ready to post only by a commit that claims the operation. */
  lemma AboutArises(cfg: Config, s: System, w: nat, e: Effect, now: real, t: System, v: nat, key: OpKey)
    requires Serving(s) && Synced(s) && PostsOnce(s) && w in s.handlers && w in t.handlers
    requires Continues(cfg, s, w, e, now, t.handlers[w], t) && AboutToPost(t, v, key)
    ensures AboutToPost(s, v, key) || Claims(s.journal, t.journal, key)
  {
    ContinueShape(cfg, s, w, e, now, t.handlers[w], t);
    if v == w {
      AboutNow(cfg, s, w, e, now, t.handlers[w], t, key);
    } else {
      AboutBefore(s, w, e, now, t.handlers[w], t, v, key);
    }
  }

  lemma ServiceHandlersStay(p: Policy, s: System, step: Step, t: System, v: nat)
    requires Serviced(p, s, step, t) && v in t.handlers && HasLocal(t.handlers[v])
    ensures v in s.handlers && t.handlers[v] == s.handlers[v]
  {
  }

  lemma EndHandlersStay(p: Policy, s: System, w: nat, id: MessageId, now: real, t: System)
    requires w in s.handlers && Ends(p, s, w, id, now, t)
    ensures t.handlers == s.handlers - {w}
  {
  }

  /** Outside handlers, a handler past its first read is one that was there before. */
  lemma HandlersStay(p: Policy, s: System, step: Step, t: System, v: nat)
    requires TakesStep(p, s, step, t) && !step.Handle? && v in t.handlers && HasLocal(t.handlers[v])
    ensures v in s.handlers && t.handlers[v] == s.handlers[v]
  {
    if step.End? {
      EndHandlersStay(p, s, step.w, step.id, step.now, t);
    } else {
      ServiceHandlersStay(p, s, step, t, v);
    }
  }

  lemma AboutStays(p: Policy, s: System, step: Step, t: System, v: nat, key: OpKey)
    requires HandlersOk(s) && TakesStep(p, s, step, t) && !step.Handle? && AboutToPost(t, v, key)
    requires JobsOnward(s, t)
    ensures AboutToPost(s, v, key)
  {
    HandlersStay(p, s, step, t, v);
    assert HandlerOk(s, s.handlers[v]);
  }

  lemma StepPosts(p: Policy, s: System, step: Step, t: System)
    requires Serving(s) && Synced(s) && PostsOnce(s) && HandlersOk(s) && JobsOnward(s, t)
    requires TakesStep(p, s, step, t)
    ensures PostsAdvance(s, step, t)
  {
    forall key: OpKey
      ensures Posts(t, key) == Posts(s, key) + if IsPost(step, key) then 1 else 0
      ensures IsPost(step, key) ==> AboutToPost(s, step.w, key)
    {
      StepCounts(p, s, step, t, key);
    }
    forall v: nat, key: OpKey | AboutToPost(t, v, key)
      ensures AboutToPost(s, v, key) || Claims(s.journal, t.journal, key)
    {
      if step.Handle? {
        AboutArises(step.cfg, s, step.w, step.e, step.now, t, v, key);
      } else {
        AboutStays(p, s, step, t, v, key);
      }
    }
  }

  lemma StepFenced(p: Policy, s: System, step: Step, t: System)
    requires TakesStep(p, s, step, t)
    ensures FencesHold(s, step)
  {
  }

  /** No step moves the journal or a job's cursor back. */
  lemma StepMovesOn(p: Policy, s: System, step: Step, t: System)
    requires Serving(s) && Synced(s) && HandlersOk(s) && JournalShaped(s.journal) && OneInFlight(s.journal)
    requires TakesStep(p, s, step, t)
    ensures Grows(s.journal, t.journal) && JobsOnward(s, t)
  {
    StepGrows(p, s, step, t);
    StepOnward(p, s, step, t);
  }

  lemma StepAdvances(p: Policy, s: System, step: Step, t: System)
    requires Serving(s) && Synced(s) && PostsOnce(s) && HandlersOk(s) && JournalShaped(s.journal)
    requires OneInFlight(s.journal)
    requires TakesStep(p, s, step, t)
    ensures Advances(s, step, t)
  {
    StepMovesOn(p, s, step, t);
    StepPosts(p, s, step, t);
    StepFenced(p, s, step, t);
  }

  // ---- over runs -----------------------------------------------------------------------------------

  /** Every step of the trace advances. */
  ghost predicate History(states: seq<System>, steps: seq<Step>) {
    |states| == |steps| + 1 && forall i {:trigger steps[i]} :: 0 <= i < |steps| ==>
      Advances(states[i], steps[i], states[i + 1])
  }

  lemma RunHistory(p: Policy, states: seq<System>, steps: seq<Step>)
    requires Runs(p, states, steps)
    ensures History(states, steps)
  {
    forall i | 0 <= i < |steps| ensures Advances(states[i], steps[i], states[i + 1]) {
      RunInv(p, states, steps, i);
      StepAdvances(p, states[i], steps[i], states[i + 1]);
    }
  }

  lemma {:induction false} GrowsThroughout(states: seq<System>, steps: seq<Step>, i: nat, k: nat)
    requires History(states, steps) && i <= k < |states|
    ensures Grows(states[i].journal, states[k].journal) && JobsOnward(states[i], states[k])
    decreases k - i
  {
    if i < k {
      GrowsThroughout(states, steps, i, k - 1);
      assert Advances(states[k - 1], steps[k - 1], states[k]);
    }
  }

  /** No operation is ever forgotten, changes its intent, returns to intended, or changes once confirmed. */
  lemma OperationsNeverRegress(p: Policy, states: seq<System>, steps: seq<Step>, i: nat, k: nat,
                               key: OpKey)
    requires Runs(p, states, steps) && i <= k < |states| && key in states[i].journal
    ensures key in states[k].journal
    ensures var a, b := states[i].journal[key], states[k].journal[key];
      && b.intent == a.intent && (a.state.Confirmed? ==> b == a) && (!a.state.Intended? ==> !b.state.Intended?)
  {
    RunHistory(p, states, steps);
    GrowsThroughout(states, steps, i, k);
  }

  lemma CursorsNeverRegress(p: Policy, states: seq<System>, steps: seq<Step>, i: nat, k: nat, j: JobId)
    requires Runs(p, states, steps) && i <= k < |states| && j in states[i].jobs
    ensures j in states[k].jobs && states[k].jobs[j].source == states[i].jobs[j].source
    ensures Onward(states[i].jobs[j].cursor, states[k].jobs[j].cursor)
  {
    RunHistory(p, states, steps);
    GrowsThroughout(states, steps, i, k);
  }

  /** Whatever the clock does, a scheduled poll is never due after its generation's deadline. */
  lemma PollsReadyByDeadline(p: Policy, states: seq<System>, steps: seq<Step>, i: nat, j: JobId)
    requires Runs(p, states, steps) && i < |states| && j in states[i].jobs
    ensures ReadyByDeadline(states[i].jobs[j].cursor)
  {
    RunHistory(p, states, steps);
    GrowsThroughout(states, steps, 0, i);
  }

  /** No worker fenced at generation g commits anything once its job has been at a later generation. */
  lemma FencedForGood(p: Policy, states: seq<System>, steps: seq<Step>, i: nat, k: nat, j: JobId, g: nat)
    requires Runs(p, states, steps) && i <= k < |steps| && j in states[i].jobs
    requires g < states[i].jobs[j].cursor.generation
    ensures !CommitsFor(states[k], steps[k], j, g)
  {
    RunHistory(p, states, steps);
    GrowsThroughout(states, steps, i, k);
    assert Advances(states[k], steps[k], states[k + 1]);
  }

  // ---- remote writes over a run ----------------------------------------------------------------------

  /** Remote writes of one operation among the first n steps. */
  function PostsIssued(steps: seq<Step>, n: nat, key: OpKey): nat
    requires n <= |steps|
  {
    if n == 0 then 0 else PostsIssued(steps, n - 1, key) + if IsPost(steps[n - 1], key) then 1 else 0
  }

  lemma {:induction false} PostsCounted(states: seq<System>, steps: seq<Step>, n: nat, key: OpKey)
    requires History(states, steps) && n < |states| && states[0].posts == map[]
    ensures Posts(states[n], key) == PostsIssued(steps, n, key)
  {
    if n > 0 {
      PostsCounted(states, steps, n - 1, key);
      assert Advances(states[n - 1], steps[n - 1], states[n]);
    }
  }

  /** At most one upload POST per upload identity and one parse POST per identity, job and generation. */
  lemma AtMostOnePost(p: Policy, states: seq<System>, steps: seq<Step>, key: OpKey)
    requires Runs(p, states, steps)
    ensures PostsIssued(steps, |steps|, key) <= 1
  {
    RunInv(p, states, steps, |steps|);
    RunHistory(p, states, steps);
    PostsCounted(states, steps, |steps|, key);
  }

  lemma {:induction false} ReadyWasClaimed(states: seq<System>, steps: seq<Step>, i: nat, w: nat, key: OpKey)
    returns (c: nat)
    requires History(states, steps) && states[0].handlers == map[] && i < |states| && AboutToPost(states[i], w, key)
    ensures c < i && Claims(states[c].journal, states[c + 1].journal, key)
  {
    c := i - 1;
    assert Advances(states[c], steps[c], states[i]);
    if AboutToPost(states[c], w, key) {
      c := ReadyWasClaimed(states, steps, c, w, key);
    }
  }

  /** Every remote write was claimed by an earlier commit that took its operation from intended to
      executing, and it is the operation's first. */
  lemma PostWasClaimed(p: Policy, states: seq<System>, steps: seq<Step>, i: nat, key: OpKey)
    returns (c: nat)
    requires Runs(p, states, steps) && i < |steps| && IsPost(steps[i], key)
    ensures c < i && Claims(states[c].journal, states[c + 1].journal, key)
    ensures PastIntended(states[i].journal, key) && PostsIssued(steps, i, key) == 0
  {
    RunInv(p, states, steps, i);
    RunHistory(p, states, steps);
    assert Advances(states[i], steps[i], states[i + 1]);
    assert AboutToPost(states[i], steps[i].w, key);
    c := ReadyWasClaimed(states, steps, i, steps[i].w, key);
    PostsCounted(states, steps, i, key);
  }
}
