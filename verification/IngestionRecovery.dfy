/** A job can still succeed, from whatever state crashes, retries, operators and other workers have left it in, if and
    only if the upload operation of its identity does not bar it. */
module IngestionRecovery {
  import opened Tables
  import opened DeliverySpec
  import opened IngestionSpec
  import opened IngestionMachine
  import opened IngestionInvariants
  import opened IngestionSteps
  import opened IngestionContinue
  import opened IngestionService
  import opened IngestionDelivery
  import opened IngestionTheorems
  import opened IngestionPromises
  import opened IngestionProgress
  import opened IngestionParses
  import opened IngestionOpen
  import Delivery = DeliveryMachine
  import Run = IngestionWitness

  // ---- continuations of a run ------------------------------------------------------------------------------

  /** Some steps of the machine lead from s to t. */
  ghost predicate Leads(p: Policy, s: System, t: System) {
    exists states, steps :: IsPath(p, states, steps) && states[0] == s && states[|steps|] == t
  }

  lemma LeadsNowhere(p: Policy, s: System)
    ensures Leads(p, s, s)
  {
    var states: seq<System>, steps: seq<Step> := [s], [];
    assert IsPath(p, states, steps) && states[0] == s && states[|steps|] == s;
  }

  lemma LeadsOn(p: Policy, s: System, t: System, step: Step, u: System)
    requires Leads(p, s, t) && TakesStep(p, t, step, u)
    ensures Leads(p, s, u)
  {
    var states, steps :| IsPath(p, states, steps) && states[0] == s && states[|steps|] == t;
    var all, more := states + [u], steps + [step];
    assert IsPath(p, all, more) && all[0] == s && all[|more|] == u;
  }

  lemma LeadsGood(p: Policy, s: System, t: System)
    requires Reachable(p, s) && Leads(p, s, t)
    ensures Good(p, t)
  {
    ReachableGood(p, s);
    var states, steps :| IsPath(p, states, steps) && states[0] == s && states[|steps|] == t;
    PathTrail(p, states, steps);
    TrailGood(p, states, |steps|);
  }

  // ---- fresh names -----------------------------------------------------------------------------------------

  lemma {:induction false} FreshNat(used: set<nat>) returns (n: nat)
    ensures n !in used && forall m :: m in used ==> m < n
    decreases |used|
  {
    n := 0;
    if used != {} {
      var m :| m in used;
      n := FreshNat(used - {m});
      if n <= m {
        n := m + 1;
      }
      forall k | k in used ensures k < n {
        assert k == m || k in used - {m};
      }
    }
  }

  // ---- a handler left to itself ----------------------------------------------------------------------------

  /** The handler works for the job under a lease that is live at this reading. */
  predicate Working(s: System, w: nat, j: JobId, now: real) {
    && w in s.handlers && HasLocal(s.handlers[w]) && s.handlers[w].l.job == j
    && Fenced(s, w, s.handlers[w].l, now)
  }

  lemma StepTaken(p: Policy, cfg: Config, s: System, w: nat, now: real, e: Effect, next: Handler) returns (t: System)
    requires cfg.Valid() && w in s.handlers && HasLocal(s.handlers[w]) && Fenced(s, w, s.handlers[w].l, now)
    requires Allows(cfg, s, w, now, s.handlers[w], e, next)
    ensures t == Goto(Applied(s, s.handlers[w], e), w, next) && TakesStep(p, s, Handle(w, e, now, cfg), t)
    ensures Continues(cfg, s, w, e, now, next, t)
  {
    t := Goto(Applied(s, s.handlers[w], e), w, next);
    assert t.handlers[w] == next;
  }

  /** The lease row and the generation are as before, so the handler is still at work. */
  lemma StillWorking(cfg: Config, s: System, w: nat, j: JobId, now: real, e: Effect, next: Handler, t: System)
    requires cfg.Valid() && Working(s, w, j, now) && Serving(s) && Synced(s) && HandlerOk(s, s.handlers[w])
    requires Continues(cfg, s, w, e, now, next, t)
    ensures Working(t, w, j, now) && t.handlers[w] == next && t.journal == JournalAfter(s, e)
    ensures t.jobs[j].source == s.jobs[j].source
  {
    ContinueShape(cfg, s, w, e, now, next, t);
    ShapeJobs(s, w, e, now, next, t);
    assert Serves(s, w);
    ContinueFollows(cfg, s, w, e, now, next, t);
  }

  predicate Open(s: System, w: nat, j: JobId, now: real) {
    Working(s, w, j, now) && OpenAt(s.journal, s.jobs[j].source, s.handlers[w])
  }

  lemma OneMoreOpen(p: Policy, cfg: Config, s: System, w: nat, j: JobId, now: real) returns (step: Step, t: System)
    requires cfg.Valid() && Serving(s) && Synced(s) && HandlersOk(s)
    requires JournalShaped(s.journal) && ParsesBelong(s.journal)
    requires Open(s, w, j, now) && !s.handlers[w].Finish?
    ensures TakesStep(p, s, step, t) && Open(t, w, j, now) && Rank(t.handlers[w]) > Rank(s.handlers[w])
  {
    var h := s.handlers[w];
    assert HandlerOk(s, h);
    var e, next := GoesOnto(cfg, s, w, h, now);
    t := StepTaken(p, cfg, s, w, now, e, next);
    step := Handle(w, e, now, cfg);
    StillWorking(cfg, s, w, j, now, e, next, t);
  }

  lemma GoesFurther(p: Policy, cfg: Config, s0: System, s: System, w: nat, j: JobId, now: real) returns (t: System)
    requires cfg.Valid() && Good(p, s) && Leads(p, s0, s) && Open(s, w, j, now) && !s.handlers[w].Finish?
    ensures Leads(p, s0, t) && Open(t, w, j, now) && Rank(t.handlers[w]) > Rank(s.handlers[w])
  {
    var step;
    step, t := OneMoreOpen(p, cfg, s, w, j, now);
    LeadsOn(p, s0, s, step, t);
  }

  /** Beyond every rank. */
  const LAST := 15

  /** Some continuation has the handler at the final transaction that succeeds, or at least as far as this rank. */
  ghost predicate AsFarAs(p: Policy, s0: System, w: nat, j: JobId, now: real, rank: nat) {
    exists s :: AtLeast(p, s0, s, w, j, now, rank)
  }

  ghost predicate AtLeast(p: Policy, s0: System, s: System, w: nat, j: JobId, now: real, rank: nat) {
    Leads(p, s0, s) && Open(s, w, j, now) && (s.handlers[w].Finish? || Rank(s.handlers[w]) >= rank)
  }

  lemma RanksBelowLast(h: Handler)
    ensures Rank(h) < LAST
  {
  }

  lemma OneRankFurther(p: Policy, cfg: Config, s0: System, w: nat, j: JobId, now: real, rank: nat)
    requires cfg.Valid() && Reachable(p, s0) && AsFarAs(p, s0, w, j, now, rank)
    ensures AsFarAs(p, s0, w, j, now, rank + 1)
  {
    var s :| AtLeast(p, s0, s, w, j, now, rank);
    LeadsGood(p, s0, s);
    if s.handlers[w].Finish? {
      assert AtLeast(p, s0, s, w, j, now, rank + 1);
    } else {
      var t := GoesFurther(p, cfg, s0, s, w, j, now);
      assert AtLeast(p, s0, t, w, j, now, rank + 1);
    }
  }

  lemma {:induction false} AllTheWay(p: Policy, cfg: Config, s0: System, w: nat, j: JobId, now: real, rank: nat)
    requires cfg.Valid() && Reachable(p, s0) && AsFarAs(p, s0, w, j, now, rank) && rank <= LAST
    ensures AsFarAs(p, s0, w, j, now, LAST)
    decreases LAST - rank
  {
    if rank < LAST {
      OneRankFurther(p, cfg, s0, w, j, now, rank);
      AllTheWay(p, cfg, s0, w, j, now, rank + 1);
    }
  }

  lemma Succeeds(p: Policy, s: System, w: nat, j: JobId, now: real) returns (step: Step, t: System)
    requires Delivery.IndexSound(s.core.db) && CommandsSound(s) && Synced(s) && Serving(s) && HandlersOk(s)
    requires Open(s, w, j, now) && s.handlers[w].Finish?
    ensures TakesStep(p, s, step, t) && j in t.jobs && t.jobs[j].status.Succeeded?
  {
    var l, o := s.handlers[w].l, s.handlers[w].outcome;
    assert Serves(s, w) && HandlerOk(s, s.handlers[w]);
    var id := FreshNat(s.core.db.outbox.Keys);
    t := FinishGoesThrough(p, s, w, l, o, id, now);
    step := End(w, id, now);
    SucceededJob(p, s, w, l, id, now, t);
  }

  lemma SucceededJob(p: Policy, s: System, w: nat, l: Local, id: MessageId, now: real, t: System)
    requires EndsFinal(p, s, w, l, Succeed, id, now, t)
    ensures l.job in t.jobs && t.jobs[l.job].status.Succeeded?
  {
  }

  ghost predicate SucceedsAt(p: Policy, s: System, j: JobId, t: System) {
    Leads(p, s, t) && j in t.jobs && t.jobs[j].status.Succeeded?
  }

  /** Some continuation has the job succeeded. */
  ghost predicate MaySucceed(p: Policy, s: System, j: JobId) {
    exists t :: SucceedsAt(p, s, j, t)
  }

  lemma FinishSucceeds(p: Policy, s0: System, s: System, w: nat, j: JobId, now: real)
    requires Good(p, s) && Leads(p, s0, s) && Open(s, w, j, now) && s.handlers[w].Finish?
    ensures MaySucceed(p, s0, j)
  {
    var step, t := Succeeds(p, s, w, j, now);
    LeadsOn(p, s0, s, step, t);
    assert SucceedsAt(p, s0, j, t);
  }

  lemma LastStep(p: Policy, s0: System, w: nat, j: JobId, now: real)
    requires Reachable(p, s0) && AsFarAs(p, s0, w, j, now, LAST)
    ensures MaySucceed(p, s0, j)
  {
    var s :| AtLeast(p, s0, s, w, j, now, LAST);
    LeadsGood(p, s0, s);
    RanksBelowLast(s.handlers[w]);
    FinishSucceeds(p, s0, s, w, j, now);
  }

  /** A handler at an open point can still succeed. */
  lemma OpenSucceeds(p: Policy, cfg: Config, s0: System, s: System, w: nat, j: JobId, now: real)
    requires cfg.Valid() && Reachable(p, s0) && Leads(p, s0, s) && Open(s, w, j, now)
    ensures MaySucceed(p, s0, j)
  {
    assert AtLeast(p, s0, s, w, j, now, 0);
    AllTheWay(p, cfg, s0, w, j, now, 0);
    LastStep(p, s0, w, j, now);
  }

  // ---- getting a handler to work ---------------------------------------------------------------------------

  /** The job is live and its current command is this message, which nobody has acknowledged. */
  predicate Awaiting(s: System, j: JobId, m: MessageId) {
    && j in s.jobs && !Terminal(s.jobs[j].status)
    && m in s.core.db.outbox && (TOPIC, m) !in s.core.db.inbox
    && var c, i := s.jobs[j].cursor, s.core.db.outbox[m].intent;
       i.topic == TOPIC && i.payload == Command(j, c.generation, c.step)
  }

  /** A reading at which the message is due and any lease on its resource has run out. */
  predicate DueBy(db: Db, m: MessageId, now: real) {
    && m in db.outbox && Reached(Due(db.outbox[m].intent), now)
    && Free(db, Resource(db.outbox[m].intent), now)
  }

  lemma SomeReading(db: Db, m: MessageId) returns (now: real)
    requires m in db.outbox
    ensures DueBy(db, m, now)
  {
    var i := db.outbox[m].intent;
    now := if i.notBefore.Some? then i.notBefore.value else 0.0;
    if Resource(i) in db.execution && db.execution[Resource(i)].expires.At? {
      var expires := db.execution[Resource(i)].expires.at;
      now := if expires > now then expires else now;
    }
  }

  /** An open dead letter is replayed first. */
  lemma Replays(p: Policy, s: System, j: JobId, m: MessageId, now: real) returns (step: Step, t: System)
    requires IngestPolicy(p) && Awaiting(s, j, m) && DueBy(s.core.db, m, now) && OpenDead(s.core.db, m)
    ensures TakesStep(p, s, step, t) && Awaiting(t, j, m) && DueBy(t.core.db, m, now) && !OpenDead(t.core.db, m)
    ensures t.jobs == s.jobs && t.journal == s.journal
  {
    var a := Delivery.Action.Replay(m, now);
    t := s.(core := Delivery.Next(p, s.core, a), handlers := HandlersAfter(p, s, a));
    step := Deliver(a, now);
  }

  lemma Selects(p: Policy, s: System, j: JobId, m: MessageId, now: real) returns (w: nat, step: Step, t: System)
    requires IngestPolicy(p) && Awaiting(s, j, m) && DueBy(s.core.db, m, now) && !OpenDead(s.core.db, m)
    ensures TakesStep(p, s, step, t) && Awaiting(t, j, m) && DueBy(t.core.db, m, now)
    ensures t.core.consumers == s.core.consumers[w := Delivery.Selected(m)] && t.core.issued == s.core.issued
    ensures t.jobs == s.jobs && t.journal == s.journal
  {
    w := FreshNat(s.core.consumers.Keys);
    var a := Delivery.Action.Select(w, m, now);
    t := s.(core := Delivery.Next(p, s.core, a), handlers := HandlersAfter(p, s, a));
    step := Deliver(a, now);
  }

  /** A consumer has the lease on the message and is about to read the job. */
  predicate AboutToLoad(s: System, w: nat, m: MessageId, now: real) {
    && w in s.handlers && s.handlers[w].Load? && Delivery.IsRunning(s.core, w)
    && LeaseOf(s, w).message == m && Guard(s.core.db, LeaseOf(s, w), now)
  }

  lemma Takes(p: Policy, s: System, j: JobId, m: MessageId, w: nat, now: real) returns (step: Step, t: System)
    requires IngestPolicy(p) && Awaiting(s, j, m) && DueBy(s.core.db, m, now)
    requires w in s.core.consumers && s.core.consumers[w] == Delivery.Selected(m)
    ensures TakesStep(p, s, step, t) && Awaiting(t, j, m) && AboutToLoad(t, w, m, now)
    ensures t.jobs == s.jobs && t.journal == s.journal
  {
    var owner := FreshNat(s.core.issued);
    var a := Delivery.Action.Take(w, owner, now);
    t := s.(core := Delivery.Next(p, s.core, a), handlers := HandlersAfter(p, s, a));
    step := Deliver(a, now);
  }

  /** It finds the job live and at the command's own position. */
  lemma Loads(p: Policy, cfg: Config, s: System, j: JobId, m: MessageId, w: nat, now: real)
    returns (step: Step, t: System)
    requires cfg.Valid() && CommandsSound(s) && Delivery.LeasesSound(s.core) && Serving(s)
    requires Awaiting(s, j, m) && AboutToLoad(s, w, m, now) && !Barred(s.journal, s.jobs[j].source)
    ensures TakesStep(p, s, step, t) && Open(t, w, j, now)
  {
    assert Serves(s, w) && PayloadOf(s, w).Command?;
    var next := LoadFindsJob(s, w);
    LoadedOpen(s, j, m, w, next, now);
    t := Goto(s, w, next);
    step := Handle(w, Quiet, now, cfg);
    LoadTaken(p, cfg, s, w, next, now);
  }

  lemma LoadedOpen(s: System, j: JobId, m: MessageId, w: nat, next: Handler, now: real)
    requires Awaiting(s, j, m) && AboutToLoad(s, w, m, now) && !Barred(s.journal, s.jobs[j].source)
    requires LoadNext(s, w, next)
    ensures Open(Goto(s, w, next), w, j, now)
  {
  }

  lemma LoadTaken(p: Policy, cfg: Config, s: System, w: nat, next: Handler, now: real)
    requires cfg.Valid() && w in s.handlers && s.handlers[w].Load? && LoadNext(s, w, next)
    ensures TakesStep(p, s, Handle(w, Quiet, now, cfg), Goto(s, w, next))
  {
    assert Goto(s, w, next).handlers[w] == next;
  }

  lemma LoadSucceeds(p: Policy, cfg: Config, s0: System, s: System, j: JobId, m: MessageId, w: nat, now: real)
    requires cfg.Valid() && Reachable(p, s0) && Leads(p, s0, s)
    requires Awaiting(s, j, m) && AboutToLoad(s, w, m, now) && !Barred(s.journal, s.jobs[j].source)
    ensures MaySucceed(p, s0, j)
  {
    LeadsGood(p, s0, s);
    var step, t := Loads(p, cfg, s, j, m, w, now);
    LeadsOn(p, s0, s, step, t);
    OpenSucceeds(p, cfg, s0, t, w, j, now);
  }

  lemma SelectSucceeds(p: Policy, cfg: Config, s0: System, s: System, j: JobId, m: MessageId, now: real)
    requires cfg.Valid() && Reachable(p, s0) && Leads(p, s0, s)
    requires Awaiting(s, j, m) && DueBy(s.core.db, m, now) && !OpenDead(s.core.db, m)
    requires !Barred(s.journal, s.jobs[j].source)
    ensures MaySucceed(p, s0, j)
  {
    var w, select, t := Selects(p, s, j, m, now);
    LeadsOn(p, s0, s, select, t);
    var take, u := Takes(p, t, j, m, w, now);
    LeadsOn(p, s0, t, take, u);
    LoadSucceeds(p, cfg, s0, u, j, m, w, now);
  }

  /** A live job that is not barred: its current command is replayed if it was given up, taken when it is due and
      every older lease has run out, and served. */
  lemma LiveSucceeds(p: Policy, cfg: Config, s0: System, s: System, j: JobId)
    requires cfg.Valid() && Reachable(p, s0) && Leads(p, s0, s) && j in s.jobs && !Terminal(s.jobs[j].status)
    requires !Barred(s.journal, s.jobs[j].source)
    ensures MaySucceed(p, s0, j)
  {
    var m := CommandAwaits(p, s0, s, j);
    var now := SomeReading(s.core.db, m);
    if OpenDead(s.core.db, m) {
      var step, t := Replays(p, s, j, m, now);
      LeadsOn(p, s0, s, step, t);
      SelectSucceeds(p, cfg, s0, t, j, m, now);
    } else {
      SelectSucceeds(p, cfg, s0, s, j, m, now);
    }
  }

  lemma CommandAwaits(p: Policy, s0: System, s: System, j: JobId) returns (m: MessageId)
    requires Reachable(p, s0) && Leads(p, s0, s) && j in s.jobs && !Terminal(s.jobs[j].status)
    ensures Awaiting(s, j, m)
  {
    LeadsGood(p, s0, s);
    m := CurrentCommandIn(s, j);
    assert Commands(s.core.db.outbox[m], j, s.jobs[j].cursor.generation, s.jobs[j].cursor.step);
  }

  /** A job that failed is first retried. */
  lemma RetryStarts(p: Policy, s: System, j: JobId) returns (step: Step, t: System)
    requires Delivery.IndexSound(s.core.db) && CommandsSound(s)
    requires j in s.jobs && Terminal(s.jobs[j].status) && !s.jobs[j].status.Succeeded?
    ensures TakesStep(p, s, step, t) && j in t.jobs && !Terminal(t.jobs[j].status)
    ensures t.journal == s.journal && t.jobs[j].source == s.jobs[j].source
  {
    var job := Retried(s.jobs[j]);
    FreshKey(s, j, job.cursor.generation);
    var id := FreshNat(s.core.db.outbox.Keys);
    var a := EnqueueCommand(j, job.source, job.cursor.generation, id, 0.0);
    t := s.(jobs := s.jobs[j := job], core := Delivery.Next(p, s.core, a));
    step := Retry(j, true, id, 0.0);
  }

  lemma UnbarredSucceeds(p: Policy, cfg: Config, s: System, j: JobId)
    requires cfg.Valid() && Reachable(p, s) && j in s.jobs && !Barred(s.journal, s.jobs[j].source)
    ensures MaySucceed(p, s, j)
  {
    ReachableGood(p, s);
    LeadsNowhere(p, s);
    if s.jobs[j].status.Succeeded? {
      assert SucceedsAt(p, s, j, s);
    } else if Terminal(s.jobs[j].status) {
      var step, t := RetryStarts(p, s, j);
      LeadsOn(p, s, s, step, t);
      LiveSucceeds(p, cfg, s, t, j);
    } else {
      LiveSucceeds(p, cfg, s, s, j);
    }
  }

  // ---- a bar is for good -----------------------------------------------------------------------------------

  lemma PathHistory(p: Policy, states: seq<System>, steps: seq<Step>)
    requires IsPath(p, states, steps) && Good(p, states[0])
    ensures History(states, steps)
  {
    PathTrail(p, states, steps);
    forall i | 0 <= i < |steps| ensures Advances(states[i], steps[i], states[i + 1]) {
      TrailGood(p, states, i);
      StepAdvances(p, states[i], steps[i], states[i + 1]);
    }
  }

  lemma LeadsGrows(p: Policy, s: System, t: System)
    requires Reachable(p, s) && Leads(p, s, t)
    ensures Grows(s.journal, t.journal) && JobsOnward(s, t)
  {
    ReachableGood(p, s);
    var states, steps :| IsPath(p, states, steps) && states[0] == s && states[|steps|] == t;
    PathHistory(p, states, steps);
    GrowsThroughout(states, steps, 0, |steps|);
  }

  /** A succeeded job's upload operation was recorded for its own source and confirmed. */
  lemma SucceededNotBarred(s: System, j: JobId)
    requires JobsBacked(s) && SucceededBound(s) && j in s.jobs && s.jobs[j].status.Succeeded?
    ensures !Barred(s.journal, s.jobs[j].source)
    ensures UploadKey(UploadIdentity(s.jobs[j].source)) in s.journal
  {
    assert Bound(s, j) && Backed(s.journal, j, s.jobs[j].source, s.jobs[j].cursor);
  }

  lemma BarStays(a: Journal, b: Journal, source: Source)
    requires Grows(a, b) && Barred(a, source)
    ensures Barred(b, source)
  {
    var key := UploadKey(UploadIdentity(source));
    assert GrowsAt(a[key], b[key]);
  }

  lemma SuccessorNotBarred(p: Policy, s: System, j: JobId, t: System)
    requires Reachable(p, s) && j in s.jobs && SucceedsAt(p, s, j, t)
    ensures !Barred(s.journal, s.jobs[j].source)
  {
    LeadsGood(p, s, t);
    LeadsGrows(p, s, t);
    SucceededNotBarred(t, j);
    if Barred(s.journal, s.jobs[j].source) {
      BarStays(s.journal, t.journal, s.jobs[j].source);
    }
  }

  /** In every reachable state, whatever has happened to a job before, some continuation of the run has it succeeded
      if and only if its identity's upload operation was neither inherited from before the journal nor recorded for
      another source. What uploads, parses and leases are in doubt does not matter: the provider can still answer. */
  lemma MaySucceedIff(p: Policy, s: System, j: JobId)
    requires Reachable(p, s) && j in s.jobs
    ensures MaySucceed(p, s, j) <==> !Barred(s.journal, s.jobs[j].source)
  {
    if Barred(s.journal, s.jobs[j].source) {
      if MaySucceed(p, s, j) {
        var t :| SucceedsAt(p, s, j, t);
        SuccessorNotBarred(p, s, j, t);
      }
    } else {
      UnbarredSucceeds(p, Config(120.0, 1.0), s, j);
    }
  }

  // ---- a job that can never succeed ------------------------------------------------------------------------

  /** The same version in the same dataset, from other artifacts. */
  const OTHER := Run.SOURCE.(artifactRefs := "other refs")

  lemma OtherIsBarred()
    ensures UploadIdentity(OTHER) == UploadIdentity(Run.SOURCE)
    ensures Barred(Run.Uploading(Intended), OTHER)
  {
    assert UploadIdentity(OTHER) == UploadIdentity(Run.SOURCE);
    assert Run.INTENT.refs == "refs" && |"refs"| != |OTHER.artifactRefs|;
  }

  lemma OtherSubmitted() returns (step: Step, t: System)
    ensures TakesStep(Run.POLICY, Run.S8, step, t)
    ensures t.jobs == Run.S8.jobs[1 := NewJob(OTHER)] && t.journal == Run.S8.journal
  {
    var a := EnqueueCommand(1, OTHER, 0, 1, 0.0);
    t := Run.S8.(jobs := Run.S8.jobs[1 := NewJob(OTHER)], core := Delivery.Next(Run.POLICY, Run.S8.core, a));
    step := Submit(1, OTHER, 1, 0.0);
  }

  /** A job accepted while another one for the same version has recorded its upload for other artifacts: no retry
      and no recovery ever makes it succeed. */
  lemma AcceptedButBarred() returns (s: System)
    ensures Reachable(Run.POLICY, s) && 1 in s.jobs && s.jobs[1].status.Accepted? && !MaySucceed(Run.POLICY, s, 1)
  {
    Run.CanStartUpload();
    var step;
    step, s := OtherSubmitted();
    ReachableOn(Run.POLICY, Run.S8, step, s);
    OtherIsBarred();
    MaySucceedIff(Run.POLICY, s, 1);
  }

  lemma ReachableOn(p: Policy, s: System, step: Step, t: System)
    requires Reachable(p, s) && TakesStep(p, s, step, t)
    ensures Reachable(p, t)
  {
    var states, steps :| Runs(p, states, steps) && states[|steps|] == s;
    assert Runs(p, states + [t], steps + [step]);
  }
}
