/** A concrete run of the whole protocol: an upload, a parse submission, one scheduled poll, success. */
module IngestionWitness {
  import opened Tables
  import opened DeliverySpec
  import opened IngestionSpec
  import opened IngestionMachine
  import opened IngestionTheorems
  import opened IngestionPromises
  import Delivery = DeliveryMachine

  const POLICY := Policy(map[TOPIC := Some(TOPIC)], 60.0, 10)
  const CFG := Config(120.0, 1.0)

  const SOURCE := Source("app", "document", "version", "dataset", "refs")
  const UPLOAD := UploadKey(UploadIdentity(SOURCE))
  const PARSE := ParseKey(UploadIdentity(SOURCE), 0, 0)
  const INTENT := UploadIntentOf(SOURCE, "scope", "dataset", "sha256", "filename")
  const VERIFIED := ConfirmedUpload(INTENT, "document", "name")

  // ---- cursors and journals along the run -------------------------------------------------------------------

  const FRESH := FreshCursor(0, None)
  const UPLOADED := FRESH.(upload := Some(VERIFIED), deadline := Some(120.0), interval := 1.0)
  const POLLING := UPLOADED.(phase := Poll)
  const SCHEDULED := POLLING.(step := 1, readyAt := Some(1.0))

  const UPLOAD_RECEIPT := UploadReceipt("dataset", "document", "filename", "sha256")
  const CONFIRMED_UPLOAD := Operation(INTENT, Confirmed, UPLOAD_RECEIPT)

  function Uploading(state: OpState): Journal {
    map[UPLOAD := Operation(INTENT, state, NoReceipt)]
  }

  function Parsing(state: OpState, receipt: Receipt): Journal {
    map[UPLOAD := CONFIRMED_UPLOAD, PARSE := Operation(ParseIntent("dataset", "document"), state, receipt)]
  }

  const JOURNAL := Parsing(Confirmed, ParseReceipt("document"))

  // ---- the delivery tables along the run -------------------------------------------------------------------

  const FIRST := CommandEvent(0, SOURCE, 0, 0, None)
  const SECOND := CommandEvent(0, SOURCE, 0, 1, Some(1.0))
  const RESOURCE := Resource(FIRST.intent)
  const LEASE1 := Lease(RESOURCE, 0, 1, 1)
  const LEASE2 := Lease(RESOURCE, 1, 2, 2)

  const ONE_COMMAND := Db(map[0 := NewMessage(FIRST, 0.0)], map[FIRST.dedup := 0], {}, map[], map[])
  const TWO_COMMANDS := Db(map[0 := NewMessage(FIRST, 0.0), 1 := NewMessage(SECOND, 0.0)],
                           map[FIRST.dedup := 0, SECOND.dedup := 1], {(TOPIC, 0)}, map[], map[])

  function Core(db: Db, execution: Option<Execution>, consumers: map<nat, Delivery.Consumer>, issued: set<Owner>,
                handled: map<MessageId, nat>): Delivery.System {
    Delivery.System(db.(execution := if execution.Some? then map[RESOURCE := execution.value] else map[]), map[],
                    consumers, issued, handled)
  }

  const SUBMITTED := Core(ONE_COMMAND, None, map[], {}, map[])
  const SELECTED1 := Core(ONE_COMMAND, None, map[0 := Delivery.Selected(0)], {}, map[])
  const TAKEN1 := Core(ONE_COMMAND, Some(Execution(0, 1, 1, At(60.0))), map[0 := Delivery.Running(LEASE1)], {1}, map[])
  const ENQUEUED := Core(TWO_COMMANDS.(inbox := {}), Some(Execution(0, 1, 1, At(60.0))),
                         map[0 := Delivery.Running(LEASE1)], {1}, map[])
  const ACKED1 := Core(TWO_COMMANDS, Some(Execution(0, 1, 1, At(60.0))), map[0 := Delivery.Acked(LEASE1)], {1},
                       map[0 := 1])
  const RELEASED := Core(TWO_COMMANDS, Some(Execution(0, 1, 1, NegInfinity)), map[], {1}, map[0 := 1])
  const SELECTED2 := Core(TWO_COMMANDS, Some(Execution(0, 1, 1, NegInfinity)), map[1 := Delivery.Selected(1)], {1},
                          map[0 := 1])
  const TAKEN2 := Core(TWO_COMMANDS, Some(Execution(1, 2, 2, At(61.0))), map[1 := Delivery.Running(LEASE2)], {1, 2},
                       map[0 := 1])
  const ACKED2 := Core(TWO_COMMANDS.(inbox := {(TOPIC, 0), (TOPIC, 1)}), Some(Execution(1, 2, 2, At(61.0))),
                       map[1 := Delivery.Acked(LEASE2)], {1, 2}, map[0 := 1, 1 := 1])

  /** No job yet, or job 0 with this status and cursor. */
  function State(core: Delivery.System, status: JobStatus, cursor: Cursor, journal: Journal,
                 handlers: map<nat, Handler>, posts: map<OpKey, nat>): System {
    System(core, map[0 := Job(SOURCE, status, cursor)], journal, map[], handlers, posts)
  }

  const NO_POST: map<OpKey, nat> := map[]
  const ONE_POST: map<OpKey, nat> := map[UPLOAD := 1]
  const BOTH_POSTS: map<OpKey, nat> := map[UPLOAD := 1, PARSE := 1]

  // ---- steps --------------------------------------------------------------------------------------------

  /** One step of the machine leads from s to t. */
  ghost predicate Leads(s: System, t: System) {
    exists step :: TakesStep(POLICY, s, step, t)
  }

  lemma Start(s: System)
    requires Initial(s)
    ensures Reachable(POLICY, s)
  {
    var states: seq<System>, steps: seq<Step> := [s], [];
    assert Runs(POLICY, states, steps) && states[|steps|] == s;
  }

  lemma Next(s: System, t: System)
    requires Reachable(POLICY, s) && Leads(s, t)
    ensures Reachable(POLICY, t)
  {
    var step :| TakesStep(POLICY, s, step, t);
    var states, steps :| Runs(POLICY, states, steps) && states[|steps|] == s;
    assert Runs(POLICY, states + [t], steps + [step]);
  }

  lemma FinalLeads(s: System, w: nat, l: Local, o: Outcome, id: MessageId, now: real, t: System)
    requires w in s.handlers && s.handlers[w] == Finish(l, o) && EndsFinal(POLICY, s, w, l, o, id, now, t)
    ensures Leads(s, t)
  {
    assert TakesStep(POLICY, s, End(w, id, now), t);
  }

  lemma DeliveryLeads(s: System, a: Delivery.Action, now: real, t: System)
    requires Delivers(POLICY, s, a, now, t)
    ensures Leads(s, t)
  {
    assert TakesStep(POLICY, s, Deliver(a, now), t);
  }

  lemma HandleLeads(s: System, w: nat, e: Effect, now: real, t: System)
    requires w in s.handlers && w in t.handlers && Continues(CFG, s, w, e, now, t.handlers[w], t)
    ensures Leads(s, t)
  {
    assert TakesStep(POLICY, s, Handle(w, e, now, CFG), t);
  }

  lemma OnlyHandler(s: System, w: nat, h: Handler, next: Handler)
    requires s.handlers == map[w := h]
    ensures Goto(s, w, next) == s.(handlers := map[w := next])
  {
    assert s.handlers[w := next] == map[w := next];
  }

  lemma QuietGoto(s: System, w: nat, h: Handler, now: real, next: Handler)
    requires w in s.handlers && s.handlers[w] == h && (HasLocal(h) ==> h.l.job in s.jobs)
    requires Allows(CFG, s, w, now, h, Quiet, next)
    ensures Leads(s, Goto(s, w, next))
  {
    HandleLeads(s, w, Quiet, now, Goto(s, w, next));
  }

  lemma QuietLeads(s: System, w: nat, h: Handler, now: real, next: Handler)
    requires s.handlers == map[w := h] && (HasLocal(h) ==> h.l.job in s.jobs) && Allows(CFG, s, w, now, h, Quiet, next)
    ensures Leads(s, s.(handlers := map[w := next]))
  {
    QuietGoto(s, w, h, now, next);
    OnlyHandler(s, w, h, next);
  }

  function First(status: JobStatus, cursor: Cursor, journal: Journal, h: Handler, posts: map<OpKey, nat>): System {
    State(TAKEN1, status, cursor, journal, map[0 := h], posts)
  }

  const L0 := Local(0, 0, 0, FRESH, false)
  const L1 := Local(0, 0, 0, UPLOADED, true)
  const L2 := Local(0, 0, 0, UPLOADED, false)
  const L3 := Local(0, 0, 0, POLLING, true)

  lemma FirstPosts(s: System, h: Handler, key: OpKey, next: Handler)
    requires s.core == TAKEN1 && s.handlers == map[0 := h] && (HasLocal(h) ==> h.l.job in s.jobs) && key !in s.posts
    requires Allows(CFG, s, 0, 0.0, h, Post(key), next)
    ensures Leads(s, s.(handlers := map[0 := next], posts := s.posts[key := 1]))
  {
    var t := s.(handlers := map[0 := next], posts := s.posts[key := 1]);
    assert s.handlers[0 := next] == map[0 := next];
    assert Continues(CFG, s, 0, Post(key), 0.0, next, t);
    HandleLeads(s, 0, Post(key), 0.0, t);
  }

  /** The first consumer's lease is live, and its job in its generation. */
  lemma FirstFenced(s: System, l: Local)
    requires s.core == TAKEN1 && 0 in s.jobs && s.jobs[0].cursor.generation == 0 && l.job == 0 && l.generation == 0
    ensures Fenced(s, 0, l, 0.0)
  {
    assert Delivery.IsRunning(s.core, 0) && LeaseOf(s, 0) == LEASE1;
  }

  lemma FirstCommits(status: JobStatus, cursor: Cursor, journal: Journal, h: Handler, posts: map<OpKey, nat>,
                     e: Effect, next: Handler)
    requires HasLocal(h) && h.l.job == 0 && h.l.generation == 0 && cursor.generation == 0 && e.Commit?
    requires Allows(CFG, First(status, cursor, journal, h, posts), 0, 0.0, h, e, next)
    ensures Leads(First(status, cursor, journal, h, posts),
                  First(if e.status.Some? then e.status.value else status, if h.l.dirty then h.l.cursor else cursor,
                        e.journal, next, posts))
  {
    var s := First(status, cursor, journal, h, posts);
    FirstFenced(s, h.l);
    var t := Goto(Committed(s, h.l, e.journal, e.status), 0, next);
    HandleLeads(s, 0, e, 0.0, t);
    assert t.handlers == map[0 := next];
    assert t.jobs == map[0 := Flushed(s.jobs[0], h.l, e.status)];
  }

  // ---- the first command --------------------------------------------------------------------------------

  const INITIALLY := System(Delivery.INITIAL, map[], map[], map[], map[], NO_POST)
  const S1 := State(SUBMITTED, Accepted, FRESH, map[], map[], NO_POST)
  const S2 := State(SELECTED1, Accepted, FRESH, map[], map[], NO_POST)
  const S3 := First(Accepted, FRESH, map[], Load, NO_POST)
  const S4 := First(Accepted, FRESH, map[], MarkRunning(L0), NO_POST)
  const S5 := First(Running, FRESH, map[], Refresh(L0), NO_POST)
  const S6 := First(Running, FRESH, map[], Begin(L0), NO_POST)
  const S7 := First(Running, FRESH, map[], UploadDeclare(L0, INTENT), NO_POST)
  const S8 := First(Running, FRESH, Uploading(Intended), UploadStart(L0, INTENT), NO_POST)
  const S9 := First(Running, FRESH, Uploading(Executing), UploadPost(L0, INTENT), NO_POST)
  const S10 := First(Running, FRESH, Uploading(Executing), UploadConfirm(L0, INTENT, "document"), ONE_POST)
  const S11 := First(Running, FRESH, map[UPLOAD := CONFIRMED_UPLOAD], ParseDeclare(L1), ONE_POST)
  const S12 := First(Running, UPLOADED, Parsing(Intended, NoReceipt), ParseCheck(L2), ONE_POST)
  const S13 := First(Running, UPLOADED, Parsing(Intended, NoReceipt), ParseStart(L2), ONE_POST)
  const S14 := First(Running, UPLOADED, Parsing(Executing, NoReceipt), ParsePost(L2), ONE_POST)
  const S15 := First(Running, UPLOADED, Parsing(Executing, NoReceipt), ParseConfirm(L2, None), BOTH_POSTS)
  const S16 := First(Running, UPLOADED, JOURNAL, Finish(L3, Schedule), BOTH_POSTS)
  const S17 := State(ACKED1, Running, SCHEDULED, JOURNAL, map[], BOTH_POSTS)

  lemma Submitting()
    ensures Leads(INITIALLY, S1)
  {
    assert TakesStep(POLICY, INITIALLY, Submit(0, SOURCE, 0, 0.0), S1);
  }

  lemma Selecting()
    ensures Leads(S1, S2)
  {
    var a := Delivery.Select(0, 0, 0.0);
    assert Delivery.Enabled(POLICY, SUBMITTED, a) && Delivery.Next(POLICY, SUBMITTED, a) == SELECTED1;
    DeliveryLeads(S1, a, 0.0, S2);
  }

  lemma Taking()
    ensures Leads(S2, S3)
  {
    var a := Delivery.Take(0, 1, 0.0);
    assert Delivery.Enabled(POLICY, SELECTED1, a) && Delivery.Next(POLICY, SELECTED1, a) == TAKEN1;
    DeliveryLeads(S2, a, 0.0, S3);
  }

  lemma Loading()
    ensures Leads(S3, S4)
  {
    assert LoadNext(S3, 0, MarkRunning(L0));
    QuietLeads(S3, 0, Load, 0.0, MarkRunning(L0));
  }

  lemma Marking()
    ensures Leads(S4, S5)
  {
    FirstCommits(Accepted, FRESH, map[], MarkRunning(L0), NO_POST, Commit(map[], Some(Running)), Refresh(L0));
  }

  lemma Refreshing()
    ensures Leads(S5, S6)
  {
    QuietLeads(S5, 0, Refresh(L0), 0.0, Begin(L0));
  }

  lemma Querying()
    ensures Leads(S6, S7)
  {
    assert BeginNext(CFG, S6, L0, 0.0, UploadDeclare(L0, INTENT));
    QuietLeads(S6, 0, Begin(L0), 0.0, UploadDeclare(L0, INTENT));
  }

  lemma DeclaringUpload()
    ensures Leads(S7, S8)
  {
    assert Declare(map[], UPLOAD, INTENT) == Row(Uploading(Intended));
    FirstCommits(Running, FRESH, map[], UploadDeclare(L0, INTENT), NO_POST, Commit(Uploading(Intended), None),
                 UploadStart(L0, INTENT));
  }

  lemma StartingUpload()
    ensures Leads(S8, S9)
  {
    assert IngestionSpec.Start(Uploading(Intended), UPLOAD) == Uploading(Executing);
    FirstCommits(Running, FRESH, Uploading(Intended), UploadStart(L0, INTENT), NO_POST,
                 Commit(Uploading(Executing), None), UploadPost(L0, INTENT));
  }

  lemma PostingUpload()
    ensures Leads(S9, S10)
  {
    FirstPosts(S9, UploadPost(L0, INTENT), UPLOAD, UploadConfirm(L0, INTENT, "document"));
    assert NO_POST[UPLOAD := 1] == ONE_POST;
  }

  lemma ConfirmingUpload()
    ensures Leads(S10, S11)
  {
    assert Confirm(Uploading(Executing), UPLOAD, UPLOAD_RECEIPT) == map[UPLOAD := CONFIRMED_UPLOAD];
    FirstCommits(Running, FRESH, Uploading(Executing), UploadConfirm(L0, INTENT, "document"), ONE_POST,
                 Commit(map[UPLOAD := CONFIRMED_UPLOAD], None), ParseDeclare(L1));
  }

  lemma DeclaringParse()
    ensures Leads(S11, S12)
  {
    assert Row(Parsing(Intended, NoReceipt)) ==
           Declare(map[UPLOAD := CONFIRMED_UPLOAD], PARSE, ParseIntent("dataset", "document"));
    FirstCommits(Running, FRESH, map[UPLOAD := CONFIRMED_UPLOAD], ParseDeclare(L1), ONE_POST,
                 Commit(Parsing(Intended, NoReceipt), None), ParseCheck(L2));
  }

  lemma Checking()
    ensures Leads(S12, S13)
  {
    assert !Unfinished(Parsing(Intended, NoReceipt), UploadIdentity(SOURCE));
    QuietLeads(S12, 0, ParseCheck(L2), 0.0, ParseStart(L2));
  }

  lemma StartingParse()
    ensures Leads(S13, S14)
  {
    assert IngestionSpec.Start(Parsing(Intended, NoReceipt), PARSE) == Parsing(Executing, NoReceipt);
    FirstCommits(Running, UPLOADED, Parsing(Intended, NoReceipt), ParseStart(L2), ONE_POST,
                 Commit(Parsing(Executing, NoReceipt), None), ParsePost(L2));
  }

  lemma PostingParse()
    ensures Leads(S14, S15)
  {
    FirstPosts(S14, ParsePost(L2), PARSE, ParseConfirm(L2, None));
    assert ONE_POST[PARSE := 1] == BOTH_POSTS;
  }

  lemma ConfirmingParse()
    ensures Leads(S15, S16)
  {
    assert Confirm(Parsing(Executing, NoReceipt), PARSE, ParseReceipt("document")) == JOURNAL;
    FirstCommits(Running, UPLOADED, Parsing(Executing, NoReceipt), ParseConfirm(L2, None), BOTH_POSTS,
                 Commit(JOURNAL, None), Finish(L3, Schedule));
  }

  lemma EnqueuingSecond()
    ensures var a := Delivery.Enqueue(1, SECOND, 0.0);
      Delivery.Enabled(POLICY, TAKEN1, a) && Delivery.Next(POLICY, TAKEN1, a) == ENQUEUED
  {
    assert Delivery.Next(POLICY, TAKEN1, Delivery.Enqueue(1, SECOND, 0.0)).db == ENQUEUED.db;
  }

  lemma AcknowledgingFirst()
    ensures var a := Delivery.Commit(0, 0.0);
      Delivery.Enabled(POLICY, ENQUEUED, a) && Delivery.Next(POLICY, ENQUEUED, a) == ACKED1
  {
    assert Delivery.Next(POLICY, ENQUEUED, Delivery.Commit(0, 0.0)).db == ACKED1.db;
  }

  /** Cursor, successor command and receipt in one transaction. */
  lemma SchedulingTables()
    ensures FinalCore(POLICY, S16, 0, L3, Schedule, 1, 0.0, ACKED1)
  {
    assert Pow2(0) == 1;
    assert SuccessorEvent(S16, L3, 0.0) == SECOND;
    EnqueuingSecond();
    AcknowledgingFirst();
  }

  lemma SchedulingJob()
    ensures FinalJob(S16.jobs[0], L3, Schedule, 0.0) == Some(Job(SOURCE, Running, SCHEDULED))
    ensures Scheduled(POLLING, 0.0) == SCHEDULED
  {
    assert Pow2(0) == 1;
  }

  lemma SchedulesFinally()
    ensures EndsFinal(POLICY, S16, 0, L3, Schedule, 1, 0.0, S17)
  {
    SchedulingTables();
    SchedulingJob();
    FirstFenced(S16, L3);
  }

  lemma Scheduling()
    ensures Leads(S16, S17)
  {
    SchedulesFinally();
    FinalLeads(S16, 0, L3, Schedule, 1, 0.0, S17);
  }

  // ---- the poll -----------------------------------------------------------------------------------------

  function Second(h: Handler): System {
    State(TAKEN2, Running, SCHEDULED, JOURNAL, map[1 := h], BOTH_POSTS)
  }

  const L4 := Local(0, 0, 1, SCHEDULED, false)
  const L5 := Local(0, 0, 1, SCHEDULED, true)

  const S18 := State(RELEASED, Running, SCHEDULED, JOURNAL, map[], BOTH_POSTS)
  const S19 := State(SELECTED2, Running, SCHEDULED, JOURNAL, map[], BOTH_POSTS)
  const S20 := Second(Load)
  const S21 := Second(Begin(L4))
  const S22 := Second(PollCheck(L5))
  const S23 := Second(Finish(L5, Succeed))
  const S24 := State(ACKED2, Succeeded, SCHEDULED, JOURNAL, map[], BOTH_POSTS)
    .(versions := map[VersionOf(SOURCE) := VersionRow(0, "dataset", "document")])

  lemma ReleasingCore()
    ensures var a := Delivery.Action.Release(0);
      Delivery.Enabled(POLICY, ACKED1, a) && Delivery.Next(POLICY, ACKED1, a) == RELEASED
  {
    assert Delivery.Next(POLICY, ACKED1, Delivery.Action.Release(0)).db == RELEASED.db;
  }

  lemma Releasing()
    ensures Leads(S17, S18)
  {
    ReleasingCore();
    DeliveryLeads(S17, Delivery.Action.Release(0), 1.0, S18);
  }

  lemma SelectingAgain()
    ensures Leads(S18, S19)
  {
    var a := Delivery.Select(1, 1, 1.0);
    assert Delivery.Enabled(POLICY, RELEASED, a) && Delivery.Next(POLICY, RELEASED, a) == SELECTED2;
    DeliveryLeads(S18, a, 1.0, S19);
  }

  lemma TakingAgainCore()
    ensures var a := Delivery.Take(1, 2, 1.0);
      Delivery.Enabled(POLICY, SELECTED2, a) && Delivery.Next(POLICY, SELECTED2, a) == TAKEN2
  {
  }

  lemma TakingAgain()
    ensures Leads(S19, S20)
  {
    var a := Delivery.Take(1, 2, 1.0);
    TakingAgainCore();
    DeliveryLeads(S19, a, 1.0, S20);
  }

  lemma LoadingAgain()
    ensures Leads(S20, S21)
  {
    assert LoadNext(S20, 1, Begin(L4));
    QuietLeads(S20, 1, Load, 1.0, Begin(L4));
  }

  lemma QueryingAgain()
    ensures Leads(S21, S22)
  {
    assert UploadVerified(JOURNAL, SOURCE, VERIFIED, "scope") && BeginNext(CFG, S21, L4, 1.0, PollCheck(L5));
    QuietLeads(S21, 1, Begin(L4), 1.0, PollCheck(L5));
  }

  lemma Polling()
    ensures Leads(S22, S23)
  {
    assert ParseVerified(JOURNAL, SOURCE, 0, 0, VERIFIED);
    QuietLeads(S22, 1, PollCheck(L5), 1.0, Finish(L5, Succeed));
  }

  lemma SucceedingTables()
    ensures FinalCore(POLICY, S23, 1, L5, Succeed, 2, 1.0, ACKED2)
  {
    assert Delivery.Enabled(POLICY, TAKEN2, Delivery.Commit(1, 1.0));
    assert Delivery.Next(POLICY, TAKEN2, Delivery.Commit(1, 1.0)).db == ACKED2.db;
    assert Delivery.Next(POLICY, TAKEN2, Delivery.Commit(1, 1.0)) == ACKED2;
  }

  lemma SecondFenced()
    ensures Fenced(S23, 1, L5, 1.0)
  {
    assert Delivery.IsRunning(S23.core, 1) && LeaseOf(S23, 1) == LEASE2;
  }

  lemma SucceedingJob()
    ensures FinalJob(S23.jobs[0], L5, Succeed, 1.0) == Some(Job(SOURCE, Succeeded, SCHEDULED))
    ensures FinalVersions(S23, L5, Succeed) == map[VersionOf(SOURCE) := VersionRow(0, "dataset", "document")]
  {
  }

  lemma SucceedsFinally()
    ensures EndsFinal(POLICY, S23, 1, L5, Succeed, 2, 1.0, S24)
  {
    SucceedingTables();
    SecondFenced();
    SucceedingJob();
  }

  lemma Succeeding()
    ensures Leads(S23, S24)
  {
    SucceedsFinally();
    FinalLeads(S23, 1, L5, Succeed, 2, 1.0, S24);
  }

  // ---- the run ------------------------------------------------------------------------------------------

  lemma CanBegin()
    ensures Reachable(POLICY, S3)
  {
    Start(INITIALLY);
    Submitting();
    Next(INITIALLY, S1);
    Selecting();
    Next(S1, S2);
    Taking();
    Next(S2, S3);
  }

  lemma CanDeclare()
    ensures Reachable(POLICY, S7)
  {
    CanBegin();
    Loading();
    Next(S3, S4);
    Marking();
    Next(S4, S5);
    Refreshing();
    Next(S5, S6);
    Querying();
    Next(S6, S7);
  }

  lemma CanStartUpload()
    ensures Reachable(POLICY, S8)
  {
    CanDeclare();
    DeclaringUpload();
    Next(S7, S8);
  }

  lemma CanUpload()
    ensures Reachable(POLICY, S11)
  {
    CanStartUpload();
    StartingUpload();
    Next(S8, S9);
    PostingUpload();
    Next(S9, S10);
    ConfirmingUpload();
    Next(S10, S11);
  }

  lemma CanClaimParse()
    ensures Reachable(POLICY, S14)
  {
    CanUpload();
    DeclaringParse();
    Next(S11, S12);
    Checking();
    Next(S12, S13);
    StartingParse();
    Next(S13, S14);
  }

  lemma CanPoll()
    ensures Reachable(POLICY, S17)
  {
    CanClaimParse();
    PostingParse();
    Next(S14, S15);
    ConfirmingParse();
    Next(S15, S16);
    Scheduling();
    Next(S16, S17);
  }

  lemma CanTakeAgain()
    ensures Reachable(POLICY, S20)
  {
    CanPoll();
    Releasing();
    Next(S17, S18);
    SelectingAgain();
    Next(S18, S19);
    TakingAgain();
    Next(S19, S20);
  }

  lemma CanFinish()
    ensures Reachable(POLICY, S24)
  {
    CanTakeAgain();
    LoadingAgain();
    Next(S20, S21);
    QueryingAgain();
    Next(S21, S22);
    Polling();
    Next(S22, S23);
    Succeeding();
    Next(S23, S24);
  }

  /** A run reaches success after one upload POST, one parse POST and one scheduled poll; the domain version
      is bound to the uploaded document and both commands are acknowledged. */
  lemma CanSucceed() returns (s: System)
    ensures Reachable(POLICY, s)
    ensures 0 in s.jobs && s.jobs[0].status.Succeeded? && s.jobs[0].cursor.step == 1
    ensures s.posts == map[UPLOAD := 1, PARSE := 1]
    ensures s.versions == map[VersionOf(SOURCE) := VersionRow(0, "dataset", "document")]
    ensures s.core.db.inbox == {(TOPIC, 0), (TOPIC, 1)}
  {
    CanFinish();
    s := S24;
  }
}
