/** What the delivery protocol guarantees over whole runs, for arbitrary clock readings, including readings that
    go backward. */
module DeliverySafety {
  import opened Tables
  import opened DeliverySpec
  import opened DeliveryMachine

  // ---- at most once --------------------------------------------------------------------------

  /** How many of the first n actions are final handler commits of the message. */
  ghost function FinalCommits(states: seq<System>, actions: seq<Action>, id: MessageId, n: nat): nat
    requires n <= |actions| < |states|
  {
    if n == 0 then 0
    else FinalCommits(states, actions, id, n - 1) + if CommitsFor(states[n - 1], actions[n - 1], id) then 1 else 0
  }

  predicate CommitsFor(s: System, a: Action, id: MessageId) {
    a.Commit? && IsRunning(s, a.w) && s.consumers[a.w].lease.message == id
  }

  lemma {:induction false} CounterCounts(p: Policy, states: seq<System>, actions: seq<Action>, id: MessageId, n: nat)
    requires p.Valid() && IsRun(p, states, actions) && n <= |actions|
    ensures FinalCommits(states, actions, id, n) == Handled(states[n], id)
  {
    if n > 0 {
      CounterCounts(p, states, actions, id, n - 1);
      StepTables(p, states[n - 1], actions[n - 1]);
    }
  }

  /** A message's final handler transaction commits at most once in any run, and exactly when its
      inbox row exists. */
  lemma AtMostOnce(p: Policy, states: seq<System>, actions: seq<Action>, id: MessageId, n: nat)
    requires p.Valid() && IsRun(p, states, actions) && n <= |actions|
    ensures FinalCommits(states, actions, id, n) <= 1
    ensures FinalCommits(states, actions, id, n) == 1 <==>
      id in states[n].db.outbox && (states[n].db.outbox[id].intent.topic, id) in states[n].db.inbox
  {
    CounterCounts(p, states, actions, id, n);
    RunInv(p, states, actions, n);
  }

  // ---- fencing -------------------------------------------------------------------------------

  /** Superseded by another claim, or released: no expiry can bring this lease back. */
  predicate Lost(db: Db, l: Lease) {
    Names(db, l) ==> db.execution[l.resource].expires.NegInfinity?
  }

  predicate Issued(db: Db, l: Lease) {
    l.resource in db.execution && l.epoch <= db.execution[l.resource].epoch
  }

  /** Every successful upsert raises its resource's epoch by one and so supersedes every lease issued
      before on that resource; a release by the holder loses its own. */
  lemma TakeSupersedes(p: Policy, s: System, w: nat, owner: Owner, now: real, l: Lease)
    requires Enabled(p, s, Take(w, owner, now)) && Issued(s.db, l)
    requires l.resource == Resource(s.db.outbox[s.consumers[w].id].intent)
    ensures !Names(Next(p, s, Take(w, owner, now)).db, l)
    ensures Next(p, s, Take(w, owner, now)).db.execution[l.resource].epoch == s.db.execution[l.resource].epoch + 1
  {
  }

  lemma ReleaseLoses(p: Policy, s: System, w: nat)
    requires Enabled(p, s, Action.Release(w)) && LeasesSound(s)
    ensures var t, l := Next(p, s, Action.Release(w)), s.consumers[w].lease;
      Issued(t.db, l) && Lost(t.db, l)
  {
    assert LeaseSound(s.db, s.consumers[w].lease);
  }

  lemma LostStep(p: Policy, s: System, a: Action, l: Lease)
    requires Enabled(p, s, a) && Issued(s.db, l) && Lost(s.db, l)
    ensures Issued(Next(p, s, a).db, l) && Lost(Next(p, s, a).db, l)
  {
  }

  /** Released stays released and superseded stays superseded: from then on the lease passes no guard
      at any clock reading, and releasing it late changes nothing. */
  lemma {:induction false} LostForever(p: Policy, states: seq<System>, actions: seq<Action>, l: Lease, i: nat, j: nat)
    requires IsRun(p, states, actions) && i <= j < |states|
    requires Issued(states[i].db, l) && Lost(states[i].db, l)
    ensures Issued(states[j].db, l) && Lost(states[j].db, l)
    ensures forall now :: !Guard(states[j].db, l, now)
    ensures DeliverySpec.Release(states[j].db, l) == states[j].db
    decreases j
  {
    if i < j {
      LostForever(p, states, actions, l, i, j - 1);
      LostStep(p, states[j - 1], actions[j - 1], l);
    }
    if Names(states[j].db, l) {
      assert DeliverySpec.Release(states[j].db, l).execution == states[j].db.execution;
    }
  }

  /** After a release, by a handler that finished or one that failed, its lease passes no guard ever again. */
  lemma ReleasedForever(p: Policy, states: seq<System>, actions: seq<Action>, w: nat, i: nat, j: nat)
    requires p.Valid() && IsRun(p, states, actions) && i < j < |states| && actions[i] == Action.Release(w)
    ensures forall now :: !Guard(states[j].db, states[i].consumers[w].lease, now)
  {
    RunInv(p, states, actions, i);
    ReleaseLoses(p, states[i], w);
    LostForever(p, states, actions, states[i].consumers[w].lease, i + 1, j);
  }

  lemma EpochStep(p: Policy, states: seq<System>, actions: seq<Action>, r: string, j: nat)
    requires IsRun(p, states, actions) && j < |actions| && r in states[j].db.execution
    ensures r in states[j + 1].db.execution
    ensures SameOrLater(states[j].db.execution[r], states[j + 1].db.execution[r])
  {
    EpochsGrow(p, states[j], actions[j]);
  }

  predicate SameOrLater(a: Execution, b: Execution) {
    a.epoch < b.epoch || (a.epoch == b.epoch && a.owner == b.owner && a.message == b.message)
  }

  /** Epochs of a resource never fall along a run; an equal epoch means the same owner and message. */
  lemma {:induction false} EpochMonotone(p: Policy, states: seq<System>, actions: seq<Action>, r: string, i: nat,
                                         j: nat)
    requires IsRun(p, states, actions) && i <= j < |states| && r in states[i].db.execution
    ensures r in states[j].db.execution && SameOrLater(states[i].db.execution[r], states[j].db.execution[r])
    decreases j
  {
    if i < j {
      EpochMonotone(p, states, actions, r, i, j - 1);
      EpochStep(p, states, actions, r, j - 1);
    }
  }

  // ---- how long a lease lasts --------------------------------------------------------------------

  /** A consumer that gets its lease passes the guard until the lease runs out, a renewal starts the time
      afresh, and nobody else can claim the resource meanwhile. */
  lemma ConsumerLeaseLasts(p: Policy, s: System, w: nat, owner: Owner, now: real, later: real)
    requires Enabled(p, s, Take(w, owner, now)) && IsRunning(Next(p, s, Take(w, owner, now)), w)
    ensures var t := Next(p, s, Take(w, owner, now));
      var l := t.consumers[w].lease;
      && (Guard(t.db, l, later) <==> later < now + p.lease)
      && (Free(t.db, l.resource, later) <==> later >= now + p.lease)
      && (Guard(t.db, l, later) ==>
            forall last :: Guard(DeliverySpec.Renew(t.db, p, l, later), l, last) <==> last < later + p.lease)
  {
  }

  // ---- retry budget --------------------------------------------------------------------------

  /** A publisher takes over the expired lease of a row that has no attempts left. */
  predicate SpentTakeover(p: Policy, s: System, a: Action, id: MessageId) {
    && a.ClaimDelivery? && a.id == id && id in s.db.outbox
    && s.db.outbox[id].status.Delivering? && s.db.outbox[id].attempts >= p.maxAttempts
  }

  /** One claim pushes a row past its budget exactly when it is such a takeover. */
  lemma ClaimExceedsIff(p: Policy, s: System, a: Action)
    requires Inv(p, s) && Enabled(p, s, a) && a.ClaimDelivery?
    ensures Next(p, s, a).db.outbox[a.id].attempts > p.maxAttempts <==> SpentTakeover(p, s, a, a.id)
  {
  }

  lemma AttemptsFrame(p: Policy, s: System, a: Action, id: MessageId)
    requires p.Valid() && Enabled(p, s, a) && Shapes(s.db) && WithinBudget(p, s.db) && !SpentTakeover(p, s, a, id)
    requires id in Next(p, s, a).db.outbox && Next(p, s, a).db.outbox[id].attempts > p.maxAttempts
    ensures id in s.db.outbox && s.db.outbox[id].attempts > p.maxAttempts
  {
  }

  lemma BudgetStep(p: Policy, states: seq<System>, actions: seq<Action>, id: MessageId, i: nat)
    requires p.Valid() && IsRun(p, states, actions) && 0 < i < |states|
    requires id in states[i].db.outbox && states[i].db.outbox[id].attempts > p.maxAttempts
    ensures SpentTakeover(p, states[i - 1], actions[i - 1], id) ||
      (id in states[i - 1].db.outbox && states[i - 1].db.outbox[id].attempts > p.maxAttempts)
  {
    RunInv(p, states, actions, i - 1);
    if !SpentTakeover(p, states[i - 1], actions[i - 1], id) {
      AttemptsFrame(p, states[i - 1], actions[i - 1], id);
    }
  }

  /** A row over budget anywhere in a run proves that an earlier takeover of an expired lease put it there. */
  lemma {:induction false} OverBudgetOnlyByTakeover(p: Policy, states: seq<System>, actions: seq<Action>,
                                                    id: MessageId, i: nat)
    returns (k: nat)
    requires p.Valid() && IsRun(p, states, actions) && i < |states|
    requires id in states[i].db.outbox && states[i].db.outbox[id].attempts > p.maxAttempts
    ensures k < i && SpentTakeover(p, states[k], actions[k], id)
  {
    BudgetStep(p, states, actions, id, i);
    if SpentTakeover(p, states[i - 1], actions[i - 1], id) {
      k := i - 1;
    } else {
      k := OverBudgetOnlyByTakeover(p, states, actions, id, i - 1);
    }
  }

  /** An acknowledged message is dead-lettered exactly when reconcile finds its attempts spent without a
      live publisher lease, or its last publisher reports an error: neither looks at the inbox. */
  lemma BuriedThoughAcknowledgedIff(p: Policy, s: System, a: Action, id: MessageId)
    requires Enabled(p, s, a) && id in s.db.outbox && !OpenDead(s.db, id)
    requires var topic := s.db.outbox[id].intent.topic;
      topic in p.topics && p.topics[topic] == Some(topic) && (topic, id) in s.db.inbox
    ensures OpenDead(Next(p, s, a).db, id) <==>
      || (a.ReconcileRow? && a.id == id && Exhausted(s.db, p, id, a.now))
      || (a.FinishDelivery? && s.publishers[a.p].id == id && a.error.Some?
          && s.publishers[a.p].attempts >= p.maxAttempts)
  {
  }

  /** The publish backoff doubles from one second and levels off at 256: the cap of 300 is never reached. */
  lemma {:induction false} BackoffLevels(attempts: nat)
    ensures attempts < 8 ==> Backoff(attempts + 1) == 2.0 * Backoff(attempts)
    ensures attempts >= 8 ==> Backoff(attempts) == 256.0
    ensures 1.0 <= Backoff(attempts) <= 256.0
  {
  }

  /** Right after reconcile nothing is left for either of its passes at the same reading: no exhausted
      expired lease without a dead letter, no overdue unacknowledged publish. */
  lemma ReconcileSettles(p: Policy, db: Db, now: real, id: MessageId)
    ensures !Exhausted(Reconcile(db, p, now), p, id, now)
    ensures !Unacknowledged(Reconcile(db, p, now), p, id, now)
  {
  }

  // ---- reconcile as a transaction is a run of row steps -----------------------------------------

  ghost predicate Reaches(p: Policy, s: System, actions: seq<Action>, t: System)
    decreases |actions|
  {
    if actions == [] then s == t
    else Enabled(p, s, actions[0]) && Reaches(p, Next(p, s, actions[0]), actions[1..], t)
  }

  predicate Affected(p: Policy, db: Db, id: MessageId, now: real) {
    Requeues(db, p, id, now) || Buries(db, p, id, now)
  }

  /** Reconciling one row leaves the verdict on every other row alone. */
  lemma RowsIndependent(p: Policy, db: Db, id: MessageId, other: MessageId, now: real)
    requires Affected(p, db, id, now) && other != id
    ensures var after := ReconcileOne(db, p, id, now);
      && (Requeues(after, p, other, now) <==> Requeues(db, p, other, now))
      && (Buries(after, p, other, now) <==> Buries(db, p, other, now))
      && (other in db.outbox ==> other in after.outbox && after.outbox[other] == db.outbox[other])
  {
  }

  lemma RowSettled(p: Policy, db: Db, id: MessageId, now: real)
    requires Affected(p, db, id, now)
    ensures !Affected(p, ReconcileOne(db, p, id, now), id, now)
  {
  }

  /** The tables agree on one message. */
  predicate AgreeOn(x: Db, y: Db, id: MessageId) {
    && (id in x.outbox <==> id in y.outbox) && (id in x.outbox && id in y.outbox ==> x.outbox[id] == y.outbox[id])
    && (id in x.dead <==> id in y.dead) && (id in x.dead && id in y.dead ==> x.dead[id] == y.dead[id])
  }

  lemma AgreeEverywhere(x: Db, y: Db)
    requires x.index == y.index && x.inbox == y.inbox && x.execution == y.execution
    requires forall id :: AgreeOn(x, y, id)
    ensures x == y
  {
    forall id: MessageId
      ensures id in x.outbox <==> id in y.outbox
      ensures id in x.dead <==> id in y.dead
      ensures id in x.outbox ==> x.outbox[id] == y.outbox[id]
      ensures id in x.dead ==> x.dead[id] == y.dead[id]
    {
      assert AgreeOn(x, y, id);
    }
    assert x.outbox == y.outbox && x.dead == y.dead;
  }

  lemma RowThenRestAt(p: Policy, db: Db, id: MessageId, other: MessageId, now: real)
    requires Affected(p, db, id, now)
    ensures AgreeOn(Reconcile(ReconcileOne(db, p, id, now), p, now), Reconcile(db, p, now), other)
  {
    if other != id {
      RowsIndependent(p, db, id, other, now);
    } else {
      RowSettled(p, db, id, now);
    }
  }

  /** Reconciling one row first does not change what the whole transaction arrives at. */
  lemma RowThenRest(p: Policy, db: Db, id: MessageId, now: real)
    requires Affected(p, db, id, now)
    ensures Reconcile(ReconcileOne(db, p, id, now), p, now) == Reconcile(db, p, now)
  {
    forall other: MessageId
      ensures AgreeOn(Reconcile(ReconcileOne(db, p, id, now), p, now), Reconcile(db, p, now), other)
    {
      RowThenRestAt(p, db, id, other, now);
    }
    AgreeEverywhere(Reconcile(ReconcileOne(db, p, id, now), p, now), Reconcile(db, p, now));
  }

  lemma RestShrinks(p: Policy, db: Db, id: MessageId, now: real, rows: set<MessageId>)
    requires Affected(p, db, id, now) && rows == set x | x in db.outbox && Affected(p, db, x, now)
    ensures var after := ReconcileOne(db, p, id, now);
      rows - {id} == set x | x in after.outbox && Affected(p, after, x, now)
  {
    RowSettled(p, db, id, now);
    forall x | x != id ensures Affected(p, ReconcileOne(db, p, id, now), x, now) <==> Affected(p, db, x, now) {
      RowsIndependent(p, db, id, x, now);
    }
  }

  lemma NothingAffected(p: Policy, db: Db, now: real)
    requires forall id :: id in db.outbox ==> !Affected(p, db, id, now)
    ensures Reconcile(db, p, now) == db
  {
    assert Reconcile(db, p, now).outbox == db.outbox;
    assert Reconcile(db, p, now).dead == db.dead;
  }

  /** The reconcile transaction has the effect of reconciling its rows one by one, so the machine's
      single-row steps lose no behaviour and its invariants hold of the whole transaction. */
  lemma {:induction false} ReconcileIsRowSteps(p: Policy, s: System, now: real, rows: set<MessageId>)
    returns (actions: seq<Action>)
    requires rows == set id | id in s.db.outbox && Affected(p, s.db, id, now)
    ensures Reaches(p, s, actions, s.(db := Reconcile(s.db, p, now)))
    ensures forall a :: a in actions ==> a.ReconcileRow?
    decreases |rows|
  {
    if rows == {} {
      actions := [];
      NothingAffected(p, s.db, now) by {
        forall id | id in s.db.outbox ensures !Affected(p, s.db, id, now) {
          assert id !in rows;
        }
      }
    } else {
      var id :| id in rows;
      RowThenRest(p, s.db, id, now);
      RestShrinks(p, s.db, id, now, rows);
      var t := s.(db := ReconcileOne(s.db, p, id, now));
      var tail := ReconcileIsRowSteps(p, t, now, rows - {id});
      actions := Prepend(p, s, ReconcileRow(id, now), tail, t.(db := Reconcile(t.db, p, now)));
    }
  }

  lemma Prepend(p: Policy, s: System, a: Action, tail: seq<Action>, t: System) returns (actions: seq<Action>)
    requires Enabled(p, s, a) && Reaches(p, Next(p, s, a), tail, t)
    ensures actions == [a] + tail && Reaches(p, s, actions, t)
  {
    actions := [a] + tail;
    assert actions[1..] == tail;
  }

  // ---- immutable intents and not-before times -------------------------------------------------

  /** A stored message keeps its intent, and its deduplication key keeps meaning that message. */
  lemma {:induction false} IntentForever(p: Policy, states: seq<System>, actions: seq<Action>, id: MessageId, i: nat,
                                         j: nat)
    requires IsRun(p, states, actions) && i <= j < |states| && id in states[i].db.outbox
    ensures Kept(states[i].db, states[j].db, id)
    decreases j
  {
    if i < j {
      IntentForever(p, states, actions, id, i, j - 1);
      KeepsIntent(p, states[j - 1], actions[j - 1], id);
    }
  }

  predicate Kept(was: Db, db: Db, id: MessageId)
    requires id in was.outbox
  {
    id in db.outbox && db.outbox[id].intent == was.outbox[id].intent && db.outbox[id].dedup == was.outbox[id].dedup
  }

  lemma KeepsIntent(p: Policy, s: System, a: Action, id: MessageId)
    requires Enabled(p, s, a) && id in s.db.outbox
    ensures Kept(s.db, Next(p, s, a).db, id)
  {
  }

  /** Whenever two producers in one run succeed with the same deduplication key, they asked for the
      same thing and got the same message. */
  lemma OneIntentPerKey(p: Policy, states: seq<System>, actions: seq<Action>, i: nat, j: nat)
    requires p.Valid() && IsRun(p, states, actions) && i <= j < |actions|
    requires actions[i].Enqueue? && actions[j].Enqueue? && actions[i].event.dedup == actions[j].event.dedup
    ensures actions[i].event.intent == actions[j].event.intent
    ensures i < j ==> states[j + 1].db == states[j].db
  {
    if i < j {
      RunInv(p, states, actions, i);
      var id := states[i + 1].db.index[actions[i].event.dedup];
      assert states[i + 1].db.outbox[id].intent == actions[i].event.intent;
      assert states[i + 1].db.outbox[id].dedup == actions[i].event.dedup;
      IntentForever(p, states, actions, id, i + 1, j);
      RunInv(p, states, actions, j);
    }
  }

  /** However often finish, reconcile and replay rewrite available_at, no publisher claims a message and
      no consumer selects it at a reading before the not-before time it was enqueued with. */
  lemma NeverEarly(p: Policy, states: seq<System>, actions: seq<Action>, i: nat, j: nat, e: Event, id: MessageId,
                   now: real)
    requires p.Valid() && IsRun(p, states, actions) && i < j < |actions|
    requires actions[i].Enqueue? && actions[i].id == id && actions[i].event == e && e.dedup !in states[i].db.index
    requires (actions[j].ClaimDelivery? || actions[j].Select?) && actions[j].id == id && actions[j].now == now
    ensures e.intent.notBefore.Some? ==> e.intent.notBefore.value <= now
  {
    assert states[i + 1].db.outbox[id].intent == e.intent;
    IntentForever(p, states, actions, id, i + 1, j);
  }
}
