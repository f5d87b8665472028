/** Progress along a run: once nobody has worked on a message for a lease and a backoff, the next reconcile
    puts it back to work, whatever else has happened meanwhile and however the clock has moved. */
module DeliveryProgress {
  import opened Tables
  import opened DeliverySpec
  import opened DeliveryMachine
  import DeliverySafety

  const LONGEST_BACKOFF := 256.0

  /** The actions that start some time running for a message: a publisher's claim and outcome, a consumer's
      claim and renewal. */
  predicate WorksOn(s: System, a: Action, id: MessageId) {
    match a
    case ClaimDelivery(_, m, _, _) => m == id
    case FinishDelivery(pub, _, _) => pub in s.publishers && s.publishers[pub].id == id
    case Take(w, _, _) => w in s.consumers && s.consumers[w].Selected? && s.consumers[w].id == id
    case Renew(w, _) => HasLease(s, w) && s.consumers[w].lease.message == id
    case _ => false
  }

  /** Among the first n actions of the run, those that work on the message read the clock by r. */
  ghost predicate LastWorkedOn(states: seq<System>, actions: seq<Action>, n: nat, id: MessageId, r: real)
    requires n <= |actions| < |states|
  {
    forall i :: 0 <= i < n && WorksOn(states[i], actions[i], id) ==> actions[i].now <= r
  }

  predicate RowSettled(p: Policy, m: Message, r: real) {
    && (m.leaseExpires.Some? ==> m.leaseExpires.value <= r + p.lease)
    && (m.publishedAt.Some? ==> m.publishedAt.value <= r)
    && (m.availableAt.At? ==> m.availableAt.at <= r + LONGEST_BACKOFF || m.availableAt == Due(m.intent))
  }

  /** All that still runs for the message runs out within a lease and a backoff of r. */
  ghost predicate Settled(p: Policy, db: Db, id: MessageId, r: real) {
    && (id in db.outbox ==> RowSettled(p, db.outbox[id], r))
    && forall k :: k in db.execution && db.execution[k].message == id ==> Reached(db.execution[k].expires, r + p.lease)
  }

  lemma SettledStep(p: Policy, s: System, a: Action, id: MessageId, r: real)
    requires p.Valid() && Enabled(p, s, a) && Settled(p, s.db, id, r) && (WorksOn(s, a, id) ==> a.now <= r)
    ensures Settled(p, Next(p, s, a).db, id, r)
  {
    if a.FinishDelivery? {
      DeliverySafety.BackoffLevels(s.publishers[a.p].attempts);
    }
  }

  lemma {:induction false} SettledRun(p: Policy, states: seq<System>, actions: seq<Action>, n: nat, id: MessageId,
                                      r: real)
    requires p.Valid() && IsRun(p, states, actions) && n <= |actions| && LastWorkedOn(states, actions, n, id, r)
    ensures Settled(p, states[n].db, id, r)
  {
    if n > 0 {
      SettledRun(p, states, actions, n - 1, id, r);
      SettledStep(p, states[n - 1], actions[n - 1], id, r);
    }
  }

  /** The reading lies beyond everything that was started for the message by r. */
  predicate LongAfter(p: Policy, i: Intent, r: real, now: real) {
    now > r + p.lease && now >= r + LONGEST_BACKOFF && (i.notBefore.Some? ==> now >= i.notBefore.value)
  }

  lemma SettledIsUnstuck(p: Policy, db: Db, id: MessageId, r: real, now: real)
    requires Shapes(db) && id in db.outbox && Settled(p, db, id, r) && LongAfter(p, db.outbox[id].intent, r, now)
    requires db.outbox[id].intent.topic in p.topics && p.topics[db.outbox[id].intent.topic].Some?
    requires (p.topics[db.outbox[id].intent.topic].value, id) !in db.inbox && !OpenDead(db, id)
    ensures Claimable(Reconcile(db, p, now), p, id, now) || OpenDead(Reconcile(db, p, now), id)
  {
    var after := Reconcile(db, p, now);
    assert RowShape(db.outbox[id]);
    assert !ActiveExecution(db, id, now);
    if Buries(db, p, id, now) {
      assert after.dead[id] == DeadLetter(BuryReason(db.outbox[id]), now, None);
    } else {
      assert !OpenDead(after, id);
    }
  }

  /** A reconcile at this reading leaves the message acknowledged, claimable, or in the dead-letter journal. */
  predicate Recovered(p: Policy, db: Db, id: MessageId, now: real)
    requires id in db.outbox && db.outbox[id].intent.topic in p.topics && p.topics[db.outbox[id].intent.topic].Some?
  {
    var after := Reconcile(db, p, now);
    || (p.topics[db.outbox[id].intent.topic].value, id) in after.inbox
    || Claimable(after, p, id, now)
    || OpenDead(after, id)
  }

  /** At any point of any run: if nobody has worked on a message since the reading r, then a reconcile more
      than a lease and a backoff after r, and not before the message's time, leaves the message
      acknowledged, claimable, or in the dead-letter journal. */
  lemma ReconcileRecovers(p: Policy, states: seq<System>, actions: seq<Action>, n: nat, id: MessageId, r: real,
                          now: real)
    requires p.Valid() && IsRun(p, states, actions) && n <= |actions| && LastWorkedOn(states, actions, n, id, r)
    requires var db := states[n].db;
      && id in db.outbox && LongAfter(p, db.outbox[id].intent, r, now)
      && db.outbox[id].intent.topic in p.topics && p.topics[db.outbox[id].intent.topic].Some?
    ensures Recovered(p, states[n].db, id, now)
  {
    RunInv(p, states, actions, n);
    SettledRun(p, states, actions, n, id, r);
    var db := states[n].db;
    if OpenDead(db, id) {
      StillDead(p, db, id, now);
    } else if (p.topics[db.outbox[id].intent.topic].value, id) !in db.inbox {
      SettledIsUnstuck(p, db, id, r, now);
    }
  }

  /** A reading by which all the work on the message so far was done. */
  lemma {:induction false} LatestWork(states: seq<System>, actions: seq<Action>, n: nat, id: MessageId)
    returns (r: real)
    requires n <= |actions| < |states|
    ensures LastWorkedOn(states, actions, n, id, r)
  {
    r := 0.0;
    if n > 0 {
      r := LatestWork(states, actions, n - 1, id);
      if WorksOn(states[n - 1], actions[n - 1], id) && actions[n - 1].now > r {
        r := actions[n - 1].now;
      }
    }
  }

  /** No message is ever stranded: whatever a run has done to it, every reconcile from some reading on leaves it
      acknowledged, claimable, or in the dead-letter journal. */
  lemma NeverStranded(p: Policy, states: seq<System>, actions: seq<Action>, n: nat, id: MessageId) returns (t: real)
    requires p.Valid() && IsRun(p, states, actions) && n <= |actions|
    requires var db := states[n].db;
      id in db.outbox && db.outbox[id].intent.topic in p.topics && p.topics[db.outbox[id].intent.topic].Some?
    ensures forall now :: now >= t ==> Recovered(p, states[n].db, id, now)
  {
    var r := LatestWork(states, actions, n, id);
    var i := states[n].db.outbox[id].intent;
    t := r + p.lease + LONGEST_BACKOFF + 1.0;
    if i.notBefore.Some? && i.notBefore.value > t {
      t := i.notBefore.value;
    }
    forall now | now >= t ensures Recovered(p, states[n].db, id, now) {
      ReconcileRecovers(p, states, actions, n, id, r, now);
    }
  }

  /** Reconcile never closes a dead letter. */
  lemma StillDead(p: Policy, db: Db, id: MessageId, now: real)
    requires OpenDead(db, id)
    ensures OpenDead(Reconcile(db, p, now), id)
  {
  }
}
