/** The read-only gauges of one policy topic, and their agreement with what the runtime would do at the
    same reading. */
module DeliveryObservation {
  import opened Tables
  import opened DeliverySpec

  predicate OfTopic(db: Db, topic: string, id: MessageId) {
    id in db.outbox && db.outbox[id].intent.topic == topic
  }

  predicate Receipt(db: Db, p: Policy, topic: string, id: MessageId)
    requires topic in p.topics
  {
    p.topics[topic].Some? && (p.topics[topic].value, id) in db.inbox
  }

  /** Completion as the policy requires it: an inbox row, or a publish when no consumer is named. */
  predicate Done(db: Db, p: Policy, topic: string, id: MessageId)
    requires topic in p.topics && id in db.outbox
  {
    if p.topics[topic].Some? then Receipt(db, p, topic, id) else db.outbox[id].status.Published?
  }

  predicate Publishable(db: Db, p: Policy, topic: string, id: MessageId, now: real)
    requires topic in p.topics
  {
    && OfTopic(db, topic, id) && !Done(db, p, topic, id) && !OpenDead(db, id) && !ActiveExecution(db, id, now)
    && Reached(Due(db.outbox[id].intent), now) && Reached(db.outbox[id].availableAt, now)
    && (db.outbox[id].status.Pending?
        || (db.outbox[id].status.Delivering? && db.outbox[id].leaseExpires.Some?
            && db.outbox[id].leaseExpires.value <= now))
  }

  predicate ReconcileCandidate(db: Db, p: Policy, topic: string, id: MessageId, now: real)
    requires topic in p.topics
  {
    && OfTopic(db, topic, id) && !Done(db, p, topic, id) && !ActiveExecution(db, id, now) && !OpenDead(db, id)
    && p.topics[topic].Some? && db.outbox[id].status.Published?
    && db.outbox[id].publishedAt.Some? && db.outbox[id].publishedAt.value < now - p.lease
  }

  datatype Gauges = Gauges(messages: nat, receipts: nat, incomplete: nat, scheduled: nat, publishable: nat,
                           awaiting: nat, active: nat, expiredLeases: nat, deadLetters: nat, reconcileCandidates: nat)

  function Observe(db: Db, p: Policy, topic: string, now: real): Gauges
    requires topic in p.topics
  {
    var ids := set id | id in db.outbox && OfTopic(db, topic, id);
    Gauges(
      |ids|,
      |set id | id in ids && Receipt(db, p, topic, id)|,
      |set id | id in ids && !Done(db, p, topic, id)|,
      |set id | id in ids && !Done(db, p, topic, id) && !Reached(Due(db.outbox[id].intent), now)|,
      |set id | id in ids && Publishable(db, p, topic, id, now)|,
      |set id | id in ids && !Done(db, p, topic, id) && db.outbox[id].status.Published? && p.topics[topic].Some?|,
      |set id | id in ids && !Done(db, p, topic, id) && ActiveExecution(db, id, now)|,
      |set id | id in ids && !Done(db, p, topic, id) && db.outbox[id].status.Delivering?
                && db.outbox[id].leaseExpires.Some? && db.outbox[id].leaseExpires.value <= now|,
      |set id | id in ids && OpenDead(db, id)|,
      |set id | id in ids && ReconcileCandidate(db, p, topic, id, now)|)
  }

  lemma SplitCount<T>(all: set<T>, part: set<T>, rest: set<T>)
    requires part !! rest && part + rest == all
    ensures |all| == |part| + |rest|
  {
  }

  /** Where a receipt is required, every retained message is counted exactly once as received or incomplete. */
  lemma MessagesConserved(db: Db, p: Policy, topic: string, now: real)
    requires topic in p.topics && p.topics[topic].Some?
    ensures var g := Observe(db, p, topic, now); g.messages == g.receipts + g.incomplete
  {
    var ids := set id | id in db.outbox && OfTopic(db, topic, id);
    SplitCount(ids, set id | id in ids && Receipt(db, p, topic, id), set id | id in ids && !Done(db, p, topic, id));
  }

  /** A published row of the topic that the reconcile transaction changes or dead-letters. */
  predicate TouchedByReconcile(db: Db, p: Policy, topic: string, id: MessageId, now: real) {
    && OfTopic(db, topic, id) && db.outbox[id].status.Published?
    && (Reconcile(db, p, now).outbox[id] != db.outbox[id] || OpenDead(Reconcile(db, p, now), id) != OpenDead(db, id))
  }

  lemma TouchedExactly(db: Db, p: Policy, topic: string, id: MessageId, now: real)
    requires topic in p.topics
    ensures TouchedByReconcile(db, p, topic, id, now) <==> ReconcileCandidate(db, p, topic, id, now)
  {
    if OfTopic(db, topic, id) && db.outbox[id].status.Published? {
      var after := Reconcile(db, p, now);
      assert ReconcileCandidate(db, p, topic, id, now) <==> Unacknowledged(db, p, id, now);
      if Buries(db, p, id, now) {
        assert after.dead[id] == DeadLetter(BuryReason(db.outbox[id]), now, None);
      } else {
        assert OpenDead(after, id) <==> OpenDead(db, id);
      }
    }
  }

  /** reconcile_candidates is exactly the number of published messages of the topic that reconcile, run at
      the same reading, requeues or dead-letters. */
  lemma CandidatesAreReconciled(db: Db, p: Policy, topic: string, now: real)
    requires topic in p.topics
    ensures Observe(db, p, topic, now).reconcileCandidates ==
      |set id | id in db.outbox && TouchedByReconcile(db, p, topic, id, now)|
  {
    var ids := set id | id in db.outbox && OfTopic(db, topic, id);
    var counted := set id | id in ids && ReconcileCandidate(db, p, topic, id, now);
    var touched := set id | id in db.outbox && TouchedByReconcile(db, p, topic, id, now);
    forall id: MessageId ensures id in counted <==> id in touched {
      TouchedExactly(db, p, topic, id, now);
    }
    assert counted == touched;
  }

  /** Publishable means claimable, apart from messages already done or being executed. */
  lemma PublishableIsClaimable(db: Db, p: Policy, topic: string, id: MessageId, now: real)
    requires topic in p.topics
    ensures Publishable(db, p, topic, id, now) <==>
      OfTopic(db, topic, id) && Claimable(db, p, id, now) && !Done(db, p, topic, id) && !ActiveExecution(db, id, now)
  {
  }

  /** A positive gauge promises that claim_delivery has something to return at that reading; when it is
      zero, everything claimable in the topic is already done or being executed. */
  lemma PublishablePromise(db: Db, p: Policy, topic: string, now: real)
    requires topic in p.topics
    ensures Observe(db, p, topic, now).publishable > 0 <==>
      exists id ::
        && OfTopic(db, topic, id) && Claimable(db, p, id, now)
        && !Done(db, p, topic, id) && !ActiveExecution(db, id, now)
  {
    var ids := set id | id in db.outbox && OfTopic(db, topic, id);
    var counted := set id | id in ids && Publishable(db, p, topic, id, now);
    if |counted| > 0 {
      var id :| id in counted;
      PublishableIsClaimable(db, p, topic, id, now);
    }
    forall id |
      && OfTopic(db, topic, id) && Claimable(db, p, id, now)
      && !Done(db, p, topic, id) && !ActiveExecution(db, id, now)
      ensures |counted| > 0
    {
      PublishableIsClaimable(db, p, topic, id, now);
      assert id in counted;
    }
  }
}
