/** The delivery transactions themselves: each method is one database transaction and updates the
    tables in place; its contract gives the whole new state. Clock readings and uuids are parameters. */
module DurableTasks {
  import opened Tables
  import opened DeliverySpec

  class Database {
    var outbox: map<MessageId, Message>
    var index: map<DedupKey, MessageId>
    var inbox: set<(string, MessageId)>
    var execution: map<string, Execution>
    var dead: map<MessageId, DeadLetter>

    constructor ()
      ensures Snapshot() == EMPTY
    {
      outbox, index, inbox, execution, dead := map[], map[], {}, map[], map[];
    }

    function Snapshot(): Db
      reads this
    {
      Db(outbox, index, inbox, execution, dead)
    }
  }

  /** A nonempty finite set of messages has a first one in (created_at, id) order. */
  lemma {:induction false} FirstExists(db: Db, ids: set<MessageId>) returns (first: MessageId)
    requires ids != {} && ids <= db.outbox.Keys
    ensures first in ids && forall other :: other in ids ==> Earlier(db, first, other)
  {
    var x :| x in ids;
    if ids == {x} {
      first := x;
    } else {
      var best := FirstExists(db, ids - {x});
      first := if Earlier(db, x, best) then x else best;
      forall other | other in ids ensures Earlier(db, first, other) {
        assert other == x || other in ids - {x};
      }
    }
  }

  datatype Claimed = Claimed(lease: Lease, message: Message)

  class DurableTasks {
    const db: Database
    const policy: Policy

    constructor (db: Database, policy: Policy)
      ensures this.db == db && this.policy == policy
    {
      this.db := db;
      this.policy := policy;
    }

    /** INSERT ... ON CONFLICT: returns the stored id, or None for a key reused with another intent. */
    method Enqueue(e: Event, id: MessageId, now: real) returns (r: Option<MessageId>)
      requires id !in db.outbox
      modifies db
      ensures r.Some? <==> Accepts(old(db.Snapshot()), e)
      ensures db.Snapshot() ==
        if r.Some? then DeliverySpec.Enqueue(old(db.Snapshot()), id, e, now) else old(db.Snapshot())
      ensures r.Some? ==> e.dedup in db.index && r.value == db.index[e.dedup]
      ensures r.Some? ==> r.value in db.outbox && db.outbox[r.value].intent == e.intent
    {
      if e.dedup in db.index {
        var stored := db.index[e.dedup];
        if stored in db.outbox && db.outbox[stored].intent == e.intent {
          return Some(stored);
        }
        return None;
      }
      db.outbox := db.outbox[id := NewMessage(e, now)];
      db.index := db.index[e.dedup := id];
      r := Some(id);
    }

    /** The earliest claimable row is leased to this publisher; None only when no row is claimable. */
    method ClaimDelivery(owner: Owner, now: real) returns (r: Option<Claim>)
      modifies db
      ensures r.None? <==> forall id :: !Claimable(old(db.Snapshot()), policy, id, now)
      ensures r.None? ==> db.Snapshot() == old(db.Snapshot())
      ensures r.Some? ==>
        && Claimable(old(db.Snapshot()), policy, r.value.id, now)
        && (forall id :: Claimable(old(db.Snapshot()), policy, id, now) ==> Earlier(old(db.Snapshot()), r.value.id, id))
        && db.Snapshot() == DeliverySpec.ClaimDelivery(old(db.Snapshot()), policy, r.value.id, owner, now)
        && r.value == Claim(r.value.id, owner, db.outbox[r.value.id].attempts)
    {
      var snapshot := db.Snapshot();
      var candidates := set id | id in db.outbox && Claimable(snapshot, policy, id, now);
      if candidates == {} {
        assert forall id :: Claimable(snapshot, policy, id, now) ==> id in candidates;
        return None;
      }
      ghost var _ := FirstExists(snapshot, candidates);
      var first :| first in candidates && forall other :: other in candidates ==> Earlier(snapshot, first, other);
      assert forall id :: Claimable(snapshot, policy, id, now) ==> id in candidates;
      db.outbox := db.outbox[first := ClaimRow(db.outbox[first], owner, now, policy.lease)];
      r := Some(Claim(first, owner, db.outbox[first].attempts));
    }

    /** False is DeliveryLeaseLost: a later owner is authoritative and nothing changes. */
    method FinishDelivery(c: Claim, error: Option<string>, now: real) returns (ok: bool)
      modifies db
      ensures ok <==> HoldsDelivery(old(db.Snapshot()), c, now)
      ensures db.Snapshot() ==
        if ok then DeliverySpec.FinishDelivery(old(db.Snapshot()), policy, c, error, now) else old(db.Snapshot())
    {
      if !HoldsDelivery(db.Snapshot(), c, now) {
        return false;
      }
      db.outbox := db.outbox[c.id := FinishRow(db.outbox[c.id], c, error, now)];
      if error.Some? && c.attempts >= policy.maxAttempts {
        db.dead := BuryOne(db.dead, c.id, error.value, now);
      }
      ok := true;
    }

    /** First pass of reconcile: one dead letter for each row found. */
    method BuryExhausted(now: real, ghost was: Db) returns (ghost buried: set<MessageId>)
      requires was == db.Snapshot()
      modifies db`dead
      ensures buried == set id | id in was.outbox && Exhausted(was, policy, id, now)
      ensures PassState(was, db.Snapshot(), buried, {}, now)
    {
      var exhausted := set id | id in db.outbox && Exhausted(db.Snapshot(), policy, id, now);
      ghost var all := exhausted;
      buried := {};
      PassStart(was, now);
      while exhausted != {}
        invariant exhausted <= all && buried == all - exhausted
        invariant PassState(was, db.Snapshot(), buried, {}, now)
        decreases exhausted
      {
        var id :| id in exhausted;
        PassBuries(was, db.Snapshot(), buried, {}, id, now);
        db.dead := BuryOne(db.dead, id, "delivery_attempts_exhausted", now);
        exhausted, buried := exhausted - {id}, buried + {id};
      }
    }

    /** One unacknowledged row: buried when its attempts are spent, otherwise pending again. */
    method RequeueOrBury(id: MessageId, now: real, ghost was: Db, ghost buried: set<MessageId>,
                         ghost requeued: set<MessageId>,
                         ghost done: set<MessageId>)
      returns (again: bool)
      requires id in was.outbox && was.outbox[id].status.Published? && id !in requeued && id !in done
      requires done <= was.outbox.Keys
      requires PassState(was, db.Snapshot(), buried + Spent(was, policy, done), requeued + Kept(was, policy, done), now)
      modifies db`outbox, db`dead
      ensures PassState(was, db.Snapshot(), buried + Spent(was, policy, done + {id}),
                        requeued + Kept(was, policy, done + {id}), now)
      ensures |Kept(was, policy, done + {id})| == |Kept(was, policy, done)| + if again then 1 else 0
    {
      ghost var b, q := buried + Spent(was, policy, done), requeued + Kept(was, policy, done);
      SpentGrows(was, policy, done, id);
      again := db.outbox[id].attempts < policy.maxAttempts;
      if again {
        PassRequeues(was, db.Snapshot(), b, q, id, now);
        db.outbox := db.outbox[id := RequeueRow(db.outbox[id])];
        assert q + {id} == requeued + Kept(was, policy, done + {id});
      } else {
        PassBuries(was, db.Snapshot(), b, q, id, now);
        db.dead := BuryOne(db.dead, id, "consumer_unacknowledged", now);
        assert b + {id} == buried + Spent(was, policy, done + {id});
      }
    }

    /** The rows the second pass found for one topic, one after the other. */
    method RequeueRows(found: set<MessageId>, now: real, ghost was: Db, ghost buried: set<MessageId>,
                       ghost requeued: set<MessageId>)
      returns (count: nat)
      requires PassState(was, db.Snapshot(), buried, requeued, now)
      requires found <= was.outbox.Keys && found !! requeued
      requires forall id :: id in found ==> was.outbox[id].status.Published?
      modifies db`outbox, db`dead
      ensures PassState(was, db.Snapshot(), buried + Spent(was, policy, found),
                        requeued + Kept(was, policy, found), now)
      ensures count == |Kept(was, policy, found)|
    {
      var rows := found;
      ghost var done: set<MessageId> := {};
      count := 0;
      assert buried + Spent(was, policy, {}) == buried && requeued + Kept(was, policy, {}) == requeued;
      while rows != {}
        invariant forall id :: id in found <==> id in rows || id in done
        invariant forall id :: id in rows ==> id !in done
        invariant done <= was.outbox.Keys
        invariant PassState(was, db.Snapshot(), buried + Spent(was, policy, done),
                            requeued + Kept(was, policy, done), now)
        invariant count == |Kept(was, policy, done)|
        decreases rows
      {
        var id :| id in rows;
        assert id in found && id !in done && id !in requeued;
        var again := RequeueOrBury(id, now, was, buried, requeued, done);
        count := count + if again then 1 else 0;
        rows, done := rows - {id}, done + {id};
      }
      assert done == found;
    }

    /** Second pass of reconcile for one topic: requeue, or bury a message whose attempts are spent. */
    method RequeueTopic(topic: string, now: real, ghost was: Db, ghost buried: set<MessageId>,
                        ghost requeued: set<MessageId>)
      returns (count: nat)
      requires topic in policy.topics && policy.topics[topic].Some?
      requires PassState(was, db.Snapshot(), buried, requeued, now)
      requires forall id :: id in requeued ==> was.outbox[id].intent.topic != topic
      requires forall id :: id in buried && was.outbox[id].status.Published? ==> was.outbox[id].intent.topic != topic
      modifies db`outbox, db`dead
      ensures PassState(was, db.Snapshot(), buried + Late(was, policy, topic, now),
                        requeued + Again(was, policy, topic, now), now)
      ensures count == |Again(was, policy, topic, now)|
    {
      var cur := db.Snapshot();
      var rows :=
        set id | id in cur.outbox && cur.outbox[id].intent.topic == topic && Unacknowledged(cur, policy, id, now);
      UnvisitedRows(was, db.Snapshot(), policy, topic, buried, requeued, now);
      SplitRows(was, policy, topic, now, rows);
      count := RequeueRows(rows, now, was, buried, requeued);
    }

    /** A topic without a consumer has no business acknowledgement and is passed over. */
    method RequeueOne(topic: string, now: real, ghost was: Db, ghost buried: set<MessageId>,
                      ghost requeued: set<MessageId>)
      returns (count: nat)
      requires topic in policy.topics && PassState(was, db.Snapshot(), buried, requeued, now)
      requires forall id :: id in requeued ==> was.outbox[id].intent.topic != topic
      requires forall id :: id in buried && was.outbox[id].status.Published? ==> was.outbox[id].intent.topic != topic
      modifies db`outbox, db`dead
      ensures PassState(was, db.Snapshot(), buried + Late(was, policy, topic, now),
                        requeued + Again(was, policy, topic, now), now)
      ensures count == |Again(was, policy, topic, now)|
    {
      if policy.topics[topic].None? {
        assert Late(was, policy, topic, now) == {} && Again(was, policy, topic, now) == {};
        assert buried + {} == buried && requeued + {} == requeued;
        return 0;
      }
      count := RequeueTopic(topic, now, was, buried, requeued);
    }

    /** The second pass, topic by topic. */
    method RequeueTopics(now: real, ghost was: Db, ghost exhausted: set<MessageId>) returns (count: nat)
      requires exhausted == Buried(was, policy, policy.topics.Keys, now)
      requires PassState(was, db.Snapshot(), exhausted, {}, now)
      requires Requeued(was, policy, policy.topics.Keys, now) == {}
      modifies db`outbox, db`dead
      ensures PassState(was, db.Snapshot(), Buried(was, policy, {}, now), Requeued(was, policy, {}, now), now)
      ensures count == |Requeued(was, policy, {}, now)|
    {
      ghost var b, q: set<MessageId> := exhausted, {};
      var topics := policy.topics.Keys;
      count := 0;
      while topics != {}
        invariant topics <= policy.topics.Keys
        invariant b == Buried(was, policy, topics, now) && q == Requeued(was, policy, topics, now)
        invariant PassState(was, db.Snapshot(), b, q, now)
        invariant count == |q|
        decreases topics
      {
        var topic :| topic in topics;
        ghost var b', q' := VisitTopic(was, policy, topic, topics, now);
        var more := RequeueOne(topic, now, was, b, q);
        count := count + more;
        b, q := b', q';
        topics := topics - {topic};
      }
    }

    /** Both passes of reconcile in one transaction; the result counts the requeued messages. */
    method Reconcile(now: real) returns (count: nat)
      modifies db
      ensures db.Snapshot() == DeliverySpec.Reconcile(old(db.Snapshot()), policy, now)
      ensures count == |Requeued(old(db.Snapshot()), policy, {}, now)|
    {
      ghost var was := db.Snapshot();
      ghost var exhausted := BuryExhausted(now, was);
      VisitNone(was, policy, now);
      count := RequeueTopics(now, was, exhausted);
      PassDone(was, db.Snapshot(), policy, now);
    }

    /** False when the message is outside the policy or has no open dead letter. */
    method Replay(id: MessageId, now: real) returns (ok: bool)
      modifies db
      ensures ok <==> Replayable(old(db.Snapshot()), policy, id)
      ensures db.Snapshot() == if ok then DeliverySpec.Replay(old(db.Snapshot()), id, now) else old(db.Snapshot())
    {
      if id !in db.outbox || db.outbox[id].intent.topic !in policy.topics {
        return false;
      }
      if !OpenDead(db.Snapshot(), id) {
        return false;
      }
      db.dead := db.dead[id := db.dead[id].(replayedAt := Some(now))];
      db.outbox := db.outbox[id := ReplayRow(db.outbox[id])];
      ok := true;
    }

    /** First statement of claim_execution: a read that takes no lock. */
    method SelectExecution(id: MessageId, now: real) returns (r: Option<Message>)
      ensures r.Some? <==> Selectable(db.Snapshot(), policy, id, now)
      ensures r.Some? ==> r.value == db.outbox[id]
    {
      if Selectable(db.Snapshot(), policy, id, now) {
        return Some(db.outbox[id]);
      }
      r := None;
    }

    /** The rest of claim_execution: upsert under the row lock, then recheck the inbox. */
    method TakeExecution(id: MessageId, owner: Owner, now: real) returns (r: Option<Claimed>)
      requires id in db.outbox
      modifies db
      ensures var was, i := old(db.Snapshot()), old(db.outbox)[id].intent;
        && (r.Some? <==> Free(was, Resource(i), now) && (i.topic, id) !in was.inbox)
        && db.Snapshot() == (if Free(was, Resource(i), now) then DeliverySpec.TakeExecution(was, policy, id, owner, now)
                             else was)
        && (r.Some? ==> r.value == Claimed(Lease(Resource(i), id, owner, NextEpoch(was, Resource(i))), was.outbox[id]))
        && (r.Some? && policy.Valid() ==> Guard(db.Snapshot(), r.value.lease, now))
    {
      var message := db.outbox[id];
      var resource := Resource(message.intent);
      if !Free(db.Snapshot(), resource, now) {
        return None;
      }
      var epoch := NextEpoch(db.Snapshot(), resource);
      db.execution := db.execution[resource := Execution(id, owner, epoch, At(now + policy.lease))];
      if (message.intent.topic, id) in db.inbox {
        db.execution := db.execution[resource := db.execution[resource].(expires := NegInfinity)];
        return None;
      }
      r := Some(Claimed(Lease(resource, id, owner, epoch), message));
    }

    /** False is DeliveryLeaseLost. */
    method Renew(l: Lease, now: real) returns (ok: bool)
      modifies db
      ensures ok <==> Guard(old(db.Snapshot()), l, now)
      ensures db.Snapshot() == if ok then DeliverySpec.Renew(old(db.Snapshot()), policy, l, now) else old(db.Snapshot())
    {
      ok := Guard(db.Snapshot(), l, now);
      if ok {
        db.execution := db.execution[l.resource := db.execution[l.resource].(expires := At(now + policy.lease))];
      }
    }

    method Release(l: Lease)
      modifies db
      ensures db.Snapshot() == DeliverySpec.Release(old(db.Snapshot()), l)
    {
      if Names(db.Snapshot(), l) {
        db.execution := db.execution[l.resource := db.execution[l.resource].(expires := NegInfinity)];
      }
    }

    /** The last transaction of consume: the inbox insert commits only under the fencing guard. */
    method CommitHandled(l: Lease, now: real) returns (ok: bool)
      requires l.message in db.outbox
      modifies db
      ensures ok <==> Guard(old(db.Snapshot()), l, now)
      ensures db.Snapshot() == if ok then Acknowledge(old(db.Snapshot()), l.message) else old(db.Snapshot())
    {
      ok := Guard(db.Snapshot(), l, now);
      if ok {
        db.inbox := db.inbox + {(db.outbox[l.message].intent.topic, l.message)};
      }
    }

    /** One pump run: reconcile, then claim, publish and finish until nothing is claimable or the limit
        is reached. `failures[i]` is the i-th publish outcome; every transaction has its own reading. */
    method Pump(limit: nat, start: real, owners: seq<Owner>, failures: seq<Option<string>>,
                claimed: seq<real>, finished: seq<real>)
      returns (count: nat)
      requires |owners| == |failures| == |claimed| == |finished| == limit
      modifies db
      ensures count <= limit
      ensures db.Snapshot() == PumpSpec(old(db.Snapshot()), policy, start, owners, failures, claimed, finished, count)
      ensures Busy(old(db.Snapshot()), policy, start, owners, failures, claimed, finished, count)
      ensures count < limit ==> forall id :: !Claimable(db.Snapshot(), policy, id, claimed[count])
    {
      ghost var was := db.Snapshot();
      var _ := Reconcile(start);
      count := 0;
      for i := 0 to limit
        invariant count == i
        invariant db.Snapshot() == PumpSpec(was, policy, start, owners, failures, claimed, finished, i)
        invariant Busy(was, policy, start, owners, failures, claimed, finished, i)
      {
        ghost var before := db.Snapshot();
        var message := ClaimDelivery(owners[i], claimed[i]);
        if message.None? {
          break;
        }
        FirstClaimableUnique(before, policy, message.value.id, claimed[i]);
        var _ := FinishDelivery(message.value, failures[i], finished[i]);
        count := count + 1;
      }
    }
  }

  ghost predicate IsFirst(db: Db, p: Policy, id: MessageId, now: real) {
    Claimable(db, p, id, now) && forall other :: Claimable(db, p, other, now) ==> Earlier(db, id, other)
  }

  ghost function First(db: Db, p: Policy, now: real): Option<MessageId> {
    if exists id :: IsFirst(db, p, id, now) then
      var id :| IsFirst(db, p, id, now); Some(id)
    else None
  }

  lemma FirstClaimableUnique(db: Db, p: Policy, id: MessageId, now: real)
    requires IsFirst(db, p, id, now)
    ensures First(db, p, now) == Some(id)
  {
  }

  /** One claim / publish / finish round of pump. */
  ghost function Round(db: Db, p: Policy, owner: Owner, failure: Option<string>, claimed: real, finished: real): Db {
    match First(db, p, claimed)
    case None => db
    case Some(id) =>
      var after := ClaimDelivery(db, p, id, owner, claimed);
      var c := Claim(id, owner, after.outbox[id].attempts);
      if HoldsDelivery(after, c, finished) then FinishDelivery(after, p, c, failure, finished) else after
  }

  ghost function PumpSpec(db: Db, p: Policy, start: real, owners: seq<Owner>, failures: seq<Option<string>>,
                          claimed: seq<real>, finished: seq<real>, rounds: nat): Db
    requires rounds <= |owners| == |failures| == |claimed| == |finished|
  {
    if rounds == 0 then Reconcile(db, p, start)
    else
      var i := rounds - 1;
      Round(PumpSpec(db, p, start, owners, failures, claimed, finished, i), p, owners[i], failures[i], claimed[i],
            finished[i])
  }

  /** No round was idle: each of them had a message to claim. */
  ghost predicate Busy(db: Db, p: Policy, start: real, owners: seq<Owner>, failures: seq<Option<string>>,
                       claimed: seq<real>, finished: seq<real>, rounds: nat)
    requires rounds <= |owners| == |failures| == |claimed| == |finished|
  {
    rounds == 0 ||
    (var i := rounds - 1;
     Busy(db, p, start, owners, failures, claimed, finished, i)
     && First(PumpSpec(db, p, start, owners, failures, claimed, finished, i), p, claimed[i]).Some?)
  }

  ghost function Reasons(was: Db, ids: set<MessageId>, now: real): map<MessageId, DeadLetter>
    requires ids <= was.outbox.Keys
  {
    map id | id in ids :: DeadLetter(BuryReason(was.outbox[id]), now, None)
  }

  /** Reconcile part-way: exactly `buried` is in the journal and exactly `requeued` is pending again. */
  ghost predicate PassState(was: Db, cur: Db, buried: set<MessageId>, requeued: set<MessageId>, now: real) {
    && buried <= was.outbox.Keys && requeued <= was.outbox.Keys
    && cur.index == was.index && cur.inbox == was.inbox && cur.execution == was.execution
    && cur.outbox ==
       (map id | id in was.outbox :: if id in requeued then RequeueRow(was.outbox[id]) else was.outbox[id])
    && cur.dead == was.dead + Reasons(was, buried, now)
  }

  lemma PassStart(was: Db, now: real)
    ensures PassState(was, was, {}, {}, now)
  {
  }

  lemma PassBuries(was: Db, cur: Db, buried: set<MessageId>, requeued: set<MessageId>, id: MessageId, now: real)
    requires PassState(was, cur, buried, requeued, now) && id in was.outbox
    ensures PassState(was, cur.(dead := BuryOne(cur.dead, id, BuryReason(was.outbox[id]), now)), buried + {id},
                      requeued, now)
  {
  }

  lemma PassRequeues(was: Db, cur: Db, buried: set<MessageId>, requeued: set<MessageId>, id: MessageId, now: real)
    requires PassState(was, cur, buried, requeued, now) && id in was.outbox && id !in requeued
    ensures PassState(was, cur.(outbox := cur.outbox[id := RequeueRow(cur.outbox[id])]), buried, requeued + {id}, now)
  {
  }

  /** Rows of one topic the second pass buries, and those it requeues. */
  ghost function Late(was: Db, p: Policy, topic: string, now: real): (r: set<MessageId>)
    ensures r <= was.outbox.Keys
  {
    set id | id in was.outbox && was.outbox[id].intent.topic == topic
             && Unacknowledged(was, p, id, now) && was.outbox[id].attempts >= p.maxAttempts
  }

  ghost function Again(was: Db, p: Policy, topic: string, now: real): (r: set<MessageId>)
    ensures r <= was.outbox.Keys
  {
    set id | id in was.outbox && was.outbox[id].intent.topic == topic && Requeues(was, p, id, now)
  }

  ghost function Spent(was: Db, p: Policy, ids: set<MessageId>): set<MessageId>
    requires ids <= was.outbox.Keys
  {
    set id | id in ids && was.outbox[id].attempts >= p.maxAttempts
  }

  ghost function Kept(was: Db, p: Policy, ids: set<MessageId>): set<MessageId>
    requires ids <= was.outbox.Keys
  {
    set id | id in ids && was.outbox[id].attempts < p.maxAttempts
  }

  lemma SpentGrows(was: Db, p: Policy, done: set<MessageId>, id: MessageId)
    requires id in was.outbox && id !in done && done <= was.outbox.Keys
    ensures was.outbox[id].attempts >= p.maxAttempts ==>
      Spent(was, p, done + {id}) == Spent(was, p, done) + {id} && Kept(was, p, done + {id}) == Kept(was, p, done)
    ensures was.outbox[id].attempts < p.maxAttempts ==>
      && Spent(was, p, done + {id}) == Spent(was, p, done)
      && Kept(was, p, done + {id}) == Kept(was, p, done) + {id}
      && |Kept(was, p, done + {id})| == |Kept(was, p, done)| + 1
  {
    if was.outbox[id].attempts < p.maxAttempts {
      assert Kept(was, p, done + {id}) == Kept(was, p, done) + {id};
    } else {
      assert Kept(was, p, done + {id}) == Kept(was, p, done);
    }
  }

  lemma SplitRows(was: Db, p: Policy, topic: string, now: real, rows: set<MessageId>)
    requires rows ==
      set id | id in was.outbox && was.outbox[id].intent.topic == topic && Unacknowledged(was, p, id, now)
    ensures Spent(was, p, rows) == Late(was, p, topic, now) && Kept(was, p, rows) == Again(was, p, topic, now)
    ensures forall id :: id in rows ==> was.outbox[id].status.Published? && was.outbox[id].intent.topic == topic
  {
  }

  /** Everything buried or requeued once every topic outside `todo` has been visited. */
  ghost function Buried(was: Db, p: Policy, todo: set<string>, now: real): (r: set<MessageId>)
    ensures r <= was.outbox.Keys
  {
    set id | id in was.outbox && Buries(was, p, id, now)
             && (was.outbox[id].status.Published? ==> was.outbox[id].intent.topic !in todo)
  }

  ghost function Requeued(was: Db, p: Policy, todo: set<string>, now: real): (r: set<MessageId>)
    ensures r <= was.outbox.Keys
  {
    set id | id in was.outbox && Requeues(was, p, id, now) && was.outbox[id].intent.topic !in todo
  }

  lemma VisitNone(was: Db, p: Policy, now: real)
    ensures Buried(was, p, p.topics.Keys, now) == set id | id in was.outbox && Exhausted(was, p, id, now)
    ensures Requeued(was, p, p.topics.Keys, now) == {}
  {
  }

  lemma VisitTopic(was: Db, p: Policy, topic: string, todo: set<string>, now: real)
    returns (buried: set<MessageId>, requeued: set<MessageId>)
    requires topic in todo && topic in p.topics
    ensures buried == Buried(was, p, todo - {topic}, now) == Buried(was, p, todo, now) + Late(was, p, topic, now)
    ensures requeued == Requeued(was, p, todo - {topic}, now) == Requeued(was, p, todo, now) + Again(was, p, topic, now)
    ensures |requeued| == |Requeued(was, p, todo, now)| + |Again(was, p, topic, now)|
    ensures forall id :: id in Requeued(was, p, todo, now) ==> was.outbox[id].intent.topic != topic
    ensures forall id :: id in Buried(was, p, todo, now) && was.outbox[id].status.Published? ==>
      was.outbox[id].intent.topic != topic
    ensures p.topics[topic].None? ==> Late(was, p, topic, now) == {} && Again(was, p, topic, now) == {}
  {
    buried, requeued := Buried(was, p, todo - {topic}, now), Requeued(was, p, todo - {topic}, now);
    assert buried == Buried(was, p, todo, now) + Late(was, p, topic, now);
    assert requeued == Requeued(was, p, todo, now) + Again(was, p, topic, now);
    assert Requeued(was, p, todo, now) !! Again(was, p, topic, now);
  }

  lemma PassDone(was: Db, cur: Db, p: Policy, now: real)
    requires PassState(was, cur, Buried(was, p, {}, now), Requeued(was, p, {}, now), now)
    ensures cur == Reconcile(was, p, now)
  {
    PassDoneOutbox(was, cur, p, now);
    PassDoneDead(was, cur, p, now);
  }

  lemma PassDoneOutbox(was: Db, cur: Db, p: Policy, now: real)
    requires PassState(was, cur, Buried(was, p, {}, now), Requeued(was, p, {}, now), now)
    ensures cur.outbox == Reconcile(was, p, now).outbox
  {
  }

  lemma PassDoneDead(was: Db, cur: Db, p: Policy, now: real)
    requires PassState(was, cur, Buried(was, p, {}, now), Requeued(was, p, {}, now), now)
    ensures cur.dead == Reconcile(was, p, now).dead
  {
  }

  /** Rows of a topic not visited yet are judged as they were when the transaction began. */
  lemma UnvisitedRows(was: Db, cur: Db, p: Policy, topic: string, buried: set<MessageId>, requeued: set<MessageId>,
                      now: real)
    requires PassState(was, cur, buried, requeued, now)
    requires forall id :: id in buried && was.outbox[id].status.Published? ==> was.outbox[id].intent.topic != topic
    requires forall id :: id in requeued ==> was.outbox[id].intent.topic != topic
    ensures forall id :: id in was.outbox && was.outbox[id].intent.topic == topic ==>
      (Unacknowledged(cur, p, id, now) <==> Unacknowledged(was, p, id, now))
  {
  }
}
