/** Concrete runs: two things the delivery protocol does NOT promise. */
module DeliveryWitnesses {
  import opened Tables
  import opened DeliverySpec
  import opened DeliveryMachine

  const TOPIC := "t"
  /** One attempt, one-minute leases. */
  const ONCE := Policy(map[TOPIC := Some(TOPIC)], 60.0, 1)
  const EVENT := Event(Intent(TOPIC, "k", Json(""), map[], None), TextKey("d"))
  const RESOURCE := Resource(EVENT.intent)

  ghost function Extend(p: Policy, states: seq<System>, a: Action): seq<System>
    requires states != [] && Enabled(p, states[|states| - 1], a)
  {
    states + [Next(p, states[|states| - 1], a)]
  }

  lemma ExtendRun(p: Policy, states: seq<System>, actions: seq<Action>, a: Action)
    requires IsRun(p, states, actions) && Enabled(p, states[|states| - 1], a)
    ensures IsRun(p, Extend(p, states, a), actions + [a])
  {
    var all, acts := Extend(p, states, a), actions + [a];
    forall i | 0 <= i < |acts| ensures Enabled(p, all[i], acts[i]) && all[i + 1] == Next(p, all[i], acts[i]) {
      if i < |actions| {
        assert all[i] == states[i] && all[i + 1] == states[i + 1] && acts[i] == actions[i];
      }
    }
  }

  /** One enqueued message claimed by a publisher that then goes silent. */
  lemma Claimed(now: real) returns (states: seq<System>, actions: seq<Action>)
    ensures IsRun(ONCE, states, actions) && |states| == 3
    ensures var s := states[2];
      && s.db == Db(map[0 := ClaimRow(NewMessage(EVENT, 0.0), 0, now, 60.0)], map[TextKey("d") := 0], {}, map[], map[])
      && s.publishers == map[7 := Claim(0, 0, 1)] && s.consumers == map[] && s.issued == {0}
  {
    states, actions := [INITIAL], [];
    ExtendRun(ONCE, states, actions, Enqueue(0, EVENT, 0.0));
    states, actions := Extend(ONCE, states, Enqueue(0, EVENT, 0.0)), actions + [Enqueue(0, EVENT, 0.0)];
    var claim := Action.ClaimDelivery(7, 0, 0, now);
    ExtendRun(ONCE, states, actions, claim);
    states, actions := Extend(ONCE, states, claim), actions + [claim];
  }

  /** attempt_count <= max_attempts is not an invariant: another publisher takes the expired lease over
      before any reconcile sees it. */
  lemma AttemptsCanExceedBudget() returns (states: seq<System>, actions: seq<Action>)
    ensures IsRun(ONCE, states, actions)
    ensures var last := states[|states| - 1]; 0 in last.db.outbox && last.db.outbox[0].attempts > ONCE.maxAttempts
  {
    states, actions := Claimed(0.0);
    var again := Action.ClaimDelivery(8, 0, 1, 60.0);
    ExtendRun(ONCE, states, actions, again);
    states, actions := Extend(ONCE, states, again), actions + [again];
  }

  /** The claimed message was received, and a consumer has taken it. */
  lemma Taken() returns (states: seq<System>, actions: seq<Action>)
    ensures IsRun(ONCE, states, actions)
    ensures var s := states[|states| - 1];
      && s.db.outbox == map[0 := ClaimRow(NewMessage(EVENT, 0.0), 0, 0.0, 60.0)]
      && s.db.execution == map[RESOURCE := Execution(0, 1, 1, At(61.0))] && s.db.inbox == {} && s.db.dead == map[]
      && s.consumers == map[5 := Running(Lease(RESOURCE, 0, 1, 1))]
  {
    states, actions := Claimed(0.0);
    var a1, a2 := Select(5, 0, 1.0), Take(5, 1, 1.0);
    ExtendRun(ONCE, states, actions, a1);
    states, actions := Extend(ONCE, states, a1), actions + [a1];
    ExtendRun(ONCE, states, actions, a2);
    states, actions := Extend(ONCE, states, a2), actions + [a2];
  }

  /** A message that was handled and acknowledged can still be dead-lettered: its publisher's lease ran
      out before the publish was recorded, and the exhausted pass does not look at the inbox. */
  lemma AcknowledgedCanBeBuried() returns (states: seq<System>, actions: seq<Action>)
    ensures IsRun(ONCE, states, actions)
    ensures var last := states[|states| - 1]; (TOPIC, 0) in last.db.inbox && OpenDead(last.db, 0)
  {
    states, actions := Taken();
    var a3, a4 := Commit(5, 2.0), ReconcileRow(0, 60.0);
    ExtendRun(ONCE, states, actions, a3);
    states, actions := Extend(ONCE, states, a3), actions + [a3];
    ExtendRun(ONCE, states, actions, a4);
    states, actions := Extend(ONCE, states, a4), actions + [a4];
  }
}
