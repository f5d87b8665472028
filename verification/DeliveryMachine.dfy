/** The delivery protocol as a state machine: any number of publishers and consumers, each database
    transaction one atomic action, claim_execution two. Actions carry their own clock reading; nothing
    says that readings grow. Any claimable row may be claimed and any row may be reconciled alone, which
    covers rows that SKIP LOCKED passes over. */
module DeliveryMachine {
  import opened Tables
  import opened DeliverySpec

  datatype Consumer =
    | Selected(id: MessageId)      // passed the SELECT, not yet the upsert
    | Running(lease: Lease)        // owns a lease, handler at work
    | Acked(lease: Lease)          // final commit done, release still to come

  datatype System = System(
    db: Db, publishers: map<nat, Claim>, consumers: map<nat, Consumer>,
    issued: set<Owner>,            // every uuid handed out so far
    handled: map<MessageId, nat>)  // number of final handler commits of each message

  datatype Action =
    | Enqueue(id: MessageId, event: Event, now: real)
    | ClaimDelivery(p: nat, id: MessageId, owner: Owner, now: real)
    | FinishDelivery(p: nat, error: Option<string>, now: real)
    | LosePublisher(p: nat)
    | ReconcileRow(id: MessageId, now: real)
    | Replay(id: MessageId, now: real)
    | Select(w: nat, id: MessageId, now: real)
    | Take(w: nat, owner: Owner, now: real)
    | Renew(w: nat, now: real)
    | Commit(w: nat, now: real)    // final transaction: handler's writes and the inbox row
    | Release(w: nat)
    | LoseConsumer(w: nat)         // crash, or a claim that came back empty

  const INITIAL := System(EMPTY, map[], map[], {}, map[])

  predicate HasLease(s: System, w: nat) {
    w in s.consumers && !s.consumers[w].Selected?
  }

  predicate IsRunning(s: System, w: nat) {
    w in s.consumers && s.consumers[w].Running?
  }

  predicate Enabled(p: Policy, s: System, a: Action) {
    match a
    case Enqueue(id, e, now) => id !in s.db.outbox && Accepts(s.db, e)
    case ClaimDelivery(pub, id, owner, now) => pub !in s.publishers && owner !in s.issued && Claimable(s.db, p, id, now)
    case FinishDelivery(pub, error, now) => pub in s.publishers && HoldsDelivery(s.db, s.publishers[pub], now)
    case LosePublisher(pub) => pub in s.publishers
    case ReconcileRow(id, now) => Requeues(s.db, p, id, now) || Buries(s.db, p, id, now)
    case Replay(id, now) => Replayable(s.db, p, id)
    case Select(w, id, now) => w !in s.consumers && Selectable(s.db, p, id, now)
    case Take(w, owner, now) =>
      && w in s.consumers && s.consumers[w].Selected? && s.consumers[w].id in s.db.outbox && owner !in s.issued
      && Free(s.db, Resource(s.db.outbox[s.consumers[w].id].intent), now)
    case Renew(w, now) => HasLease(s, w) && Guard(s.db, s.consumers[w].lease, now)
    case Commit(w, now) =>
      IsRunning(s, w) && s.consumers[w].lease.message in s.db.outbox && Guard(s.db, s.consumers[w].lease, now)
    case Release(w) => HasLease(s, w)
    case LoseConsumer(w) => w in s.consumers
  }

  function ReconcileOne(db: Db, p: Policy, id: MessageId, now: real): Db
    requires id in db.outbox
  {
    if Requeues(db, p, id, now) then db.(outbox := db.outbox[id := RequeueRow(db.outbox[id])])
    else db.(dead := BuryOne(db.dead, id, BuryReason(db.outbox[id]), now))
  }

  function AfterTake(p: Policy, s: System, w: nat, owner: Owner, now: real): System
    requires Enabled(p, s, Take(w, owner, now))
  {
    var id := s.consumers[w].id;
    var i := s.db.outbox[id].intent;
    s.(db := TakeExecution(s.db, p, id, owner, now),
       issued := s.issued + {owner},
       consumers := if (i.topic, id) in s.db.inbox then s.consumers - {w}
                    else s.consumers[w := Running(Lease(Resource(i), id, owner, NextEpoch(s.db, Resource(i))))])
  }

  function Handled(s: System, id: MessageId): nat {
    if id in s.handled then s.handled[id] else 0
  }

  function AfterCommit(p: Policy, s: System, w: nat, now: real): System
    requires Enabled(p, s, Commit(w, now))
  {
    var l := s.consumers[w].lease;
    s.(db := Acknowledge(s.db, l.message), consumers := s.consumers[w := Acked(l)],
       handled := s.handled[l.message := Handled(s, l.message) + 1])
  }

  function Next(p: Policy, s: System, a: Action): System
    requires Enabled(p, s, a)
  {
    match a
    case Enqueue(id, e, now) => s.(db := DeliverySpec.Enqueue(s.db, id, e, now))
    case ClaimDelivery(pub, id, owner, now) =>
      var db := DeliverySpec.ClaimDelivery(s.db, p, id, owner, now);
      s.(db := db, issued := s.issued + {owner},
         publishers := s.publishers[pub := Claim(id, owner, db.outbox[id].attempts)])
    case FinishDelivery(pub, error, now) =>
      s.(db := DeliverySpec.FinishDelivery(s.db, p, s.publishers[pub], error, now), publishers := s.publishers - {pub})
    case LosePublisher(pub) => s.(publishers := s.publishers - {pub})
    case ReconcileRow(id, now) => s.(db := ReconcileOne(s.db, p, id, now))
    case Replay(id, now) => s.(db := DeliverySpec.Replay(s.db, id, now))
    case Select(w, id, now) => s.(consumers := s.consumers[w := Selected(id)])
    case Take(w, owner, now) => AfterTake(p, s, w, owner, now)
    case Renew(w, now) => s.(db := DeliverySpec.Renew(s.db, p, s.consumers[w].lease, now))
    case Commit(w, now) => AfterCommit(p, s, w, now)
    case Release(w) => s.(db := DeliverySpec.Release(s.db, s.consumers[w].lease), consumers := s.consumers - {w})
    case LoseConsumer(w) => s.(consumers := s.consumers - {w})
  }

  /** A run is the list of states an initial system goes through under some actions. */
  ghost predicate IsRun(p: Policy, states: seq<System>, actions: seq<Action>) {
    && |states| == |actions| + 1
    && states[0] == INITIAL
    && forall i :: 0 <= i < |actions| ==>
      Enabled(p, states[i], actions[i]) && states[i + 1] == Next(p, states[i], actions[i])
  }

  // ---- invariants ----------------------------------------------------------------------------

  ghost predicate IndexSound(db: Db) {
    && (forall k :: k in db.index ==> db.index[k] in db.outbox && db.outbox[db.index[k]].dedup == k)
    && (forall id :: id in db.outbox ==> db.outbox[id].dedup in db.index && db.index[db.outbox[id].dedup] == id)
  }

  /** Delivering exactly when owner and expiry are set; published rows know when. */
  predicate RowShape(m: Message) {
    && (m.status.Delivering? <==> m.owner.Some?)
    && (m.status.Delivering? <==> m.leaseExpires.Some?)
    && (m.status.Published? ==> m.publishedAt.Some?)
  }

  ghost predicate Shapes(db: Db) {
    forall id :: id in db.outbox ==> RowShape(db.outbox[id])
  }

  /** A pending row either has attempts left or an open dead letter. */
  ghost predicate WithinBudget(p: Policy, db: Db) {
    forall id :: id in db.outbox && db.outbox[id].status.Pending? && !OpenDead(db, id) ==>
      db.outbox[id].attempts < p.maxAttempts
  }

  /** Every owner on a row was handed out ... */
  ghost predicate RowsIssued(s: System) {
    && (forall id :: id in s.db.outbox && s.db.outbox[id].owner.Some? ==> s.db.outbox[id].owner.value in s.issued)
    && (forall r :: r in s.db.execution ==> s.db.execution[r].owner in s.issued)
  }

  /** ... and so was every owner a publisher or a consumer remembers. */
  ghost predicate HoldersIssued(s: System) {
    && (forall pub :: pub in s.publishers ==> s.publishers[pub].owner in s.issued)
    && (forall w :: HasLease(s, w) ==> s.consumers[w].lease.owner in s.issued)
  }

  ghost predicate OwnersIssued(s: System) {
    RowsIssued(s) && HoldersIssued(s)
  }

  /** A publisher whose claim is still on the row remembers the row's attempt count. */
  ghost predicate ClaimsExact(s: System) {
    forall pub :: pub in s.publishers && s.publishers[pub].id in s.db.outbox
      && s.db.outbox[s.publishers[pub].id].owner == Some(s.publishers[pub].owner)
      ==> s.db.outbox[s.publishers[pub].id].attempts == s.publishers[pub].attempts
  }

  /** Lease facts of one consumer: it points at its message's resource and never ahead of the row. */
  predicate LeaseSound(db: Db, l: Lease) {
    && l.message in db.outbox
    && l.resource == Resource(db.outbox[l.message].intent)
    && l.resource in db.execution
    && l.epoch <= db.execution[l.resource].epoch
  }

  ghost predicate LeasesSound(s: System) {
    && (forall w :: w in s.consumers && s.consumers[w].Selected? ==> s.consumers[w].id in s.db.outbox)
    && (forall w :: HasLease(s, w) ==> LeaseSound(s.db, s.consumers[w].lease))
  }

  ghost predicate OwnersDistinct(s: System) {
    forall w, v :: HasLease(s, w) && HasLease(s, v) && w != v ==>
      s.consumers[w].lease.owner != s.consumers[v].lease.owner
  }

  /** The heart of at-most-once: while a running consumer's row is still its own, its message is not
      acknowledged, although nobody looks at the inbox again before the final commit. */
  ghost predicate FreshWhileNamed(s: System) {
    forall w :: IsRunning(s, w) && Names(s.db, s.consumers[w].lease) && s.consumers[w].lease.message in s.db.outbox ==>
      (s.db.outbox[s.consumers[w].lease.message].intent.topic, s.consumers[w].lease.message) !in s.db.inbox
  }

  function Receipts(db: Db, id: MessageId): nat
    requires id in db.outbox
  {
    if (db.outbox[id].intent.topic, id) in db.inbox then 1 else 0
  }

  /** Inbox rows are exactly the handler commits, one each. */
  ghost predicate InboxCounts(s: System) {
    && (forall id :: id in s.db.outbox ==> Handled(s, id) == Receipts(s.db, id))
    && (forall id :: id !in s.db.outbox ==> Handled(s, id) == 0 && forall t :: (t, id) !in s.db.inbox)
  }

  ghost predicate Inv(p: Policy, s: System) {
    && IndexSound(s.db) && Shapes(s.db) && WithinBudget(p, s.db)
    && OwnersIssued(s) && ClaimsExact(s) && LeasesSound(s) && OwnersDistinct(s)
    && FreshWhileNamed(s) && InboxCounts(s)
  }

  // ---- each action keeps each invariant ------------------------------------------------------

  /** Only Enqueue writes the index or a deduplication key. */
  lemma StepDedups(p: Policy, s: System, a: Action)
    requires Enabled(p, s, a) && !a.Enqueue?
    ensures Next(p, s, a).db.index == s.db.index && Next(p, s, a).db.outbox.Keys == s.db.outbox.Keys
    ensures forall id :: id in s.db.outbox ==> Next(p, s, a).db.outbox[id].dedup == s.db.outbox[id].dedup
  {
  }

  lemma EnqueueIndex(db: Db, id: MessageId, e: Event, now: real)
    requires IndexSound(db) && id !in db.outbox && Accepts(db, e)
    ensures IndexSound(DeliverySpec.Enqueue(db, id, e, now))
  {
  }

  lemma StepIndex(p: Policy, s: System, a: Action)
    requires Enabled(p, s, a) && IndexSound(s.db)
    ensures IndexSound(Next(p, s, a).db)
  {
    if a.Enqueue? {
      EnqueueIndex(s.db, a.id, a.event, a.now);
    } else {
      StepDedups(p, s, a);
    }
  }

  lemma StepShapes(p: Policy, s: System, a: Action)
    requires Enabled(p, s, a) && Shapes(s.db)
    ensures Shapes(Next(p, s, a).db)
  {
  }

  lemma StepBudget(p: Policy, s: System, a: Action)
    requires p.Valid() && Enabled(p, s, a) && Shapes(s.db) && ClaimsExact(s) && WithinBudget(p, s.db)
    ensures WithinBudget(p, Next(p, s, a).db)
  {
  }

  lemma StepRowsIssued(p: Policy, s: System, a: Action)
    requires Enabled(p, s, a) && RowsIssued(s)
    ensures RowsIssued(Next(p, s, a))
  {
  }

  lemma StepHoldersIssued(p: Policy, s: System, a: Action)
    requires Enabled(p, s, a) && HoldersIssued(s)
    ensures HoldersIssued(Next(p, s, a))
  {
  }

  lemma StepDistinct(p: Policy, s: System, a: Action)
    requires Enabled(p, s, a) && OwnersIssued(s) && OwnersDistinct(s)
    ensures OwnersDistinct(Next(p, s, a))
  {
  }

  lemma StepClaims(p: Policy, s: System, a: Action)
    requires Enabled(p, s, a) && OwnersIssued(s) && ClaimsExact(s) && Shapes(s.db)
    ensures ClaimsExact(Next(p, s, a))
  {
  }

  /** Execution rows are never deleted and their epochs never fall, under any clock. */
  lemma EpochsGrow(p: Policy, s: System, a: Action)
    requires Enabled(p, s, a)
    ensures forall r :: r in s.db.execution ==>
      && r in Next(p, s, a).db.execution
      && var x, y := s.db.execution[r], Next(p, s, a).db.execution[r];
         x.epoch <= y.epoch && (x.epoch == y.epoch ==> x.message == y.message && x.owner == y.owner)
  {
  }

  /** A lease that was sound stays sound while messages keep their intents and epochs never fall. */
  lemma LeaseStays(p: Policy, s: System, a: Action, l: Lease)
    requires Enabled(p, s, a) && LeaseSound(s.db, l)
    ensures LeaseSound(Next(p, s, a).db, l)
  {
    StepTables(p, s, a);
    EpochsGrow(p, s, a);
  }

  /** Only the consumer's own take gives it a lease, and a sound one. */
  lemma LeaseBefore(p: Policy, s: System, a: Action, w: nat)
    requires Enabled(p, s, a) && LeasesSound(s) && HasLease(Next(p, s, a), w)
    ensures var l := Next(p, s, a).consumers[w].lease;
      if a.Take? && a.w == w then LeaseSound(Next(p, s, a).db, l) else HasLease(s, w) && s.consumers[w].lease == l
  {
  }

  lemma SelectedStays(p: Policy, s: System, a: Action, w: nat)
    requires Enabled(p, s, a) && LeasesSound(s)
    requires w in Next(p, s, a).consumers && Next(p, s, a).consumers[w].Selected?
    ensures Next(p, s, a).consumers[w].id in s.db.outbox
  {
  }

  lemma StepLeases(p: Policy, s: System, a: Action)
    requires Enabled(p, s, a) && LeasesSound(s)
    ensures LeasesSound(Next(p, s, a))
  {
    var t := Next(p, s, a);
    forall w | w in t.consumers && t.consumers[w].Selected? ensures t.consumers[w].id in t.db.outbox {
      SelectedStays(p, s, a, w);
      StepTables(p, s, a);
    }
    forall w | HasLease(t, w) ensures LeaseSound(t.db, t.consumers[w].lease) {
      LeaseBefore(p, s, a, w);
      if !(a.Take? && a.w == w) {
        LeaseStays(p, s, a, s.consumers[w].lease);
      }
    }
  }

  /** Two consumers whose rows are both still their own work on different messages. */
  lemma NamedApart(s: System, w: nat, v: nat)
    requires LeasesSound(s) && OwnersDistinct(s) && HasLease(s, w) && HasLease(s, v) && w != v
    requires Names(s.db, s.consumers[w].lease) && Names(s.db, s.consumers[v].lease)
    ensures s.consumers[w].lease.resource != s.consumers[v].lease.resource
    ensures s.consumers[w].lease.message != s.consumers[v].lease.message
  {
  }

  /** A lease that is running after a step and was not taken by it was running before; and a row that
      names it afterwards named it before, because upserts use owners never seen. */
  lemma NamedBefore(p: Policy, s: System, a: Action, v: nat)
    requires Enabled(p, s, a) && LeasesSound(s) && OwnersIssued(s)
    requires IsRunning(Next(p, s, a), v) && !(a.Take? && a.w == v)
    ensures IsRunning(s, v) && s.consumers[v] == Next(p, s, a).consumers[v]
    ensures Names(Next(p, s, a).db, s.consumers[v].lease) ==> Names(s.db, s.consumers[v].lease)
  {
    assert IsRunning(s, v) && s.consumers[v] == Next(p, s, a).consumers[v];
    EpochsGrow(p, s, a);
  }

  /** Intents never change and only a final commit acknowledges, and then its own message. */
  lemma InboxBefore(p: Policy, s: System, a: Action, id: MessageId)
    requires Enabled(p, s, a) && id in s.db.outbox
    ensures id in Next(p, s, a).db.outbox && Next(p, s, a).db.outbox[id].intent == s.db.outbox[id].intent
    ensures (s.db.outbox[id].intent.topic, id) in Next(p, s, a).db.inbox ==>
      (s.db.outbox[id].intent.topic, id) in s.db.inbox || (a.Commit? && s.consumers[a.w].lease.message == id)
  {
    StepTables(p, s, a);
  }

  lemma StepFresh(p: Policy, s: System, a: Action)
    requires Enabled(p, s, a) && LeasesSound(s) && OwnersIssued(s) && OwnersDistinct(s) && FreshWhileNamed(s)
    ensures FreshWhileNamed(Next(p, s, a))
  {
    var t := Next(p, s, a);
    forall v | IsRunning(t, v) && Names(t.db, t.consumers[v].lease) && t.consumers[v].lease.message in t.db.outbox
      ensures (t.db.outbox[t.consumers[v].lease.message].intent.topic, t.consumers[v].lease.message) !in t.db.inbox
    {
      if !(a.Take? && a.w == v) {
        NamedBefore(p, s, a, v);
        InboxBefore(p, s, a, s.consumers[v].lease.message);
        if a.Commit? {
          NamedApart(s, a.w, v);
        }
      }
    }
  }

  /** What a step does to the tables another consumer's final commit depends on. */
  lemma StepTables(p: Policy, s: System, a: Action)
    requires Enabled(p, s, a)
    ensures var t := Next(p, s, a);
      && t.db.outbox.Keys == s.db.outbox.Keys + (if a.Enqueue? && a.event.dedup !in s.db.index then {a.id} else {})
      && (!a.Commit? ==> t.db.inbox == s.db.inbox && t.handled == s.handled)
      && (forall id :: id in s.db.outbox ==> t.db.outbox[id].intent == s.db.outbox[id].intent)
  {
    StepKeys(p, s, a);
    StepIntents(p, s, a);
  }

  lemma StepKeys(p: Policy, s: System, a: Action)
    requires Enabled(p, s, a)
    ensures Next(p, s, a).db.outbox.Keys ==
      s.db.outbox.Keys + (if a.Enqueue? && a.event.dedup !in s.db.index then {a.id} else {})
  {
  }

  lemma StepIntents(p: Policy, s: System, a: Action)
    requires Enabled(p, s, a)
    ensures forall id :: id in s.db.outbox && id in Next(p, s, a).db.outbox ==>
      Next(p, s, a).db.outbox[id].intent == s.db.outbox[id].intent
  {
  }

  /** A message that has just appeared has no inbox row yet; every other count and row stays. */
  lemma CountsStay(s: System, t: System)
    requires InboxCounts(s) && t.db.inbox == s.db.inbox && t.handled == s.handled
    requires s.db.outbox.Keys <= t.db.outbox.Keys
    requires forall id :: id in s.db.outbox ==> t.db.outbox[id].intent == s.db.outbox[id].intent
    ensures InboxCounts(t)
  {
    forall id | id in t.db.outbox ensures Handled(t, id) == Receipts(t.db, id) {
      if id in s.db.outbox {
        assert Handled(s, id) == Receipts(s.db, id);
      }
    }
  }

  /** A commit acknowledges a message that had no inbox row. */
  lemma CommitCounts(p: Policy, s: System, w: nat, now: real)
    requires Enabled(p, s, Commit(w, now)) && FreshWhileNamed(s) && InboxCounts(s)
    ensures InboxCounts(AfterCommit(p, s, w, now))
  {
    assert Handled(s, s.consumers[w].lease.message) == 0;
  }

  lemma StepCounts(p: Policy, s: System, a: Action)
    requires Enabled(p, s, a) && FreshWhileNamed(s) && InboxCounts(s)
    ensures InboxCounts(Next(p, s, a))
  {
    if a.Commit? {
      CommitCounts(p, s, a.w, a.now);
    } else {
      StepTables(p, s, a);
      CountsStay(s, Next(p, s, a));
    }
  }

  lemma StepKeepsInv(p: Policy, s: System, a: Action)
    requires p.Valid() && Enabled(p, s, a) && Inv(p, s)
    ensures Inv(p, Next(p, s, a))
  {
    StepIndex(p, s, a);
    StepShapes(p, s, a);
    StepBudget(p, s, a);
    StepRowsIssued(p, s, a);
    StepHoldersIssued(p, s, a);
    StepDistinct(p, s, a);
    StepClaims(p, s, a);
    StepLeases(p, s, a);
    StepFresh(p, s, a);
    StepCounts(p, s, a);
  }

  lemma {:induction false} RunInv(p: Policy, states: seq<System>, actions: seq<Action>, i: nat)
    requires p.Valid() && IsRun(p, states, actions) && i < |states|
    ensures Inv(p, states[i])
  {
    if i > 0 {
      RunInv(p, states, actions, i - 1);
      StepKeepsInv(p, states[i - 1], actions[i - 1]);
    }
  }
}
