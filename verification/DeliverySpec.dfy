/** What each delivery transaction does to the tables, as functions of the tables and one clock reading. */
module DeliverySpec {
  import opened Tables

  // ---- enqueue -------------------------------------------------------------------------------

  datatype Event = Event(intent: Intent, dedup: DedupKey)

  /** The key is free, or already stands for exactly this intent. */
  predicate Accepts(db: Db, e: Event) {
    e.dedup in db.index ==>
      db.index[e.dedup] in db.outbox && db.outbox[db.index[e.dedup]].intent == e.intent
  }

  function NewMessage(e: Event, now: real): Message {
    Message(e.intent, e.dedup, Pending, 0, Due(e.intent), None, None, None, now)
  }

  function Enqueue(db: Db, id: MessageId, e: Event, now: real): Db {
    if e.dedup in db.index then db
    else db.(outbox := db.outbox[id := NewMessage(e, now)], index := db.index[e.dedup := id])
  }

  // ---- publisher side ------------------------------------------------------------------------

  predicate OpenDead(db: Db, id: MessageId) {
    id in db.dead && db.dead[id].replayedAt.None?
  }

  /** Pending, or delivering under a publisher lease that has run out. */
  predicate Unleased(m: Message, now: real) {
    m.status.Pending? || (m.status.Delivering? && m.leaseExpires.Some? && m.leaseExpires.value <= now)
  }

  predicate Claimable(db: Db, p: Policy, id: MessageId, now: real) {
    && id in db.outbox
    && db.outbox[id].intent.topic in p.topics
    && Reached(db.outbox[id].availableAt, now)
    && Reached(Due(db.outbox[id].intent), now)
    && Unleased(db.outbox[id], now)
    && !OpenDead(db, id)
  }

  /** ORDER BY created_at, id */
  predicate Earlier(db: Db, a: MessageId, b: MessageId)
    requires a in db.outbox && b in db.outbox
  {
    db.outbox[a].createdAt < db.outbox[b].createdAt
    || (db.outbox[a].createdAt == db.outbox[b].createdAt && a <= b)
  }

  datatype Claim = Claim(id: MessageId, owner: Owner, attempts: nat)

  function ClaimRow(m: Message, owner: Owner, now: real, ttl: real): Message {
    m.(status := Delivering, owner := Some(owner), leaseExpires := Some(now + ttl), attempts := m.attempts + 1)
  }

  function ClaimDelivery(db: Db, p: Policy, id: MessageId, owner: Owner, now: real): Db
    requires id in db.outbox
  {
    db.(outbox := db.outbox[id := ClaimRow(db.outbox[id], owner, now, p.lease)])
  }

  function Pow2(n: nat): (r: nat)
    ensures r >= 1
  {
    if n == 0 then 1 else 2 * Pow2(n - 1)
  }

  function Min(a: int, b: int): int {
    if a < b then a else b
  }

  function Backoff(attempts: nat): real {
    Min(300, Pow2(Min(attempts, 8))) as real
  }

  predicate HoldsDelivery(db: Db, c: Claim, now: real) {
    && c.id in db.outbox
    && db.outbox[c.id].owner == Some(c.owner)
    && db.outbox[c.id].status.Delivering?
    && db.outbox[c.id].leaseExpires.Some? && now < db.outbox[c.id].leaseExpires.value
  }

  function FinishRow(m: Message, c: Claim, error: Option<string>, now: real): Message {
    m.(status := if error.Some? then Pending else Published,
       publishedAt := if error.Some? then m.publishedAt else Some(now),
       owner := None, leaseExpires := None, availableAt := At(now + Backoff(c.attempts)))
  }

  function BuryOne(dead: map<MessageId, DeadLetter>, id: MessageId, error: string, now: real)
    : map<MessageId, DeadLetter>
  {
    dead[id := DeadLetter(error, now, None)]
  }

  function FinishDelivery(db: Db, p: Policy, c: Claim, error: Option<string>, now: real): Db
    requires c.id in db.outbox
  {
    db.(outbox := db.outbox[c.id := FinishRow(db.outbox[c.id], c, error, now)],
        dead := if error.Some? && c.attempts >= p.maxAttempts then BuryOne(db.dead, c.id, error.value, now)
                else db.dead)
  }

  predicate ActiveExecution(db: Db, id: MessageId, now: real) {
    exists r :: r in db.execution && db.execution[r].message == id && !Reached(db.execution[r].expires, now)
  }

  /** First pass of reconcile: attempts spent and no publisher holds the row. */
  predicate Exhausted(db: Db, p: Policy, id: MessageId, now: real) {
    && id in db.outbox
    && db.outbox[id].intent.topic in p.topics
    && db.outbox[id].attempts >= p.maxAttempts
    && Unleased(db.outbox[id], now)
    && !OpenDead(db, id)
  }

  /** Second pass of reconcile: published long enough ago and never acknowledged. */
  predicate Unacknowledged(db: Db, p: Policy, id: MessageId, now: real) {
    && id in db.outbox
    && db.outbox[id].intent.topic in p.topics
    && p.topics[db.outbox[id].intent.topic].Some?
    && db.outbox[id].status.Published?
    && db.outbox[id].publishedAt.Some? && db.outbox[id].publishedAt.value < now - p.lease
    && (p.topics[db.outbox[id].intent.topic].value, id) !in db.inbox
    && !ActiveExecution(db, id, now)
    && !OpenDead(db, id)
  }

  predicate Requeues(db: Db, p: Policy, id: MessageId, now: real) {
    Unacknowledged(db, p, id, now) && db.outbox[id].attempts < p.maxAttempts
  }

  predicate Buries(db: Db, p: Policy, id: MessageId, now: real) {
    Exhausted(db, p, id, now) || (Unacknowledged(db, p, id, now) && db.outbox[id].attempts >= p.maxAttempts)
  }

  function BuryReason(m: Message): string {
    if m.status.Published? then "consumer_unacknowledged" else "delivery_attempts_exhausted"
  }

  function RequeueRow(m: Message): Message {
    m.(status := Pending, availableAt := NegInfinity)
  }

  /** The whole reconcile transaction, row by row and independent of any iteration order. */
  function Reconcile(db: Db, p: Policy, now: real): Db {
    var buried := map id | id in db.outbox && Buries(db, p, id, now) ::
                    DeadLetter(BuryReason(db.outbox[id]), now, None);
    db.(outbox := map id | id in db.outbox ::
                    if Requeues(db, p, id, now) then RequeueRow(db.outbox[id]) else db.outbox[id],
        dead := db.dead + buried)
  }

  function ReplayRow(m: Message): Message {
    m.(status := Pending, attempts := 0, availableAt := NegInfinity, owner := None, leaseExpires := None)
  }

  predicate Replayable(db: Db, p: Policy, id: MessageId) {
    id in db.outbox && db.outbox[id].intent.topic in p.topics && OpenDead(db, id)
  }

  function Replay(db: Db, id: MessageId, now: real): Db
    requires id in db.outbox && id in db.dead
  {
    db.(outbox := db.outbox[id := ReplayRow(db.outbox[id])],
        dead := db.dead[id := db.dead[id].(replayedAt := Some(now))])
  }

  // ---- consumer side -------------------------------------------------------------------------

  datatype Lease = Lease(resource: string, message: MessageId, owner: Owner, epoch: nat)

  /** The unlocked SELECT that opens claim_execution. */
  predicate Selectable(db: Db, p: Policy, id: MessageId, now: real) {
    && id in db.outbox
    && db.outbox[id].intent.topic in p.topics
    && Reached(Due(db.outbox[id].intent), now)
    && (db.outbox[id].intent.topic, id) !in db.inbox
    && !OpenDead(db, id)
  }

  /** The conditional upsert fires: no row for the resource, or its lease has run out. */
  predicate Free(db: Db, resource: string, now: real) {
    resource in db.execution ==> Reached(db.execution[resource].expires, now)
  }

  function NextEpoch(db: Db, resource: string): nat {
    if resource in db.execution then db.execution[resource].epoch + 1 else 1
  }

  /** The upsert followed by the inbox recheck: a done message leaves a released row behind. */
  function TakeExecution(db: Db, p: Policy, id: MessageId, owner: Owner, now: real): Db
    requires id in db.outbox
  {
    var i := db.outbox[id].intent;
    var row := Execution(id, owner, NextEpoch(db, Resource(i)),
                         if (i.topic, id) in db.inbox then NegInfinity else At(now + p.lease));
    db.(execution := db.execution[Resource(i) := row])
  }

  /** The row still names this message, owner and epoch, whatever its expiry. */
  predicate Names(db: Db, l: Lease) {
    && l.resource in db.execution
    && db.execution[l.resource].message == l.message
    && db.execution[l.resource].owner == l.owner
    && db.execution[l.resource].epoch == l.epoch
  }

  /** CHECK_LEASE */
  predicate Guard(db: Db, l: Lease, now: real) {
    Names(db, l) && !Reached(db.execution[l.resource].expires, now)
  }

  function SetExpiry(db: Db, resource: string, at: Instant): Db
    requires resource in db.execution
  {
    db.(execution := db.execution[resource := db.execution[resource].(expires := at)])
  }

  function Renew(db: Db, p: Policy, l: Lease, now: real): Db
    requires Names(db, l)
  {
    SetExpiry(db, l.resource, At(now + p.lease))
  }

  function Release(db: Db, l: Lease): Db {
    if Names(db, l) then SetExpiry(db, l.resource, NegInfinity) else db
  }

  function Acknowledge(db: Db, id: MessageId): Db
    requires id in db.outbox
  {
    db.(inbox := db.inbox + {(db.outbox[id].intent.topic, id)})
  }
}
