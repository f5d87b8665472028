/** The delivery tables of PostgreSQL as values: outbox, inbox, execution leases and dead letters,
    with the unique index on the outbox deduplication key. */
module Tables {

  datatype Option<+T> = None | Some(value: T)

  /** A timestamptz column: either '-infinity' or a finite instant in seconds. */
  datatype Instant = NegInfinity | At(at: real)

  /** `i <= clock_timestamp()` */
  predicate Reached(i: Instant, now: real) {
    i.NegInfinity? || i.at <= now
  }

  type MessageId = nat
  type Owner = nat

  datatype Payload = Command(job: nat, generation: nat, step: nat) | Json(text: string)

  /** Deduplication keys: the two textual forms built by the ingestion service, or any other text. */
  datatype DedupKey =
    | IngestKey(job: nat, generation: nat)
    | PollKey(job: nat, generation: nat, step: nat)
    | TextKey(text: string)

  /** What a producer asks for; the not-before time travels in a reserved header. */
  datatype Intent = Intent(topic: string, key: string, payload: Payload,
                           headers: map<string, string>, notBefore: Option<real>)

  datatype Status = Pending | Delivering | Published

  datatype Message = Message(
    intent: Intent, dedup: DedupKey, status: Status, attempts: nat, availableAt: Instant,
    owner: Option<Owner>, leaseExpires: Option<real>, publishedAt: Option<real>, createdAt: real)

  datatype Execution = Execution(message: MessageId, owner: Owner, epoch: nat, expires: Instant)

  datatype DeadLetter = DeadLetter(error: string, failedAt: real, replayedAt: Option<real>)

  datatype Db = Db(
    outbox: map<MessageId, Message>, index: map<DedupKey, MessageId>, inbox: set<(string, MessageId)>,
    execution: map<string, Execution>, dead: map<MessageId, DeadLetter>)

  /** Delivery policy: each topic names the consumer whose inbox row acknowledges it, or none. */
  datatype Policy = Policy(topics: map<string, Option<string>>, lease: real, maxAttempts: nat) {
    predicate Valid() {
      1.0 <= lease <= 3600.0 && 1 <= maxAttempts <= 100
    }
  }

  const EMPTY := Db(map[], map[], {}, map[], map[])

  function Due(i: Intent): Instant {
    if i.notBefore.Some? then At(i.notBefore.value) else NegInfinity
  }

  function Resource(i: Intent): string {
    i.topic + ":" + i.key
  }

  /** Text without ':' in front of the first ':' can be told apart from what follows it. */
  lemma SplitsOnce(a: string, x: string, b: string, y: string)
    requires ':' !in a && ':' !in b && a + ":" + x == b + ":" + y
    ensures a == b && x == y
  {
    var s, t := a + ":" + x, b + ":" + y;
    assert s[|a|] == ':' && t[|b|] == ':';
    assert |a| == |b|;
    assert s[..|a|] == a && t[..|b|] == b && s[|a| + 1..] == x && t[|b| + 1..] == y;
  }

  /** Topics never contain ':' (they match [a-z0-9][a-z0-9._-]*), so a resource key names one
      (topic, aggregate key) pair: two topics never share an execution lease. */
  lemma ResourceInjective(a: Intent, b: Intent)
    requires ':' !in a.topic && ':' !in b.topic
    requires Resource(a) == Resource(b)
    ensures a.topic == b.topic && a.key == b.key
  {
    SplitsOnce(a.topic, a.key, b.topic, b.key);
  }
}
