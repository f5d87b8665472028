/** Delivery actions keep the ingestion invariants: they move leases and messages, never jobs. */
module IngestionDelivery {
  import opened Tables
  import opened DeliverySpec
  import opened IngestionSpec
  import opened IngestionMachine
  import opened IngestionInvariants
  import Delivery = DeliveryMachine
  import DeliverySafety

  /** Seen from the jobs, a delivery action keeps every message and receipt and may add foreign ones. */
  ghost predicate Carried(x: Db, y: Db) {
    && y.inbox == x.inbox
    && (forall id :: id in x.outbox ==>
          id in y.outbox && y.outbox[id].intent == x.outbox[id].intent && y.outbox[id].dedup == x.outbox[id].dedup)
    && (forall id :: id in y.outbox && id !in x.outbox ==>
          !Commanding(y.outbox[id].intent) && y.outbox[id].dedup.TextKey?)
    && (forall k :: k in x.index ==> k in y.index && y.index[k] == x.index[k])
  }

  lemma DeliverCarries(p: Policy, core: Delivery.System, a: Delivery.Action)
    requires Delivery.Enabled(p, core, a) && !a.Commit? && Foreign(a)
    ensures Carried(core.db, Delivery.Next(p, core, a).db)
  {
  }

  lemma DeliverCommands(s: System, t: System)
    requires t.jobs == s.jobs && Carried(s.core.db, t.core.db) && CommandsSound(s) && FirstCommands(s)
    requires LiveCommands(s)
    ensures CommandsSound(t) && FirstCommands(t) && LiveCommands(t)
  {
  }

  lemma DeliverAcked(s: System, t: System)
    requires Carried(s.core.db, t.core.db) && Delivery.InboxCounts(s.core) && OnlyCommandsAcked(s)
    ensures OnlyCommandsAcked(t)
  {
  }

  lemma DeliverSelected(p: Policy, s: System, a: Delivery.Action, t: System)
    requires IngestPolicy(p) && Delivery.Enabled(p, s.core, a) && t.core == Delivery.Next(p, s.core, a)
    requires Carried(s.core.db, t.core.db)
    requires SelectedCommands(s)
    ensures SelectedCommands(t)
  {
  }

  /** A consumer that runs a handler after a delivery action ran the same one before, unless the action
      has just given it its lease; and its row names it only if it did before. */
  lemma RunningBefore(p: Policy, s: System, a: Delivery.Action, t: System, v: nat)
    requires Delivery.LeasesSound(s.core) && Delivery.OwnersIssued(s.core) && Serving(s)
    requires Delivery.Enabled(p, s.core, a) && !a.Commit?
    requires t.core == Delivery.Next(p, s.core, a) && t.handlers == HandlersAfter(p, s, a) && v in t.handlers
    ensures Delivery.IsRunning(t.core, v)
    ensures a.Take? && a.w == v ==> t.handlers[v].Load?
    ensures !(a.Take? && a.w == v) ==>
      && v in s.handlers && t.handlers[v] == s.handlers[v]
      && Delivery.IsRunning(s.core, v) && LeaseOf(t, v) == LeaseOf(s, v)
      && (Names(t.core.db, LeaseOf(t, v)) ==> Names(s.core.db, LeaseOf(s, v)))
  {
    HandlerBefore(p, s, a, t, v);
    if !(a.Take? && a.w == v) {
      Delivery.NamedBefore(p, s.core, a, v);
    }
  }

  lemma HandlerBefore(p: Policy, s: System, a: Delivery.Action, t: System, v: nat)
    requires Serving(s) && Delivery.Enabled(p, s.core, a) && !a.Commit?
    requires t.core == Delivery.Next(p, s.core, a) && t.handlers == HandlersAfter(p, s, a) && v in t.handlers
    ensures Delivery.IsRunning(t.core, v)
    ensures a.Take? && a.w == v ==> t.handlers[v].Load?
    ensures !(a.Take? && a.w == v) ==> v in s.handlers && t.handlers[v] == s.handlers[v]
  {
    if a.Take? {
      TakeBefore(p, s, a.w, a.owner, a.now, t, v);
    } else {
      assert Serves(s, v);
    }
  }

  lemma TakeBefore(p: Policy, s: System, w: nat, owner: Owner, now: real, t: System, v: nat)
    requires Serving(s) && Delivery.Enabled(p, s.core, Delivery.Take(w, owner, now))
    requires t.core == Delivery.AfterTake(p, s.core, w, owner, now) && v in t.handlers
    requires t.handlers == if Delivery.IsRunning(t.core, w) then s.handlers[w := Load] else s.handlers - {w}
    ensures Delivery.IsRunning(t.core, v)
    ensures if w == v then t.handlers[v].Load? else v in s.handlers && t.handlers[v] == s.handlers[v]
  {
    if v != w {
      assert Serves(s, v);
    }
  }

  lemma DeliverServing(p: Policy, s: System, a: Delivery.Action, t: System)
    requires Delivery.LeasesSound(s.core) && Delivery.OwnersIssued(s.core) && Serving(s) && SelectedCommands(s)
    requires Delivery.Enabled(p, s.core, a) && !a.Commit? && Carried(s.core.db, t.core.db)
    requires t.core == Delivery.Next(p, s.core, a) && t.handlers == HandlersAfter(p, s, a) && t.jobs == s.jobs
    ensures Serving(t)
  {
    forall v | v in t.handlers ensures Serves(t, v) {
      RunningBefore(p, s, a, t, v);
      if !(a.Take? && a.w == v) {
        assert Serves(s, v);
      }
    }
  }

  lemma DeliverHandlers(p: Policy, s: System, a: Delivery.Action, t: System)
    requires Delivery.LeasesSound(s.core) && Delivery.OwnersIssued(s.core) && Serving(s) && Serving(t)
    requires Synced(s) && AcksObsolete(s) && CheckStillHolds(s) && HandlersOk(s)
    requires Delivery.Enabled(p, s.core, a) && !a.Commit? && Carried(s.core.db, t.core.db)
    requires t == s.(core := Delivery.Next(p, s.core, a), handlers := HandlersAfter(p, s, a))
    ensures Synced(t) && AcksObsolete(t) && CheckStillHolds(t) && HandlersOk(t)
  {
    forall v | v in t.handlers
      ensures HandlerOk(t, t.handlers[v])
      ensures Serves(t, v) && Effective(t, v) ==> InSync(t.jobs[t.handlers[v].l.job].cursor, t.handlers[v].l)
      ensures Serves(t, v) && t.handlers[v].AckOnly? && Names(t.core.db, LeaseOf(t, v)) ==>
        Obsolete(PayloadOf(t, v), t.jobs)
      ensures Serves(t, v) && t.handlers[v].ParseStart? && Names(t.core.db, LeaseOf(t, v)) ==>
        !Unfinished(t.journal, UploadIdentity(t.jobs[t.handlers[v].l.job].source))
    {
      RunningBefore(p, s, a, t, v);
      if !(a.Take? && a.w == v) {
        assert Serves(s, v) && HandlerOk(s, s.handlers[v]);
      }
    }
  }

  lemma DeliverPosts(p: Policy, s: System, a: Delivery.Action, t: System)
    requires Delivery.LeasesSound(s.core) && Delivery.OwnersIssued(s.core) && Serving(s)
    requires Delivery.Enabled(p, s.core, a) && !a.Commit? && PostsOnce(s)
    requires t == s.(core := Delivery.Next(p, s.core, a), handlers := HandlersAfter(p, s, a))
    ensures PostsOnce(t)
  {
    forall v: nat, key: OpKey | AboutToPost(t, v, key) ensures AboutToPost(s, v, key) {
      RunningBefore(p, s, a, t, v);
    }
    assert forall key :: Posts(t, key) == Posts(s, key);
  }
}
