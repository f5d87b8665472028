/** Steps inside a handler keep the bounds on remote writes. */
module IngestionPosts {
  import opened Tables
  import opened DeliverySpec
  import opened IngestionSpec
  import opened IngestionMachine
  import opened IngestionInvariants
  import opened IngestionSteps
  import opened IngestionContinue
  import Delivery = DeliveryMachine

  /** Only a successful start puts an operation in flight. */
  lemma InFlightBefore(cfg: Config, s: System, w: nat, now: real, h: Handler, e: Effect, next: Handler, k: OpKey,
                       identity: string)
    requires HasLocal(h) && h.l.job in s.jobs && Allows(cfg, s, w, now, h, e, next) && e.Commit?
    requires InFlight(e.journal, k, identity)
    ensures InFlight(s.journal, k, identity) || (h.ParseStart? && k == KeyOfParse(s, h.l))
  {
    if UploadPoint(h) {
      UploadInFlightBefore(cfg, s, now, h, e, next, k, identity);
    } else if ParsePoint(h) {
      ParseInFlightBefore(s, h, e, next, k, identity);
    }
  }

  lemma UploadInFlightBefore(cfg: Config, s: System, now: real, h: Handler, e: Effect, next: Handler, k: OpKey,
                             identity: string)
    requires UploadPoint(h) && h.l.job in s.jobs && UploadAllows(cfg, s, now, h, e, next) && e.Commit?
    requires InFlight(e.journal, k, identity)
    ensures InFlight(s.journal, k, identity)
  {
  }

  lemma ParseInFlightBefore(s: System, h: Handler, e: Effect, next: Handler, k: OpKey, identity: string)
    requires ParsePoint(h) && h.l.job in s.jobs && ParseAllows(s, h, e, next) && e.Commit?
    requires InFlight(e.journal, k, identity)
    ensures InFlight(s.journal, k, identity) || (h.ParseStart? && k == KeyOfParse(s, h.l))
  {
  }

  /** ... and only a successful start leads to a remote write. */
  lemma PostPoint(cfg: Config, s: System, w: nat, now: real, h: Handler, e: Effect, next: Handler)
    requires (HasLocal(h) ==> h.l.job in s.jobs) && Allows(cfg, s, w, now, h, e, next)
    requires next.UploadPost? || next.ParsePost?
    ensures h.UploadStart? || h.ParseStart?
    ensures next.l == Clean(h.l) && (next.UploadPost? <==> h.UploadStart?) && e.Commit?
    ensures var key := if h.UploadStart? then KeyOfUpload(s, h.l) else KeyOfParse(s, h.l);
      Startable(s.journal, key) && e.journal == Start(s.journal, key)
  {
  }

  /** The commit that takes an operation from intended to executing. */
  predicate Claims(a: Journal, b: Journal, key: OpKey) {
    Startable(a, key) && key in b && b[key].state.Executing?
  }

  lemma PostTarget(cfg: Config, s: System, w: nat, now: real, h: Handler, e: Effect, next: Handler)
    requires (HasLocal(h) ==> h.l.job in s.jobs) && Allows(cfg, s, w, now, h, e, next) && e.Post?
    ensures h.UploadPost? || h.ParsePost?
    ensures e.key == if h.UploadPost? then KeyOfUpload(s, h.l) else KeyOfParse(s, h.l)
    ensures !next.UploadPost? && !next.ParsePost?
  {
  }

  lemma CheckPoint(cfg: Config, s: System, w: nat, now: real, h: Handler, e: Effect, next: Handler)
    requires (HasLocal(h) ==> h.l.job in s.jobs) && Allows(cfg, s, w, now, h, e, next) && next.ParseStart?
    ensures h.ParseCheck? && e.Quiet? && next.l == h.l && !Unfinished(s.journal, UploadIdentity(s.jobs[h.l.job].source))
  {
  }

  lemma ContinueInFlight(cfg: Config, s: System, w: nat, e: Effect, now: real, next: Handler, t: System)
    requires Serving(s) && OneInFlight(s.journal) && CheckStillHolds(s) && w in s.handlers
    requires Continues(cfg, s, w, e, now, next, t) && e.Commit?
    ensures OneInFlight(e.journal)
  {
    var h := s.handlers[w];
    forall k1, k2, identity | InFlight(e.journal, k1, identity) && InFlight(e.journal, k2, identity) ensures k1 == k2 {
      InFlightBefore(cfg, s, w, now, h, e, next, k1, identity);
      InFlightBefore(cfg, s, w, now, h, e, next, k2, identity);
      if h.ParseStart? {
        assert Serves(s, w) && !Unfinished(s.journal, UploadIdentity(s.jobs[h.l.job].source));
      }
    }
  }

  /** A commit puts operations of the handler's own identity in flight only, and the point after a clean
      query still has nothing in flight. */
  ghost predicate StartsOwn(s: System, w: nat, e: Effect, next: Handler)
    requires w in s.handlers
  {
    var h := s.handlers[w];
    && (e.Commit? ==>
          && HasLocal(h) && h.l.job in s.jobs
          && forall identity ::
               identity != UploadIdentity(s.jobs[h.l.job].source) && Unfinished(e.journal, identity) ==>
                 Unfinished(s.journal, identity))
    && (next.ParseStart? ==>
          && HasLocal(h) && e.Quiet? && next.l == h.l && h.l.job in s.jobs
          && !Unfinished(s.journal, UploadIdentity(s.jobs[h.l.job].source)))
  }

  lemma ContinueStartsOwn(cfg: Config, s: System, w: nat, e: Effect, now: real, next: Handler, t: System)
    requires w in s.handlers && Continues(cfg, s, w, e, now, next, t)
    ensures StartsOwn(s, w, e, next)
  {
    var h := s.handlers[w];
    if next.ParseStart? {
      CheckPoint(cfg, s, w, now, h, e, next);
    }
    if e.Commit? {
      var own := UploadIdentity(s.jobs[h.l.job].source);
      forall identity, k | identity != own && k in e.journal && InFlight(e.journal, k, identity)
        ensures InFlight(s.journal, k, identity)
      {
        InFlightBefore(cfg, s, w, now, h, e, next, k, identity);
      }
    }
  }

  /** Another handler's start cannot fall between this handler's query and its own start while this
      handler's lease row is still its own. */
  lemma OtherCheckHolds(s: System, w: nat, e: Effect, next: Handler, v: nat)
    requires Delivery.LeasesSound(s.core) && Delivery.OwnersDistinct(s.core) && CommandsSound(s) && CheckStillHolds(s)
    requires w in s.handlers && v in s.handlers && v != w && Serves(s, w) && Serves(s, v) && StartsOwn(s, w, e, next)
    requires s.handlers[v].ParseStart? && Names(s.core.db, LeaseOf(s, v))
    requires e.Commit? ==> Names(s.core.db, LeaseOf(s, w))
    ensures !Unfinished(if e.Commit? then e.journal else s.journal, UploadIdentity(s.jobs[s.handlers[v].l.job].source))
  {
  }

  /** ... and the acting handler itself comes to the point only from a clean query. */
  lemma OwnCheckHolds(s: System, w: nat, e: Effect, next: Handler)
    requires w in s.handlers && StartsOwn(s, w, e, next) && next.ParseStart?
    ensures e.Quiet? && next.l.job in s.jobs && !Unfinished(s.journal, UploadIdentity(s.jobs[next.l.job].source))
  {
  }

  lemma CheckAfter(s: System, w: nat, e: Effect, next: Handler, t: System)
    requires Delivery.LeasesSound(s.core) && Delivery.OwnersDistinct(s.core) && CommandsSound(s)
    requires Serving(s) && CheckStillHolds(s) && w in s.handlers && StartsOwn(s, w, e, next)
    requires t.core == s.core && t.handlers == s.handlers[w := next] && JobsExtend(s, t)
    requires t.journal == if e.Commit? then e.journal else s.journal
    requires e.Commit? ==> Delivery.IsRunning(s.core, w) && Names(s.core.db, LeaseOf(s, w))
    ensures CheckStillHolds(t)
  {
    forall v | v in t.handlers && Serves(t, v) && t.handlers[v].ParseStart? && Names(t.core.db, LeaseOf(t, v))
      ensures !Unfinished(t.journal, UploadIdentity(t.jobs[t.handlers[v].l.job].source))
    {
      if v == w {
        OwnCheckHolds(s, w, e, next);
      } else {
        assert Serves(s, v) && Serves(s, w);
        OtherCheckHolds(s, w, e, next, v);
      }
    }
  }

  /** The lease-protected check-then-act. */
  lemma ContinueCheck(s: System, w: nat, e: Effect, now: real, next: Handler, t: System)
    requires Delivery.LeasesSound(s.core) && Delivery.OwnersDistinct(s.core) && CommandsSound(s)
    requires Serving(s) && Synced(s) && CheckStillHolds(s) && w in s.handlers
    requires Shape(s, w, e, now, next, t) && StartsOwn(s, w, e, next)
    ensures CheckStillHolds(t)
  {
    ShapeJobs(s, w, e, now, next, t);
    CheckAfter(s, w, e, next, t);
  }

  lemma AboutBefore(s: System, w: nat, e: Effect, now: real, next: Handler, t: System, v: nat, key: OpKey)
    requires Serving(s) && Synced(s) && w in s.handlers && Shape(s, w, e, now, next, t) && v != w
    ensures AboutToPost(t, v, key) <==> AboutToPost(s, v, key)
  {
  }

  /** A handler is about to post after this step only when this step claimed the operation. */
  lemma AboutNow(cfg: Config, s: System, w: nat, e: Effect, now: real, next: Handler, t: System, key: OpKey)
    requires Serving(s) && Synced(s) && PostsOnce(s) && w in s.handlers
    requires Continues(cfg, s, w, e, now, next, t) && Shape(s, w, e, now, next, t)
    requires AboutToPost(t, w, key)
    ensures e.Commit? && Claims(s.journal, e.journal, key) && Posts(s, key) == 0
    ensures forall v :: !AboutToPost(s, v, key)
  {
    ShapeJobs(s, w, e, now, next, t);
    PostPoint(cfg, s, w, now, s.handlers[w], e, next);
    assert !PastIntended(s.journal, key);
  }

  /** Each remote write is issued for an operation past intended and never written before. */
  lemma CountPosts(cfg: Config, s: System, w: nat, e: Effect, now: real, next: Handler, t: System)
    requires PostsOnce(s) && w in s.handlers && Continues(cfg, s, w, e, now, next, t) && Shape(s, w, e, now, next, t)
    requires Grows(s.journal, JournalAfter(s, e))
    ensures t.journal == JournalAfter(s, e)
    ensures forall key :: Posts(t, key) == Posts(s, key) + if e.Post? && key == e.key then 1 else 0
    ensures e.Post? ==> AboutToPost(s, w, e.key) && Posts(s, e.key) == 0 && PastIntended(s.journal, e.key)
    ensures forall key :: Posts(t, key) <= 1 && (Posts(t, key) == 1 ==> PastIntended(t.journal, key))
  {
    if e.Post? {
      PostTarget(cfg, s, w, now, s.handlers[w], e, next);
      assert AboutToPost(s, w, e.key);
    }
  }

  /** Whoever else was about to post before is still about to post an operation never written. */
  lemma OthersFresh(s: System, w: nat, e: Effect, t: System, v: nat, key: OpKey)
    requires PostsOnce(s) && Grows(s.journal, t.journal) && v != w && AboutToPost(s, v, key)
    requires Posts(t, key) == Posts(s, key) + if e.Post? && key == e.key then 1 else 0
    requires e.Post? ==> AboutToPost(s, w, e.key)
    ensures PastIntended(t.journal, key) && Posts(t, key) == 0
  {
  }

  lemma AboutFresh(cfg: Config, s: System, w: nat, e: Effect, now: real, next: Handler, t: System, v: nat, key: OpKey)
    requires Serving(s) && Synced(s) && PostsOnce(s) && w in s.handlers
    requires Continues(cfg, s, w, e, now, next, t) && Shape(s, w, e, now, next, t)
    requires t.journal == JournalAfter(s, e) && Grows(s.journal, t.journal) && AboutToPost(t, v, key)
    requires Posts(t, key) == Posts(s, key) + if e.Post? && key == e.key then 1 else 0
    requires e.Post? ==> AboutToPost(s, w, e.key)
    ensures PastIntended(t.journal, key) && Posts(t, key) == 0
  {
    if v == w {
      AboutNow(cfg, s, w, e, now, next, t, key);
    } else {
      AboutBefore(s, w, e, now, next, t, v, key);
      OthersFresh(s, w, e, t, v, key);
    }
  }

  /** When the acting handler is about to post, nobody else is about to post the same. */
  lemma AboutAlone(cfg: Config, s: System, w: nat, e: Effect, now: real, next: Handler, t: System, v: nat, key: OpKey)
    requires Serving(s) && Synced(s) && PostsOnce(s) && w in s.handlers && v != w
    requires Continues(cfg, s, w, e, now, next, t) && Shape(s, w, e, now, next, t) && AboutToPost(t, w, key)
    ensures !AboutToPost(t, v, key)
  {
    AboutNow(cfg, s, w, e, now, next, t, key);
    AboutBefore(s, w, e, now, next, t, v, key);
  }

  lemma AboutUnique(cfg: Config, s: System, w: nat, e: Effect, now: real, next: Handler, t: System, v: nat, u: nat,
                    key: OpKey)
    requires Serving(s) && Synced(s) && PostsOnce(s) && w in s.handlers
    requires Continues(cfg, s, w, e, now, next, t) && Shape(s, w, e, now, next, t)
    requires AboutToPost(t, v, key) && AboutToPost(t, u, key)
    ensures v == u
  {
    if v == w && u != w {
      AboutAlone(cfg, s, w, e, now, next, t, u, key);
    } else if v != w && u == w {
      AboutAlone(cfg, s, w, e, now, next, t, v, key);
    } else if v != w {
      AboutBefore(s, w, e, now, next, t, v, key);
      AboutBefore(s, w, e, now, next, t, u, key);
    }
  }

  lemma ContinuePosts(cfg: Config, s: System, w: nat, e: Effect, now: real, next: Handler, t: System)
    requires Serving(s) && Synced(s) && PostsOnce(s) && w in s.handlers
    requires Continues(cfg, s, w, e, now, next, t) && Shape(s, w, e, now, next, t)
    requires Grows(s.journal, JournalAfter(s, e))
    ensures PostsOnce(t)
  {
    CountPosts(cfg, s, w, e, now, next, t);
    forall v: nat, key: OpKey | AboutToPost(t, v, key) ensures PastIntended(t.journal, key) && Posts(t, key) == 0 {
      AboutFresh(cfg, s, w, e, now, next, t, v, key);
    }
    forall v: nat, u: nat, key: OpKey | AboutToPost(t, v, key) && AboutToPost(t, u, key) ensures v == u {
      AboutUnique(cfg, s, w, e, now, next, t, v, u, key);
    }
  }
}
