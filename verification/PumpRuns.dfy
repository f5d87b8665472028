/** A pump is a run of the delivery machine: reconciled rows, then one claim and its outcome after the other, so
    that what holds of every run holds after a pump. */
module PumpRuns {
  import opened Tables
  import opened DeliverySpec
  import opened DeliveryMachine
  import opened DeliverySafety
  import opened DurableTasks

  // ---- joining pieces of a run ----------------------------------------------------------------------------

  lemma {:induction false} ReachesJoin(p: Policy, s: System, first: seq<Action>, t: System, second: seq<Action>,
                                       u: System)
    requires Reaches(p, s, first, t) && Reaches(p, t, second, u)
    ensures Reaches(p, s, first + second, u)
    decreases |first|
  {
    if first == [] {
      assert first + second == second;
    } else {
      ReachesJoin(p, Next(p, s, first[0]), first[1..], t, second, u);
      assert (first + second)[1..] == first[1..] + second;
    }
  }

  /** The run goes on with these actions. */
  ghost predicate Extends(states: seq<System>, actions: seq<Action>, all: seq<System>, acts: seq<Action>) {
    |states| == |actions| + 1 && |all| == |acts| + 1 && states <= all && actions <= acts
  }

  lemma {:induction false} RunGoesOn(p: Policy, states: seq<System>, actions: seq<Action>, more: seq<Action>, t: System)
    returns (all: seq<System>)
    requires IsRun(p, states, actions) && Reaches(p, states[|actions|], more, t)
    ensures IsRun(p, all, actions + more) && Extends(states, actions, all, actions + more)
    ensures all[|actions + more|] == t
    decreases |more|
  {
    if more == [] {
      all := states;
      assert actions + more == actions;
    } else {
      var a := more[0];
      OneMore(p, states, actions, a);
      all := RunGoesOn(p, states + [Next(p, states[|actions|], a)], actions + [a], more[1..], t);
      assert actions + more == actions + [a] + more[1..];
    }
  }

  lemma OneMore(p: Policy, states: seq<System>, actions: seq<Action>, a: Action)
    requires IsRun(p, states, actions) && Enabled(p, states[|actions|], a)
    ensures IsRun(p, states + [Next(p, states[|actions|], a)], actions + [a])
  {
    var all, acts := states + [Next(p, states[|actions|], a)], actions + [a];
    forall i | 0 <= i < |acts| ensures Enabled(p, all[i], acts[i]) && all[i + 1] == Next(p, all[i], acts[i]) {
      if i < |actions| {
        assert all[i] == states[i] && all[i + 1] == states[i + 1] && acts[i] == actions[i];
      }
    }
  }

  // ---- one round ------------------------------------------------------------------------------------------

  ghost function IssuedAfter(s: System, p: Policy, owner: Owner, claimed: real): set<Owner> {
    if First(s.db, p, claimed).Some? then s.issued + {owner} else s.issued
  }

  /** A round is a claim and its outcome, or a claim whose publisher finds its lease lost. */
  lemma RoundIsSteps(p: Policy, s: System, pub: nat, owner: Owner, failure: Option<string>, claimed: real,
                     finished: real)
    returns (actions: seq<Action>)
    requires pub !in s.publishers && owner !in s.issued
    ensures Reaches(p, s, actions, s.(db := Round(s.db, p, owner, failure, claimed, finished),
                                      issued := IssuedAfter(s, p, owner, claimed)))
  {
    match First(s.db, p, claimed)
    case None => actions := [];
    case Some(id) =>
      var claim := Action.ClaimDelivery(pub, id, owner, claimed);
      var t := Next(p, s, claim);
      var c := t.publishers[pub];
      var last := if HoldsDelivery(t.db, c, finished) then Action.FinishDelivery(pub, failure, finished)
                  else LosePublisher(pub);
      assert t.publishers - {pub} == s.publishers;
      actions := [claim, last];
      assert actions[1..] == [last] && [last][1..] == [];
      assert Reaches(p, Next(p, t, last), [], Next(p, t, last));
      assert Reaches(p, t, [last], Next(p, t, last));
  }

  // ---- the whole pump -------------------------------------------------------------------------------------

  /** Owners are fresh uuids. */
  predicate FreshOwners(s: System, owners: seq<Owner>) {
    && (forall i :: 0 <= i < |owners| ==> owners[i] !in s.issued)
    && forall i, k :: 0 <= i < k < |owners| ==> owners[i] != owners[k]
  }

  lemma {:induction false} PumpIsSteps(p: Policy, s: System, pub: nat, start: real, owners: seq<Owner>,
                                       failures: seq<Option<string>>, claimed: seq<real>, finished: seq<real>,
                                       rounds: nat)
    returns (actions: seq<Action>, issued: set<Owner>)
    requires rounds <= |owners| == |failures| == |claimed| == |finished|
    requires pub !in s.publishers && FreshOwners(s, owners)
    ensures Reaches(p, s, actions, s.(db := PumpSpec(s.db, p, start, owners, failures, claimed, finished, rounds),
                                      issued := issued))
    ensures forall o :: o in issued ==> o in s.issued || o in owners[..rounds]
  {
    if rounds == 0 {
      var rows := set id | id in s.db.outbox && Affected(p, s.db, id, start);
      issued := s.issued;
      actions := ReconcileIsRowSteps(p, s, start, rows);
    } else {
      var i := rounds - 1;
      var before, was := PumpIsSteps(p, s, pub, start, owners, failures, claimed, finished, i);
      var t := s.(db := PumpSpec(s.db, p, start, owners, failures, claimed, finished, i), issued := was);
      forall o | o in owners[..i] ensures o != owners[i] {}
      var round := RoundIsSteps(p, t, pub, owners[i], failures[i], claimed[i], finished[i]);
      issued := IssuedAfter(t, p, owners[i], claimed[i]);
      var u := s.(db := PumpSpec(s.db, p, start, owners, failures, claimed, finished, rounds), issued := issued);
      ReachesJoin(p, s, before, t, round, u);
      actions := before + round;
      assert owners[..rounds] == owners[..i] + [owners[i]];
    }
  }

  /** A pump at the end of any run is one more stretch of that run, for fresh uuids and a publisher of its own. */
  lemma PumpExtendsRun(p: Policy, states: seq<System>, actions: seq<Action>, pub: nat, start: real,
                       owners: seq<Owner>, failures: seq<Option<string>>, claimed: seq<real>, finished: seq<real>,
                       rounds: nat)
    returns (all: seq<System>, acts: seq<Action>)
    requires IsRun(p, states, actions) && rounds <= |owners| == |failures| == |claimed| == |finished|
    requires pub !in states[|actions|].publishers && FreshOwners(states[|actions|], owners)
    ensures IsRun(p, all, acts) && Extends(states, actions, all, acts)
    ensures all[|acts|].db ==
      PumpSpec(states[|actions|].db, p, start, owners, failures, claimed, finished, rounds)
  {
    var s := states[|actions|];
    var more, issued := PumpIsSteps(p, s, pub, start, owners, failures, claimed, finished, rounds);
    var t := s.(db := PumpSpec(s.db, p, start, owners, failures, claimed, finished, rounds), issued := issued);
    all := RunGoesOn(p, states, actions, more, t);
    acts := actions + more;
  }

  /** After a pump the tables are sound again, a pending row has attempts left or an open dead letter, and a row
      over its budget was put there by a takeover of an expired lease, before the pump or in it. */
  lemma PumpKeepsPromises(p: Policy, states: seq<System>, actions: seq<Action>, pub: nat, start: real,
                          owners: seq<Owner>, failures: seq<Option<string>>, claimed: seq<real>, finished: seq<real>,
                          rounds: nat, id: MessageId)
    returns (all: seq<System>, acts: seq<Action>, k: nat)
    requires p.Valid() && IsRun(p, states, actions) && rounds <= |owners| == |failures| == |claimed| == |finished|
    requires pub !in states[|actions|].publishers && FreshOwners(states[|actions|], owners)
    ensures var db := PumpSpec(states[|actions|].db, p, start, owners, failures, claimed, finished, rounds);
      && IndexSound(db) && Shapes(db) && WithinBudget(p, db)
      && IsRun(p, all, acts) && Extends(states, actions, all, acts) && all[|acts|].db == db
      && (id in db.outbox && db.outbox[id].attempts > p.maxAttempts ==>
            k < |acts| && SpentTakeover(p, all[k], acts[k], id))
  {
    all, acts := PumpExtendsRun(p, states, actions, pub, start, owners, failures, claimed, finished, rounds);
    RunInv(p, all, acts, |acts|);
    k := 0;
    if id in all[|acts|].db.outbox && all[|acts|].db.outbox[id].attempts > p.maxAttempts {
      k := OverBudgetOnlyByTakeover(p, all, acts, id, |acts|);
    }
  }
}
