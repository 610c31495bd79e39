/**
 * `cleanExpiredPlans`: the hourly sweep that deletes every plan whose
 * `fechaHora` has passed, together with its subscriptions and their
 * reverse-index entries, in one write batch per plan.
 */
module Cleanup {
  import opened Wrappers
  import opened Documents

  /** A document reference as a write batch holds it. */
  datatype DocRef =
    | PlanRef(plan: string)                    // planes/{plan}
    | InscritoRef(plan: string, user: string)  // planes/{plan}/inscritos/{user}
    | UserPlanRef(user: string, plan: string)  // users/{user}/planes/{plan}

  /** What the sweep's query returns: the plans with `fechaHora <= now`. */
  function ExpiredPlans(s: Store, now: int): set<string> {
    set p | p in s.planes && s.planes[p].fechaHora <= now
  }

  /** The subscriptions of plan `q` that `batch` does not delete. */
  function Kept(subs: seq<Inscrito>, q: string, batch: seq<DocRef>): (r: seq<Inscrito>)
    ensures forall x :: x in r <==> x in subs && InscritoRef(q, x.userId) !in batch
  {
    if subs == [] then []
    else (if InscritoRef(q, subs[0].userId) in batch then [] else [subs[0]]) + Kept(subs[1..], q, batch)
  }

  /** The store after a successful `batch.commit()`: every referenced document is gone. */
  function Committed(s: Store, batch: seq<DocRef>): (t: Store)
    ensures t.users == s.users
    ensures forall p :: p in t.planes <==> p in s.planes && PlanRef(p) !in batch
  {
    Store(
      s.planes - (set r | r in batch && r.PlanRef? :: r.plan),
      map q | q in s.inscritos :: Kept(s.inscritos[q], q, batch),
      s.users,
      s.userPlanes - (set r | r in batch && r.UserPlanRef? :: (r.user, r.plan)))
  }

  /**
   * A commit deletes exactly the subscriptions and reverse-index entries the
   * batch names.
   */
  lemma CommittedEffect(s: Store, batch: seq<DocRef>)
    ensures var t := Committed(s, batch);
      && (forall q, x :: x in Subs(t, q) <==> x in Subs(s, q) && InscritoRef(q, x.userId) !in batch)
      && (forall u, p :: (u, p) in t.userPlanes <==> (u, p) in s.userPlanes && UserPlanRef(u, p) !in batch)
  {
    var t := Committed(s, batch);
    forall q ensures forall x :: x in Subs(t, q) <==> x in Subs(s, q) && InscritoRef(q, x.userId) !in batch {
      if q in s.inscritos {
        assert Subs(t, q) == Kept(s.inscritos[q], q, batch);
      }
    }
    forall u, p ensures (u, p) in t.userPlanes <==> (u, p) in s.userPlanes && UserPlanRef(u, p) !in batch {
      if UserPlanRef(u, p) in batch {
        assert (u, p) in (set r | r in batch && r.UserPlanRef? :: (r.user, r.plan));
      }
    }
  }

  /**
   * The specification of the sweep's effect: the plans in `gone` are removed
   * together with all their subscriptions and the reverse-index entries of
   * those subscriptions; nothing else changes.
   */
  function RemovePlans(s: Store, gone: set<string>): Store {
    Store(
      s.planes - gone,
      map q | q in s.inscritos :: if q in gone then [] else s.inscritos[q],
      s.users,
      set e | e in s.userPlanes && !(e.1 in gone && e.0 in Ids(Subs(s, e.1))))
  }

  /** What `RemovePlans` does, document by document. */
  lemma RemovePlansEffect(s: Store, gone: set<string>)
    ensures var t := RemovePlans(s, gone);
      && t.users == s.users
      && (forall p :: p in t.planes <==> p in s.planes && p !in gone)
      && (forall p | p in t.planes :: t.planes[p] == s.planes[p])
      && (forall p :: Subs(t, p) == if p in gone then [] else Subs(s, p))
      && (forall u, p :: (u, p) in t.userPlanes <==>
            (u, p) in s.userPlanes && !(p in gone && u in Ids(Subs(s, p))))
  {
  }

  /** The store after a sweep at time `now` whose commits fail for `failing`. */
  function Swept(s: Store, now: int, failing: set<string>): Store {
    RemovePlans(s, ExpiredPlans(s, now) - failing)
  }

  /** The batch the loop builds for plan `p` with subscriptions `subs`. */
  ghost predicate IsBatchFor(batch: seq<DocRef>, p: string, subs: seq<Inscrito>) {
    forall r :: r in batch <==>
      || r == PlanRef(p)
      || (r.InscritoRef? && r.plan == p && r.user in Ids(subs))
      || (r.UserPlanRef? && r.plan == p && r.user in Ids(subs))
  }

  lemma {:induction false} KeptAll(subs: seq<Inscrito>, q: string, batch: seq<DocRef>)
    requires forall x :: x in subs ==> InscritoRef(q, x.userId) in batch
    ensures Kept(subs, q, batch) == []
  {
    if subs != [] {
      KeptAll(subs[1..], q, batch);
    }
  }

  lemma {:induction false} KeptNone(subs: seq<Inscrito>, q: string, batch: seq<DocRef>)
    requires forall x :: x in subs ==> InscritoRef(q, x.userId) !in batch
    ensures Kept(subs, q, batch) == subs
  {
    if subs != [] {
      KeptNone(subs[1..], q, batch);
    }
  }

  /** Committing the batch built for one plan removes exactly that plan. */
  lemma CommitRemovesPlan(s: Store, p: string, batch: seq<DocRef>)
    requires IsBatchFor(batch, p, Subs(s, p))
    ensures Committed(s, batch) == RemovePlans(s, {p})
  {
    CommitPlanes(s, p, batch);
    CommitInscritos(s, p, batch);
    CommitUserPlanes(s, p, batch);
  }

  lemma CommitPlanes(s: Store, p: string, batch: seq<DocRef>)
    requires IsBatchFor(batch, p, Subs(s, p))
    ensures Committed(s, batch).planes == RemovePlans(s, {p}).planes
  {
    assert PlanRef(p) in batch;
    assert (set r | r in batch && r.PlanRef? :: r.plan) == {p};
  }

  lemma CommitInscritos(s: Store, p: string, batch: seq<DocRef>)
    requires IsBatchFor(batch, p, Subs(s, p))
    ensures Committed(s, batch).inscritos == RemovePlans(s, {p}).inscritos
  {
    var c := Committed(s, batch);
    var t := RemovePlans(s, {p});
    forall q | q in s.inscritos ensures c.inscritos[q] == t.inscritos[q] {
      if q == p {
        KeptAll(s.inscritos[q], q, batch);
      } else {
        KeptNone(s.inscritos[q], q, batch);
      }
    }
  }

  lemma CommitUserPlanes(s: Store, p: string, batch: seq<DocRef>)
    requires IsBatchFor(batch, p, Subs(s, p))
    ensures Committed(s, batch).userPlanes == RemovePlans(s, {p}).userPlanes
  {
    var dropped := set r | r in batch && r.UserPlanRef? :: (r.user, r.plan);
    forall e | e in s.userPlanes ensures e in dropped <==> (e.1 == p && e.0 in Ids(Subs(s, e.1))) {
      if e.1 == p && e.0 in Ids(Subs(s, e.1)) {
        assert UserPlanRef(e.0, e.1) in batch;
      }
    }
  }

  /** Removing no plan changes nothing. */
  lemma RemoveNothing(s: Store)
    ensures RemovePlans(s, {}) == s
  {
    var t := RemovePlans(s, {});
    assert t.inscritos == s.inscritos;
    assert t.userPlanes == s.userPlanes;
  }

  /** Removing the plans of `g` and then plan `p` is removing `g + {p}`. */
  lemma RemoveOneMore(s: Store, g: set<string>, p: string)
    requires p !in g
    ensures RemovePlans(RemovePlans(s, g), {p}) == RemovePlans(s, g + {p})
  {
    var a := RemovePlans(RemovePlans(s, g), {p});
    var b := RemovePlans(s, g + {p});
    assert a.planes == b.planes;
    assert a.inscritos == b.inscritos;
    assert a.userPlanes == b.userPlanes;
  }

  /**
   * An expired plan whose commit succeeds is gone with every subscription and
   * every reverse-index entry of its subscribers.
   */
  lemma SweepDeletesExpired(s: Store, now: int, failing: set<string>, p: string)
    requires p in s.planes && s.planes[p].fechaHora <= now && p !in failing
    ensures var t := Swept(s, now, failing);
      && p !in t.planes
      && Subs(t, p) == []
      && forall u :: u in Ids(Subs(s, p)) ==> (u, p) !in t.userPlanes
  {
    RemovePlansEffect(s, ExpiredPlans(s, now) - failing);
  }

  /**
   * A plan that is not yet due, or whose commit fails, keeps its document, its
   * subscriptions and its reverse-index entries; no profile ever changes.
   */
  lemma SweepKeepsOthers(s: Store, now: int, failing: set<string>, p: string)
    requires p !in s.planes || s.planes[p].fechaHora > now || p in failing
    ensures var t := Swept(s, now, failing);
      && t.users == s.users
      && (p in t.planes <==> p in s.planes)
      && (p in s.planes ==> t.planes[p] == s.planes[p])
      && Subs(t, p) == Subs(s, p)
      && forall u :: (u, p) in t.userPlanes <==> (u, p) in s.userPlanes
  {
    RemovePlansEffect(s, ExpiredPlans(s, now) - failing);
  }

  /**
   * After a sweep, the only plans still due at the same time are the expired
   * plans whose commit failed.
   */
  lemma SweptLeavesOnlyFailing(s: Store, now: int, failing: set<string>)
    ensures ExpiredPlans(Swept(s, now, failing), now) == ExpiredPlans(s, now) * failing
  {
    var t := Swept(s, now, failing);
    forall p | p in ExpiredPlans(t, now) ensures p in ExpiredPlans(s, now) * failing {
      assert p in s.planes && t.planes[p] == s.planes[p];
    }
    forall p | p in ExpiredPlans(s, now) * failing ensures p in ExpiredPlans(t, now) {
      assert p in t.planes;
    }
  }

  /**
   * A second sweep at the same time deletes nothing more, as long as every
   * plan whose commit failed the first time fails again.
   */
  lemma SweepIdempotent(s: Store, now: int, failing: set<string>, failing2: set<string>)
    requires ExpiredPlans(s, now) * failing <= failing2
    ensures Swept(Swept(s, now, failing), now, failing2) == Swept(s, now, failing)
  {
    var s1 := Swept(s, now, failing);
    SweptLeavesOnlyFailing(s, now, failing);
    assert ExpiredPlans(s1, now) - failing2 == {};
    RemoveNothing(s1);
  }

  /** The sweep keeps the reverse index in step with the subscriptions. */
  lemma SweepPreservesConsistency(s: Store, now: int, failing: set<string>)
    requires Consistent(s)
    ensures Consistent(Swept(s, now, failing))
  {
    var gone := ExpiredPlans(s, now) - failing;
    var t := Swept(s, now, failing);
    forall e | e in t.userPlanes ensures e.0 in Ids(Subs(t, e.1)) {
      assert e.1 !in gone;
    }
    forall p, x | p in t.inscritos && x in t.inscritos[p] ensures (x.userId, p) in t.userPlanes {
      assert p !in gone && x in Subs(s, p);
    }
  }

  /**
   * One turn of the sweep's loop, on specifications: after plans `done` were
   * handled, handling plan `p` with its batch extends the removed set by `p`
   * exactly when its commit does not fail.
   */
  lemma SweepStep(s0: Store, done: set<string>, failing: set<string>, p: string, batch: seq<DocRef>)
    requires p !in done
    requires IsBatchFor(batch, p, Subs(RemovePlans(s0, done - failing), p))
    ensures (if p in failing then RemovePlans(s0, done - failing)
             else Committed(RemovePlans(s0, done - failing), batch))
         == RemovePlans(s0, (done + {p}) - failing)
  {
    if p in failing {
      assert (done + {p}) - failing == done - failing;
    } else {
      CommitRemovesPlan(RemovePlans(s0, done - failing), p, batch);
      RemoveOneMore(s0, done - failing, p);
      assert (done + {p}) - failing == (done - failing) + {p};
    }
  }

  /**
   * The inner loop of the sweep: one reverse-index delete and one
   * subscription delete per subscriber, then the plan itself.
   */
  method BuildBatch(planId: string, subs: seq<Inscrito>) returns (batch: seq<DocRef>)
    ensures IsBatchFor(batch, planId, subs)
  {
    batch := [];
    for i := 0 to |subs|
      invariant IsBatchFor(batch + [PlanRef(planId)], planId, subs[..i])
    {
      batch := batch + [UserPlanRef(subs[i].userId, planId), InscritoRef(planId, subs[i].userId)];
      assert Ids(subs[..i + 1]) == Ids(subs[..i]) + {subs[i].userId} by {
        assert subs[..i + 1] == subs[..i] + [subs[i]];
      }
    }
    batch := batch + [PlanRef(planId)];
    assert subs[..|subs|] == subs;
  }

  /**
   * The document store as a mutable object, for the one operation that
   * writes to it.
   */
  class PlanStore {
    var planes: map<string, PlanDoc>
    var inscritos: map<string, seq<Inscrito>>
    var users: map<string, UserDoc>
    var userPlanes: set<(string, string)>

    function Snapshot(): Store
      reads this
    {
      Store(planes, inscritos, users, userPlanes)
    }

    constructor (s: Store)
      ensures Snapshot() == s
    {
      planes, inscritos, users, userPlanes := s.planes, s.inscritos, s.users, s.userPlanes;
    }

    /** `batch.commit()`: all of the batch's deletes, or none of them. */
    method Commit(batch: seq<DocRef>, ok: bool)
      modifies this
      ensures Snapshot() == if ok then Committed(old(Snapshot()), batch) else old(Snapshot())
    {
      if ok {
        var t := Committed(Snapshot(), batch);
        planes, inscritos, userPlanes := t.planes, t.inscritos, t.userPlanes;
      }
    }

    /**
     * One run of the sweep at time `now`; the commit for a plan in `failing`
     * throws, is logged, and the loop goes on with the next plan.
     */
    method CleanExpiredPlans(now: int, failing: set<string>)
      modifies this
      ensures Snapshot() == Swept(old(Snapshot()), now, failing)
    {
      ghost var s0 := Snapshot();
      RemoveNothing(s0);
      var expired := set p | p in planes && planes[p].fechaHora <= now;
      assert expired == ExpiredPlans(s0, now);
      if expired == {} {
        return;
      }
      var todo := expired;
      ghost var done: set<string> := {};
      while todo != {}
        invariant todo <= expired && done == expired - todo
        invariant Snapshot() == RemovePlans(s0, done - failing)
        decreases todo
      {
        var planId :| planId in todo;
        var batch := BuildBatch(planId, Subs(Snapshot(), planId));
        SweepStep(s0, done, failing, planId, batch);
        Commit(batch, planId !in failing);
        todo := todo - {planId};
        done := done + {planId};
      }
    }
  }
}
