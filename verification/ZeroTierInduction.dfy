/**
 The induction step of the ZeroTier invariant, once for all steps.

 A step is taken by one goroutine, `t`, and may start another, `u`.  `Local` is the part of the
 invariant that such a step can rely on; `Obliged` is what it has to show.  `Induct` turns the
 second into the whole invariant: what a goroutine knows survives the steps of the others
 (`ThreadsSurvive`), and resources only change hands (`ResourcesMove`).
 */
module ZeroTierInduction {
  import opened Options
  import opened ZeroTierState
  import opened ZeroTierSteps
  import opened ZeroTierInvariant

  /** What every step keeps for everybody. */
  ghost predicate Rely(sh: Shared, w: World, sh': Shared, w': World) {
    && sh.stateCh <= sh'.stateCh
    && (sh'.stateCh == sh.stateCh && Waiting(sh) ==> Waiting(sh'))
    && sh.generation <= sh'.generation
    && (sh.ctxDone ==> sh'.ctxDone) && (sh.closed ==> sh'.closed)
    && (forall d :: d in w.stacks ==> d in w'.stacks && w'.stacks[d] == w.stacks[d])
  }

  /** What a step keeps that is taken without `operationMu`. */
  ghost predicate Quiet(sh: Shared, w: World, sh': Shared, w': World) {
    && sh'.runtime == sh.runtime && sh'.config == sh.config && sh'.closed == sh.closed
    && (sh'.device == sh.device || sh'.device.None?)
    && w'.link == w.link && w'.leftOn == w.leftOn
  }

  /** All goroutines but `t` and `u` keep their program points. */
  ghost predicate OthersStay(s: State, s': State, t: Tid, u: Tid) {
    forall x :: x != t && x != u ==>
      (x in s'.threads <==> x in s.threads) && (x in s.threads ==> s'.threads[x] == s.threads[x])
  }

  /** Resources in sight of goroutines `t` and `u` and of the published fields. */
  function InPlay(s: State, t: Tid, u: Tid): set<Resource> {
    OwnedBy(s, t) + OwnedBy(s, u) + Published(s.sh)
  }

  /** No resource is in two of the three places. */
  ghost predicate Apart(s: State, t: Tid, u: Tid) {
    && OwnedBy(s, t) !! Published(s.sh)
    && OwnedBy(s, u) !! Published(s.sh)
    && (t != u ==> OwnedBy(s, t) !! OwnedBy(s, u))
  }

  /** `created` appear open, `closed` are closed once more, nothing else happens to any resource. */
  ghost predicate ClosesChange(w: World, w': World, created: set<Resource>, closed: set<Resource>) {
    && created !! closed
    && w'.closes.Keys == w.closes.Keys + created
    && (forall r :: r in created ==> r !in w.closes && w'.closes[r] == 0)
    && (forall r :: r in w.closes ==> w'.closes[r] == w.closes[r] + if r in closed then 1 else 0)
  }

  ghost predicate ResourcesObliged(s: State, s': State, t: Tid, u: Tid, created: set<Resource>, closed: set<Resource>) {
    && ClosesChange(s.world, s'.world, created, closed)
    && InPlay(s, t, u) + created == InPlay(s', t, u) + closed
    && InPlay(s', t, u) !! closed
    && Apart(s', t, u)
  }

  /** The locks change only by `t` taking or releasing one. */
  ghost predicate LocksObliged(s: State, s': State, t: Tid, u: Tid) {
    && (s'.op == s.op || (LocksFree(s) && s'.op == Some(t)) || (s.op == Some(t) && s'.op.None?))
    && (|| s'.readers == s.readers
        || (s.op.None? && s'.op.None? && (s'.readers == s.readers + {t} || s'.readers == s.readers - {t})))
    && (t in s'.threads ==>
          && (s'.threads[t].pc.Op? <==> s'.op == Some(t))
          && (s'.threads[t].pc.Read? <==> t in s'.readers))
    && (t !in s'.threads ==> s'.op != Some(t) && t !in s'.readers)
    && (u != t ==> u !in s.threads && (u in s'.threads ==> s'.threads[u].pc.Free?))
  }

  /** The retry slot is kept, taken or given back by `t`. */
  ghost predicate RetryObliged(s: State, s': State, t: Tid, u: Tid) {
    && (u != t ==> !Retries(s', u))
    && (|| (s'.sh.retrying == s.sh.retrying && Retries(s', t) == Retries(s, t))
        || (!s.sh.retrying && s'.sh.retrying && Retries(s', t))
        || (Retries(s, t) && !s'.sh.retrying && !Retries(s', t)))
  }

  ghost predicate ThreadObliged(c: Params, s': State, t: Tid) {
    t in s'.threads ==> ThreadOk(c, s'.sh, s'.world, s'.threads[t])
  }

  ghost predicate FieldsObliged(c: Params, s: State, s': State, t: Tid, u: Tid) {
    && Rely(s.sh, s.world, s'.sh, s'.world)
    && (s.op == Some(t) || LocksFree(s) || Quiet(s.sh, s.world, s'.sh, s'.world))
    && ThreadObliged(c, s', t) && ThreadObliged(c, s', u)
    && SharedOk(c, s'.sh, s'.world)
    && LinkOk(c, s')
  }

  ghost predicate Obliged(c: Params, s: State, s': State, t: Tid, u: Tid, created: set<Resource>,
                          closed: set<Resource>) {
    && OthersStay(s, s', t, u)
    && FieldsObliged(c, s, s', t, u)
    && LocksObliged(s, s', t, u)
    && ResourcesObliged(s, s', t, u, created, closed)
    && RetryObliged(s, s', t, u)
  }

  /** What a step of `t` may use. */
  ghost predicate Local(c: Params, s: State, t: Tid) {
    && SharedOk(c, s.sh, s.world)
    && (t in s.threads ==>
          && ThreadOk(c, s.sh, s.world, s.threads[t])
          && (s.threads[t].pc.Op? <==> s.op == Some(t))
          && (s.threads[t].pc.Read? <==> t in s.readers)
          && (s.threads[t].deferred ==> s.sh.retrying))
    && (t !in s.threads ==> s.op != Some(t) && t !in s.readers)
    && (s.op.Some? ==> s.readers == {})
    && LinkOk(c, s)
    && OwnedBy(s, t) !! Published(s.sh)
  }

  lemma InvIsLocal(c: Params, s: State, t: Tid)
    requires Inv(c, s)
    ensures Local(c, s, t)
  {
    assert Retries(s, t) ==> s.sh.retrying;
  }

  // ----- interference -----

  lemma ThreadSurvives(c: Params, sh: Shared, w: World, sh': Shared, w': World, th: Thread)
    requires ThreadOk(c, sh, w, th)
    requires Rely(sh, w, sh', w')
    requires !th.pc.Free? ==> Quiet(sh, w, sh', w')
    ensures ThreadOk(c, sh', w', th)
  {
  }

  lemma ThreadsSurvive(c: Params, s: State, s': State, t: Tid, u: Tid)
    requires ThreadsOk(c, s) && LocksOk(s)
    requires OthersStay(s, s', t, u)
    requires FieldsObliged(c, s, s', t, u)
    ensures ThreadsOk(c, s')
  {
    forall x | x in s'.threads ensures ThreadOk(c, s'.sh, s'.world, s'.threads[x]) {
      if x != t && x != u {
        ThreadSurvives(c, s.sh, s.world, s'.sh, s'.world, s'.threads[x]);
      }
    }
  }

  lemma LocksSurvive(s: State, s': State, t: Tid, u: Tid)
    requires LocksOk(s) && OthersStay(s, s', t, u) && LocksObliged(s, s', t, u)
    ensures LocksOk(s')
  {
  }

  lemma RetrySurvives(s: State, s': State, t: Tid, u: Tid)
    requires RetryOk(s) && OthersStay(s, s', t, u) && RetryObliged(s, s', t, u)
    requires u != t ==> u !in s.threads
    ensures RetryOk(s')
  {
    forall x | x != t && x != u ensures Retries(s', x) == Retries(s, x) {
    }
    if s'.sh.retrying && !Retries(s', t) {
      var x :| Retries(s, x);
      assert Retries(s', x);
    }
  }

  // ----- resources change hands -----

  lemma ResourcesMove(s: State, s': State, t: Tid, u: Tid, created: set<Resource>, closed: set<Resource>)
    requires OwnershipOk(s)
    requires forall x :: x != t && x != u ==> OwnedBy(s', x) == OwnedBy(s, x)
    requires ResourcesObliged(s, s', t, u, created, closed)
    ensures OwnershipOk(s')
  {
    forall r | r in closed ensures r in s.world.closes && s.world.closes[r] == 0 {
      assert r in InPlay(s, t, u);
    }
    forall x, r | r in OwnedBy(s', x)
      ensures r in s'.world.closes && s'.world.closes[r] == 0 && r !in Published(s'.sh)
    {
      if x != t && x != u {
        assert r in OwnedBy(s, x);
        assert r !in InPlay(s, t, u);
      } else {
        assert r in InPlay(s', t, u);
      }
    }
    forall x, y, r | x != y && r in OwnedBy(s', x) ensures r !in OwnedBy(s', y) {
      if x != t && x != u {
        assert r in OwnedBy(s, x);
        assert r !in InPlay(s, t, u);
      }
    }
    forall r | r in s'.world.closes && s'.world.closes[r] == 0 ensures r in Published(s'.sh) || HasOwner(s', r) {
      if r in created || r in InPlay(s, t, u) {
        assert r in InPlay(s', t, u);
        if r in OwnedBy(s', t) || r in OwnedBy(s', u) {
          assert HasOwner(s', r);
        }
      } else {
        var x :| r in OwnedBy(s, x);
        assert r in OwnedBy(s', x);
      }
    }
  }

  lemma Induct(c: Params, s: State, s': State, t: Tid, u: Tid, created: set<Resource>, closed: set<Resource>)
    requires Inv(c, s)
    requires Obliged(c, s, s', t, u, created, closed)
    ensures Inv(c, s')
  {
    ThreadsSurvive(c, s, s', t, u);
    LocksSurvive(s, s', t, u);
    RetrySurvives(s, s', t, u);
    ResourcesMove(s, s', t, u, created, closed);
  }
}
