/** The lifespan counter and the expiry rule of the first two versions. The update of a
    pool member first asks whether its lifespan already exceeds the limit (then it removes
    itself and stops), and only afterwards adds one to the lifespan. */
module Lifecycle {

  /** Particles created by one mouse-down event. */
  const ParticleCount: nat := 100

  /** The lifespan a particle may reach before it expires. */
  const LifespanFrames: int := 200

  datatype Option<T> = None | Some(value: T)

  /** The expiry test, made before the lifespan is incremented. */
  predicate Expired(lifespan: int) {
    lifespan > LifespanFrames
  }

  /** The lifespan of a pool member after `k` more of its own updates, or `None` once
      one of those updates has removed it from the pool. */
  function Survive(lifespan: int, k: nat): Option<int>
    decreases k
  {
    if k == 0 then Some(lifespan)
    else if Expired(lifespan) then None
    else Survive(lifespan + 1, k - 1)
  }

  /** Until the limit is passed, each update adds exactly one. */
  lemma {:induction false} Counts(lifespan: int, k: nat)
    requires lifespan + k <= LifespanFrames + 1
    ensures Survive(lifespan, k) == Some(lifespan + k)
    decreases k
  {
    if k > 0 {
      Counts(lifespan + 1, k - 1);
    }
  }

  /** Once removed, a particle stays removed, however many further updates are counted. */
  lemma {:induction false} GoneForGood(lifespan: int, k: nat, extra: nat)
    requires Survive(lifespan, k) == None
    ensures Survive(lifespan, k + extra) == None
    decreases k
  {
    if !Expired(lifespan) {
      GoneForGood(lifespan + 1, k - 1, extra);
    }
  }

  /** A surviving lifespan never goes above the limit plus one. */
  lemma {:induction false} Peak(lifespan: int, k: nat)
    requires lifespan <= LifespanFrames + 1
    ensures Survive(lifespan, k).Some? ==> Survive(lifespan, k).value <= LifespanFrames + 1
    decreases k
  {
    if k > 0 && !Expired(lifespan) {
      Peak(lifespan + 1, k - 1);
    }
  }

  /** A particle created with lifespan 0 is still in the pool, with lifespan `k`, after
      each of its first 201 updates, and removes itself on exactly its 202nd update. */
  lemma RemovedOnUpdate202(k: nat)
    ensures k <= LifespanFrames + 1 ==> Survive(0, k) == Some(k)
    ensures Survive(0, k) == None <==> k >= LifespanFrames + 2
  {
    if k <= LifespanFrames + 1 {
      Counts(0, k);
    } else {
      Counts(0, LifespanFrames + 1);
      assert Survive(0, LifespanFrames + 2) == None by {
        assert Survive(LifespanFrames + 1, 1) == None;
        SurviveSplit(0, LifespanFrames + 1, 1);
      }
      GoneForGood(0, LifespanFrames + 2, k - (LifespanFrames + 2));
    }
  }

  /** Counting `a` updates and then `b` more, for a particle still present after the
      first `a`. */
  lemma {:induction false} SurviveSplit(lifespan: int, a: nat, b: nat)
    requires Survive(lifespan, a).Some?
    ensures Survive(lifespan, a + b) == Survive(Survive(lifespan, a).value, b)
    decreases a
  {
    if a > 0 {
      SurviveSplit(lifespan + 1, a - 1, b);
    }
  }
}
