/** The particle states along one frame's scan, for any kind of particle. `S` is the type
    of a particle's state, `life` reads its lifespan counter and `apply` gives the state an
    entry is left in by its fate. */
module FrameProgress {
  import opened Lifecycle
  import opened PoolScan

  /** Whether each of the states `ss` is past its lifespan. */
  function ExpiredFlags<S>(ss: seq<S>, life: S -> int): (e: seq<bool>)
    ensures |e| == |ss|
    ensures forall k :: 0 <= k < |ss| ==> e[k] == Expired(life(ss[k]))
  {
    seq(|ss|, k requires 0 <= k < |ss| => Expired(life(ss[k])))
  }

  /** The expiry flags of `ss`, known only by their defining property. The frame methods
      take their flags from here rather than from `ExpiredFlags` so that the solver sees the
      property without unfolding the sequence construction, which keeps their proofs small. */
  ghost method ExpiryOf<S>(ss: seq<S>, life: S -> int) returns (e: seq<bool>)
    ensures |e| == |ss|
    ensures forall k :: 0 <= k < |ss| ==> e[k] == Expired(life(ss[k]))
  {
    e := ExpiredFlags(ss, life);
  }

  /** A particle's state after `k` more of its own updates while it is in the pool, or
      `None` once one of them has found it expired and it has removed itself. */
  function Own<S>(s: S, k: nat, life: S -> int, apply: (Fate, S) -> S): Option<S>
    decreases k
  {
    if k == 0 then Some(s)
    else if Expired(life(s)) then None
    else Own(apply(Updated, s), k - 1, life, apply)
  }

  /** When an update that runs to the end adds one to the lifespan, the particle's own
      updates follow the lifespan count: it is still in the pool exactly when the count
      says so, with the lifespan the count gives. */
  lemma {:induction false} OwnFollowsCount<S>(s: S, k: nat, life: S -> int, apply: (Fate, S) -> S)
    requires forall t :: life(apply(Updated, t)) == life(t) + 1
    ensures Own(s, k, life, apply).Some? <==> Survive(life(s), k).Some?
    ensures Own(s, k, life, apply).Some? ==> life(Own(s, k, life, apply).value) == Survive(life(s), k).value
    decreases k
  {
    if k > 0 && !Expired(life(s)) {
      OwnFollowsCount(apply(Updated, s), k - 1, life, apply);
    }
  }

  /** Partway through a frame's scan, at entry `j`: of the states `now` of the pool the
      frame began with, those before `j` have had their fates applied to their starting
      states `start`, and the others are untouched. */
  ghost predicate Progressed<S>(now: seq<S>, start: seq<S>, expired: seq<bool>, j: nat, apply: (Fate, S) -> S) {
    |start| == |now| == |expired| && j <= |now|
    && (forall k :: 0 <= k < j ==> now[k] == apply(Fates(expired)[k], start[k]))
    && (forall k :: j <= k < |now| ==> now[k] == start[k])
  }

  /** Applying entry `j`'s fate moves the scan on to `next`, past any skipped entry, when a
      skipped entry keeps its state. */
  lemma ProgressStep<S>(now: seq<S>, start: seq<S>, expired: seq<bool>, j: nat, next: nat, apply: (Fate, S) -> S)
    requires Progressed(now, start, expired, j, apply) && j < |now|
    requires next == j + 1 || (next == j + 2 && j + 1 < |now| && Fates(expired)[j + 1] == Skipped
                               && apply(Skipped, start[j + 1]) == start[j + 1])
    ensures Progressed(now[j := apply(Fates(expired)[j], now[j])], start, expired, next, apply)
  {
  }

  /** The bookkeeping of one step of the scan: entry `j`, at position `i` of the pool `ps`
      and in the state `now[j]`, was drawn or removed, leaving the pool `rest`; the scan
      moves on to `next`. */
  lemma Advance<T, S>(before: seq<T>, expired: seq<bool>, start: seq<S>, now: seq<S>, j: nat, i: nat,
                      ps: seq<T>, drawn: seq<T>, wasDrawn: bool, rest: seq<T>,
                      life: S -> int, apply: (Fate, S) -> S)
    returns (next: nat)
    requires Scanning(before, expired, j, i, ps, drawn) && Progressed(now, start, expired, j, apply)
    requires forall k :: 0 <= k < |start| ==> expired[k] == Expired(life(start[k]))
    requires forall s :: apply(Skipped, s) == s
    requires j < |before| && i < |ps| && wasDrawn == !Expired(life(now[j]))
    requires rest == if wasDrawn then ps else ps[..i] + ps[i + 1..]
    ensures Scanning(before, expired, next, i + 1, rest, if wasDrawn then drawn + [before[j]] else drawn)
    ensures Progressed(now[j := apply(Fates(expired)[j], now[j])], start, expired, next, apply) && j < next
    ensures Fates(expired)[j] == if wasDrawn then Updated else Removed
  {
    if wasDrawn {
      ScanUpdated(before, expired, j, i, ps, drawn);
      next := j + 1;
    } else {
      ScanRemoved(before, expired, j, i, ps, drawn);
      next := Next(j, |before|);
    }
    ProgressStep(now, start, expired, j, next, apply);
  }

  /** Where the scan ends: every entry has had its fate, and the pool holds the kept
      entries, in order and still distinct. */
  lemma Finish<T, S>(before: seq<T>, expired: seq<bool>, start: seq<S>, now: seq<S>, j: nat, i: nat,
                     ps: seq<T>, drawn: seq<T>, life: S -> int, apply: (Fate, S) -> S)
    requires Distinct(before) && Scanning(before, expired, j, i, ps, drawn) && |ps| <= i
    requires Progressed(now, start, expired, j, apply)
    requires |expired| == |start| && forall k :: 0 <= k < |start| ==> expired[k] == Expired(life(start[k]))
    ensures var fates := Fates(ExpiredFlags(start, life));
            && Distinct(ps) && ps == Select(before, fates, Kept) && drawn == Select(before, fates, {Updated})
            && forall k :: 0 <= k < |now| ==> now[k] == apply(fates[k], start[k])
  {
    ScanEnd(before, expired, j, i, ps, drawn);
    assert expired == ExpiredFlags(start, life);
    SelectDistinct(before, Fates(expired), Kept);
  }
}
