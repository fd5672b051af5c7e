/** The pool scan of the first two versions, on values. The animation frame walks the pool
    with a forward index that re-reads the length on every pass; an update that finds its
    particle expired splices that particle out of the same array. The particle that moves
    into the freed slot is then passed over by the index. This module gives every entry of
    the pool, as it was when the frame began, its fate in that frame, and states what
    follows from the fates. */
module PoolScan {

  /** `Array.prototype.indexOf` with identity comparison: the first position of `x`, or -1. */
  function IndexOf<T(==)>(s: seq<T>, x: T): (r: int)
    ensures -1 <= r < |s|
    ensures r == -1 <==> x !in s
    ensures 0 <= r ==> s[r] == x && x !in s[..r]
    decreases |s|
  {
    if s == [] then -1
    else if s[0] == x then 0
    else
      var r := IndexOf(s[1..], x);
      assert s[1..][..r + 1] == s[1..r + 2] by { assert r + 1 <= |s[1..]|; }
      if r == -1 then -1 else r + 1
  }

  /** No object appears twice. */
  predicate Distinct<T(==)>(s: seq<T>) {
    forall i, j :: 0 <= i < j < |s| ==> s[i] != s[j]
  }

  /** In a pool without repetitions, `indexOf` of an entry is its position. */
  lemma IndexOfDistinct<T>(s: seq<T>, i: nat)
    requires Distinct(s) && i < |s|
    ensures IndexOf(s, s[i]) == i
  {
  }

  /** What happens to one entry of the pool during one frame. */
  datatype Fate =
    | Updated   // its update ran to the end: moved, aged by one, drawn
    | Removed   // its update found it expired and spliced it out
    | Skipped   // it slid into the slot of a removed entry and the index passed over it

  /** The fates that survive a frame in the pool. */
  const Kept: set<Fate> := {Updated, Skipped}

  /** Fates of the entries `expired` describes, visited in order. `skip` says that the
      entry before removed itself, so the first one here has been passed over. */
  function ScanFates(expired: seq<bool>, skip: bool): (fs: seq<Fate>)
    ensures |fs| == |expired|
    decreases |expired|
  {
    if expired == [] then []
    else if skip then [Skipped] + ScanFates(expired[1..], false)
    else if expired[0] then [Removed] + ScanFates(expired[1..], true)
    else [Updated] + ScanFates(expired[1..], false)
  }

  /** Fates of the whole pool in one frame; `expired[k]` says whether entry `k` was past
      its lifespan when the frame began. */
  function Fates(expired: seq<bool>): seq<Fate> {
    ScanFates(expired, false)
  }

  /** The local rule behind `ScanFates`: an entry is passed over exactly when the one
      before it removed itself; otherwise its own expiry decides. */
  lemma {:induction false} ScanRule(expired: seq<bool>, skip: bool, k: nat)
    requires k < |expired|
    ensures var fs := ScanFates(expired, skip);
            fs[k] == if (if k == 0 then skip else fs[k - 1] == Removed) then Skipped
                     else if expired[k] then Removed else Updated
    decreases k
  {
    if k > 0 {
      var f0 := ScanFates(expired, skip)[0];
      assert ScanFates(expired, skip) == [f0] + ScanFates(expired[1..], f0 == Removed);
      ScanRule(expired[1..], f0 == Removed, k - 1);
    }
  }

  /** What the fates of one frame mean. */
  lemma FateRule(expired: seq<bool>, k: nat)
    requires k < |expired|
    ensures var fs := Fates(expired);
            && (fs[k] == Removed ==> expired[k])
            && (fs[k] == Updated ==> !expired[k])
            && (fs[k] == Skipped <==> k > 0 && fs[k - 1] == Removed)
            && (expired[k] && fs[k] != Removed ==> fs[k] == Skipped)
            && (fs[k] == Removed && k + 1 < |expired| ==> fs[k + 1] == Skipped)
  {
    ScanRule(expired, false, k);
    if k + 1 < |expired| {
      ScanRule(expired, false, k + 1);
    }
  }

  /** When nothing has expired, every entry is updated and none is passed over. */
  lemma {:induction false} NothingExpired(expired: seq<bool>)
    requires forall k :: 0 <= k < |expired| ==> !expired[k]
    ensures forall k :: 0 <= k < |expired| ==> Fates(expired)[k] == Updated
  {
    forall k | 0 <= k < |expired|
      ensures Fates(expired)[k] == Updated
    {
      ScanRule(expired, false, k);
      if k > 0 {
        ScanRule(expired, false, k - 1);
      }
    }
  }

  /** Three particles, the first past its lifespan: it removes itself, the second slides
      into its slot and is passed over, the third is updated. When all three are past their
      lifespans, the second survives the frame. */
  lemma SkipExamples()
    ensures Fates([true, false, false]) == [Removed, Skipped, Updated]
    ensures Fates([true, true, true]) == [Removed, Skipped, Removed]
  {
    ScanRule([true, false, false], false, 1);
    ScanRule([true, false, false], false, 2);
    ScanRule([true, true, true], false, 1);
    ScanRule([true, true, true], false, 2);
  }

  /** The entries of `xs` whose fate is in `keep`, in their original order. */
  function Select<T>(xs: seq<T>, fs: seq<Fate>, keep: set<Fate>): (r: seq<T>)
    requires |xs| == |fs|
    ensures |r| <= |xs|
    decreases |xs|
  {
    if xs == [] then []
    else
      var n := |xs| - 1;
      Select(xs[..n], fs[..n], keep) + (if fs[n] in keep then [xs[n]] else [])
  }

  /** How many of the fates are in `keep`. */
  function CountIn(fs: seq<Fate>, keep: set<Fate>): nat
    decreases |fs|
  {
    if fs == [] then 0
    else CountIn(fs[..|fs| - 1], keep) + (if fs[|fs| - 1] in keep then 1 else 0)
  }

  /** Extending both sequences by one entry extends the selection by at most that entry. */
  lemma SelectSnoc<T>(xs: seq<T>, fs: seq<Fate>, keep: set<Fate>, j: nat)
    requires |xs| == |fs| && j < |xs|
    ensures Select(xs[..j + 1], fs[..j + 1], keep)
            == Select(xs[..j], fs[..j], keep) + (if fs[j] in keep then [xs[j]] else [])
  {
    assert xs[..j + 1][..j] == xs[..j];
    assert fs[..j + 1][..j] == fs[..j];
  }

  /** The selection has one entry per selected fate. */
  lemma {:induction false} SelectLength<T>(xs: seq<T>, fs: seq<Fate>, keep: set<Fate>)
    requires |xs| == |fs|
    ensures |Select(xs, fs, keep)| == CountIn(fs, keep)
    decreases |xs|
  {
    if xs != [] {
      SelectLength(xs[..|xs| - 1], fs[..|fs| - 1], keep);
    }
  }

  /** Every fate is either kept or removed. */
  lemma {:induction false} KeptOrRemoved(fs: seq<Fate>)
    ensures CountIn(fs, Kept) + CountIn(fs, {Removed}) == |fs|
    decreases |fs|
  {
    if fs != [] {
      KeptOrRemoved(fs[..|fs| - 1]);
      var last := fs[|fs| - 1];
      assert last.Updated? || last.Removed? || last.Skipped?;
    }
  }

  /** After a frame the pool is shorter by exactly the number of entries that removed
      themselves. */
  lemma SurvivorCount<T>(xs: seq<T>, fs: seq<Fate>)
    requires |xs| == |fs|
    ensures |Select(xs, fs, Kept)| == |xs| - CountIn(fs, {Removed})
  {
    SelectLength(xs, fs, Kept);
    KeptOrRemoved(fs);
  }

  /** The selection only holds entries of the original sequence. */
  lemma {:induction false} SelectSubset<T>(xs: seq<T>, fs: seq<Fate>, keep: set<Fate>, x: T)
    requires |xs| == |fs|
    ensures x in Select(xs, fs, keep) ==> x in xs
    decreases |xs|
  {
    if xs != [] {
      var n := |xs| - 1;
      SelectSubset(xs[..n], fs[..n], keep, x);
      if x in Select(xs[..n], fs[..n], keep) {
        assert x in xs[..n];
      }
    }
  }

  /** A selection from a sequence without repetitions has none either, and it holds an
      entry exactly when that entry's fate is selected. */
  lemma {:induction false} SelectDistinct<T>(xs: seq<T>, fs: seq<Fate>, keep: set<Fate>)
    requires |xs| == |fs| && Distinct(xs)
    ensures Distinct(Select(xs, fs, keep))
    ensures forall k :: 0 <= k < |xs| ==> (xs[k] in Select(xs, fs, keep) <==> fs[k] in keep)
    decreases |xs|
  {
    if xs != [] {
      var n := |xs| - 1;
      var front := Select(xs[..n], fs[..n], keep);
      SelectDistinct(xs[..n], fs[..n], keep);
      SelectSubset(xs[..n], fs[..n], keep, xs[n]);
      assert xs[n] !in xs[..n];
      forall k | 0 <= k < n
        ensures xs[k] in Select(xs, fs, keep) <==> fs[k] in keep
      {
        assert xs[..n][k] == xs[k];
      }
    }
  }

  /** The entry the scan reaches after entry `j` of a pool of `n`: the one after next
      when `j` removed itself, since the entry behind it slid into its slot. */
  function Next(j: nat, n: nat): (k: nat)
    ensures j < k
  {
    if j + 1 < n then j + 2 else j + 1
  }

  /** The scan reaches entry `j`, which has not expired: it is updated and kept. */
  lemma AdvanceUpdated<T>(xs: seq<T>, expired: seq<bool>, j: nat)
    requires |xs| == |expired| && j < |xs| && !expired[j]
    requires Fates(expired)[j..] == ScanFates(expired[j..], false)
    ensures var fs := Fates(expired);
            && fs[j] == Updated
            && fs[j + 1..] == ScanFates(expired[j + 1..], false)
            && Select(xs[..j + 1], fs[..j + 1], Kept) == Select(xs[..j], fs[..j], Kept) + [xs[j]]
            && Select(xs[..j + 1], fs[..j + 1], {Updated}) == Select(xs[..j], fs[..j], {Updated}) + [xs[j]]
  {
    var fs := Fates(expired);
    assert expired[j..][1..] == expired[j + 1..];
    assert fs[j..][1..] == fs[j + 1..];
    SelectSnoc(xs, fs, Kept, j);
    SelectSnoc(xs, fs, {Updated}, j);
  }

  /** Where the scan passes over entry `k`, it carries on normally after it. */
  lemma PassOver(expired: seq<bool>, fs: seq<Fate>, k: nat)
    requires k < |expired| == |fs| && fs[k..] == ScanFates(expired[k..], true)
    ensures fs[k] == Skipped && fs[k + 1..] == ScanFates(expired[k + 1..], false)
  {
    assert expired[k..][1..] == expired[k + 1..];
    assert fs[k..][1..] == fs[k + 1..];
  }

  /** The scan reaches entry `j`, which has expired: it is removed, and the entry after
      it, if any, is passed over and kept. */
  lemma AdvanceRemoved<T>(xs: seq<T>, expired: seq<bool>, j: nat)
    requires |xs| == |expired| && j < |xs| && expired[j]
    requires Fates(expired)[j..] == ScanFates(expired[j..], false)
    ensures var fs := Fates(expired);
            var next := Next(j, |xs|);
            && fs[j] == Removed
            && (j + 1 < |xs| ==> fs[j + 1] == Skipped)
            && fs[next..] == ScanFates(expired[next..], false)
            && Select(xs[..next], fs[..next], Kept) == Select(xs[..j], fs[..j], Kept) + xs[j + 1..next]
            && Select(xs[..next], fs[..next], {Updated}) == Select(xs[..j], fs[..j], {Updated})
  {
    var fs := Fates(expired);
    assert expired[j..][1..] == expired[j + 1..];
    assert fs[j..][1..] == fs[j + 1..];
    assert Removed !in Kept && Skipped in Kept;
    SelectSnoc(xs, fs, Kept, j);
    SelectSnoc(xs, fs, {Updated}, j);
    var before := Select(xs[..j], fs[..j], Kept);
    assert Select(xs[..j + 1], fs[..j + 1], Kept) == before;
    if j + 1 < |xs| {
      PassOver(expired, fs, j + 1);
      SelectSnoc(xs, fs, Kept, j + 1);
      SelectSnoc(xs, fs, {Updated}, j + 1);
      assert Select(xs[..j + 2], fs[..j + 2], Kept) == before + [xs[j + 1]];
      assert xs[j + 1..j + 2] == [xs[j + 1]];
      assert Next(j, |xs|) == j + 2;
    } else {
      assert xs[j + 1..j + 1] == [];
      assert Next(j, |xs|) == j + 1;
    }
  }

  /** The pool in the middle of a frame, once the scan has dealt with the first `j`
      entries of the pool `xs` it started from: the kept ones among those, then the rest. */
  function Midway<T>(xs: seq<T>, fs: seq<Fate>, j: nat): (m: seq<T>)
    requires |xs| == |fs| && j <= |xs|
    ensures |m| == |Select(xs[..j], fs[..j], Kept)| + |xs| - j
  {
    if j == 0 then xs else Select(xs[..j], fs[..j], Kept) + xs[j..]
  }

  lemma MidwaySplit<T>(xs: seq<T>, fs: seq<Fate>, j: nat)
    requires |xs| == |fs| && j <= |xs|
    ensures Midway(xs, fs, j) == Select(xs[..j], fs[..j], Kept) + xs[j..]
  {
    if j == 0 {
      assert xs[..0] == [] && fs[..0] == [] && xs[0..] == xs;
    }
  }

  /** The state of a frame's scan: the scan has dealt with the first `j` entries of the
      pool `xs` it started from, whose expiry flags were `expired`; the pool is now `ps`,
      the scan index is `i` and the entries drawn so far are `drawn`. */
  ghost predicate Scanning<T>(xs: seq<T>, expired: seq<bool>, j: nat, i: nat, ps: seq<T>, drawn: seq<T>) {
    |xs| == |expired| && j <= |xs|
    && Fates(expired)[j..] == ScanFates(expired[j..], false)
    && ps == Midway(xs, Fates(expired), j)
    && (j < |xs| ==> i == |Select(xs[..j], Fates(expired)[..j], Kept)| && i < |ps|)
    && (j == |xs| ==> |ps| <= i)
    && drawn == Select(xs[..j], Fates(expired)[..j], {Updated})
  }

  /** A frame starts with nothing dealt with, at index 0. */
  lemma ScanStart<T>(xs: seq<T>, expired: seq<bool>)
    requires |xs| == |expired|
    ensures Scanning(xs, expired, 0, 0, xs, [])
  {
    assert xs[..0] == [] && Fates(expired)[..0] == [];
  }

  /** While the index is inside the pool, it points at entry `j` of the original pool,
      and `indexOf` finds that entry there. */
  lemma ScanAt<T>(xs: seq<T>, expired: seq<bool>, j: nat, i: nat, ps: seq<T>, drawn: seq<T>)
    requires Scanning(xs, expired, j, i, ps, drawn) && i < |ps| && Distinct(xs)
    ensures j < |xs| && ps[i] == xs[j] && IndexOf(ps, xs[j]) == i
  {
    var fs := Fates(expired);
    var done := Select(xs[..j], fs[..j], Kept);
    MidwaySplit(xs, fs, j);
    SelectSubset(xs[..j], fs[..j], Kept, xs[j]);
    assert xs[j] !in xs[..j];
    assert ps[..|done|] == done;
    assert ps[|done|] == xs[j];
  }

  /** Entry `j` has not expired: it is updated and drawn, the pool is unchanged, and the
      scan moves on to entry `j + 1`. */
  lemma ScanUpdated<T>(xs: seq<T>, expired: seq<bool>, j: nat, i: nat, ps: seq<T>, drawn: seq<T>)
    requires Scanning(xs, expired, j, i, ps, drawn) && j < |xs| && !expired[j]
    ensures Fates(expired)[j] == Updated
    ensures Scanning(xs, expired, j + 1, i + 1, ps, drawn + [xs[j]])
  {
    var fs := Fates(expired);
    AdvanceUpdated(xs, expired, j);
    MidwaySplit(xs, fs, j);
    MidwaySplit(xs, fs, j + 1);
    assert xs[j..] == [xs[j]] + xs[j + 1..];
  }

  /** Entry `j` has expired: it is spliced out of the pool at the index, the entry after
      it, if any, is passed over, and the scan moves on to `Next(j)`. */
  lemma ScanRemoved<T>(xs: seq<T>, expired: seq<bool>, j: nat, i: nat, ps: seq<T>, drawn: seq<T>)
    requires Scanning(xs, expired, j, i, ps, drawn) && j < |xs| && expired[j]
    ensures Fates(expired)[j] == Removed
    ensures j + 1 < |xs| ==> Fates(expired)[j + 1] == Skipped
    ensures Scanning(xs, expired, Next(j, |xs|), i + 1, ps[..i] + ps[i + 1..], drawn)
  {
    var fs := Fates(expired);
    var next := Next(j, |xs|);
    var done := Select(xs[..j], fs[..j], Kept);
    AdvanceRemoved(xs, expired, j);
    MidwaySplit(xs, fs, j);
    MidwaySplit(xs, fs, next);
    assert ps[..i] == done;
    assert ps[i + 1..] == xs[j + 1..];
    assert xs[j + 1..] == xs[j + 1..next] + xs[next..];
  }

  /** When the index has passed the end of the pool, every entry has been dealt with:
      the pool holds the kept entries and the drawn ones are the updated entries. */
  lemma ScanEnd<T>(xs: seq<T>, expired: seq<bool>, j: nat, i: nat, ps: seq<T>, drawn: seq<T>)
    requires Scanning(xs, expired, j, i, ps, drawn) && |ps| <= i
    ensures j == |xs|
    ensures ps == Select(xs, Fates(expired), Kept)
    ensures drawn == Select(xs, Fates(expired), {Updated})
  {
    var n := |xs|;
    assert xs[..n] == xs && Fates(expired)[..n] == Fates(expired);
    MidwaySplit(xs, Fates(expired), j);
  }
}
