/**
 * The GPS noise filter of RunDataManager, stated on values: which fixes are
 * kept, what they add to the total distance, and what holds of the kept track
 * after any stream of fixes.
 */
module NoiseFilter {
  import opened Wrappers

  /** A position fix (`CLLocation`); only its distance to other fixes matters here. */
  type Location

  /** `dist(a, b)` is `a.distance(from: b)` in metres. */
  type DistanceFn = (Location, Location) -> real

  /** Moves shorter than this are stationary jitter. */
  const MinDistanceThreshold: real := 2.0

  /** Moves longer than this are GPS drift. */
  const MaxGPSDriftThreshold: real := 50.0

  /** A move from the baseline passes both guards (both bounds inclusive). */
  predicate WithinThresholds(d: real) {
    MinDistanceThreshold <= d <= MaxGPSDriftThreshold
  }

  function LastOf(s: seq<Location>): Option<Location> {
    if s == [] then None else Some(s[|s| - 1])
  }

  /** Sum of the legs between consecutive fixes, each measured from the later fix to the earlier one. */
  function PathLength(dist: DistanceFn, s: seq<Location>): real
    decreases |s|
  {
    if |s| <= 1 then 0.0 else PathLength(dist, s[..|s| - 1]) + dist(s[|s| - 1], s[|s| - 2])
  }

  /** Every leg of `s` passed the filter. */
  ghost predicate FilteredPath(dist: DistanceFn, s: seq<Location>) {
    forall i :: 0 < i < |s| ==> WithinThresholds(dist(s[i], s[i - 1]))
  }

  /** The part of a session the filter works on: accepted fixes, the baseline, the total. */
  datatype Track = Track(locations: seq<Location>, last: Option<Location>, total: real)

  /** The track of a session that has just been reset. */
  const Empty: Track := Track([], None, 0.0)

  /**
   * The session invariant: the baseline is the last accepted fix (none when
   * nothing was accepted), every leg between accepted fixes passed the filter,
   * and the total is the sum of those legs.
   */
  ghost predicate Consistent(dist: DistanceFn, t: Track) {
    && t.last == LastOf(t.locations)
    && FilteredPath(dist, t.locations)
    && t.total == PathLength(dist, t.locations)
  }

  /** `updateLocation`: keep the fix, make it the baseline, add `d` to the total. */
  function Append(t: Track, fix: Location, d: real): Track {
    Track(t.locations + [fix], Some(fix), t.total + d)
  }

  /**
   * `processLocation`: the first fix is kept with 0 m; a later fix is kept
   * with its distance from the baseline when that distance is within both
   * thresholds, and is otherwise dropped without any change.
   */
  function Admit(dist: DistanceFn, t: Track, fix: Location): (r: Track)
    ensures Consistent(dist, t) ==> Consistent(dist, r)
    ensures t.total <= r.total
    ensures r == t || (r.locations == t.locations + [fix] && r.last == Some(fix))
  {
    match t.last
    case None => Append(t, fix, 0.0)
    case Some(baseline) =>
      var d := dist(fix, baseline);
      if d < MinDistanceThreshold then t
      else if d > MaxGPSDriftThreshold then t
      else Append(t, fix, d)
  }

  /** The track after feeding `fixes`, in order, to a freshly reset session. */
  function Replay(dist: DistanceFn, fixes: seq<Location>): (r: Track)
    ensures Consistent(dist, r)
    ensures |r.locations| <= |fixes|
    ensures forall x :: x in r.locations ==> x in fixes
    ensures fixes != [] ==> r.locations != [] && r.locations[0] == fixes[0]
    decreases |fixes|
  {
    if fixes == [] then Empty
    else Admit(dist, Replay(dist, fixes[..|fixes| - 1]), fixes[|fixes| - 1])
  }

  /** Feeding one more fix is one more `Admit` on the track so far. */
  lemma ReplaySnoc(dist: DistanceFn, fixes: seq<Location>, fix: Location)
    ensures Replay(dist, fixes + [fix]) == Admit(dist, Replay(dist, fixes), fix)
  {
    assert (fixes + [fix])[..|fixes|] == fixes;
  }

  /** With n legs each within the thresholds, the path is between 2n and 50n metres. */
  lemma {:induction false} PathLengthBounds(dist: DistanceFn, s: seq<Location>)
    requires FilteredPath(dist, s)
    requires s != []
    ensures MinDistanceThreshold * (|s| - 1) as real <= PathLength(dist, s)
    ensures PathLength(dist, s) <= MaxGPSDriftThreshold * (|s| - 1) as real
  {
    if |s| > 1 {
      var p := s[..|s| - 1];
      assert FilteredPath(dist, p) by {
        forall i | 0 < i < |p| ensures WithinThresholds(dist(p[i], p[i - 1])) {
          assert p[i] == s[i] && p[i - 1] == s[i - 1];
        }
      }
      PathLengthBounds(dist, p);
      assert WithinThresholds(dist(s[|s| - 1], s[|s| - 2]));
    }
  }

  /** After any stream of fixes with n of them kept: 2.0 * (n - 1) <= total <= 50.0 * (n - 1). */
  lemma ReplayTotalBounds(dist: DistanceFn, fixes: seq<Location>)
    requires fixes != []
    ensures var r := Replay(dist, fixes);
      && MinDistanceThreshold * (|r.locations| - 1) as real <= r.total
      && r.total <= MaxGPSDriftThreshold * (|r.locations| - 1) as real
  {
    PathLengthBounds(dist, Replay(dist, fixes).locations);
  }

  lemma ReplayStepTotal(dist: DistanceFn, fixes: seq<Location>, k: nat)
    requires k < |fixes|
    ensures Replay(dist, fixes[..k]).total <= Replay(dist, fixes[..k + 1]).total
  {
    assert fixes[..k + 1] == fixes[..k] + [fixes[k]];
    ReplaySnoc(dist, fixes[..k], fixes[k]);
  }

  /** The total distance never decreases as more fixes arrive. */
  lemma {:induction false} ReplayTotalMonotone(dist: DistanceFn, fixes: seq<Location>, k: nat)
    requires k <= |fixes|
    ensures Replay(dist, fixes[..k]).total <= Replay(dist, fixes).total
    decreases |fixes| - k
  {
    if k < |fixes| {
      ReplayTotalMonotone(dist, fixes, k + 1);
      ReplayStepTotal(dist, fixes, k);
    } else {
      assert fixes[..k] == fixes;
    }
  }

  /**
   * A fix that is rejected (jitter or drift) leaves the track as it was, so
   * the next fix is still measured from the old baseline.
   */
  lemma RejectedFixKeepsBaseline(dist: DistanceFn, t: Track, outlier: Location, next: Location)
    requires t.last.Some? && !WithinThresholds(dist(outlier, t.last.value))
    ensures Admit(dist, t, outlier) == t
    ensures Admit(dist, Admit(dist, t, outlier), next) == Admit(dist, t, next)
  {
  }

  /**
   * Fixes at +3 m (kept), +1 m (jitter), +80 m (drift) and +4 m from the
   * second fix (kept) after the baseline give 7 m over three kept fixes.
   */
  lemma SampleRun(dist: DistanceFn, p0: Location, p1: Location, p2: Location, p3: Location, p4: Location)
    requires dist(p1, p0) == 3.0
    requires dist(p2, p1) == 1.0
    requires dist(p3, p1) == 80.0
    requires dist(p4, p1) == 4.0
    ensures Replay(dist, [p0, p1, p2, p3, p4]).total == 7.0
    ensures Replay(dist, [p0, p1, p2, p3, p4]).locations == [p0, p1, p4]
  {
    var t2 := Track([p0, p1], Some(p1), 3.0);
    assert Replay(dist, [p0]) == Track([p0], Some(p0), 0.0) by {
      ReplaySnoc(dist, [], p0);
      assert [] + [p0] == [p0];
    }
    assert Replay(dist, [p0, p1]) == t2 by {
      ReplaySnoc(dist, [p0], p1);
      assert [p0] + [p1] == [p0, p1];
    }
    assert Replay(dist, [p0, p1, p2]) == t2 by {
      ReplaySnoc(dist, [p0, p1], p2);
      assert [p0, p1] + [p2] == [p0, p1, p2];
    }
    assert Replay(dist, [p0, p1, p2, p3]) == t2 by {
      ReplaySnoc(dist, [p0, p1, p2], p3);
      assert [p0, p1, p2] + [p3] == [p0, p1, p2, p3];
    }
    assert Replay(dist, [p0, p1, p2, p3, p4]) == Track([p0, p1, p4], Some(p4), 7.0) by {
      ReplaySnoc(dist, [p0, p1, p2, p3], p4);
      assert [p0, p1, p2, p3] + [p4] == [p0, p1, p2, p3, p4];
    }
  }
}
