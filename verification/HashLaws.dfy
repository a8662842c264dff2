/** Which files a run of the pool hashes, and what it leaves stored, path by path. */
module HashLaws {
  import opened Json
  import opened HashPool

  /** The stored row is of the file's size and time, and holds a hash. */
  predicate UpToDate(rows: map<string, HashRow>, p: string, s: Stat) {
    p in rows && rows[p].size == s.size && rows[p].mtime == s.mtime && rows[p].hash != ""
  }

  /** Given paths that resolve to readable files whose stored row is up to date. */
  function Current(rows: map<string, HashRow>, paths: seq<Option<string>>, stats: map<string, Stat>): set<string> {
    set p | p in Resolved(paths) && p in stats && UpToDate(rows, p, stats[p])
  }

  /** Given paths that resolve to files whose stored row is not, and that can be hashed. */
  function Rehashed(rows: map<string, HashRow>, paths: seq<Option<string>>, stats: map<string, Stat>, digests: map<string, string>): set<string> {
    set p | p in Resolved(paths) && p in stats && !UpToDate(rows, p, stats[p]) && p in digests
  }

  /** The rows `r` are `rows` but for the paths of `again`, which have their size, time and digest. */
  ghost predicate Renewed(rows: map<string, HashRow>, r: map<string, HashRow>, again: set<string>, stats: map<string, Stat>, digests: map<string, string>)
    requires forall p :: p in again ==> p in stats && p in digests
  {
    && r.Keys == rows.Keys + again
    && forall p :: p in r ==> r[p] == if p in again then HashRow(stats[p].size, stats[p].mtime, digests[p]) else rows[p]
  }

  lemma {:induction false} GatedAreCurrent(rows: map<string, HashRow>, unique: seq<string>, stats: map<string, Stat>)
    requires Distinct(unique)
    ensures GatedCount(rows, unique, stats) == |set p | p in unique && p in stats && UpToDate(rows, p, stats[p])|
  {
    var all := set p | p in unique && p in stats && UpToDate(rows, p, stats[p]);
    if unique == [] { assert all == {}; }
    else {
      var n := |unique| - 1;
      GatedAreCurrent(rows, unique[..n], stats);
      var before := set p | p in unique[..n] && p in stats && UpToDate(rows, p, stats[p]);
      var p := unique[n];
      assert unique == unique[..n] + [p] && p !in unique[..n];
      assert all == if p in stats && UpToDate(rows, p, stats[p]) then before + {p} else before;
    }
  }

  function PathsAt(jobs: seq<Job>, at: set<nat>): set<string>
    requires forall i :: i in at ==> i < |jobs|
  {
    set i | i in at :: jobs[i].path
  }

  lemma {:induction false} AsManyPaths(jobs: seq<Job>, at: set<nat>)
    requires DistinctPaths(jobs) && forall i :: i in at ==> i < |jobs|
    ensures |PathsAt(jobs, at)| == |at|
    decreases |at|
  {
    if at != {} {
      var i :| i in at;
      AsManyPaths(jobs, at - {i});
      assert PathsAt(jobs, at) == PathsAt(jobs, at - {i}) + {jobs[i].path};
      forall k | k in at - {i} ensures jobs[k].path != jobs[i].path {
        if k < i { assert jobs[k].path != jobs[i].path; } else { assert i < k; }
      }
    }
  }

  /** The jobs of a whole run that can be hashed are exactly the rehashed paths. */
  lemma GoodAreRehashed(rows: map<string, HashRow>, paths: seq<Option<string>>, stats: map<string, Stat>, digests: map<string, string>)
    ensures var need := Need(rows, Unique(paths), stats);
      && DistinctPaths(need)
      && (forall i :: i in Good(need, digests, Indices(|need|)) ==>
            need[i].path in Rehashed(rows, paths, stats, digests) &&
            need[i] == Job(need[i].path, stats[need[i].path].size, stats[need[i].path].mtime))
      && (forall p :: p in Rehashed(rows, paths, stats, digests) ==>
            exists i :: i in Good(need, digests, Indices(|need|)) && need[i].path == p)
  {
    var need := Need(rows, Unique(paths), stats);
    UniqueOnce(paths);
    NeedOnce(rows, Unique(paths), stats);
    IndicesBelow(|need|);
    hide Need, Unique, Resolved, Distinct;
    forall i | i in Good(need, digests, Indices(|need|)) ensures need[i].path in Rehashed(rows, paths, stats, digests) {
      assert need[i] in need;
    }
    forall p | p in Rehashed(rows, paths, stats, digests)
      ensures exists i :: i in Good(need, digests, Indices(|need|)) && need[i].path == p
    {
      var job := Job(p, stats[p].size, stats[p].mtime);
      assert job in need;
      var i :| 0 <= i < |need| && need[i] == job;
      assert i in Good(need, digests, Indices(|need|));
    }
  }

  /**
   A whole run, in sets of paths: it hashes exactly the rehashed files, each of
   which ends with the size and time it was looked at with and its digest. It
   leaves every other row as it was, adds none, and counts every given path once.
   */
  lemma OutcomeByPaths(rows: map<string, HashRow>, paths: seq<Option<string>>, stats: map<string, Stat>, digests: map<string, string>,
                       start: int, r: Outcome)
    requires IsOutcome(rows, paths, stats, digests, start, r)
    ensures var again := Rehashed(rows, paths, stats, digests);
      && r.hashed == |again| && r.gated == |Current(rows, paths, stats)|
      && r.errors == |Resolved(paths)| + Unresolvable(paths) - |again| - |Current(rows, paths, stats)|
      && Renewed(rows, r.rows, again, stats, digests)
  {
    var need := Need(rows, Unique(paths), stats);
    var good, again := Good(need, digests, Indices(|need|)), Rehashed(rows, paths, stats, digests);
    GoodAreRehashed(rows, paths, stats, digests);
    CurrentCount(rows, paths, stats);
    hide Need, Unique, Rehashed, Current, Indices, Resolved, DistinctPaths, Recorded;
    GoodInside(need, digests, Indices(|need|));
    AsManyPaths(need, good);
    hide Good;
    assert PathsAt(need, good) == again;
    RowsByPaths(rows, need, digests, Indices(|need|), r.rows, again, stats);
  }

  lemma GoodInside(jobs: seq<Job>, digests: map<string, string>, done: set<nat>)
    ensures forall i :: i in Good(jobs, digests, done) ==> i < |jobs| && jobs[i].path in digests
  {}

  lemma RowsByPaths(rows: map<string, HashRow>, jobs: seq<Job>, digests: map<string, string>, done: set<nat>, r: map<string, HashRow>,
                    again: set<string>, stats: map<string, Stat>)
    requires Recorded(rows, jobs, digests, done, r) && forall p :: p in again ==> p in stats && p in digests
    requires forall i :: i in Good(jobs, digests, done) ==>
      jobs[i].path in again && jobs[i] == Job(jobs[i].path, stats[jobs[i].path].size, stats[jobs[i].path].mtime)
    requires forall p :: p in again ==> exists i :: i in Good(jobs, digests, done) && jobs[i].path == p
    ensures Renewed(rows, r, again, stats, digests)
  {
    GoodInside(jobs, digests, done);
    hide Good;
    forall p | p in r
      ensures p in rows || p in again
      ensures r[p] == if p in again then HashRow(stats[p].size, stats[p].mtime, digests[p]) else rows[p]
    {
      if p in again { var i :| i in Good(jobs, digests, done) && jobs[i].path == p; }
      else { assert forall i :: i in Good(jobs, digests, done) ==> jobs[i].path != p; }
    }
  }

  lemma CurrentCount(rows: map<string, HashRow>, paths: seq<Option<string>>, stats: map<string, Stat>)
    ensures GatedCount(rows, Unique(paths), stats) == |Current(rows, paths, stats)|
  {
    UniqueOnce(paths);
    GatedAreCurrent(rows, Unique(paths), stats);
    hide Unique, Resolved, Distinct, GatedCount, UpToDate;
    assert Current(rows, paths, stats) ==
           set p | p in Unique(paths) && p in stats && UpToDate(rows, p, stats[p]);
  }

  /**
   A second run over the same files, none of which has changed, hashes nothing
   that the first could hash and changes no row.
   */
  lemma SecondRunIsFree(rows: map<string, HashRow>, paths: seq<Option<string>>, stats: map<string, Stat>, digests: map<string, string>,
                        start: int, first: Outcome, second: Outcome)
    requires IsOutcome(rows, paths, stats, digests, start, first)
    requires IsOutcome(first.rows, paths, stats, digests, start, second)
    requires forall p :: p in digests ==> digests[p] != ""
    ensures second.hashed == 0 && second.rows == first.rows && second.gated == first.gated + first.hashed
    ensures second.errors == first.errors
  {
    OutcomeByPaths(rows, paths, stats, digests, start, first);
    OutcomeByPaths(first.rows, paths, stats, digests, start, second);
    hide IsOutcome, Resolved, Rehashed, Current, Renewed;
    NothingAgain(rows, paths, stats, digests, first.rows);
    NothingRenewed(first.rows, second.rows, stats, digests);
  }

  lemma NothingRenewed(rows: map<string, HashRow>, r: map<string, HashRow>, stats: map<string, Stat>, digests: map<string, string>)
    requires Renewed(rows, r, {}, stats, digests)
    ensures r == rows
  {
    assert r.Keys == rows.Keys;
  }

  lemma NothingAgain(rows: map<string, HashRow>, paths: seq<Option<string>>, stats: map<string, Stat>, digests: map<string, string>,
                     next: map<string, HashRow>)
    requires forall p :: p in digests ==> digests[p] != ""
    requires Renewed(rows, next, Rehashed(rows, paths, stats, digests), stats, digests)
    ensures Rehashed(next, paths, stats, digests) == {}
    ensures |Current(next, paths, stats)| == |Current(rows, paths, stats)| + |Rehashed(rows, paths, stats, digests)|
  {
    var again := Rehashed(rows, paths, stats, digests);
    hide Resolved, UpToDate, Renewed;
    forall p | p in Resolved(paths) && p in stats
      ensures UpToDate(next, p, stats[p]) <==> UpToDate(rows, p, stats[p]) || p in again
    {
      UpToDateNext(rows, next, again, stats, digests, p);
    }
    SetsFollow(rows, next, paths, stats, digests);
  }

  lemma SetsFollow(rows: map<string, HashRow>, next: map<string, HashRow>, paths: seq<Option<string>>, stats: map<string, Stat>,
                   digests: map<string, string>)
    requires forall p :: p in Resolved(paths) && p in stats ==>
      (UpToDate(next, p, stats[p]) <==> UpToDate(rows, p, stats[p]) || p in Rehashed(rows, paths, stats, digests))
    ensures Rehashed(next, paths, stats, digests) == {}
    ensures |Current(next, paths, stats)| == |Current(rows, paths, stats)| + |Rehashed(rows, paths, stats, digests)|
  {
    hide Resolved, UpToDate;
    assert Rehashed(next, paths, stats, digests) == {};
    assert Current(next, paths, stats) == Current(rows, paths, stats) + Rehashed(rows, paths, stats, digests);
    Apart(rows, paths, stats, digests);
  }

  lemma Apart(rows: map<string, HashRow>, paths: seq<Option<string>>, stats: map<string, Stat>, digests: map<string, string>)
    ensures Current(rows, paths, stats) !! Rehashed(rows, paths, stats, digests)
  {
    hide Resolved, UpToDate;
  }

  lemma UpToDateNext(rows: map<string, HashRow>, next: map<string, HashRow>, again: set<string>, stats: map<string, Stat>,
                     digests: map<string, string>, p: string)
    requires (forall q :: q in again ==> q in stats && q in digests && digests[q] != "") && p in stats
    requires Renewed(rows, next, again, stats, digests)
    ensures UpToDate(next, p, stats[p]) <==> UpToDate(rows, p, stats[p]) || p in again
  {
    assert p in next <==> p in rows || p in again;
  }

  // ---- the order of the paths --------------------------------------------------------------

  /** `p` is given at position `n` for the first time. */
  ghost predicate FirstAt(paths: seq<Option<string>>, p: string, n: nat) {
    n < |paths| && paths[n] == Some(p) && forall m :: 0 <= m < n ==> paths[m] != Some(p)
  }

  /** The distinct paths keep the order in which they are given for the first time. */
  lemma {:induction false} UniqueKeepsOrder(paths: seq<Option<string>>, i: nat, j: nat, m: nat, n: nat)
    requires i < j < |Unique(paths)| && FirstAt(paths, Unique(paths)[i], m) && FirstAt(paths, Unique(paths)[j], n)
    ensures m < n
  {
    var last := |paths| - 1;
    var before := paths[..last];
    UniqueOnce(before);
    UniqueOnce(paths);
    GivenBefore(before, paths, i, m);
    if j < |Unique(before)| {
      GivenBefore(before, paths, j, n);
      UniqueKeepsOrder(before, i, j, m, n);
    }
  }

  /** A path that is not new at the end was first given before it. */
  lemma GivenBefore(before: seq<Option<string>>, paths: seq<Option<string>>, i: nat, m: nat)
    requires paths != [] && before == paths[..|paths| - 1] && i < |Unique(before)|
    requires Unique(paths)[..|Unique(before)|] == Unique(before) && FirstAt(paths, Unique(paths)[i], m)
    ensures m < |before| && FirstAt(before, Unique(before)[i], m)
  {
    UniqueOnce(before);
    assert Unique(before)[i] in Unique(before);
    var p := Unique(before)[i];
    assert p == Unique(paths)[i];
    assert Some(p) in before;
    var k :| 0 <= k < |before| && before[k] == Some(p);
    assert paths[k] == Some(p);
  }
}
