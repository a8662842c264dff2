/**
 Hashing many files with a bounded pool of workers (backend/app/services/file_hasher.py):
 whatever order the workers start and finish in, the outcome is that of a plain loop.
 */
module HashPool {
  import opened Json

  /** A stored hash; the times of the last check are not modelled. */
  datatype HashRow = HashRow(size: int, mtime: int, hash: string)

  datatype Stat = Stat(size: int, mtime: int)

  datatype Job = Job(path: string, size: int, mtime: int)

  /** The start message of one job: worker, progress index, job. */
  datatype Line = Line(worker: nat, index: int, job: nat)

  // ---- what the loops are for ----------------------------------------------------

  ghost predicate Distinct<T(!new)>(s: seq<T>) {
    forall i, j :: 0 <= i < j < |s| ==> s[i] != s[j]
  }

  ghost predicate DistinctPaths(jobs: seq<Job>) {
    forall i, j :: 0 <= i < j < |jobs| ==> jobs[i].path != jobs[j].path
  }

  /** The jobs of `done` whose file could be read; `digests` lacks the others. */
  function Good(jobs: seq<Job>, digests: map<string, string>, done: set<nat>): set<nat> {
    set i | i in done && i < |jobs| && jobs[i].path in digests
  }

  /** The rows are the earlier ones with exactly the readable jobs of `done` replaced or added. */
  ghost predicate Recorded(rows: map<string, HashRow>, jobs: seq<Job>, digests: map<string, string>, done: set<nat>, r: map<string, HashRow>) {
    && (forall p :: p in r <==> p in rows || exists i :: i in Good(jobs, digests, done) && jobs[i].path == p)
    && (forall i :: i in Good(jobs, digests, done) ==>
          jobs[i].path in r && r[jobs[i].path] == HashRow(jobs[i].size, jobs[i].mtime, digests[jobs[i].path]))
    && (forall p :: p in rows && p in r && (forall i :: i in Good(jobs, digests, done) ==> jobs[i].path != p) ==> r[p] == rows[p])
  }

  function Indices(n: nat): set<nat> {
    if n == 0 then {} else Indices(n - 1) + {n - 1}
  }

  lemma {:induction false} IndicesBelow(n: nat)
    ensures |Indices(n)| == n && forall i: nat :: i in Indices(n) <==> i < n
  {
    if n > 0 { IndicesBelow(n - 1); }
  }

  /** Two outcomes recorded for the same jobs are the same. */
  lemma RecordedOnce(rows: map<string, HashRow>, jobs: seq<Job>, digests: map<string, string>, done: set<nat>, a: map<string, HashRow>, b: map<string, HashRow>)
    requires Recorded(rows, jobs, digests, done, a) && Recorded(rows, jobs, digests, done, b)
    ensures a == b
  {
    forall p | p in a
      ensures p in b && a[p] == b[p]
    {
      if i :| i in Good(jobs, digests, done) && jobs[i].path == p {} else { assert p in rows; }
    }
    assert a.Keys == b.Keys;
  }

  /** One more job is recorded. */
  lemma RecordOne(rows: map<string, HashRow>, jobs: seq<Job>, digests: map<string, string>, done: set<nat>, r: map<string, HashRow>, i: nat)
    requires DistinctPaths(jobs) && i < |jobs| && i !in done && Recorded(rows, jobs, digests, done, r)
    requires forall k :: k in done ==> k < |jobs|
    ensures var job := jobs[i];
      var next := if job.path in digests then r[job.path := HashRow(job.size, job.mtime, digests[job.path])] else r;
      Recorded(rows, jobs, digests, done + {i}, next)
    ensures |Good(jobs, digests, done + {i})| == |Good(jobs, digests, done)| + (if jobs[i].path in digests then 1 else 0)
  {
    var before, after := Good(jobs, digests, done), Good(jobs, digests, done + {i});
    if jobs[i].path in digests {
      assert after == before + {i};
      forall k | k in before ensures jobs[k].path != jobs[i].path {
        if k < i { assert jobs[k].path != jobs[i].path; } else { assert k > i; }
      }
    } else {
      assert after == before;
    }
  }

  lemma NothingRecorded(rows: map<string, HashRow>, jobs: seq<Job>, digests: map<string, string>)
    ensures Recorded(rows, jobs, digests, {}, rows) && Good(jobs, digests, {}) == {}
  {}

  // ---- the plain loop ----------------------------------------------------------------

  /** One look at the stop request; without one it is never there. */
  method StopRequested(mayStop: bool) returns (stop: bool)
    ensures stop ==> mayStop
  {
    stop := *;
    stop := stop && mayStop;
  }

  /** The first `n` jobs are recorded, in the rows and in the counters. */
  ghost predicate Processed(rows: map<string, HashRow>, jobs: seq<Job>, digests: map<string, string>, start: int, n: nat,
                            out: map<string, HashRow>, hashed: nat, errors: nat, progress: int) {
    && n <= |jobs| && Recorded(rows, jobs, digests, Indices(n), out)
    && hashed == |Good(jobs, digests, Indices(n))| && hashed + errors == n && progress == start + n
  }

  method Sequential(rows: map<string, HashRow>, jobs: seq<Job>, digests: map<string, string>, start: int, mayStop: bool)
    returns (out: map<string, HashRow>, hashed: nat, errors: nat, progress: int, taken: nat, stopped: bool)
    requires DistinctPaths(jobs)
    ensures Processed(rows, jobs, digests, start, taken, out, hashed, errors, progress)
    ensures stopped <==> taken < |jobs|
    ensures stopped ==> mayStop
  {
    hide Good, Recorded, DistinctPaths;
    NothingRecorded(rows, jobs, digests);
    out, hashed, errors, progress, taken, stopped := rows, 0, 0, start, 0, false;
    while taken < |jobs|
      invariant Processed(rows, jobs, digests, start, taken, out, hashed, errors, progress)
    {
      var stop := StopRequested(mayStop);
      if stop { stopped := true; return; }
      var job := jobs[taken];
      IndicesBelow(taken);
      RecordOne(rows, jobs, digests, Indices(taken), out, taken);
      progress := progress + 1;
      if job.path in digests {
        out := out[job.path := HashRow(job.size, job.mtime, digests[job.path])];
        hashed := hashed + 1;
      } else {
        errors := errors + 1;
      }
      taken := taken + 1;
    }
  }

  // ---- the pool --------------------------------------------------------------------------

  /** Where the first `next` jobs are: submitted, running, ended, or collected; all but the submitted ones have started. */
  ghost predicate Places(next: nat, waiting: set<nat>, running: set<nat>, ended: set<nat>, done: set<nat>, started: set<nat>) {
    && waiting !! started && running !! ended && done !! running && done !! ended
    && (forall i :: i in done || i in running || i in ended <==> i in started)
    && (forall i :: i in waiting || i in started ==> i < next)
    && (forall i: nat :: i < next ==> i in waiting || i in started)
  }

  lemma Starts(next: nat, waiting: set<nat>, running: set<nat>, ended: set<nat>, done: set<nat>, started: set<nat>, i: nat)
    requires Places(next, waiting, running, ended, done, started) && i in waiting
    ensures Places(next, waiting - {i}, running + {i}, ended, done, started + {i})
    ensures i !in running && i !in started && |waiting - {i}| == |waiting| - 1
  {}

  lemma Ends(next: nat, waiting: set<nat>, running: set<nat>, ended: set<nat>, done: set<nat>, started: set<nat>, i: nat)
    requires Places(next, waiting, running, ended, done, started) && i in running
    ensures Places(next, waiting, running - {i}, ended + {i}, done, started)
    ensures |running - {i}| == |running| - 1 && |ended + {i}| == |ended| + 1
  {}

  lemma Collects(next: nat, waiting: set<nat>, running: set<nat>, ended: set<nat>, done: set<nat>, started: set<nat>, i: nat)
    requires Places(next, waiting, running, ended, done, started) && i in ended
    ensures Places(next, waiting, running, ended - {i}, done + {i}, started) && i !in done && i < next
    ensures |ended - {i}| == |ended| - 1 && |done + {i}| == |done| + 1 && forall k :: k in done ==> k < next
  {}

  lemma Submits(next: nat, waiting: set<nat>, running: set<nat>, ended: set<nat>, done: set<nat>, started: set<nat>)
    requires Places(next, waiting, running, ended, done, started)
    ensures Places(next + 1, waiting + {next}, running, ended, done, started) && |waiting + {next}| == |waiting| + 1
  {}

  lemma AllCollected(n: nat, done: set<nat>, started: set<nat>)
    requires Places(n, {}, {}, {}, done, started)
    ensures done == Indices(n) == started && |Indices(n)| == n
  {
    IndicesBelow(n);
  }

  /** Running jobs hold different slots, and the free ones are still in the queue. */
  ghost predicate Slots(workers: nat, running: map<nat, nat>, slots: seq<nat>) {
    && |running.Keys| + |slots| == workers
    && (forall s :: s in slots ==> 1 <= s <= workers)
    && Distinct(slots)
    && (forall i :: i in running ==> 1 <= running[i] <= workers && running[i] !in slots)
    && (forall i, j :: i in running && j in running && i != j ==> running[i] != running[j])
  }

  /** One line per started job, numbered one after the other. */
  ghost predicate Logged(log: seq<Line>, start: int, workers: nat, started: set<nat>) {
    && (forall k :: 0 <= k < |log| ==> log[k].index == start + k + 1 && 1 <= log[k].worker <= workers)
    && (forall j, k :: 0 <= j < k < |log| ==> log[j].job != log[k].job)
    && (forall i :: i in started <==> exists k :: 0 <= k < |log| && log[k].job == i)
    && |log| == |started|
  }

  lemma NothingStarted(start: int, workers: nat)
    ensures Slots(workers, map[], seq(workers, k requires 0 <= k < workers => k + 1)) && Logged([], start, workers, {})
  {}

  /** A submitted job takes the first free slot and the next progress index. */
  lemma SlotTaken(workers: nat, running: map<nat, nat>, slots: seq<nat>, i: nat)
    requires Slots(workers, running, slots) && i !in running && |running.Keys| < workers
    ensures slots != [] && 1 <= slots[0] <= workers && Slots(workers, running[i := slots[0]], slots[1..])
    ensures running[i := slots[0]].Keys == running.Keys + {i} && |running.Keys + {i}| == |running.Keys| + 1
  {
    assert slots != [] && slots[0] in slots;
    var after := running[i := slots[0]];
    assert after.Keys == running.Keys + {i};
    forall s | s in slots[1..] ensures s != slots[0] && s in slots {
      var k :| 1 <= k < |slots| && slots[k] == s;
    }
    forall j, k | j in after && k in after && j != k ensures after[j] != after[k] {
      if j == i { assert running[k] !in slots; } else if k == i { assert running[j] !in slots; }
    }
    assert |slots[1..]| == |slots| - 1;
  }

  lemma SlotReturned(workers: nat, running: map<nat, nat>, slots: seq<nat>, i: nat)
    requires Slots(workers, running, slots) && i in running
    ensures Slots(workers, running - {i}, slots + [running[i]]) && (running - {i}).Keys == running.Keys - {i}
  {
    var rest := running - {i};
    assert rest.Keys == running.Keys - {i};
    forall j, k | 0 <= j < k < |slots + [running[i]]| ensures (slots + [running[i]])[j] != (slots + [running[i]])[k] {
      if k == |slots| { assert slots[j] in slots; }
    }
  }

  /** The caller's counters and futures, and the workers. */
  datatype Pool = Pool(
    next: nat, waiting: set<nat>, running: map<nat, nat>, slots: seq<nat>, ended: set<nat>,
    rows: map<string, HashRow>, hashed: nat, errors: nat, progress: int, log: seq<Line>)

  ghost predicate PoolOk(p: Pool, rows: map<string, HashRow>, jobs: seq<Job>, digests: map<string, string>,
                         workers: nat, start: int, done: set<nat>, started: set<nat>) {
    && p.next <= |jobs| && Places(p.next, p.waiting, p.running.Keys, p.ended, done, started)
    && Slots(workers, p.running, p.slots)
    && |p.waiting| + |p.running.Keys| + |p.ended| <= workers
    && Recorded(rows, jobs, digests, done, p.rows)
    && p.hashed == |Good(jobs, digests, done)| && p.hashed + p.errors == |done|
    && p.progress == start + |p.log| && Logged(p.log, start, workers, started)
  }

  function Left(p: Pool): nat {
    3 * |p.waiting| + 2 * |p.running.Keys| + |p.ended|
  }

  /** A worker takes a submitted job: a slot, a progress index and a line. */
  function Start(p: Pool, i: nat): Pool
    requires p.slots != []
  {
    p.(waiting := p.waiting - {i}, running := p.running[i := p.slots[0]], slots := p.slots[1..],
       progress := p.progress + 1, log := p.log + [Line(p.slots[0], p.progress + 1, i)])
  }

  /** A worker is done with a job and gives its slot back. */
  function End(p: Pool, i: nat): Pool
    requires i in p.running
  {
    p.(running := p.running - {i}, slots := p.slots + [p.running[i]], ended := p.ended + {i})
  }

  /** The caller records an ended job. */
  function Collect(p: Pool, jobs: seq<Job>, digests: map<string, string>, i: nat): Pool
    requires i < |jobs|
  {
    var job := jobs[i];
    if job.path in digests
    then p.(ended := p.ended - {i}, rows := p.rows[job.path := HashRow(job.size, job.mtime, digests[job.path])], hashed := p.hashed + 1)
    else p.(ended := p.ended - {i}, errors := p.errors + 1)
  }

  function Submit(p: Pool): Pool {
    p.(waiting := p.waiting + {p.next}, next := p.next + 1)
  }

  lemma StartOk(p: Pool, rows: map<string, HashRow>, jobs: seq<Job>, digests: map<string, string>, workers: nat, start: int,
                done: set<nat>, started: set<nat>, i: nat)
    requires PoolOk(p, rows, jobs, digests, workers, start, done, started) && i in p.waiting
    ensures p.slots != [] && PoolOk(Start(p, i), rows, jobs, digests, workers, start, done, started + {i})
    ensures Left(Start(p, i)) < Left(p) && Start(p, i).next == p.next && i in Start(p, i).running
  {
    hide Good, Recorded, Slots, Logged, Places;
    Starts(p.next, p.waiting, p.running.Keys, p.ended, done, started, i);
    SlotTaken(workers, p.running, p.slots, i);
    LineAdded(p.log, start, workers, started, Line(p.slots[0], p.progress + 1, i));
    assert Start(p, i).running.Keys == p.running.Keys + {i};
  }

  lemma EndOk(p: Pool, rows: map<string, HashRow>, jobs: seq<Job>, digests: map<string, string>, workers: nat, start: int,
              done: set<nat>, started: set<nat>, i: nat)
    requires PoolOk(p, rows, jobs, digests, workers, start, done, started) && i in p.running
    ensures PoolOk(End(p, i), rows, jobs, digests, workers, start, done, started) && Left(End(p, i)) < Left(p)
    ensures End(p, i).next == p.next && i in End(p, i).ended
  {
    hide Good, Recorded, Slots, Logged, Places;
    Ends(p.next, p.waiting, p.running.Keys, p.ended, done, started, i);
    SlotReturned(workers, p.running, p.slots, i);
  }

  lemma CollectOk(p: Pool, rows: map<string, HashRow>, jobs: seq<Job>, digests: map<string, string>, workers: nat, start: int,
                  done: set<nat>, started: set<nat>, i: nat)
    requires PoolOk(p, rows, jobs, digests, workers, start, done, started) && i in p.ended && DistinctPaths(jobs)
    ensures i < |jobs| && Left(Collect(p, jobs, digests, i)) < Left(p) && Collect(p, jobs, digests, i).next == p.next
    ensures var c := Collect(p, jobs, digests, i);
      PoolOk(c, rows, jobs, digests, workers, start, done + {i}, started) &&
      |c.waiting| + |c.running.Keys| + |c.ended| < workers
  {
    hide Good, Recorded, Slots, Logged, Places, DistinctPaths;
    Collects(p.next, p.waiting, p.running.Keys, p.ended, done, started, i);
    RecordOne(rows, jobs, digests, done, p.rows, i);
  }

  lemma SubmitOk(p: Pool, rows: map<string, HashRow>, jobs: seq<Job>, digests: map<string, string>, workers: nat, start: int,
                 done: set<nat>, started: set<nat>)
    requires PoolOk(p, rows, jobs, digests, workers, start, done, started) && p.next < |jobs|
    requires |p.waiting| + |p.running.Keys| + |p.ended| < workers
    ensures PoolOk(Submit(p), rows, jobs, digests, workers, start, done, started)
    ensures Submit(p).next == p.next + 1 && Submit(p).waiting != {}
    ensures var q := Submit(p); |q.waiting| == |p.waiting| + 1 && q.running == p.running && q.ended == p.ended
  {
    hide Good, Recorded, Slots, Logged, Places;
    Submits(p.next, p.waiting, p.running.Keys, p.ended, done, started);
    assert p.next in Submit(p).waiting;
  }

  lemma NothingSubmitted(rows: map<string, HashRow>, jobs: seq<Job>, digests: map<string, string>, workers: nat, start: int)
    ensures PoolOk(Pool(0, {}, map[], seq(workers, k requires 0 <= k < workers => k + 1), {}, rows, 0, 0, start, []),
                   rows, jobs, digests, workers, start, {}, {})
  {
    NothingRecorded(rows, jobs, digests);
    NothingStarted(start, workers);
    hide Good, Recorded, Slots, Logged;
  }

  lemma PoolDone(p: Pool, rows: map<string, HashRow>, jobs: seq<Job>, digests: map<string, string>, workers: nat, start: int,
                 done: set<nat>, started: set<nat>)
    requires PoolOk(p, rows, jobs, digests, workers, start, done, started)
    requires p.waiting == {} && p.running == map[] && p.ended == {}
    ensures Processed(rows, jobs, digests, start, p.next, p.rows, p.hashed, p.errors, p.progress)
    ensures Logged(p.log, start, workers, Indices(p.next))
  {
    hide Good, Recorded, Slots, Logged, Places;
    assert p.running.Keys == {};
    AllCollected(p.next, done, started);
    LineEach(p.log, start, workers, started);
  }

  lemma PoolFacts(p: Pool, rows: map<string, HashRow>, jobs: seq<Job>, digests: map<string, string>, workers: nat, start: int,
                  done: set<nat>, started: set<nat>)
    requires PoolOk(p, rows, jobs, digests, workers, start, done, started)
    ensures p.next <= |jobs| && |p.waiting| + |p.running.Keys| + |p.ended| <= workers
  {}

  /** The caller submits the next job, unless there is none or a stop was requested. */
  method SubmitNext(p: Pool, rows: map<string, HashRow>, jobs: seq<Job>, digests: map<string, string>, workers: nat, start: int,
                    ghost done: set<nat>, ghost started: set<nat>, mayStop: bool) returns (q: Pool, submitted: bool)
    requires PoolOk(p, rows, jobs, digests, workers, start, done, started)
    requires |p.waiting| + |p.running.Keys| + |p.ended| < workers
    ensures PoolOk(q, rows, jobs, digests, workers, start, done, started)
    ensures submitted ==> q == Submit(p) && p.next < |jobs| && q.next == p.next + 1 && q.waiting != {}
    ensures submitted ==> |q.waiting| == |p.waiting| + 1 && q.running == p.running && q.ended == p.ended
    ensures !submitted ==> q == p && (mayStop || p.next >= |jobs|)
  {
    hide PoolOk, Submit;
    q, submitted := p, false;
    var stop := StopRequested(mayStop);
    if !stop && p.next < |jobs| {
      SubmitOk(p, rows, jobs, digests, workers, start, done, started);
      q, submitted := Submit(p), true;
    }
  }

  /**
   The bounded pool. Each turn of the loop is one move of the world: a submitted
   job starts, a running job ends, or the caller collects an ended one and submits
   the next; which one happens, and for which job, is left open. After a stop
   request the jobs taken so far are finished and recorded, and no other is taken.
   */
  method Pooled(rows: map<string, HashRow>, jobs: seq<Job>, digests: map<string, string>, workers: nat, start: int, mayStop: bool)
    returns (p: Pool, peak: nat, stopped: bool)
    requires DistinctPaths(jobs) && workers >= 1
    ensures Processed(rows, jobs, digests, start, p.next, p.rows, p.hashed, p.errors, p.progress)
    ensures !mayStop ==> p.next == |jobs| && !stopped
    ensures Logged(p.log, start, workers, Indices(p.next))
    ensures peak <= workers
  {
    hide DistinctPaths, Left, Start, End, Collect, Good, Recorded, Slots, Logged, Places;
    ghost var done: set<nat>, started: set<nat> := {}, {};
    stopped := false;
    NothingSubmitted(rows, jobs, digests, workers, start);
    p := Pool(0, {}, map[], seq(workers, k requires 0 <= k < workers => k + 1), {}, rows, 0, 0, start, []);
    PoolFacts(p, rows, jobs, digests, workers, start, done, started);
    hide PoolOk, Submit, Processed;
    var submitted := true;
    while submitted && p.next < workers
      invariant PoolOk(p, rows, jobs, digests, workers, start, done, started)
      invariant p.next <= |jobs| && p.next <= workers && |p.waiting| == p.next && p.running == map[] && p.ended == {}
      invariant !submitted ==> mayStop || p.next >= |jobs|
      invariant p.next == 0 || p.waiting != {}
      decreases submitted, workers - p.next
    {
      p, submitted := SubmitNext(p, rows, jobs, digests, workers, start, done, started, mayStop);
    }
    peak := p.next;
    while p.waiting != {} || p.running != map[] || p.ended != {}
      invariant PoolOk(p, rows, jobs, digests, workers, start, done, started)
      invariant p.next <= |jobs| && peak <= workers && (stopped ==> mayStop)
      invariant mayStop || p.next == |jobs| || p.waiting != {} || p.running != map[] || p.ended != {}
      decreases |jobs| - p.next, Left(p)
    {
      var stop := StopRequested(mayStop);
      if stop { stopped := true; }
      if
      case p.waiting != {} =>
        var i :| i in p.waiting;
        StartOk(p, rows, jobs, digests, workers, start, done, started, i);
        p, started := Start(p, i), started + {i};
      case p.running != map[] =>
        var i :| i in p.running;
        EndOk(p, rows, jobs, digests, workers, start, done, started, i);
        p := End(p, i);
      case p.ended != {} =>
        var i :| i in p.ended;
        CollectOk(p, rows, jobs, digests, workers, start, done, started, i);
        p, done := Collect(p, jobs, digests, i), done + {i};
        var again := StopRequested(mayStop);
        if stopped || again { stopped := true; }
        else {
          p, submitted := SubmitNext(p, rows, jobs, digests, workers, start, done, started, mayStop);
          PoolFacts(p, rows, jobs, digests, workers, start, done, started);
          var inFlight := |p.waiting| + |p.running.Keys| + |p.ended|;
          if inFlight > peak { peak := inFlight; }
        }
    }
    PoolDone(p, rows, jobs, digests, workers, start, done, started);
  }

  lemma LineEach(log: seq<Line>, start: int, workers: nat, started: set<nat>)
    requires Logged(log, start, workers, started)
    ensures |log| == |started|
  {}

  lemma LineAdded(log: seq<Line>, start: int, workers: nat, started: set<nat>, line: Line)
    requires Logged(log, start, workers, started)
    requires line.job !in started && 1 <= line.worker <= workers && line.index == start + |log| + 1
    ensures Logged(log + [line], start, workers, started + {line.job})
  {
    var after := log + [line];
    forall j | j in started + {line.job} ensures exists k :: 0 <= k < |after| && after[k].job == j {
      if j == line.job { assert after[|log|].job == j; }
      else { var k :| 0 <= k < |log| && log[k].job == j; assert after[k].job == j; }
    }
  }

  // ---- deduplication and the gate ---------------------------------------------------------

  /** Paths that resolve, as they resolve. */
  function Resolved(paths: seq<Option<string>>): set<string> {
    set p | p in paths && p.Some? :: p.value
  }

  function Unresolvable(paths: seq<Option<string>>): (n: nat)
    ensures n <= |paths|
  {
    if paths == [] then 0
    else Unresolvable(paths[..|paths| - 1]) + (if paths[|paths| - 1].None? then 1 else 0)
  }

  /** The distinct resolved paths, in the order of their first appearance. */
  function Unique(paths: seq<Option<string>>): seq<string> {
    if paths == [] then []
    else
      var before, last := Unique(paths[..|paths| - 1]), paths[|paths| - 1];
      if last.Some? && last.value !in before then before + [last.value] else before
  }

  lemma {:induction false} UniqueOnce(paths: seq<Option<string>>)
    ensures Distinct(Unique(paths)) && |Unique(paths)| == |Resolved(paths)|
    ensures forall p :: p in Unique(paths) <==> p in Resolved(paths)
  {
    if paths != [] {
      var before, last := paths[..|paths| - 1], paths[|paths| - 1];
      UniqueOnce(before);
      assert paths == before + [last];
      if last.Some? && last.value !in Unique(before) {
        assert Resolved(paths) == Resolved(before) + {last.value};
      } else {
        assert Resolved(paths) == Resolved(before);
      }
    }
  }

  method Deduplicate(paths: seq<Option<string>>) returns (unique: seq<string>, errors: nat)
    ensures unique == Unique(paths) && errors == Unresolvable(paths)
  {
    unique, errors := [], 0;
    var seen: set<string> := {};
    var n := 0;
    while n < |paths|
      invariant n <= |paths| && errors == Unresolvable(paths[..n]) && unique == Unique(paths[..n])
      invariant forall p :: p in unique <==> p in seen
    {
      assert paths[..n + 1][..n] == paths[..n];
      if paths[n].None? { errors := errors + 1; }
      else if paths[n].value !in seen {
        seen := seen + {paths[n].value};
        unique := unique + [paths[n].value];
      }
      n := n + 1;
    }
    assert paths[..n] == paths;
  }

  /** Size and time as stored: the content is not read again. */
  predicate Gated(rows: map<string, HashRow>, p: string, s: Stat) {
    p in rows && rows[p].size == s.size && rows[p].mtime == s.mtime && rows[p].hash != ""
  }

  predicate NeedsHash(rows: map<string, HashRow>, p: string, stats: map<string, Stat>) {
    p in stats && !Gated(rows, p, stats[p])
  }

  function Need(rows: map<string, HashRow>, unique: seq<string>, stats: map<string, Stat>): seq<Job> {
    if unique == [] then []
    else
      var before, p := Need(rows, unique[..|unique| - 1], stats), unique[|unique| - 1];
      if NeedsHash(rows, p, stats) then before + [Job(p, stats[p].size, stats[p].mtime)] else before
  }

  function GatedCount(rows: map<string, HashRow>, unique: seq<string>, stats: map<string, Stat>): nat {
    if unique == [] then 0
    else
      var p := unique[|unique| - 1];
      GatedCount(rows, unique[..|unique| - 1], stats) + (if p in stats && Gated(rows, p, stats[p]) then 1 else 0)
  }

  lemma {:induction false} NeedOnce(rows: map<string, HashRow>, unique: seq<string>, stats: map<string, Stat>)
    requires Distinct(unique)
    ensures DistinctPaths(Need(rows, unique, stats))
    ensures forall j :: j in Need(rows, unique, stats) <==>
      j.path in unique && NeedsHash(rows, j.path, stats) && j == Job(j.path, stats[j.path].size, stats[j.path].mtime)
  {
    hide NeedsHash;
    if unique != [] {
      var before, p := unique[..|unique| - 1], unique[|unique| - 1];
      NeedOnce(rows, before, stats);
      assert unique == before + [p] && p !in before;
    }
  }

  /** Every path looked at is gated, to be hashed, or not readable; a stop request is looked at every 50 paths. */
  method Gate(rows: map<string, HashRow>, unique: seq<string>, stats: map<string, Stat>, mayStop: bool)
    returns (need: seq<Job>, gated: nat, errors: nat, looked: nat, stopped: bool)
    ensures looked <= |unique| && (stopped <==> looked < |unique|) && (stopped ==> mayStop)
    ensures need == Need(rows, unique[..looked], stats) && gated == GatedCount(rows, unique[..looked], stats)
    ensures gated + |need| + errors == looked
  {
    need, gated, errors, looked, stopped := [], 0, 0, 0, false;
    while looked < |unique|
      invariant looked <= |unique| && gated + |need| + errors == looked
      invariant need == Need(rows, unique[..looked], stats) && gated == GatedCount(rows, unique[..looked], stats)
    {
      if looked > 0 && looked % 50 == 0 {
        var stop := StopRequested(mayStop);
        if stop { stopped := true; return; }
      }
      assert unique[..looked + 1][..looked] == unique[..looked];
      var p := unique[looked];
      if p !in stats { errors := errors + 1; }
      else if p in rows && rows[p].size == stats[p].size && rows[p].mtime == stats[p].mtime && rows[p].hash != "" { gated := gated + 1; }
      else { need := need + [Job(p, stats[p].size, stats[p].mtime)]; }
      looked := looked + 1;
    }
  }

  /** The counters and the rows a run ends with. */
  datatype Outcome = Outcome(rows: map<string, HashRow>, hashed: nat, gated: nat, errors: nat, progress: int)

  /**
   The first `looked` distinct paths were looked at and the first `taken` of their
   jobs processed. Every input looked at is accounted for, but for the jobs not taken.
   */
  ghost predicate IsPart(rows: map<string, HashRow>, paths: seq<Option<string>>, stats: map<string, Stat>,
                         digests: map<string, string>, start: int, r: Outcome, looked: nat, taken: nat) {
    && looked <= |Unique(paths)|
    && var need := Need(rows, Unique(paths)[..looked], stats);
      && taken <= |need|
      && r.hashed + r.gated + r.errors + (|need| - taken) == looked + Unresolvable(paths)
      && Recorded(rows, need, digests, Indices(taken), r.rows)
      && r.hashed == |Good(need, digests, Indices(taken))| && r.gated == GatedCount(rows, Unique(paths)[..looked], stats)
      && r.progress == start + r.gated + taken
  }

  /** Every input is accounted for once, and the rows are what hashing the files that need it makes of them. */
  ghost predicate IsOutcome(rows: map<string, HashRow>, paths: seq<Option<string>>, stats: map<string, Stat>,
                            digests: map<string, string>, start: int, r: Outcome) {
    var need := Need(rows, Unique(paths), stats);
    && r.hashed + r.gated + r.errors == |Resolved(paths)| + Unresolvable(paths)
    && Recorded(rows, need, digests, Indices(|need|), r.rows)
    && r.hashed == |Good(need, digests, Indices(|need|))| && r.gated == GatedCount(rows, Unique(paths), stats)
    && r.progress == start + r.gated + |need|
  }

  /** The jobs of a part have distinct paths. */
  lemma PartDistinct(rows: map<string, HashRow>, paths: seq<Option<string>>, stats: map<string, Stat>, looked: nat)
    requires looked <= |Unique(paths)|
    ensures DistinctPaths(Need(rows, Unique(paths)[..looked], stats))
  {
    UniqueOnce(paths);
    NeedOnce(rows, Unique(paths)[..looked], stats);
  }

  lemma WholePart(rows: map<string, HashRow>, paths: seq<Option<string>>, stats: map<string, Stat>, digests: map<string, string>,
                  start: int, r: Outcome, looked: nat, taken: nat)
    requires IsPart(rows, paths, stats, digests, start, r, looked, taken)
    requires looked == |Unique(paths)| && taken == |Need(rows, Unique(paths)[..looked], stats)|
    ensures IsOutcome(rows, paths, stats, digests, start, r)
  {
    hide Recorded, Good;
    UniqueOnce(paths);
    assert Unique(paths)[..looked] == Unique(paths);
  }

  /**
   `hash_paths_parallel`, with one worker or with many. A stop request leaves a
   part of the work undone and the rest exactly done; without one all is done.
   */
  method HashPaths(rows: map<string, HashRow>, paths: seq<Option<string>>, stats: map<string, Stat>, digests: map<string, string>,
                   workers: nat, start: int, mayStop: bool)
    returns (r: Outcome, stopped: bool, ghost looked: nat, ghost taken: nat)
    ensures IsPart(rows, paths, stats, digests, start, r, looked, taken)
    ensures !mayStop ==> IsOutcome(rows, paths, stats, digests, start, r) && !stopped
  {
    hide Recorded, Good, Distinct, Resolved, DistinctPaths, Logged;
    var unique, bad := Deduplicate(paths);
    var need, gated, missing, n, halted := Gate(rows, unique, stats, mayStop);
    looked, stopped := n, halted;
    PartDistinct(rows, paths, stats, n);
    if halted {
      r, taken := Outcome(rows, 0, gated, bad + missing, start + gated), 0;
      NothingRecorded(rows, need, digests);
    } else if workers <= 1 {
      var out, hashed, errors, progress, done, broken := Sequential(rows, need, digests, start + gated, mayStop);
      r, taken, stopped := Outcome(out, hashed, gated, bad + missing + errors, progress), done, broken;
    } else {
      var p, _, broken := Pooled(rows, need, digests, workers, start + gated, mayStop);
      r, taken, stopped := Outcome(p.rows, p.hashed, gated, bad + missing + p.errors, p.progress), p.next, broken;
    }
    if !mayStop { WholePart(rows, paths, stats, digests, start, r, looked, taken); }
  }

  /** The pool equals the loop: whatever the number of workers and their order, there is one outcome. */
  lemma OneOutcome(rows: map<string, HashRow>, paths: seq<Option<string>>, stats: map<string, Stat>, digests: map<string, string>,
                   start: int, a: Outcome, b: Outcome)
    requires IsOutcome(rows, paths, stats, digests, start, a) && IsOutcome(rows, paths, stats, digests, start, b)
    ensures a == b
  {
    var need := Need(rows, Unique(paths), stats);
    RecordedOnce(rows, need, digests, Indices(|need|), a.rows, b.rows);
  }

  // ---- results in chunk order -------------------------------------------------------------

  function Concat<R>(lists: seq<seq<R>>): seq<R> {
    if lists == [] then [] else Concat(lists[..|lists| - 1]) + lists[|lists| - 1]
  }

  /** Chunk `i` was collected: its result is in its place. */
  ghost predicate Filled<R(!new)>(results: seq<Option<seq<R>>>, evaluated: seq<Option<seq<R>>>, next: nat, pending: set<nat>) {
    && |results| == |evaluated| && next <= |evaluated|
    && (forall i :: i in pending ==> i < next)
    && forall i: nat :: i < next && i !in pending ==> evaluated[i].Some? && results[i] == evaluated[i]
  }

  lemma ChunkDone<R(!new)>(results: seq<Option<seq<R>>>, evaluated: seq<Option<seq<R>>>, next: nat, pending: set<nat>, done: nat)
    requires Filled(results, evaluated, next, pending) && done in pending && evaluated[done].Some?
    ensures done < |results| && Filled(results[done := evaluated[done]], evaluated, next, pending - {done})
    ensures |pending - {done}| == |pending| - 1
  {}

  lemma ChunkSubmitted<R(!new)>(results: seq<Option<seq<R>>>, evaluated: seq<Option<seq<R>>>, next: nat, pending: set<nat>)
    requires Filled(results, evaluated, next, pending) && next < |evaluated|
    ensures Filled(results, evaluated, next + 1, pending + {next}) && |pending + {next}| == |pending| + 1
  {}

  lemma AllFilled<R(!new)>(results: seq<Option<seq<R>>>, evaluated: seq<Option<seq<R>>>)
    requires Filled(results, evaluated, |evaluated|, {})
    ensures results == evaluated && forall i :: 0 <= i < |evaluated| ==> evaluated[i].Some?
  {}

  /** Chunks finish in any order; each result goes to its chunk's place, and the first failure ends it all. */
  method FillResults<R(!new)>(results: array<Option<seq<R>>>, evaluated: seq<Option<seq<R>>>, workers: nat) returns (ok: bool, peak: nat)
    requires workers >= 1 && results.Length == |evaluated|
    modifies results
    ensures peak <= workers
    ensures ok ==> results[..] == evaluated && forall i :: 0 <= i < |evaluated| ==> evaluated[i].Some?
    ensures !ok ==> exists i :: 0 <= i < |evaluated| && evaluated[i].None?
  {
    var n := |evaluated|;
    var next: nat, pending: set<nat> := 0, {};
    while next < n && next < workers
      invariant next <= n && |pending| == next <= workers && Filled(results[..], evaluated, next, pending)
    {
      ChunkSubmitted(results[..], evaluated, next, pending);
      pending := pending + {next};
      next := next + 1;
    }
    peak := |pending|;
    hide Filled;
    while pending != {}
      invariant next <= n && |pending| <= peak <= workers && Filled(results[..], evaluated, next, pending)
      invariant next < n ==> pending != {}
      decreases n - next, |pending|
    {
      var done :| done in pending;
      PendingInRange(results[..], evaluated, next, pending, done);
      if evaluated[done].None? { return false, peak; }
      ChunkDone(results[..], evaluated, next, pending, done);
      ghost var before := results[..];
      results[done] := evaluated[done];
      assert results[..] == before[done := evaluated[done]];
      pending := pending - {done};
      if next < n {
        ChunkSubmitted(results[..], evaluated, next, pending);
        pending := pending + {next};
        next := next + 1;
      }
    }
    AllFilled(results[..], evaluated);
    ok := true;
  }

  lemma PendingInRange<R(!new)>(results: seq<Option<seq<R>>>, evaluated: seq<Option<seq<R>>>, next: nat, pending: set<nat>, i: nat)
    requires Filled(results, evaluated, next, pending) && i in pending
    ensures i < |evaluated|
  {}

  function Values<R>(evaluated: seq<Option<seq<R>>>): seq<seq<R>> {
    seq(|evaluated|, i requires 0 <= i < |evaluated| => if evaluated[i].Some? then evaluated[i].value else [])
  }

  /**
   `_evaluate_pool` (backend/scripts/hevc_parallel_experiment.py): `evaluated[i]` is what
   evaluating chunk `i` gives, or none if it raises. Whatever order the chunks finish in, the
   rows come back in chunk order, and the call raises if and only if a chunk does.
   */
  method EvaluatePool<R(!new)>(evaluated: seq<Option<seq<R>>>, workers: nat) returns (out: Option<seq<R>>, peak: nat)
    requires workers >= 1
    ensures peak <= workers && (out.Some? <==> forall i :: 0 <= i < |evaluated| ==> evaluated[i].Some?)
    ensures out.Some? ==> out.value == Concat(Values(evaluated))
  {
    var n := |evaluated|;
    var results: array<Option<seq<R>>> := new Option<seq<R>>[n](_ => None);
    var ok;
    ok, peak := FillResults(results, evaluated, workers);
    if !ok { return None, peak; }
    var rows: seq<R> := [];
    var k := 0;
    while k < n
      invariant k <= n && results[..] == evaluated && rows == Concat(Values(evaluated)[..k])
    {
      assert Values(evaluated)[..k + 1][..k] == Values(evaluated)[..k];
      assert results[k] == results[..][k];
      if results[k].Some? { rows := rows + results[k].value; }
      k := k + 1;
    }
    assert Values(evaluated)[..k] == Values(evaluated);
    out := Some(rows);
  }
}
