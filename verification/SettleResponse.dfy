/** `settle_response` itself: the loops over the reply, proved against `Settled`. */
module SettleResponse {
  import opened Json
  import opened EncoderHistory

  /** First loop: every error refuses the file it matches; the last one wins. */
  method ReadErrors(sent: seq<Item>, refusals: seq<Refusal>) returns (files: seq<Item>, unmatched: bool)
    requires forall e :: e in refusals && e.file.Some? ==> e.file.value < |sent|
    ensures |files| == |sent|
    ensures forall k :: 0 <= k < |sent| ==> files[k] == AfterErrors(sent[k], RefusalOf(refusals, k))
    ensures unmatched <==> exists e :: e in refusals && e.file.None?
  {
    files, unmatched := sent, false;
    for n := 0 to |refusals|
      invariant |files| == |sent|
      invariant forall k :: 0 <= k < |sent| ==> files[k] == AfterErrors(sent[k], RefusalOf(refusals[..n], k))
      invariant unmatched <==> exists e :: e in refusals[..n] && e.file.None?
    {
      assert refusals[..n + 1] == refusals[..n] + [refusals[n]];
      assert refusals[..n + 1][..n] == refusals[..n];
      match refusals[n].file {
        case None => unmatched := true;
        case Some(i) => files := files[i := files[i].(status := Rejected, error := refusals[n].note)];
      }
    }
    assert refusals[..|refusals|] == refusals;
  }

  lemma JobsForStep(jobs: seq<Job>, n: nat, k: nat)
    requires n < |jobs|
    ensures JobsFor(jobs[..n + 1], k) == JobsFor(jobs[..n], k) + IdFor(jobs[n], k)
  {
    assert jobs[..n + 1][..n] == jobs[..n];
  }

  ghost function IdFor(job: Job, k: nat): set<string> {
    if job.file == Some(k) && job.id.Some? then {job.id.value} else {}
  }

  /** One identified job, matched to `file`, which read `refused` before any job. */
  method AcceptFile(file: Item, clash: bool, id: string, ghost refused: Item, ghost ids: set<string>)
    returns (out: Item)
    requires refused.status in {Sending, Rejected} && file == AfterJobs(refused, ids)
    requires clash <==> refused.status == Rejected
    ensures out == AfterJobs(refused, ids + {id})
  {
    if clash {
      out := file.(status := Unknown, error := Contradictory);
    } else {
      out := file.(status := Accepted, jobIds := file.jobIds + {id});
      assert refused.jobIds + (ids + {id}) == refused.jobIds + ids + {id};
    }
  }

  lemma NoIdFor(job: Job, k: nat)
    ensures IdFor(job, k) == if job.file == Some(k) && job.id.Some? then {job.id.value} else {}
  {}

  /** What jobs leave of a file that was open or refused before them. */
  lemma JobsReadSoFar(refused: seq<Item>)
    requires forall k :: 0 <= k < |refused| ==> refused[k].status in {Sending, Rejected}
    ensures forall k :: 0 <= k < |refused| ==> AfterJobs(refused[k], {}) == refused[k]
    ensures forall k, ids :: 0 <= k < |refused| ==>
      AfterJobs(refused[k], ids).fileId == refused[k].fileId &&
      (AfterJobs(refused[k], ids).status == Rejected <==> refused[k].status == Rejected && ids == {})
  {}

  lemma NoJobsFor(jobs: seq<Job>, n: nat)
    ensures forall k: nat :: k < n ==> JobsFor(jobs[..0], k) == {}
  {}

  /** Second loop: every identified job accepts its file, unless an error spoke first. */
  method ReadJobs(refused: seq<Item>, jobs: seq<Job>) returns (files: seq<Item>, contradiction: bool)
    requires forall j :: j in jobs && j.file.Some? ==> j.file.value < |refused|
    requires forall k :: 0 <= k < |refused| ==> refused[k].status in {Sending, Rejected}
    requires forall i, j :: 0 <= i < j < |refused| ==> refused[i].fileId != refused[j].fileId
    ensures |files| == |refused|
    ensures forall k :: 0 <= k < |refused| ==> files[k] == AfterJobs(refused[k], JobsFor(jobs, k))
    ensures contradiction <==>
            exists k :: 0 <= k < |refused| && refused[k].status == Rejected && JobsFor(jobs, k) != {}
  {
    NoJobsFor(jobs, |refused|);
    JobsReadSoFar(refused);
    hide JobsFor, AfterJobs, IdFor;
    files, contradiction := refused, false;
    var contradictory: set<int> := {};
    ghost var w: nat := 0;
    for n := 0 to |jobs|
      invariant |files| == |refused|
      invariant forall k :: 0 <= k < |refused| ==> files[k] == AfterJobs(refused[k], JobsFor(jobs[..n], k))
      invariant forall k :: 0 <= k < |refused| ==>
        (refused[k].fileId in contradictory <==> refused[k].status == Rejected && JobsFor(jobs[..n], k) != {})
      invariant !contradiction ==> contradictory == {}
      invariant contradiction ==> w < |refused| && refused[w].status == Rejected && JobsFor(jobs[..n], w) != {}
    {
      forall k | 0 <= k < |refused|
        ensures JobsFor(jobs[..n + 1], k) ==
          if jobs[n].file == Some(k) && jobs[n].id.Some? then JobsFor(jobs[..n], k) + {jobs[n].id.value} else JobsFor(jobs[..n], k)
      { JobsForStep(jobs, n, k); NoIdFor(jobs[n], k); }
      assert jobs[n] in jobs;
      if jobs[n].id.Some? && jobs[n].file.Some? {
        var i := jobs[n].file.value;
        var clash := files[i].status == Rejected || files[i].fileId in contradictory;
        if clash {
          contradictory := contradictory + {files[i].fileId};
          contradiction, w := true, i;
        }
        var file := AcceptFile(files[i], clash, jobs[n].id.value, refused[i], JobsFor(jobs[..n], i));
        files := files[i := file];
      }
    }
    assert jobs[..|jobs|] == jobs;
  }

  /** Last loop: the files no entry decided. */
  method ConcludeAll(named: seq<Item>, positive: bool, ids: set<string>) returns (files: seq<Item>)
    ensures |files| == |named|
    ensures forall k :: 0 <= k < |named| ==> files[k] == Conclude(named[k], positive, |named| == 1, ids)
  {
    files := named;
    for k := 0 to |files|
      invariant |files| == |named|
      invariant forall i :: 0 <= i < |files| ==>
        files[i] == if i < k then Conclude(named[i], positive, |named| == 1, ids) else named[i]
    {
      if files[k].status == Sending {
        if positive {
          files := files[k := files[k].(status := Accepted)];
          if |named| == 1 && |ids| == 1 {
            files := files[k := files[k].(jobIds := ids)];
          }
        } else {
          files := files[k := files[k].(status := Unknown, error := Unconfirmed)];
        }
      }
    }
  }

  /** `settle_response` on the files still being sent. */
  method SettleSent(sent: seq<Item>, r: Reply) returns (files: seq<Item>)
    requires Fits(r, |sent|)
    requires forall k :: 0 <= k < |sent| ==> sent[k].status == Sending
    requires forall i, j :: 0 <= i < j < |sent| ==> sent[i].fileId != sent[j].fileId
    ensures files == Verdicts(sent, r)
  {
    var refused, unmatched := ReadErrors(sent, r.refusals);
    var named, contradiction := ReadJobs(refused, r.jobs);
    assert named == Named(sent, r);
    assert forall k :: 0 <= k < |sent| ==>
      (Contradicted(r, k) <==> refused[k].status == Rejected && JobsFor(r.jobs, k) != {});
    assert unmatched || contradiction <==>
      (exists e :: e in r.refusals && e.file.None?) || (exists k :: 0 <= k < |sent| && Contradicted(r, k));
    var open, ids := CountOpen(named), AllJobIds(r.jobs);
    var marked := exists j :: j in r.jobs && j.named;
    var positive := !unmatched && !contradiction && !marked
      && ((r.created == Some(open) && open > 0) || (|ids| == open && ids != {}));
    assert positive == AllPositive(sent, r);
    files := ConcludeAll(named, positive, ids);
    assert files == Verdicts(sent, r);
  }

  /** A receipt's files after the reply: those not being sent are left alone. */
  method SettleResponse(items: seq<Item>, code: int, body: Json) returns (out: seq<Item>)
    requires forall i, j :: 0 <= i < j < |items| ==> items[i].fileId != items[j].fileId
    ensures out == Settled(items, code, body)
  {
    var at := Open(items);
    var sent := Pick(items, at);
    var files := SettleSent(sent, Read(Paths(sent), code, body));
    out := Patch(items, at, files);
  }
}
