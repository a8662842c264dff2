/** What `settle_response` promises about every reply. */
module SettleLemmas {
  import opened Json
  import opened EncoderHistory

  // ---- which files are touched, and how they may end ----------------------

  lemma SettledAt(items: seq<Item>, code: int, body: Json)
    ensures |Settled(items, code, body)| == |items|
    ensures forall i :: 0 <= i < |items| && items[i].status != Sending ==> Settled(items, code, body)[i] == items[i]
    ensures forall k :: 0 <= k < |Open(items)| ==>
      Settled(items, code, body)[Open(items)[k]] == Parse(Sent(items), code, body)[k]
  {
    PatchAt(items, Open(items), Parse(Sent(items), code, body));
  }

  lemma VerdictFields(sent: seq<Item>, r: Reply, k: nat)
    requires k < |sent| && sent[k].status == Sending
    ensures var out := Verdicts(sent, r)[k];
      out.status in {Accepted, Rejected, Unknown} &&
      out == sent[k].(status := out.status, error := out.error, jobIds := out.jobIds) &&
      (out.status != Accepted ==> out.jobIds == sent[k].jobIds)
  {}

  /** Nothing is left sending, nothing else is touched, and only the verdict changes. */
  lemma OnlySendingFilesSettle(items: seq<Item>, code: int, body: Json)
    ensures var out := Settled(items, code, body);
      |out| == |items| &&
      forall i :: 0 <= i < |items| ==>
        (items[i].status != Sending ==> out[i] == items[i]) &&
        (items[i].status == Sending ==>
          out[i].status in {Accepted, Rejected, Unknown} &&
          (out[i].status != Accepted ==> out[i].jobIds == items[i].jobIds) &&
          out[i] == items[i].(status := out[i].status, error := out[i].error, jobIds := out[i].jobIds))
  {
    var out, at := Settled(items, code, body), Open(items);
    SettledAt(items, code, body);
    forall i | 0 <= i < |items| && items[i].status == Sending
      ensures out[i].status in {Accepted, Rejected, Unknown}
      ensures out[i].status != Accepted ==> out[i].jobIds == items[i].jobIds
      ensures out[i] == items[i].(status := out[i].status, error := out[i].error, jobIds := out[i].jobIds)
    {
      assert i in at;
      var k :| 0 <= k < |at| && at[k] == i;
      VerdictFields(Sent(items), Read(Paths(Sent(items)), code, body), k);
    }
  }

  // ---- order independence --------------------------------------------------

  /** The same reply, except that the `jobs` and `errors` lists may be reordered. */
  ghost predicate Reordered(a: Json, b: Json) {
    a.Obj? && b.Obj? && a.fields.Keys == b.fields.Keys &&
    forall key :: key in a.fields ==>
      a.fields[key] == b.fields[key] ||
      (key in {"jobs", "errors"} && a.fields[key].Arr? && b.fields[key].Arr? &&
       multiset(a.fields[key].elements) == multiset(b.fields[key].elements))
  }

  /** Two readings with the same entries, in any order and multiplicity. */
  ghost predicate SameEntries(a: Reply, b: Reply) {
    && (forall e :: e in a.refusals <==> e in b.refusals)
    && (forall j :: j in a.jobs <==> j in b.jobs)
    && a.created == b.created
  }

  lemma SameElements<T>(a: seq<T>, b: seq<T>)
    requires multiset(a) == multiset(b)
    ensures forall x :: x in a <==> x in b
  {
    assert forall x :: x in a <==> x in multiset(a);
    assert forall x :: x in b <==> x in multiset(b);
  }

  lemma ReorderedLists(a: Json, b: Json)
    requires Reordered(a, b)
    ensures forall e :: e in ErrorsOf(a) <==> e in ErrorsOf(b)
    ensures forall j :: j in JobsOf(a) <==> j in JobsOf(b)
    ensures Get(a, "created") == Get(b, "created")
  {
    var ea, eb, ja, jb := Get(a, "errors"), Get(b, "errors"), Get(a, "jobs"), Get(b, "jobs");
    if ea != eb { SameElements(ea.elements, eb.elements); }
    if ja != jb { SameElements(ja.elements, jb.elements); }
  }

  /** What one reading contains, the other contains. */
  lemma ReadContains(paths: seq<string>, code: int, a: Json, b: Json)
    requires forall e :: e in ErrorsOf(ReceiptPayload(code, a)) ==> e in ErrorsOf(ReceiptPayload(code, b))
    requires forall j :: j in JobsOf(ReceiptPayload(code, a)) ==> j in JobsOf(ReceiptPayload(code, b))
    ensures forall e :: e in Read(paths, code, a).refusals ==> e in Read(paths, code, b).refusals
    ensures forall j :: j in Read(paths, code, a).jobs ==> j in Read(paths, code, b).jobs
  {
    var ra, rb := Read(paths, code, a), Read(paths, code, b);
    forall e | e in ra.refusals ensures e in rb.refusals {
      var n :| 0 <= n < |ra.refusals| && ra.refusals[n] == e;
      var raw := ErrorsOf(ReceiptPayload(code, a))[n];
      assert raw in ErrorsOf(ReceiptPayload(code, a));
      var m :| 0 <= m < |rb.refusals| && ErrorsOf(ReceiptPayload(code, b))[m] == raw;
      assert rb.refusals[m] == e;
    }
    forall j | j in ra.jobs ensures j in rb.jobs {
      var n :| 0 <= n < |ra.jobs| && ra.jobs[n] == j;
      var raw := JobsOf(ReceiptPayload(code, a))[n];
      assert raw in JobsOf(ReceiptPayload(code, a));
      var m :| 0 <= m < |rb.jobs| && JobsOf(ReceiptPayload(code, b))[m] == raw;
      assert rb.jobs[m] == j;
    }
  }

  lemma {:induction false} CountOpenByStatus(a: seq<Item>, b: seq<Item>)
    requires |a| == |b| && forall k :: 0 <= k < |a| ==> a[k].status == b[k].status
    ensures CountOpen(a) == CountOpen(b)
  {
    if a != [] {
      CountOpenByStatus(a[..|a| - 1], b[..|b| - 1]);
    }
  }

  /** Statuses and ids follow from the set of entries and from the ids the files had. */
  lemma NamedByEntries(sentA: seq<Item>, sentB: seq<Item>, a: Reply, b: Reply, k: nat)
    requires SameEntries(a, b) && k < |sentA| == |sentB|
    requires sentA[k].status == sentB[k].status == Sending
    ensures Named(sentA, a)[k].status == Named(sentB, b)[k].status
    ensures sentA[k].jobIds == sentB[k].jobIds ==> Named(sentA, a)[k].jobIds == Named(sentB, b)[k].jobIds
    ensures Contradicted(a, k) == Contradicted(b, k)
  {
    RefusalOfMember(a.refusals, k);
    RefusalOfMember(b.refusals, k);
    JobsForMember(a.jobs, k);
    JobsForMember(b.jobs, k);
    assert JobsFor(a.jobs, k) == JobsFor(b.jobs, k);
  }

  lemma SamePositive(sentA: seq<Item>, sentB: seq<Item>, a: Reply, b: Reply)
    requires SameEntries(a, b) && |sentA| == |sentB|
    requires forall k :: 0 <= k < |sentA| ==>
      Named(sentA, a)[k].status == Named(sentB, b)[k].status && Contradicted(a, k) == Contradicted(b, k)
    ensures AllPositive(sentA, a) == AllPositive(sentB, b)
  {
    CountOpenByStatus(Named(sentA, a), Named(sentB, b));
    assert AllJobIds(a.jobs) == AllJobIds(b.jobs);
    hide Named, Contradicted, AllJobIds;
  }

  lemma VerdictsByEntries(sentA: seq<Item>, sentB: seq<Item>, a: Reply, b: Reply)
    requires SameEntries(a, b) && |sentA| == |sentB|
    requires forall k :: 0 <= k < |sentA| ==> sentA[k].status == sentB[k].status == Sending
    ensures forall k :: 0 <= k < |sentA| ==>
      Verdicts(sentA, a)[k].status == Verdicts(sentB, b)[k].status &&
      (sentA[k].jobIds == sentB[k].jobIds ==> Verdicts(sentA, a)[k].jobIds == Verdicts(sentB, b)[k].jobIds)
  {
    forall k | 0 <= k < |sentA|
      ensures Named(sentA, a)[k].status == Named(sentB, b)[k].status
      ensures sentA[k].jobIds == sentB[k].jobIds ==> Named(sentA, a)[k].jobIds == Named(sentB, b)[k].jobIds
      ensures Contradicted(a, k) == Contradicted(b, k)
    { NamedByEntries(sentA, sentB, a, b, k); }
    SamePositive(sentA, sentB, a, b);
    assert AllJobIds(a.jobs) == AllJobIds(b.jobs);
    hide AllPositive, Named;
  }

  /** Permuting the reply's lists changes no file's status and no file's job ids. */
  lemma SettlementIgnoresOrder(items: seq<Item>, code: int, a: Json, b: Json)
    requires Reordered(a, b)
    ensures |Settled(items, code, a)| == |Settled(items, code, b)| == |items|
    ensures forall i :: 0 <= i < |items| ==>
      Settled(items, code, a)[i].status == Settled(items, code, b)[i].status &&
      Settled(items, code, a)[i].jobIds == Settled(items, code, b)[i].jobIds
  {
    var sent, at := Sent(items), Open(items);
    SettledAt(items, code, a);
    SettledAt(items, code, b);
    ReorderedReadings(Paths(sent), code, a, b);
    VerdictsByEntries(sent, sent, Read(Paths(sent), code, a), Read(Paths(sent), code, b));
    forall i | 0 <= i < |items|
      ensures Settled(items, code, a)[i].status == Settled(items, code, b)[i].status
      ensures Settled(items, code, a)[i].jobIds == Settled(items, code, b)[i].jobIds
    {
      if items[i].status == Sending {
        assert i in at;
        var k :| 0 <= k < |at| && at[k] == i;
        assert Settled(items, code, a)[at[k]] == Parse(sent, code, a)[k];
      }
    }
  }

  lemma ReorderedReadings(paths: seq<string>, code: int, a: Json, b: Json)
    requires Reordered(a, b)
    ensures SameEntries(Read(paths, code, a), Read(paths, code, b))
  {
    ReorderedLists(ReceiptPayload(code, a), ReceiptPayload(code, b));
    ReadContains(paths, code, a, b);
    ReadContains(paths, code, b, a);
  }

  // ---- positive evidence -----------------------------------------------------

  /** An entry that names exactly this path: by every path it echoes, or by its full file name. */
  ghost predicate NamesExactly(v: Json, path: string) {
    path != "" &&
    if EchoedPaths(v) != [] then (forall e :: e in EchoedPaths(v) ==> e == Str(path)) && NameAgrees(v, path)
    else Get(v, "filename") == Str(path)
  }

  /** In a batch, an entry matches a file only by naming its exact full path. */
  lemma BatchMatchIsExact(paths: seq<string>, v: Json, k: nat)
    requires |paths| >= 2 && Match(paths, v) == Some(k)
    ensures k < |paths| && NamesExactly(v, paths[k])
    ensures forall j :: 0 <= j < |paths| && paths[j] == paths[k] ==> j == k
  {
    var echoed := EchoedPaths(v);
    if echoed != [] {
      assert Truthy(echoed[0]);
      assert Only(paths, echoed[0].s) == Some(k);
    }
  }

  /** With distinct paths, a batch entry matches a file exactly when it names its full path. */
  lemma BatchMatchIffNamed(paths: seq<string>, v: Json, k: nat)
    requires |paths| >= 2 && k < |paths|
    requires forall i, j :: 0 <= i < j < |paths| ==> paths[i] != paths[j]
    ensures Match(paths, v) == Some(k) <==> NamesExactly(v, paths[k])
  {
    if Match(paths, v) == Some(k) {
      BatchMatchIsExact(paths, v, k);
    }
    if NamesExactly(v, paths[k]) {
      assert forall j :: 0 <= j < |paths| && paths[j] == paths[k] ==> j == k;
      assert Only(paths, paths[k]) == Some(k);
      if EchoedPaths(v) != [] {
        assert EchoedPaths(v)[0] in EchoedPaths(v);
      }
      assert Match(paths, v) == Some(k);
    }
  }

  /** Which of the reply's jobs stands behind an id read for file `k`. */
  lemma JobBehindId(paths: seq<string>, code: int, body: Json, k: nat)
    ensures forall id :: id in JobsFor(Read(paths, code, body).jobs, k) <==>
      exists j :: j in JobsOf(ReceiptPayload(code, body)) && JobId(j) == Some(id) && Match(paths, j) == Some(k)
  {
    var jobs, read := JobsOf(ReceiptPayload(code, body)), Read(paths, code, body).jobs;
    JobsForMember(read, k);
    forall id | id in JobsFor(read, k)
      ensures exists j :: j in jobs && JobId(j) == Some(id) && Match(paths, j) == Some(k)
    {
      var n :| 0 <= n < |read| && read[n].file == Some(k) && read[n].id == Some(id);
      assert jobs[n] in jobs;
    }
    forall id, j | j in jobs && JobId(j) == Some(id) && Match(paths, j) == Some(k)
      ensures id in JobsFor(read, k)
    {
      var n :| 0 <= n < |jobs| && jobs[n] == j;
      assert read[n] == Job(Some(k), Some(id), NamesSource(j));
      assert read[n] in read;
    }
  }

  /** Which of the reply's errors refuse file `k`. */
  lemma ErrorBehindRefusal(paths: seq<string>, code: int, body: Json, k: nat)
    ensures RefusalOf(Read(paths, code, body).refusals, k).Some? <==>
      exists e :: e in ErrorsOf(ReceiptPayload(code, body)) && Match(paths, e) == Some(k)
  {
    var errors, read := ErrorsOf(ReceiptPayload(code, body)), Read(paths, code, body).refusals;
    RefusalOfMember(read, k);
    if RefusalOf(read, k).Some? {
      var n :| 0 <= n < |read| && read[n].file == Some(k);
      assert errors[n] in errors;
    }
    forall e | e in errors && Match(paths, e) == Some(k)
      ensures exists r :: r in read && r.file == Some(k)
    {
      var n :| 0 <= n < |errors| && errors[n] == e;
      assert read[n] in read && read[n].file == Some(k);
    }
  }

  /** The file at position `i` of the receipt, as the k-th file being sent. */
  lemma SentIndex(items: seq<Item>, code: int, body: Json, i: nat) returns (k: nat)
    requires i < |items| && items[i].status == Sending
    ensures k < |Open(items)| && Open(items)[k] == i && Sent(items)[k] == items[i]
    ensures Settled(items, code, body)[i] == Parse(Sent(items), code, body)[k]
  {
    SettledAt(items, code, body);
    assert i in Open(items);
    k :| 0 <= k < |Open(items)| && Open(items)[k] == i;
  }

  lemma JobsOnlyFromAcceptedCodes(code: int, body: Json)
    ensures JobsOf(ReceiptPayload(code, body)) != [] ==> code in ENCODER_CODES
  {}

  lemma NewIdsAreMatched(sent: seq<Item>, r: Reply, k: nat)
    requires k < |sent| && sent[k].status == Sending && |sent| >= 2 && sent[k].jobIds == {}
    requires Verdicts(sent, r)[k].jobIds != {}
    ensures Verdicts(sent, r)[k].status == Accepted && Verdicts(sent, r)[k].jobIds == JobsFor(r.jobs, k)
  {
    hide AllPositive;
    VerdictFields(sent, r, k);
  }

  /** In a batch, a new job id comes only from jobs naming that exact path, in a 200 or 207 reply. */
  lemma JobIdsNeedEvidence(items: seq<Item>, code: int, body: Json, i: nat)
    requires i < |items| && items[i].status == Sending
    requires |Open(items)| >= 2 && items[i].jobIds == {}
    requires Settled(items, code, body)[i].jobIds != {}
    ensures code in ENCODER_CODES && Settled(items, code, body)[i].status == Accepted
    ensures forall id :: id in Settled(items, code, body)[i].jobIds ==>
      exists j :: j in JobsOf(ReceiptPayload(code, body)) && JobId(j) == Some(id) && NamesExactly(j, items[i].fullPath)
  {
    var sent := Sent(items);
    var paths := Paths(sent);
    var r, jobs := Read(paths, code, body), JobsOf(ReceiptPayload(code, body));
    var k := SentIndex(items, code, body, i);
    hide Read, Verdicts, JobsOf, ReceiptPayload, JobId, Match, NamesExactly, JobsFor, Settled;
    NewIdsAreMatched(sent, r, k);
    JobBehindId(paths, code, body, k);
    forall id | id in JobsFor(r.jobs, k)
      ensures exists j :: j in jobs && JobId(j) == Some(id) && NamesExactly(j, items[i].fullPath)
    {
      var j :| j in jobs && JobId(j) == Some(id) && Match(paths, j) == Some(k);
      BatchMatchIsExact(paths, j, k);
    }
    var id :| id in JobsFor(r.jobs, k);
    assert jobs != [];
    JobsOnlyFromAcceptedCodes(code, body);
  }

  /** A job that names any source rules out the aggregate acknowledgement. */
  lemma NamedJobsRuleOutAggregate(sent: seq<Item>, code: int, body: Json)
    requires exists j :: j in JobsOf(ReceiptPayload(code, body)) && NamesSource(j)
    ensures !AllPositive(sent, Read(Paths(sent), code, body))
  {
    var jobs, r := JobsOf(ReceiptPayload(code, body)), Read(Paths(sent), code, body);
    var j :| j in jobs && NamesSource(j);
    var n :| 0 <= n < |jobs| && jobs[n] == j;
    assert r.jobs[n] in r.jobs && r.jobs[n].named;
    hide CountOpen, Named, AllJobIds, Contradicted;
  }

  /** Once any job names a source, a batch file that no identified job names is never accepted, whatever the paths are. */
  lemma UnnamedFilesAreNotAccepted(items: seq<Item>, code: int, body: Json, i: nat)
    requires i < |items| && items[i].status == Sending && |Open(items)| >= 2
    requires exists j :: j in JobsOf(ReceiptPayload(code, body)) && NamesSource(j)
    requires forall j :: j in JobsOf(ReceiptPayload(code, body)) && JobId(j).Some? ==> !NamesExactly(j, items[i].fullPath)
    ensures Settled(items, code, body)[i].status != Accepted
  {
    var sent, jobs := Sent(items), JobsOf(ReceiptPayload(code, body));
    var paths := Paths(sent);
    var r := Read(paths, code, body);
    var k := SentIndex(items, code, body, i);
    NamedJobsRuleOutAggregate(sent, code, body);
    JobBehindId(paths, code, body, k);
    AcceptedByName(sent, r, k);
    hide AllPositive, Read, Verdicts, Settled, JobsOf, ReceiptPayload, NamesExactly, Match, JobId, JobsFor, RefusalOf;
    if JobsFor(r.jobs, k) != {} {
      var id :| id in JobsFor(r.jobs, k);
      var j :| j in jobs && JobId(j) == Some(id) && Match(paths, j) == Some(k);
      BatchMatchIsExact(paths, j, k);
    }
  }

  /** Once any job names a source, a batch file is accepted exactly when a job names it and no error does. */
  lemma NamedJobsAcceptOnlyNamedFiles(items: seq<Item>, code: int, body: Json, i: nat)
    requires i < |items| && items[i].status == Sending && |Open(items)| >= 2
    requires forall a, b :: 0 <= a < b < |Open(items)| ==> Sent(items)[a].fullPath != Sent(items)[b].fullPath
    requires exists j :: j in JobsOf(ReceiptPayload(code, body)) && NamesSource(j)
    ensures Settled(items, code, body)[i].status == Accepted <==>
      (exists j :: j in JobsOf(ReceiptPayload(code, body)) && JobId(j).Some? && NamesExactly(j, items[i].fullPath)) &&
      !(exists e :: e in ErrorsOf(ReceiptPayload(code, body)) && NamesExactly(e, items[i].fullPath))
  {
    var sent, jobs := Sent(items), JobsOf(ReceiptPayload(code, body));
    var paths := Paths(sent);
    var r := Read(paths, code, body);
    var k := SentIndex(items, code, body, i);
    hide AllPositive, Read, Verdicts, Settled, JobsOf, ErrorsOf, ReceiptPayload, NamesExactly, NamesSource, Match, JobId, JobsFor, RefusalOf;
    NamedJobsRuleOutAggregate(sent, code, body);
    forall v ensures Match(paths, v) == Some(k) <==> NamesExactly(v, items[i].fullPath) {
      BatchMatchIffNamed(paths, v, k);
    }
    JobBehindId(paths, code, body, k);
    ErrorBehindRefusal(paths, code, body, k);
    AcceptedByName(sent, r, k);
    if JobsFor(r.jobs, k) != {} {
      var id :| id in JobsFor(r.jobs, k);
    }
  }

  lemma AcceptedByName(sent: seq<Item>, r: Reply, k: nat)
    requires k < |sent| && sent[k].status == Sending && !AllPositive(sent, r)
    ensures Verdicts(sent, r)[k].status == Accepted <==>
      JobsFor(r.jobs, k) != {} && RefusalOf(r.refusals, k).None?
  {}

  /** A file named by both an error and an identified job is never resolved either way. */
  lemma ContradictionStaysUnknown(items: seq<Item>, code: int, body: Json, k: nat, e: Json, j: Json)
    requires k < |Open(items)|
    requires e in ErrorsOf(ReceiptPayload(code, body)) && Match(Paths(Sent(items)), e) == Some(k)
    requires j in JobsOf(ReceiptPayload(code, body)) && JobId(j).Some? && Match(Paths(Sent(items)), j) == Some(k)
    ensures var out := Settled(items, code, body)[Open(items)[k]];
      out.status == Unknown && out.error == Contradictory && out.jobIds == items[Open(items)[k]].jobIds
  {
    var sent := Sent(items);
    SettledAt(items, code, body);
    JobBehindId(Paths(sent), code, body, k);
    ErrorBehindRefusal(Paths(sent), code, body, k);
    assert JobId(j).value in JobsFor(Read(Paths(sent), code, body).jobs, k);
  }
}
