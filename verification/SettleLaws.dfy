/** What a reply decides about every posted file, in the entries of the reply alone. */
module SettleLaws {
  import opened Json
  import opened EncoderHistory
  import opened SettleLemmas

  // ---- which file an entry is about ---------------------------------------------------

  /** In a batch an entry is about a file exactly when it names its full path, and no other posted file has that path. */
  lemma BatchMatchExactly(paths: seq<string>, v: Json, k: nat)
    requires |paths| >= 2
    ensures Match(paths, v) == Some(k) <==>
      k < |paths| && NamesExactly(v, paths[k]) && forall j :: 0 <= j < |paths| && j != k ==> paths[j] != paths[k]
  {
    if Match(paths, v) == Some(k) { BatchMatchIsExact(paths, v, k); }
    if k < |paths| && NamesExactly(v, paths[k]) && forall j :: 0 <= j < |paths| && j != k ==> paths[j] != paths[k] {
      assert Only(paths, paths[k]) == Some(k);
      if EchoedPaths(v) != [] { assert EchoedPaths(v)[0] in EchoedPaths(v); }
    }
  }

  predicate Echoes(v: Json) { Truthy(Get(v, "path")) || Truthy(Get(v, "input_path")) }

  /** Every path the entry echoes is `p`. */
  predicate EchoesOnly(v: Json, p: string) {
    && (Truthy(Get(v, "path")) ==> Get(v, "path") == Str(p))
    && (Truthy(Get(v, "input_path")) ==> Get(v, "input_path") == Str(p))
  }

  /** With one posted file an entry is about it unless it names another one. */
  lemma LoneMatchExactly(p: string, v: Json)
    ensures Match([p], v) == Some(0) <==>
      var name := Get(v, "filename");
      if Echoes(v) then EchoesOnly(v, p) && (!Truthy(name) || name == Str(p) || name == Str(FileName(p)))
      else !Truthy(name) || (p != "" && (name == Str(p) || name == Str(FileName(p))))
    ensures Match([p], v).None? || Match([p], v) == Some(0)
  {
    hide FileName;
    assert Only([p], p) == Some(0);
    if Echoes(v) {
      assert EchoedPaths(v)[0] in EchoedPaths(v);
      if Truthy(Get(v, "path")) { assert Get(v, "path") in EchoedPaths(v); }
      if Truthy(Get(v, "input_path")) { assert Get(v, "input_path") in EchoedPaths(v); }
    }
  }

  // ---- what the entries say about the k-th posted file ----------------------------------

  ghost predicate ErrorAbout(items: seq<Item>, body: Json, k: nat) {
    exists e :: e in ErrorsOf(body) && Match(Paths(Sent(items)), e) == Some(k)
  }

  ghost predicate JobAbout(items: seq<Item>, body: Json, k: nat) {
    exists j :: j in JobsOf(body) && JobId(j).Some? && Match(Paths(Sent(items)), j) == Some(k)
  }

  /** `id` comes from a job about the k-th posted file. */
  ghost predicate IdAbout(items: seq<Item>, body: Json, k: nat, id: string) {
    exists j :: j in JobsOf(body) && JobId(j) == Some(id) && Match(Paths(Sent(items)), j) == Some(k)
  }

  /** The distinct ids of all jobs, whatever they are about. */
  ghost function IdsOf(body: Json): set<string> {
    set j | j in JobsOf(body) && JobId(j).Some? :: JobId(j).value
  }

  /** The posted files no error refuses. */
  ghost function Unrefused(items: seq<Item>, body: Json): set<nat> {
    set k: nat | k in Indices(|Open(items)|) && !ErrorAbout(items, body, k)
  }

  function Indices(n: nat): set<nat> {
    if n == 0 then {} else Indices(n - 1) + {n - 1}
  }

  lemma {:induction false} IndicesBelow(n: nat)
    ensures forall k: nat :: k in Indices(n) <==> k < n
  {
    if n > 0 { IndicesBelow(n - 1); }
  }

  ghost predicate JobNamesSource(j: Json) {
    j.Obj? && (Truthy(Get(j, "path")) || Truthy(Get(j, "input_path")) || Truthy(Get(j, "filename")))
  }

  /** `created` is that positive number. */
  predicate CreatedIs(body: Json, n: nat) {
    n > 0 && Get(body, "created") == Num(n)
  }

  ghost predicate ErrorsPlaced(items: seq<Item>, body: Json) {
    forall e :: e in ErrorsOf(body) ==> Match(Paths(Sent(items)), e).Some?
  }

  ghost predicate NoContradiction(items: seq<Item>, body: Json) {
    forall k: nat :: k < |Open(items)| ==> !(ErrorAbout(items, body, k) && JobAbout(items, body, k))
  }

  ghost predicate NoSourceNamed(body: Json) {
    forall j :: j in JobsOf(body) ==> !JobNamesSource(j)
  }

  /** `created`, or the number of different job ids, is exactly the number of files no error refuses, and not zero. */
  ghost predicate CountsAll(items: seq<Item>, body: Json) {
    var n := |Unrefused(items, body)|;
    CreatedIs(body, n) || (n > 0 && |IdsOf(body)| == n)
  }

  /**
   The reply vouches for every file it does not decide by name: it is a 200 or
   207, all its errors are about posted files, it contradicts itself about none,
   no job names a source, and it counts exactly the files no error refuses.
   */
  ghost predicate VouchesForAll(items: seq<Item>, code: int, body: Json) {
    (code == 200 || code == 207) && ErrorsPlaced(items, body) && NoContradiction(items, body) && NoSourceNamed(body) && CountsAll(items, body)
  }

  // ---- from the reading of the reply to its entries ----------------------------------------

  lemma SameEntriesOfBody(code: int, body: Json)
    requires code == 200 || code == 207
    ensures ErrorsOf(ReceiptPayload(code, body)) == ErrorsOf(body) && JobsOf(ReceiptPayload(code, body)) == JobsOf(body)
    ensures Get(ReceiptPayload(code, body), "created") == Get(body, "created")
  {}

  lemma NoEntries(code: int, body: Json)
    requires code != 200 && code != 207
    ensures ErrorsOf(ReceiptPayload(code, body)) == [] && JobsOf(ReceiptPayload(code, body)) == []
    ensures Get(ReceiptPayload(code, body), "created") == Null
  {}

  /** Positions of the files still open. */
  function OpenSet(files: seq<Item>): set<nat> {
    if files == [] then {}
    else OpenSet(files[..|files| - 1]) + (if files[|files| - 1].status in {Sending, Accepted} then {|files| - 1} else {})
  }

  lemma {:induction false} OpenSetMeans(files: seq<Item>)
    ensures |OpenSet(files)| == CountOpen(files)
    ensures forall k :: k in OpenSet(files) <==> 0 <= k < |files| && files[k].status in {Sending, Accepted}
  {
    if files != [] { OpenSetMeans(files[..|files| - 1]); }
  }

  /** Reading the entries about one file. */
  lemma ReadAbout(items: seq<Item>, code: int, body: Json, k: nat)
    requires (code == 200 || code == 207) && k < |Open(items)|
    ensures var r := Read(Paths(Sent(items)), code, body);
      && (RefusalOf(r.refusals, k).Some? <==> ErrorAbout(items, body, k))
      && (forall id :: id in JobsFor(r.jobs, k) <==> IdAbout(items, body, k, id))
      && (JobsFor(r.jobs, k) != {} <==> JobAbout(items, body, k))
  {
    var paths := Paths(Sent(items));
    var r := Read(paths, code, body);
    SameEntriesOfBody(code, body);
    ErrorBehindRefusal(paths, code, body, k);
    JobBehindId(paths, code, body, k);
    hide Read, Match, JobId, JobsOf, ErrorsOf, ReceiptPayload, JobsFor, RefusalOf;
    if JobsFor(r.jobs, k) != {} { var id :| id in JobsFor(r.jobs, k); }
    if JobAbout(items, body, k) {
      var j :| j in JobsOf(body) && JobId(j).Some? && Match(paths, j) == Some(k);
      assert IdAbout(items, body, k, JobId(j).value);
    }
  }

  ghost predicate AllPlaced(r: Reply) { forall e :: e in r.refusals ==> e.file.Some? }
  ghost predicate NoneNames(r: Reply) { forall j :: j in r.jobs ==> !j.named }
  ghost predicate NoneContradicted(r: Reply, n: nat) { forall k: nat :: k < n ==> !Contradicted(r, k) }

  /** Reading the whole reply. */
  lemma ReadAll(items: seq<Item>, code: int, body: Json)
    requires code == 200 || code == 207
    ensures var r := Read(Paths(Sent(items)), code, body);
      && (AllPlaced(r) <==> ErrorsPlaced(items, body)) && (NoneNames(r) <==> NoSourceNamed(body))
      && AllJobIds(r.jobs) == IdsOf(body)
      && (forall n: nat :: n > 0 ==> (r.created == Some(n) <==> CreatedIs(body, n)))
  {
    var paths := Paths(Sent(items));
    var r := Read(paths, code, body);
    var errors, jobs := ErrorsOf(body), JobsOf(body);
    SameEntriesOfBody(code, body);
    hide ErrorsOf, JobsOf, Match, JobId, RefusalNote;
    assert |r.refusals| == |errors| && forall n :: 0 <= n < |errors| ==> r.refusals[n].file == Match(paths, errors[n]);
    assert |r.jobs| == |jobs| && forall n :: 0 <= n < |jobs| ==>
      r.jobs[n].id == JobId(jobs[n]) && (r.jobs[n].named <==> JobNamesSource(jobs[n]));
    hide Read, IdsOf, AllJobIds;
    IdsAlike(r, body);
    AllAlike(r, errors, jobs, paths);
  }

  lemma IdsAlike(r: Reply, body: Json)
    requires |r.jobs| == |JobsOf(body)| && forall n :: 0 <= n < |r.jobs| ==> r.jobs[n].id == JobId(JobsOf(body)[n])
    ensures AllJobIds(r.jobs) == IdsOf(body)
  {
    hide JobsOf, JobId;
    var jobs := JobsOf(body);
    forall n | 0 <= n < |jobs| ensures r.jobs[n] in r.jobs && jobs[n] in jobs {}
    forall id ensures id in AllJobIds(r.jobs) <==> id in IdsOf(body) {
      if id in AllJobIds(r.jobs) { var n :| 0 <= n < |r.jobs| && r.jobs[n].id == Some(id); assert jobs[n] in jobs; }
      if id in IdsOf(body) { var n :| 0 <= n < |jobs| && JobId(jobs[n]) == Some(id); assert r.jobs[n] in r.jobs; }
    }
  }

  lemma AllAlike(r: Reply, errors: seq<Json>, jobs: seq<Json>, paths: seq<string>)
    requires |r.refusals| == |errors| && forall n :: 0 <= n < |errors| ==> r.refusals[n].file == Match(paths, errors[n])
    requires |r.jobs| == |jobs| && forall n :: 0 <= n < |jobs| ==> (r.jobs[n].named <==> JobNamesSource(jobs[n]))
    ensures (forall e :: e in r.refusals ==> e.file.Some?) <==> forall e :: e in errors ==> Match(paths, e).Some?
    ensures (forall j :: j in r.jobs ==> !j.named) <==> forall j :: j in jobs ==> !JobNamesSource(j)
  {
    hide Match, JobNamesSource;
    forall n | 0 <= n < |errors| ensures r.refusals[n] in r.refusals && errors[n] in errors {}
    forall n | 0 <= n < |jobs| ensures r.jobs[n] in r.jobs && jobs[n] in jobs {}
  }

  lemma OpenFile(items: seq<Item>, code: int, body: Json, k: nat)
    requires (code == 200 || code == 207) && k < |Open(items)| && !(ErrorAbout(items, body, k) && JobAbout(items, body, k))
    ensures Named(Sent(items), Read(Paths(Sent(items)), code, body))[k].status in {Sending, Accepted} <==> !ErrorAbout(items, body, k)
  {
    ReadAbout(items, code, body, k);
    hide ErrorAbout, JobAbout, IdAbout, JobsFor, RefusalOf, Read;
  }

  /** Without a contradiction the open files are those no error refuses. */
  lemma OpenAreUnrefused(items: seq<Item>, code: int, body: Json)
    requires (code == 200 || code == 207) && NoContradiction(items, body)
    ensures CountOpen(Named(Sent(items), Read(Paths(Sent(items)), code, body))) == |Unrefused(items, body)|
  {
    var files := Named(Sent(items), Read(Paths(Sent(items)), code, body));
    OpenSetMeans(files);
    IndicesBelow(|files|);
    forall k: nat | k < |files|
      ensures files[k].status in {Sending, Accepted} <==> !ErrorAbout(items, body, k)
    {
      OpenFile(items, code, body, k);
    }
    hide Read, Named, ErrorAbout, CountOpen;
    assert OpenSet(files) == Unrefused(items, body);
  }

  lemma SameContradictions(items: seq<Item>, code: int, body: Json)
    requires code == 200 || code == 207
    ensures var r := Read(Paths(Sent(items)), code, body);
      NoneContradicted(r, |Sent(items)|) <==> NoContradiction(items, body)
  {
    var r := Read(Paths(Sent(items)), code, body);
    forall k: nat | k < |Sent(items)|
      ensures Contradicted(r, k) <==> ErrorAbout(items, body, k) && JobAbout(items, body, k)
    {
      ReadAbout(items, code, body, k);
    }
    hide Read, ErrorAbout, JobAbout, Contradicted;
  }

  /** The aggregate acknowledgement of a reply already read, part by part. */
  lemma PositiveParts(sent: seq<Item>, r: Reply, n: nat)
    requires NoneContradicted(r, |sent|) ==> CountOpen(Named(sent, r)) == n
    ensures AllPositive(sent, r) <==>
      && AllPlaced(r) && NoneContradicted(r, |sent|) && NoneNames(r)
      && n > 0 && (r.created == Some(n) || |AllJobIds(r.jobs)| == n)
  {
    hide Named, Contradicted, CountOpen, AllJobIds;
    SizeOfNone(AllJobIds(r.jobs));
  }

  lemma VouchingIsAllPositive(items: seq<Item>, code: int, body: Json)
    ensures AllPositive(Sent(items), Read(Paths(Sent(items)), code, body)) <==> VouchesForAll(items, code, body)
  {
    var sent := Sent(items);
    var r := Read(Paths(sent), code, body);
    if code == 200 || code == 207 {
      ReadAll(items, code, body);
      SameContradictions(items, code, body);
      if NoContradiction(items, body) { OpenAreUnrefused(items, code, body); }
      hide Read, Named, IdsOf, AllJobIds, Unrefused, CountOpen, AllPositive, Paths, Sent;
      hide AllPlaced, NoneNames, NoneContradicted, ErrorsPlaced, NoSourceNamed, NoContradiction, CreatedIs;
      PositiveParts(sent, r, |Unrefused(items, body)|);
    } else {
      NothingRead(sent, code, body);
    }
  }

  lemma SizeOfNone(s: set<string>)
    ensures s != {} <==> |s| > 0
  {}

  lemma NothingRead(sent: seq<Item>, code: int, body: Json)
    requires code != 200 && code != 207
    ensures Read(Paths(sent), code, body) == Reply([], [], None) && !AllPositive(sent, Read(Paths(sent), code, body))
  {
    NoEntries(code, body);
    hide Named;
  }

  // ---- the verdict on every file ---------------------------------------------------------------

  lemma VerdictByReading(sent: seq<Item>, r: Reply, k: nat)
    requires k < |sent| && sent[k].status == Sending
    ensures var out, refused, ids := Verdicts(sent, r)[k], RefusalOf(r.refusals, k).Some?, JobsFor(r.jobs, k);
      && (refused && ids == {} ==> out.status == Rejected && out.jobIds == sent[k].jobIds && out.error == RefusalOf(r.refusals, k).value)
      && (refused && ids != {} ==> out.status == Unknown && out.jobIds == sent[k].jobIds && out.error == Contradictory)
      && (!refused && ids != {} ==> out.status == Accepted && out.jobIds == sent[k].jobIds + ids)
      && (!refused && ids == {} ==>
            && out.status == (if AllPositive(sent, r) then Accepted else Unknown)
            && out.jobIds == if AllPositive(sent, r) && |sent| == 1 && |AllJobIds(r.jobs)| == 1 then AllJobIds(r.jobs) else sent[k].jobIds)
  {
    hide AllPositive, JobsFor, RefusalOf, AllJobIds;
  }

  /**
   The fate of a file that was being sent, the k-th of those posted. An error
   about it rejects it; an identified job about it accepts it with the ids of all
   such jobs; both leave it unknown. A file no entry is about is accepted if and
   only if the reply vouches for all, and otherwise unknown; a lone file then
   takes over the only job id there is.
   */
  lemma FateOfFile(items: seq<Item>, code: int, body: Json, i: nat) returns (k: nat)
    requires i < |items| && items[i].status == Sending
    ensures k < |Open(items)| && Open(items)[k] == i
    ensures var out := Settled(items, code, body)[i];
      var read := code == 200 || code == 207;
      var refused, named := read && ErrorAbout(items, body, k), read && JobAbout(items, body, k);
      && (refused && !named ==> out.status == Rejected && out.jobIds == items[i].jobIds)
      && (refused && named ==> out.status == Unknown && out.jobIds == items[i].jobIds)
      && (!refused && named ==>
            out.status == Accepted && forall id :: id in out.jobIds <==> id in items[i].jobIds || IdAbout(items, body, k, id))
      && (!refused && !named ==>
            && (out.status == Accepted <==> VouchesForAll(items, code, body))
            && (out.status == Unknown <==> !VouchesForAll(items, code, body))
            && out.jobIds == if VouchesForAll(items, code, body) && |Open(items)| == 1 && |IdsOf(body)| == 1 then IdsOf(body)
                             else items[i].jobIds)
  {
    k := SentIndex(items, code, body, i);
    var sent := Sent(items);
    var r := Read(Paths(sent), code, body);
    VerdictByReading(sent, r, k);
    VouchingIsAllPositive(items, code, body);
    if code == 200 || code == 207 {
      ReadAbout(items, code, body, k);
      ReadAll(items, code, body);
    } else {
      NothingRead(sent, code, body);
    }
    hide VouchesForAll, AllPositive, Read, ErrorAbout, JobAbout, IdAbout, JobsFor, RefusalOf, IdsOf, AllJobIds, Verdicts, Settled;
  }

  /** What an error entry says: its `error`, else its `message`, else all of it. */
  function Says(e: Json): Json {
    if e.Obj? && Truthy(Get(e, "error")) then Get(e, "error")
    else if e.Obj? && Truthy(Get(e, "message")) then Get(e, "message")
    else e
  }

  /** Error `n` of the reply is the last one about the k-th posted file. */
  ghost predicate LastErrorAbout(items: seq<Item>, body: Json, k: nat, n: nat) {
    && n < |ErrorsOf(body)| && Match(Paths(Sent(items)), ErrorsOf(body)[n]) == Some(k)
    && forall m :: n < m < |ErrorsOf(body)| ==> Match(Paths(Sent(items)), ErrorsOf(body)[m]) != Some(k)
  }

  lemma {:induction false} LastRefusal(refusals: seq<Refusal>, k: nat) returns (n: nat)
    requires RefusalOf(refusals, k).Some?
    ensures n < |refusals| && refusals[n].file == Some(k) && refusals[n].note == RefusalOf(refusals, k).value
    ensures forall m :: n < m < |refusals| ==> refusals[m].file != Some(k)
  {
    n := |refusals| - 1;
    if refusals[n].file != Some(k) { n := LastRefusal(refusals[..n], k); }
  }

  /** A rejected file carries what the last error about it says. */
  lemma RejectedByLastError(items: seq<Item>, code: int, body: Json, i: nat) returns (k: nat, n: nat)
    requires i < |items| && items[i].status == Sending && Settled(items, code, body)[i].status == Rejected
    ensures k < |Open(items)| && Open(items)[k] == i && LastErrorAbout(items, body, k, n)
    ensures Settled(items, code, body)[i].error == Refused(Says(ErrorsOf(body)[n]))
  {
    k := SentIndex(items, code, body, i);
    var sent := Sent(items);
    var r := Read(Paths(sent), code, body);
    VerdictByReading(sent, r, k);
    RejectedHasRefusal(sent, r, k);
    if code == 200 || code == 207 { RefusalsAre(items, code, body); } else { NothingRead(sent, code, body); }
    hide Settled, Verdicts, AllPositive, JobsFor, ErrorsOf, JobsOf, Read, Match, Says;
    n := LastRefusal(r.refusals, k);
  }

  lemma RejectedHasRefusal(sent: seq<Item>, r: Reply, k: nat)
    requires k < |sent| && sent[k].status == Sending && Verdicts(sent, r)[k].status == Rejected
    ensures RefusalOf(r.refusals, k).Some? && Verdicts(sent, r)[k].error == RefusalOf(r.refusals, k).value
  {
    hide AllPositive, JobsFor, RefusalOf;
  }

  lemma RefusalsAre(items: seq<Item>, code: int, body: Json)
    requires code == 200 || code == 207
    ensures var refusals := Read(Paths(Sent(items)), code, body).refusals;
      |refusals| == |ErrorsOf(body)| && forall n :: 0 <= n < |refusals| ==>
        refusals[n].file == Match(Paths(Sent(items)), ErrorsOf(body)[n]) && refusals[n].note == Refused(Says(ErrorsOf(body)[n]))
  {
    SameEntriesOfBody(code, body);
    hide ErrorsOf, JobsOf, Match, JobId;
  }

  /** A reply that only counts files vouches for all of them or for none: a wrong count accepts nothing. */
  lemma MiscountAcceptsNothing(items: seq<Item>, code: int, created: int, i: nat)
    requires i < |items| && items[i].status == Sending && created != |Open(items)|
    ensures Settled(items, code, Obj(map["created" := Num(created)]))[i].status == Unknown
  {
    var body := Obj(map["created" := Num(created)]);
    hide ErrorsOf, JobsOf, Get, Match, Settled, Open;
    OnlyCounts(created);
    BareCount(items, code, body, created, i);
  }

  lemma OnlyCounts(created: int)
    ensures var body := Obj(map["created" := Num(created)]);
      ErrorsOf(body) == [] && JobsOf(body) == [] && Get(body, "created") == Num(created)
  {}

  lemma BareCount(items: seq<Item>, code: int, body: Json, created: int, i: nat)
    requires i < |items| && items[i].status == Sending && created != |Open(items)|
    requires ErrorsOf(body) == [] && JobsOf(body) == [] && Get(body, "created") == Num(created)
    ensures i < |Settled(items, code, body)| && Settled(items, code, body)[i].status == Unknown
  {
    OtherCount(items, code, body, created);
    var k := FateOfFile(items, code, body, i);
    NothingAbout(items, body, k);
    hide VouchesForAll, ErrorAbout, JobAbout, IdAbout, IdsOf, ErrorsOf, JobsOf, Get, Settled, Open;
  }

  lemma NothingAbout(items: seq<Item>, body: Json, k: nat)
    requires ErrorsOf(body) == [] && JobsOf(body) == []
    ensures !ErrorAbout(items, body, k) && !JobAbout(items, body, k)
  {
    hide ErrorsOf, JobsOf, Match;
  }

  lemma OtherCount(items: seq<Item>, code: int, body: Json, created: int)
    requires ErrorsOf(body) == [] && JobsOf(body) == [] && Get(body, "created") == Num(created) && created != |Open(items)|
    ensures !VouchesForAll(items, code, body)
  {
    AllUnrefused(items, body);
    hide ErrorsPlaced, NoContradiction, NoSourceNamed, Unrefused, IdsOf, Open, Get, ErrorsOf, JobsOf;
  }

  lemma {:induction false} IndicesSize(n: nat)
    ensures |Indices(n)| == n
  {
    if n > 0 { IndicesSize(n - 1); IndicesBelow(n - 1); }
  }

  lemma AllUnrefused(items: seq<Item>, body: Json)
    requires ErrorsOf(body) == [] && JobsOf(body) == []
    ensures |Unrefused(items, body)| == |Open(items)| && IdsOf(body) == {}
  {
    IndicesSize(|Open(items)|);
    assert Unrefused(items, body) == Indices(|Open(items)|);
  }
}
