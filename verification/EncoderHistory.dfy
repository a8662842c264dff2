/**
 Durable receipts of the external encoder: how an untrusted reply decides the
 fate of every posted file (backend/app/services/encoder_history.py).
 */
module EncoderHistory {
  import opened Json

  datatype Status = Sending | Accepted | NotSent | Rejected | Unknown

  /** What the receipt tells the operator about one file. */
  datatype Note =
    | NoNote
    | Unconfirmed               // the parser found no positive evidence
    | Contradictory             // both a job and an error for this file
    | Refused(reason: Json)
    | Text(text: string)

  datatype Content = Content(hash: string, algo: string, size: int)

  /** One posted file. `jobIds` is the program's sorted, duplicate-free list. */
  datatype Item = Item(
    fileId: int, release: int, infoHash: string, relativePath: string, fullPath: string,
    status: Status, error: Note, jobIds: set<string>,
    content: Option<Content>, conflict: bool)

  const ENCODER_CODES := {200, 207}

  // ---- reading the reply -------------------------------------------------

  function Payload(body: Json): Json {
    if body.Obj? then body else Obj(map[])
  }

  function ReceiptPayload(code: int, body: Json): Json {
    if code in ENCODER_CODES then Payload(body) else Obj(map[])
  }

  function ErrorsOf(reply: Json): seq<Json> {
    var errors := Get(reply, "errors");
    if !Truthy(errors) then [] else if errors.Arr? then errors.elements else [errors]
  }

  function ListedJobs(reply: Json): seq<Json> {
    var jobs := Get(reply, "jobs");
    if jobs.Arr? then jobs.elements else []
  }

  /** The `jobs` list, then the single `job`, or else a bare `job_id`. */
  function JobsOf(reply: Json): seq<Json> {
    if Get(reply, "job") != Null then ListedJobs(reply) + [Get(reply, "job")]
    else if Get(reply, "job_id") != Null then
      ListedJobs(reply) + [Obj(map["job_id" := Get(reply, "job_id")])]
    else ListedJobs(reply)
  }

  function JobId(v: Json): Option<string> {
    var raw :=
      if v.Obj? then (if "job_id" in v.fields then v.fields["job_id"] else Get(v, "id")) else v;
    match raw
    case Str(s) => if s == "" then None else Some(Clip(s))
    case Num(n) => Some(Clip(Decimal(n)))
    case _ => None
  }

  function Clip(s: string): string {
    if |s| <= 255 then s else s[..255]
  }

  /** Length of the part of `p` up to and including its last slash. */
  function LastSlash(p: string): (k: nat)
    ensures k <= |p|
  {
    if p == "" then 0 else if p[|p| - 1] == '/' then |p| else LastSlash(p[..|p| - 1])
  }

  /** `PurePosixPath(p).name`: the last component that is neither empty nor a dot. */
  function FileName(p: string): string {
    var k := LastSlash(p);
    if p[k..] != "" && p[k..] != "." then p[k..]
    else if k == 0 then ""
    else FileName(p[..k - 1])
  }

  // ---- matching one entry of the reply to one posted file ----------------

  function IndexFrom(paths: seq<string>, p: string, from: nat): (k: nat)
    requires from <= |paths|
    ensures from <= k <= |paths|
    ensures forall j :: from <= j < k ==> paths[j] != p
    ensures k < |paths| ==> paths[k] == p
    decreases |paths| - from
  {
    if from == |paths| || paths[from] == p then from else IndexFrom(paths, p, from + 1)
  }

  /** The only position holding `p`, if there is exactly one. */
  function Only(paths: seq<string>, p: string): (r: Option<nat>)
    ensures r.Some? ==> r.value < |paths| && paths[r.value] == p
    ensures r.Some? <==> exists k :: 0 <= k < |paths| && paths[k] == p &&
                          forall j :: 0 <= j < |paths| && paths[j] == p ==> j == k
  {
    var k := IndexFrom(paths, p, 0);
    if k < |paths| && IndexFrom(paths, p, k + 1) == |paths| then Some(k) else None
  }

  /** The non-empty `path` and `input_path` an entry echoes. */
  function EchoedPaths(v: Json): seq<Json> {
    (if Truthy(Get(v, "path")) then [Get(v, "path")] else []) +
    (if Truthy(Get(v, "input_path")) then [Get(v, "input_path")] else [])
  }

  /** Does the entry's file name, if it has one, agree with `path`? */
  predicate NameAgrees(v: Json, path: string) {
    !Truthy(Get(v, "filename")) || Get(v, "filename") in {Str(path), Str(FileName(path))}
  }

  /** The posted file an error or a job speaks about. `paths` are the posted files' paths. */
  function Match(paths: seq<string>, v: Json): (r: Option<nat>)
    ensures r.Some? ==> r.value < |paths|
  {
    var echoed := EchoedPaths(v);
    var name := Get(v, "filename");
    if echoed != [] then
      if echoed[0].Str? && (forall e <- echoed :: e == echoed[0]) then
        var k := Only(paths, echoed[0].s);
        if k.Some? && NameAgrees(v, paths[k.value]) then k else None
      else None
    else if name.Str? && name.s != "" && Only(paths, name.s).Some? then Only(paths, name.s)
    else if |paths| == 1 && name.Str? && paths[0] != "" && name.s == FileName(paths[0]) then Some(0)
    else if |paths| == 1 && !Truthy(name) then Some(0)
    else None
  }

  // ---- the reply, entry by entry ------------------------------------------

  /** An error of the reply: the file it matches, and what it says. */
  datatype Refusal = Refusal(file: Option<nat>, note: Note)

  /** A job of the reply; `named` when it names any source at all. */
  datatype Job = Job(file: Option<nat>, id: Option<string>, named: bool)

  datatype Reply = Reply(refusals: seq<Refusal>, jobs: seq<Job>, created: Option<int>)

  function RefusalNote(e: Json): Note {
    if !e.Obj? then Refused(e)
    else if Truthy(Get(e, "error")) then Refused(Get(e, "error"))
    else if Truthy(Get(e, "message")) then Refused(Get(e, "message"))
    else Refused(e)
  }

  predicate NamesSource(v: Json) {
    v.Obj? && (Truthy(Get(v, "path")) || Truthy(Get(v, "input_path")) || Truthy(Get(v, "filename")))
  }

  function ReadRefusal(paths: seq<string>, e: Json): (r: Refusal)
    ensures r.file.Some? ==> r.file.value < |paths|
  {
    Refusal(Match(paths, e), RefusalNote(e))
  }

  function ReadJob(paths: seq<string>, j: Json): (r: Job)
    ensures r.file.Some? ==> r.file.value < |paths|
  {
    Job(Match(paths, j), JobId(j), NamesSource(j))
  }

  /** The reply as far as it concerns the posted files. */
  function Read(paths: seq<string>, code: int, body: Json): (r: Reply)
    ensures Fits(r, |paths|)
  {
    var reply := ReceiptPayload(code, body);
    var errors, jobs, created := ErrorsOf(reply), JobsOf(reply), Get(reply, "created");
    Reply(
      seq(|errors|, n requires 0 <= n < |errors| => ReadRefusal(paths, errors[n])),
      seq(|jobs|, n requires 0 <= n < |jobs| => ReadJob(paths, jobs[n])),
      if created.Num? && created.n >= 0 then Some(created.n) else None)
  }

  /** Every entry speaks about one of `n` files or about none. */
  predicate Fits(r: Reply, n: nat) {
    && (forall e :: e in r.refusals && e.file.Some? ==> e.file.value < n)
    && (forall j :: j in r.jobs && j.file.Some? ==> j.file.value < n)
  }

  // ---- what the reply says about the k-th posted file ----------------------

  /** The note of the last error matched to file `k`, if any is. */
  function RefusalOf(refusals: seq<Refusal>, k: nat): Option<Note> {
    if refusals == [] then None
    else
      var last := refusals[|refusals| - 1];
      if last.file == Some(k) then Some(last.note) else RefusalOf(refusals[..|refusals| - 1], k)
  }

  /** The ids of all jobs matched to file `k`. */
  function JobsFor(jobs: seq<Job>, k: nat): set<string> {
    if jobs == [] then {}
    else
      var last := jobs[|jobs| - 1];
      JobsFor(jobs[..|jobs| - 1], k) + (if last.file == Some(k) && last.id.Some? then {last.id.value} else {})
  }

  function AllJobIds(jobs: seq<Job>): set<string> {
    set j | j in jobs && j.id.Some? :: j.id.value
  }

  lemma {:induction false} RefusalOfMember(refusals: seq<Refusal>, k: nat)
    ensures RefusalOf(refusals, k).Some? <==> exists e :: e in refusals && e.file == Some(k)
  {
    if refusals != [] {
      var n := |refusals| - 1;
      RefusalOfMember(refusals[..n], k);
      assert refusals == refusals[..n] + [refusals[n]];
    }
  }

  lemma {:induction false} JobsForMember(jobs: seq<Job>, k: nat)
    ensures forall id :: id in JobsFor(jobs, k) <==> Job(Some(k), Some(id), true) in jobs || Job(Some(k), Some(id), false) in jobs
  {
    if jobs != [] {
      var n := |jobs| - 1;
      JobsForMember(jobs[..n], k);
      assert jobs == jobs[..n] + [jobs[n]];
    }
  }

  function AfterErrors(item: Item, refusal: Option<Note>): Item {
    if refusal.Some? then item.(status := Rejected, error := refusal.value) else item
  }

  function AfterJobs(item: Item, ids: set<string>): Item {
    if ids == {} then item
    else if item.status == Rejected then item.(status := Unknown, error := Contradictory)
    else item.(status := Accepted, jobIds := item.jobIds + ids)
  }

  /** Every posted file after the entries that name it have been read. */
  function Named(sent: seq<Item>, r: Reply): (files: seq<Item>)
    ensures |files| == |sent|
    ensures forall k :: 0 <= k < |sent| ==>
      files[k] == AfterJobs(AfterErrors(sent[k], RefusalOf(r.refusals, k)), JobsFor(r.jobs, k))
  {
    seq(|sent|, k requires 0 <= k < |sent| =>
      AfterJobs(AfterErrors(sent[k], RefusalOf(r.refusals, k)), JobsFor(r.jobs, k)))
  }

  predicate Contradicted(r: Reply, k: nat) {
    RefusalOf(r.refusals, k).Some? && JobsFor(r.jobs, k) != {}
  }

  /** Files accepted so far or still undecided. */
  function CountOpen(items: seq<Item>): (n: nat)
    ensures n <= |items|
  {
    if items == [] then 0
    else CountOpen(items[..|items| - 1]) + (if items[|items| - 1].status in {Sending, Accepted} then 1 else 0)
  }

  /** The aggregate acknowledgement: it vouches for the whole posted scope or for nothing. */
  predicate AllPositive(sent: seq<Item>, r: Reply) {
    var open := CountOpen(Named(sent, r));
    && (forall e :: e in r.refusals ==> e.file.Some?)
    && (forall k :: 0 <= k < |sent| ==> !Contradicted(r, k))
    && (forall j :: j in r.jobs ==> !j.named)
    && ((r.created == Some(open) && open > 0)
        || (|AllJobIds(r.jobs)| == open && AllJobIds(r.jobs) != {}))
  }

  /** A file no entry decided, settled by the aggregate acknowledgement. */
  function Conclude(item: Item, positive: bool, alone: bool, ids: set<string>): Item {
    if item.status != Sending then item
    else if !positive then item.(status := Unknown, error := Unconfirmed)
    else if alone && |ids| == 1 then item.(status := Accepted, jobIds := ids)
    else item.(status := Accepted)
  }

  /** The whole posted scope, settled by a reply already read. */
  function Verdicts(sent: seq<Item>, r: Reply): (files: seq<Item>)
    ensures |files| == |sent|
    ensures forall k :: 0 <= k < |sent| ==>
      files[k] == Conclude(Named(sent, r)[k], AllPositive(sent, r), |sent| == 1, AllJobIds(r.jobs))
  {
    var named := Named(sent, r);
    seq(|sent|, k requires 0 <= k < |sent| =>
      Conclude(named[k], AllPositive(sent, r), |sent| == 1, AllJobIds(r.jobs)))
  }

  function Paths(sent: seq<Item>): (p: seq<string>)
    ensures |p| == |sent|
    ensures forall k :: 0 <= k < |sent| ==> p[k] == sent[k].fullPath
  {
    seq(|sent|, k requires 0 <= k < |sent| => sent[k].fullPath)
  }

  function Parse(sent: seq<Item>, code: int, body: Json): (files: seq<Item>)
    ensures |files| == |sent|
  {
    Verdicts(sent, Read(Paths(sent), code, body))
  }

  // ---- the posted scope inside the receipt --------------------------------

  /** Positions of the files still being sent, in order. */
  function Open(items: seq<Item>): (r: seq<nat>)
    ensures forall k :: 0 <= k < |r| ==> r[k] < |items| && items[r[k]].status == Sending
    ensures forall i, j :: 0 <= i < j < |r| ==> r[i] < r[j]
    ensures forall i :: 0 <= i < |items| && items[i].status == Sending ==> i in r
  {
    if items == [] then []
    else
      var n := |items| - 1;
      Open(items[..n]) + (if items[n].status == Sending then [n] else [])
  }

  function Pick(items: seq<Item>, at: seq<nat>): (r: seq<Item>)
    requires forall k :: 0 <= k < |at| ==> at[k] < |items|
    ensures |r| == |at|
    ensures forall k :: 0 <= k < |at| ==> r[k] == items[at[k]]
  {
    seq(|at|, k requires 0 <= k < |at| => items[at[k]])
  }

  function Sent(items: seq<Item>): seq<Item> {
    Pick(items, Open(items))
  }

  /** Write `values` back to the positions `at`. */
  function Patch(items: seq<Item>, at: seq<nat>, values: seq<Item>): (r: seq<Item>)
    requires |at| == |values|
    requires forall k :: 0 <= k < |at| ==> at[k] < |items|
    ensures |r| == |items|
  {
    if at == [] then items
    else
      var n := |at| - 1;
      Patch(items, at[..n], values[..n])[at[n] := values[n]]
  }

  /** The receipt's files after `settle_response`. */
  function Settled(items: seq<Item>, code: int, body: Json): seq<Item> {
    Patch(items, Open(items), Parse(Sent(items), code, body))
  }

  lemma {:induction false} PatchAt(items: seq<Item>, at: seq<nat>, values: seq<Item>)
    requires |at| == |values|
    requires forall k :: 0 <= k < |at| ==> at[k] < |items|
    requires forall i, j :: 0 <= i < j < |at| ==> at[i] < at[j]
    ensures forall k :: 0 <= k < |at| ==> Patch(items, at, values)[at[k]] == values[k]
    ensures forall i :: 0 <= i < |items| && i !in at ==> Patch(items, at, values)[i] == items[i]
  {
    if at != [] {
      var n := |at| - 1;
      PatchAt(items, at[..n], values[..n]);
      assert forall i :: i in at <==> i in at[..n] || i == at[n];
    }
  }
}
