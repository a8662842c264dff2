/**
 The lease-fenced poller of encoder jobs (backend/app/services/encoder_tracking.py):
 competing workers claim rows for a while, ask the encoder, and save what they saw
 only while their own claim still holds.
 */
module PollTracking {
  import opened Json
  import EncoderTables

  datatype JobStatus = Unseen | Planned | InProgress | Finished | Failed | Stopped

  datatype Kind = NotFound | Connection | HttpError | InvalidResponse | ProbeFailed

  /** The dictionary of observed fields; a missing key is `None`. */
  datatype Fields = Fields(status: Option<JobStatus>, available: Option<Option<bool>>, size: Option<Option<int>>)

  datatype Seen = Seen(fields: Fields, kind: Option<Kind>)

  const NO_FIELDS := Fields(None, None, None)
  const LEASE := 120
  const TERMINAL := {Finished, Failed, Stopped}
  const MAX_SIZE := 0x7fff_ffff_ffff_ffff

  // ---- one observation ---------------------------------------------------------

  /** The GET of the job; no body when it is not JSON. */
  datatype Got = TimedOut | Unreachable | Got(code: int, body: Option<Json>)

  /** The HEAD of the finished file. */
  datatype Head = HeadTimedOut | HeadFailed | Head(code: int, textual: bool, size: Option<int>)

  function StatusNamed(v: Json): Option<JobStatus> {
    if v == Str("planned") then Some(Planned)
    else if v == Str("in_progress") then Some(InProgress)
    else if v == Str("done") then Some(Finished)
    else if v == Str("error") then Some(Failed)
    else if v == Str("cancelled") then Some(Stopped)
    else None
  }

  /** `str(payload.get("id", ""))`, for the values an id may have. */
  function IdText(body: Json): Option<string> {
    if body.Obj? && "id" !in body.fields then Some("")
    else
      match Get(body, "id")
      case Str(s) => Some(s)
      case Num(n) => Some(Decimal(n))
      case Null => Some("None")
      case Bool(b) => Some(if b then "True" else "False")
      case _ => None
  }

  /** `_parse`: the status, if the reply is acceptable; `wellFormed` speaks of its progress and dates. */
  function Parsed(body: Json, id: string, path: string, wellFormed: bool): Option<JobStatus> {
    if !body.Obj? || IdText(body) != Some(id) then None
    else if Get(body, "input_path") != Null && path != "" && Get(body, "input_path") != Str(path) then None
    else if !wellFormed then None
    else StatusNamed(Get(body, "status"))
  }

  predicate SizeOk(v: Json) {
    v == Null || (v.Num? && 0 <= v.n <= MAX_SIZE)
  }

  function SizeOf(v: Json): Option<int> {
    if v.Num? then Some(v.n) else None
  }

  /** The reply itself says whether the file is there, and is to be believed. */
  predicate ClaimsAvailability(body: Json, status: JobStatus) {
    Get(body, "output_available").Bool? && (Get(body, "output_available").b ==> status == Finished)
    && SizeOk(Get(body, "output_size_bytes"))
  }

  /** What a parsed reply, and for a finished job without a statement the probe, say about the file. */
  function FileSeen(body: Json, status: JobStatus, head: Head): Seen {
    if body.Obj? && "output_available" in body.fields then
      if !ClaimsAvailability(body, status) then Seen(Fields(Some(status), Some(None), None), Some(InvalidResponse))
      else
        var there := Get(body, "output_available").b;
        Seen(Fields(Some(status), Some(Some(there)), Some(if there then SizeOf(Get(body, "output_size_bytes")) else None)), None)
    else if status == Finished then
      match head
      case HeadTimedOut => Seen(Fields(Some(status), Some(None), None), Some(Connection))
      case HeadFailed => Seen(Fields(Some(status), Some(None), None), Some(ProbeFailed))
      case Head(code, textual, size) =>
        if code in {200, 206} && !textual then
          Seen(Fields(Some(status), Some(Some(true)), Some(if size.Some? && 0 <= size.value <= MAX_SIZE then size else None)), None)
        else if code in {404, 410} then Seen(Fields(Some(status), Some(Some(false)), Some(None)), None)
        else Seen(Fields(Some(status), Some(None), None), Some(ProbeFailed))
    else Seen(Fields(Some(status), Some(Some(false)), Some(None)), None)
  }

  function Observation(got: Got, head: Head, id: string, path: string, wellFormed: bool): Seen {
    if !got.Got? then Seen(NO_FIELDS, Some(Connection))
    else if got.code == 404 then Seen(Fields(None, Some(None), Some(None)), Some(NotFound))
    else if !(200 <= got.code < 300) then Seen(NO_FIELDS, Some(HttpError))
    else if got.body.None? || Parsed(got.body.value, id, path, wellFormed).None? then Seen(NO_FIELDS, Some(InvalidResponse))
    else FileSeen(got.body.value, Parsed(got.body.value, id, path, wellFormed).value, head)
  }

  /** `observe`: the dictionary is filled in step by step, and a failure keeps what it holds by then. */
  method Observe(got: Got, head: Head, id: string, path: string, wellFormed: bool) returns (seen: Seen)
    ensures seen == Observation(got, head, id, path, wellFormed)
  {
    var fields, kind := NO_FIELDS, None;
    if !got.Got? { return Seen(fields, Some(Connection)); }
    if got.code == 404 { return Seen(Fields(None, Some(None), Some(None)), Some(NotFound)); }
    if got.code < 200 || 300 <= got.code { return Seen(fields, Some(HttpError)); }
    if got.body.None? { return Seen(fields, Some(InvalidResponse)); }
    var body := got.body.value;
    var status := Parsed(body, id, path, wellFormed);
    if status.None? { return Seen(fields, Some(InvalidResponse)); }
    fields := fields.(status := status);
    if "output_available" in body.fields {
      var available := body.fields["output_available"];
      if !available.Bool? || (available.b && status.value != Finished) {
        return Seen(fields.(available := Some(None)), Some(InvalidResponse));
      }
      var size := Get(body, "output_size_bytes");
      if size != Null && (!size.Num? || size.n < 0 || MAX_SIZE < size.n) {
        return Seen(fields.(available := Some(None)), Some(InvalidResponse));
      }
      fields := fields.(available := Some(Some(available.b)), size := Some(if available.b then SizeOf(size) else None));
    } else if status.value == Finished {
      fields := fields.(available := Some(None));
      match head
      case HeadTimedOut => kind := Some(Connection);
      case HeadFailed => kind := Some(ProbeFailed);
      case Head(code, textual, size) =>
        if code in {200, 206} && textual {
          kind := Some(ProbeFailed);
        } else if code in {200, 206} {
          fields := fields.(available := Some(Some(true)),
                            size := Some(if size.Some? && 0 <= size.value <= MAX_SIZE then size else None));
        } else if code in {404, 410} {
          fields := fields.(available := Some(Some(false)), size := Some(None));
        } else {
          kind := Some(ProbeFailed);
        }
    } else {
      fields := fields.(available := Some(Some(false)), size := Some(None));
    }
    seen := Seen(fields, kind);
  }

  /** An observation that a row may take over. */
  predicate Consistent(s: Seen) {
    && (s.fields.available == Some(Some(true)) ==> s.fields.status == Some(Finished) && s.kind.None?)
    && (s.fields.status.Some? ==> s.fields.available.Some? && s.kind != Some(NotFound))
    && (s.kind == Some(NotFound) ==> s.fields.available == Some(None))
    && (s.kind.None? ==> s.fields.status.Some?)
    && s.fields.status != Some(Unseen)
  }

  /** The file is confirmed exactly by a 2xx reply about a finished job that says so, or says nothing and the probe finds it. */
  lemma ConfirmedOnlyByEvidence(got: Got, head: Head, id: string, path: string, wellFormed: bool)
    ensures var s := Observation(got, head, id, path, wellFormed);
      Consistent(s) &&
      (s.fields.available == Some(Some(true)) <==>
         got.Got? && 200 <= got.code < 300 && got.body.Some? && Parsed(got.body.value, id, path, wellFormed) == Some(Finished) &&
         if "output_available" in got.body.value.fields
         then Get(got.body.value, "output_available") == Bool(true) && SizeOk(Get(got.body.value, "output_size_bytes"))
         else head.Head? && head.code in {200, 206} && !head.textual)
  {
    hide IdText;
    if got.Got? && got.body.Some? && Parsed(got.body.value, id, path, wellFormed).Some? {
      ParsedObject(got.body.value, id, path, wellFormed);
    }
  }

  lemma ParsedObject(body: Json, id: string, path: string, wellFormed: bool)
    requires Parsed(body, id, path, wellFormed).Some?
    ensures body.Obj? && Parsed(body, id, path, wellFormed).value != Unseen
  {
    hide IdText;
  }

  // ---- rows and claims -----------------------------------------------------------

  datatype Lease = Lease(token: nat, until: int)

  datatype Row = Row(
    status: JobStatus, available: Option<bool>, size: Option<int>, kind: Option<Kind>, failures: nat,
    nextPollAt: int, lease: Option<Lease>)

  /** What a worker carries from its claim. */
  datatype Target = Target(row: nat, token: nat, failures: nat)

  predicate Due(r: Row, now: int) {
    r.nextPollAt <= now && (r.lease.None? || r.lease.value.until <= now)
  }

  predicate HeldBy(r: Row, token: nat) {
    r.lease.Some? && r.lease.value.token == token
  }

  function Delay(failures: nat, s: Seen): int {
    if s.kind.Some? then EncoderTables.Backoff(failures)
    else if s.fields.status.Some? && s.fields.status.value in TERMINAL then 300
    else 30
  }

  function Failures(t: Target, s: Seen): nat {
    if s.kind.Some? then t.failures + 1 else 0
  }

  function Update<T>(value: T, field: Option<T>): T {
    if field.Some? then field.value else value
  }

  function Saved(r: Row, t: Target, s: Seen, now: int): Row {
    Row(Update(r.status, s.fields.status), Update(r.available, s.fields.available), Update(r.size, s.fields.size),
        s.kind, Failures(t, s), now + Delay(Failures(t, s), s), None)
  }

  /** `serialize_job` shows a download link. */
  predicate ShowsLink(r: Row) {
    r.status == Finished && r.available == Some(true) && r.kind != Some(NotFound)
  }

  /** The rows as the program rewrites them. */
  class PollStore {
    var rows: seq<Row>

    constructor ()
      ensures rows == []
    {
      rows := [];
    }

    /** Claims, one conditional update each, the rows of `page` that are due; `tokens` are fresh. */
    method ClaimDue(page: seq<nat>, tokens: seq<nat>, now: int) returns (targets: seq<Target>)
      requires |tokens| == |page| && forall k :: 0 <= k < |page| ==> page[k] < |rows|
      requires forall i, j :: 0 <= i < j < |page| ==> page[i] != page[j]
      modifies this
      ensures |rows| == |old(rows)|
      ensures forall r :: 0 <= r < |rows| && r !in page ==> rows[r] == old(rows)[r]
      ensures forall k :: 0 <= k < |page| ==>
        rows[page[k]] == if Due(old(rows)[page[k]], now)
                         then old(rows)[page[k]].(lease := Some(Lease(tokens[k], now + LEASE))) else old(rows)[page[k]]
      ensures forall t :: t in targets <==>
        exists k :: 0 <= k < |page| && Due(old(rows)[page[k]], now) && t == Target(page[k], tokens[k], old(rows)[page[k]].failures)
    {
      targets := [];
      var n := 0;
      while n < |page|
        invariant n <= |page| && |rows| == |old(rows)|
        invariant forall r :: 0 <= r < |rows| && r !in page[..n] ==> rows[r] == old(rows)[r]
        invariant forall k :: 0 <= k < n ==>
          rows[page[k]] == if Due(old(rows)[page[k]], now)
                           then old(rows)[page[k]].(lease := Some(Lease(tokens[k], now + LEASE))) else old(rows)[page[k]]
        invariant forall t :: t in targets <==>
          exists k :: 0 <= k < n && Due(old(rows)[page[k]], now) && t == Target(page[k], tokens[k], old(rows)[page[k]].failures)
      {
        var row := rows[page[n]];
        if row.nextPollAt <= now && (row.lease.None? || row.lease.value.until <= now) {
          rows := rows[page[n] := row.(lease := Some(Lease(tokens[n], now + LEASE)))];
          targets := targets + [Target(page[n], tokens[n], row.failures)];
        }
        n := n + 1;
      }
      assert page[..n] == page;
    }

    /** Saved only while the worker's own claim holds. */
    method SaveObservation(t: Target, s: Seen, now: int) returns (saved: bool)
      requires t.row < |rows|
      modifies this
      ensures saved <==> HeldBy(old(rows)[t.row], t.token) && now < old(rows)[t.row].lease.value.until
      ensures rows == if saved then old(rows)[t.row := Saved(old(rows)[t.row], t, s, now)] else old(rows)
    {
      var row := rows[t.row];
      var failures := if s.kind.Some? then t.failures + 1 else 0;
      var delay := if s.kind.Some? then EncoderTables.Backoff(failures)
                   else if s.fields.status.Some? && s.fields.status.value in TERMINAL then 300 else 30;
      saved := row.lease.Some? && row.lease.value.token == t.token && row.lease.value.until > now;
      if saved {
        rows := rows[t.row := row.(
          status := Update(row.status, s.fields.status), available := Update(row.available, s.fields.available),
          size := Update(row.size, s.fields.size), kind := s.kind, failures := failures, nextPollAt := now + delay, lease := None)];
      }
    }

    /** The end of a round gives up the claims that were not used. */
    method Release(targets: seq<Target>)
      requires forall k :: 0 <= k < |targets| ==> targets[k].row < |rows|
      modifies this
      ensures |rows| == |old(rows)|
      ensures forall r :: 0 <= r < |rows| ==>
        rows[r] == if exists t :: t in targets && t.row == r && HeldBy(old(rows)[r], t.token)
                   then old(rows)[r].(lease := None) else old(rows)[r]
    {
      var n := 0;
      while n < |targets|
        invariant n <= |targets| && |rows| == |old(rows)|
        invariant forall r :: 0 <= r < |rows| ==>
          rows[r] == if exists k :: 0 <= k < n && targets[k].row == r && HeldBy(old(rows)[r], targets[k].token)
                     then old(rows)[r].(lease := None) else old(rows)[r]
      {
        var t := targets[n];
        if rows[t.row].lease.Some? && rows[t.row].lease.value.token == t.token {
          rows := rows[t.row := rows[t.row].(lease := None)];
        }
        n := n + 1;
      }
      forall r | 0 <= r < |rows|
        ensures (exists t :: t in targets && t.row == r && HeldBy(old(rows)[r], t.token)) <==>
                (exists k :: 0 <= k < n && targets[k].row == r && HeldBy(old(rows)[r], targets[k].token))
      {
        if k :| 0 <= k < n && targets[k].row == r && HeldBy(old(rows)[r], targets[k].token) { assert targets[k] in targets; }
      }
    }
  }
}
