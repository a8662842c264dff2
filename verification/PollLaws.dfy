/** What an observation says, answer by answer, and how long the poller then waits. */
module PollLaws {
  import opened Json
  import opened PollTracking
  import EncoderTables
  import RowLaws

  /** How the encoder writes a status. */
  function Written(s: JobStatus): string
    requires s != Unseen
  {
    match s
    case Planned => "planned"
    case InProgress => "in_progress"
    case Finished => "done"
    case Failed => "error"
    case Stopped => "cancelled"
  }

  /** A status is read exactly as it is written, and nothing else is one. */
  lemma ReadAsWritten(v: Json, s: JobStatus)
    ensures StatusNamed(v) == Some(s) <==> s != Unseen && v == Str(Written(s))
  {}

  /** The reply is about job `id`, as Python would print what it carries. */
  predicate AboutJob(body: Json, id: string) {
    && body.Obj?
    && if "id" !in body.fields then id == ""
       else match body.fields["id"]
            case Str(s) => s == id
            case Num(n) => Decimal(n) == id
            case Null => id == "None"
            case Bool(b) => id == if b then "True" else "False"
            case _ => false
  }

  /** A reply is accepted with status `s` exactly if it is about the job and its path, well formed, and says `s`. */
  lemma AcceptedExactlyWhen(body: Json, id: string, path: string, wellFormed: bool, s: JobStatus)
    ensures Parsed(body, id, path, wellFormed) == Some(s) <==>
      && s != Unseen && Get(body, "status") == Str(Written(s)) && AboutJob(body, id) && wellFormed
      && (Get(body, "input_path") == Null || path == "" || Get(body, "input_path") == Str(path))
  {
    ReadAsWritten(Get(body, "status"), s);
    hide StatusNamed, Written;
  }

  /** A 2xx reply that is accepted with status `s`. */
  predicate Tells(got: Got, id: string, path: string, wellFormed: bool, s: JobStatus) {
    got.Got? && 200 <= got.code < 300 && got.body.Some? && Parsed(got.body.value, id, path, wellFormed) == Some(s)
  }

  ghost predicate TellsSome(got: Got, id: string, path: string, wellFormed: bool) {
    exists s :: Tells(got, id, path, wellFormed, s)
  }

  predicate States(got: Got) {
    got.Got? && got.body.Some? && got.body.value.Obj? && "output_available" in got.body.value.fields
  }

  /** The statement about the file is true or false, true only of a finished job, with a plausible size or none. */
  ghost predicate Believable(got: Got, id: string, path: string, wellFormed: bool)
    requires States(got)
  {
    var body := got.body.value;
    && (Get(body, "output_available") == Bool(false) ||
        (Get(body, "output_available") == Bool(true) && Tells(got, id, path, wellFormed, Finished)))
    && SizeOk(Get(body, "output_size_bytes"))
  }

  /** The finished file has to be probed. */
  ghost predicate Probes(got: Got, id: string, path: string, wellFormed: bool) {
    Tells(got, id, path, wellFormed, Finished) && !States(got)
  }

  predicate ProbeFinds(head: Head) { head.Head? && (head.code == 200 || head.code == 206) && !head.textual }
  predicate ProbeMisses(head: Head) { head.Head? && (head.code == 404 || head.code == 410) }

  /** The parts an observation is made of. */
  lemma ObservationParts(got: Got, head: Head, id: string, path: string, wellFormed: bool)
    ensures TellsSome(got, id, path, wellFormed) <==>
      got.Got? && 200 <= got.code < 300 && got.body.Some? && Parsed(got.body.value, id, path, wellFormed).Some?
    ensures TellsSome(got, id, path, wellFormed) ==>
      && got.body.value.Obj?
      && Observation(got, head, id, path, wellFormed) ==
           FileSeen(got.body.value, Parsed(got.body.value, id, path, wellFormed).value, head)
      && forall s :: Tells(got, id, path, wellFormed, s) <==> Parsed(got.body.value, id, path, wellFormed).value == s
  {
    if got.Got? && 200 <= got.code < 300 && got.body.Some? && Parsed(got.body.value, id, path, wellFormed).Some? {
      assert Tells(got, id, path, wellFormed, Parsed(got.body.value, id, path, wellFormed).value);
      ParsedObject(got.body.value, id, path, wellFormed);
    }
    hide Parsed, FileSeen;
  }

  /** Why an observation failed, reason by reason. */
  lemma FailedExactlyWhen(got: Got, head: Head, id: string, path: string, wellFormed: bool)
    ensures var kind := Observation(got, head, id, path, wellFormed).kind;
      && (kind == Some(NotFound) <==> got.Got? && got.code == 404)
      && (kind == Some(HttpError) <==> got.Got? && got.code != 404 && !(200 <= got.code < 300))
      && (kind == Some(Connection) <==> !got.Got? || (Probes(got, id, path, wellFormed) && head.HeadTimedOut?))
    ensures var kind := Observation(got, head, id, path, wellFormed).kind;
      && (kind == Some(InvalidResponse) <==>
            got.Got? && 200 <= got.code < 300 &&
            (!TellsSome(got, id, path, wellFormed) || (States(got) && !Believable(got, id, path, wellFormed))))
      && (kind == Some(ProbeFailed) <==>
            Probes(got, id, path, wellFormed) && !head.HeadTimedOut? && !ProbeFinds(head) && !ProbeMisses(head))
  {
    ObservationParts(got, head, id, path, wellFormed);
    hide Parsed, TellsSome;
    if TellsSome(got, id, path, wellFormed) { hide Observation; }
  }

  /** The status seen is the one a reply tells, and none otherwise. */
  lemma SeenStatus(got: Got, head: Head, id: string, path: string, wellFormed: bool, s: JobStatus)
    ensures Observation(got, head, id, path, wellFormed).fields.status == Some(s) <==> Tells(got, id, path, wellFormed, s)
  {
    ObservationParts(got, head, id, path, wellFormed);
    hide Parsed, TellsSome;
    if TellsSome(got, id, path, wellFormed) { hide Observation; }
    else { assert !Tells(got, id, path, wellFormed, s) by { MissingTells(got, id, path, wellFormed, s); } }
  }

  lemma MissingTells(got: Got, id: string, path: string, wellFormed: bool, s: JobStatus)
    requires !TellsSome(got, id, path, wellFormed)
    ensures !Tells(got, id, path, wellFormed, s)
  {}

  /**
   A file is known to be missing exactly if a believable reply says so, if the
   reply says nothing and the job is not finished, or if the probe finds it gone.
   Its fate is open exactly after a 404, an unbelievable statement, or a probe
   that decides nothing.
   */
  lemma MissingExactlyWhen(got: Got, head: Head, id: string, path: string, wellFormed: bool)
    ensures var available := Observation(got, head, id, path, wellFormed).fields.available;
      && (available == Some(Some(false)) <==>
            TellsSome(got, id, path, wellFormed) &&
            if States(got) then Believable(got, id, path, wellFormed) && Get(got.body.value, "output_available") == Bool(false)
            else !Tells(got, id, path, wellFormed, Finished) || ProbeMisses(head))
      && (available == Some(None) <==>
            (got.Got? && got.code == 404) ||
            (TellsSome(got, id, path, wellFormed) &&
             if States(got) then !Believable(got, id, path, wellFormed)
             else Tells(got, id, path, wellFormed, Finished) && !ProbeFinds(head) && !ProbeMisses(head)))
  {
    ObservationParts(got, head, id, path, wellFormed);
    hide Parsed, TellsSome;
    if TellsSome(got, id, path, wellFormed) { hide Observation; }
  }

  /** A size is seen only with a confirmed file, and is then the one stated, or else the one probed if plausible. */
  lemma SeenSize(got: Got, head: Head, id: string, path: string, wellFormed: bool)
    ensures var fields := Observation(got, head, id, path, wellFormed).fields;
      && (fields.size.Some? && fields.size.value.Some? ==> fields.available == Some(Some(true)))
      && (fields.available == Some(Some(true)) ==>
            fields.size.Some? &&
            if States(got) then
              if Get(got.body.value, "output_size_bytes").Num? then fields.size.value == Some(Get(got.body.value, "output_size_bytes").n)
              else fields.size.value.None?
            else fields.size.value ==
                 if head.Head? && head.size.Some? && 0 <= head.size.value <= 9223372036854775807 then head.size else None)
  {
    ObservationParts(got, head, id, path, wellFormed);
    hide Parsed, TellsSome;
    if TellsSome(got, id, path, wellFormed) { hide Observation; }
  }

  /** A saved row takes over what was seen, keeps the rest, and is nobody's any more. */
  lemma SavedKeepsTheUnseen(r: Row, t: Target, s: Seen, now: int)
    ensures var b := Saved(r, t, s, now);
      && (s.fields.status.Some? ==> b.status == s.fields.status.value) && (s.fields.status.None? ==> b.status == r.status)
      && (s.fields.available.Some? ==> b.available == s.fields.available.value)
      && (s.fields.available.None? ==> b.available == r.available)
      && (s.fields.size.Some? ==> b.size == s.fields.size.value) && (s.fields.size.None? ==> b.size == r.size)
      && b.kind == s.kind && b.lease.None? && b.nextPollAt > now
  {
    RowLaws.PauseTable(Failures(t, s));
    hide EncoderTables.Backoff;
  }

  /**
   The next poll: 30 seconds after a good look at a running job, 300 at one that
   is over, and after the n-th failure in a row 60, 120, 240, 480 and then 900.
   */
  lemma NextPoll(r: Row, t: Target, s: Seen, now: int)
    ensures var b := Saved(r, t, s, now);
      && (s.kind.None? ==>
            b.failures == 0 &&
            b.nextPollAt == now + if s.fields.status in {Some(Finished), Some(Failed), Some(Stopped)} then 300 else 30)
      && (s.kind.Some? ==>
            b.failures == t.failures + 1 &&
            b.nextPollAt == now + if t.failures == 0 then 60 else if t.failures == 1 then 120
                                  else if t.failures == 2 then 240 else if t.failures == 3 then 480 else 900)
  {
    RowLaws.PauseTable(Failures(t, s));
    hide EncoderTables.Backoff;
  }
}
