/** What every transaction does to one receipt: the order its lines follow, and what stays fixed. */
module ReceiptSteps {
  import opened Json
  import opened EncoderHistory
  import opened EncoderTables
  import opened RepairReceipt
  import SettleLemmas

  /**
   The order of line statuses. Accepted, rejected and not_sent are final; an
   unknown line may be decided or reopened, but never becomes not_sent.
   */
  predicate StatusFollows(a: Status, b: Status) {
    match a
    case Sending => true
    case Unknown => b != NotSent
    case _ => b == a
  }

  predicate ItemEvolves(a: Item, b: Item) {
    && b.fileId == a.fileId && IdOf(b) == IdOf(a)
    && StatusFollows(a.status, b.status)
    && (a.status in {Accepted, Rejected, NotSent} ==> b.jobIds == a.jobIds)
    && (a.conflict ==> b.conflict)
  }

  predicate GroupEvolves(a: Group, b: Group) {
    && b.requestId == a.requestId && b.target == a.target && b.presets == a.presets && b.origin == a.origin
    && |b.items| == |a.items|
    && (forall i :: 0 <= i < |a.items| ==> ItemEvolves(a.items[i], b.items[i]))
    && (a.startedAt.Some? ==> b.startedAt == a.startedAt && b.payload == a.payload)
  }

  /** No line of the posted payload turns out never to have been sent. */
  predicate KeepsPosted(a: Group, b: Group) {
    |b.items| == |a.items| &&
    forall i :: 0 <= i < |a.items| && a.items[i].status != NotSent ==> b.items[i].status != NotSent
  }

  /** A receipt as the tables may hold it. */
  ghost predicate GroupOk(g: Group) {
    && g.items != []
    && (g.origin.Automatic? ==> |g.items| == 1)
    && (g.startedAt.None? ==> g.payload == {})
    && (g.startedAt.None? ==> forall i :: 0 <= i < |g.items| ==> g.items[i].status in {Sending, NotSent})
    && (g.startedAt.Some? ==>
          forall i :: 0 <= i < |g.items| && g.items[i].status != NotSent ==> i in g.payload)
    && (forall i :: i in g.payload ==> i < |g.items|)
    && (g.finishedAt.Some? ==> forall i :: 0 <= i < |g.items| ==> g.items[i].status != Sending)
    && (forall i :: 0 <= i < |g.items| && g.items[i].status != Accepted ==> g.items[i].jobIds == {})
    && (forall i, j :: 0 <= i < j < |g.items| ==> g.items[i].fileId != g.items[j].fileId)
    && (forall i, j :: 0 <= i < j < |g.items| && g.items[i].infoHash != "" ==>
          g.items[i].infoHash != g.items[j].infoHash || g.items[i].relativePath != g.items[j].relativePath)
  }

  lemma ExpireStep(g: Group, now: int)
    requires GroupOk(g)
    ensures var r := Expire(g, now); GroupOk(r) && GroupEvolves(g, r) && r.startedAt == g.startedAt && r.payload == g.payload
    ensures g.startedAt.Some? ==> KeepsPosted(g, Expire(g, now))
  {
    SameStep(g);
    FailureStep(g, g.startedAt.Some?, "expired", now);
    hide GroupOk, GroupEvolves;
    if Expired(g, now) {
      var failed := FinishFailure(g, g.startedAt.Some?, "expired", now);
      assert Expire(g, now) == failed.(error := g.error);
      ErrorApart(g, failed, g.error);
    }
  }

  lemma SameStep(g: Group)
    ensures GroupEvolves(g, g) && KeepsPosted(g, g)
  {}

  lemma ErrorApart(g: Group, r: Group, error: Option<string>)
    ensures GroupOk(r) ==> GroupOk(r.(error := error))
    ensures GroupEvolves(g, r) ==> GroupEvolves(g, r.(error := error))
    ensures KeepsPosted(g, r) ==> KeepsPosted(g, r.(error := error))
  {}

  lemma FailureStep(g: Group, started: bool, why: string, now: int)
    requires GroupOk(g) && (started ==> g.startedAt.Some?)
    ensures var r := FinishFailure(g, started, why, now); GroupOk(r) && GroupEvolves(g, r) && r.startedAt == g.startedAt
    ensures started ==> KeepsPosted(g, FinishFailure(g, started, why, now))
    ensures !started ==> forall i :: 0 <= i < |g.items| && g.items[i].status == Sending ==>
      FinishFailure(g, started, why, now).items[i].status == NotSent
  {}

  /** Before the intent: lines may be captured again or given up, nothing else. */
  lemma UnstartedStep(g: Group, r: Group)
    requires GroupOk(g) && g.startedAt.None?
    requires r == g.(items := r.items, snapshot := r.snapshot) && |r.items| == |g.items|
    requires forall i :: 0 <= i < |g.items| ==>
      ItemEvolves(g.items[i], r.items[i]) && r.items[i].jobIds == g.items[i].jobIds &&
      (r.items[i].status == NotSent || r.items[i].status == g.items[i].status)
    ensures GroupOk(r) && GroupEvolves(g, r)
  {
    forall i, j | 0 <= i < j < |g.items|
      ensures r.items[i].fileId != r.items[j].fileId
      ensures r.items[i].infoHash != "" ==>
        r.items[i].infoHash != r.items[j].infoHash || r.items[i].relativePath != r.items[j].relativePath
    {
      assert ItemEvolves(g.items[i], r.items[i]) && ItemEvolves(g.items[j], r.items[j]);
    }
  }

  lemma PrepareStep(g: Group, checks: seq<Option<Captured>>)
    requires GroupOk(g) && g.startedAt.None? && |checks| == |g.items|
    ensures var r := g.(items := Prepare(g.items, checks)); GroupOk(r) && GroupEvolves(g, r)
  {
    NeverDecided(g);
    hide GroupOk, GroupEvolves;
    UnstartedStep(g, g.(items := Prepare(g.items, checks)));
  }

  lemma NeverDecided(g: Group)
    requires GroupOk(g) && g.startedAt.None?
    ensures forall i :: 0 <= i < |g.items| ==> g.items[i].status in {Sending, NotSent}
  {}

  lemma RecheckStep(g: Group, ok: set<nat>, snapshot: Json)
    requires GroupOk(g) && g.startedAt.None?
    ensures var r := g.(items := Recheck(g.items, ok), snapshot := snapshot); GroupOk(r) && GroupEvolves(g, r)
  {
    NeverDecided(g);
    hide GroupOk, GroupEvolves;
    UnstartedStep(g, g.(items := Recheck(g.items, ok), snapshot := snapshot));
  }

  lemma StartStep(g: Group, now: int)
    requires GroupOk(g) && g.startedAt.None?
    ensures var r := StartRequest(g, g.items, now); GroupOk(r) && GroupEvolves(g, r)
  {}

  lemma MarkStep(items: seq<Item>, changed: set<nat>)
    ensures var r := MarkConflicts(items, changed);
      forall i :: 0 <= i < |items| ==> ItemEvolves(items[i], r[i]) && r[i].status == items[i].status && r[i].jobIds == items[i].jobIds
  {}

  lemma SettleStep(items: seq<Item>, code: int, body: Json)
    requires forall i :: 0 <= i < |items| && items[i].status != Accepted ==> items[i].jobIds == {}
    ensures var r := Settled(items, code, body);
      |r| == |items| &&
      forall i :: 0 <= i < |items| ==>
        ItemEvolves(items[i], r[i]) && r[i].status != Sending &&
        (r[i].status == NotSent ==> items[i].status == NotSent) &&
        (r[i].status != Accepted ==> r[i].jobIds == {})
  {
    SettleLemmas.OnlySendingFilesSettle(items, code, body);
    hide Settled;
  }

  /** Lines decided from `from`, one by one, make a good receipt again. */
  ghost predicate Decides(from: seq<Item>, r: seq<Item>) {
    |r| == |from| &&
    forall i :: 0 <= i < |from| ==>
      ItemEvolves(from[i], r[i]) && (r[i].status == NotSent ==> from[i].status == NotSent) &&
      (r[i].status != Accepted ==> r[i].jobIds == {})
  }

  ghost predicate NoneSending(items: seq<Item>) {
    forall i :: 0 <= i < |items| ==> items[i].status != Sending
  }

  lemma DecidedStep(g: Group, r: Group)
    requires GroupOk(g) && g.startedAt.Some?
    requires Decides(g.items, r.items) && (r.finishedAt.Some? ==> NoneSending(r.items))
    requires r == g.(items := r.items, finishedAt := r.finishedAt, expiresAt := r.expiresAt, receiptNextAt := r.receiptNextAt,
                     receiptError := r.receiptError, httpStatus := r.httpStatus, response := r.response, error := r.error)
    ensures GroupOk(r) && GroupEvolves(g, r) && KeepsPosted(g, r)
  {
    forall i, j | 0 <= i < j < |g.items|
      ensures r.items[i].fileId != r.items[j].fileId
      ensures r.items[i].infoHash != "" ==>
        r.items[i].infoHash != r.items[j].infoHash || r.items[i].relativePath != r.items[j].relativePath
    {
      assert ItemEvolves(g.items[i], r.items[i]) && ItemEvolves(g.items[j], r.items[j]);
    }
  }

  lemma DecideThenMark(from: seq<Item>, decided: seq<Item>, changed: set<nat>)
    requires Decides(from, decided)
    ensures Decides(from, MarkConflicts(decided, changed))
    ensures NoneSending(decided) ==> NoneSending(MarkConflicts(decided, changed))
  {}

  lemma SettleDecides(items: seq<Item>, code: int, body: Json)
    requires forall i :: 0 <= i < |items| && items[i].status != Accepted ==> items[i].jobIds == {}
    ensures Decides(items, Settled(items, code, body)) && NoneSending(Settled(items, code, body))
  {
    SettleStep(items, code, body);
  }

  lemma AnsweredStep(g: Group, code: int, body: Json, saved: Json, changed: set<nat>, now: int)
    requires GroupOk(g) && g.startedAt.Some?
    ensures var r := Answered(g, code, body, saved, changed, now); GroupOk(r) && GroupEvolves(g, r) && KeepsPosted(g, r)
  {
    if code == 202 {
      MarkStep(g.items, changed);
    } else {
      SettleDecides(g.items, code, body);
      DecideThenMark(g.items, Settled(g.items, code, body), changed);
    }
    DecidedStep(g, Answered(g, code, body, saved, changed, now));
  }

  lemma RefusedStep(g: Group, status: int, why: Json, changed: set<nat>, now: int)
    requires GroupOk(g) && g.startedAt.Some?
    ensures var r := RefusedPost(g, status, why, changed, now); GroupOk(r) && GroupEvolves(g, r) && KeepsPosted(g, r)
  {
    MarkStep(RefuseAll(g.items, why), changed);
  }

  lemma LostStep(g: Group, http: Option<int>, retry: bool, changed: set<nat>, now: int)
    requires GroupOk(g) && g.startedAt.Some?
    ensures var r := LostPost(g, http, retry, changed, now); GroupOk(r) && GroupEvolves(g, r) && KeepsPosted(g, r)
  {
    MarkStep(g.items, changed);
  }

  /** Asking for a receipt never rewrites the original reply, code or error. */
  lemma RecoverKeepsReply(g: Group, a: Answer, changed: set<nat>, now: int)
    ensures var r := Recover(g, a, changed, now);
      r.response == g.response && r.httpStatus == g.httpStatus && r.error == g.error &&
      r.requestId == g.requestId && r.startedAt == g.startedAt && r.payload == g.payload
  {}

  /** The files a recovered reply decides, reopened and then decided. */
  lemma ReopenedStep(items: seq<Item>, changed: set<nat>, decided: seq<Item>)
    requires forall i :: 0 <= i < |items| && items[i].status != Accepted ==> items[i].jobIds == {}
    requires Decides(Reopen(MarkConflicts(items, changed)), decided)
    ensures Decides(items, decided)
  {
    var open := Reopen(MarkConflicts(items, changed));
    forall i | 0 <= i < |items|
      ensures ItemEvolves(items[i], decided[i]) && (decided[i].status == NotSent ==> items[i].status == NotSent)
      ensures decided[i].status != Accepted ==> decided[i].jobIds == {}
    {
      assert ItemEvolves(open[i], decided[i]);
    }
  }

  lemma ReadOutcomeStep(g: Group, o: Outcome, changed: set<nat>, now: int)
    requires GroupOk(g) && g.startedAt.Some?
    ensures var r := ReadOutcome(g, o, changed, now);
      Decides(g.items, r.items) && (r.finishedAt.Some? ==> NoneSending(r.items)) &&
      (r.receiptError ==> r.items == g.items && r.finishedAt == g.finishedAt)
  {
    hide Settled;
    var open := Reopen(MarkConflicts(g.items, changed));
    match o
    case Settles(code, body) =>
      SettleDecides(open, code, body);
      ReopenedStep(g.items, changed, Settled(open, code, body));
    case Refuses(why) =>
      ReopenedStep(g.items, changed, RefuseAll(open, why));
    case _ =>
  }

  lemma RecoverStep(g: Group, o: Outcome, changed: set<nat>, now: int)
    requires GroupOk(g) && g.startedAt.Some?
    ensures var r := RecoverWith(g, o, changed, now);
      GroupOk(r) && GroupEvolves(g, r) && KeepsPosted(g, r)
  {
    ReadOutcomeStep(g, o, changed, now);
    var read, r := ReadOutcome(g, o, changed, now), RecoverWith(g, o, changed, now);
    DecidedStep(g, read);
    if read.receiptError {
      GiveUpStep(g, r.items);
      DecidedStep(g, r);
    }
  }

  lemma GiveUpStep(g: Group, items: seq<Item>)
    requires GroupOk(g) && items == WriteOff(g.items, true, "receipt")
    ensures Decides(g.items, items) && NoneSending(items)
  {}

  lemma RepairStep(g: Group, code: int, response: Json)
    requires GroupOk(g) && g.startedAt.Some?
    ensures var r := g.(items := Repaired(g.items, code, response)); GroupOk(r) && GroupEvolves(g, r) && KeepsPosted(g, r)
  {
    hide GroupOk, GroupEvolves, Repaired, KeepsPosted;
    OpenLinesHaveNoJobs(g);
    var r := Repaired(g.items, code, response);
    forall i | 0 <= i < |g.items|
      ensures ItemEvolves(g.items[i], r[i]) && (r[i].status == NotSent ==> g.items[i].status == NotSent)
      ensures r[i].status == Sending ==> g.items[i].status == Sending
      ensures r[i].status != Accepted ==> r[i].jobIds == {}
    {
      RepairOnlyAccepts(g.items, code, response, i);
    }
    DecidedStep(g, g.(items := r));
  }

  lemma OpenLinesHaveNoJobs(g: Group)
    requires GroupOk(g)
    ensures forall i :: 0 <= i < |g.items| && g.items[i].status != Accepted ==> g.items[i].jobIds == {}
    ensures g.finishedAt.Some? ==> NoneSending(g.items)
  {}
}
