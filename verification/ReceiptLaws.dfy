/** What each transaction does to the lines of a receipt, status by status. */
module ReceiptLaws {
  import opened Json
  import opened EncoderHistory
  import opened EncoderTables
  import opened EncoderRuns
  import opened SettleLemmas

  // ---- expiry -----------------------------------------------------------------------

  /** The receipt is unfinished and its time is over. */
  predicate Overdue(g: Group, now: int) { g.finishedAt.None? && g.expiresAt < now }

  /** Exactly the overdue receipts end; their pending lines are unknown if the request had started, and were not sent otherwise. */
  lemma ExpiryDecides(groups: seq<Group>, now: int, g: nat)
    requires g < |groups|
    ensures var was, r := groups[g], ExpireAll(groups, now)[g];
      && r == was.(items := r.items, finishedAt := r.finishedAt)
      && (r.finishedAt.Some? <==> was.finishedAt.Some? || was.expiresAt < now)
      && (r.items == was.items || Overdue(was, now)) && |r.items| == |was.items|
    ensures var was, r := groups[g], ExpireAll(groups, now)[g];
      forall i :: 0 <= i < |was.items| ==>
        var a, b := was.items[i], r.items[i];
        var gone := Overdue(was, now) && a.status == Sending;
        && (gone ==> b.status == if was.startedAt.Some? then Unknown else NotSent)
        && (!gone ==> b == a)
        && IdOf(b) == IdOf(a) && b.jobIds == a.jobIds && b.content == a.content && b.conflict == a.conflict
  {}

  /** After expiry no unfinished receipt is overdue, so a second expiry at the same time changes nothing. */
  lemma ExpiryIsComplete(groups: seq<Group>, now: int)
    ensures forall g :: 0 <= g < |groups| ==> !Overdue(ExpireAll(groups, now)[g], now)
    ensures ExpireAll(ExpireAll(groups, now), now) == ExpireAll(groups, now)
  {
    var once := ExpireAll(groups, now);
    forall g | 0 <= g < |groups| ensures Expire(once[g], now) == once[g] && !Overdue(once[g], now) {}
    hide Expire;
  }

  // ---- a new submission -----------------------------------------------------------------

  /**
   A new submission comes last, with the request's files and nothing done yet;
   unless it is finished before, it is written off after 600 seconds and not
   earlier. Only the row it is made for points at it.
   */
  lemma NewSubmission(db: Db, q: Request, now: int)
    ensures var next, g := AddGroup(db, q, now), |db.groups|;
      && |next.groups| == g + 1 && next.groups[..g] == ExpireAll(db.groups, now)
      && var r := next.groups[g];
         && r.requestId == q.requestId && r.target == q.target && r.presets == q.presets && r.origin == q.origin && r.items == q.items
         && r.payload == {} && r.startedAt.None? && r.finishedAt.None? && r.receiptNextAt.None? && r.httpStatus.None? && !r.receiptError
         && forall t :: Overdue(r, t) <==> t > now + 600
    ensures var next := AddGroup(db, q, now);
      && next == db.(groups := next.groups, autos := next.autos) && |next.autos| == |db.autos|
      && forall k: nat :: k < |db.autos| ==>
           next.autos[k] == if q.origin == Automatic(k) then db.autos[k].(receipt := Some(Ref(|db.groups|, 0))) else db.autos[k]
  {}

  /** A started request holds exactly the pending files, and is asked for after 600 seconds if nothing comes back. */
  lemma StartedRequest(g: Group, items: seq<Item>, now: int)
    ensures var r := StartRequest(g, items, now);
      && r.startedAt == Some(now) && r.receiptNextAt == Some(now + 600) && r.items == items && r.finishedAt == g.finishedAt
      && forall i: nat :: i in r.payload <==> i < |items| && items[i].status == Sending
    ensures forall t :: t < now + 600 ==> !AwaitsReceipt(StartRequest(g, items, now), t)
  {}

  // ---- the two preflights ------------------------------------------------------------

  /**
   What both preflights leave of a claimed file: it may be posted if and only if
   it was available at the first and unchanged at the second, and then under the
   path and with the content the first one captured. Otherwise it is not sent.
   */
  lemma PassesBothPreflights(items: seq<Item>, checks: seq<Option<Captured>>, ok: set<nat>, i: nat)
    requires |checks| == |items| && i < |items| && items[i].status in {Sending, NotSent}
    ensures var r := Recheck(Prepare(items, checks), ok);
      && (i in SendingSet(r) <==> items[i].status == Sending && checks[i].Some? && i in ok)
      && (i in SendingSet(r) ==>
            r[i].status == Sending && r[i].fullPath == checks[i].value.fullPath && r[i].content == checks[i].value.content)
      && (i !in SendingSet(r) ==> r[i].status == NotSent)
      && r[i].fileId == items[i].fileId && IdOf(r[i]) == IdOf(items[i])
  {}

  // ---- the outcome of the POST ---------------------------------------------------------

  /** A flag is raised for a posted file whose source changed, and never taken back. */
  predicate FlagsRaised(items: seq<Item>, out: seq<Item>, changed: set<nat>) {
    |out| == |items| &&
    forall i :: 0 <= i < |items| ==> (out[i].conflict <==> items[i].conflict || (i in changed && items[i].status != NotSent))
  }

  /** Every pending line becomes `s`; all others keep their status. */
  predicate PendingBecomes(items: seq<Item>, out: seq<Item>, s: Status) {
    |out| == |items| &&
    forall i :: 0 <= i < |items| ==> out[i].status == if items[i].status == Sending then s else items[i].status
  }

  /** 202: nothing is decided yet; the encoder is asked again after two seconds. */
  lemma PendingReply(o: Group, e: Event, now: int)
    requires e.Reply? && e.code == 202
    ensures var r := AfterAnswer(o, e, now);
      && PendingBecomes(o.items, r.items, Sending) && FlagsRaised(o.items, r.items, e.changed)
      && r.finishedAt == o.finishedAt && r.httpStatus == Some(202) && r.response == e.saved && r.receiptNextAt == Some(now + 2)
      && forall i :: 0 <= i < |o.items| ==> r.items[i].jobIds == o.items[i].jobIds
  {}

  ghost predicate LeavesUnknown(items: seq<Item>) {
    exists i :: 0 <= i < |items| && items[i].status == Unknown
  }

  /** 200 or 207: the receipt ends with nothing pending, and is asked for once more only if some file is unknown. */
  lemma FinalReply(o: Group, e: Event, now: int)
    requires e.Reply? && (e.code == 200 || e.code == 207)
    ensures var r, settled := AfterAnswer(o, e, now), Settled(o.items, e.code, e.body);
      && |r.items| == |o.items| && FlagsRaised(o.items, r.items, e.changed)
      && (forall i :: 0 <= i < |o.items| ==>
            r.items[i].status == settled[i].status && r.items[i].jobIds == settled[i].jobIds && r.items[i].status != Sending)
      && r.finishedAt == Some(now) && r.httpStatus == Some(e.code) && r.response == e.saved
      && (r.receiptNextAt == if LeavesUnknown(r.items) then Some(now) else None)
  {
    SettledLines(o.items, e.code, e.body);
    hide Settled;
    MarkedLines(Settled(o.items, e.code, e.body), e.changed);
    hide MarkConflicts;
  }

  lemma SettledLines(items: seq<Item>, code: int, body: Json)
    ensures var settled := Settled(items, code, body);
      |settled| == |items| && forall i :: 0 <= i < |items| ==>
        settled[i].status != Sending && settled[i].conflict == items[i].conflict &&
        (settled[i].status == NotSent <==> items[i].status == NotSent)
  {
    OnlySendingFilesSettle(items, code, body);
    var settled := Settled(items, code, body);
    hide Settled;
    forall i | 0 <= i < |items|
      ensures settled[i].conflict == items[i].conflict && (settled[i].status == NotSent <==> items[i].status == NotSent)
    {
      if items[i].status != Sending { assert settled[i] == items[i]; }
    }
  }

  lemma MarkedLines(items: seq<Item>, changed: set<nat>)
    ensures var r := MarkConflicts(items, changed);
      |r| == |items| && FlagsRaised(items, r, changed) &&
      forall i :: 0 <= i < |items| ==> r[i].status == items[i].status && r[i].jobIds == items[i].jobIds
  {}

  /** A documented refusal rejects every pending file and ends the receipt. */
  lemma RefusedReply(o: Group, e: Event, now: int)
    requires e.Refuse?
    ensures var r := AfterAnswer(o, e, now);
      && PendingBecomes(o.items, r.items, Rejected) && FlagsRaised(o.items, r.items, e.changed)
      && r.finishedAt == Some(now) && r.httpStatus == Some(e.status) && r.receiptNextAt == o.receiptNextAt
      && forall i :: 0 <= i < |o.items| ==>
           r.items[i].jobIds == o.items[i].jobIds &&
           (o.items[i].status == Sending && i !in e.changed ==> r.items[i].error == Refused(e.why))
  {}

  /** Any other failure leaves every pending file unknown; the receipt is then asked for at once. */
  lemma LostReply(o: Group, e: Event, now: int)
    requires e.Lose?
    ensures var r := AfterAnswer(o, e, now);
      && PendingBecomes(o.items, r.items, Unknown) && FlagsRaised(o.items, r.items, e.changed)
      && r.finishedAt == Some(now) && r.httpStatus == e.http
      && r.receiptNextAt == (if e.retry then Some(now) else o.receiptNextAt)
      && forall i :: 0 <= i < |o.items| ==> r.items[i].jobIds == o.items[i].jobIds
  {}

  /** A request that never reached the encoder: its pending files were not sent. */
  lemma UndeliveredRequest(o: Group, why: string, now: int)
    ensures var r := FinishFailure(o, false, why, now);
      && PendingBecomes(o.items, r.items, NotSent) && r.finishedAt == Some(now) && r.error == Some(why)
      && forall i :: 0 <= i < |o.items| ==> r.items[i].jobIds == o.items[i].jobIds && r.items[i].conflict == o.items[i].conflict
  {}

  /** A failed POST by its status: 400, 403, 404 and 422 reject, any other status or none is a loss, and an unsent one is neither. */
  lemma FailureByStatus(code: int)
    ensures code in REFUSALS <==> code == 400 || code == 403 || code == 404 || code == 422
  {}

  // ---- asking for the receipt -----------------------------------------------------------

  /** A receipt is asked for when its time has come, its request was started with something in it, and a file is undecided. */
  lemma AskedExactlyWhen(g: Group, now: int)
    ensures AwaitsReceipt(g, now) <==>
      && g.startedAt.Some? && (exists i :: i in g.payload) && g.receiptNextAt.Some? && g.receiptNextAt.value <= now
      && exists i :: 0 <= i < |g.items| && (g.items[i].status == Sending || g.items[i].status == Unknown)
  {
    if g.payload != {} { var i :| i in g.payload; }
  }

  /** Once asked for, a receipt is not asked for again within ten minutes by itself; the asking changes nothing else of it. */
  lemma AskedOnceInTenMinutes(w: World, e: Event)
    requires Enabled(w, e) && e.SelectReceipt?
    ensures e.group < |w.db.groups| && e.group < |Apply(w, e).db.groups|
    ensures var r := Apply(w, e).db.groups[e.group];
      r == w.db.groups[e.group].(receiptNextAt := r.receiptNextAt) && forall t :: t < w.now + 600 ==> !AwaitsReceipt(r, t)
  {
    hide Enabled, Apply;
    SelectApplied(w, e);
  }
}
