/** What an answer about a receipt may do, in the fields of the receipt and of the answer. */
module RecoveryLaws {
  import opened Json
  import opened EncoderHistory
  import opened EncoderTables
  import opened EncoderRuns
  import opened ReceiptSteps
  import opened FlightInvariant
  import opened QueueInvariant
  import opened QueueSteps
  import opened QueueClaims
  import opened RunSafety
  import opened RunStatuses
  import opened RunReplies
  import opened RunUnsent
  import SettleLemmas
  import RepairReceipt

  /** The answer carries the receipt's own request id. */
  ghost predicate OwnAnswer(requestId: string, a: Answer) {
    a.Answer? && a.body.Obj? && "request_id" in a.body.fields && a.body.fields["request_id"] == Str(requestId)
  }

  /** It says that the encoder is still working on the request. */
  ghost predicate StillWorking(requestId: string, a: Answer) {
    OwnAnswer(requestId, a) && a.code == 202 &&
    "request_status" in a.body.fields && a.body.fields["request_status"] == Str("processing")
  }

  ghost predicate SettlesOwn(requestId: string, a: Answer) {
    OwnAnswer(requestId, a) && (a.code == 200 || a.code == 207)
  }

  ghost predicate RefusesOwn(requestId: string, a: Answer) {
    OwnAnswer(requestId, a) && (a.code == 400 || a.code == 403 || a.code == 404 || a.code == 422)
  }

  /** What a refusal says: its `error`, or all of it. */
  function RefusalText(body: Json): Json {
    if body.Obj? && "error" in body.fields then body.fields["error"] else body
  }

  /** The pause the encoder asked for, but from 2 to 300 seconds. */
  function Clamped(delay: int): int {
    if delay < 2 then 2 else if delay > 300 then 300 else delay
  }

  /** Nothing is decided: what was pending is unknown, the rest is as it was. */
  ghost predicate OnlyGivenUp(g: Group, r: Group) {
    |r.items| == |g.items| &&
    forall i :: 0 <= i < |g.items| ==>
      r.items[i].jobIds == g.items[i].jobIds &&
      r.items[i].status == if g.items[i].status == Sending then Unknown else g.items[i].status
  }

  lemma OutcomeByAnswer(requestId: string, a: Answer)
    ensures var o := OutcomeOf(requestId, a);
      && (o.Processing? <==> StillWorking(requestId, a))
      && (o.Settles? <==> SettlesOwn(requestId, a))
      && (o.Refuses? <==> RefusesOwn(requestId, a))
      && (o.Foreign? <==> a.Answer? && (!OwnAnswer(requestId, a) || (a.code == 202 && !StillWorking(requestId, a))))
      && (o.Processing? ==> o.delay == Clamped(a.delay))
      && (o.Settles? ==> o.code == a.code && o.body == a.body)
      && (o.Refuses? ==> o.why == RefusalText(a.body))
  {}

  /** Only "processing" leaves the receipt open; pending and unknown files are then pending again, for ten more minutes. */
  lemma OpenExactlyWhileWorking(g: Group, a: Answer, changed: set<nat>, now: int)
    ensures var r := Recover(g, a, changed, now);
      && (r.finishedAt.None? <==> StillWorking(g.requestId, a))
      && (StillWorking(g.requestId, a) ==>
            && !r.receiptError && r.expiresAt == now + 600 && r.receiptNextAt == Some(now + Clamped(a.delay))
            && |r.items| == |g.items|
            && forall i :: 0 <= i < |g.items| ==>
                 r.items[i].status == if g.items[i].status == Unknown then Sending else g.items[i].status)
  {
    OutcomeByAnswer(g.requestId, a);
    hide OutcomeOf, Settled;
  }

  /** An answer without the receipt's own id decides nothing, and the receipt is not asked for again. */
  lemma ForeignDecidesNothing(g: Group, a: Answer, changed: set<nat>, now: int)
    requires !OwnAnswer(g.requestId, a)
    ensures var r := Recover(g, a, changed, now);
      OnlyGivenUp(g, r) && r.receiptError && r.finishedAt.Some? && r.receiptNextAt == if a.Silent? then Some(now + 300) else None
  {
    OutcomeByAnswer(g.requestId, a);
  }

  /** Neither does one with another code; an interrupted request is not asked for again, an unexpected code is. */
  lemma OtherCodesDecideNothing(g: Group, a: Answer, changed: set<nat>, now: int)
    requires !StillWorking(g.requestId, a) && !SettlesOwn(g.requestId, a) && !RefusesOwn(g.requestId, a)
    ensures OnlyGivenUp(g, Recover(g, a, changed, now))
    ensures OwnAnswer(g.requestId, a) ==>
      Recover(g, a, changed, now).receiptNextAt == if a.code == 202 then None else Some(now + 300)
  {
    OutcomeByAnswer(g.requestId, a);
  }

  /** The receipt is closed by an answer if and only if that is the request's own, with one of six codes. */
  lemma ClosedExactlyByOwnAnswer(g: Group, a: Answer, changed: set<nat>, now: int)
    ensures var r := Recover(g, a, changed, now);
      !r.receiptError && r.receiptNextAt.None? <==> SettlesOwn(g.requestId, a) || RefusesOwn(g.requestId, a)
  {
    OutcomeByAnswer(g.requestId, a);
    hide OutcomeOf, Settled;
  }

  /** A 200 or 207 decides exactly the undecided files, as that reply decides files just posted. */
  lemma OwnReplySettles(g: Group, a: Answer, changed: set<nat>, now: int)
    requires SettlesOwn(g.requestId, a)
    ensures var r, open := Recover(g, a, changed, now), Reopen(MarkConflicts(g.items, changed));
      r.items == Settled(open, a.code, a.body) && r.finishedAt == Some(now)
    ensures var open := Reopen(MarkConflicts(g.items, changed));
      |open| == |g.items| && forall i :: 0 <= i < |g.items| ==>
        open[i].fullPath == g.items[i].fullPath && open[i].jobIds == g.items[i].jobIds &&
        open[i].status == if g.items[i].status == Unknown then Sending else g.items[i].status
  {
    OutcomeByAnswer(g.requestId, a);
    hide OutcomeOf, Settled;
  }

  /** A documented refusal rejects exactly the undecided files. */
  lemma OwnRefusalRejects(g: Group, a: Answer, changed: set<nat>, now: int)
    requires RefusesOwn(g.requestId, a)
    ensures var r := Recover(g, a, changed, now);
      |r.items| == |g.items| && r.finishedAt == Some(now) &&
      forall i :: 0 <= i < |g.items| ==>
        if g.items[i].status == Sending || g.items[i].status == Unknown
        then r.items[i].status == Rejected && r.items[i].error == Refused(RefusalText(a.body))
        else r.items[i].status == g.items[i].status
  {
    OutcomeByAnswer(g.requestId, a);
    hide OutcomeOf, Settled;
  }

  // ---- over runs: who decides ---------------------------------------------------------

  predicate IsOpen(w: World, r: Ref) { HasRef(w.db.groups, r) && Unresolved(At(w.db.groups, r).status) }
  predicate IsDecided(w: World, r: Ref) { HasRef(w.db.groups, r) && Decided(At(w.db.groups, r).status) }

  /** A step that may decide a line of a request that was posted: its owner's outcome, a repair, or an answer with its own id. */
  ghost predicate MayDecide(u: World, e: Event, g: nat) {
    && g < |u.db.groups|
    && (((e.Reply? || e.Refuse? || e.Undelivered? || e.Repair?) && e.group == g)
        || (e.RecoverReceipt? && e.group == g &&
            (SettlesOwn(u.db.groups[g].requestId, e.answer) || RefusesOwn(u.db.groups[g].requestId, e.answer))))
  }

  predicate StaysOpen(a: Group, b: Group) {
    |b.items| == |a.items| &&
    forall i :: 0 <= i < |a.items| && Unresolved(a.items[i].status) ==> Unresolved(b.items[i].status)
  }

  predicate OpenAt(w: World, v: World, g: nat) {
    g < |w.db.groups| <= |v.db.groups| && StaysOpen(w.db.groups[g], v.db.groups[g])
  }

  lemma SameStaysOpen(w: World, v: World, g: nat)
    requires g < |w.db.groups| <= |v.db.groups| && v.db.groups[g] == w.db.groups[g]
    ensures OpenAt(w, v, g)
  {}

  lemma ExpiryStaysOpen(w: World, v: World, g: nat)
    requires g < |w.db.groups| <= |v.db.groups| && w.db.groups[g].startedAt.Some?
    requires v.db.groups[g] == ExpireAll(w.db.groups, w.now)[g]
    ensures OpenAt(w, v, g)
  {}

  lemma TrafficStaysOpen(w: World, e: Event, g: nat)
    requires Enabled(w, e) && g < |w.db.groups| && (e.Post? || e.CrashOwner? || e.SelectReceipt?)
    ensures OpenAt(w, Apply(w, e), g)
  {
    hide EnabledCatalogue, EnabledQueue, ApplyCatalogue, ApplyQueue;
    hide AwaitsReceipt;
  }

  lemma LossStaysOpen(o: Group, e: Event, now: int)
    requires e.Lose?
    ensures StaysOpen(o, AfterAnswer(o, e, now))
  {}

  lemma LoseStaysOpen(w: World, e: Event, g: nat)
    requires Enabled(w, e) && g < |w.db.groups| && e.Lose?
    ensures OpenAt(w, Apply(w, e), g)
  {
    hide Enabled, Apply, AfterAnswer;
    AnswerApplied(w, e);
    LossStaysOpen(w.db.groups[e.group], e, w.now);
  }

  lemma RecoveryStaysOpen(w: World, e: Event, g: nat)
    requires Enabled(w, e) && g < |w.db.groups| && e.RecoverReceipt? && !MayDecide(w, e, g)
    ensures OpenAt(w, Apply(w, e), g)
  {
    hide Enabled, Apply, Recover, SettleAuto, RetryAfter, SettlesOwn, RefusesOwn, StillWorking;
    RecoverApplied(w, e);
    var o := w.db.groups[e.group];
    if StillWorking(o.requestId, e.answer) { OpenExactlyWhileWorking(o, e.answer, e.changed, w.now); }
    else if e.group == g { OtherCodesDecideNothing(o, e.answer, e.changed, w.now); }
  }

  lemma ClaimStaysOpen(w: World, e: Event, g: nat)
    requires Enabled(w, e) && g < |w.db.groups| && (e.ClaimManual? || e.ClaimByTick?) && w.db.groups[g].startedAt.Some?
    ensures OpenAt(w, Apply(w, e), g)
  {
    hide Enabled, Apply, ExpireAll;
    ClaimAddsGroup(w, e);
    ExpiryCount(w.db.groups, w.now);
    ExpiryStaysOpen(w, Apply(w, e), g);
  }

  /** No other step decides a line of a started request. */
  lemma OnlyTheseDecide(w: World, e: Event, g: nat)
    requires FlightInv(w) && Enabled(w, e) && g < |w.db.groups| && w.db.groups[g].startedAt.Some? && !MayDecide(w, e, g)
    ensures OpenAt(w, Apply(w, e), g)
  {
    hide FlightInv, Apply, Enabled, SameTraffic, StaysOpen, KeepsPosted, SameReply, SettlesOwn, RefusesOwn;
    var v := Apply(w, e);
    if !TouchesReceipts(e) { OtherStepsKeepFlight(w, e); SameTrafficFacts(w, v); SameStaysOpen(w, v, g); }
    else if e.ExpireReceipts? { ExpiryApplied(w, e); ExpiryCount(w.db.groups, w.now); ExpiryStaysOpen(w, v, g); }
    else if e.ClaimManual? || e.ClaimByTick? { ClaimStaysOpen(w, e, g); }
    else if e.Post? || e.CrashOwner? || e.SelectReceipt? { TrafficStaysOpen(w, e, g); }
    else if e.Lose? { LoseStaysOpen(w, e, g); }
    else if e.RecoverReceipt? { RecoveryStaysOpen(w, e, g); }
    else { ElsewhereStaysOpen(w, e, g); }
  }

  lemma PreflightOthers(w: World, e: Event)
    requires FlightInv(w) && Enabled(w, e) && e.Preflight?
    ensures OthersSame(w, Apply(w, e), e.group) && w.db.groups[e.group].startedAt.None?
  {
    hide EnabledCatalogue, EnabledQueue, ApplyCatalogue, ApplyQueue;
    hide FlightInv, GroupOk, Prepare;
    NotStartedYet(w, e.group);
  }

  lemma CommitOthers(w: World, e: Event)
    requires FlightInv(w) && Enabled(w, e) && (e.Abort? || e.Commit?)
    ensures OthersSame(w, Apply(w, e), e.group) && e.group < |w.db.groups| && w.db.groups[e.group].startedAt.None?
  {
    hide Enabled, Apply, FlightInv, DoAbort, DoCommit, GroupOk, WriteOff, Recheck;
    if e.Abort? { AbortApplied(w, e); } else { CommitApplied(w, e); }
    NotStartedYet(w, e.group);
    UnstartedPosted(w, e, e.group);
  }

  lemma RepairOthers(w: World, e: Event)
    requires Enabled(w, e) && e.Repair?
    ensures OthersSame(w, Apply(w, e), e.group)
  {
    hide Enabled, Apply, RepairReceipt.Repaired;
    RepairApplied(w, e);
  }

  lemma AnswerOthers(w: World, e: Event)
    requires Enabled(w, e) && (e.Reply? || e.Refuse?)
    ensures OthersSame(w, Apply(w, e), e.group)
  {
    hide Enabled, Apply, AfterAnswer;
    AnswerApplied(w, e);
  }

  /** Steps on other receipts, or before the intent. */
  lemma ElsewhereStaysOpen(w: World, e: Event, g: nat)
    requires FlightInv(w) && Enabled(w, e) && g < |w.db.groups| && w.db.groups[g].startedAt.Some? && !MayDecide(w, e, g)
    requires e.Preflight? || e.Abort? || e.Commit? || e.Reply? || e.Refuse? || e.Undelivered? || e.Repair?
    ensures OpenAt(w, Apply(w, e), g)
  {
    hide FlightInv, Apply, Enabled, StaysOpen;
    if e.Preflight? { PreflightOthers(w, e); }
    else if e.Abort? || e.Commit? { CommitOthers(w, e); }
    else if e.Repair? { RepairOthers(w, e); }
    else if e.Undelivered? { UndeliveredOthers(w, e); }
    else { AnswerOthers(w, e); }
    SameStaysOpen(w, Apply(w, e), g);
  }

  /**
   Over every run: a line of a posted request is decided only at a step of the
   submission itself, by a repair from its saved reply, or by an answer that
   carries the request's own id with one of six codes.
   */
  lemma {:induction false} DecidedBy(w: World, es: seq<Event>, r: Ref) returns (j: nat)
    requires Inv(w) && IsOpen(w, r) && w.db.groups[r.group].startedAt.Some? && IsDecided(Run(w, es), r)
    ensures j < |es| && MayDecide(Run(w, es[..j]), es[j], r.group) && IsOpen(Run(w, es[..j]), r)
  {
    hide Inv, Enabled, Apply, MayDecide, Run, Next, HasRef;
    LastStep(w, es, r);
    var last := |es| - 1;
    var u := Run(w, es[..last]);
    RunHolds(w, es[..last]);
    StartedStays(w, es[..last], r);
    if IsDecided(u, r) {
      j := DecidedBy(w, es[..last], r);
      assert es[..last][..j] == es[..j];
    } else {
      j := last;
      DecidingStep(u, es[last], r);
    }
  }

  lemma LastStep(w: World, es: seq<Event>, r: Ref)
    requires IsOpen(w, r) && IsDecided(Run(w, es), r)
    ensures es != [] && Run(w, es) == Next(Run(w, es[..|es| - 1]), es[|es| - 1])
  {}

  /** The step that decides an open line of a started request. */
  lemma DecidingStep(u: World, e: Event, r: Ref)
    requires Inv(u) && HasRef(u.db.groups, r) && !IsDecided(u, r) && u.db.groups[r.group].startedAt.Some?
    requires IsDecided(Next(u, e), r)
    ensures MayDecide(u, e, r.group) && IsOpen(u, r)
  {
    hide Inv, Enabled, Apply, MayDecide;
    InvFacts(u);
    if Enabled(u, e) && !MayDecide(u, e, r.group) { OnlyTheseDecide(u, e, r.group); }
  }
}
