/** When a file written off as unknown turns out never to have been sent. */
module RunUnsent {
  import opened Json
  import opened EncoderHistory
  import opened EncoderTables
  import opened EncoderRuns
  import opened ReceiptSteps
  import opened FlightInvariant
  import opened QueueInvariant
  import opened QueueSteps
  import opened QueueClaims
  import opened RunSafety
  import opened RunStatuses
  import opened RunReplies
  import RepairReceipt
  import SettleLemmas

  /** The encoder says that it is still processing request `g`, and the submission that sent it is still running. */
  ghost predicate Reopens(u: World, e: Event, g: nat) {
    && Enabled(u, e) && e.RecoverReceipt? && e.group == g && g < |u.db.groups| && g in u.owners
    && OutcomeOf(u.db.groups[g].requestId, e.answer).Processing?
  }

  /** The submission records that its request was not delivered while the line is pending. */
  ghost predicate Unsends(u: World, e: Event, r: Ref) {
    && Enabled(u, e) && e == Undelivered(r.group) && HasRef(u.db.groups, r) && At(u.db.groups, r).status == Sending
  }

  predicate IsUnknown(w: World, r: Ref) { HasRef(w.db.groups, r) && At(w.db.groups, r).status == Unknown }
  predicate IsPending(w: World, r: Ref) { HasRef(w.db.groups, r) && At(w.db.groups, r).status == Sending }
  predicate IsUnsent(w: World, r: Ref) { HasRef(w.db.groups, r) && At(w.db.groups, r).status == NotSent }

  // ---- one step ---------------------------------------------------------------------

  lemma LineStays(w: World, v: World, r: Ref)
    requires Evolved(w.db.groups, v.db.groups) && HasRef(w.db.groups, r)
    ensures HasRef(v.db.groups, r) && StatusFollows(At(w.db.groups, r).status, At(v.db.groups, r).status)
  {
    hide GroupEvolves;
    assert GroupEvolves(w.db.groups[r.group], v.db.groups[r.group]);
    LineOfGroup(w.db.groups[r.group], v.db.groups[r.group], r.index);
  }

  lemma LineOfGroup(a: Group, b: Group, i: nat)
    requires GroupEvolves(a, b) && i < |a.items|
    ensures i < |b.items| && StatusFollows(a.items[i].status, b.items[i].status)
  {
    assert ItemEvolves(a.items[i], b.items[i]);
  }

  /** A line of a started request becomes "not sent" in one step exactly if its submission says so while it is pending. */
  lemma OnlyUndeliveredUnsends(w: World, e: Event, r: Ref)
    requires Inv(w) && Enabled(w, e) && HasRef(w.db.groups, r)
    requires w.db.groups[r.group].startedAt.Some? && At(w.db.groups, r).status != NotSent
    ensures HasRef(Apply(w, e).db.groups, r)
    ensures At(Apply(w, e).db.groups, r).status == NotSent <==> Unsends(w, e, r)
  {
    InvFacts(w);
    hide Inv, FlightInv, QueueInv, Enabled, Apply, Evolved, HasRef, SameReply;
    FlightNext(w, e);
    LineStays(w, Apply(w, e), r);
    RefParts(w.db.groups, r);
    RefParts(Apply(w, e).db.groups, r);
    ReplyStep(w, e, r.group);
    if e == Undelivered(r.group) { UndeliveredUnsends(w, r); }
  }

  lemma RefParts(groups: seq<Group>, r: Ref)
    requires HasRef(groups, r)
    ensures r.group < |groups| && r.index < |groups[r.group].items|
  {}

  lemma UndeliveredUnsends(w: World, r: Ref)
    requires Enabled(w, Undelivered(r.group)) && HasRef(w.db.groups, r)
    ensures var v := Apply(w, Undelivered(r.group));
      HasRef(v.db.groups, r) &&
      At(v.db.groups, r).status == if At(w.db.groups, r).status == Sending then NotSent else At(w.db.groups, r).status
  {
    hide EnabledCatalogue, EnabledQueue, ApplyCatalogue, ApplyQueue;
  }

  /** An unknown line is pending again only after the encoder said that it is still processing the request. */
  lemma OnlyProcessingReopens(w: World, e: Event, r: Ref)
    requires Inv(w) && Enabled(w, e) && IsUnknown(w, r) && IsPending(Apply(w, e), r)
    ensures e.RecoverReceipt? && e.group == r.group && OutcomeOf(w.db.groups[r.group].requestId, e.answer).Processing?
  {
    InvFacts(w);
    hide Inv, FlightInv, QueueInv, Enabled, Apply, RefusesNone, StartsNone;
    StatusStep(w, e, r.group);
    if e.Repair? && e.group == r.group { RepairNeverReopens(w, e, r); }
    if e.RecoverReceipt? && e.group == r.group { RecoveryReopens(w, e, r); }
  }

  lemma RepairNeverReopens(w: World, e: Event, r: Ref)
    requires Enabled(w, e) && e.Repair? && e.group == r.group && IsUnknown(w, r)
    ensures !IsPending(Apply(w, e), r)
  {
    hide Enabled, Apply, RepairReceipt.Repaired;
    RepairApplied(w, e);
    var o := w.db.groups[r.group];
    RepairReceipt.RepairOnlyAccepts(o.items, o.httpStatus.value, o.response, r.index);
  }

  lemma RecoveryReopens(w: World, e: Event, r: Ref)
    requires Enabled(w, e) && e.RecoverReceipt? && e.group == r.group && IsUnknown(w, r) && IsPending(Apply(w, e), r)
    ensures OutcomeOf(w.db.groups[r.group].requestId, e.answer).Processing?
  {
    hide Enabled, Apply, RecoverWith, OutcomeOf, SettleAuto, RetryAfter;
    RecoverApplied(w, e);
    var o := w.db.groups[r.group];
    var outcome := OutcomeOf(o.requestId, e.answer);
    if !outcome.Processing? { UnreadStaysUnknown(o, outcome, e.changed, w.now, r.index); }
  }

  lemma UnreadStaysUnknown(g: Group, o: Outcome, changed: set<nat>, now: int, i: nat)
    requires i < |g.items| && g.items[i].status == Unknown && !o.Processing?
    ensures var r := RecoverWith(g, o, changed, now); i < |r.items| && r.items[i].status != Sending
  {
    hide Settled;
    if o.Settles? { SettledNothingPending(Reopen(MarkConflicts(g.items, changed)), o.code, o.body); }
  }

  lemma SettledNothingPending(items: seq<Item>, code: int, body: Json)
    ensures |Settled(items, code, body)| == |items| && NoneSending(Settled(items, code, body))
  {
    SettleLemmas.OnlySendingFilesSettle(items, code, body);
  }

  // ---- whole runs -------------------------------------------------------------------

  lemma {:induction false} StartedStays(w: World, es: seq<Event>, r: Ref)
    requires Inv(w) && HasRef(w.db.groups, r)
    ensures var v := Run(w, es); HasRef(v.db.groups, r)
    ensures w.db.groups[r.group].startedAt.Some? ==> Run(w, es).db.groups[r.group].startedAt.Some?
    ensures IsUnsent(w, r) ==> IsUnsent(Run(w, es), r)
  {
    DecisionsAreFinal(w, es);
    hide Run;
    assert Outlives(w.db.groups[r.group], Run(w, es).db.groups[r.group]);
  }

  lemma UnknownWasStarted(w: World, r: Ref)
    requires Inv(w) && IsUnknown(w, r)
    ensures w.db.groups[r.group].startedAt.Some?
  {
    assert GroupOk(w.db.groups[r.group]);
  }

  /** The step of a run at which a line that was not "not sent" became so. */
  lemma {:induction false} UnsentBy(w: World, es: seq<Event>, r: Ref) returns (j: nat)
    requires Inv(w) && HasRef(w.db.groups, r) && w.db.groups[r.group].startedAt.Some?
    requires !IsUnsent(w, r) && IsUnsent(Run(w, es), r)
    ensures j < |es| && Unsends(Run(w, es[..j]), es[j], r)
  {
    hide Inv, Enabled, Apply, Unsends, HasRef;
    var last := |es| - 1;
    var u := Run(w, es[..last]);
    RunHolds(w, es[..last]);
    StartedStays(w, es[..last], r);
    if IsUnsent(u, r) {
      j := UnsentBy(w, es[..last], r);
      assert es[..last][..j] == es[..j];
    } else {
      j := last;
      OnlyUndeliveredUnsends(u, es[last], r);
    }
  }

  /** The step of a run at which an unknown line became pending again. */
  lemma {:induction false} ReopenedBy(w: World, es: seq<Event>, r: Ref) returns (i: nat)
    requires Inv(w) && IsUnknown(w, r) && IsPending(Run(w, es), r) && r.group in Run(w, es).owners
    ensures i < |es| && Reopens(Run(w, es[..i]), es[i], r.group)
  {
    hide Inv, Enabled, Apply, HasRef, OutcomeOf;
    var last := |es| - 1;
    var u := Run(w, es[..last]);
    RunHolds(w, es[..last]);
    UnknownHere(w, r);
    StartedStays(w, es[..last], r);
    OwnedBefore(u, es[last], r);
    if IsPending(u, r) {
      i := ReopenedBy(w, es[..last], r);
      assert es[..last][..i] == es[..i];
    } else {
      i := last;
      PendingFromUnknown(u, es[last], r);
      OnlyProcessingReopens(u, es[last], r);
    }
  }

  lemma UnknownHere(w: World, r: Ref)
    requires IsUnknown(w, r)
    ensures HasRef(w.db.groups, r) && r.group < |w.db.groups|
  {}

  lemma OwnedBefore(u: World, e: Event, r: Ref)
    requires Inv(u) && HasRef(u.db.groups, r) && r.group in Next(u, e).owners
    ensures r.group in u.owners && r.group < |u.db.groups|
  {
    InvFacts(u);
    hide Inv, FlightInv, QueueInv, Enabled, Apply;
    if Enabled(u, e) { OwnersNeverReturn(u, e, r.group); }
  }

  /** A line that is pending after a step but was not before it was unknown, for it follows the order of statuses. */
  lemma PendingFromUnknown(u: World, e: Event, r: Ref)
    requires Inv(u) && HasRef(u.db.groups, r) && !IsPending(u, r) && IsPending(Next(u, e), r)
    ensures Enabled(u, e) && IsUnknown(u, r)
  {
    hide Inv, Enabled, Apply, Evolved;
    StepHolds(u, e);
    LineStays(u, Next(u, e), r);
  }

  /**
   Over every run, an unknown line ends "not sent" if and only if the encoder
   says "processing" while its submission is still running, and the submission
   later records that the request was not delivered, with the line pending.
   */
  lemma UnknownBecomesUnsent(w: World, es: seq<Event>, r: Ref)
    requires Inv(w) && IsUnknown(w, r)
    ensures IsUnsent(Run(w, es), r) <==>
      exists i: nat, j: nat ::
        i < j < |es| && Reopens(Run(w, es[..i]), es[i], r.group) && Unsends(Run(w, es[..j]), es[j], r)
  {
    hide Inv, Reopens, Unsends, Enabled, Apply, Run;
    UnknownHere(w, r);
    UnknownWasStarted(w, r);
    if IsUnsent(Run(w, es), r) {
      var j := UnsentBy(w, es, r);
      UnsendsFacts(Run(w, es[..j]), es[j], r);
      var i := ReopenedBy(w, es[..j], r);
      assert es[..j][..i] == es[..i];
    }
    if i: nat, j: nat :| i < j < |es| && Reopens(Run(w, es[..i]), es[i], r.group) && Unsends(Run(w, es[..j]), es[j], r) {
      UnsentForGood(w, es, r, j);
    }
  }

  lemma UnsendsFacts(u: World, e: Event, r: Ref)
    requires Unsends(u, e, r)
    ensures IsPending(u, r) && r.group in u.owners && u.owners[r.group].phase == Posted(false)
  {
    hide EnabledCatalogue, EnabledQueue;
  }

  lemma RunSplit(w: World, a: seq<Event>, b: seq<Event>)
    ensures Run(w, a + b) == Run(Run(w, a), b)
  {
    hide Next;
    if b == [] { assert a + b == a; }
    else {
      RunSplit(w, a, b[..|b| - 1]);
      assert (a + b)[..|a + b| - 1] == a + b[..|b| - 1];
    }
  }

  lemma UnsentForGood(w: World, es: seq<Event>, r: Ref, j: nat)
    requires Inv(w) && j < |es| && Unsends(Run(w, es[..j]), es[j], r)
    ensures IsUnsent(Run(w, es), r)
  {
    hide Inv, Enabled, Apply;
    var u := Run(w, es[..j]);
    RunHolds(w, es[..j]);
    RunHolds(w, es[..j + 1]);
    assert es[..j + 1][..j] == es[..j];
    UndeliveredUnsends(u, r);
    RunSplit(w, es[..j + 1], es[j + 1..]);
    assert es[..j + 1] + es[j + 1..] == es;
    StartedStays(Run(w, es[..j + 1]), es[j + 1..], r);
  }

  // ---- an encoder that confirms only what it received ----------------------------------

  /** The answer says something about the request: that it is in progress, settled or refused. */
  predicate Confirms(o: Outcome) { o.Processing? || o.Settles? || o.Refuses? }

  /** An answer that confirms a request is about one that was delivered. */
  ghost predicate Informed(u: World, e: Event) {
    Enabled(u, e) && e.RecoverReceipt? && e.group < |u.db.groups| && Confirms(OutcomeOf(u.db.groups[e.group].requestId, e.answer))
    ==> e.group in u.received
  }

  ghost predicate InformedRun(w: World, es: seq<Event>) {
    es == [] || (InformedRun(w, es[..|es| - 1]) && Informed(Run(w, es[..|es| - 1]), es[|es| - 1]))
  }

  lemma {:induction false} InformedAt(w: World, es: seq<Event>, i: nat)
    requires InformedRun(w, es) && i < |es|
    ensures Informed(Run(w, es[..i]), es[i])
  {
    hide Run, Informed;
    if i < |es| - 1 {
      assert es[..|es| - 1][..i] == es[..i];
      InformedAt(w, es[..|es| - 1], i);
    }
  }

  lemma ClaimsReceiveNone(w: World, e: Event)
    requires Enabled(w, e) && (e.ClaimManual? || e.ClaimByTick?)
    ensures Apply(w, e).received == w.received
  {
    hide EnabledCatalogue, EnabledRequest, ApplyCatalogue, ApplyRequest;
    hide AddGroup, FreshRequest, ClaimChecks;
  }

  lemma CommitReceivesNone(w: World, e: Event)
    requires Enabled(w, e) && e.Commit?
    ensures w.received <= Apply(w, e).received
  {
    hide Enabled, Apply, DoCommit, Validate, FactsFit, Recheck, DoAbort;
    CommitApplied(w, e);
    CommitShape(w, e.group, e.ok, e.sameServer, e.snapshot, e.facts);
    var r := w.db.groups[e.group];
    if !QueueFrame(w, Apply(w, e)) {
      var b := Validate(w.db, r.origin.item, w.owners[e.group].token.value, e.snapshot, e.facts, w.now).auto;
      AbortShape(w.(db := w.db.(autos := w.db.autos[r.origin.item := b])), e.group, Recheck(r.items, e.ok), e.snapshot);
    }
  }

  lemma RecoveryReceivesNone(w: World, e: Event)
    requires Enabled(w, e) && e.RecoverReceipt?
    ensures Apply(w, e).received == w.received
  {
    hide Enabled, Apply, SettleItem, Recover;
    RecoverApplied(w, e);
  }

  lemma ReceivedGrows(w: World, e: Event)
    requires FlightInv(w) && Enabled(w, e)
    ensures w.received <= Apply(w, e).received
  {
    hide FlightInv, Apply, Enabled, QueueFrame;
    if !TouchesReceipts(e) { OtherStepsKeepFlight(w, e); }
    else if e.ClaimManual? || e.ClaimByTick? { ClaimsReceiveNone(w, e); }
    else if e.Commit? { CommitReceivesNone(w, e); }
    else if e.RecoverReceipt? { RecoveryReceivesNone(w, e); }
    else { ReceiptsOnlyFrame(w, e); FrameReceived(w, Apply(w, e)); }
  }

  lemma FrameReceived(w: World, v: World)
    requires QueueFrame(w, v)
    ensures w.received <= v.received
  {}

  lemma {:induction false} ReceivedStays(w: World, es: seq<Event>)
    requires Inv(w)
    ensures w.received <= Run(w, es).received
  {
    hide Inv, Enabled, Apply;
    if es != [] {
      var u := Run(w, es[..|es| - 1]);
      ReceivedStays(w, es[..|es| - 1]);
      RunHolds(w, es[..|es| - 1]);
      InvFacts(u);
      if Enabled(u, es[|es| - 1]) { ReceivedGrows(u, es[|es| - 1]); }
    }
  }

  lemma PostedFalseNotReceived(u: World, g: nat)
    requires Inv(u) && g < |u.db.groups| && g in u.owners && u.owners[g].phase == Posted(false)
    ensures g !in u.received
  {
    InvFacts(u);
    hide Inv, FlightInv, QueueInv, GroupOk, FlightOk;
    FlightAt(u, g);
  }

  lemma ReopenedGroup(u: World, e: Event, g: nat)
    requires Reopens(u, e, g) && Informed(u, e)
    ensures g in u.received
  {
    hide Enabled, OutcomeOf;
  }

  /**
   With an encoder that confirms only requests that were delivered, an unknown
   line never ends "not sent": then the order of statuses holds over whole runs.
   */
  lemma InformedNeverUnsends(w: World, es: seq<Event>, r: Ref)
    requires Inv(w) && IsUnknown(w, r) && InformedRun(w, es)
    ensures !IsUnsent(Run(w, es), r)
  {
    hide Inv, Reopens, Unsends, Enabled, Apply, Run, Informed, InformedRun;
    UnknownBecomesUnsent(w, es, r);
    if IsUnsent(Run(w, es), r) {
      var i: nat, j: nat :| i < j < |es| && Reopens(Run(w, es[..i]), es[i], r.group) && Unsends(Run(w, es[..j]), es[j], r);
      var u, v := Run(w, es[..i]), Run(w, es[..j]);
      InformedAt(w, es, i);
      ReopenedGroup(u, es[i], r.group);
      RunHolds(w, es[..i]);
      RunHolds(w, es[..j]);
      RunSplit(w, es[..i], es[i..j]);
      assert es[..i] + es[i..j] == es[..j];
      ReceivedStays(u, es[i..j]);
      UnsendsFacts(v, es[j], r);
      UnknownHere(w, r);
      PostedFalseNotReceived(v, r.group);
    }
  }
}
