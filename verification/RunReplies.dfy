/** Who writes the reply, code and error of a receipt, and when a posted file turns out never to have been sent. */
module RunReplies {
  import opened Json
  import opened EncoderHistory
  import opened EncoderTables
  import opened EncoderRuns
  import opened ReceiptSteps
  import opened FlightInvariant
  import opened QueueInvariant
  import opened QueueSteps
  import opened QueueClaims
  import opened RunSafety
  import opened RunStatuses
  import RepairReceipt

  predicate SameReply(a: Group, b: Group) {
    b.response == a.response && b.httpStatus == a.httpStatus && b.error == a.error
  }

  /** The step with which the running submission of receipt `g` records how it ended, or tries to start. */
  predicate OwnOutcome(e: Event, g: nat) {
    (e.Abort? || e.Commit? || e.Reply? || e.Refuse? || e.Lose? || e.Undelivered?) && e.group == g
  }

  /** A receipt after a step that is not its owner's: its reply stays, and nothing posted becomes "not sent". */
  predicate Keeps(a: Group, b: Group) {
    SameReply(a, b) && (a.startedAt.Some? ==> KeepsPosted(a, b))
  }

  predicate KeepsAt(w: World, v: World, g: nat) {
    g < |w.db.groups| <= |v.db.groups| && Keeps(w.db.groups[g], v.db.groups[g])
  }

  predicate PostedKept(w: World, v: World, g: nat) {
    g < |w.db.groups| <= |v.db.groups| && (w.db.groups[g].startedAt.Some? ==> KeepsPosted(w.db.groups[g], v.db.groups[g]))
  }

  /** Every receipt but `g` is as it was. */
  predicate OthersSame(w: World, v: World, g: nat) {
    |v.db.groups| == |w.db.groups| && forall h :: 0 <= h < |w.db.groups| && h != g ==> v.db.groups[h] == w.db.groups[h]
  }

  // ---- step by step ----------------------------------------------------------------

  lemma ExpiryKeeps(w: World, v: World, g: nat)
    requires FlightInv(w) && g < |w.db.groups| <= |v.db.groups|
    requires v.db.groups[g] == ExpireAll(w.db.groups, w.now)[g]
    ensures KeepsAt(w, v, g)
  {
    hide GroupOk, FlightOk;
    FlightAt(w, g);
    ExpireStep(w.db.groups[g], w.now);
  }

  lemma PreflightKeeps(w: World, e: Event, g: nat)
    requires FlightInv(w) && Enabled(w, e) && g < |w.db.groups| && e.Preflight?
    ensures KeepsAt(w, Apply(w, e), g)
  {
    hide EnabledCatalogue, EnabledQueue, ApplyCatalogue, ApplyQueue;
    hide FlightInv, GroupOk, Prepare;
    NotStartedYet(w, e.group);
  }

  lemma TrafficKeeps(w: World, e: Event, g: nat)
    requires Enabled(w, e) && g < |w.db.groups| && (e.Post? || e.CrashOwner? || e.SelectReceipt?)
    ensures KeepsAt(w, Apply(w, e), g)
  {
    hide EnabledCatalogue, EnabledQueue, ApplyCatalogue, ApplyQueue;
    hide AwaitsReceipt;
  }

  lemma RecoveryKeeps(w: World, e: Event, g: nat)
    requires FlightInv(w) && Enabled(w, e) && g < |w.db.groups| && e.RecoverReceipt?
    ensures KeepsAt(w, Apply(w, e), g)
  {
    hide Enabled, Apply, FlightInv, GroupOk, GroupEvolves, FlightOk, RecoverWith, SettleAuto, RetryAfter, OutcomeOf;
    RecoverApplied(w, e);
    var o := w.db.groups[e.group];
    FlightAt(w, e.group);
    if e.group == g {
      RecoverKeepsReply(o, e.answer, e.changed, w.now);
      if o.startedAt.Some? { RecoverStep(o, OutcomeOf(o.requestId, e.answer), e.changed, w.now); }
    }
  }

  lemma RepairApplied(w: World, e: Event)
    requires Enabled(w, e) && e.Repair?
    ensures e.group < |w.db.groups| && w.db.groups[e.group].httpStatus.Some? && Apply(w, e) == DoRepair(w, e.group)
  {
    hide EnabledCatalogue, EnabledQueue, ApplyCatalogue, ApplyQueue;
    hide DoRepair;
  }

  lemma RepairKeeps(w: World, e: Event, g: nat)
    requires FlightInv(w) && Enabled(w, e) && g < |w.db.groups| && e.Repair?
    ensures KeepsAt(w, Apply(w, e), g)
  {
    hide Enabled, Apply, FlightInv, GroupOk, GroupEvolves, FlightOk, RepairReceipt.Repaired;
    RepairApplied(w, e);
    var o := w.db.groups[e.group];
    FlightAt(w, e.group);
    if e.group == g {
      RepairedLength(o.items, o.httpStatus.value, o.response);
      if o.startedAt.Some? { RepairStep(o, o.httpStatus.value, o.response); }
    }
  }

  lemma RepairedLength(items: seq<Item>, code: int, response: Json)
    ensures |RepairReceipt.Repaired(items, code, response)| == |items|
  {}

  lemma AnswerKeepsPosted(o: Group, e: Event, now: int)
    requires GroupOk(o) && o.startedAt.Some? && (e.Reply? || e.Refuse? || e.Lose?)
    ensures KeepsPosted(o, AfterAnswer(o, e, now))
  {
    hide GroupOk, GroupEvolves, Answered, RefusedPost, LostPost, KeepsPosted;
    if e.Reply? { AnsweredStep(o, e.code, e.body, e.saved, e.changed, now); }
    else if e.Refuse? { RefusedStep(o, e.status, e.why, e.changed, now); }
    else { LostStep(o, e.http, e.retry, e.changed, now); }
  }

  lemma AnswerPosted(w: World, e: Event, g: nat)
    requires FlightInv(w) && Enabled(w, e) && g < |w.db.groups| && (e.Reply? || e.Refuse? || e.Lose?)
    ensures PostedKept(w, Apply(w, e), g) && OthersSame(w, Apply(w, e), e.group) && e.group in w.owners
  {
    hide FlightInv, GroupOk, FlightOk, Enabled, Apply, AfterAnswer;
    AnswerApplied(w, e);
    FlightAt(w, e.group);
    AnswerKeepsPosted(w.db.groups[e.group], e, w.now);
  }

  lemma UndeliveredOthers(w: World, e: Event)
    requires Enabled(w, e) && e.Undelivered?
    ensures OthersSame(w, Apply(w, e), e.group) && e.group in w.owners
  {
    hide EnabledCatalogue, EnabledQueue, ApplyCatalogue, ApplyQueue;
    hide FinishFailure;
  }

  lemma UnstartedPosted(w: World, e: Event, g: nat)
    requires FlightInv(w) && Enabled(w, e) && g < |w.db.groups| && (e.Abort? || e.Commit?)
    ensures PostedKept(w, Apply(w, e), g) && OthersSame(w, Apply(w, e), e.group) && e.group in w.owners
  {
    hide Enabled, Apply, FlightInv, DoAbort, DoCommit, GroupOk, WriteOff, Recheck;
    if e.Abort? {
      AbortApplied(w, e);
      AbortItems(w, w, e.group, w.db.groups[e.group].items, w.db.groups[e.group].snapshot);
    } else {
      CommitApplied(w, e);
      CommitItems(w, e.group, e.ok, e.sameServer, e.snapshot, e.facts);
    }
    NotStartedYet(w, e.group);
  }

  lemma ClaimKeeps(w: World, e: Event, g: nat)
    requires FlightInv(w) && Enabled(w, e) && g < |w.db.groups| && (e.ClaimManual? || e.ClaimByTick?)
    ensures KeepsAt(w, Apply(w, e), g)
  {
    hide Enabled, Apply, FlightInv, ExpireAll;
    ClaimAddsGroup(w, e);
    ExpiryCount(w.db.groups, w.now);
    ExpiryKeeps(w, Apply(w, e), g);
  }

  /**
   One step: the reply, code and error of a receipt are written only by its own
   running submission, and only "never delivered" unsends a file that was posted.
   */
  lemma ReplyStep(w: World, e: Event, g: nat)
    requires FlightInv(w) && Enabled(w, e) && g < |w.db.groups|
    ensures g < |Apply(w, e).db.groups|
    ensures OwnOutcome(e, g) || SameReply(w.db.groups[g], Apply(w, e).db.groups[g])
    ensures OwnOutcome(e, g) ==> g in w.owners
    ensures e == Undelivered(g) || PostedKept(w, Apply(w, e), g)
  {
    hide FlightInv, Apply, Enabled, SameTraffic, KeepsPosted, SameReply;
    var v := Apply(w, e);
    if !TouchesReceipts(e) { OtherStepsKeepFlight(w, e); SameTrafficFacts(w, v); KeptSelf(w, v, g); }
    else if e.ExpireReceipts? { ExpiryApplied(w, e); ExpiryCount(w.db.groups, w.now); ExpiryKeeps(w, v, g); }
    else if e.ClaimManual? || e.ClaimByTick? { ClaimKeeps(w, e, g); }
    else if e.Preflight? { PreflightKeeps(w, e, g); }
    else if e.RecoverReceipt? { RecoveryKeeps(w, e, g); }
    else if e.Repair? { RepairKeeps(w, e, g); }
    else if e.Post? || e.CrashOwner? || e.SelectReceipt? { TrafficKeeps(w, e, g); }
    else {
      if e.Abort? || e.Commit? { UnstartedPosted(w, e, g); }
      else if e.Undelivered? { UndeliveredOthers(w, e); }
      else { AnswerPosted(w, e, g); }
      if e.group != g { KeptSelf(w, v, g); }
    }
  }

  lemma KeptSelf(w: World, v: World, g: nat)
    requires g < |w.db.groups| <= |v.db.groups| && v.db.groups[g] == w.db.groups[g]
    ensures KeepsAt(w, v, g)
  {}

  // ---- owners never come back ----------------------------------------------------------

  lemma ClaimOwners(w: World, e: Event)
    requires Enabled(w, e) && (e.ClaimManual? || e.ClaimByTick?)
    ensures forall g :: g in Apply(w, e).owners && g != |w.db.groups| ==> g in w.owners
  {
    hide EnabledCatalogue, EnabledRequest, ApplyCatalogue, ApplyRequest;
    hide AddGroup, FreshRequest, ClaimChecks;
  }

  lemma CommitOwners(w: World, e: Event)
    requires Enabled(w, e) && e.Commit?
    ensures forall g :: g in Apply(w, e).owners ==> g in w.owners
  {
    hide Enabled, Apply, DoCommit, Validate, FactsFit, Recheck, DoAbort;
    CommitApplied(w, e);
    CommitShape(w, e.group, e.ok, e.sameServer, e.snapshot, e.facts);
    var r := w.db.groups[e.group];
    if !QueueFrame(w, Apply(w, e)) {
      var b := Validate(w.db, r.origin.item, w.owners[e.group].token.value, e.snapshot, e.facts, w.now).auto;
      AbortShape(w.(db := w.db.(autos := w.db.autos[r.origin.item := b])), e.group, Recheck(r.items, e.ok), e.snapshot);
    }
  }

  lemma RecoveryOwners(w: World, e: Event)
    requires Enabled(w, e) && e.RecoverReceipt?
    ensures Apply(w, e).owners == w.owners
  {
    hide Enabled, Apply, SettleItem, Recover;
    RecoverApplied(w, e);
  }

  /** A submission gets its owner with its receipt; once the owner is gone there is none again. */
  lemma OwnersNeverReturn(w: World, e: Event, g: nat)
    requires FlightInv(w) && Enabled(w, e) && g < |w.db.groups| && g in Apply(w, e).owners
    ensures g in w.owners
  {
    hide FlightInv, Apply, Enabled, QueueFrame;
    if !TouchesReceipts(e) { OtherStepsKeepFlight(w, e); }
    else if e.ClaimManual? || e.ClaimByTick? { ClaimOwners(w, e); }
    else if e.Commit? { CommitOwners(w, e); }
    else if e.RecoverReceipt? { RecoveryOwners(w, e); }
    else { ReceiptsOnlyFrame(w, e); FrameOwners(w, Apply(w, e), g); }
  }

  lemma FrameOwners(w: World, v: World, g: nat)
    requires QueueFrame(w, v) && g in v.owners
    ensures g in w.owners
  {}

  // ---- over whole runs: the reply ------------------------------------------------------

  lemma SameReplyChain(a: Group, b: Group, c: Group)
    requires SameReply(a, b) && SameReply(b, c)
    ensures SameReply(a, c)
  {}

  /** Over every run, reply, code and error of a receipt change only by the outcome steps of its own submission. */
  lemma {:induction false} ReplyOnlyFromOwner(w: World, es: seq<Event>, g: nat)
    requires Inv(w) && g < |w.db.groups| && forall e :: e in es ==> !OwnOutcome(e, g)
    ensures g < |Run(w, es).db.groups| && SameReply(w.db.groups[g], Run(w, es).db.groups[g])
  {
    hide Inv, Enabled, Apply;
    if es != [] {
      var before, last := es[..|es| - 1], es[|es| - 1];
      var u := Run(w, before);
      assert last in es;
      ReplyOnlyFromOwner(w, before, g);
      RunHolds(w, before);
      InvFacts(u);
      if Enabled(u, last) {
        ReplyStep(u, last, g);
        SameReplyChain(w.db.groups[g], u.db.groups[g], Apply(u, last).db.groups[g]);
      }
    }
  }

  /**
   Once a submission is no longer running, nothing rewrites its reply, code and
   error: no later recovery, repair, expiry or other submission, over any run.
   */
  lemma {:induction false} ReplyIsFinal(w: World, es: seq<Event>, g: nat)
    requires Inv(w) && g < |w.db.groups| && g !in w.owners
    ensures g < |Run(w, es).db.groups| && SameReply(w.db.groups[g], Run(w, es).db.groups[g]) && g !in Run(w, es).owners
  {
    hide Inv, Enabled, Apply;
    if es != [] {
      var before, last := es[..|es| - 1], es[|es| - 1];
      var u := Run(w, before);
      ReplyIsFinal(w, before, g);
      RunHolds(w, before);
      InvFacts(u);
      if Enabled(u, last) {
        ReplyStep(u, last, g);
        SameReplyChain(w.db.groups[g], u.db.groups[g], Apply(u, last).db.groups[g]);
        if g in Apply(u, last).owners { OwnersNeverReturn(u, last, g); }
      }
    }
  }
}
