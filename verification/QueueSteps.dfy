/** Every step keeps the queue invariant. */
module QueueSteps {
  import opened Json
  import opened EncoderHistory
  import opened EncoderTables
  import opened EncoderRuns
  import opened RowLaws
  import opened ReceiptSteps
  import opened FlightInvariant
  import opened QueueInvariant
  import RepairReceipt

  // ---- assessment ---------------------------------------------------------------

  lemma AssessShape(db: Db, a: Auto, f: Facts)
    ensures var r := Assess(db, a, f);
      && r.auto == a.(fileId := r.auto.fileId, receipt := r.auto.receipt)
      && (r.auto.fileId == a.fileId || f.file == Some(r.auto.fileId))
      && r.state != Claimed && r.reason != AtPresetChanged && (r.reason == AtPreset ==> r.state == Waiting)
      && (r.auto.receipt != a.receipt ==> r.auto.receipt.Some? && HasRef(db.groups, r.auto.receipt.value))
      && (r.state == Waiting || r.state == Ready || r.state == Cancelled ==> r.auto.receipt == a.receipt)
      && (r.state == Ready ==> MayRun(db, a) && r.reason == AtReady)
      && (r.state == Done ==> r.auto.receipt.Some? && HasRef(db.groups, r.auto.receipt.value) &&
                              At(db.groups, r.auto.receipt.value).status == Accepted)
      && r.reason != AtRejected
  {
    hide Previous, Duplicate, MayRun, HasRef;
    if MayRun(db, a) {
      var own := if a.state == Claimed && a.receipt.Some? then Some(a.receipt.value.group) else None;
      PreviousExists(db.groups, a.id, f.content, own);
    }
  }

  lemma PreviousExists(groups: seq<Group>, id: Identity, content: Option<Content>, own: Option<nat>)
    ensures var r := Previous(groups, |groups|, id, content, own); r.Some? ==> HasRef(groups, r.value)
  {}

  /** The part of a row's consistency that assessment relies on. */
  ghost predicate RowOk(db: Db, a: Auto) {
    && a.fileId in db.files && db.files[a.fileId] == a.id
    && (a.receipt.Some? ==> HasRef(db.groups, a.receipt.value))
    && (a.lease.Some? ==> a.id.release in db.policies && a.revision <= db.policies[a.id.release].revision)
  }

  /** A row moved to where its assessment sends it, with its old line resolved. */
  lemma AssessedAutoOk(db: Db, next: Db, a: Auto, f: Facts, b: Auto)
    requires RowOk(db, a) && (f.file.Some? ==> f.file.value in db.files && db.files[f.file.value] == a.id)
    requires Evolved(db.groups, next.groups) && next.files == db.files && next.policies == db.policies
    requires TargetUnsent(next.groups, a)
    requires var r := Assess(db, a, f);
      b == r.auto.(state := b.state, reason := b.reason, lease := b.lease, nextAttemptAt := b.nextAttemptAt) &&
      (b.state == r.state || (r.state == Ready && b.state in {Waiting, NeedsAttention})) &&
      (r.state == Ready || b.reason == r.reason) && b.reason != AtRejected
    requires b.lease == a.lease || b.lease.None?
    requires b.state != Claimed && (b.state == Ready ==> b.lease.None?)
    requires AwaitingPreset(b) ==> b.state == Waiting || (b.state == NeedsAttention && Assess(db, a, f).state == Ready)
    ensures AutoOk(next, b)
  {
    hide Assess, Evolved;
    AssessShape(db, a, f);
    if b.receipt.Some? { RefsStay(db.groups, next.groups, b.receipt.value); }
  }

  // ---- steps on receipts only -----------------------------------------------------

  ghost predicate ReceiptsOnly(e: Event) {
    e.ExpireReceipts? || e.Preflight? || e.Abort? || e.Post? || e.Reply? || e.Refuse? || e.Lose? || e.Undelivered? ||
    e.CrashOwner? || e.SelectReceipt? || e.Repair?
  }

  /** Nothing but receipts, owners and the encoder changed. */
  ghost predicate QueueFrame(w: World, v: World) {
    && v.db == w.db.(groups := v.db.groups) && |v.db.groups| == |w.db.groups|
    && v.issued == w.issued && v.senders == w.senders && v.now == w.now && v.baselines == w.baselines && OwnersFollow(w.owners, v.owners)
    && w.received <= v.received
  }

  lemma AnsweredFrame(w: World, e: Event)
    requires Enabled(w, e) && (e.Reply? || e.Refuse?)
    ensures QueueFrame(w, Apply(w, e)) && (e.Post? || Apply(w, e).created == w.created)
    ensures e.SelectReceipt? || Apply(w, e).recoveries == w.recoveries
  {
    hide EnabledCatalogue, EnabledQueue, ApplyCatalogue, ApplyQueue;
    hide Answered, RefusedPost;
  }

  lemma RepairFrame(w: World, e: Event)
    requires Enabled(w, e) && (e.Repair?)
    ensures QueueFrame(w, Apply(w, e)) && (e.Post? || Apply(w, e).created == w.created)
    ensures e.SelectReceipt? || Apply(w, e).recoveries == w.recoveries
  {
    hide EnabledCatalogue, EnabledQueue, ApplyCatalogue, ApplyQueue;
    hide RepairReceipt.Repaired;
  }

  lemma LostFrame(w: World, e: Event)
    requires Enabled(w, e) && (e.Lose? || e.Undelivered?)
    ensures QueueFrame(w, Apply(w, e)) && (e.Post? || Apply(w, e).created == w.created)
    ensures e.SelectReceipt? || Apply(w, e).recoveries == w.recoveries
  {
    hide EnabledCatalogue, EnabledQueue, ApplyCatalogue, ApplyQueue;
    hide FinishFailure, LostPost;
  }

  lemma PreparedFrame(w: World, e: Event)
    requires Enabled(w, e) && (e.Preflight? || e.Abort?)
    ensures QueueFrame(w, Apply(w, e)) && (e.Post? || Apply(w, e).created == w.created)
    ensures e.SelectReceipt? || Apply(w, e).recoveries == w.recoveries
  {
    hide EnabledCatalogue, EnabledQueue, ApplyCatalogue, ApplyQueue;
    hide Prepare, FinishFailure;
  }

  lemma PostedFrame(w: World, e: Event)
    requires Enabled(w, e) && (e.Post? || e.CrashOwner?)
    ensures QueueFrame(w, Apply(w, e)) && (e.Post? || Apply(w, e).created == w.created)
    ensures Apply(w, e).recoveries == w.recoveries
  {
    hide EnabledCatalogue, EnabledQueue, ApplyCatalogue, ApplyQueue;
  }

  lemma SelectFrame(w: World, e: Event)
    requires Enabled(w, e) && e.SelectReceipt?
    ensures QueueFrame(w, Apply(w, e)) && Apply(w, e).created == w.created
  {
    hide Enabled, Apply, AwaitsReceipt;
    SelectApplied(w, e);
  }

  lemma ExpiryFrame(w: World, e: Event)
    requires Enabled(w, e) && e.ExpireReceipts?
    ensures QueueFrame(w, Apply(w, e)) && (e.Post? || Apply(w, e).created == w.created)
    ensures e.SelectReceipt? || Apply(w, e).recoveries == w.recoveries
  {
    hide EnabledQueue, EnabledRequest, ApplyQueue, ApplyRequest;
    hide Expire;
  }

  lemma ReceiptsOnlyFrame(w: World, e: Event)
    requires Enabled(w, e) && ReceiptsOnly(e)
    ensures QueueFrame(w, Apply(w, e)) && (e.Post? || Apply(w, e).created == w.created)
    ensures e.SelectReceipt? || Apply(w, e).recoveries == w.recoveries
  {
    hide Enabled, Apply, QueueFrame;
    if e.ExpireReceipts? { ExpiryFrame(w, e); }
    else if e.Preflight? || e.Abort? { PreparedFrame(w, e); }
    else if e.Post? || e.CrashOwner? { PostedFrame(w, e); }
    else if e.SelectReceipt? { SelectFrame(w, e); }
    else if e.Lose? || e.Undelivered? { LostFrame(w, e); }
    else if e.Repair? { RepairFrame(w, e); }
    else { AnsweredFrame(w, e); }
  }

  lemma QueueFrameKeeps(w: World, v: World)
    requires QueueInv(w) && QueueFrame(w, v) && Evolved(w.db.groups, v.db.groups)
    ensures QueueInv(v)
  {
    hide AutoOk, SenderOk, SubmissionOk, ReceiptOk, Evolved;
    forall k | 0 <= k < |v.db.autos|
      ensures AutoOk(v.db, v.db.autos[k])
    {
      AutoStaysOk(w.db, v.db, w.db.autos[k]);
    }
    Steady(w, v);
  }

  // ---- catalogue and policies -------------------------------------------------------

  lemma StoppedAutoOk(db: Db, a: Auto)
    requires AutoOk(db, a)
    ensures AutoOk(db, Transition(a, Cancelled, AtUntracked))
  {}

  lemma WokenAutoOk(db: Db, a: Auto, release: int, now: int)
    requires AutoOk(db, a) && AwaitsPreset(a, release)
    ensures AutoOk(db, Transition(a, Waiting, AtSettings).(nextAttemptAt := now))
  {}

  lemma SaveKeepsQueue(w: World, e: Event)
    requires QueueInv(w) && Enabled(w, e) && e.SavePresets?
    ensures QueueInv(Apply(w, e))
  {
    hide EnabledQueue, EnabledRequest, ApplyQueue, ApplyRequest;
    hide AutoOk, SenderOk, SubmissionOk, ReceiptOk, Evolved, AwaitsPreset, PolicyFor;
    var v := Apply(w, e);
    assert v.db.autos == Wake(w.db.autos, e.release, w.now);
    PolicyForFacts(w.db, e.release);
    SelfEvolved(w.db.groups);
    var mid := v.db.(autos := w.db.autos);
    forall k | 0 <= k < |v.db.autos|
      ensures AutoOk(v.db, v.db.autos[k]) && AutoSteady(w.db.autos[k], v.db.autos[k])
    {
      AutoStaysOk(w.db, v.db, w.db.autos[k]);
      if AwaitsPreset(w.db.autos[k], e.release) {
        WokenAutoOk(v.db, w.db.autos[k], e.release, w.now);
        WokenSteady(w.db.autos[k], e.release, w.now);
      }
    }
    Steady(w, v);
  }

  lemma WokenSteady(a: Auto, release: int, now: int)
    requires AwaitsPreset(a, release)
    ensures AutoSteady(a, Transition(a, Waiting, AtSettings).(nextAttemptAt := now))
  {}

  lemma PolicyForFacts(db: Db, release: int)
    ensures release in db.policies ==> PolicyFor(db, release) == db.policies[release]
  {}

  lemma SelfEvolved(gs: seq<Group>)
    ensures Evolved(gs, gs)
  {
    hide GroupEvolves;
    forall g | 0 <= g < |gs| ensures GroupEvolves(gs[g], gs[g]) { SameEvolves(gs[g]); }
  }

  /** Tracking, observing and registering: rows are stopped or added, never claimed or moved. */
  lemma TrackingFacts(db: Db, release: int, on: bool)
    ensures var next := TrackingChanged(db, release, on);
      && next.groups == db.groups && next.files == db.files && PoliciesFollow(db.policies, next.policies)
      && |next.autos| == |db.autos|
      && forall k :: 0 <= k < |db.autos| ==>
           next.autos[k] == db.autos[k] ||
           (next.autos[k] == Transition(db.autos[k], Cancelled, AtUntracked) && !on)
  {
    hide Stopped, Baseline;
  }

  lemma TrackKeepsQueue(w: World, db: Db, v: World, release: int, on: bool)
    requires QueueInv(w)
    requires db.groups == w.db.groups && db.autos == w.db.autos && db.policies == w.db.policies && db.files == w.db.files
    requires v.db.autos == TrackingChanged(db, release, on).autos && v.db.policies == TrackingChanged(db, release, on).policies
    requires v.db.groups == w.db.groups && v.db.files == w.db.files
    requires v.issued == w.issued && v.owners == w.owners && v.senders == w.senders && v.now == w.now
    ensures QueueInv(v)
  {
    hide AutoOk, SenderOk, SubmissionOk, ReceiptOk, Evolved, TrackingChanged;
    TrackingFacts(db, release, on);
    SelfEvolved(w.db.groups);
    forall k | 0 <= k < |v.db.autos|
      ensures AutoOk(v.db, v.db.autos[k]) && AutoSteady(w.db.autos[k], v.db.autos[k])
    {
      AutoStaysOk(w.db, v.db, w.db.autos[k]);
      StoppedAutoOk(v.db, w.db.autos[k]);
    }
    Steady(w, v);
  }

  /** Registering adds one waiting row, or refreshes the file of one row, or does nothing. */
  lemma RegisterShape(db: Db, fileId: int, explicit: bool, now: int)
    requires fileId in db.files
    ensures var next := RegisterFile(db, fileId, explicit, now);
      && next == db.(autos := next.autos) && |db.autos| <= |next.autos|
      && (forall k :: 0 <= k < |db.autos| ==>
            next.autos[k] == db.autos[k] ||
            (next.autos[k] == db.autos[k].(fileId := fileId) && db.autos[k].id == db.files[fileId]))
      && (forall k :: |db.autos| <= k < |next.autos| ==>
            var a := next.autos[k];
            MayRegister(db, db.files[fileId], explicit) &&
            a == Auto(db.files[fileId], db.policies[db.files[fileId].release].generation, fileId, explicit, Waiting, AtHash, 0, None, 0, None, now))
  {
    hide MayRegister;
  }

  lemma RegisterKeepsQueue(w: World, e: Event)
    requires QueueInv(w) && Enabled(w, e) && e.Register?
    ensures QueueInv(Apply(w, e))
  {
    hide EnabledQueue, EnabledRequest, ApplyQueue, ApplyRequest;
    hide AutoOk, SenderOk, SubmissionOk, ReceiptOk, Evolved, MayRegister, RegisterFile;
    var v := Apply(w, e);
    RegisterShape(w.db, e.fileId, e.explicit, w.now);
    SelfEvolved(w.db.groups);
    forall k | 0 <= k < |v.db.autos|
      ensures AutoOk(v.db, v.db.autos[k]) && (k < |w.db.autos| ==> AutoSteady(w.db.autos[k], v.db.autos[k]))
    {
      if k < |w.db.autos| {
        AutoStaysOk(w.db, v.db, w.db.autos[k]);
        RefiledAutoOk(v.db, w.db.autos[k], e.fileId);
      } else {
        NewAutoOk(v.db, v.db.autos[k]);
      }
    }
    Steady(w, v);
  }

  lemma RefiledAutoOk(db: Db, a: Auto, fileId: int)
    requires AutoOk(db, a)
    ensures fileId in db.files && db.files[fileId] == a.id ==> AutoOk(db, a.(fileId := fileId))
  {}

  lemma NewAutoOk(db: Db, a: Auto)
    requires a.fileId in db.files && db.files[a.fileId] == a.id && a.state == Waiting && a.reason == AtHash
    requires a.receipt.None? && a.lease.None?
    ensures AutoOk(db, a)
  {}

  lemma CatalogueKeepsQueue(w: World, e: Event)
    requires QueueInv(w) && Enabled(w, e) && (e.Track? || e.Observe?)
    ensures QueueInv(Apply(w, e))
  {
    hide EnabledQueue, EnabledRequest, ApplyQueue, ApplyRequest;
    hide QueueInv, TrackingChanged, ArchivedHashes, PolicyFor;
    var v := Apply(w, e);
    if e.Track? {
      var db := w.db.(tracked := if e.on then w.db.tracked + {e.release} else w.db.tracked - {e.release});
      TrackingFacts(db, e.release, e.on);
      assert v.db.autos == TrackingChanged(db, e.release, e.on).autos;
      TrackKeepsQueue(w, db, v, e.release, e.on);
    } else if w.db.initialized && e.release in w.db.tracked {
      TrackingFacts(w.db, e.release, true);
      assert v.db.autos == TrackingChanged(w.db, e.release, true).autos;
      TrackKeepsQueue(w, w.db, v, e.release, true);
    } else {
      PlainKeepsQueue(w, v);
    }
  }

  /** Steps that touch neither rows, receipts, policies nor workers. */
  lemma PlainKeepsQueue(w: World, v: World)
    requires QueueInv(w) && v.db.groups == w.db.groups && v.db.autos == w.db.autos && v.db.policies == w.db.policies
    requires FilesGrow(w.db.files, v.db.files) && v.issued == w.issued && v.owners == w.owners && w.now <= v.now
    requires forall t :: t in v.senders ==> t in w.senders && v.senders[t] == w.senders[t]
    ensures QueueInv(v)
  {
    hide AutoOk, SenderOk, SubmissionOk, ReceiptOk, Evolved;
    SelfEvolved(w.db.groups);
    forall k | 0 <= k < |v.db.autos|
      ensures AutoOk(v.db, v.db.autos[k])
    {
      AutoStaysOk(w.db, v.db, w.db.autos[k]);
    }
    Steady(w, v);
  }

  // ---- running ticks ---------------------------------------------------------------

  /** A tick moves on; its row does not. */
  lemma OneSender(w: World, v: World, token: nat, s: Sender)
    requires QueueInv(w) && token in w.senders && v == w.(senders := w.senders[token := s])
    requires SenderOk(w.db, w.issued, token, s)
    requires w.senders[token].step == Submitted ==> s.step == Submitted
    ensures QueueInv(v)
  {
    hide AutoOk, SenderOk, SubmissionOk, ReceiptOk;
  }

  lemma OptionsKeepQueue(w: World, e: Event)
    requires QueueInv(w) && Enabled(w, e) && (e.ReadOptions? || e.ConflictForTick?)
    ensures QueueInv(Apply(w, e))
  {
    hide EnabledCatalogue, EnabledRequest, ApplyCatalogue, ApplyRequest;
    hide FreshRequest, ReceiptOk, SubmissionOk, ExpireAll, Clear, NewestLive, MayRepeat;
    var s := w.senders[e.token];
    assert SenderOk(w.db, w.issued, e.token, s);
    if e.ReadOptions? {
      assert AutoOk(w.db, w.db.autos[s.auto]);
      OneSender(w, Apply(w, e), e.token, Apply(w, e).senders[e.token]);
    } else {
      ForbidsExists(w.db.groups, w.now, e.request, e.prior);
      OneSender(w, Apply(w, e), e.token, s.(step := Conflicted(e.prior)));
    }
  }

  lemma ForbidsExists(groups: seq<Group>, now: int, q: Request, r: Ref)
    requires |q.items| > 0 && Forbids(ExpireAll(groups, now), q, 0, r)
    ensures HasRef(groups, r)
  {}

  // ---- settling one row ---------------------------------------------------------------

  lemma SettleKeepsQueue(w: World, v: World, k: nat, g: nat)
    requires QueueInv(w) && k < |w.db.autos| && g < |w.db.groups| && SettleFits(w.db, w.db.autos[k], g)
    requires v == w.(db := SettleItem(w.db, k, g, w.now), senders := v.senders)
    requires forall t :: t in v.senders ==> t in w.senders && v.senders[t] == w.senders[t]
    ensures QueueInv(v)
  {
    SettledAutoOk(w.db, k, g, w.now);
    hide QueueInv, AutoOk, SettleAuto, RetryAfter, TargetUnsent;
    OneAuto(w, v, k, SettleAuto(w.db.autos[k], g, w.db.groups[g], w.now));
  }

  lemma NoOutcomeResolved(db: Db, a: Auto)
    requires AutoOk(db, a) && !HasOutcome(a, db.groups)
    ensures TargetUnsent(db.groups, a)
  {
    if a.receipt.Some? {
      var r := a.receipt.value;
      assert r.index in Receipts(a, r.group, db.groups[r.group]);
    }
  }

  lemma ReconcileKeepsQueue(w: World, e: Event)
    requires QueueInv(w) && Enabled(w, e) && e.Reconcile?
    ensures QueueInv(Apply(w, e))
  {
    hide EnabledCatalogue, EnabledRequest, ApplyCatalogue, ApplyRequest;
    var a := w.db.autos[e.item];
    assert AutoOk(w.db, a);
    AutoFacts(w.db, a);
    hide QueueInv, AutoOk, Assess, SettleItem, TargetUnsent, Due, HasOutcome, HasRef;
    if HasOutcome(a, w.db.groups) {
      HasOutcomeExists(a, w.db.groups);
      SettleKeepsQueue(w, Apply(w, e), e.item, a.receipt.value.group);
    } else {
      ReassessKeepsQueue(w, Apply(w, e), e.item, e.facts);
    }
  }

  lemma HasOutcomeExists(a: Auto, groups: seq<Group>)
    requires HasOutcome(a, groups)
    ensures a.receipt.Some? && a.receipt.value.group < |groups|
  {}

  lemma ReassessKeepsQueue(w: World, v: World, k: nat, f: Facts)
    requires QueueInv(w) && k < |w.db.autos| && !HasOutcome(w.db.autos[k], w.db.groups) && FactsFit(w.db, w.db.autos[k], f)
    requires var r := Assess(w.db, w.db.autos[k].(lease := None), f);
      v == w.(db := w.db.(autos := w.db.autos[k := Transition(r.auto, r.state, r.reason).(nextAttemptAt := w.now + 30)]))
    ensures QueueInv(v)
  {
    var a := w.db.autos[k];
    assert AutoOk(w.db, a);
    AutoFacts(w.db, a);
    hide QueueInv, AutoOk, Assess, TargetUnsent, HasOutcome, HasRef;
    NoOutcomeResolved(w.db, a);
    var free := a.(lease := None);
    var r := Assess(w.db, free, f);
    AssessShape(w.db, free, f);
    SelfEvolved(w.db.groups);
    var b := Transition(r.auto, r.state, r.reason).(nextAttemptAt := w.now + 30);
    FreeTarget(w.db.groups, a);
    AssessedAutoOk(w.db, w.db, free, f, b);
    AutoSameTables(w.db, v.db, b);
    OneAuto(w, v, k, b);
  }

  lemma FreeTarget(groups: seq<Group>, a: Auto)
    requires TargetUnsent(groups, a)
    ensures TargetUnsent(groups, a.(lease := None))
  {}

  // ---- claiming, submitting, ending -----------------------------------------------------

  lemma ClaimNextFacts(w: World, e: Event)
    requires Enabled(w, e) && e.ClaimNext?
    ensures e.item < |w.db.autos| && w.db.autos[e.item].state == Ready && e.token !in w.issued && NoneClaimed(w.db.autos, w.now)
    ensures FactsFit(w.db, w.db.autos[e.item], e.facts)
    ensures Apply(w, e) == DoClaimNext(w, e.item, e.facts, e.token)
  {
    hide EnabledCatalogue, EnabledRequest, ApplyCatalogue, ApplyRequest;
    hide DoClaimNext, NoneClaimed, FactsFit;
  }

  lemma ClaimNextKeepsQueue(w: World, e: Event)
    requires QueueInv(w) && Enabled(w, e) && e.ClaimNext?
    ensures QueueInv(Apply(w, e))
  {
    ClaimNextFacts(w, e);
    hide Enabled, Apply, FactsFit;
    ClaimStepKeepsQueue(w, e.item, e.facts, e.token);
  }

  lemma ClaimStepKeepsQueue(w: World, k: nat, f: Facts, token: nat)
    requires QueueInv(w) && k < |w.db.autos| && w.db.autos[k].state == Ready && token !in w.issued
    requires NoneClaimed(w.db.autos, w.now) && FactsFit(w.db, w.db.autos[k], f)
    ensures QueueInv(DoClaimNext(w, k, f, token))
  {
    hide QueueInv, AutoOk, Assess, TargetUnsent, HasRef, NoneClaimed;
    var a, b, v := w.db.autos[k], ClaimAuto(w.db, k, f, token, w.now), DoClaimNext(w, k, f, token);
    RowInside(w, k);
    AutoFacts(w.db, a);
    AssessShape(w.db, a, f);
    if Assess(w.db, a, f).state == Ready {
      NewClaimKeepsQueue(w, v, k, token, b);
    } else {
      MissedClaimKeepsQueue(w, v, k, f, b);
    }
  }

  /** The row is not ready any more: it goes where its assessment sends it. */
  lemma MissedClaimKeepsQueue(w: World, v: World, k: nat, f: Facts, b: Auto)
    requires QueueInv(w) && k < |w.db.autos| && w.db.autos[k].state == Ready && FactsFit(w.db, w.db.autos[k], f)
    requires var r := Assess(w.db, w.db.autos[k], f); r.state != Ready && b == Transition(r.auto, r.state, r.reason)
    requires v == w.(db := w.db.(autos := w.db.autos[k := b]))
    ensures QueueInv(v)
  {
    hide QueueInv, AutoOk, Assess, TargetUnsent, HasRef;
    var a := w.db.autos[k];
    RowInside(w, k);
    AutoFacts(w.db, a);
    AutoIsRow(w.db, a);
    AssessShape(w.db, a, f);
    SelfEvolved(w.db.groups);
    AssessedAutoOk(w.db, w.db, a, f, b);
    AutoSameTables(w.db, v.db, b);
    OneAuto(w, v, k, b);
  }

  lemma AutoIsRow(db: Db, a: Auto)
    requires AutoOk(db, a)
    ensures RowOk(db, a)
  {}

  lemma NewClaimKeepsQueue(w: World, v: World, k: nat, token: nat, b: Auto)
    requires QueueInv(w) && k < |w.db.autos| && w.db.autos[k].state == Ready && token !in w.issued
    requires NoneClaimed(w.db.autos, w.now)
    requires v == w.(db := w.db.(autos := w.db.autos[k := b]), senders := w.senders[token := Sender(k, None, Fresh)],
                     issued := w.issued[token := k])
    requires b.id == w.db.autos[k].id && b.receipt == w.db.autos[k].receipt && b.state == Claimed && b.reason == AtSending
    requires b.lease == Some(Lease(token, w.now + 660))
    requires b.fileId in w.db.files && w.db.files[b.fileId] == b.id
    requires b.id.release in w.db.policies && b.revision == w.db.policies[b.id.release].revision
    ensures QueueInv(v)
  {
    hide AutoOk, ReceiptOk, TargetUnsent, SenderOk, SubmissionOk;
    AutoFacts(w.db, w.db.autos[k]);
    forall j | 0 <= j < |v.db.autos|
      ensures AutoOk(v.db, v.db.autos[j])
    {
      if j != k { AutoSameTables(w.db, v.db, w.db.autos[j]); } else { ClaimedAutoOk(w.db, v.db, w.db.autos[k], b); }
    }
    forall t | t in v.senders
      ensures SenderOk(v.db, v.issued, t, v.senders[t])
    {
      if t != token { SenderBesides(w, v, t, k, token); } else { FreshSenderOk(w, v, k, token); }
    }
    forall g | g in v.owners && v.owners[g].token.Some?
      ensures SubmissionOk(v.db, v.issued, g, v.owners[g].token.value)
      ensures v.owners[g].token.value in v.senders ==> v.senders[v.owners[g].token.value].step == Submitted
    {
      SubmissionBesides(w, v, g, w.owners[g].token.value, k, token);
    }
    forall g | 0 <= g < |v.db.groups|
      ensures ReceiptOk(v.db.autos, g, v.db.groups[g])
    {
      ReceiptReleased(w.db, v.db, g, k);
    }
    assert forall j :: 0 <= j < |w.db.autos| ==> !InLease(w.db.autos[j], w.now);
  }

  lemma ClaimedAutoOk(db: Db, next: Db, a: Auto, b: Auto)
    requires AutoOk(db, a) && next == db.(autos := next.autos)
    requires b.receipt == a.receipt && b.state == Claimed && b.reason == AtSending && b.lease.Some?
    requires b.fileId in db.files && db.files[b.fileId] == b.id
    requires b.id.release in db.policies && b.revision == db.policies[b.id.release].revision
    ensures AutoOk(next, b)
  {}

  lemma SenderBesides(w: World, v: World, t: nat, k: nat, token: nat)
    requires t in w.senders && SenderOk(w.db, w.issued, t, w.senders[t]) && token !in w.issued
    requires k < |w.db.autos| && w.db.autos[k].lease.None? && |v.db.autos| == |w.db.autos|
    requires v.db == w.db.(autos := v.db.autos) && v.issued == w.issued[token := k]
    requires forall j :: 0 <= j < |w.db.autos| && j != k ==> v.db.autos[j] == w.db.autos[j]
    requires v.db.autos[k].id == w.db.autos[k].id && Holds(v.db.autos[k], token)
    ensures SenderOk(v.db, v.issued, t, w.senders[t])
  {}

  lemma FreshSenderOk(w: World, v: World, k: nat, token: nat)
    requires k < |w.db.autos| && |v.db.autos| == |w.db.autos| && TargetUnsent(w.db.groups, w.db.autos[k])
    requires v.db == w.db.(autos := v.db.autos) && v.issued == w.issued[token := k]
    requires v.db.autos[k].state == Claimed && v.db.autos[k].receipt == w.db.autos[k].receipt
    ensures SenderOk(v.db, v.issued, token, Sender(k, None, Fresh))
  {}

  lemma SubmissionBesides(w: World, v: World, g: nat, t: nat, k: nat, token: nat)
    requires SubmissionOk(w.db, w.issued, g, t) && token !in w.issued
    requires k < |w.db.autos| && w.db.autos[k].lease.None? && |v.db.autos| == |w.db.autos|
    requires v.db == w.db.(autos := v.db.autos) && v.issued == w.issued[token := k]
    requires forall j :: 0 <= j < |w.db.autos| && j != k ==> v.db.autos[j] == w.db.autos[j]
    requires v.db.autos[k].id == w.db.autos[k].id && Holds(v.db.autos[k], token)
    ensures SubmissionOk(v.db, v.issued, g, t) && t != token
  {}

  lemma SettleConflictKeepsQueue(w: World, e: Event)
    requires QueueInv(w) && Enabled(w, e) && e.SettleConflict?
    ensures QueueInv(Apply(w, e))
  {
    hide Enabled, Apply, QueueInv, DoSettleConflict;
    ConflictApplied(w, e);
    DoConflictKeepsQueue(w, e.token);
  }

  predicate AdoptsLine(w: World, token: nat) {
    && token in w.senders && w.senders[token].step.Conflicted? && HoldsToken(w, token)
    && w.senders[token].step.prior.group < |w.db.groups|
  }

  lemma ConflictApplied(w: World, e: Event)
    requires Enabled(w, e) && e.SettleConflict?
    ensures AdoptsLine(w, e.token) && Apply(w, e) == DoSettleConflict(w, e.token)
  {
    hide EnabledCatalogue, EnabledRequest, ApplyCatalogue, ApplyRequest;
    hide DoSettleConflict;
  }

  /** The row that adopts the line: claimed or cancelled, with its own line decided. */
  lemma AdoptingRow(w: World, token: nat)
    requires QueueInv(w) && AdoptsLine(w, token)
    ensures var a := w.db.autos[w.senders[token].auto];
      AutoOk(w.db, a) && TargetUnsent(w.db.groups, a) && (a.state == Claimed || a.state == Cancelled) &&
      HasRef(w.db.groups, w.senders[token].step.prior)
  {
    hide AutoOk, TargetUnsent, SubmissionOk, ReceiptOk, HasRef;
    assert SenderOk(w.db, w.issued, token, w.senders[token]);
  }

  lemma DoConflictKeepsQueue(w: World, token: nat)
    requires QueueInv(w) && AdoptsLine(w, token)
    ensures QueueInv(DoSettleConflict(w, token))
  {
    hide QueueInv, AutoOk, TargetUnsent, SettleAuto, RetryAfter, HasRef;
    AdoptingRow(w, token);
    var k, prior := w.senders[token].auto, w.senders[token].step.prior;
    var a := w.db.autos[k];
    var moved := a.(receipt := Some(prior));
    var db := w.db.(autos := w.db.autos[k := moved]);
    MovedAutoOk(w.db, db, a, prior);
    SettledAutoOk(db, k, prior.group, w.now);
    var b := SettleAuto(moved, prior.group, w.db.groups[prior.group], w.now);
    var c := if b.state == Done then Transition(b, Done, AtAlreadySubmitted) else b;
    var v := DoSettleConflict(w, token);
    AutoSameTables(SettleItem(db, k, prior.group, w.now), v.db, b);
    RenamedAutoOk(v.db, b);
    assert v.db.autos == w.db.autos[k := c];
    OneAuto(w, v, k, c);
  }

  lemma MovedAutoOk(db: Db, next: Db, a: Auto, prior: Ref)
    requires AutoOk(db, a) && (a.state == Claimed || a.state == Cancelled) && HasRef(db.groups, prior)
    requires next == db.(autos := next.autos)
    ensures AutoOk(next, a.(receipt := Some(prior)))
  {}

  lemma RenamedAutoOk(db: Db, b: Auto)
    requires AutoOk(db, b)
    ensures b.state == Done ==> AutoOk(db, Transition(b, Done, AtAlreadySubmitted))
  {}

  lemma EndTickKeepsQueue(w: World, e: Event)
    requires QueueInv(w) && Enabled(w, e) && e.EndTick?
    ensures QueueInv(Apply(w, e))
  {
    hide Enabled, Apply, QueueInv, DoEndTick;
    EndApplied(w, e);
    DoEndKeepsQueue(w, e.token);
  }

  lemma EndApplied(w: World, e: Event)
    requires Enabled(w, e) && e.EndTick?
    ensures e.token in w.senders && Apply(w, e) == DoEndTick(w, e.token)
  {
    hide EnabledCatalogue, EnabledRequest, ApplyCatalogue, ApplyRequest;
    hide DoEndTick;
  }

  lemma RowInside(w: World, k: nat)
    requires QueueInv(w) && k < |w.db.autos|
    ensures AutoOk(w.db, w.db.autos[k])
  {}

  lemma IdleAutoOk(db: Db, a: Auto, at: int)
    requires AutoOk(db, a) && TargetUnsent(db.groups, a)
    ensures AutoOk(db, Transition(a, Waiting, AtServer).(lease := None, nextAttemptAt := at))
    ensures a.state == Cancelled ==> AutoOk(db, a.(lease := None, nextAttemptAt := at))
  {}

  lemma DoEndKeepsQueue(w: World, token: nat)
    requires QueueInv(w) && token in w.senders
    ensures QueueInv(DoEndTick(w, token))
  {
    hide QueueInv, AutoOk, SettleItem;
    var k, v := w.senders[token].auto, DoEndTick(w, token);
    if HoldsToken(w, token) {
      var a := w.db.autos[k];
      RowInside(w, k);
      AutoFacts(w.db, a);
      if a.receipt.Some? && a.receipt.value.group < |w.db.groups| {
        SettleKeepsQueue(w, v, k, a.receipt.value.group);
      } else {
        var idle := if a.state == Cancelled then a else Transition(a, Waiting, AtServer);
        var b := idle.(lease := None, nextAttemptAt := w.now + 30);
        IdleAutoOk(w.db, a, w.now + 30);
        AutoSameTables(w.db, v.db, b);
        OneAuto(w, v, k, b);
      }
    } else {
      PlainKeepsQueue(w, v);
    }
  }
}
