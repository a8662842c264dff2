/** When a cancelled row leaves `cancelled`: exactly at the late recovery of a receipt it no longer points at. */
module CancelledRows {
  import opened Json
  import opened EncoderHistory
  import opened EncoderTables
  import opened EncoderRuns
  import opened ReceiptSteps
  import opened FlightInvariant
  import opened QueueInvariant
  import opened QueueSteps
  import opened QueueClaims
  import opened RunSafety
  import opened RunStatuses
  import opened IntentPermission

  ghost predicate IsCancelled(w: World, k: nat) {
    k < |w.db.autos| && w.db.autos[k].state == Cancelled
  }

  /** The second transaction of a recovery, for a receipt of row `k` that the row no longer points at. */
  ghost predicate RecoversElsewhere(w: World, e: Event, k: nat) {
    && Enabled(w, e) && e.RecoverReceipt? && k < |w.db.autos|
    && w.db.groups[e.group].origin == Automatic(k)
    && Receipts(w.db.autos[k], e.group, w.db.groups[e.group]) == {}
  }

  lemma SettledCancelled(a: Auto, g: nat, group: Group, now: int)
    requires a.state == Cancelled
    ensures SettleAuto(a, g, group, now).state == Cancelled <==> Receipts(a, g, group) != {}
  {
    hide Receipts;
  }

  lemma PointedLine(a: Auto, groups: seq<Group>)
    requires a.receipt.Some? && HasRef(groups, a.receipt.value)
    ensures Receipts(a, a.receipt.value.group, groups[a.receipt.value.group]) != {}
  {
    assert a.receipt.value.index in Receipts(a, a.receipt.value.group, groups[a.receipt.value.group]);
  }

  lemma SameLines(a: Auto, g: nat, before: Group, after: Group)
    requires GroupEvolves(before, after)
    ensures Receipts(a, g, after) == Receipts(a, g, before)
  {
    forall i | 0 <= i < |before.items| ensures IdOf(after.items[i]) == IdOf(before.items[i]) {
      assert ItemEvolves(before.items[i], after.items[i]);
    }
  }

  lemma RecoverCancelled(w: World, e: Event, k: nat)
    requires FlightInv(w) && Enabled(w, e) && e.RecoverReceipt? && IsCancelled(w, k)
    ensures IsCancelled(Apply(w, e), k) <==> !RecoversElsewhere(w, e, k)
  {
    hide Enabled, Apply, DoRecover, FlightInv, GroupEvolves, Receipts, IsCancelled;
    RecoverApplied(w, e);
    RecoverEvolves(w, e);
    RecoveredRow(w, e.group, e.answer, e.changed, k);
    AtLeastRow(w, k);
  }

  lemma AtLeastRow(w: World, k: nat)
    requires IsCancelled(w, k)
    ensures k < |w.db.autos|
  {}

  lemma RecoveredRow(w: World, g: nat, answer: Answer, changed: set<nat>, k: nat)
    requires g < |w.db.groups| && IsCancelled(w, k)
    requires w.db.groups[g].origin.Automatic? ==> w.db.groups[g].origin.item < |w.db.autos|
    requires GroupEvolves(w.db.groups[g], Recover(w.db.groups[g], answer, changed, w.now))
    ensures IsCancelled(DoRecover(w, g, answer, changed), k) <==>
      !(w.db.groups[g].origin == Automatic(k) && Receipts(w.db.autos[k], g, w.db.groups[g]) == {})
  {
    hide RecoverWith, OutcomeOf, SettleAuto, RetryAfter, GroupEvolves, Receipts, Recover;
    var r := Recover(w.db.groups[g], answer, changed, w.now);
    RecoveredRows(w, g, answer, changed);
    hide DoRecover;
    SameLines(w.db.autos[k], g, w.db.groups[g], r);
    SettledCancelled(w.db.autos[k], g, r, w.now);
  }

  lemma RecoveredRows(w: World, g: nat, answer: Answer, changed: set<nat>)
    requires g < |w.db.groups|
    requires w.db.groups[g].origin.Automatic? ==> w.db.groups[g].origin.item < |w.db.autos|
    ensures DoRecover(w, g, answer, changed).db.autos ==
      if w.db.groups[g].origin.Manual? then w.db.autos
      else var a := w.db.groups[g].origin.item;
           w.db.autos[a := SettleAuto(w.db.autos[a], g, Recover(w.db.groups[g], answer, changed, w.now), w.now)]
  {
    hide Recover, SettleAuto, RetryAfter;
  }

  lemma RecoverEvolves(w: World, e: Event)
    requires FlightInv(w) && Enabled(w, e) && e.RecoverReceipt?
    ensures e.group < |w.db.groups| && GroupEvolves(w.db.groups[e.group], Recover(w.db.groups[e.group], e.answer, e.changed, w.now))
  {
    hide EnabledCatalogue, EnabledQueue, ApplyCatalogue, ApplyQueue;
    hide GroupOk, GroupEvolves, FlightOk, RecoverWith, OutcomeOf, KeepsPosted;
    FlightAt(w, e.group);
    FlightFacts(w.db.groups[e.group], OwnerOf(w, e.group), w.posts[e.group], e.group in w.received, w.recoveries[e.group]);
    RecoverStep(w.db.groups[e.group], OutcomeOf(w.db.groups[e.group].requestId, e.answer), e.changed, w.now);
  }

  lemma ConflictCancelled(w: World, e: Event, k: nat)
    requires QueueInv(w) && Enabled(w, e) && e.SettleConflict? && IsCancelled(w, k)
    ensures IsCancelled(Apply(w, e), k)
  {
    hide Enabled, Apply, QueueInv, DoSettleConflict, IsCancelled, AdoptsLine;
    ConflictApplied(w, e);
    AdoptionKeepsCancelled(w, e.token, k);
  }

  lemma AdoptionKeepsCancelled(w: World, token: nat, k: nat)
    requires QueueInv(w) && AdoptsLine(w, token) && IsCancelled(w, k)
    ensures IsCancelled(DoSettleConflict(w, token), k)
  {
    AdoptingRow(w, token);
    hide QueueInv, SettleAuto, RetryAfter, Receipts, AutoOk, TargetUnsent;
    var s := w.senders[token];
    var moved := w.db.autos[s.auto].(receipt := Some(s.step.prior));
    PointedLine(moved, w.db.groups);
    if moved.state == Cancelled { SettledCancelled(moved, s.step.prior.group, w.db.groups[s.step.prior.group], w.now); }
  }

  lemma EndCancelled(w: World, e: Event, k: nat)
    requires QueueInv(w) && Enabled(w, e) && e.EndTick? && IsCancelled(w, k)
    ensures IsCancelled(Apply(w, e), k)
  {
    assert AutoOk(w.db, w.db.autos[k]);
    hide QueueInv, AutoOk, Enabled, Apply, DoEndTick, IsCancelled;
    EndApplied(w, e);
    EndKeepsCancelled(w, e.token, k);
  }

  lemma EndKeepsCancelled(w: World, token: nat, k: nat)
    requires token in w.senders && IsCancelled(w, k) && AutoOk(w.db, w.db.autos[k])
    ensures IsCancelled(DoEndTick(w, token), k)
  {
    AutoFacts(w.db, w.db.autos[k]);
    hide AutoOk, SettleItem;
    if HoldsToken(w, token) {
      var a := w.senders[token].auto;
      var r := w.db.autos[a].receipt;
      if r.Some? && r.value.group < |w.db.groups| { SettleKeepsCancelled(w.db, a, r.value.group, w.now, k); }
    }
  }

  lemma SettleKeepsCancelled(db: Db, a: nat, g: nat, now: int, k: nat)
    requires a < |db.autos| && k < |db.autos| && db.autos[k].state == Cancelled
    requires g < |db.groups| && db.autos[a].receipt.Some? && db.autos[a].receipt.value.group == g
    requires a == k ==> HasRef(db.groups, db.autos[k].receipt.value)
    ensures var next := SettleItem(db, a, g, now); k < |next.autos| && next.autos[k].state == Cancelled
  {
    hide SettleAuto, RetryAfter, Receipts;
    if a == k {
      PointedLine(db.autos[k], db.groups);
      SettledCancelled(db.autos[k], g, db.groups[g], now);
    }
  }

  lemma CatalogueCancelled(w: World, e: Event, k: nat)
    requires Enabled(w, e) && IsCancelled(w, k) && (e.Track? || e.Observe? || e.Register? || e.SavePresets?)
    ensures IsCancelled(Apply(w, e), k)
  {
    hide EnabledQueue, EnabledRequest, ApplyQueue, ApplyRequest;
    hide Baseline, FindItem, MayRegister, PolicyFor, ArchivedHashes, Stopped, AwaitsPreset;
    if e.Register? { RegisterShape(w.db, e.fileId, e.explicit, w.now); }
    if e.SavePresets? { WakesNotCancelled(w.db.autos[k], e.release); }
  }

  lemma WakesNotCancelled(a: Auto, release: int)
    requires a.state == Cancelled
    ensures !AwaitsPreset(a, release)
  {}

  lemma QueueCancelled(w: World, e: Event, k: nat)
    requires Enabled(w, e) && IsCancelled(w, k) && (e.Reconcile? || e.ClaimNext?)
    ensures IsCancelled(Apply(w, e), k)
  {
    hide EnabledCatalogue, EnabledRequest, ApplyCatalogue, ApplyRequest;
    hide Assess, SettleAuto, RetryAfter, HasOutcome, FactsFit, MayClaim;
  }

  lemma DeniedCancelled(db: Db, a: nat, token: nat, snapshot: Json, f: Facts, now: int)
    requires a < |db.autos| && db.autos[a].state == Cancelled
    ensures Validate(db, a, token, snapshot, f, now) == Denied(db.autos[a])
  {
    hide Assess;
  }

  lemma CommitRows(w: World, g: nat, ok: set<nat>, sameServer: bool, snapshot: Json, f: Facts, k: nat)
    requires ReadyToCommit(w, g) && IsCancelled(w, k)
    ensures IsCancelled(DoCommit(w, g, ok, sameServer, snapshot, f), k)
  {
    CommitShape(w, g, ok, sameServer, snapshot, f);
    hide Validate, FactsFit, DoAbort, DoCommit, Recheck;
    var v, r := DoCommit(w, g, ok, sameServer, snapshot, f), w.db.groups[g];
    if !QueueFrame(w, v) {
      var a := r.origin.item;
      if a == k { DeniedCancelled(w.db, a, w.owners[g].token.value, snapshot, f, w.now); }
      var b := Validate(w.db, a, w.owners[g].token.value, snapshot, f, w.now).auto;
      AbortShape(w.(db := w.db.(autos := w.db.autos[a := b])), g, Recheck(r.items, ok), snapshot);
    }
  }

  lemma CommitCancelled(w: World, e: Event, k: nat)
    requires Enabled(w, e) && e.Commit? && IsCancelled(w, k)
    ensures IsCancelled(Apply(w, e), k)
  {
    hide DoCommit, Enabled, Apply, IsCancelled;
    CommitApplied(w, e);
    CommitRows(w, e.group, e.ok, e.sameServer, e.snapshot, e.facts, k);
  }

  lemma ClaimCancelled(w: World, e: Event, k: nat)
    requires Enabled(w, e) && IsCancelled(w, k) && (e.ClaimManual? || e.ClaimByTick?)
    ensures IsCancelled(Apply(w, e), k)
  {
    hide EnabledCatalogue, EnabledRequest, ApplyCatalogue, ApplyRequest;
    hide FreshRequest, Clear, NewGroup, TickRequest, KnownRequest, ExpireAll;
  }

  lemma PlainCancelled(w: World, e: Event, k: nat)
    requires Enabled(w, e) && IsCancelled(w, k)
    requires e.Advance? || e.SetEnabled? || e.Initialize? || e.AddFile? || e.CrashTick? || e.ReadOptions? || e.ConflictForTick?
    ensures IsCancelled(Apply(w, e), k)
  {
    hide FreshRequest, Forbids, TickRequest, ExpireAll;
  }

  /** One step takes a row out of `cancelled` if and only if it recovers a receipt the row does not point at. */
  lemma CancelledStep(w: World, e: Event, k: nat)
    requires Inv(w) && IsCancelled(w, k)
    ensures IsCancelled(Next(w, e), k) <==> !RecoversElsewhere(w, e, k)
  {
    InvFacts(w);
    OnlyRecoveries(w, e, k);
    hide Inv, FlightInv, QueueInv, Enabled, Apply, IsCancelled, RecoversElsewhere, QueueFrame;
    if Enabled(w, e) {
      if ReceiptsOnly(e) { ReceiptsOnlyFrame(w, e); SameRows(w, Apply(w, e), k); }
      else if e.RecoverReceipt? { RecoverCancelled(w, e, k); }
      else if e.SettleConflict? { ConflictCancelled(w, e, k); }
      else if e.EndTick? { EndCancelled(w, e, k); }
      else if e.Track? || e.Observe? || e.Register? || e.SavePresets? { CatalogueCancelled(w, e, k); }
      else if e.Reconcile? || e.ClaimNext? { QueueCancelled(w, e, k); }
      else if e.Commit? { CommitCancelled(w, e, k); }
      else if e.ClaimManual? || e.ClaimByTick? { ClaimCancelled(w, e, k); }
      else { PlainCancelled(w, e, k); }
    }
  }

  lemma OnlyRecoveries(w: World, e: Event, k: nat)
    ensures RecoversElsewhere(w, e, k) ==> Enabled(w, e) && e.RecoverReceipt?
  {
    hide Enabled, Receipts;
  }

  lemma SameRows(w: World, v: World, k: nat)
    requires QueueFrame(w, v) && IsCancelled(w, k)
    ensures IsCancelled(v, k)
  {}

  /** A row has left a receipt of its own only if that receipt turned out never to have been sent. */
  lemma LeftReceiptsWereNotSent(w: World, e: Event, k: nat)
    requires Inv(w) && RecoversElsewhere(w, e, k)
    ensures var r := w.db.groups[e.group]; |r.items| == 1 && r.items[0].status == NotSent
  {
    var r := w.db.groups[e.group];
    assert ReceiptOk(w.db.autos, e.group, r);
    assert 0 !in Receipts(w.db.autos[k], e.group, r);
  }

  /** No step of the run recovers a receipt of row `k` that the row has left. */
  ghost predicate NoneElsewhere(w: World, es: seq<Event>, k: nat) {
    es == [] || (NoneElsewhere(w, es[..|es| - 1], k) && !RecoversElsewhere(Run(w, es[..|es| - 1]), es[|es| - 1], k))
  }

  /** Cancelled at every point of the run, from its start on. */
  ghost predicate AlwaysCancelled(w: World, es: seq<Event>, k: nat) {
    IsCancelled(Run(w, es), k) && (es == [] || AlwaysCancelled(w, es[..|es| - 1], k))
  }

  /** Over whole runs: a cancelled row stays cancelled throughout if and only if no such recovery happens. */
  lemma {:induction false} CancelledUnlessRecovered(w: World, es: seq<Event>, k: nat)
    requires Inv(w) && IsCancelled(w, k)
    ensures AlwaysCancelled(w, es, k) <==> NoneElsewhere(w, es, k)
  {
    hide Inv, Next, IsCancelled, RecoversElsewhere;
    if es != [] {
      var before := es[..|es| - 1];
      CancelledUnlessRecovered(w, before, k);
      RunHolds(w, before);
      if AlwaysCancelled(w, before, k) { CancelledStep(Run(w, before), es[|es| - 1], k); }
    }
  }
}
