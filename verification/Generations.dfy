/** Tracking generations: what was archived when one began is never queued by it, and an old one never sends again. */
module Generations {
  import opened Json
  import opened EncoderHistory
  import opened EncoderTables
  import opened EncoderRuns
  import opened ReceiptSteps
  import opened FlightInvariant
  import opened QueueInvariant
  import opened QueueSteps
  import opened QueueClaims
  import opened RunSafety
  import opened RunStatuses
  import opened IntentPermission

  predicate SameRow(a: Auto, b: Auto) {
    b.id == a.id && b.generation == a.generation && b.explicit == a.explicit
  }

  predicate SameRows(autos: seq<Auto>, next: seq<Auto>) {
    |autos| <= |next| && forall k :: 0 <= k < |autos| ==> SameRow(autos[k], next[k])
  }

  /** Nothing about tracking, versions or generations changed. */
  ghost predicate SameCatalogue(w: World, v: World) {
    && v.db.policies == w.db.policies && v.db.sources == w.db.sources && v.db.archives == w.db.archives
    && v.db.tracked == w.db.tracked && v.baselines == w.baselines
    && |v.db.autos| == |w.db.autos| && SameRows(w.db.autos, v.db.autos)
  }

  lemma SettleSameRows(db: Db, a: nat, g: nat, now: int)
    requires a < |db.autos| && g < |db.groups|
    ensures var next := SettleItem(db, a, g, now);
      next == db.(autos := next.autos, retryAt := next.retryAt) && |next.autos| == |db.autos| && SameRows(db.autos, next.autos)
  {
    SettledFields(db.autos[a], g, db.groups[g], now);
    hide SettleAuto, RetryAfter;
  }

  lemma RecoverFrames(w: World, e: Event)
    requires Enabled(w, e) && e.RecoverReceipt?
    ensures SameCatalogue(w, Apply(w, e))
  {
    hide Enabled, Apply, SameCatalogue, DoRecover;
    RecoverApplied(w, e);
    DoRecoverFrames(w, e.group, e.answer, e.changed);
  }

  lemma DoRecoverFrames(w: World, g: nat, answer: Answer, changed: set<nat>)
    requires g < |w.db.groups|
    requires w.db.groups[g].origin.Automatic? ==> w.db.groups[g].origin.item < |w.db.autos|
    ensures SameCatalogue(w, DoRecover(w, g, answer, changed))
  {
    hide SettleItem, Recover, SameRow;
    var mid := WithGroup(w, g, Recover(w.db.groups[g], answer, changed, w.now)).(recoveries := w.recoveries - multiset{g});
    SelfSameRows(w.db.autos);
    if w.db.groups[g].origin.Automatic? { SettleSameRows(mid.db, w.db.groups[g].origin.item, g, w.now); }
  }

  lemma ConflictFrames(w: World, e: Event)
    requires Enabled(w, e) && e.SettleConflict?
    ensures SameCatalogue(w, Apply(w, e))
  {
    hide EnabledCatalogue, EnabledRequest, ApplyCatalogue, ApplyRequest;
    hide SettleItem;
    var a, prior := w.senders[e.token].auto, w.senders[e.token].step.prior;
    SettleSameRows(w.db.(autos := w.db.autos[a := w.db.autos[a].(receipt := Some(prior))]), a, prior.group, w.now);
  }

  lemma EndFrames(w: World, e: Event)
    requires Enabled(w, e) && e.EndTick?
    ensures SameCatalogue(w, Apply(w, e))
  {
    hide EnabledCatalogue, EnabledRequest, ApplyCatalogue, ApplyRequest;
    hide SettleItem;
    if HoldsToken(w, e.token) {
      var a := w.senders[e.token].auto;
      var r := w.db.autos[a].receipt;
      if r.Some? && r.value.group < |w.db.groups| { SettleSameRows(w.db, a, r.value.group, w.now); }
    }
  }

  lemma ReconcileSameRows(db: Db, a: nat, f: Facts, now: int)
    requires a < |db.autos|
    ensures var next := ReconcileItem(db, a, f, now);
      next == db.(autos := next.autos, retryAt := next.retryAt) && |next.autos| == |db.autos| && SameRows(db.autos, next.autos)
  {
    hide SettleItem, Assess, HasOutcome;
    AssessShape(db, db.autos[a].(lease := None), f);
    if HasOutcome(db.autos[a], db.groups) {
      HasOutcomeExists(db.autos[a], db.groups);
      SettleSameRows(db, a, db.autos[a].receipt.value.group, now);
    }
  }

  lemma ReconcileFrames(w: World, e: Event)
    requires Enabled(w, e) && e.Reconcile?
    ensures SameCatalogue(w, Apply(w, e))
  {
    hide EnabledCatalogue, EnabledRequest, ApplyCatalogue, ApplyRequest;
    hide ReconcileItem, FactsFit, Due;
    ReconcileSameRows(w.db, e.item, e.facts, w.now);
  }

  lemma ClaimSameRow(db: Db, a: nat, f: Facts, token: nat, now: int)
    requires a < |db.autos|
    ensures SameRow(db.autos[a], ClaimAuto(db, a, f, token, now))
  {
    hide Assess;
    AssessShape(db, db.autos[a], f);
  }

  lemma ClaimNextFrames(w: World, e: Event)
    requires Enabled(w, e) && e.ClaimNext?
    ensures SameCatalogue(w, Apply(w, e))
  {
    hide EnabledCatalogue, EnabledRequest, ApplyCatalogue, ApplyRequest;
    hide DoClaimNext, FactsFit, MayClaim, SameCatalogue;
    DoClaimNextFrames(w, e.item, e.facts, e.token);
  }

  lemma DoClaimNextFrames(w: World, a: nat, f: Facts, token: nat)
    requires a < |w.db.autos|
    ensures SameCatalogue(w, DoClaimNext(w, a, f, token))
  {
    ClaimSameRow(w.db, a, f, token, w.now);
    hide ClaimAuto, Assess, SameRow, SameRows;
    var auto := ClaimAuto(w.db, a, f, token, w.now);
    var v := DoClaimNext(w, a, f, token);
    assert v.db == w.db.(autos := w.db.autos[a := auto]);
    OneSameRow(w.db.autos, a, auto);
  }

  lemma DeniedSameRow(db: Db, a: nat, token: nat, snapshot: Json, f: Facts, now: int)
    requires a < |db.autos|
    ensures var p := Validate(db, a, token, snapshot, f, now); p.Denied? ==> SameRow(db.autos[a], p.auto)
  {
    hide Assess;
    AssessShape(db, db.autos[a], f);
  }

  lemma CommitFrames(w: World, g: nat, ok: set<nat>, sameServer: bool, snapshot: Json, f: Facts)
    requires ReadyToCommit(w, g)
    ensures SameCatalogue(w, DoCommit(w, g, ok, sameServer, snapshot, f))
  {
    CommitShape(w, g, ok, sameServer, snapshot, f);
    hide Validate, FactsFit, Recheck, DoAbort, DoCommit;
    var v, r := DoCommit(w, g, ok, sameServer, snapshot, f), w.db.groups[g];
    if !QueueFrame(w, v) {
      var a := r.origin.item;
      DeniedSameRow(w.db, a, w.owners[g].token.value, snapshot, f, w.now);
      var b := Validate(w.db, a, w.owners[g].token.value, snapshot, f, w.now).auto;
      AbortShape(w.(db := w.db.(autos := w.db.autos[a := b])), g, Recheck(r.items, ok), snapshot);
    }
  }

  lemma ClaimFrames(w: World, e: Event)
    requires Enabled(w, e) && (e.ClaimManual? || e.ClaimByTick?)
    ensures SameCatalogue(w, Apply(w, e))
  {
    hide EnabledCatalogue, EnabledRequest, ApplyCatalogue, ApplyRequest;
    hide FreshRequest, Clear, NewGroup, TickRequest, KnownRequest, ExpireAll;
  }

  lemma FrameSameCatalogue(w: World, v: World)
    requires QueueFrame(w, v)
    ensures SameCatalogue(w, v)
  {}

  lemma PlainFrames(w: World, e: Event)
    requires Enabled(w, e)
    requires e.Advance? || e.SetEnabled? || e.Initialize? || e.AddFile? || e.CrashTick? || e.ReadOptions? || e.ConflictForTick?
    ensures SameCatalogue(w, Apply(w, e))
  {
    hide FreshRequest, Forbids, TickRequest, ExpireAll;
  }

  predicate Catalogues(e: Event) { e.Track? || e.Observe? || e.Register? || e.SavePresets? }

  lemma OthersKeepCatalogue(w: World, e: Event)
    requires Enabled(w, e) && !Catalogues(e)
    ensures SameCatalogue(w, Apply(w, e))
  {
    hide SameCatalogue, Apply, Enabled, DoCommit;
    if ReceiptsOnly(e) { ReceiptsOnlyFrame(w, e); FrameSameCatalogue(w, Apply(w, e)); }
    else if e.RecoverReceipt? { RecoverFrames(w, e); }
    else if e.SettleConflict? { ConflictFrames(w, e); }
    else if e.EndTick? { EndFrames(w, e); }
    else if e.Reconcile? { ReconcileFrames(w, e); }
    else if e.ClaimNext? { ClaimNextFrames(w, e); }
    else if e.ClaimManual? || e.ClaimByTick? { ClaimFrames(w, e); }
    else if e.Commit? { CommitApplied(w, e); CommitFrames(w, e.group, e.ok, e.sameServer, e.snapshot, e.facts); }
    else { PlainFrames(w, e); }
  }

  // ---- the invariant of sources and baselines -----------------------------------------

  ghost predicate BaselinesKnown(w: World) {
    forall r, g :: (r, g) in w.baselines ==> r in w.db.policies && g <= w.db.policies[r].generation
  }

  ghost predicate JoinedHaveBaseline(w: World) {
    forall r :: r in w.db.policies && w.db.policies[r].participating ==> (r, w.db.policies[r].generation) in w.baselines
  }

  /** A source is marked as old exactly when it was archived before its generation began. */
  ghost predicate SourcesMatch(w: World) {
    && (forall k :: k in w.db.sources ==>
          (k.release, k.generation) in w.baselines &&
          (w.db.sources[k] <==> k.infoHash in w.baselines[(k.release, k.generation)]))
    && (forall r, g, h :: (r, g) in w.baselines && h in w.baselines[(r, g)] ==> SourceKey(r, g, h) in w.db.sources)
  }

  ghost predicate RowGenerationOk(w: World, a: Auto) {
    var key := (a.id.release, a.generation);
    key in w.baselines && (a.id.infoHash in w.baselines[key] ==> a.explicit)
  }

  ghost predicate RowsMatch(w: World) {
    forall k :: 0 <= k < |w.db.autos| ==> RowGenerationOk(w, w.db.autos[k])
  }

  /** Every generation's sources and rows against the versions archived when it began. */
  ghost predicate GenInv(w: World) {
    BaselinesKnown(w) && JoinedHaveBaseline(w) && SourcesMatch(w) && RowsMatch(w)
  }

  lemma SameCatalogueKeeps(w: World, v: World)
    requires GenInv(w) && SameCatalogue(w, v)
    ensures GenInv(v)
  {
    forall k | 0 <= k < |v.db.autos|
      ensures RowGenerationOk(v, v.db.autos[k])
    {
      assert SameRow(w.db.autos[k], v.db.autos[k]);
      assert RowGenerationOk(w, w.db.autos[k]);
    }
  }

  lemma InArchived(db: Db, release: int, h: string)
    ensures h in ArchivedHashes(db, release) <==> (release, h) in db.archives
  {
    if (release, h) in db.archives { assert (release, h).1 in ArchivedHashes(db, release); }
  }

  lemma InBaseline(db: Db, release: int, generation: nat, k: SourceKey)
    ensures k in Baseline(db, release, generation) <==>
      k.release == release && k.generation == generation && k.infoHash in ArchivedHashes(db, release)
    ensures k in Baseline(db, release, generation) ==> Baseline(db, release, generation)[k]
  {
    hide ArchivedHashes;
    if k.release == release && k.generation == generation && k.infoHash in ArchivedHashes(db, release) {
      assert SourceKey(release, generation, k.infoHash) == k;
    }
  }

  /** A new generation of `release` begins with baseline `earlier`. */
  ghost predicate Begins(w: World, v: World, release: int, p: Policy, earlier: set<string>) {
    && (release in w.db.policies ==> p.generation == w.db.policies[release].generation + 1)
    && (release !in w.db.policies ==> p.generation == 1)
    && v.db.autos == w.db.autos && v.db.policies == w.db.policies[release := p] && p.participating
    && v.baselines == w.baselines[(release, p.generation) := earlier]
    && (forall k :: k in v.db.sources <==>
          k in w.db.sources || (k.release == release && k.generation == p.generation && k.infoHash in earlier))
    && (forall k :: k in v.db.sources ==>
          v.db.sources[k] == if k.release == release && k.generation == p.generation && k.infoHash in earlier then true
                             else k in w.db.sources && w.db.sources[k])
  }

  lemma BeginningKeeps(w: World, v: World, release: int, p: Policy, earlier: set<string>)
    requires GenInv(w) && Begins(w, v, release, p, earlier)
    ensures GenInv(v)
  {
    assert (release, p.generation) !in w.baselines;
    assert BaselinesKnown(v) && JoinedHaveBaseline(v);
    assert SourcesMatch(v);
    forall k | 0 <= k < |v.db.autos| ensures RowGenerationOk(v, v.db.autos[k]) { assert RowGenerationOk(w, w.db.autos[k]); }
  }

  /** Only the switch of one policy changed. */
  ghost predicate Switches(w: World, v: World, release: int) {
    && v.db.sources == w.db.sources && v.baselines == w.baselines && SameRows(w.db.autos, v.db.autos) && |v.db.autos| == |w.db.autos|
    && (v.db.policies == w.db.policies ||
        (release in v.db.policies && v.db.policies == w.db.policies[release := v.db.policies[release]] &&
         (v.db.policies[release].participating ==>
            release in w.db.policies && w.db.policies[release].participating) &&
         v.db.policies[release].generation == PolicyFor(w.db, release).generation))
  }

  lemma SwitchKeeps(w: World, v: World, release: int)
    requires GenInv(w) && Switches(w, v, release)
    ensures GenInv(v)
  {
    assert BaselinesKnown(v) && JoinedHaveBaseline(v);
    forall k | 0 <= k < |v.db.autos|
      ensures RowGenerationOk(v, v.db.autos[k])
    {
      assert SameRow(w.db.autos[k], v.db.autos[k]);
      assert RowGenerationOk(w, w.db.autos[k]);
    }
  }

  ghost predicate SameTables(a: Db, b: Db) {
    b.sources == a.sources && b.policies == a.policies && b.archives == a.archives && b.autos == a.autos
  }

  /** The policy, sources and baseline of a release that joins in. */
  lemma JoinedTables(w: World, db: Db, release: int)
    requires SameTables(w.db, db) && db.initialized && !PolicyFor(db, release).participating
    ensures var v, p := Remember(w, release, TrackingChanged(db, release, true)), PolicyFor(db, release);
      var next := p.(participating := true, generation := p.generation + 1);
      && v.db.autos == w.db.autos && v.db.policies == w.db.policies[release := next] && PolicyFor(v.db, release) == next
      && v.baselines == w.baselines[(release, next.generation) := ArchivedHashes(w.db, release)]
      && v.db.sources == w.db.sources + Baseline(db, release, next.generation)
  {
    hide Baseline, ArchivedHashes, StopAll;
  }

  /** Joining in begins a new generation, or changes nothing of it. */
  lemma JoinShape(w: World, db: Db, v: World, release: int)
    requires SameTables(w.db, db) && v == Remember(w, release, TrackingChanged(db, release, true))
    ensures v.db.autos == w.db.autos
    ensures if db.initialized && !PolicyFor(db, release).participating
            then Begins(w, v, release, PolicyFor(v.db, release), ArchivedHashes(w.db, release))
            else Switches(w, v, release)
  {
    hide Baseline, ArchivedHashes, StopAll;
    if db.initialized && !PolicyFor(db, release).participating {
      JoinedTables(w, db, release);
      hide TrackingChanged, Remember;
      SameArchives(w.db, db, release);
      var g := PolicyFor(db, release).generation + 1;
      forall k: SourceKey
        ensures k in Baseline(db, release, g) <==> k.release == release && k.generation == g && k.infoHash in ArchivedHashes(db, release)
        ensures k in Baseline(db, release, g) ==> Baseline(db, release, g)[k]
      {
        InBaseline(db, release, g, k);
      }
    }
  }

  lemma JoinKeepsGenerations(w: World, db: Db, v: World, release: int)
    requires GenInv(w) && SameTables(w.db, db)
    requires v == Remember(w, release, TrackingChanged(db, release, true))
    ensures GenInv(v) && v.db.autos == w.db.autos
  {
    JoinShape(w, db, v, release);
    hide GenInv, Begins, Switches, TrackingChanged, ArchivedHashes, Remember;
    if db.initialized && !PolicyFor(db, release).participating {
      BeginningKeeps(w, v, release, PolicyFor(v.db, release), ArchivedHashes(w.db, release));
    } else {
      SwitchKeeps(w, v, release);
    }
  }

  lemma SameArchives(a: Db, b: Db, release: int)
    requires a.archives == b.archives
    ensures ArchivedHashes(a, release) == ArchivedHashes(b, release)
  {}

  lemma StopSameRows(db: Db, release: int)
    ensures SameRows(db.autos, StopAll(db, release))
  {
    hide Stopped;
  }

  lemma LeaveKeepsGenerations(w: World, db: Db, v: World, release: int)
    requires GenInv(w) && SameTables(w.db, db)
    requires v == Remember(w, release, TrackingChanged(db, release, false))
    ensures GenInv(v) && |v.db.autos| == |w.db.autos| && SameRows(w.db.autos, v.db.autos)
  {
    StopSameRows(db, release);
    hide ArchivedHashes, StopAll, GenInv;
    SwitchKeeps(w, v, release);
  }

  /** A version seen for the first time in this generation is a new source of it. */
  lemma NewSourceKeeps(w: World, v: World, key: SourceKey)
    requires GenInv(w) && v.db == w.db.(archives := v.db.archives, sources := v.db.sources) && v.baselines == w.baselines
    requires v.db.sources == if key in w.db.sources then w.db.sources else w.db.sources[key := false]
    requires (key.release, key.generation) in w.baselines
    ensures GenInv(v)
  {
    forall k | 0 <= k < |v.db.autos|
      ensures RowGenerationOk(v, v.db.autos[k])
    {
      assert RowGenerationOk(w, w.db.autos[k]);
    }
  }

  lemma JoinedParticipates(db: Db, release: int)
    requires db.initialized
    ensures var on := TrackingChanged(db, release, true);
      release in on.policies && on.policies[release].participating && PolicyFor(on, release) == on.policies[release]
    ensures TrackingChanged(db, release, true).archives == db.archives
  {
    hide Baseline;
  }

  lemma ObserveKeepsGenerations(w: World, e: Event)
    requires GenInv(w) && e.Observe?
    ensures GenInv(Apply(w, e)) && Apply(w, e).db.autos == w.db.autos
  {
    hide EnabledQueue, EnabledRequest, ApplyQueue, ApplyRequest;
    var v := Apply(w, e);
    if w.db.initialized && e.release in w.db.tracked {
      var joined := TrackingChanged(w.db, e.release, true);
      var mid := Remember(w, e.release, joined);
      JoinKeepsGenerations(w, w.db, mid, e.release);
      JoinedParticipates(w.db, e.release);
      hide TrackingChanged, ArchivedHashes;
      NewSourceKeeps(mid, v, SourceKey(e.release, PolicyFor(joined, e.release).generation, e.infoHash));
    } else {
      assert forall k :: 0 <= k < |w.db.autos| && RowGenerationOk(w, w.db.autos[k]) ==> RowGenerationOk(v, v.db.autos[k]);
    }
  }

  lemma TrackKeepsGenerations(w: World, e: Event)
    requires GenInv(w) && e.Track?
    ensures GenInv(Apply(w, e)) && |Apply(w, e).db.autos| == |w.db.autos| && SameRows(w.db.autos, Apply(w, e).db.autos)
  {
    hide EnabledQueue, EnabledRequest, ApplyQueue, ApplyRequest;
    hide GenInv, TrackingChanged, Remember;
    var db := w.db.(tracked := if e.on then w.db.tracked + {e.release} else w.db.tracked - {e.release});
    if e.on { JoinKeepsGenerations(w, db, Apply(w, e), e.release); SelfSameRows(w.db.autos); }
    else { LeaveKeepsGenerations(w, db, Apply(w, e), e.release); }
  }

  lemma SelfSameRows(autos: seq<Auto>)
    ensures SameRows(autos, autos)
  {}

  lemma SaveKeepsGenerations(w: World, e: Event)
    requires GenInv(w) && Enabled(w, e) && e.SavePresets?
    ensures GenInv(Apply(w, e)) && |Apply(w, e).db.autos| == |w.db.autos| && SameRows(w.db.autos, Apply(w, e).db.autos)
  {
    hide EnabledQueue, EnabledRequest, ApplyQueue, ApplyRequest;
    hide AwaitsPreset, GenInv;
    SwitchKeeps(w, Apply(w, e), e.release);
  }

  lemma RegisteredRowOk(w: World, fileId: int, explicit: bool, a: Auto)
    requires GenInv(w) && fileId in w.db.files && MayRegister(w.db, w.db.files[fileId], explicit)
    requires a.id == w.db.files[fileId] && a.generation == w.db.policies[a.id.release].generation && a.explicit == explicit
    ensures RowGenerationOk(w, a)
  {}

  lemma RegisterKeepsGenerations(w: World, e: Event)
    requires GenInv(w) && Enabled(w, e) && e.Register?
    ensures GenInv(Apply(w, e)) && SameRows(w.db.autos, Apply(w, e).db.autos)
  {
    hide EnabledQueue, EnabledRequest, ApplyQueue, ApplyRequest;
    hide RegisterFile, MayRegister, RowGenerationOk;
    RegisterShape(w.db, e.fileId, e.explicit, w.now);
    var v := Apply(w, e);
    forall k | 0 <= k < |v.db.autos|
      ensures RowGenerationOk(v, v.db.autos[k])
    {
      if k < |w.db.autos| { RowElsewhere(w, v, w.db.autos[k], v.db.autos[k]); }
      else {
        RegisteredRowOk(w, e.fileId, e.explicit, v.db.autos[k]);
        RowElsewhere(w, v, v.db.autos[k], v.db.autos[k]);
      }
    }
  }

  lemma RowElsewhere(w: World, v: World, a: Auto, b: Auto)
    requires RowGenerationOk(w, a) && v.baselines == w.baselines && SameRow(a, b)
    ensures RowGenerationOk(v, b)
  {}

  lemma OneSameRow(autos: seq<Auto>, a: nat, b: Auto)
    requires a < |autos| && SameRow(autos[a], b)
    ensures SameRows(autos, autos[a := b])
  {}

  /** Every step keeps the generations consistent and every row's release, version and generation. */
  lemma GenerationStep(w: World, e: Event)
    requires GenInv(w)
    ensures GenInv(Next(w, e)) && SameRows(w.db.autos, Next(w, e).db.autos)
  {
    hide GenInv, Enabled, Apply;
    SelfSameRows(w.db.autos);
    if Enabled(w, e) {
      if e.Track? { TrackKeepsGenerations(w, e); }
      else if e.Observe? { ObserveKeepsGenerations(w, e); }
      else if e.Register? { RegisterKeepsGenerations(w, e); }
      else if e.SavePresets? { SaveKeepsGenerations(w, e); }
      else { OthersKeepCatalogue(w, e); SameCatalogueKeeps(w, Apply(w, e)); }
    }
  }

  lemma {:induction false} GenerationsHold(w: World, es: seq<Event>)
    requires GenInv(w)
    ensures GenInv(Run(w, es))
  {
    hide GenInv, Next;
    if es != [] {
      GenerationsHold(w, es[..|es| - 1]);
      GenerationStep(Run(w, es[..|es| - 1]), es[|es| - 1]);
    }
  }

  // ---- what that means over whole runs --------------------------------------------------

  lemma GenInvFacts(w: World)
    requires GenInv(w)
    ensures BaselinesKnown(w) && RowsMatch(w)
  {}

  lemma CatalogueBaselines(w: World, e: Event)
    requires e.Track? || e.Observe?
    ensures exists db: Db :: Apply(w, e) == Remember(w, e.release, db)
  {
    hide EnabledQueue, EnabledRequest, ApplyQueue, ApplyRequest;
    hide TrackingChanged, Remember;
    if e.Track? { assert Apply(w, e) == Remember(w, e.release, SetTracked(w.db, e.release, e.on)); }
    else { assert Apply(w, e) == Remember(w, e.release, ObserveArchive(w.db, e.release, e.infoHash)); }
  }

  lemma RegisterBaselines(w: World, e: Event)
    requires Enabled(w, e) && (e.Register? || e.SavePresets?)
    ensures Apply(w, e).baselines == w.baselines
  {
    hide EnabledQueue, EnabledRequest, ApplyQueue, ApplyRequest;
    hide RegisterFile, SavePolicy;
  }

  /** A step keeps every baseline, and adds one only for a generation that begins there. */
  lemma BaselineStep(w: World, e: Event)
    requires GenInv(w)
    ensures var v := Next(w, e);
      && (forall key :: key in w.baselines ==> key in v.baselines && v.baselines[key] == w.baselines[key])
      && (forall r, g :: (r, g) in v.baselines && (r, g) !in w.baselines ==>
            && PolicyFor(w.db, r).generation < g == PolicyFor(v.db, r).generation
            && v.baselines[(r, g)] == ArchivedHashes(w.db, r))
  {
    hide Enabled, Apply, ArchivedHashes;
    GenInvFacts(w);
    hide GenInv;
    if Enabled(w, e) {
      if e.Track? || e.Observe? {
        CatalogueBaselines(w, e);
        var db :| Apply(w, e) == Remember(w, e.release, db);
        assert forall g :: (e.release, g) in w.baselines ==> g <= PolicyFor(w.db, e.release).generation;
      }
      else if e.Register? || e.SavePresets? { RegisterBaselines(w, e); }
      else { OthersKeepCatalogue(w, e); }
    }
  }

  lemma GenerationsAtFirst(w: World)
    requires Initial(w)
    ensures GenInv(w)
  {}

  /** The step of the run at which a generation began, and what it took as its baseline. */
  lemma {:induction false} BaselineIsHistory(w: World, es: seq<Event>, r: int, g: nat) returns (n: nat)
    requires Initial(w) && (r, g) in Run(w, es).baselines
    ensures n < |es|
    ensures PolicyFor(Run(w, es[..n]).db, r).generation < g == PolicyFor(Run(w, es[..n + 1]).db, r).generation
    ensures Run(w, es).baselines[(r, g)] == ArchivedHashes(Run(w, es[..n]).db, r)
  {
    hide Initial, GenInv, Next, ArchivedHashes, PolicyFor;
    NoBaselineAtFirst(w);
    GenerationsAtFirst(w);
    var last := |es| - 1;
    var u := Run(w, es[..last]);
    GenerationsHold(w, es[..last]);
    BaselineStep(u, es[last]);
    if (r, g) in u.baselines {
      n := BaselineIsHistory(w, es[..last], r, g);
      assert es[..last][..n] == es[..n] && es[..last][..n + 1] == es[..n + 1];
    } else {
      n := last;
      assert es[..n + 1] == es;
    }
  }

  lemma NoBaselineAtFirst(w: World)
    requires Initial(w)
    ensures w.baselines == map[] && GenInv(w)
  {}

  /**
   A row queued without an explicit request, in generation `g`, is for a version
   that was not archived when the run reached generation `g` of its release.
   */
  lemma QueuedVersionsAreNew(w: World, es: seq<Event>, k: nat) returns (n: nat)
    requires Initial(w) && k < |Run(w, es).db.autos| && !Run(w, es).db.autos[k].explicit
    ensures n < |es|
    ensures var a, u := Run(w, es).db.autos[k], Run(w, es[..n]);
      && PolicyFor(u.db, a.id.release).generation < a.generation == PolicyFor(Run(w, es[..n + 1]).db, a.id.release).generation
      && (a.id.release, a.id.infoHash) !in u.db.archives
  {
    hide GenInv, Run, PolicyFor;
    GenerationsAtFirst(w);
    GenerationsHold(w, es);
    GenInvFacts(Run(w, es));
    var a := Run(w, es).db.autos[k];
    assert RowGenerationOk(Run(w, es), a);
    n := BaselineIsHistory(w, es, a.id.release, a.generation);
    InArchived(Run(w, es[..n]).db, a.id.release, a.id.infoHash);
  }

  // ---- untracking and older generations ----------------------------------------------------

  predicate TracksAgain(e: Event, release: int) {
    e.Track? && e.on && e.release == release
  }

  lemma ChangeGrows(db: Db, release: int, on: bool)
    ensures var next := TrackingChanged(db, release, on);
      next.tracked == db.tracked && forall r :: PolicyFor(db, r).generation <= PolicyFor(next, r).generation
  {
    hide StopAll, Baseline;
  }

  lemma CatalogueTracked(w: World, e: Event)
    requires Enabled(w, e) && (e.Track? || e.Observe?)
    ensures Apply(w, e).db.tracked == if !e.Track? then w.db.tracked else if e.on then w.db.tracked + {e.release} else w.db.tracked - {e.release}
    ensures forall r :: PolicyFor(w.db, r).generation <= PolicyFor(Apply(w, e).db, r).generation
  {
    hide EnabledQueue, EnabledRequest, ApplyQueue, ApplyRequest;
    hide TrackingChanged, ArchivedHashes;
    if e.Track? {
      var db := w.db.(tracked := if e.on then w.db.tracked + {e.release} else w.db.tracked - {e.release});
      ChangeGrows(db, e.release, e.on);
      assert forall r :: PolicyFor(db, r) == PolicyFor(w.db, r);
    } else {
      ChangeGrows(w.db, e.release, true);
    }
  }

  lemma RegisterTracked(w: World, e: Event)
    requires Enabled(w, e) && (e.Register? || e.SavePresets?)
    ensures Apply(w, e).db.tracked == w.db.tracked
    ensures forall r :: PolicyFor(w.db, r).generation <= PolicyFor(Apply(w, e).db, r).generation
  {
    hide EnabledQueue, EnabledRequest, ApplyQueue, ApplyRequest;
    hide RegisterFile, Wake;
    if e.Register? { RegisterShape(w.db, e.fileId, e.explicit, w.now); }
  }

  lemma TrackedStep(w: World, e: Event)
    ensures var v := Next(w, e);
      && (forall r :: r in v.db.tracked ==> r in w.db.tracked || TracksAgain(e, r))
      && (forall r :: PolicyFor(w.db, r).generation <= PolicyFor(v.db, r).generation)
  {
    hide Enabled, Apply;
    if Enabled(w, e) {
      if e.Track? || e.Observe? { CatalogueTracked(w, e); }
      else if Catalogues(e) { RegisterTracked(w, e); } else { OthersKeepCatalogue(w, e); }
    }
  }

  lemma {:induction false} StaysUntracked(w: World, es: seq<Event>, release: int)
    requires release !in w.db.tracked && forall e :: e in es ==> !TracksAgain(e, release)
    ensures release !in Run(w, es).db.tracked
  {
    hide Next, PolicyFor;
    if es != [] {
      StaysUntracked(w, es[..|es| - 1], release);
      TrackedStep(Run(w, es[..|es| - 1]), es[|es| - 1]);
      assert es[|es| - 1] in es;
    }
  }

  /** Once a release is untracked, none of its automatic requests becomes durable until it is tracked again. */
  lemma UntrackedSendsNothing(w: World, es: seq<Event>, e: Event, g: nat, release: int)
    requires Inv(w) && release !in w.db.tracked && forall x :: x in es ==> !TracksAgain(x, release)
    requires var u := Run(w, es); Starts(u, e, g) && u.db.groups[g].origin.Automatic?
    ensures var u := Run(w, es);
      u.db.groups[g].origin.item < |u.db.autos| && u.db.autos[u.db.groups[g].origin.item].id.release != release
  {
    hide Inv, Run, Starts, Enabled, Apply;
    RunHolds(w, es);
    StaysUntracked(w, es, release);
    MayRunAtIntent(Run(w, es), e, g);
  }

  lemma MayRunAtIntent(u: World, e: Event, g: nat)
    requires Inv(u) && Starts(u, e, g) && u.db.groups[g].origin.Automatic?
    ensures u.db.groups[g].origin.item < |u.db.autos|
    ensures var a := u.db.autos[u.db.groups[g].origin.item];
      a.id.release in u.db.tracked && PolicyFor(u.db, a.id.release).generation == a.generation
  {
    hide Inv, Starts, Enabled, Apply;
    IntentStep(u, e, g);
  }

  lemma {:induction false} GenerationsGrow(w: World, es: seq<Event>, r: int)
    requires GenInv(w)
    ensures PolicyFor(w.db, r).generation <= PolicyFor(Run(w, es).db, r).generation
    ensures SameRows(w.db.autos, Run(w, es).db.autos)
  {
    hide GenInv, Next, PolicyFor, SameRows, Run;
    RunUnfolds(w, es);
    if es == [] { SelfSameRows(w.db.autos); }
    else {
      var u := Run(w, es[..|es| - 1]);
      GenerationsGrow(w, es[..|es| - 1], r);
      GenerationsHold(w, es[..|es| - 1]);
      GenerationStep(u, es[|es| - 1]);
      TrackedStep(u, es[|es| - 1]);
      SameRowsChain(w.db.autos, u.db.autos, Run(w, es).db.autos);
    }
  }

  lemma RunUnfolds(w: World, es: seq<Event>)
    ensures Run(w, es) == if es == [] then w else Next(Run(w, es[..|es| - 1]), es[|es| - 1])
  {
    hide Next;
  }

  lemma SameRowsChain(a: seq<Auto>, b: seq<Auto>, c: seq<Auto>)
    requires SameRows(a, b) && SameRows(b, c)
    ensures SameRows(a, c)
  {
    forall k | 0 <= k < |a| ensures SameRow(a[k], c[k]) { assert SameRow(a[k], b[k]) && SameRow(b[k], c[k]); }
  }

  /** A row of an older generation never sends again, however often its release is tracked later. */
  lemma OlderNeverSends(w: World, es: seq<Event>, e: Event, g: nat, k: nat)
    requires Inv(w) && GenInv(w) && k < |w.db.autos|
    requires w.db.autos[k].generation < PolicyFor(w.db, w.db.autos[k].id.release).generation
    requires var u := Run(w, es); Starts(u, e, g)
    ensures Run(w, es).db.groups[g].origin != Automatic(k)
  {
    hide Inv, GenInv, Run, Starts, Enabled, Apply, PolicyFor;
    var u := Run(w, es);
    RunHolds(w, es);
    GenerationsGrow(w, es, w.db.autos[k].id.release);
    assert SameRow(w.db.autos[k], u.db.autos[k]);
    StartsAt(u, e, g);
    if u.db.groups[g].origin == Automatic(k) { MayRunAtIntent(u, e, g); }
  }

  lemma StartsAt(u: World, e: Event, g: nat)
    requires Starts(u, e, g)
    ensures g < |u.db.groups|
  {}
}
