/** Over whole runs, a row's attempts are exactly the claims it was given. */
module RunClaims {
  import opened Json
  import opened EncoderHistory
  import opened EncoderTables
  import opened EncoderRuns
  import opened ReceiptSteps
  import opened FlightInvariant
  import opened QueueInvariant
  import opened QueueSteps
  import opened QueueClaims
  import opened RunSafety
  import opened IntentPermission
  import opened RowLaws
  import opened QueueLaws

  /** The tokens handed out for row `k`. */
  function TokensOf(issued: map<nat, nat>, k: nat): set<nat> {
    set t | t in issued && issued[t] == k
  }

  ghost predicate AttemptsCounted(w: World) {
    && (forall t :: t in w.issued ==> w.issued[t] < |w.db.autos|)
    && (forall k: nat :: k < |w.db.autos| ==> w.db.autos[k].attempts == |TokensOf(w.issued, k)|)
  }

  /** Rows keep their number of attempts, and new ones have none. */
  ghost predicate SameAttempts(autos: seq<Auto>, next: seq<Auto>) {
    && |autos| <= |next|
    && (forall k :: 0 <= k < |autos| ==> next[k].attempts == autos[k].attempts)
    && (forall k :: |autos| <= k < |next| ==> next[k].attempts == 0)
  }

  lemma TrackAttempts(w: World, e: Event)
    requires Enabled(w, e) && (e.Track? || e.Observe?)
    ensures SameAttempts(w.db.autos, Apply(w, e).db.autos)
  {
    hide EnabledQueue, EnabledRequest, ApplyQueue, ApplyRequest;
    hide TrackingChanged, PolicyFor, ArchivedHashes;
    if e.Track? {
      TrackingFacts(w.db.(tracked := if e.on then w.db.tracked + {e.release} else w.db.tracked - {e.release}), e.release, e.on);
    } else { TrackingFacts(w.db, e.release, true); }
  }

  lemma RegisterAttempts(w: World, e: Event)
    requires Enabled(w, e) && e.Register?
    ensures SameAttempts(w.db.autos, Apply(w, e).db.autos)
  {
    hide EnabledQueue, EnabledRequest, ApplyQueue, ApplyRequest;
    hide MayRegister, FindItem;
  }

  lemma CatalogueAttempts(w: World, e: Event)
    requires Enabled(w, e) && IsCatalogue(e)
    ensures SameAttempts(w.db.autos, Apply(w, e).db.autos)
  {
    hide EnabledQueue, EnabledRequest, ApplyQueue, ApplyRequest;
    if e.Track? || e.Observe? { hide Enabled, Apply; TrackAttempts(w, e); }
    else if e.Register? { hide Enabled, Apply; RegisterAttempts(w, e); }
    else { hide SetTracked, ObserveArchive, RegisterFile, PolicyFor, AwaitsPreset, ExpireAll; }
  }

  lemma SettledAttempts(db: Db, a: nat, g: nat, now: int)
    requires a < |db.autos| && g < |db.groups|
    ensures SameAttempts(db.autos, SettleItem(db, a, g, now).autos)
  {
    hide Receipts, AnyHas, Backoff;
  }

  lemma ReconcileAttempts(w: World, e: Event)
    requires Enabled(w, e) && e.Reconcile?
    ensures SameAttempts(w.db.autos, Apply(w, e).db.autos)
  {
    hide EnabledCatalogue, EnabledRequest, ApplyCatalogue, ApplyRequest;
    ReconciledRow(w.db, e.item, e.facts, w.now);
    hide ReconcileItem, FactsFit, Due, Assess, SettleAuto;
  }

  lemma ConflictAttempts(w: World, token: nat)
    requires AdoptsLine(w, token)
    ensures SameAttempts(w.db.autos, DoSettleConflict(w, token).db.autos)
  {
    var a, prior := w.senders[token].auto, w.senders[token].step.prior;
    var db := w.db.(autos := w.db.autos[a := w.db.autos[a].(receipt := Some(prior))]);
    SettledAttempts(db, a, prior.group, w.now);
    hide SettleItem;
  }

  lemma EndAttempts(w: World, token: nat)
    requires token in w.senders
    ensures SameAttempts(w.db.autos, DoEndTick(w, token).db.autos)
  {
    if HoldsToken(w, token) {
      var a := w.senders[token].auto;
      var r := w.db.autos[a].receipt;
      if r.Some? && r.value.group < |w.db.groups| { SettledAttempts(w.db, a, r.value.group, w.now); }
    }
    hide SettleItem;
  }

  lemma RecoveryAttempts(w: World, g: nat, answer: Answer, changed: set<nat>)
    requires g < |w.db.groups|
    requires w.db.groups[g].origin.Automatic? ==> w.db.groups[g].origin.item < |w.db.autos|
    ensures SameAttempts(w.db.autos, DoRecover(w, g, answer, changed).db.autos)
  {
    hide Recover, SettleItem;
    if w.db.groups[g].origin.Automatic? {
      var next := WithGroup(w, g, Recover(w.db.groups[g], answer, changed, w.now));
      SettledAttempts(next.db, w.db.groups[g].origin.item, g, w.now);
    }
  }

  lemma DeniedAttempts(db: Db, a: nat, token: nat, snapshot: Json, f: Facts, now: int)
    requires a < |db.autos| && Validate(db, a, token, snapshot, f, now).Denied?
    ensures Validate(db, a, token, snapshot, f, now).auto.attempts == db.autos[a].attempts
  {
    AssessedShape(db, db.autos[a], f);
    hide Assess;
  }

  lemma CommitAttempts(w: World, g: nat, ok: set<nat>, sameServer: bool, snapshot: Json, f: Facts)
    requires ReadyToCommit(w, g)
    ensures SameAttempts(w.db.autos, DoCommit(w, g, ok, sameServer, snapshot, f).db.autos)
  {
    CommitShape(w, g, ok, sameServer, snapshot, f);
    hide Validate, DoCommit, DoAbort, Recheck, QueueFrame, SameAttempts;
    var v, r := DoCommit(w, g, ok, sameServer, snapshot, f), w.db.groups[g];
    if QueueFrame(w, v) { FrameAttempts(w, v); }
    else {
      var a := r.origin.item;
      var row := Validate(w.db, a, w.owners[g].token.value, snapshot, f, w.now).auto;
      DeniedAttempts(w.db, a, w.owners[g].token.value, snapshot, f, w.now);
      OneRowAttempts(w.db.autos, a, row);
      AbortedRows(w.(db := w.db.(autos := w.db.autos[a := row])), g, Recheck(r.items, ok), snapshot);
    }
  }

  lemma OneRowAttempts(autos: seq<Auto>, a: nat, row: Auto)
    requires a < |autos| && row.attempts == autos[a].attempts
    ensures SameAttempts(autos, autos[a := row])
  {}

  lemma AbortedRows(w: World, g: nat, items: seq<Item>, snapshot: Json)
    requires g < |w.db.groups|
    ensures DoAbort(w, g, items, snapshot).db.autos == w.db.autos
  {
    hide FinishFailure;
  }

  lemma QueueAttempts(w: World, e: Event)
    requires Enabled(w, e) && (e.ReadOptions? || e.ConflictForTick? || e.CrashTick? || e.ClaimManual? || e.ClaimByTick?)
    ensures SameAttempts(w.db.autos, Apply(w, e).db.autos)
  {
    hide EnabledCatalogue, EnabledRequest, ApplyCatalogue, ApplyRequest;
    hide FreshRequest, ClaimChecks, TickRequest, Forbids, ExpireAll, NewGroup;
  }

  /** Only a claim changes a row's number of attempts. */
  lemma OthersKeepAttempts(w: World, e: Event)
    requires Enabled(w, e) && !e.ClaimNext?
    ensures SameAttempts(w.db.autos, Apply(w, e).db.autos) && Apply(w, e).issued == w.issued
  {
    hide Enabled, Apply, QueueFrame, IsCatalogue, SameAttempts, DoCommit, DoSettleConflict, DoEndTick, DoRecover;
    if e.Commit? {
      CommitIssuesNone(w, e);
      CommitApplied(w, e);
      CommitAttempts(w, e.group, e.ok, e.sameServer, e.snapshot, e.facts);
    } else if e.RecoverReceipt? {
      RecoveryIssuesNone(w, e);
      RecoverApplied(w, e);
      RecoveryAttempts(w, e.group, e.answer, e.changed);
    } else if ReceiptsOnly(e) {
      ReceiptsOnlyFrame(w, e);
      FrameAttempts(w, Apply(w, e));
    } else if IsQueue(e) {
      QueueIssuesNone(w, e);
      if e.Reconcile? { ReconcileAttempts(w, e); }
      else if e.SettleConflict? { ConflictApplied(w, e); ConflictAttempts(w, e.token); }
      else if e.EndTick? { EndApplied(w, e); EndAttempts(w, e.token); }
      else { QueueAttempts(w, e); }
    } else {
      OtherIsCatalogue(e);
      CatalogueIssuesNone(w, e);
      CatalogueAttempts(w, e);
    }
  }

  lemma FrameAttempts(w: World, v: World)
    requires QueueFrame(w, v)
    ensures SameAttempts(w.db.autos, v.db.autos) && v.issued == w.issued
  {}

  lemma MoreTokens(issued: map<nat, nat>, token: nat, a: nat, k: nat)
    requires token !in issued
    ensures |TokensOf(issued[token := a], k)| == |TokensOf(issued, k)| + (if k == a then 1 else 0)
  {
    var next := issued[token := a];
    assert TokensOf(next, k) == if k == a then TokensOf(issued, k) + {token} else TokensOf(issued, k);
  }

  lemma ClaimCounts(w: World, a: nat, f: Facts, token: nat)
    requires AttemptsCounted(w) && a < |w.db.autos| && token !in w.issued && w.db.autos[a].state == Ready
    ensures AttemptsCounted(DoClaimNext(w, a, f, token))
  {
    ClaimedExactlyWhen(w.db, a, f, token, w.now);
    hide ClaimAuto, TokensOf, Unobstructed, NoCarrier;
    forall k ensures |TokensOf(w.issued[token := a], k)| == |TokensOf(w.issued, k)| + (if k == a then 1 else 0) {
      MoreTokens(w.issued, token, a, k);
    }
  }

  lemma NoTokens(issued: map<nat, nat>, k: nat, n: nat)
    requires (forall t :: t in issued ==> issued[t] < n) && n <= k
    ensures |TokensOf(issued, k)| == 0
  {
    assert TokensOf(issued, k) == {};
  }

  lemma SameCount(w: World, v: World)
    requires AttemptsCounted(w) && SameAttempts(w.db.autos, v.db.autos) && v.issued == w.issued
    ensures AttemptsCounted(v)
  {
    forall k: nat | |w.db.autos| <= k ensures |TokensOf(w.issued, k)| == 0 { NoTokens(w.issued, k, |w.db.autos|); }
    hide TokensOf;
  }

  /** Every step keeps the count. */
  lemma CountStep(w: World, e: Event)
    requires AttemptsCounted(w) && Enabled(w, e)
    ensures AttemptsCounted(Apply(w, e))
  {
    hide Enabled, Apply, AttemptsCounted, SameAttempts, DoClaimNext;
    if e.ClaimNext? { ClaimNextFacts(w, e); ClaimCounts(w, e.item, e.facts, e.token); }
    else { OthersKeepAttempts(w, e); SameCount(w, Apply(w, e)); }
  }

  /**
   After any run, each row has made exactly as many attempts as tokens were
   handed out for it: the pause after a failure grows with the claims, with
   nothing else, and no claim goes uncounted.
   */
  lemma {:induction false} AttemptsCountClaims(w: World, es: seq<Event>)
    requires Initial(w)
    ensures AttemptsCounted(Run(w, es))
  {
    if es != [] {
      var before, e := es[..|es| - 1], es[|es| - 1];
      AttemptsCountClaims(w, before);
      hide Run, Enabled, Apply, AttemptsCounted, Initial;
      var u := Run(w, before);
      if Enabled(u, e) { CountStep(u, e); }
      RunUnfolds(w, es);
    }
  }

  lemma RunUnfolds(w: World, es: seq<Event>)
    requires es != []
    ensures Run(w, es) == Next(Run(w, es[..|es| - 1]), es[|es| - 1])
  {}
}
