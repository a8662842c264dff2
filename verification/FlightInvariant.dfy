/** Receipts in flight: one POST per request, after its intent, and nothing posted is ever "not sent". */
module FlightInvariant {
  import opened Json
  import opened EncoderHistory
  import opened EncoderTables
  import opened EncoderRuns
  import opened ReceiptSteps
  import RepairReceipt

  function OwnerOf(w: World, g: nat): Option<Owner> {
    if g in w.owners then Some(w.owners[g]) else None
  }

  /** Every file of the request's payload may have reached the encoder. */
  ghost predicate NothingUnsent(r: Group) {
    forall i :: i in r.payload && i < |r.items| ==> r.items[i].status != NotSent
  }

  /** One receipt against its owner and against what the encoder saw. */
  ghost predicate FlightOk(r: Group, owner: Option<Owner>, posts: nat, received: bool, recoveries: nat) {
    && posts <= 1
    && (posts > 0 || recoveries > 0 ==> r.startedAt.Some?)
    && (received ==> posts == 1 && NothingUnsent(r))
    && (owner.Some? ==>
          && (owner.value.token.Some? <==> r.origin.Automatic?)
          && (owner.value.phase in {Preparing, Prepared} <==> r.startedAt.None?)
          && (owner.value.phase == Committed ==> posts == 0 && NothingUnsent(r))
          && (owner.value.phase == Posted(false) ==> !received))
  }

  ghost predicate FlightInv(w: World) {
    && (forall g :: 0 <= g < |w.db.groups| ==> GroupOk(w.db.groups[g]))
    && (forall g, h :: 0 <= g < h < |w.db.groups| ==> w.db.groups[g].requestId != w.db.groups[h].requestId)
    && (forall g: nat :: g < |w.db.groups| ==>
          FlightOk(w.db.groups[g], OwnerOf(w, g), w.posts[g], g in w.received, w.recoveries[g]))
    && (forall g: nat :: g in w.owners || w.posts[g] > 0 || g in w.received || w.recoveries[g] > 0 ==> g < |w.db.groups|)
    && (forall c :: c in w.created ==>
          c.group < |w.db.groups| && c.group in w.received && c.index in w.db.groups[c.group].payload)
  }

  predicate Evolved(gs: seq<Group>, hs: seq<Group>) {
    |gs| <= |hs| && forall g :: 0 <= g < |gs| ==> GroupEvolves(gs[g], hs[g])
  }

  /** Everything about the encoder and the workers except at one receipt is as before. */
  ghost predicate SameElsewhere(w: World, v: World, g: nat) {
    forall h: nat :: h != g ==>
      OwnerOf(v, h) == OwnerOf(w, h) && v.posts[h] == w.posts[h] && (h in v.received <==> h in w.received) &&
      v.recoveries[h] == w.recoveries[h]
  }

  lemma SameEvolves(g: Group)
    ensures GroupEvolves(g, g)
  {}

  lemma EvolvesFacts(a: Group, b: Group)
    requires GroupEvolves(a, b)
    ensures b.requestId == a.requestId && (a.startedAt.Some? ==> b.payload == a.payload && b.startedAt == a.startedAt)
    ensures b.origin == a.origin && |b.items| == |a.items|
  {}

  lemma FlightFacts(r: Group, owner: Option<Owner>, posts: nat, received: bool, recoveries: nat)
    requires FlightOk(r, owner, posts, received, recoveries)
    ensures received || posts > 0 || recoveries > 0 ==> r.startedAt.Some?
    ensures owner.Some? ==> (owner.value.phase in {Preparing, Prepared} <==> r.startedAt.None?)
    ensures owner.Some? ==> (owner.value.token.Some? <==> r.origin.Automatic?)
    ensures owner.Some? && owner.value.phase == Committed ==> posts == 0 && !received && NothingUnsent(r)
    ensures owner == Some(Owner(if owner.Some? then owner.value.token else None, Posted(false))) ==> !received
  {}

  lemma OneGroup(w: World, v: World, g: nat, r: Group)
    requires FlightInv(w) && g < |w.db.groups| && v.db.groups == w.db.groups[g := r]
    requires GroupOk(r) && GroupEvolves(w.db.groups[g], r) && SameElsewhere(w, v, g)
    requires FlightOk(r, OwnerOf(v, g), v.posts[g], g in v.received, v.recoveries[g])
    requires g in w.received ==> g in v.received
    requires forall c :: c in v.created ==> c in w.created || (c.group == g && g in v.received && c.index in r.payload)
    ensures FlightInv(v) && Evolved(w.db.groups, v.db.groups)
  {
    hide GroupOk, GroupEvolves, FlightOk;
    EvolvesFacts(w.db.groups[g], r);
    FlightFacts(w.db.groups[g], OwnerOf(w, g), w.posts[g], g in w.received, w.recoveries[g]);
    forall h | 0 <= h < |w.db.groups|
      ensures GroupEvolves(w.db.groups[h], v.db.groups[h])
    {
      SameEvolves(w.db.groups[h]);
    }
    forall h: nat | h < |v.db.groups|
      ensures FlightOk(v.db.groups[h], OwnerOf(v, h), v.posts[h], h in v.received, v.recoveries[h])
    {
      assert h != g ==> v.db.groups[h] == w.db.groups[h];
    }
    forall h: nat | h in v.owners || v.posts[h] > 0 || h in v.received || v.recoveries[h] > 0
      ensures h < |v.db.groups|
    {
      if h != g { assert OwnerOf(v, h) == OwnerOf(w, h); }
    }
    forall c | c in v.created
      ensures c.group < |v.db.groups| && c.group in v.received && c.index in v.db.groups[c.group].payload
    {
      if c in w.created && c.group != g { assert v.db.groups[c.group] == w.db.groups[c.group]; }
    }
  }

  /** Steps that leave receipts and traffic alone. */
  lemma Untouched(w: World, v: World)
    requires FlightInv(w) && v.db.groups == w.db.groups && v.owners == w.owners && v.posts == w.posts
    requires v.received == w.received && v.recoveries == w.recoveries && v.created == w.created
    ensures FlightInv(v) && Evolved(w.db.groups, v.db.groups)
  {
    hide GroupOk, GroupEvolves, FlightOk;
    forall g | 0 <= g < |w.db.groups|
      ensures GroupEvolves(w.db.groups[g], v.db.groups[g])
    {
      SameEvolves(w.db.groups[g]);
    }
    assert forall g :: OwnerOf(v, g) == OwnerOf(w, g);
  }

  lemma ExpiryKeepsFlight(w: World, v: World)
    requires FlightInv(w) && v == w.(db := v.db) && v.db.groups == ExpireAll(w.db.groups, w.now)
    ensures FlightInv(v) && Evolved(w.db.groups, v.db.groups)
  {
    forall g: nat | g < |w.db.groups|
      ensures GroupOk(v.db.groups[g]) && GroupEvolves(w.db.groups[g], v.db.groups[g])
      ensures v.db.groups[g].requestId == w.db.groups[g].requestId && v.db.groups[g].payload == w.db.groups[g].payload
      ensures FlightOk(v.db.groups[g], OwnerOf(v, g), v.posts[g], g in v.received, v.recoveries[g])
    {
      ExpireStep(w.db.groups[g], w.now);
      assert OwnerOf(v, g) == OwnerOf(w, g);
    }
  }

  lemma FreshGroupOk(db: Db, q: Request, now: int)
    requires FreshRequest(db, q) && (q.origin.Automatic? ==> |q.items| == 1)
    ensures GroupOk(NewGroup(q, now))
  {}

  lemma FreshFlightOk(q: Request, now: int, owner: Option<Owner>)
    requires owner.Some? && owner.value.phase == Preparing && (owner.value.token.Some? <==> q.origin.Automatic?)
    ensures FlightOk(NewGroup(q, now), owner, 0, false, 0)
  {}

  lemma ExpireKeepsId(g: Group, now: int)
    ensures Expire(g, now).requestId == g.requestId
  {}

  /** One more receipt, under a new request id and with its owner. */
  lemma AddedFlight(w: World, v: World, r: Group, owner: Owner)
    requires FlightInv(w) && GroupOk(r) && FlightOk(r, Some(owner), 0, false, 0)
    requires forall g :: 0 <= g < |w.db.groups| ==> w.db.groups[g].requestId != r.requestId
    requires v.db.groups == w.db.groups + [r] && v.owners == w.owners[|w.db.groups| := owner]
    requires v.posts == w.posts && v.received == w.received && v.recoveries == w.recoveries && v.created == w.created
    ensures FlightInv(v)
  {
    hide GroupOk, FlightOk;
    var n := |w.db.groups|;
    assert w.posts[n] == 0 && w.recoveries[n] == 0 && n !in w.received && n !in w.owners;
    forall g: nat | g < |v.db.groups|
      ensures GroupOk(v.db.groups[g])
      ensures FlightOk(v.db.groups[g], OwnerOf(v, g), v.posts[g], g in v.received, v.recoveries[g])
    {
      if g < n { assert OwnerOf(v, g) == OwnerOf(w, g); }
    }
  }

  lemma ClaimKeepsFlight(w: World, q: Request)
    requires FlightInv(w) && FreshRequest(w.db, q) && ClaimChecks(w, q) && (q.origin.Automatic? ==> |q.items| == 1)
    ensures FlightInv(DoClaim(w, q)) && Evolved(w.db.groups, DoClaim(w, q).db.groups)
  {
    hide FlightInv, GroupOk, GroupEvolves, FlightOk, FreshRequest, Clear, Expire;
    var mid := w.(db := w.db.(groups := ExpireAll(w.db.groups, w.now)));
    ExpiryKeepsFlight(w, mid);
    FreshGroupOk(w.db, q, w.now);
    var v, n := DoClaim(w, q), |w.db.groups|;
    FreshFlightOk(q, w.now, Some(v.owners[n]));
    forall g | 0 <= g < n
      ensures mid.db.groups[g].requestId != q.requestId
    {
      assert w.db.groups[g].requestId != q.requestId;
      ExpireKeepsId(w.db.groups[g], w.now);
    }
    AddedFlight(mid, v, NewGroup(q, w.now), v.owners[n]);
  }

  /** A receipt whose owner gives up before the intent. */
  lemma AbortKeepsFlight(w: World, u: World, g: nat, items: seq<Item>, snapshot: Json)
    requires FlightInv(w) && g < |w.db.groups| && w.db.groups[g].startedAt.None?
    requires u == w.(db := w.db.(autos := u.db.autos))
    requires var r := w.db.groups[g].(items := items, snapshot := snapshot); GroupOk(r) && GroupEvolves(w.db.groups[g], r)
    ensures FlightInv(DoAbort(u, g, items, snapshot)) && Evolved(w.db.groups, DoAbort(u, g, items, snapshot).db.groups)
  {
    var o, r := w.db.groups[g], w.db.groups[g].(items := items, snapshot := snapshot);
    hide FlightInv, Evolved, GroupOk, GroupEvolves, FlightOk, FinishFailure, WriteOff, NothingUnsent;
    FlightAt(w, g);
    FailureStep(r, false, "aborted", w.now);
    AbortEnds(r, w.now);
    AbortedFlight(o, r, FinishFailure(r, false, "aborted", w.now), OwnerOf(w, g), w.posts[g], g in w.received, w.recoveries[g]);
    AbortedGroups(w, u, g, items, snapshot);
    hide DoAbort, SameElsewhere, OwnerOf;
    OneGroup(w, DoAbort(u, g, items, snapshot), g, FinishFailure(r, false, "aborted", w.now));
  }

  lemma AbortedGroups(w: World, u: World, g: nat, items: seq<Item>, snapshot: Json)
    requires g < |w.db.groups| && u == w.(db := w.db.(autos := u.db.autos))
    ensures var r, v := w.db.groups[g].(items := items, snapshot := snapshot), DoAbort(u, g, items, snapshot);
      && v.db.groups == w.db.groups[g := FinishFailure(r, false, "aborted", w.now)]
      && SameElsewhere(w, v, g) && OwnerOf(v, g).None?
      && v.posts == w.posts && v.received == w.received && v.recoveries == w.recoveries && v.created == w.created
  {
    hide FinishFailure;
  }

  lemma AbortEnds(r: Group, now: int)
    ensures var end := FinishFailure(r, false, "aborted", now);
      |end.items| == |r.items| && forall i :: 0 <= i < |r.items| ==>
        end.items[i].status == NotSent || end.items[i].status == r.items[i].status
  {}

  lemma AbortedFlight(o: Group, r: Group, end: Group, owner: Option<Owner>, posts: nat, received: bool, recoveries: nat)
    requires GroupOk(o) && FlightOk(o, owner, posts, received, recoveries) && o.startedAt.None? && r.startedAt.None?
    requires GroupEvolves(o, r) && GroupEvolves(r, end) && end.startedAt == r.startedAt
    requires forall i :: 0 <= i < |r.items| ==> end.items[i].status == NotSent || end.items[i].status == r.items[i].status
    ensures FlightOk(end, None, posts, received, recoveries) && GroupEvolves(o, end)
  {
    forall i | 0 <= i < |o.items|
      ensures ItemEvolves(o.items[i], end.items[i])
    {
      assert ItemEvolves(o.items[i], r.items[i]) && ItemEvolves(r.items[i], end.items[i]);
    }
  }

  /** What the invariant says about one receipt. */
  lemma FlightAt(w: World, g: nat)
    requires FlightInv(w) && g < |w.db.groups|
    ensures GroupOk(w.db.groups[g])
    ensures FlightOk(w.db.groups[g], OwnerOf(w, g), w.posts[g], g in w.received, w.recoveries[g])
    ensures var r, owner := w.db.groups[g], OwnerOf(w, g);
      && (g in w.received || w.posts[g] > 0 || w.recoveries[g] > 0 ==> r.startedAt.Some?)
      && (owner.Some? ==> (owner.value.phase in {Preparing, Prepared} <==> r.startedAt.None?)
                          && (owner.value.token.Some? <==> r.origin.Automatic?)
                          && (owner.value.phase == Committed ==> w.posts[g] == 0 && g !in w.received && NothingUnsent(r))
                          && (owner.value.phase == Posted(false) ==> g !in w.received))
  {
    FlightFacts(w.db.groups[g], OwnerOf(w, g), w.posts[g], g in w.received, w.recoveries[g]);
  }

  /** A receipt that has not started evolves in two steps as in one. */
  lemma StartEvolves(a: Group, b: Group, c: Group)
    requires GroupEvolves(a, b) && GroupEvolves(b, c) && a.startedAt.None? && b.startedAt.None? && c.items == b.items
    ensures GroupEvolves(a, c)
  {}

  lemma StartedFlight(g: Group, now: int, owner: Option<Owner>)
    requires owner.Some? && owner.value.phase == Committed && (owner.value.token.Some? <==> g.origin.Automatic?)
    ensures FlightOk(StartRequest(g, g.items, now), owner, 0, false, 0)
  {}

  lemma StartKeepsFlight(w: World, g: nat, ok: set<nat>, snapshot: Json)
    requires FlightInv(w) && InPhase(w, g, Prepared)
    ensures var v := StartWith(w, g, Recheck(w.db.groups[g].items, ok), snapshot);
      FlightInv(v) && Evolved(w.db.groups, v.db.groups)
  {
    hide GroupOk, GroupEvolves, FlightOk, FlightInv, Evolved, Recheck, SendingSet, NothingUnsent;
    var r := w.db.groups[g];
    FlightAt(w, g);
    RecheckStep(r, ok, snapshot);
    var mid := r.(items := Recheck(r.items, ok), snapshot := snapshot);
    StartStep(mid, w.now);
    var v, started := StartWith(w, g, Recheck(r.items, ok), snapshot), StartRequest(mid, mid.items, w.now);
    StartEvolves(r, mid, started);
    StartedFlight(mid, w.now, OwnerOf(v, g));
    OneGroup(w, v, g, started);
  }

  lemma CommitKeepsFlight(w: World, g: nat, ok: set<nat>, sameServer: bool, snapshot: Json, f: Facts)
    requires FlightInv(w) && ReadyToCommit(w, g)
    ensures var v := DoCommit(w, g, ok, sameServer, snapshot, f); FlightInv(v) && Evolved(w.db.groups, v.db.groups)
  {
    hide GroupOk, GroupEvolves, FlightOk, Validate, FlightInv, Evolved, DoAbort, StartWith, FactsFit;
    var r := w.db.groups[g];
    FlightAt(w, g);
    RecheckStep(r, ok, snapshot);
    StartKeepsFlight(w, g, ok, snapshot);
    AbortKeepsFlight(w, w, g, Recheck(r.items, ok), snapshot);
    if r.origin.Automatic? {
      var a := r.origin.item;
      match Validate(w.db, a, w.owners[g].token.value, snapshot, f, w.now)
      case Granted =>
      case Denied(auto) =>
        AbortKeepsFlight(w, w.(db := w.db.(autos := w.db.autos[a := auto])), g, Recheck(r.items, ok), snapshot);
    }
  }

  lemma PostedFlight(r: Group, owner: Option<Owner>, delivered: bool)
    requires r.startedAt.Some? && NothingUnsent(r)
    requires owner.Some? && owner.value.phase == Posted(delivered) && (owner.value.token.Some? <==> r.origin.Automatic?)
    ensures FlightOk(r, owner, 1, delivered, 0)
    ensures forall n :: FlightOk(r, owner, 1, delivered, n)
  {}

  lemma PostKeepsFlight(w: World, g: nat, delivered: bool, creates: set<nat>)
    requires FlightInv(w) && Enabled(w, Post(g, delivered, creates))
    ensures var v := DoPost(w, g, delivered, creates); FlightInv(v) && Evolved(w.db.groups, v.db.groups)
  {
    hide EnabledCatalogue, EnabledQueue, ApplyCatalogue, ApplyQueue;
    hide GroupOk, GroupEvolves, FlightOk, FlightInv, Evolved, NothingUnsent;
    var v, r := DoPost(w, g, delivered, creates), w.db.groups[g];
    FlightAt(w, g);
    SameEvolves(r);
    PostedFlight(r, OwnerOf(v, g), delivered);
    assert v.posts[g] == 1;
    assert v.db.groups == w.db.groups[g := r];
    OneGroup(w, v, g, r);
  }

  lemma SettledFlight(o: Group, r: Group, owner: Option<Owner>, posts: nat, received: bool, recoveries: nat, fewer: nat)
    requires FlightOk(o, owner, posts, received, recoveries) && GroupOk(o)
    requires GroupEvolves(o, r) && KeepsPosted(o, r) && o.startedAt.Some? && fewer <= recoveries
    ensures FlightOk(r, owner, posts, received, fewer) && FlightOk(r, None, posts, received, fewer)
  {}

  /** A started receipt is decided further, with or without its owner. */
  lemma SettledKeepsFlight(w: World, v: World, g: nat, r: Group)
    requires FlightInv(w) && g < |w.db.groups| && w.db.groups[g].startedAt.Some?
    requires GroupOk(r) && GroupEvolves(w.db.groups[g], r) && KeepsPosted(w.db.groups[g], r)
    requires v.db.groups == w.db.groups[g := r] && SameElsewhere(w, v, g)
    requires OwnerOf(v, g) in {OwnerOf(w, g), None} && v.posts == w.posts && v.received == w.received
    requires v.created == w.created && v.recoveries[g] <= w.recoveries[g]
    ensures FlightInv(v) && Evolved(w.db.groups, v.db.groups)
  {
    hide GroupOk, GroupEvolves, FlightOk, FlightInv, Evolved, KeepsPosted;
    FlightAt(w, g);
    SettledFlight(w.db.groups[g], r, OwnerOf(w, g), w.posts[g], g in w.received, w.recoveries[g], v.recoveries[g]);
    OneGroup(w, v, g, r);
  }

  /** Every step keeps the invariant, and receipts only ever evolve. */
  lemma FlightNext(w: World, e: Event)
    requires FlightInv(w) && Enabled(w, e)
    ensures FlightInv(Apply(w, e)) && Evolved(w.db.groups, Apply(w, e).db.groups)
  {
    hide FlightInv, Evolved, Apply, Enabled;
    if e.ExpireReceipts? { ExpireReceiptsKeepsFlight(w, e); }
    else if e.ClaimManual? || e.ClaimByTick? { ClaimsKeepFlight(w, e); }
    else if e.Preflight? || e.Abort? { FlightBeforeIntent(w, e); }
    else if e.Commit? { CommitsKeepFlight(w, e); }
    else if e.Post? { PostsKeepFlight(w, e); }
    else if e.CrashOwner? || e.SelectReceipt? { CrashOrSelectKeepsFlight(w, e); }
    else if e.Reply? { ReplyKeepsFlight(w, e); }
    else if e.Refuse? { RefusalKeepsFlight(w, e); }
    else if e.Lose? { LossKeepsFlight(w, e); }
    else if e.Repair? { RepairKeepsFlight(w, e); }
    else if e.Undelivered? { UndeliveredKeepsFlight(w, e.group); }
    else if e.RecoverReceipt? { RecoverKeepsFlight(w, e.group, e.answer, e.changed); }
    else { OtherStepsKeepFlight(w, e); }
  }

  ghost predicate TouchesReceipts(e: Event) {
    e.ExpireReceipts? || e.ClaimManual? || e.ClaimByTick? || e.Preflight? || e.Abort? || e.Commit? || e.Post? ||
    e.CrashOwner? || e.SelectReceipt? || e.Reply? || e.Refuse? || e.Lose? || e.Undelivered? || e.RecoverReceipt? || e.Repair?
  }

  ghost predicate SameTraffic(w: World, v: World) {
    v.db.groups == w.db.groups && v.owners == w.owners && v.posts == w.posts &&
    v.received == w.received && v.recoveries == w.recoveries && v.created == w.created
  }

  lemma TrackingFrame(w: World, e: Event)
    requires Enabled(w, e) && (e.Track? || e.Observe?)
    ensures SameTraffic(w, Apply(w, e))
  {
    hide EnabledQueue, EnabledRequest, ApplyQueue, ApplyRequest;
    hide StopAll, Baseline, PolicyFor, ArchivedHashes;
  }

  lemma PolicyFrame(w: World, e: Event)
    requires Enabled(w, e) && (e.Register? || e.SavePresets?)
    ensures SameTraffic(w, Apply(w, e))
  {
    hide EnabledQueue, EnabledRequest, ApplyQueue, ApplyRequest;
    hide Wake, FindItem, MayRegister, PolicyFor;
  }

  lemma ReconcileFrame(w: World, e: Event)
    requires Enabled(w, e) && e.Reconcile?
    ensures SameTraffic(w, Apply(w, e))
  {
    hide EnabledCatalogue, EnabledRequest, ApplyCatalogue, ApplyRequest;
    hide FactsFit, Due, ReconcileItem;
    ReconcileKeepsReceipts(w.db, e.item, e.facts, w.now);
  }

  lemma ClaimNextFrame(w: World, e: Event)
    requires Enabled(w, e) && e.ClaimNext?
    ensures SameTraffic(w, Apply(w, e))
  {
    hide EnabledCatalogue, EnabledRequest, ApplyCatalogue, ApplyRequest;
    hide FactsFit, NextReady, MayClaim, ClaimAuto;
  }

  lemma SettleConflictFrame(w: World, e: Event)
    requires Enabled(w, e) && e.SettleConflict?
    ensures SameTraffic(w, Apply(w, e))
  {
    hide EnabledCatalogue, EnabledRequest, ApplyCatalogue, ApplyRequest;
    hide SettleItem;
    var a, prior := w.senders[e.token].auto, w.senders[e.token].step.prior;
    SettleKeepsReceipts(w.db.(autos := w.db.autos[a := w.db.autos[a].(receipt := Some(prior))]), a, prior.group, w.now);
  }

  lemma EndTickFrame(w: World, e: Event)
    requires Enabled(w, e) && e.EndTick?
    ensures SameTraffic(w, Apply(w, e))
  {
    hide EnabledCatalogue, EnabledRequest, ApplyCatalogue, ApplyRequest;
    hide SettleItem;
    if HoldsToken(w, e.token) {
      var a := w.senders[e.token].auto;
      var r := w.db.autos[a].receipt;
      if r.Some? && r.value.group < |w.db.groups| { SettleKeepsReceipts(w.db, a, r.value.group, w.now); }
    }
  }

  lemma SettleKeepsReceipts(db: Db, a: nat, g: nat, now: int)
    requires a < |db.autos| && g < |db.groups|
    ensures SettleItem(db, a, g, now).groups == db.groups && |SettleItem(db, a, g, now).autos| == |db.autos|
  {}

  lemma ReconcileKeepsReceipts(db: Db, a: nat, f: Facts, now: int)
    requires a < |db.autos|
    ensures ReconcileItem(db, a, f, now).groups == db.groups
  {}

  lemma SimpleFrame(w: World, e: Event)
    requires Enabled(w, e)
    requires e.Advance? || e.SetEnabled? || e.Initialize? || e.AddFile? || e.ReadOptions? || e.ConflictForTick? || e.CrashTick?
    ensures SameTraffic(w, Apply(w, e))
  {
    hide FreshRequest, Forbids, TickRequest, ExpireAll;
  }

  lemma OtherStepsKeepFlight(w: World, e: Event)
    requires FlightInv(w) && Enabled(w, e) && !TouchesReceipts(e)
    ensures SameTraffic(w, Apply(w, e))
    ensures FlightInv(Apply(w, e)) && Evolved(w.db.groups, Apply(w, e).db.groups)
  {
    hide FlightInv, Evolved, Apply, Enabled;
    if e.Track? || e.Observe? { TrackingFrame(w, e); }
    else if e.Register? || e.SavePresets? { PolicyFrame(w, e); }
    else if e.Reconcile? { ReconcileFrame(w, e); }
    else if e.ClaimNext? { ClaimNextFrame(w, e); }
    else if e.SettleConflict? { SettleConflictFrame(w, e); }
    else if e.EndTick? { EndTickFrame(w, e); }
    else { SimpleFrame(w, e); }
    Untouched(w, Apply(w, e));
  }

  lemma ExpireReceiptsKeepsFlight(w: World, e: Event)
    requires FlightInv(w) && Enabled(w, e) && e.ExpireReceipts?
    ensures FlightInv(Apply(w, e)) && Evolved(w.db.groups, Apply(w, e).db.groups)
  {
    hide FlightInv, Evolved, ExpireAll;
    ExpiryKeepsFlight(w, Apply(w, e));
  }

  lemma ClaimsKeepFlight(w: World, e: Event)
    requires FlightInv(w) && Enabled(w, e) && (e.ClaimManual? || e.ClaimByTick?)
    ensures FlightInv(Apply(w, e)) && Evolved(w.db.groups, Apply(w, e).db.groups)
  {
    hide EnabledCatalogue, EnabledRequest, ApplyCatalogue, ApplyRequest;
    hide FlightInv, Evolved, FreshRequest, ClaimChecks, AddGroup;
    ClaimKeepsFlight(w, e.request);
    Untouched(DoClaim(w, e.request), Apply(w, e));
  }

  lemma CommitsKeepFlight(w: World, e: Event)
    requires FlightInv(w) && Enabled(w, e) && e.Commit?
    ensures FlightInv(Apply(w, e)) && Evolved(w.db.groups, Apply(w, e).db.groups)
  {
    hide FlightInv, Evolved, DoCommit, Enabled, Apply;
    CommitApplied(w, e);
    CommitKeepsFlight(w, e.group, e.ok, e.sameServer, e.snapshot, e.facts);
  }

  lemma PostsKeepFlight(w: World, e: Event)
    requires FlightInv(w) && Enabled(w, e) && e.Post?
    ensures FlightInv(Apply(w, e)) && Evolved(w.db.groups, Apply(w, e).db.groups)
  {
    hide EnabledCatalogue, EnabledQueue, ApplyCatalogue, ApplyQueue;
    hide FlightInv, Evolved, Enabled, DoPost;
    PostKeepsFlight(w, e.group, e.delivered, e.creates);
  }

  lemma CrashOrSelectKeepsFlight(w: World, e: Event)
    requires FlightInv(w) && Enabled(w, e) && (e.CrashOwner? || e.SelectReceipt?)
    ensures FlightInv(Apply(w, e)) && Evolved(w.db.groups, Apply(w, e).db.groups)
  {
    hide EnabledCatalogue, EnabledQueue, ApplyCatalogue, ApplyQueue;
    hide FlightInv, Evolved, DropOwner;
    if e.CrashOwner? { CrashKeepsFlight(w, e.group); }
    else { SelectKeepsFlight(w, e.group); }
  }

  lemma CrashedFlight(r: Group, owner: Option<Owner>, posts: nat, received: bool, recoveries: nat)
    requires FlightOk(r, owner, posts, received, recoveries)
    ensures FlightOk(r, None, posts, received, recoveries)
  {}

  lemma CrashKeepsFlight(w: World, g: nat)
    requires FlightInv(w) && g in w.owners
    ensures var v := DropOwner(w, g); FlightInv(v) && Evolved(w.db.groups, v.db.groups)
  {
    assert g < |w.db.groups|;
    hide GroupOk, GroupEvolves, FlightOk, FlightInv, Evolved;
    FlightAt(w, g);
    SameEvolves(w.db.groups[g]);
    CrashedFlight(w.db.groups[g], OwnerOf(w, g), w.posts[g], g in w.received, w.recoveries[g]);
    var v := DropOwner(w, g);
    assert v.db.groups == w.db.groups[g := w.db.groups[g]];
    OneGroup(w, v, g, w.db.groups[g]);
  }

  lemma SelectedGroup(g: Group, at: int, owner: Option<Owner>, posts: nat, received: bool, recoveries: nat)
    requires GroupOk(g) && g.startedAt.Some? && FlightOk(g, owner, posts, received, recoveries)
    ensures var r := g.(receiptNextAt := Some(at));
      GroupOk(r) && GroupEvolves(g, r) && FlightOk(r, owner, posts, received, recoveries + 1)
  {}

  lemma SelectKeepsFlight(w: World, g: nat)
    requires FlightInv(w) && Enabled(w, SelectReceipt(g))
    ensures var v := Apply(w, SelectReceipt(g)); FlightInv(v) && Evolved(w.db.groups, v.db.groups)
  {
    hide EnabledCatalogue, EnabledQueue, ApplyCatalogue, ApplyQueue;
    hide GroupOk, GroupEvolves, FlightOk, FlightInv, Evolved;
    FlightAt(w, g);
    var v := Apply(w, SelectReceipt(g));
    SelectedGroup(w.db.groups[g], w.now + 600, OwnerOf(w, g), w.posts[g], g in w.received, w.recoveries[g]);
    OneGroup(w, v, g, w.db.groups[g].(receiptNextAt := Some(w.now + 600)));
  }

  lemma UnstartedFlight(o: Group, r: Group, owner: Option<Owner>, next: Option<Owner>, posts: nat, received: bool, recoveries: nat)
    requires FlightOk(o, owner, posts, received, recoveries) && GroupEvolves(o, r)
    requires o.startedAt.None? && r.startedAt.None? && next.Some? && owner.Some?
    requires next.value.phase in {Preparing, Prepared} && next.value.token == owner.value.token
    ensures FlightOk(r, next, posts, received, recoveries)
  {}

  lemma FlightBeforeIntent(w: World, e: Event)
    requires FlightInv(w) && Enabled(w, e) && (e.Preflight? || e.Abort?)
    ensures FlightInv(Apply(w, e)) && Evolved(w.db.groups, Apply(w, e).db.groups)
  {
    hide EnabledCatalogue, EnabledQueue, ApplyCatalogue, ApplyQueue;
    hide GroupOk, GroupEvolves, FlightOk, FlightInv, Evolved, DoAbort;
    var o := w.db.groups[e.group];
    FlightAt(w, e.group);
    match e
    case Preflight(g, checks) =>
      var r, v := o.(items := Prepare(o.items, checks)), Apply(w, e);
      PrepareStep(o, checks);
      UnstartedFlight(o, r, OwnerOf(w, g), OwnerOf(v, g), w.posts[g], g in w.received, w.recoveries[g]);
      OneGroup(w, v, g, r);
    case Abort(g) =>
      SameEvolves(o);
      assert o.(items := o.items, snapshot := o.snapshot) == o;
      AbortKeepsFlight(w, w, g, o.items, o.snapshot);
  }

  lemma UndeliveredFlight(g: Group, now: int, owner: Option<Owner>, posts: nat, recoveries: nat)
    requires GroupOk(g) && g.startedAt.Some? && FlightOk(g, owner, posts, false, recoveries)
    ensures var r := FinishFailure(g.(httpStatus := None), false, "undelivered", now);
      GroupOk(r) && GroupEvolves(g, r) && FlightOk(r, None, posts, false, recoveries)
  {}

  lemma UndeliveredKeepsFlight(w: World, g: nat)
    requires FlightInv(w) && Enabled(w, Undelivered(g))
    ensures var v := Apply(w, Undelivered(g)); FlightInv(v) && Evolved(w.db.groups, v.db.groups)
  {
    hide EnabledCatalogue, EnabledQueue, ApplyCatalogue, ApplyQueue;
    hide GroupOk, GroupEvolves, FlightOk, FlightInv, Evolved, FinishFailure;
    FlightAt(w, g);
    UndeliveredFlight(w.db.groups[g], w.now, OwnerOf(w, g), w.posts[g], w.recoveries[g]);
    OneGroup(w, Apply(w, Undelivered(g)), g, FinishFailure(w.db.groups[g].(httpStatus := None), false, "undelivered", w.now));
  }

  lemma RecoverKeepsFlight(w: World, g: nat, answer: Answer, changed: set<nat>)
    requires FlightInv(w) && Enabled(w, RecoverReceipt(g, answer, changed))
    ensures var v := Apply(w, RecoverReceipt(g, answer, changed)); FlightInv(v) && Evolved(w.db.groups, v.db.groups)
  {
    hide Enabled, Apply;
    RecoverApplied(w, RecoverReceipt(g, answer, changed));
    DoRecoverKeepsFlight(w, g, answer, changed);
  }

  lemma DoRecoverKeepsFlight(w: World, g: nat, answer: Answer, changed: set<nat>)
    requires FlightInv(w) && g < |w.db.groups| && w.recoveries[g] > 0
    requires w.db.groups[g].origin.Automatic? ==> w.db.groups[g].origin.item < |w.db.autos|
    ensures var v := DoRecover(w, g, answer, changed); FlightInv(v) && Evolved(w.db.groups, v.db.groups)
  {
    hide GroupOk, GroupEvolves, FlightOk, FlightInv, Evolved, RecoverWith, OutcomeOf, SettleAuto, RetryAfter, KeepsPosted;
    FlightAt(w, g);
    var o := w.db.groups[g];
    FlightFacts(o, OwnerOf(w, g), w.posts[g], g in w.received, w.recoveries[g]);
    RecoverStep(o, OutcomeOf(o.requestId, answer), changed, w.now);
    SettledKeepsFlight(w, DoRecover(w, g, answer, changed), g, Recover(o, answer, changed, w.now));
  }

  lemma ReplyKeepsFlight(w: World, e: Event)
    requires FlightInv(w) && Enabled(w, e) && e.Reply?
    ensures FlightInv(Apply(w, e)) && Evolved(w.db.groups, Apply(w, e).db.groups)
  {
    hide EnabledCatalogue, EnabledQueue, ApplyCatalogue, ApplyQueue;
    hide GroupOk, GroupEvolves, FlightOk, FlightInv, Evolved, KeepsPosted, Answered, RefusedPost, LostPost;
    var o, g := w.db.groups[e.group], e.group;
    FlightAt(w, g);
    AnsweredStep(o, e.code, e.body, e.saved, e.changed, w.now);
    SettledKeepsFlight(w, Apply(w, e), g, Answered(o, e.code, e.body, e.saved, e.changed, w.now));
  }

  lemma RefusalKeepsFlight(w: World, e: Event)
    requires FlightInv(w) && Enabled(w, e) && e.Refuse?
    ensures FlightInv(Apply(w, e)) && Evolved(w.db.groups, Apply(w, e).db.groups)
  {
    hide EnabledCatalogue, EnabledQueue, ApplyCatalogue, ApplyQueue;
    hide GroupOk, GroupEvolves, FlightOk, FlightInv, Evolved, KeepsPosted, Answered, RefusedPost, LostPost;
    var o, g := w.db.groups[e.group], e.group;
    FlightAt(w, g);
    RefusedStep(o, e.status, e.why, e.changed, w.now);
    SettledKeepsFlight(w, Apply(w, e), g, RefusedPost(o, e.status, e.why, e.changed, w.now));
  }

  lemma LossKeepsFlight(w: World, e: Event)
    requires FlightInv(w) && Enabled(w, e) && e.Lose?
    ensures FlightInv(Apply(w, e)) && Evolved(w.db.groups, Apply(w, e).db.groups)
  {
    hide EnabledCatalogue, EnabledQueue, ApplyCatalogue, ApplyQueue;
    hide GroupOk, GroupEvolves, FlightOk, FlightInv, Evolved, KeepsPosted, Answered, RefusedPost, LostPost;
    var o, g := w.db.groups[e.group], e.group;
    FlightAt(w, g);
    LostStep(o, e.http, e.retry, e.changed, w.now);
    SettledKeepsFlight(w, Apply(w, e), g, LostPost(o, e.http, e.retry, e.changed, w.now));
  }

  lemma RepairKeepsFlight(w: World, e: Event)
    requires FlightInv(w) && Enabled(w, e) && e.Repair?
    ensures FlightInv(Apply(w, e)) && Evolved(w.db.groups, Apply(w, e).db.groups)
  {
    hide EnabledCatalogue, EnabledQueue, ApplyCatalogue, ApplyQueue;
    hide GroupOk, GroupEvolves, FlightOk, FlightInv, Evolved, KeepsPosted, RepairReceipt.Repaired;
    var o, g := w.db.groups[e.group], e.group;
    FlightAt(w, g);
    RepairStep(o, o.httpStatus.value, o.response);
    SettledKeepsFlight(w, Apply(w, e), g, o.(items := RepairReceipt.Repaired(o.items, o.httpStatus.value, o.response)));
  }
}
