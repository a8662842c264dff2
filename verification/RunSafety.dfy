/** What holds in every state any run can reach. */
module RunSafety {
  import opened Json
  import opened EncoderHistory
  import opened EncoderTables
  import opened EncoderRuns
  import opened ReceiptSteps
  import opened FlightInvariant
  import opened QueueInvariant
  import opened QueueSteps
  import opened QueueClaims
  import SettleLemmas

  ghost predicate Inv(w: World) { FlightInv(w) && QueueInv(w) }

  lemma InitialHolds(w: World)
    requires Initial(w)
    ensures Inv(w)
  {}

  lemma StepHolds(w: World, e: Event)
    requires Inv(w)
    ensures Inv(Next(w, e)) && Evolved(w.db.groups, Next(w, e).db.groups)
  {
    hide FlightInv, QueueInv, Evolved, Apply, Enabled;
    if Enabled(w, e) { FlightNext(w, e); QueueNext(w, e); } else { SelfEvolved(w.db.groups); }
  }

  lemma {:induction false} RunHolds(w: World, es: seq<Event>)
    requires Inv(w)
    ensures Inv(Run(w, es))
  {
    hide Inv, Next;
    if es != [] {
      RunHolds(w, es[..|es| - 1]);
      StepHolds(Run(w, es[..|es| - 1]), es[|es| - 1]);
    }
  }

  // ---- one POST per request, only after its intent --------------------------------

  /**
   In every reachable state: request ids are never reused, each was posted at
   most once and only after its intent, and no file of a request the encoder
   received is "not sent". No receipt that is finished still holds a file being sent.
   */
  lemma OnePostPerRequest(w: World, es: seq<Event>)
    requires Initial(w)
    ensures var v := Run(w, es);
      && (forall g, h :: 0 <= g < h < |v.db.groups| ==> v.db.groups[g].requestId != v.db.groups[h].requestId)
      && (forall g: nat :: g < |v.db.groups| ==> v.posts[g] <= 1)
      && (forall g: nat :: v.posts[g] > 0 ==> g < |v.db.groups| && v.db.groups[g].startedAt.Some?)
      && (forall g :: g in v.received ==>
            g < |v.db.groups| && v.posts[g] == 1 && NothingUnsent(v.db.groups[g]))
      && (forall g :: 0 <= g < |v.db.groups| && v.db.groups[g].finishedAt.Some? ==> NoneSending(v.db.groups[g].items))
  {
    InitialHolds(w);
    RunHolds(w, es);
    var v := Run(w, es);
    hide QueueInv, GroupOk;
    forall g: nat | g < |v.db.groups|
      ensures v.posts[g] <= 1 && (v.posts[g] > 0 ==> v.db.groups[g].startedAt.Some?)
      ensures v.db.groups[g].finishedAt.Some? ==> NoneSending(v.db.groups[g].items)
    {
      assert FlightOk(v.db.groups[g], OwnerOf(v, g), v.posts[g], g in v.received, v.recoveries[g]);
      FinishedNothingSending(v.db.groups[g]);
    }
    forall g | g in v.received
      ensures g < |v.db.groups| && v.posts[g] == 1 && NothingUnsent(v.db.groups[g])
    {
      assert FlightOk(v.db.groups[g], OwnerOf(v, g), v.posts[g], g in v.received, v.recoveries[g]);
    }
  }

  lemma FinishedNothingSending(g: Group)
    requires GroupOk(g)
    ensures g.finishedAt.Some? ==> NoneSending(g.items)
  {}

  // ---- the order of statuses over whole runs ----------------------------------------

  predicate Decided(s: Status) { s == Accepted || s == Rejected || s == NotSent }

  /** A receipt later in the same run: the same request, and every decision kept with its job ids. */
  ghost predicate Outlives(a: Group, b: Group) {
    && b.requestId == a.requestId && b.target == a.target && b.presets == a.presets && b.origin == a.origin
    && |b.items| == |a.items|
    && (a.startedAt.Some? ==> b.startedAt == a.startedAt && b.payload == a.payload)
    && forall i :: 0 <= i < |a.items| ==>
         IdOf(b.items[i]) == IdOf(a.items[i]) && b.items[i].fileId == a.items[i].fileId &&
         (Decided(a.items[i].status) ==> b.items[i].status == a.items[i].status && b.items[i].jobIds == a.items[i].jobIds)
  }

  lemma EvolvesOutlives(a: Group, b: Group, c: Group)
    requires Outlives(a, b) && GroupEvolves(b, c)
    ensures Outlives(a, c)
  {
    forall i | 0 <= i < |a.items|
      ensures IdOf(c.items[i]) == IdOf(a.items[i]) && c.items[i].fileId == a.items[i].fileId
      ensures Decided(a.items[i].status) ==> c.items[i].status == a.items[i].status && c.items[i].jobIds == a.items[i].jobIds
    {
      assert ItemEvolves(b.items[i], c.items[i]);
    }
  }

  /** Receipts are never deleted; accepted, rejected and not_sent stay for good, with their job ids. */
  lemma {:induction false} DecisionsAreFinal(w: World, es: seq<Event>)
    requires Inv(w)
    ensures var v := Run(w, es);
      |w.db.groups| <= |v.db.groups| && forall g :: 0 <= g < |w.db.groups| ==> Outlives(w.db.groups[g], v.db.groups[g])
  {
    hide Inv, Next, Outlives, GroupEvolves;
    if es == [] {
      forall g | 0 <= g < |w.db.groups| ensures Outlives(w.db.groups[g], w.db.groups[g]) { OutlivesSelf(w.db.groups[g]); }
    } else {
      var u := Run(w, es[..|es| - 1]);
      DecisionsAreFinal(w, es[..|es| - 1]);
      RunHolds(w, es[..|es| - 1]);
      StepHolds(u, es[|es| - 1]);
      forall g | 0 <= g < |w.db.groups|
        ensures Outlives(w.db.groups[g], Run(w, es).db.groups[g])
      {
        EvolvesOutlives(w.db.groups[g], u.db.groups[g], Run(w, es).db.groups[g]);
      }
    }
  }

  lemma OutlivesSelf(g: Group)
    ensures Outlives(g, g)
  {}

  // ---- at most once ------------------------------------------------------------------

  /** No manual caller overrides the duplicate checks. */
  predicate NoOverride(e: Event) {
    e.ClaimManual? ==> !e.request.allowRepeat && !e.request.acknowledgeUnknown
  }

  predicate NoUnknownOverride(e: Event) {
    e.ClaimManual? ==> !e.request.acknowledgeUnknown
  }

  /** Lines `p` and `q` speak of the same version and path, and one was sent automatically. */
  predicate SameAutomaticSource(groups: seq<Group>, p: Ref, q: Ref) {
    && HasRef(groups, p) && HasRef(groups, q)
    && IdOf(At(groups, p)) == IdOf(At(groups, q)) && At(groups, p).infoHash != ""
    && (groups[p.group].origin.Automatic? || groups[q.group].origin.Automatic?)
  }

  predicate LiveRef(groups: seq<Group>, r: Ref) {
    HasRef(groups, r) && Live(At(groups, r).status)
  }

  /** No two live lines of one automatic source. */
  ghost predicate NoTwins(groups: seq<Group>) {
    forall p, q :: LiveRef(groups, p) && LiveRef(groups, q) && SameAutomaticSource(groups, p, q) ==> p == q
  }

  /** Evolution makes no line live again. */
  lemma LiveBefore(gs: seq<Group>, hs: seq<Group>, r: Ref)
    requires Evolved(gs, hs) && r.group < |gs| && LiveRef(hs, r)
    ensures LiveRef(gs, r) && IdOf(At(gs, r)) == IdOf(At(hs, r)) && ItemEvolves(At(gs, r), At(hs, r))
    ensures gs[r.group].origin == hs[r.group].origin && gs[r.group].target == hs[r.group].target &&
            gs[r.group].presets == hs[r.group].presets
  {
    assert GroupEvolves(gs[r.group], hs[r.group]);
    assert ItemEvolves(At(gs, r), At(hs, r));
  }

  lemma NoTwinsEvolve(gs: seq<Group>, hs: seq<Group>)
    requires NoTwins(gs) && Evolved(gs, hs) && |gs| == |hs|
    ensures NoTwins(hs)
  {
    hide Evolved, ItemEvolves, LiveRef;
    forall p, q | LiveRef(hs, p) && LiveRef(hs, q) && SameAutomaticSource(hs, p, q)
      ensures p == q
    {
      LiveHasRef(hs, p);
      LiveHasRef(hs, q);
      LiveBefore(gs, hs, p);
      LiveBefore(gs, hs, q);
      LiveHasRef(gs, p);
      LiveHasRef(gs, q);
    }
  }

  lemma LiveHasRef(gs: seq<Group>, r: Ref)
    requires LiveRef(gs, r)
    ensures HasRef(gs, r) && r.group < |gs|
  {}

  lemma NewLineIsAlone(gs: seq<Group>, q: Request, db: Db, p: Ref, r: Ref, now: int)
    requires Clear(gs, q) && FreshRequest(db, q) && !q.allowRepeat && !q.acknowledgeUnknown
    requires p.group < |gs| && r.group == |gs|
    requires var hs := gs + [NewGroup(q, now)]; LiveRef(hs, p) && LiveRef(hs, r)
    ensures var hs := gs + [NewGroup(q, now)]; !SameAutomaticSource(hs, p, r) && !SameAutomaticSource(hs, r, p)
  {
    hide NewestLive;
    var hs := gs + [NewGroup(q, now)];
    assert At(hs, p) == At(gs, p) && At(hs, r) == q.items[r.index];
    assert !Forbids(gs, q, r.index, p);
    assert q.items[r.index].infoHash != "" ==> !MayRepeat(gs[p.group], At(gs, p), q.items[r.index], q.origin);
  }

  lemma TwinsApart(gs: seq<Group>, r: Group, p: Ref, q: Ref)
    requires NoTwins(gs) && p.group < |gs| && q.group < |gs|
    requires LiveRef(gs + [r], p) && LiveRef(gs + [r], q) && SameAutomaticSource(gs + [r], p, q)
    ensures p == q
  {
    assert LiveRef(gs, p) && LiveRef(gs, q) && SameAutomaticSource(gs, p, q);
  }

  lemma FreshLinesDiffer(db: Db, q: Request, gs: seq<Group>, p: Ref, r: Ref, now: int)
    requires FreshRequest(db, q) && p.group == r.group == |gs|
    requires var hs := gs + [NewGroup(q, now)]; LiveRef(hs, p) && LiveRef(hs, r) && SameAutomaticSource(hs, p, r)
    ensures p == r
  {}

  lemma NoTwinsAfterClaim(gs: seq<Group>, q: Request, db: Db, now: int)
    requires NoTwins(gs) && Clear(gs, q) && FreshRequest(db, q) && !q.allowRepeat && !q.acknowledgeUnknown
    ensures NoTwins(gs + [NewGroup(q, now)])
  {
    hide Clear, FreshRequest, NewGroup, SameAutomaticSource;
    var hs := gs + [NewGroup(q, now)];
    forall p, r | LiveRef(hs, p) && LiveRef(hs, r) && SameAutomaticSource(hs, p, r)
      ensures p == r
    {
      if p.group < |gs| && r.group < |gs| { TwinsApart(gs, NewGroup(q, now), p, r); }
      else if p.group < |gs| { NewLineIsAlone(gs, q, db, p, r, now); }
      else if r.group < |gs| { NewLineIsAlone(gs, q, db, r, p, now); }
      else { FreshLinesDiffer(db, q, gs, p, r, now); }
    }
  }

  // ---- the newest live line --------------------------------------------------------

  /** Lines sent for the same version and path to the same server with the same presets. */
  predicate SameTarget(groups: seq<Group>, p: Ref, q: Ref) {
    && LiveRef(groups, p) && LiveRef(groups, q) && At(groups, q).infoHash != ""
    && SameSend(groups[p.group], p.index, groups[q.group].target, groups[q.group].presets,
                At(groups, q).infoHash, At(groups, q).relativePath)
  }

  /** Every live line but the newest is accepted. */
  ghost predicate OnlyNewestOpen(groups: seq<Group>) {
    forall p, q :: SameTarget(groups, p, q) && Before(p, q) ==> At(groups, p).status == Accepted
  }

  lemma NewestEvolve(gs: seq<Group>, hs: seq<Group>)
    requires OnlyNewestOpen(gs) && Evolved(gs, hs) && |gs| == |hs|
    ensures OnlyNewestOpen(hs)
  {
    hide Evolved;
    forall p, q | SameTarget(hs, p, q) && Before(p, q)
      ensures At(hs, p).status == Accepted
    {
      LiveBefore(gs, hs, p);
      LiveBefore(gs, hs, q);
      assert SameTarget(gs, p, q);
    }
  }

  lemma OlderIsAccepted(gs: seq<Group>, q: Request, p: Ref, r: Ref, now: int)
    requires OnlyNewestOpen(gs) && Clear(gs, q) && !q.acknowledgeUnknown
    requires p.group < |gs| && r.group == |gs|
    requires SameTarget(gs + [NewGroup(q, now)], p, r)
    ensures At(gs, p).status == Accepted
  {
    hide MayRepeat;
    var item := q.items[r.index];
    var newest := NewestLive(gs, |gs|, q.target, q.presets, item.infoHash, item.relativePath);
    assert SameSend(gs[p.group], p.index, q.target, q.presets, item.infoHash, item.relativePath);
    assert !Forbids(gs, q, r.index, newest.value);
    assert At(gs, newest.value).status == Accepted;
    if p != newest.value {
      assert SameTarget(gs, p, newest.value);
    }
  }

  lemma SameRequestApart(db: Db, q: Request, gs: seq<Group>, p: Ref, r: Ref, now: int)
    requires FreshRequest(db, q) && p.group == r.group == |gs| && Before(p, r)
    ensures !SameTarget(gs + [NewGroup(q, now)], p, r)
  {}

  lemma NewestAfterClaim(gs: seq<Group>, q: Request, db: Db, now: int)
    requires OnlyNewestOpen(gs) && Clear(gs, q) && FreshRequest(db, q) && !q.acknowledgeUnknown
    ensures OnlyNewestOpen(gs + [NewGroup(q, now)])
  {
    hide Clear, FreshRequest, NewGroup, SameSend;
    var hs := gs + [NewGroup(q, now)];
    forall p, r | SameTarget(hs, p, r) && Before(p, r)
      ensures At(hs, p).status == Accepted
    {
      if r.group < |gs| { assert SameTarget(gs, p, r); }
      else if p.group < |gs| { OlderIsAccepted(gs, q, p, r, now); }
      else { SameRequestApart(db, q, gs, p, r, now); }
    }
  }

  // ---- both over whole runs -----------------------------------------------------------

  lemma ClaimAddsGroup(w: World, e: Event)
    requires Enabled(w, e) && (e.ClaimManual? || e.ClaimByTick?)
    ensures Apply(w, e).db.groups == ExpireAll(w.db.groups, w.now) + [NewGroup(e.request, w.now)]
    ensures FreshRequest(w.db, e.request) && Clear(ExpireAll(w.db.groups, w.now), e.request)
    ensures e.ClaimByTick? ==> !e.request.allowRepeat && !e.request.acknowledgeUnknown
  {
    hide EnabledCatalogue, EnabledRequest, ApplyCatalogue, ApplyRequest;
    hide FreshRequest, Clear, NewGroup;
  }

  /** Only a claim adds a receipt. */
  lemma OthersAddNone(w: World, e: Event)
    requires FlightInv(w) && Enabled(w, e) && !e.ClaimManual? && !e.ClaimByTick?
    ensures |Apply(w, e).db.groups| == |w.db.groups|
  {
    hide FlightInv, Apply, Enabled, SameTraffic;
    if !TouchesReceipts(e) { OtherStepsKeepFlight(w, e); SameTrafficFacts(w, Apply(w, e)); }
    else if ReceiptsOnly(e) { ReceiptsOnlyFrame(w, e); }
    else if e.Commit? { CommitAddsNone(w, e); }
    else { RecoveryAddsNone(w, e); }
  }

  lemma SameTrafficFacts(w: World, v: World)
    requires SameTraffic(w, v)
    ensures v.db.groups == w.db.groups
  {}

  lemma CommitAddsNone(w: World, e: Event)
    requires Enabled(w, e) && e.Commit?
    ensures |Apply(w, e).db.groups| == |w.db.groups|
  {
    CommitApplied(w, e);
    hide Enabled, Apply;
    CommitShape(w, e.group, e.ok, e.sameServer, e.snapshot, e.facts);
    hide Validate, FactsFit, DoAbort, DoCommit;
    var r := w.db.groups[e.group];
    if !QueueFrame(w, Apply(w, e)) {
      var b := Validate(w.db, r.origin.item, w.owners[e.group].token.value, e.snapshot, e.facts, w.now).auto;
      AbortShape(w.(db := w.db.(autos := w.db.autos[r.origin.item := b])), e.group, Recheck(r.items, e.ok), e.snapshot);
    }
  }

  lemma RecoveryAddsNone(w: World, e: Event)
    requires Enabled(w, e) && e.RecoverReceipt?
    ensures |Apply(w, e).db.groups| == |w.db.groups|
  {
    hide Enabled, Apply, RecoverWith, OutcomeOf, SettleAuto, RetryAfter;
    RecoverApplied(w, e);
  }

  lemma TwinStep(w: World, e: Event)
    requires Inv(w) && NoTwins(w.db.groups) && NoOverride(e)
    ensures NoTwins(Next(w, e).db.groups)
  {
    hide Inv, FlightInv, QueueInv, Evolved, Apply, Enabled, NoTwins, Clear, FreshRequest, ExpireAll, NewGroup;
    StepHolds(w, e);
    if Enabled(w, e) {
      InvFacts(w);
      if e.ClaimManual? || e.ClaimByTick? {
        ClaimAddsGroup(w, e);
        ExpiryEvolves(w);
        ExpiryCount(w.db.groups, w.now);
        NoTwinsEvolve(w.db.groups, ExpireAll(w.db.groups, w.now));
        NoTwinsAfterClaim(ExpireAll(w.db.groups, w.now), e.request, w.db, w.now);
      } else {
        OthersAddNone(w, e);
        NoTwinsEvolve(w.db.groups, Apply(w, e).db.groups);
      }
    }
  }

  lemma InvFacts(w: World)
    requires Inv(w)
    ensures FlightInv(w) && QueueInv(w)
  {}

  lemma ExpiryCount(gs: seq<Group>, now: int)
    ensures |ExpireAll(gs, now)| == |gs|
  {}

  /**
   At most once: as long as no manual caller overrides the checks, no run ever
   holds two live lines of one version and path if one of them is automatic,
   whatever the encoder answers and whatever presets or servers are used.
   */
  lemma {:induction false} AtMostOneLiveLine(w: World, es: seq<Event>)
    requires Initial(w) && forall e :: e in es ==> NoOverride(e)
    ensures NoTwins(Run(w, es).db.groups)
  {
    hide Inv, Next, NoTwins;
    InitialHolds(w);
    if es == [] { NoneAtFirst(w.db.groups); }
    else {
      var before := es[..|es| - 1];
      AtMostOneLiveLine(w, before);
      RunHolds(w, before);
      TwinStep(Run(w, before), es[|es| - 1]);
    }
  }

  lemma NoneAtFirst(groups: seq<Group>)
    requires groups == []
    ensures NoTwins(groups) && OnlyNewestOpen(groups)
  {}

  lemma NewestStep(w: World, e: Event)
    requires Inv(w) && OnlyNewestOpen(w.db.groups) && NoUnknownOverride(e)
    ensures OnlyNewestOpen(Next(w, e).db.groups)
  {
    hide Inv, FlightInv, QueueInv, Evolved, Apply, Enabled, OnlyNewestOpen, Clear, FreshRequest, ExpireAll, NewGroup;
    StepHolds(w, e);
    if Enabled(w, e) {
      InvFacts(w);
      if e.ClaimManual? || e.ClaimByTick? {
        ClaimAddsGroup(w, e);
        ExpiryEvolves(w);
        ExpiryCount(w.db.groups, w.now);
        NewestEvolve(w.db.groups, ExpireAll(w.db.groups, w.now));
        NewestAfterClaim(ExpireAll(w.db.groups, w.now), e.request, w.db, w.now);
      } else {
        OthersAddNone(w, e);
        NewestEvolve(w.db.groups, Apply(w, e).db.groups);
      }
    }
  }

  lemma {:induction false} NewestHolds(w: World, es: seq<Event>)
    requires Initial(w) && forall e :: e in es ==> NoUnknownOverride(e)
    ensures OnlyNewestOpen(Run(w, es).db.groups)
  {
    hide Inv, Next, OnlyNewestOpen;
    InitialHolds(w);
    if es == [] { NoneAtFirst(w.db.groups); }
    else {
      var before := es[..|es| - 1];
      NewestHolds(w, before);
      RunHolds(w, before);
      NewestStep(Run(w, before), es[|es| - 1]);
    }
  }

  /**
   Without acknowledged unknowns, a line still sending or unknown is newer than
   every other live line of the same server, presets, version and path; so there is at most one.
   */
  lemma UnresolvedIsNewest(w: World, es: seq<Event>, p: Ref, q: Ref)
    requires Initial(w) && forall e :: e in es ==> NoUnknownOverride(e)
    requires var gs := Run(w, es).db.groups;
      SameTarget(gs, p, q) && Unresolved(At(gs, p).status) && p != q
    ensures var gs := Run(w, es).db.groups; Before(q, p) && At(gs, q).status == Accepted
  {
    NewestHolds(w, es);
    var gs := Run(w, es).db.groups;
    hide Run;
    assert SameTarget(gs, q, p);
  }
}
