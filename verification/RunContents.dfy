/** The same content under two versions: kept apart when claimed, and when a later capture may bring it together. */
module RunContents {
  import opened Json
  import opened EncoderHistory
  import opened EncoderTables
  import opened EncoderRuns
  import opened ReceiptSteps
  import opened FlightInvariant
  import opened QueueInvariant
  import opened QueueSteps
  import opened QueueClaims
  import opened RunSafety
  import opened RunStatuses
  import opened RunReplies
  import opened ClaimLaws
  import SettleLemmas
  import RepairReceipt

  /** Two lines of one release and path carry the same captured content, and one was sent automatically. */
  ghost predicate SameContentLines(groups: seq<Group>, p: Ref, q: Ref) {
    && LiveRef(groups, p) && LiveRef(groups, q) && p != q
    && At(groups, p).release == At(groups, q).release && At(groups, p).relativePath == At(groups, q).relativePath
    && At(groups, p).infoHash != "" && At(groups, q).infoHash != ""
    && At(groups, p).content.Some? && At(groups, q).content.Some?
    && At(groups, p).content.value == At(groups, q).content.value
    && (groups[p.group].origin.Automatic? || groups[q.group].origin.Automatic?)
  }

  ghost predicate NoContentTwins(groups: seq<Group>) {
    forall p, q :: !SameContentLines(groups, p, q)
  }

  /** The first preflight captures for file `i` a content that another live line already has. */
  ghost predicate CapturesTwinAt(u: World, e: Event, i: nat, p: Ref)
    requires e.Preflight?
  {
    && e.group < |u.db.groups| && i < |u.db.groups[e.group].items| && i < |e.checks|
    && LiveRef(u.db.groups, p) && p.group != e.group
    && var file, line := u.db.groups[e.group].items[i], At(u.db.groups, p);
       && Live(file.status) && e.checks[i].Some? && e.checks[i].value.content.Some?
       && file.release == line.release && file.relativePath == line.relativePath && file.infoHash != "" && line.infoHash != ""
       && line.content == e.checks[i].value.content
       && (u.db.groups[e.group].origin.Automatic? || u.db.groups[p.group].origin.Automatic?)
  }

  ghost predicate CapturesTwin(u: World, e: Event) {
    Enabled(u, e) && e.Preflight? && exists i, p :: CapturesTwinAt(u, e, i, p)
  }

  // ---- contents change only at the first preflight ---------------------------------------

  predicate SameContents(a: seq<Item>, b: seq<Item>) {
    |b| == |a| && forall i :: 0 <= i < |a| ==> b[i].content == a[i].content
  }

  predicate ContentsAt(w: World, v: World, g: nat) {
    g < |w.db.groups| <= |v.db.groups| && SameContents(w.db.groups[g].items, v.db.groups[g].items)
  }

  lemma ContentsSame(w: World, v: World, g: nat)
    requires g < |w.db.groups| <= |v.db.groups| && v.db.groups[g] == w.db.groups[g]
    ensures ContentsAt(w, v, g)
  {}

  lemma SettledContents(items: seq<Item>, code: int, body: Json)
    ensures SameContents(items, Settled(items, code, body))
  {
    SettleLemmas.OnlySendingFilesSettle(items, code, body);
    var out := Settled(items, code, body);
    hide Settled;
    forall i | 0 <= i < |items| ensures out[i].content == items[i].content {
      if items[i].status != Sending { assert out[i] == items[i]; }
    }
  }

  lemma AnsweredContents(o: Group, e: Event, now: int)
    requires e.Reply? || e.Refuse? || e.Lose?
    ensures SameContents(o.items, AfterAnswer(o, e, now).items)
  {
    hide Settled;
    if e.Reply? { SettledContents(o.items, e.code, e.body); }
  }

  lemma RecoveredContents(g: Group, o: Outcome, changed: set<nat>, now: int)
    ensures SameContents(g.items, RecoverWith(g, o, changed, now).items)
  {
    hide Settled;
    if o.Settles? { SettledContents(Reopen(MarkConflicts(g.items, changed)), o.code, o.body); }
  }

  lemma RepairedContents(items: seq<Item>, code: int, response: Json)
    ensures SameContents(items, RepairReceipt.Repaired(items, code, response))
  {
    forall i | 0 <= i < |items| { RepairReceipt.RepairOnlyAccepts(items, code, response, i); }
    hide RepairReceipt.Repaired;
  }

  lemma ExpiryContents(w: World, v: World, g: nat)
    requires g < |w.db.groups| <= |v.db.groups| && v.db.groups[g] == ExpireAll(w.db.groups, w.now)[g]
    ensures ContentsAt(w, v, g)
  {}

  lemma ClaimContents(w: World, e: Event, g: nat)
    requires Enabled(w, e) && g < |w.db.groups| && (e.ClaimManual? || e.ClaimByTick?)
    ensures ContentsAt(w, Apply(w, e), g)
  {
    hide Enabled, Apply, ExpireAll;
    ClaimAddsGroup(w, e);
    ExpiryCount(w.db.groups, w.now);
    ExpiryContents(w, Apply(w, e), g);
  }

  lemma TrafficContents(w: World, e: Event, g: nat)
    requires Enabled(w, e) && g < |w.db.groups| && (e.Post? || e.CrashOwner? || e.SelectReceipt?)
    ensures ContentsAt(w, Apply(w, e), g)
  {
    hide EnabledCatalogue, EnabledQueue, ApplyCatalogue, ApplyQueue;
    hide AwaitsReceipt;
  }

  lemma UndeliveredContents(w: World, e: Event, g: nat)
    requires Enabled(w, e) && g < |w.db.groups| && e.Undelivered?
    ensures ContentsAt(w, Apply(w, e), g)
  {
    hide EnabledCatalogue, EnabledQueue, ApplyCatalogue, ApplyQueue;
  }

  lemma AnswerContents(w: World, e: Event, g: nat)
    requires Enabled(w, e) && g < |w.db.groups| && (e.Reply? || e.Refuse? || e.Lose?)
    ensures ContentsAt(w, Apply(w, e), g)
  {
    hide Enabled, Apply, AfterAnswer;
    AnswerApplied(w, e);
    AnsweredContents(w.db.groups[e.group], e, w.now);
  }

  lemma RecoveryContents(w: World, e: Event, g: nat)
    requires Enabled(w, e) && g < |w.db.groups| && e.RecoverReceipt?
    ensures ContentsAt(w, Apply(w, e), g)
  {
    hide Enabled, Apply, RecoverWith, OutcomeOf, SettleAuto, RetryAfter;
    RecoverApplied(w, e);
    var o := w.db.groups[e.group];
    RecoveredContents(o, OutcomeOf(o.requestId, e.answer), e.changed, w.now);
  }

  lemma RepairContents(w: World, e: Event, g: nat)
    requires Enabled(w, e) && g < |w.db.groups| && e.Repair?
    ensures ContentsAt(w, Apply(w, e), g)
  {
    hide Enabled, Apply, RepairReceipt.Repaired;
    RepairApplied(w, e);
    var o := w.db.groups[e.group];
    RepairedContents(o.items, o.httpStatus.value, o.response);
  }

  lemma AbortContents(w: World, e: Event, g: nat)
    requires Enabled(w, e) && g < |w.db.groups| && (e.Abort? || e.Commit?)
    ensures ContentsAt(w, Apply(w, e), g)
  {
    hide Enabled, Apply, DoAbort, DoCommit;
    if e.Abort? {
      AbortApplied(w, e);
      AbortItems(w, w, e.group, w.db.groups[e.group].items, w.db.groups[e.group].snapshot);
    } else {
      CommitApplied(w, e);
      CommitItems(w, e.group, e.ok, e.sameServer, e.snapshot, e.facts);
    }
  }

  lemma PreflightApplied(w: World, e: Event)
    requires Enabled(w, e) && e.Preflight?
    ensures e.group < |w.db.groups| && |e.checks| == |w.db.groups[e.group].items| && InPhase(w, e.group, Preparing)
    ensures Apply(w, e).db.groups ==
      w.db.groups[e.group := w.db.groups[e.group].(items := Prepare(w.db.groups[e.group].items, e.checks))]
  {
    hide EnabledCatalogue, EnabledQueue, ApplyCatalogue, ApplyQueue;
    hide Prepare;
  }

  lemma ContentStep(w: World, e: Event, g: nat)
    requires FlightInv(w) && Enabled(w, e) && g < |w.db.groups| && !e.Preflight?
    ensures ContentsAt(w, Apply(w, e), g)
  {
    hide FlightInv, Apply, Enabled, SameTraffic, SameContents;
    var v := Apply(w, e);
    if !TouchesReceipts(e) { OtherStepsKeepFlight(w, e); SameTrafficFacts(w, v); ContentsSame(w, v, g); }
    else if e.ExpireReceipts? { ExpiryApplied(w, e); ExpiryCount(w.db.groups, w.now); ExpiryContents(w, v, g); }
    else if e.ClaimManual? || e.ClaimByTick? { ClaimContents(w, e, g); }
    else if e.Post? || e.CrashOwner? || e.SelectReceipt? { TrafficContents(w, e, g); }
    else if e.Undelivered? { UndeliveredContents(w, e, g); }
    else if e.Reply? || e.Refuse? || e.Lose? { AnswerContents(w, e, g); }
    else if e.RecoverReceipt? { RecoveryContents(w, e, g); }
    else if e.Repair? { RepairContents(w, e, g); }
    else { AbortContents(w, e, g); }
  }

  // ---- one step -------------------------------------------------------------------------

  lemma TwinsBefore(gs: seq<Group>, hs: seq<Group>, p: Ref, q: Ref)
    requires Evolved(gs, hs) && SameContentLines(hs, p, q) && p.group < |gs| && q.group < |gs|
    requires p.index < |gs[p.group].items| && q.index < |gs[q.group].items|
    requires At(gs, p).content == At(hs, p).content && At(gs, q).content == At(hs, q).content
    ensures SameContentLines(gs, p, q)
  {
    LiveBefore(gs, hs, p);
    LiveBefore(gs, hs, q);
  }

  lemma SameTwins(w: World, v: World)
    requires NoContentTwins(w.db.groups) && Evolved(w.db.groups, v.db.groups) && |v.db.groups| == |w.db.groups|
    requires forall g :: 0 <= g < |w.db.groups| ==> ContentsAt(w, v, g)
    ensures NoContentTwins(v.db.groups)
  {
    forall p, q ensures !SameContentLines(v.db.groups, p, q) {
      if SameContentLines(v.db.groups, p, q) {
        assert ContentsAt(w, v, p.group) && ContentsAt(w, v, q.group);
        hide Evolved;
        TwinsBefore(w.db.groups, v.db.groups, p, q);
      }
    }
  }

  lemma ExpiredTwins(gs: seq<Group>, now: int)
    requires NoContentTwins(gs) && Evolved(gs, ExpireAll(gs, now))
    ensures NoContentTwins(ExpireAll(gs, now))
  {
    var hs := ExpireAll(gs, now);
    forall p, q ensures !SameContentLines(hs, p, q) {
      if SameContentLines(hs, p, q) { TwinsBefore(gs, hs, p, q); }
    }
  }

  /** A new line and an older one: the claim's checks kept their contents apart. */
  lemma NewContentApart(gs: seq<Group>, q: Request, db: Db, p: Ref, r: Ref, now: int)
    requires WayIsClear(gs, q) && FreshRequest(db, q) && !q.allowRepeat && !q.acknowledgeUnknown
    requires p.group < |gs| && r.group == |gs|
    ensures var hs := gs + [NewGroup(q, now)]; !SameContentLines(hs, p, r) && !SameContentLines(hs, r, p)
  {
    var hs := gs + [NewGroup(q, now)];
    if SameContentLines(hs, p, r) || SameContentLines(hs, r, p) {
      assert At(hs, p) == At(gs, p) && At(hs, r) == q.items[r.index];
      hide WayIsClear, FreshRequest;
      ClearFilesAreOthers(gs, q, r.index, p);
    }
  }

  lemma ClaimTwins(gs: seq<Group>, q: Request, db: Db, now: int)
    requires NoContentTwins(gs) && WayIsClear(gs, q) && FreshRequest(db, q) && !q.allowRepeat && !q.acknowledgeUnknown
    requires q.origin.Automatic? ==> |q.items| == 1
    ensures NoContentTwins(gs + [NewGroup(q, now)])
  {
    hide WayIsClear, FreshRequest;
    var hs := gs + [NewGroup(q, now)];
    forall p, r ensures !SameContentLines(hs, p, r) {
      if p.group < |gs| && r.group < |gs| {
        assert !SameContentLines(gs, p, r);
      } else if p.group < |gs| {
        if r.group == |gs| { NewContentApart(gs, q, db, p, r, now); }
      } else if r.group < |gs| {
        if p.group == |gs| { NewContentApart(gs, q, db, r, p, now); }
      }
    }
  }

  lemma ClaimOfTick(w: World, e: Event)
    requires Enabled(w, e) && (e.ClaimManual? || e.ClaimByTick?)
    ensures e.request.origin.Automatic? ==> |e.request.items| == 1
  {
    hide EnabledCatalogue, EnabledRequest;
    hide FreshRequest, ClaimChecks;
  }

  lemma ClaimStepTwins(w: World, e: Event)
    requires FlightInv(w) && NoContentTwins(w.db.groups) && NoOverride(e) && Enabled(w, e) && (e.ClaimManual? || e.ClaimByTick?)
    ensures NoContentTwins(Apply(w, e).db.groups)
  {
    hide FlightInv, Enabled, Apply, NoContentTwins, FreshRequest, Clear, WayIsClear, Evolved, ExpireAll, NewGroup;
    var expired := ExpireAll(w.db.groups, w.now);
    ClaimAddsGroup(w, e);
    ClaimOfTick(w, e);
    ExpiryEvolves(w);
    ExpiredTwins(w.db.groups, w.now);
    ClearMeans(expired, e.request);
    ClaimTwins(expired, e.request, w.db, w.now);
  }

  /** What the first preflight does to one line. */
  lemma PreparedLine(gs: seq<Group>, g: nat, checks: seq<Option<Captured>>, p: Ref)
    requires g < |gs| && |checks| == |gs[g].items|
    ensures var hs := gs[g := gs[g].(items := Prepare(gs[g].items, checks))];
      && (LiveRef(hs, p) <==> LiveRef(gs, p) && (p.group == g ==> checks[p.index].Some?))
      && (LiveRef(hs, p) ==>
            && IdOf(At(hs, p)) == IdOf(At(gs, p)) && hs[p.group].origin == gs[p.group].origin
            && At(hs, p).content == if p.group == g then checks[p.index].value.content else At(gs, p).content)
  {}

  lemma CapturedTwin(w: World, e: Event, p: Ref, q: Ref, hs: seq<Group>)
    requires e.Preflight? && e.group < |w.db.groups| && |e.checks| == |w.db.groups[e.group].items|
    requires w.db.groups[e.group].origin.Automatic? ==> |e.checks| == 1
    requires hs == w.db.groups[e.group := w.db.groups[e.group].(items := Prepare(w.db.groups[e.group].items, e.checks))]
    requires NoContentTwins(w.db.groups) && SameContentLines(hs, p, q) && p.group == e.group
    ensures CapturesTwinAt(w, e, p.index, q)
  {
    var gs := w.db.groups;
    assert q.group != e.group;
    PreparedLine(gs, e.group, e.checks, p);
    PreparedLine(gs, e.group, e.checks, q);
    LineExists(gs, p);
    hide Prepare, LiveRef, NoContentTwins;
  }

  lemma UntouchedTwin(gs: seq<Group>, g: nat, items: seq<Item>, p: Ref, q: Ref)
    requires g < |gs| && NoContentTwins(gs) && p.group != g && q.group != g
    ensures !SameContentLines(gs[g := gs[g].(items := items)], p, q)
  {
    assert !SameContentLines(gs, p, q);
  }

  lemma TwinsAfterPreflight(w: World, e: Event, hs: seq<Group>)
    requires e.Preflight? && e.group < |w.db.groups| && |e.checks| == |w.db.groups[e.group].items|
    requires w.db.groups[e.group].origin.Automatic? ==> |e.checks| == 1
    requires hs == w.db.groups[e.group := w.db.groups[e.group].(items := Prepare(w.db.groups[e.group].items, e.checks))]
    requires NoContentTwins(w.db.groups)
    ensures NoContentTwins(hs) <==> !exists i, p :: CapturesTwinAt(w, e, i, p)
  {
    hide Prepare, CapturesTwinAt;
    var gs, g := w.db.groups, e.group;
    if i, p :| CapturesTwinAt(w, e, i, p) {
      CapturedAreTwins(w, e, i, p, hs);
    }
    forall p, q | SameContentLines(hs, p, q)
      ensures exists i, r :: CapturesTwinAt(w, e, i, r)
    {
      if p.group == g { CapturedTwin(w, e, p, q, hs); }
      else if q.group == g {
        assert SameContentLines(hs, q, p);
        CapturedTwin(w, e, q, p, hs);
      } else { UntouchedTwin(gs, g, Prepare(gs[g].items, e.checks), p, q); }
    }
  }

  lemma PreflightTwins(w: World, e: Event)
    requires FlightInv(w) && NoContentTwins(w.db.groups) && Enabled(w, e) && e.Preflight?
    ensures NoContentTwins(Apply(w, e).db.groups) <==> !exists i, p :: CapturesTwinAt(w, e, i, p)
  {
    hide FlightInv, Enabled, Apply, Prepare, CapturesTwinAt, NoContentTwins;
    PreflightApplied(w, e);
    LoneAutomatic(w, e.group);
    TwinsAfterPreflight(w, e, Apply(w, e).db.groups);
  }

  lemma LoneAutomatic(w: World, g: nat)
    requires FlightInv(w) && g < |w.db.groups|
    ensures w.db.groups[g].origin.Automatic? ==> |w.db.groups[g].items| == 1
  {
    FlightAt(w, g);
  }

  lemma LineExists(gs: seq<Group>, r: Ref)
    requires LiveRef(gs, r)
    ensures HasRef(gs, r) && r.group < |gs| && r.index < |gs[r.group].items| && Live(At(gs, r).status)
  {}

  lemma CapturedAreTwins(w: World, e: Event, i: nat, p: Ref, hs: seq<Group>)
    requires e.Preflight? && CapturesTwinAt(w, e, i, p) && |e.checks| == |w.db.groups[e.group].items|
    requires hs == w.db.groups[e.group := w.db.groups[e.group].(items := Prepare(w.db.groups[e.group].items, e.checks))]
    ensures SameContentLines(hs, Ref(e.group, i), p)
  {
    PreparedLine(w.db.groups, e.group, e.checks, p);
    PreparedLine(w.db.groups, e.group, e.checks, Ref(e.group, i));
  }

  lemma NoCapture(w: World, e: Event)
    requires !e.Preflight? || !Enabled(w, e)
    ensures !CapturesTwin(w, e)
  {
    hide Enabled;
  }

  /**
   As long as no manual caller overrides the checks, one step brings two live
   lines with the same content together if and only if it is a first preflight
   that captures for a file the content another live line already has.
   */
  lemma TwinContentStep(w: World, e: Event)
    requires Inv(w) && NoContentTwins(w.db.groups) && NoOverride(e)
    ensures NoContentTwins(Next(w, e).db.groups) <==> !CapturesTwin(w, e)
  {
    InvFacts(w);
    hide Inv, FlightInv, QueueInv, Enabled, Apply, NoContentTwins, Evolved;
    StepHolds(w, e);
    if Enabled(w, e) && e.Preflight? {
      PreflightTwins(w, e);
    } else {
      NoCapture(w, e);
      if Enabled(w, e) {
        if e.ClaimManual? || e.ClaimByTick? { ClaimStepTwins(w, e); }
        else {
          OthersAddNone(w, e);
          forall g | 0 <= g < |w.db.groups| ensures ContentsAt(w, Apply(w, e), g) { ContentStep(w, e, g); }
          SameTwins(w, Apply(w, e));
        }
      }
    }
  }

  // ---- whole runs -------------------------------------------------------------------------

  ghost predicate NeverTwins(w: World, es: seq<Event>) {
    NoContentTwins(Run(w, es).db.groups) && (es == [] || NeverTwins(w, es[..|es| - 1]))
  }

  ghost predicate NeverCaptures(w: World, es: seq<Event>) {
    es == [] || (NeverCaptures(w, es[..|es| - 1]) && !CapturesTwin(Run(w, es[..|es| - 1]), es[|es| - 1]))
  }

  /**
   Over every run without a manual override: no two live lines of one release
   and path, one of them automatic, ever carry the same captured content, if
   and only if no first preflight captures the content of another live line.
   */
  lemma {:induction false} SameContentOnlyByCapture(w: World, es: seq<Event>)
    requires Initial(w) && forall e :: e in es ==> NoOverride(e)
    ensures NeverTwins(w, es) <==> NeverCaptures(w, es)
  {
    hide Inv, Next, NoContentTwins, CapturesTwin;
    InitialHolds(w);
    if es == [] { NoLinesNoTwins(w.db.groups); }
    else {
      var before, last := es[..|es| - 1], es[|es| - 1];
      assert last in es;
      SameContentOnlyByCapture(w, before);
      RunHolds(w, before);
      if NeverTwins(w, before) { TwinFree(w, before); TwinContentStep(Run(w, before), last); }
    }
  }

  lemma TwinFree(w: World, es: seq<Event>)
    requires NeverTwins(w, es)
    ensures NoContentTwins(Run(w, es).db.groups)
  {}

  lemma NoLinesNoTwins(groups: seq<Group>)
    requires groups == []
    ensures NoContentTwins(groups)
  {}
}
