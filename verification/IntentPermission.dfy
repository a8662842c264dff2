/** What holds at the instant an automatic request becomes durable. */
module IntentPermission {
  import opened Json
  import opened EncoderHistory
  import opened EncoderTables
  import opened EncoderRuns
  import opened RowLaws
  import opened ReceiptSteps
  import opened FlightInvariant
  import opened QueueInvariant
  import opened QueueSteps
  import opened QueueClaims
  import opened RunSafety
  import opened RunStatuses

  /** The step makes the request of submission `g` durable. */
  ghost predicate Starts(w: World, e: Event, g: nat) {
    && Enabled(w, e) && g < |w.db.groups| && w.db.groups[g].startedAt.None?
    && g < |Apply(w, e).db.groups| && Apply(w, e).db.groups[g].startedAt.Some?
  }

  /** Row `a` is the one row allowed to send submission `g`, under `token`, at this instant. */
  ghost predicate Permitted(w: World, a: nat, g: nat, token: nat) {
    && a < |w.db.autos| && token in w.issued && w.issued[token] == a
    && var auto := w.db.autos[a];
       && Holds(auto, token) && InLease(auto, w.now) && auto.receipt == Some(Ref(g, 0))
       && (forall b :: 0 <= b < |w.db.autos| && b != a ==> !InLease(w.db.autos[b], w.now))
       && MayRun(w.db, auto)
  }

  /** With named presets, the request carries exactly the policy's, as the encoder offers them now. */
  predicate Carries(r: Group, p: Policy) {
    HasPresets(p.presets) ==> r.presets == p.presets && r.snapshot == p.snapshot
  }

  lemma StartWithShape(w: World, g: nat, items: seq<Item>, snapshot: Json)
    requires g < |w.db.groups| && g in w.owners
    ensures var v := StartWith(w, g, items, snapshot);
      v.db.autos == w.db.autos && |v.db.groups| == |w.db.groups| &&
      v.db.groups[g].presets == w.db.groups[g].presets && v.db.groups[g].snapshot == snapshot
  {}

  lemma AbortNeverStarts(w: World, g: nat, items: seq<Item>, snapshot: Json)
    requires g < |w.db.groups| && w.db.groups[g].startedAt.None?
    ensures var v := DoAbort(w, g, items, snapshot);
      |v.db.groups| == |w.db.groups| && v.db.groups[g].startedAt.None?
  {}

  /** A commit that starts an automatic request was granted. */
  lemma StartedWasGranted(w: World, g: nat, ok: set<nat>, sameServer: bool, snapshot: Json, f: Facts)
    requires ReadyToCommit(w, g) && w.db.groups[g].startedAt.None?
    requires w.db.groups[g].origin.Automatic?
    ensures var v, a := DoCommit(w, g, ok, sameServer, snapshot, f), w.db.groups[g].origin.item;
      |v.db.groups| == |w.db.groups| &&
      (v.db.groups[g].startedAt.Some? ==>
         && Validate(w.db, a, w.owners[g].token.value, snapshot, f, w.now).Granted?
         && v.db.autos == w.db.autos
         && v.db.groups[g].presets == w.db.groups[g].presets && v.db.groups[g].snapshot == snapshot)
  {
    hide Validate, FactsFit, DoAbort, StartWith, SendingSet, Recheck;
    var items := Recheck(w.db.groups[g].items, ok);
    StartWithShape(w, g, items, snapshot);
    AbortNeverStarts(w, g, items, snapshot);
    var a := w.db.groups[g].origin.item;
    match Validate(w.db, a, w.owners[g].token.value, snapshot, f, w.now)
    case Granted =>
    case Denied(auto) => AbortNeverStarts(w.(db := w.db.(autos := w.db.autos[a := auto])), g, items, snapshot);
  }

  lemma GrantedFacts(db: Db, a: nat, token: nat, snapshot: Json, f: Facts, now: int)
    requires a < |db.autos| && Validate(db, a, token, snapshot, f, now).Granted?
    ensures var auto := db.autos[a];
      && Holds(auto, token) && InLease(auto, now) && MayRun(db, auto)
      && SameRevision(db, auto)
      && (HasPresets(db.policies[auto.id.release].presets) ==> db.policies[auto.id.release].snapshot == snapshot)
      && Unobstructed(db, auto, f) && NoCarrier(db.groups, auto.id, f.content, OwnGroup(auto))
  {
    GrantedExactlyWhen(db, a, token, snapshot, f, now);
    hide Validate, NoCarrier;
  }

  lemma SubmissionPointer(w: World, g: nat, token: nat)
    requires SubmissionOk(w.db, w.issued, g, token)
    ensures token in w.issued && w.issued[token] < |w.db.autos| && w.db.groups[g].origin == Automatic(w.issued[token])
    ensures var auto := w.db.autos[w.issued[token]];
      Holds(auto, token) ==>
        && auto.receipt == Some(Ref(g, 0))
        && (SameRevision(w.db, auto) && HasPresets(w.db.policies[auto.id.release].presets) ==>
              w.db.groups[g].presets == w.db.policies[auto.id.release].presets)
  {}

  lemma AutomaticOwner(w: World, g: nat)
    requires Inv(w) && InPhase(w, g, Prepared) && w.db.groups[g].origin.Automatic?
    ensures w.owners[g].token.Some? && SubmissionOk(w.db, w.issued, g, w.owners[g].token.value) && OneClaim(w.db.autos, w.now)
  {
    hide GroupOk, FlightOk, AutoOk, SenderOk, SubmissionOk, ReceiptOk;
    FlightAt(w, g);
    FlightFacts(w.db.groups[g], OwnerOf(w, g), w.posts[g], g in w.received, w.recoveries[g]);
  }

  /**
   In every run, an automatic request becomes durable only for the one row whose
   claim is still inside its lease, under the token it was claimed with, while
   the release takes part in the row's own generation; and it carries the
   presets the release has at that instant. Then nothing stands in the row's
   way: the version is archived and AVC, its file is there, wanted and verified,
   and no line of another submission may carry the source.
   */
  lemma CommittedIntent(w: World, es: seq<Event>, e: Event, g: nat)
    requires Initial(w)
    requires var u := Run(w, es); Starts(u, e, g) && u.db.groups[g].origin.Automatic?
    ensures var u := Run(w, es);
      && e.Commit? && e.group == g && InPhase(u, g, Prepared) && u.owners[g].token.Some?
      && var a, v := u.db.groups[g].origin.item, Apply(u, e);
         && Permitted(u, a, g, u.owners[g].token.value)
         && Carries(v.db.groups[g], u.db.policies[u.db.autos[a].id.release])
         && v.db.autos == u.db.autos
         && Unobstructed(u.db, u.db.autos[a], e.facts)
         && NoCarrier(u.db.groups, u.db.autos[a].id, e.facts.content, Some(g))
  {
    InitialHolds(w);
    RunHolds(w, es);
    hide Run;
    IntentStep(Run(w, es), e, g);
  }

  lemma IntentStep(u: World, e: Event, g: nat)
    requires Inv(u) && Starts(u, e, g) && u.db.groups[g].origin.Automatic?
    ensures e.Commit? && e.group == g && InPhase(u, g, Prepared) && u.owners[g].token.Some?
    ensures var a, v := u.db.groups[g].origin.item, Apply(u, e);
      && Permitted(u, a, g, u.owners[g].token.value)
      && Carries(v.db.groups[g], u.db.policies[u.db.autos[a].id.release])
      && v.db.autos == u.db.autos
      && Unobstructed(u.db, u.db.autos[a], e.facts)
      && NoCarrier(u.db.groups, u.db.autos[a].id, e.facts.content, Some(g))
  {
    hide Enabled, Apply, DoCommit, Validate, SubmissionOk, Inv, FlightInv, QueueInv, KeepsUnknown, RefusesNone, MayRun, HasPresets, Unobstructed, NoCarrier;
    InvFacts(u);
    StatusStep(u, e, g);
    CommitApplied(u, e);
    var token, a := u.owners[g].token.value, u.db.groups[g].origin.item;
    StartedWasGranted(u, g, e.ok, e.sameServer, e.snapshot, e.facts);
    GrantedFacts(u.db, a, token, e.snapshot, e.facts, u.now);
    AutomaticOwner(u, g);
    SubmissionPointer(u, g, token);
    OnlyOneInLease(u.db.autos, u.now, a);
  }

  lemma OnlyOneInLease(autos: seq<Auto>, now: int, a: nat)
    requires OneClaim(autos, now) && a < |autos| && InLease(autos[a], now)
    ensures forall b :: 0 <= b < |autos| && b != a ==> !InLease(autos[b], now)
  {}

  // ---- where tokens come from ---------------------------------------------------------

  lemma CatalogueIssuesNone(w: World, e: Event)
    requires Enabled(w, e) && IsCatalogue(e)
    ensures Apply(w, e).issued == w.issued
  {
    hide EnabledQueue, EnabledRequest, ApplyQueue, ApplyRequest;
    hide SetTracked, ObserveArchive, RegisterFile, SavePolicy, ExpireAll;
  }

  lemma CommitIssuesNone(w: World, e: Event)
    requires Enabled(w, e) && e.Commit?
    ensures Apply(w, e).issued == w.issued
  {
    hide Enabled, Apply, DoCommit, QueueFrame;
    CommitApplied(w, e);
    CommitShape(w, e.group, e.ok, e.sameServer, e.snapshot, e.facts);
  }

  lemma RecoveryIssuesNone(w: World, e: Event)
    requires Enabled(w, e) && e.RecoverReceipt?
    ensures Apply(w, e).issued == w.issued
  {
    hide Enabled, Apply, SettleItem, Recover;
    RecoverApplied(w, e);
  }

  lemma QueueIssuesNone(w: World, e: Event)
    requires Enabled(w, e) && IsQueue(e) && !e.ClaimNext?
    ensures Apply(w, e).issued == w.issued
  {
    hide EnabledCatalogue, EnabledRequest, ApplyCatalogue, ApplyRequest;
    hide SettleItem, ReconcileItem, AddGroup, FreshRequest, ClaimChecks, TickRequest, Forbids, FactsFit, Due;
  }

  /** A token once handed out stays with its row; a new one comes from `claim_next`, and its row now holds it. */
  lemma TokensComeFromClaims(w: World, e: Event, t: nat)
    requires Enabled(w, e)
    ensures var v := Apply(w, e);
      && (t in w.issued ==> t in v.issued && v.issued[t] == w.issued[t])
      && (t in v.issued && t !in w.issued ==>
            && e.ClaimNext? && e.token == t && v.issued[t] == e.item && e.item < |v.db.autos|
            && v.db.autos[e.item].state == Claimed && Holds(v.db.autos[e.item], t))
  {
    hide Enabled, Apply, QueueFrame, IsCatalogue;
    if e.ClaimNext? { ClaimNextFacts(w, e); IssuedByClaim(w, e.item, e.facts, e.token, t); }
    else if e.Commit? { CommitIssuesNone(w, e); }
    else if e.RecoverReceipt? { RecoveryIssuesNone(w, e); }
    else if ReceiptsOnly(e) { ReceiptsOnlyFrame(w, e); FrameIssued(w, Apply(w, e)); }
    else if IsQueue(e) { QueueIssuesNone(w, e); }
    else { OtherIsCatalogue(e); CatalogueIssuesNone(w, e); }
  }

  lemma OtherIsCatalogue(e: Event)
    requires !IsQueue(e) && !ReceiptsOnly(e) && !e.Commit? && !e.RecoverReceipt?
    ensures IsCatalogue(e)
  {}

  lemma FrameIssued(w: World, v: World)
    requires QueueFrame(w, v)
    ensures v.issued == w.issued
  {}

  lemma IssuedByClaim(w: World, a: nat, f: Facts, token: nat, t: nat)
    requires a < |w.db.autos| && token !in w.issued
    ensures var v := DoClaimNext(w, a, f, token);
      && (t in w.issued ==> t in v.issued && v.issued[t] == w.issued[t])
      && (t in v.issued && t !in w.issued ==>
            token == t && v.issued[t] == a && a < |v.db.autos| && v.db.autos[a].state == Claimed && Holds(v.db.autos[a], t))
  {
    hide Assess;
    AssessShape(w.db, w.db.autos[a], f);
  }

  // ---- when a commit starts a request ----------------------------------------------------

  /** Some file is still to be sent and passed the second preflight. */
  ghost predicate SomethingToSend(r: Group, ok: set<nat>) {
    exists i: nat :: i < |r.items| && r.items[i].status == Sending && i in ok
  }

  lemma SendingAfterRecheck(items: seq<Item>, ok: set<nat>)
    ensures SendingSet(Recheck(items, ok)) != {} <==> exists i: nat :: i < |items| && items[i].status == Sending && i in ok
  {
    var r := Recheck(items, ok);
    if i: nat :| i < |items| && items[i].status == Sending && i in ok { assert r[i].status == Sending; assert i in SendingSet(r); }
    if SendingSet(r) != {} { var i :| i in SendingSet(r); assert items[i].status == Sending && i in ok; }
  }

  /** The row's permission at this instant, in the fields of row, policy and facts. */
  ghost predicate RowAllows(db: Db, a: nat, token: nat, snapshot: Json, f: Facts, now: int)
    requires a < |db.autos|
  {
    var auto := db.autos[a];
    && auto.state == Claimed && auto.lease.Some? && auto.lease.value.token == token && now < auto.lease.value.until
    && Unobstructed(db, auto, f) && NoCarrier(db.groups, auto.id, f.content, OwnGroup(auto))
    && var p := db.policies[auto.id.release];
       p.revision == auto.revision && (p.presets.video != "" && p.presets.audio != "" ==> p.snapshot == snapshot)
  }

  predicate HasStarted(w: World, g: nat) {
    g < |w.db.groups| && w.db.groups[g].startedAt.Some?
  }

  lemma AllowsMeansGranted(db: Db, a: nat, token: nat, snapshot: Json, f: Facts, now: int)
    requires a < |db.autos|
    ensures RowAllows(db, a, token, snapshot, f, now) <==> Validate(db, a, token, snapshot, f, now).Granted?
  {
    GrantedExactlyWhen(db, a, token, snapshot, f, now);
    hide Validate, NoCarrier, Unobstructed;
  }

  lemma StartedAfter(w: World, g: nat, items: seq<Item>, snapshot: Json)
    requires g < |w.db.groups| && g in w.owners
    ensures HasStarted(StartWith(w, g, items, snapshot), g)
  {}

  lemma NotStartedAfter(w: World, g: nat, items: seq<Item>, snapshot: Json)
    requires g < |w.db.groups| && w.db.groups[g].startedAt.None?
    ensures !HasStarted(DoAbort(w, g, items, snapshot), g)
  {}

  lemma ToSendMeans(r: Group, ok: set<nat>)
    ensures SomethingToSend(r, ok) <==> SendingSet(Recheck(r.items, ok)) != {}
  {
    SendingAfterRecheck(r.items, ok);
  }

  /** A commit starts the request if and only if something is left to send, to the same server, and an automatic row allows it. */
  lemma CommitStartsExactlyWhen(w: World, g: nat, ok: set<nat>, sameServer: bool, snapshot: Json, f: Facts)
    requires ReadyToCommit(w, g) && w.db.groups[g].startedAt.None?
    ensures HasStarted(DoCommit(w, g, ok, sameServer, snapshot, f), g) <==>
      SomethingToSend(w.db.groups[g], ok) && sameServer &&
      (w.db.groups[g].origin.Automatic? ==>
         RowAllows(w.db, w.db.groups[g].origin.item, w.owners[g].token.value, snapshot, f, w.now))
  {
    hide Recheck, SendingSet, DoAbort, StartWith, Validate, RowAllows, SomethingToSend, HasStarted;
    var r := w.db.groups[g];
    var items := Recheck(r.items, ok);
    ToSendMeans(r, ok);
    StartedAfter(w, g, items, snapshot);
    NotStartedAfter(w, g, items, snapshot);
    if r.origin.Automatic? {
      var a, token := r.origin.item, w.owners[g].token.value;
      AllowsMeansGranted(w.db, a, token, snapshot, f, w.now);
      match Validate(w.db, a, token, snapshot, f, w.now)
      case Granted =>
      case Denied(auto) => NotStartedAfter(w.(db := w.db.(autos := w.db.autos[a := auto])), g, items, snapshot);
    }
  }
}
