/** Who may change a line's status, and what an honest encoder's jobs add up to. */
module RunStatuses {
  import opened Json
  import opened EncoderHistory
  import opened EncoderTables
  import opened EncoderRuns
  import opened ReceiptSteps
  import opened FlightInvariant
  import opened QueueInvariant
  import opened QueueSteps
  import opened QueueClaims
  import opened RunSafety
  import SettleLemmas
  import RepairReceipt

  /** Unknown lines stay unknown, no line is refused that was not refused before, no request starts. */
  predicate KeepsUnknown(a: Group, b: Group) {
    |b.items| == |a.items| &&
    forall i :: 0 <= i < |a.items| && a.items[i].status == Unknown ==> b.items[i].status == Unknown
  }

  predicate RefusesNone(a: Group, b: Group) {
    |b.items| == |a.items| &&
    forall i :: 0 <= i < |a.items| && b.items[i].status == Rejected ==> a.items[i].status == Rejected
  }

  predicate StartsNone(a: Group, b: Group) { b.startedAt == a.startedAt }

  predicate Quiet(a: Group, b: Group) { KeepsUnknown(a, b) && RefusesNone(a, b) && StartsNone(a, b) }

  predicate StaysQuiet(w: World, v: World, g: nat) {
    g < |w.db.groups| <= |v.db.groups| && Quiet(w.db.groups[g], v.db.groups[g])
  }

  predicate QuietAt(w: World, v: World, g: nat, started: bool) {
    && g < |w.db.groups| <= |v.db.groups|
    && KeepsUnknown(w.db.groups[g], v.db.groups[g]) && RefusesNone(w.db.groups[g], v.db.groups[g])
    && (started || StartsNone(w.db.groups[g], v.db.groups[g]))
  }

  /** Asks or reads again what the encoder decided about receipt `g`. */
  predicate Rereads(e: Event, g: nat) {
    (e.RecoverReceipt? || e.Repair?) && e.group == g
  }

  /** Brings an answer of the encoder about receipt `g`. */
  predicate Answers(e: Event, g: nat) {
    (e.Reply? || e.Refuse? || e.RecoverReceipt?) && e.group == g
  }

  lemma QuietExpiry(w: World, g: nat)
    requires g < |w.db.groups|
    ensures Quiet(w.db.groups[g], ExpireAll(w.db.groups, w.now)[g])
  {}

  lemma QuietClaim(w: World, e: Event, g: nat)
    requires Enabled(w, e) && g < |w.db.groups| && (e.ClaimManual? || e.ClaimByTick?)
    ensures StaysQuiet(w, Apply(w, e), g)
  {
    hide EnabledCatalogue, EnabledRequest, ApplyCatalogue, ApplyRequest;
    hide Quiet, ExpireAll;
    ClaimAddsGroup(w, e);
    ExpiryCount(w.db.groups, w.now);
    QuietExpiry(w, g);
  }

  /** Before the intent no line is unknown, so nothing done then touches one. */
  lemma BeforeIntentItems(a: Group, checks: seq<Option<Captured>>, now: int)
    requires GroupOk(a) && a.startedAt.None?
    ensures |checks| == |a.items| ==> Quiet(a, a.(items := Prepare(a.items, checks)))
    ensures Quiet(a, FinishFailure(a, false, "aborted", now))
  {}

  lemma CommittedItems(a: Group, b: Group, ok: set<nat>)
    requires GroupOk(a) && a.startedAt.None?
    requires b.items == Recheck(a.items, ok) || b.items == WriteOff(Recheck(a.items, ok), false, "aborted")
    ensures KeepsUnknown(a, b) && RefusesNone(a, b)
  {}

  lemma NotStartedYet(w: World, g: nat)
    requires FlightInv(w) && (InPhase(w, g, Preparing) || InPhase(w, g, Prepared))
    ensures GroupOk(w.db.groups[g]) && w.db.groups[g].startedAt.None?
  {
    hide GroupOk, FlightOk;
    FlightAt(w, g);
    FlightFacts(w.db.groups[g], OwnerOf(w, g), w.posts[g], g in w.received, w.recoveries[g]);
  }

  lemma QuietPrepare(w: World, e: Event, g: nat)
    requires FlightInv(w) && Enabled(w, e) && g < |w.db.groups| && e.Preflight?
    ensures StaysQuiet(w, Apply(w, e), g)
  {
    hide EnabledCatalogue, EnabledQueue, ApplyCatalogue, ApplyQueue;
    hide FlightInv, GroupOk, Prepare, Quiet;
    NotStartedYet(w, e.group);
    QuietSelf(w.db.groups[g]);
    BeforeIntentItems(w.db.groups[e.group], e.checks, w.now);
  }

  lemma QuietAbort(w: World, e: Event, g: nat)
    requires FlightInv(w) && Enabled(w, e) && g < |w.db.groups| && e.Abort?
    ensures StaysQuiet(w, Apply(w, e), g)
  {
    hide FlightInv, Enabled, Apply, DoAbort, StaysQuiet, GroupOk;
    AbortApplied(w, e);
    NotStartedYet(w, e.group);
    AbortStaysQuiet(w, e.group, g);
  }

  lemma AbortStaysQuiet(w: World, h: nat, g: nat)
    requires h < |w.db.groups| && g < |w.db.groups| && GroupOk(w.db.groups[h]) && w.db.groups[h].startedAt.None?
    ensures StaysQuiet(w, DoAbort(w, h, w.db.groups[h].items, w.db.groups[h].snapshot), g)
  {
    hide GroupOk, FinishFailure, Quiet;
    QuietSelf(w.db.groups[g]);
    var a := w.db.groups[h];
    BeforeIntentItems(a, [], w.now);
    assert a.(items := a.items, snapshot := a.snapshot) == a;
  }

  /** A commit either starts the rechecked request or gives it up. */
  ghost predicate CommitsItems(w: World, v: World, g: nat, items: seq<Item>) {
    && g < |w.db.groups| == |v.db.groups| && v.db.groups == w.db.groups[g := v.db.groups[g]]
    && (v.db.groups[g].items == items || v.db.groups[g].items == WriteOff(items, false, "aborted"))
  }

  lemma CommitItems(w: World, g: nat, ok: set<nat>, sameServer: bool, snapshot: Json, f: Facts)
    requires ReadyToCommit(w, g)
    ensures CommitsItems(w, DoCommit(w, g, ok, sameServer, snapshot, f), g, Recheck(w.db.groups[g].items, ok))
  {
    hide Validate, FactsFit, DoAbort, StartWith, SendingSet, Recheck, CommitsItems;
    var items := Recheck(w.db.groups[g].items, ok);
    StartItems(w, g, items, snapshot);
    AbortItems(w, w, g, items, snapshot);
    if w.db.groups[g].origin.Automatic? {
      var a := w.db.groups[g].origin.item;
      match Validate(w.db, a, w.owners[g].token.value, snapshot, f, w.now)
      case Granted =>
      case Denied(auto) => AbortItems(w, w.(db := w.db.(autos := w.db.autos[a := auto])), g, items, snapshot);
    }
  }

  lemma StartItems(w: World, g: nat, items: seq<Item>, snapshot: Json)
    requires g < |w.db.groups| && g in w.owners
    ensures CommitsItems(w, StartWith(w, g, items, snapshot), g, items)
  {}

  lemma AbortItems(w: World, moved: World, g: nat, items: seq<Item>, snapshot: Json)
    requires g < |w.db.groups| && moved.db.groups == w.db.groups
    ensures CommitsItems(w, DoAbort(moved, g, items, snapshot), g, items)
  {}

  lemma QuietCommit(w: World, e: Event, g: nat)
    requires FlightInv(w) && Enabled(w, e) && g < |w.db.groups| && e.Commit?
    ensures QuietAt(w, Apply(w, e), g, e.group == g)
  {
    hide FlightInv, GroupOk, Recheck, WriteOff, DoCommit, KeepsUnknown, RefusesNone, FactsFit, Enabled, Apply;
    CommitApplied(w, e);
    var v := Apply(w, e);
    CommitItems(w, e.group, e.ok, e.sameServer, e.snapshot, e.facts);
    NotStartedYet(w, e.group);
    if e.group == g { CommittedItems(w.db.groups[g], v.db.groups[g], e.ok); }
    else { QuietSelf(w.db.groups[g]); }
  }

  lemma QuietTraffic(w: World, e: Event, g: nat)
    requires Enabled(w, e) && g < |w.db.groups| && (e.Post? || e.CrashOwner? || e.SelectReceipt?)
    ensures StaysQuiet(w, Apply(w, e), g)
  {
    hide EnabledCatalogue, EnabledQueue, ApplyCatalogue, ApplyQueue;
    hide AwaitsReceipt;
  }

  lemma QuietWriteOff(w: World, e: Event, g: nat)
    requires Enabled(w, e) && g < |w.db.groups| && (e.Undelivered? || e.Lose?)
    ensures StaysQuiet(w, Apply(w, e), g)
  {
    hide EnabledCatalogue, EnabledQueue, ApplyCatalogue, ApplyQueue;
    hide Quiet, LostPost, FinishFailure;
    QuietSelf(w.db.groups[g]);
    var o := w.db.groups[e.group];
    if e.Lose? { QuietLoss(o, e.http, e.retry, e.changed, w.now); } else { QuietFailure(o, w.now); }
  }

  lemma QuietLoss(g: Group, http: Option<int>, retry: bool, changed: set<nat>, now: int)
    ensures Quiet(g, LostPost(g, http, retry, changed, now))
  {}

  lemma QuietFailure(g: Group, now: int)
    ensures Quiet(g, FinishFailure(g.(httpStatus := None), false, "undelivered", now))
  {}

  lemma QuietRepair(w: World, e: Event, g: nat)
    requires Enabled(w, e) && g < |w.db.groups| && e.Repair?
    ensures g < |Apply(w, e).db.groups|
    ensures RefusesNone(w.db.groups[g], Apply(w, e).db.groups[g]) && StartsNone(w.db.groups[g], Apply(w, e).db.groups[g])
    ensures e.group != g ==> StaysQuiet(w, Apply(w, e), g)
  {
    hide EnabledCatalogue, EnabledQueue, ApplyCatalogue, ApplyQueue;
    hide RepairReceipt.Repaired;
    var o := w.db.groups[e.group];
    var r := RepairReceipt.Repaired(o.items, o.httpStatus.value, o.response);
    forall i | 0 <= i < |o.items|
      ensures r[i].status == Rejected ==> o.items[i].status == Rejected
    {
      RepairReceipt.RepairOnlyAccepts(o.items, o.httpStatus.value, o.response, i);
    }
  }

  lemma AnswerIsQuiet(o: Group, e: Event, now: int)
    requires e.Reply? || e.Refuse?
    ensures KeepsUnknown(o, AfterAnswer(o, e, now)) && StartsNone(o, AfterAnswer(o, e, now))
  {
    hide Settled;
    if e.Reply? { SettleLemmas.OnlySendingFilesSettle(o.items, e.code, e.body); }
  }

  lemma QuietReply(w: World, e: Event, g: nat)
    requires Enabled(w, e) && g < |w.db.groups| && (e.Reply? || e.Refuse?)
    ensures g < |Apply(w, e).db.groups|
    ensures KeepsUnknown(w.db.groups[g], Apply(w, e).db.groups[g]) && StartsNone(w.db.groups[g], Apply(w, e).db.groups[g])
    ensures e.group != g ==> StaysQuiet(w, Apply(w, e), g)
  {
    hide Enabled, Apply, AfterAnswer, KeepsUnknown, Quiet, StartsNone;
    AnswerApplied(w, e);
    AnswerIsQuiet(w.db.groups[e.group], e, w.now);
    QuietSelf(w.db.groups[g]);
    QuietParts(w.db.groups[g]);
  }

  lemma QuietParts(g: Group)
    ensures KeepsUnknown(g, g) && StartsNone(g, g)
  {}

  lemma QuietRecovery(w: World, e: Event, g: nat)
    requires Enabled(w, e) && g < |w.db.groups| && e.RecoverReceipt?
    ensures g < |Apply(w, e).db.groups|
    ensures StartsNone(w.db.groups[g], Apply(w, e).db.groups[g])
    ensures e.group != g ==> StaysQuiet(w, Apply(w, e), g)
  {
    hide Enabled, Apply, RecoverWith, OutcomeOf, SettleAuto, RetryAfter;
    RecoverApplied(w, e);
    QuietSelf(w.db.groups[g]);
    hide Quiet;
    RecoverKeepsReply(w.db.groups[e.group], e.answer, e.changed, w.now);
  }

  lemma StatusStep(w: World, e: Event, g: nat)
    requires FlightInv(w) && Enabled(w, e) && g < |w.db.groups|
    ensures g < |Apply(w, e).db.groups|
    ensures Rereads(e, g) || KeepsUnknown(w.db.groups[g], Apply(w, e).db.groups[g])
    ensures Answers(e, g) || RefusesNone(w.db.groups[g], Apply(w, e).db.groups[g])
    ensures (e.Commit? && e.group == g) || StartsNone(w.db.groups[g], Apply(w, e).db.groups[g])
  {
    hide FlightInv, Apply, Enabled, KeepsUnknown, RefusesNone, StartsNone, SameTraffic, GroupEvolves;
    FlightNext(w, e);
    if !TouchesReceipts(e) { OtherStepsKeepFlight(w, e); SameTrafficFacts(w, Apply(w, e)); QuietSelf(w.db.groups[g]); }
    else if e.ExpireReceipts? { QuietExpiry(w, g); ExpiryApplied(w, e); }
    else if e.ClaimManual? || e.ClaimByTick? { QuietClaim(w, e, g); }
    else if e.Preflight? { QuietPrepare(w, e, g); }
    else if e.Abort? { QuietAbort(w, e, g); }
    else if e.Commit? { QuietCommit(w, e, g); }
    else if e.Repair? { QuietRepair(w, e, g); }
    else if e.Reply? || e.Refuse? { QuietReply(w, e, g); }
    else if e.RecoverReceipt? { QuietRecovery(w, e, g); }
    else if e.Undelivered? || e.Lose? { QuietWriteOff(w, e, g); }
    else { QuietTraffic(w, e, g); }
  }

  lemma QuietSelf(g: Group)
    ensures Quiet(g, g)
  {}

  lemma ExpiryApplied(w: World, e: Event)
    requires Enabled(w, e) && e.ExpireReceipts?
    ensures Apply(w, e).db.groups == ExpireAll(w.db.groups, w.now)
  {}

  /** An unknown line changes only when its receipt is asked for again or its saved reply is read again. */
  lemma {:induction false} UnknownWaitsForReceipt(w: World, es: seq<Event>, r: Ref)
    requires Inv(w) && HasRef(w.db.groups, r) && At(w.db.groups, r).status == Unknown
    requires forall e :: e in es ==> !Rereads(e, r.group)
    ensures var v := Run(w, es); HasRef(v.db.groups, r) && At(v.db.groups, r).status == Unknown
  {
    hide Inv, Apply, Enabled;
    if es != [] {
      var before, last := es[..|es| - 1], es[|es| - 1];
      assert last in es;
      UnknownWaitsForReceipt(w, before, r);
      RunHolds(w, before);
      InvFacts(Run(w, before));
      if Enabled(Run(w, before), last) { StatusStep(Run(w, before), last, r.group); }
    }
  }
}
