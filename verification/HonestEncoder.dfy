/** With an encoder that creates nothing it refuses, an automatic source gets at most one job. */
module HonestEncoder {
  import opened Json
  import opened EncoderHistory
  import opened EncoderTables
  import opened EncoderRuns
  import opened ReceiptSteps
  import opened FlightInvariant
  import opened QueueInvariant
  import opened QueueSteps
  import opened QueueClaims
  import opened RunSafety
  import opened RunStatuses
  import SettleLemmas
  import RepairReceipt

  /** An error entry of the reply speaks about the file at position `i`. */
  ghost predicate Denies(items: seq<Item>, code: int, body: Json, i: nat) {
    exists k: nat, e: Json ::
      k < |Open(items)| && Open(items)[k] == i && e in ErrorsOf(ReceiptPayload(code, body)) && Match(Paths(Sent(items)), e) == Some(k)
  }

  predicate CreatedFor(w: World, g: nat, i: nat) { Ref(g, i) in w.created }

  /** The encoder never denies a job it created, and creates none for a file it refused. */
  ghost predicate Honest(w: World, e: Event)
    requires Enabled(w, e)
  {
    match e
    case Post(g, _, creates) =>
      forall i :: i in creates && i < |w.db.groups[g].items| ==> w.db.groups[g].items[i].status != Rejected
    case Refuse(g, _, _, _) => forall i :: !CreatedFor(w, g, i)
    case Reply(g, code, body, _, _) =>
      code in ENCODER_CODES ==> forall i :: CreatedFor(w, g, i) ==> !Denies(w.db.groups[g].items, code, body, i)
    case RecoverReceipt(g, answer, changed) =>
      (match OutcomeOf(w.db.groups[g].requestId, answer)
       case Refuses(_) => forall i :: !CreatedFor(w, g, i)
       case Settles(code, body) =>
         forall i :: CreatedFor(w, g, i) ==> !Denies(Reopen(MarkConflicts(w.db.groups[g].items, changed)), code, body, i)
       case _ => true)
    case _ => true
  }

  ghost predicate HonestRun(w: World, es: seq<Event>) {
    es == [] ||
    (HonestRun(w, es[..|es| - 1]) &&
     var u := Run(w, es[..|es| - 1]); Enabled(u, es[|es| - 1]) ==> Honest(u, es[|es| - 1]))
  }

  /** Only an error entry about a file gets it rejected. */
  lemma RejectedWasDenied(items: seq<Item>, code: int, body: Json, i: nat)
    requires i < |items| && Settled(items, code, body)[i].status == Rejected
    ensures items[i].status == Rejected || Denies(items, code, body, i)
  {
    SettleLemmas.OnlySendingFilesSettle(items, code, body);
    if items[i].status == Sending {
      var k := SettleLemmas.SentIndex(items, code, body, i);
      var sent := Sent(items);
      var r := Read(Paths(sent), code, body);
      SettleLemmas.VerdictFields(sent, r, k);
      assert RefusalOf(r.refusals, k).Some?;
      SettleLemmas.ErrorBehindRefusal(Paths(sent), code, body, k);
    }
  }

  predicate NotRejected(g: Group, i: nat) {
    i < |g.items| && g.items[i].status != Rejected
  }

  lemma ReplyKeepsCreated(g: Group, code: int, body: Json, saved: Json, changed: set<nat>, now: int, i: nat)
    requires NotRejected(g, i) && code in {200, 202, 207}
    requires code in ENCODER_CODES ==> !Denies(g.items, code, body, i)
    ensures NotRejected(Answered(g, code, body, saved, changed, now), i)
  {
    hide Denies, Settled, MarkConflicts;
    SettledLength(g.items, code, body);
    if code != 202 && Settled(g.items, code, body)[i].status == Rejected { RejectedWasDenied(g.items, code, body, i); }
  }

  lemma SettledLength(items: seq<Item>, code: int, body: Json)
    ensures |Settled(items, code, body)| == |items|
  {
    SettleLemmas.OnlySendingFilesSettle(items, code, body);
  }

  lemma RecoveryKeepsCreated(g: Group, o: Outcome, changed: set<nat>, now: int, i: nat)
    requires NotRejected(g, i) && !o.Refuses?
    requires o.Settles? ==> !Denies(Reopen(MarkConflicts(g.items, changed)), o.code, o.body, i)
    ensures NotRejected(RecoverWith(g, o, changed, now), i)
  {
    hide Denies, Settled;
    var open := Reopen(MarkConflicts(g.items, changed));
    if o.Settles? {
      SettledLength(open, o.code, o.body);
      if Settled(open, o.code, o.body)[i].status == Rejected { RejectedWasDenied(open, o.code, o.body, i); }
    }
  }

  lemma ReplyApplied(w: World, e: Event)
    requires Enabled(w, e) && e.Reply? && Honest(w, e)
    ensures var g := e.group;
      e.code in {200, 202, 207} && g < |w.db.groups| && |Apply(w, e).db.groups| == |w.db.groups| &&
      Apply(w, e).db.groups[g] == Answered(w.db.groups[g], e.code, e.body, e.saved, e.changed, w.now)
    ensures e.code in ENCODER_CODES ==>
      forall i :: CreatedFor(w, e.group, i) ==> !Denies(w.db.groups[e.group].items, e.code, e.body, i)
  {
    hide EnabledCatalogue, EnabledQueue, ApplyCatalogue, ApplyQueue;
    hide Denies, Answered;
  }

  lemma RecoveryApplied(w: World, e: Event)
    requires Enabled(w, e) && e.RecoverReceipt? && Honest(w, e)
    ensures var g := e.group;
      g < |w.db.groups| && |Apply(w, e).db.groups| == |w.db.groups| &&
      Apply(w, e).db.groups[g] == RecoverWith(w.db.groups[g], OutcomeOf(w.db.groups[g].requestId, e.answer), e.changed, w.now)
    ensures var o := OutcomeOf(w.db.groups[e.group].requestId, e.answer);
      (o.Refuses? ==> forall i :: !CreatedFor(w, e.group, i)) &&
      (o.Settles? ==> forall i :: CreatedFor(w, e.group, i) ==>
         !Denies(Reopen(MarkConflicts(w.db.groups[e.group].items, e.changed)), o.code, o.body, i))
  {
    hide EnabledCatalogue, EnabledQueue, ApplyCatalogue, ApplyQueue;
    hide Denies, RecoverWith, OutcomeOf, SettleAuto, RetryAfter, MarkConflicts, Reopen;
  }

  lemma RefuseHonest(w: World, e: Event)
    requires Enabled(w, e) && e.Refuse? && Honest(w, e)
    ensures forall i :: !CreatedFor(w, e.group, i)
  {
    hide EnabledCatalogue, EnabledQueue, ApplyCatalogue, ApplyQueue;
  }

  lemma AnswersKeepCreated(w: World, e: Event, c: Ref)
    requires Inv(w) && Enabled(w, e) && Honest(w, e) && Answers(e, c.group)
    requires c in w.created && c.group < |w.db.groups| && NotRejected(w.db.groups[c.group], c.index)
    ensures c.group < |Apply(w, e).db.groups| && NotRejected(Apply(w, e).db.groups[c.group], c.index)
  {
    hide Inv, Enabled, Apply, Honest, NotRejected, RecoverWith, Answered, OutcomeOf, Denies;
    assert CreatedFor(w, c.group, c.index);
    if e.Reply? {
      ReplyApplied(w, e);
      ReplyKeepsCreated(w.db.groups[c.group], e.code, e.body, e.saved, e.changed, w.now, c.index);
    } else if e.Refuse? {
      RefuseHonest(w, e);
    } else {
      RecoveryApplied(w, e);
      RecoveryKeepsCreated(w.db.groups[c.group], OutcomeOf(w.db.groups[c.group].requestId, e.answer), e.changed, w.now, c.index);
    }
  }

  /** Every created job's line is live: the program still takes it as possibly encoding. */
  ghost predicate CreatedLive(w: World) {
    forall c :: c in w.created ==> LiveRef(w.db.groups, c)
  }

  lemma CreatedPlace(w: World, c: Ref)
    requires FlightInv(w) && c in w.created
    ensures HasRef(w.db.groups, c) && At(w.db.groups, c).status != NotSent
  {
    assert GroupOk(w.db.groups[c.group]);
    assert FlightOk(w.db.groups[c.group], OwnerOf(w, c.group), w.posts[c.group], true, w.recoveries[c.group]);
  }

  lemma NewJobs(w: World, e: Event, c: Ref)
    requires FlightInv(w) && Enabled(w, e) && c in Apply(w, e).created && c !in w.created
    ensures e.Post? && c.group == e.group && c.index in e.creates && Apply(w, e).db.groups == w.db.groups
  {
    hide FlightInv, Apply, Enabled, SameTraffic;
    if !TouchesReceipts(e) { OtherStepsKeepFlight(w, e); SameCreated(w, Apply(w, e)); assert false; }
    OnlyPostCreates(w, e);
    PostCreates(w, e);
  }

  lemma SameCreated(w: World, v: World)
    requires SameTraffic(w, v)
    ensures v.created == w.created
  {}

  lemma PostCreates(w: World, e: Event)
    requires Enabled(w, e) && e.Post?
    ensures Apply(w, e).db.groups == w.db.groups
    ensures forall c :: c in Apply(w, e).created ==> c in w.created || (c.group == e.group && c.index in e.creates)
  {
    hide EnabledCatalogue, EnabledQueue, ApplyCatalogue, ApplyQueue;
  }

  lemma ClaimsCreateNone(w: World, e: Event)
    requires Enabled(w, e) && (e.ClaimManual? || e.ClaimByTick?)
    ensures Apply(w, e).created == w.created
  {
    hide EnabledCatalogue, EnabledRequest, ApplyCatalogue, ApplyRequest;
    hide AddGroup, FreshRequest, ClaimChecks;
  }

  lemma CommitCreatesNone(w: World, e: Event)
    requires Enabled(w, e) && e.Commit?
    ensures Apply(w, e).created == w.created
  {
    hide Enabled, Apply, DoCommit, QueueFrame;
    CommitApplied(w, e);
    CommitShape(w, e.group, e.ok, e.sameServer, e.snapshot, e.facts);
  }

  lemma RecoveryCreatesNone(w: World, e: Event)
    requires Enabled(w, e) && e.RecoverReceipt?
    ensures Apply(w, e).created == w.created
  {
    hide Enabled, Apply, SettleItem, Recover;
    RecoverApplied(w, e);
  }

  lemma OnlyPostCreates(w: World, e: Event)
    requires Enabled(w, e) && TouchesReceipts(e)
    ensures e.Post? || Apply(w, e).created == w.created
  {
    hide Enabled, Apply, QueueFrame;
    if e.ClaimManual? || e.ClaimByTick? { ClaimsCreateNone(w, e); }
    else if e.Commit? { CommitCreatesNone(w, e); }
    else if e.RecoverReceipt? { RecoveryCreatesNone(w, e); }
    else { ReceiptsOnlyFrame(w, e); }
  }

  lemma PostHonest(w: World, e: Event)
    requires Enabled(w, e) && e.Post? && Honest(w, e)
    ensures e.group < |w.db.groups| &&
      forall i :: i in e.creates && i < |w.db.groups[e.group].items| ==> w.db.groups[e.group].items[i].status != Rejected
  {
    hide EnabledCatalogue, EnabledQueue, ApplyCatalogue, ApplyQueue;
  }

  lemma JobsStep(w: World, e: Event)
    requires Inv(w) && CreatedLive(w) && (Enabled(w, e) ==> Honest(w, e))
    ensures CreatedLive(Next(w, e))
  {
    hide Apply, Enabled, Honest, FlightInv, QueueInv, KeepsUnknown, Evolved;
    StepHolds(w, e);
    var v := Next(w, e);
    forall c | c in v.created
      ensures LiveRef(v.db.groups, c)
    {
      CreatedPlace(v, c);
      if Enabled(w, e) {
        if c in w.created {
          CreatedPlace(w, c);
          StatusStep(w, e, c.group);
          if Answers(e, c.group) { AnswersKeepCreated(w, e, c); }
        } else {
          NewJobs(w, e, c);
          PostHonest(w, e);
        }
      }
    }
  }

  lemma {:induction false} CreatedStaysLive(w: World, es: seq<Event>)
    requires Initial(w) && HonestRun(w, es)
    ensures CreatedLive(Run(w, es))
  {
    hide Inv, Next, Enabled, Honest;
    InitialHolds(w);
    if es == [] { NoneCreated(w); }
    else {
      var before := es[..|es| - 1];
      CreatedStaysLive(w, before);
      RunHolds(w, before);
      JobsStep(Run(w, before), es[|es| - 1]);
    }
  }

  lemma NoneCreated(w: World)
    requires Initial(w)
    ensures CreatedLive(w)
  {}

  /** One job at most per automatic source, over every run without a manual override. */
  lemma OneJobPerAutomaticSource(w: World, es: seq<Event>, c: Ref, d: Ref)
    requires Initial(w) && HonestRun(w, es) && forall e :: e in es ==> NoOverride(e)
    requires c in Run(w, es).created && d in Run(w, es).created
    ensures SameAutomaticSource(Run(w, es).db.groups, c, d) ==> c == d
  {
    hide Run;
    CreatedStaysLive(w, es);
    AtMostOneLiveLine(w, es);
  }
}
