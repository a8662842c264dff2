/** `cancelled` is final as long as no receipt is asked for while the submission that sent it is still running. */
module CancelledFinal {
  import opened Json
  import opened EncoderHistory
  import opened EncoderTables
  import opened EncoderRuns
  import opened ReceiptSteps
  import opened FlightInvariant
  import opened QueueInvariant
  import opened QueueSteps
  import opened QueueClaims
  import opened RunSafety
  import opened RunStatuses
  import opened RunReplies
  import opened RunUnsent
  import opened CancelledRows

  /** A receipt is selected for recovery only when its submission is no longer running. */
  ghost predicate SelectsIdle(u: World, e: Event) {
    Enabled(u, e) && e.SelectReceipt? ==> e.group !in u.owners
  }

  ghost predicate IdleRun(w: World, es: seq<Event>) {
    es == [] || (IdleRun(w, es[..|es| - 1]) && SelectsIdle(Run(w, es[..|es| - 1]), es[|es| - 1]))
  }

  /** A receipt that is being asked for: nobody runs its submission, and it was not found unsent. */
  ghost predicate AskedIdle(w: World, g: nat) {
    w.recoveries[g] > 0 && g < |w.db.groups| && w.db.groups[g].origin.Automatic? ==>
      && g !in w.owners && w.db.groups[g].startedAt.Some?
      && HasRef(w.db.groups, Ref(g, 0)) && At(w.db.groups, Ref(g, 0)).status != NotSent
  }

  ghost predicate AllAskedIdle(w: World) { forall g: nat :: g < |w.db.groups| ==> AskedIdle(w, g) }

  lemma ClaimsAskNothing(w: World, e: Event)
    requires Enabled(w, e) && (e.ClaimManual? || e.ClaimByTick?)
    ensures Apply(w, e).recoveries == w.recoveries
  {
    hide EnabledCatalogue, EnabledRequest, ApplyCatalogue, ApplyRequest;
    hide AddGroup, FreshRequest, ClaimChecks;
  }

  lemma CommitAsksNothing(w: World, e: Event)
    requires Enabled(w, e) && e.Commit?
    ensures Apply(w, e).recoveries == w.recoveries
  {
    hide Enabled, Apply, DoCommit, QueueFrame;
    CommitApplied(w, e);
    CommitShape(w, e.group, e.ok, e.sameServer, e.snapshot, e.facts);
  }

  lemma RecoveryAsksLess(w: World, e: Event, g: nat)
    requires Enabled(w, e) && e.RecoverReceipt?
    ensures Apply(w, e).recoveries[g] <= w.recoveries[g]
  {
    hide Enabled, Apply, SettleItem, Recover;
    RecoverApplied(w, e);
  }

  /** Only selecting a receipt asks for one more. */
  lemma OnlySelectionAsks(w: World, e: Event, g: nat)
    requires FlightInv(w) && Enabled(w, e) && !e.SelectReceipt?
    ensures Apply(w, e).recoveries[g] <= w.recoveries[g]
  {
    hide FlightInv, Apply, Enabled, QueueFrame;
    if !TouchesReceipts(e) { OtherStepsKeepFlight(w, e); }
    else if e.ClaimManual? || e.ClaimByTick? { ClaimsAskNothing(w, e); }
    else if e.Commit? { CommitAsksNothing(w, e); }
    else if e.RecoverReceipt? { RecoveryAsksLess(w, e, g); }
    else { ReceiptsOnlyFrame(w, e); }
  }

  lemma SelectedLine(w: World, e: Event, g: nat)
    requires Inv(w) && Enabled(w, e) && e.SelectReceipt? && g < |w.db.groups|
    ensures var v := Apply(w, e); g < |v.db.groups| && (g != e.group ==> v.recoveries[g] == w.recoveries[g])
    ensures var o := w.db.groups[g];
      e.group == g && o.origin.Automatic? ==> o.startedAt.Some? && |o.items| == 1 && o.items[0].status != NotSent
  {
    InvFacts(w);
    hide Inv, FlightInv, QueueInv, FlightOk, Enabled, Apply;
    SelectApplied(w, e);
    FlightAt(w, g);
  }

  lemma NewReceiptAsksNothing(w: World, v: World, g: nat)
    requires Inv(w) && |w.db.groups| <= g && v.recoveries[g] <= w.recoveries[g]
    ensures v.recoveries[g] == 0
  {
    assert FlightInv(w);
  }

  lemma AskedStep(w: World, e: Event)
    requires Inv(w) && AllAskedIdle(w) && SelectsIdle(w, e)
    ensures AllAskedIdle(Next(w, e))
  {
    InvFacts(w);
    hide Inv, FlightInv, QueueInv, Enabled, Apply, Unsends, Evolved;
    StepHolds(w, e);
    var v := Next(w, e);
    if Enabled(w, e) {
      forall g: nat | g < |v.db.groups|
        ensures AskedIdle(v, g)
      {
        if !e.SelectReceipt? { OnlySelectionAsks(w, e, g); }
        if g < |w.db.groups| {
          assert AskedIdle(w, g);
          if e.SelectReceipt? { SelectedLine(w, e, g); }
          AskedStaysIdle(w, e, g);
        } else {
          if e.SelectReceipt? { OthersAddNone(w, e); assert false; }
          NewReceiptAsksNothing(w, v, g);
        }
      }
    }
  }

  lemma SameReceipt(w: World, v: World, g: nat)
    requires Evolved(w.db.groups, v.db.groups) && g < |w.db.groups|
    ensures g < |v.db.groups| && v.db.groups[g].origin == w.db.groups[g].origin
    ensures w.db.groups[g].startedAt.Some? ==> v.db.groups[g].startedAt.Some?
  {
    assert GroupEvolves(w.db.groups[g], v.db.groups[g]);
  }

  lemma AskedStaysIdle(w: World, e: Event, g: nat)
    requires Inv(w) && Enabled(w, e) && g < |w.db.groups| && g < |Apply(w, e).db.groups|
    requires w.db.groups[g].origin.Automatic? && (Apply(w, e).recoveries[g] > 0) ==>
      g !in w.owners && w.db.groups[g].startedAt.Some? && HasRef(w.db.groups, Ref(g, 0)) && At(w.db.groups, Ref(g, 0)).status != NotSent
    ensures AskedIdle(Apply(w, e), g)
  {
    InvFacts(w);
    hide Inv, FlightInv, QueueInv, Enabled, Apply, Evolved;
    var v := Apply(w, e);
    StepHolds(w, e);
    SameReceipt(w, v, g);
    if v.recoveries[g] > 0 && w.db.groups[g].origin.Automatic? {
      if g in v.owners { OwnersNeverReturn(w, e, g); }
      OnlyUndeliveredUnsends(w, e, Ref(g, 0));
      if Unsends(w, e, Ref(g, 0)) { UnsendsFacts(w, e, Ref(g, 0)); }
    }
  }

  lemma {:induction false} AskedOverRuns(w: World, es: seq<Event>)
    requires Initial(w) && IdleRun(w, es)
    ensures AllAskedIdle(Run(w, es)) && Inv(Run(w, es))
  {
    hide Inv, Next, SelectsIdle;
    InitialHolds(w);
    RunHolds(w, es);
    if es == [] { NothingAsked(w); }
    else {
      AskedOverRuns(w, es[..|es| - 1]);
      AskedStep(Run(w, es[..|es| - 1]), es[|es| - 1]);
    }
  }

  lemma NothingAsked(w: World)
    requires Initial(w)
    ensures AllAskedIdle(w)
  {}

  lemma NotElsewhere(w: World, e: Event, k: nat)
    requires Inv(w) && AllAskedIdle(w)
    ensures !RecoversElsewhere(w, e, k)
  {
    hide Inv, Apply, Enabled, Receipts;
    if Enabled(w, e) && e.RecoverReceipt? {
      RecoverApplied(w, e);
      assert AskedIdle(w, e.group);
      if RecoversElsewhere(w, e, k) { LeftReceiptsWereNotSent(w, e, k); }
    }
  }

  /**
   In every run in which receipts are asked for only after their submission
   ended, a row that is cancelled at some point stays cancelled to the end.
   */
  lemma {:induction false} CancelledIsFinal(w: World, es: seq<Event>, n: nat, k: nat)
    requires Initial(w) && IdleRun(w, es) && n <= |es| && IsCancelled(Run(w, es[..n]), k)
    ensures IsCancelled(Run(w, es), k)
  {
    hide Inv, Next, SelectsIdle, IsCancelled, RecoversElsewhere, AllAskedIdle;
    if n == |es| { assert es[..n] == es; }
    else {
      var before := es[..|es| - 1];
      assert before[..n] == es[..n];
      CancelledIsFinal(w, before, n, k);
      AskedOverRuns(w, before);
      NotElsewhere(Run(w, before), es[|es| - 1], k);
      CancelledStep(Run(w, before), es[|es| - 1], k);
    }
  }
}
