/** What a row says about its file, and what was decided about it, in every state a run can reach. */
module RunVerdicts {
  import opened Json
  import opened EncoderHistory
  import opened EncoderTables
  import opened EncoderRuns
  import opened QueueInvariant
  import opened RunSafety

  /** The row points at a line with that status. */
  ghost predicate PointsAt(w: World, a: Auto, s: Status) {
    a.receipt.Some? && a.receipt.value.group < |w.db.groups| &&
    var r := a.receipt.value; r.index < |w.db.groups[r.group].items| && w.db.groups[r.group].items[r.index].status == s
  }

  lemma VerdictOfRow(w: World, k: nat)
    requires QueueInv(w) && k < |w.db.autos|
    ensures VerdictOk(w.db.groups, w.db.autos[k])
  {
    hide SenderOk, SubmissionOk, ReceiptOk;
    assert AutoOk(w.db, w.db.autos[k]);
  }

  /**
   In every reachable state a row that is done points at an accepted line, and a
   row that says it was rejected needs attention and points at a rejected one.
   */
  lemma VerdictsAreReal(w: World, es: seq<Event>, k: nat)
    requires Initial(w) && k < |Run(w, es).db.autos|
    ensures var v := Run(w, es);
      && (v.db.autos[k].state == Done ==> PointsAt(v, v.db.autos[k], Accepted))
      && (v.db.autos[k].reason == AtRejected ==> v.db.autos[k].state == NeedsAttention && PointsAt(v, v.db.autos[k], Rejected))
  {
    InitialHolds(w);
    RunHolds(w, es);
    InvFacts(Run(w, es));
    hide Run, Inv, QueueInv;
    VerdictOfRow(Run(w, es), k);
  }
}
