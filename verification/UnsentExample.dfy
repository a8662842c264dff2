/** A run in which a line written off as unknown ends "not sent": the encoder says that it processes a request it never received. */
module UnsentExample {
  import opened Json
  import opened EncoderHistory
  import opened EncoderTables
  import opened EncoderRuns
  import opened CancelledExample

  const MANUAL := Request("r0", "s", NO_PRESETS, Manual, 0, [LINE], false, false)
  const PROCESSING := Answer(202, Obj(map["request_id" := Str("r0"), "request_status" := Str("processing")]), 30)

  const CLAIMED_RECEIPT := NewGroup(MANUAL, 0)
  const DURABLE := StartRequest(CLAIMED_RECEIPT, [LINE], 0).(snapshot := EMPTY)
  const WRITTEN_OFF := Expire(DURABLE, 601)
  const ASKED_FOR := WRITTEN_OFF.(receiptNextAt := Some(1201))
  const PENDING_AGAIN := Recover(ASKED_FOR, PROCESSING, {}, 601)
  const NEVER_SENT := FinishFailure(PENDING_AGAIN.(httpStatus := None), false, "undelivered", 601)

  const ONE_FILE := START.(db := START.db.(files := map[7 := SOURCE]))

  /** One manual submission that is still running. */
  function Stage(group: Group, phase: Phase, now: int): World {
    ONE_FILE.(db := ONE_FILE.db.(groups := [group]), owners := map[0 := Owner(None, phase)], now := now)
  }

  const SELECTED_RECEIPT := Stage(ASKED_FOR, Committed, 601).(recoveries := multiset{0})
  const POSTED_NOWHERE := Stage(PENDING_AGAIN, Posted(false), 601).(posts := multiset{0})
  const ALL_OVER := POSTED_NOWHERE.(db := POSTED_NOWHERE.db.(groups := [NEVER_SENT]), owners := map[])

  lemma AddTheFile()
    ensures Next(START, AddFile(7, SOURCE)) == ONE_FILE
  {
    hide EnabledQueue, EnabledRequest, ApplyQueue, ApplyRequest;
  }

  lemma ClaimReceipt()
    ensures Next(ONE_FILE, ClaimManual(MANUAL)) == Stage(CLAIMED_RECEIPT, Preparing, 0)
  {
    hide EnabledCatalogue, EnabledRequest, ApplyCatalogue, ApplyRequest;
  }

  lemma CaptureFile()
    ensures Next(Stage(CLAIMED_RECEIPT, Preparing, 0), Preflight(0, [Some(Captured("f", None))])) ==
            Stage(CLAIMED_RECEIPT, Prepared, 0)
  {
    hide EnabledCatalogue, EnabledQueue, ApplyCatalogue, ApplyQueue;
    OneLine();
  }

  lemma Commitment(w: World)
    requires w == Stage(CLAIMED_RECEIPT, Prepared, 0)
    ensures DoCommit(w, 0, {0}, true, EMPTY, READY) == Stage(DURABLE, Committed, 0)
  {
    OneLine();
    hide Recheck, SendingSet;
  }

  lemma CommitIntent()
    ensures Next(Stage(CLAIMED_RECEIPT, Prepared, 0), Commit(0, {0}, true, EMPTY, READY)) == Stage(DURABLE, Committed, 0)
  {
    hide EnabledCatalogue, EnabledQueue, ApplyCatalogue, ApplyQueue;
    var w := Stage(CLAIMED_RECEIPT, Prepared, 0);
    assert Enabled(w, Commit(0, {0}, true, EMPTY, READY));
    Commitment(w);
    hide DoCommit, Stage, Enabled;
  }

  lemma OverTenMinutes()
    ensures Next(Stage(DURABLE, Committed, 0), Advance(601)) == Stage(DURABLE, Committed, 601)
  {
    hide EnabledQueue, EnabledRequest, ApplyQueue, ApplyRequest;
  }

  lemma WriteOffExpired()
    ensures Next(Stage(DURABLE, Committed, 601), ExpireReceipts) == Stage(WRITTEN_OFF, Committed, 601)
  {
    hide EnabledQueue, EnabledRequest, ApplyQueue, ApplyRequest;
  }

  lemma WrittenOffLine()
    ensures |WRITTEN_OFF.items| == 1 && WRITTEN_OFF.items[0].status == Unknown && WRITTEN_OFF.finishedAt.Some?
    ensures WRITTEN_OFF.startedAt.Some? && WRITTEN_OFF.payload != {} && WRITTEN_OFF.receiptNextAt == Some(600)
    ensures WRITTEN_OFF.origin == Manual && WRITTEN_OFF.requestId == "r0"
  {
    OneLine();
  }

  lemma SelectReceiptNow()
    ensures Next(Stage(WRITTEN_OFF, Committed, 601), SelectReceipt(0)) == SELECTED_RECEIPT
  {
    hide EnabledCatalogue, EnabledQueue, ApplyCatalogue, ApplyQueue;
    WrittenOffLine();
    hide WRITTEN_OFF;
  }

  lemma ProcessingRead()
    ensures OutcomeOf("r0", PROCESSING) == Processing(30)
  {}

  lemma ReopenLine()
    ensures Next(SELECTED_RECEIPT, RecoverReceipt(0, PROCESSING, {})) == Stage(PENDING_AGAIN, Committed, 601)
  {
    hide EnabledCatalogue, EnabledQueue, ApplyCatalogue, ApplyQueue;
    WrittenOffLine();
    hide WRITTEN_OFF, PROCESSING, Recover;
  }

  lemma PendingLine()
    ensures |PENDING_AGAIN.items| == 1 && PENDING_AGAIN.items[0].status == Sending
  {
    WrittenOffLine();
    ProcessingRead();
    hide WRITTEN_OFF, PROCESSING, OutcomeOf;
  }

  lemma PostIt()
    ensures Next(Stage(PENDING_AGAIN, Committed, 601), Post(0, false, {})) == POSTED_NOWHERE
  {
    hide EnabledCatalogue, EnabledQueue, ApplyCatalogue, ApplyQueue;
    hide PENDING_AGAIN;
  }

  lemma RecordNotDelivered()
    ensures Next(POSTED_NOWHERE, Undelivered(0)) == ALL_OVER
  {
    hide EnabledCatalogue, EnabledQueue, ApplyCatalogue, ApplyQueue;
    hide PENDING_AGAIN;
  }

  lemma NeverSentLine()
    ensures |NEVER_SENT.items| == 1 && NEVER_SENT.items[0].status == NotSent
  {
    PendingLine();
    hide PENDING_AGAIN;
  }

  predicate LineIs(w: World, s: Status) {
    |w.db.groups| == 1 && |w.db.groups[0].items| == 1 && w.db.groups[0].items[0].status == s
  }

  lemma LinesOnTheWay()
    ensures LineIs(Stage(WRITTEN_OFF, Committed, 601), Unknown) && LineIs(ALL_OVER, NotSent)
  {
    WrittenOffLine();
    NeverSentLine();
    hide WRITTEN_OFF, NEVER_SENT;
  }

  lemma UntilUnknown() returns (es: seq<Event>)
    ensures Run(START, es) == Stage(WRITTEN_OFF, Committed, 601)
  {
    hide Next, Stage, START, ONE_FILE, CLAIMED_RECEIPT, DURABLE, WRITTEN_OFF, MANUAL;
    es := [];
    AddTheFile();
    es := Extend(es, START, AddFile(7, SOURCE));
    ClaimReceipt();
    es := Extend(es, ONE_FILE, ClaimManual(MANUAL));
    CaptureFile();
    es := Extend(es, Stage(CLAIMED_RECEIPT, Preparing, 0), Preflight(0, [Some(Captured("f", None))]));
    CommitIntent();
    es := Extend(es, Stage(CLAIMED_RECEIPT, Prepared, 0), Commit(0, {0}, true, EMPTY, READY));
    OverTenMinutes();
    es := Extend(es, Stage(DURABLE, Committed, 0), Advance(601));
    WriteOffExpired();
    es := Extend(es, Stage(DURABLE, Committed, 601), ExpireReceipts);
  }

  lemma UntilUnsent(es: seq<Event>) returns (more: seq<Event>)
    requires Run(START, es) == Stage(WRITTEN_OFF, Committed, 601)
    ensures more == es + [SelectReceipt(0), RecoverReceipt(0, PROCESSING, {}), Post(0, false, {}), Undelivered(0)]
    ensures Run(START, more) == ALL_OVER
  {
    hide Next, Stage, START, SELECTED_RECEIPT, POSTED_NOWHERE, ALL_OVER, WRITTEN_OFF, PENDING_AGAIN, PROCESSING, Run;
    SelectReceiptNow();
    more := Extend(es, Stage(WRITTEN_OFF, Committed, 601), SelectReceipt(0));
    ReopenLine();
    more := Extend(more, SELECTED_RECEIPT, RecoverReceipt(0, PROCESSING, {}));
    PostIt();
    more := Extend(more, Stage(PENDING_AGAIN, Committed, 601), Post(0, false, {}));
    RecordNotDelivered();
    more := Extend(more, POSTED_NOWHERE, Undelivered(0));
  }

  lemma EmptyAtFirst()
    ensures Initial(START)
  {}

  /** From an empty system: a line is unknown after the events `es`, and "not sent" after four more. */
  lemma UnknownCanBecomeUnsent() returns (es: seq<Event>, more: seq<Event>)
    ensures Initial(START) && |more| == |es| + 4 && more[..|es|] == es
    ensures LineIs(Run(START, es), Unknown) && LineIs(Run(START, more), NotSent)
  {
    EmptyAtFirst();
    LinesOnTheWay();
    hide Initial, Stage, LineIs, START, WRITTEN_OFF, ALL_OVER, PROCESSING, Run;
    es := UntilUnknown();
    more := UntilUnsent(es);
  }
}
