/** A run in which a row of an untracked release leaves `cancelled`. */
module CancelledExample {
  import opened Json
  import opened EncoderHistory
  import opened EncoderTables
  import opened EncoderRuns
  import opened RunSafety

  const SOURCE := Identity(1, "h", "p")
  const READY := Facts(true, Some(true), Some(7), false, true, true, true, true, false, true, true, None)
  const EMPTY := Obj(map[])
  const LINE := Item(7, 1, "h", "p", "f", Sending, NoNote, {}, None, false)

  function TickSends(id: string, token: nat): Request {
    Request(id, "s", NO_PRESETS, Automatic(0), token, [LINE], false, false)
  }

  /** The first submission after its durable intent at time 0, and once it turned out not delivered. */
  const STARTED := StartRequest(NewGroup(TickSends("r0", 0), 0), [LINE], 0).(snapshot := EMPTY)
  const ASKED := STARTED.(receiptNextAt := Some(1200))
  const UNSENT := FinishFailure(ASKED, false, "undelivered", 600)

  function Row(state: AutoState, reason: Reason, receipt: Option<Ref>, attempts: nat, lease: Option<Lease>, at: int): Auto {
    Auto(SOURCE, 1, 7, false, state, reason, 0, receipt, attempts, lease, at)
  }

  const WAITING := Row(Waiting, AtHash, None, 0, None, 0)
  const CLAIMED := Row(Claimed, AtSending, None, 1, Some(Lease(0, 660)), 30)
  const BACK := Row(Waiting, AtServer, Some(Ref(0, 0)), 1, None, 660)
  const AGAIN := Row(Claimed, AtSending, Some(Ref(0, 0)), 2, Some(Lease(1, 1320)), 690)

  /** One tracked release with one archived version, one file and one row. */
  function Scene(groups: seq<Group>, row: Auto, on: bool, retryAt: Option<int>, now: int): World {
    World(
      Db(groups, [row], map[1 := Policy(NO_PRESETS, EMPTY, 0, 1, on)], map[SourceKey(1, 1, "h") := false], {(1, "h")},
         if on then {1} else {}, map[7 := SOURCE], true, true, retryAt),
      map[], map[], map[], multiset{}, multiset{}, {}, {}, map[(1, 1) := {}], now)
  }

  const START := World(
    Db([], [], map[], map[], {}, {}, map[], true, false, None),
    map[], map[], map[], multiset{}, multiset{}, {}, {}, map[], 0)

  ghost predicate NoneOverrides(es: seq<Event>) { forall e :: e in es ==> NoOverride(e) }

  /** The run goes on with one more event. */
  lemma Extend(es: seq<Event>, w: World, e: Event) returns (longer: seq<Event>)
    requires Run(START, es) == w
    ensures longer == es + [e] && Run(START, longer) == Next(w, e)
    ensures NoneOverrides(es) && NoOverride(e) ==> NoneOverrides(longer)
  {
    hide Next, START;
    longer := es + [e];
    assert longer[..|es|] == es;
  }

  lemma NothingArchived(db: Db, release: int, generation: nat)
    requires db.archives == {}
    ensures ArchivedHashes(db, release) == {} && Baseline(db, release, generation) == map[]
  {}

  const AWAKE := START.(db := START.db.(initialized := true))
  const TRACKED := AWAKE.(
    db := AWAKE.db.(tracked := {1}, policies := map[1 := Policy(NO_PRESETS, EMPTY, 0, 1, true)]), baselines := map[(1, 1) := {}])
  const OBSERVED := TRACKED.(db := TRACKED.db.(archives := {(1, "h")}, sources := map[SourceKey(1, 1, "h") := false]))
  const FILED := OBSERVED.(db := OBSERVED.db.(files := map[7 := SOURCE]))

  lemma TrackRelease()
    ensures Next(AWAKE, Track(1, true)) == TRACKED
  {
    NothingArchived(AWAKE.db.(tracked := {1}), 1, 1);
    assert AWAKE.db.tracked + {1} == {1};
  }

  lemma ObserveVersion()
    ensures Next(TRACKED, Observe(1, "h")) == OBSERVED
  {}

  lemma RegisterItsFile()
    ensures Next(FILED, Register(7, false)) == Scene([], WAITING, true, None, 0)
  {}

  lemma StartAutomation()
    ensures Next(START, Initialize) == AWAKE
  {}

  lemma AddItsFile()
    ensures Next(OBSERVED, AddFile(7, SOURCE)) == FILED
  {}

  lemma SetUp() returns (es: seq<Event>)
    ensures Run(START, es) == Scene([], WAITING, true, None, 0) && NoneOverrides(es)
  {
    hide Next, START, AWAKE, TRACKED, OBSERVED, FILED, Scene;
    es := [];
    StartAutomation();
    es := Extend(es, START, Initialize);
    TrackRelease();
    es := Extend(es, AWAKE, Track(1, true));
    ObserveVersion();
    es := Extend(es, TRACKED, Observe(1, "h"));
    AddItsFile();
    es := Extend(es, OBSERVED, AddFile(7, SOURCE));
    RegisterItsFile();
    es := Extend(es, FILED, Register(7, false));
  }

  // ---- the first submission: committed, asked for after ten minutes, then never delivered ----

  const CHOSEN := Row(Ready, AtReady, None, 0, None, 30)
  const OPTIONS := Some(Options(7, NO_PRESETS))
  const FIRST := NewGroup(TickSends("r0", 0), 0)
  const SENDER := map[0 := Sender(0, OPTIONS, Submitted)]

  const ROW_WAITING := Scene([], WAITING, true, None, 0)
  const ROW_READY := Scene([], CHOSEN, true, None, 0)
  const FIRST_CLAIM := Scene([], CLAIMED, true, None, 0).(senders := map[0 := Sender(0, None, Fresh)], issued := map[0 := 0])
  const FIRST_OPTIONS := FIRST_CLAIM.(senders := map[0 := Sender(0, OPTIONS, Fresh)])

  /** While the first submission runs. */
  function Running(group: Group, phase: Phase, now: int): World {
    Scene([group], CLAIMED.(receipt := Some(Ref(0, 0))), true, None, now).(
      owners := map[0 := Owner(Some(0), phase)], senders := SENDER, issued := map[0 := 0])
  }

  const SELECTED := Running(ASKED, Committed, 600).(recoveries := multiset{0})
  const POSTED := Running(ASKED, Posted(false), 600).(recoveries := multiset{0}, posts := multiset{0})
  const GIVEN_UP := POSTED.(db := POSTED.db.(groups := [UNSENT]), owners := map[])

  lemma ReconcileToReady()
    ensures Next(ROW_WAITING, Reconcile(0, READY)) == ROW_READY
  {
    hide EnabledCatalogue, EnabledRequest, ApplyCatalogue, ApplyRequest;
  }

  lemma ClaimFirst()
    ensures Next(ROW_READY, ClaimNext(0, READY, 0)) == FIRST_CLAIM
  {
    hide EnabledCatalogue, EnabledRequest, ApplyCatalogue, ApplyRequest;
  }

  lemma ReadFirstOptions()
    ensures Next(FIRST_CLAIM, ReadOptions(0)) == FIRST_OPTIONS
  {
    hide EnabledCatalogue, EnabledRequest, ApplyCatalogue, ApplyRequest;
  }

  lemma SubmitFirst()
    ensures Next(FIRST_OPTIONS, ClaimByTick(0, TickSends("r0", 0))) == Running(FIRST, Preparing, 0)
  {
    hide EnabledCatalogue, EnabledRequest, ApplyCatalogue, ApplyRequest;
  }

  lemma OneLine()
    ensures Prepare([LINE], [Some(Captured("f", None))]) == [LINE] && Recheck([LINE], {0}) == [LINE]
    ensures SendingSet([LINE]) == {0}
  {}

  lemma PreflightFirst()
    ensures Next(Running(FIRST, Preparing, 0), Preflight(0, [Some(Captured("f", None))])) == Running(FIRST, Prepared, 0)
  {
    hide EnabledCatalogue, EnabledQueue, ApplyCatalogue, ApplyQueue;
    OneLine();
  }

  lemma Permission()
    ensures Validate(Running(FIRST, Prepared, 0).db, 0, 0, EMPTY, READY, 0).Granted?
  {}

  lemma Commitment(w: World)
    requires w == Running(FIRST, Prepared, 0)
    ensures DoCommit(w, 0, {0}, true, EMPTY, READY) == Running(STARTED, Committed, 0)
  {
    OneLine();
    Permission();
    hide Validate, Recheck, SendingSet;
  }

  lemma CommitPossible(w: World, ok: set<nat>)
    requires w == Running(FIRST, Prepared, 0)
    ensures Enabled(w, Commit(0, ok, true, EMPTY, READY))
  {}

  lemma CommitFirst()
    ensures Next(Running(FIRST, Prepared, 0), Commit(0, {0}, true, EMPTY, READY)) == Running(STARTED, Committed, 0)
  {
    var w := Running(FIRST, Prepared, 0);
    CommitPossible(w, {0});
    Commitment(w);
    hide DoCommit, Running, Enabled;
  }

  lemma WaitTenMinutes()
    ensures Next(Running(STARTED, Committed, 0), Advance(600)) == Running(STARTED, Committed, 600)
  {
    hide EnabledQueue, EnabledRequest, ApplyQueue, ApplyRequest;
  }

  lemma SelectForRecovery()
    ensures Next(Running(STARTED, Committed, 600), SelectReceipt(0)) == SELECTED
  {
    hide EnabledCatalogue, EnabledQueue, ApplyCatalogue, ApplyQueue;
    OneLine();
    assert Unresolved(STARTED.items[0].status);
  }

  lemma PostUndelivered()
    ensures Next(SELECTED, Post(0, false, {})) == POSTED
  {
    hide EnabledCatalogue, EnabledQueue, ApplyCatalogue, ApplyQueue;
  }

  lemma RecordUndelivered()
    ensures Next(POSTED, Undelivered(0)) == GIVEN_UP
  {
    hide EnabledCatalogue, EnabledQueue, ApplyCatalogue, ApplyQueue;
  }

  // ---- a second submission, then untracking, then the late second half of the recovery ----

  const SETTLED := Scene([UNSENT], BACK, true, Some(660), 600).(issued := map[0 := 0], recoveries := multiset{0}, posts := multiset{0})
  const MINUTE_LATER := SETTLED.(now := 660)

  /** After the first submission was given up; its recovery has not come back yet. */
  function Later(groups: seq<Group>, row: Auto, on: bool, senders: map<nat, Sender>, owners: map<nat, Owner>): World {
    Scene(groups, row, on, Some(660), 660).(
      issued := map[0 := 0, 1 := 0], recoveries := multiset{0}, posts := multiset{0}, senders := senders, owners := owners)
  }

  const RECHOSEN := Row(Ready, AtReady, Some(Ref(0, 0)), 1, None, 690)
  const READY_AGAIN := MINUTE_LATER.(db := MINUTE_LATER.db.(autos := [RECHOSEN]))
  const SECOND := NewGroup(TickSends("r1", 1), 660)
  const POINTING := AGAIN.(receipt := Some(Ref(1, 0)))
  const OWNED := map[1 := Owner(Some(1), Preparing)]
  const ACTING := map[1 := Sender(0, OPTIONS, Submitted)]
  const STOPPED := Transition(POINTING, Cancelled, AtUntracked)
  const LEFT := Transition(POINTING, NeedsAttention, AtUnknown).(lease := None)
  const SECOND_CLAIM := Later([UNSENT], AGAIN, true, map[1 := Sender(0, None, Fresh)], map[])
  const SECOND_OPTIONS := Later([UNSENT], AGAIN, true, map[1 := Sender(0, OPTIONS, Fresh)], map[])
  const SECOND_SUBMISSION := Later([UNSENT, SECOND], POINTING, true, ACTING, OWNED)
  const UNTRACKED := Later([UNSENT, SECOND], STOPPED, false, ACTING, OWNED)

  lemma EndFirstTick()
    ensures Next(GIVEN_UP, EndTick(0)) == SETTLED
  {
    hide EnabledCatalogue, EnabledRequest, ApplyCatalogue, ApplyRequest;
    NotSentLine();
    OnePause();
    FirstLine(GIVEN_UP.db.autos[0], UNSENT);
    hide UNSENT, Receipts, Backoff;
    assert SettleAuto(GIVEN_UP.db.autos[0], 0, UNSENT, 600) == BACK;
    assert GIVEN_UP.senders - {0} == map[];
  }

  lemma OnePause()
    ensures Backoff(1) == 60
  {}

  lemma FirstLine(a: Auto, group: Group)
    requires a.receipt == Some(Ref(0, 0)) && |group.items| == 1
    ensures Receipts(a, 0, group) == {0}
  {}

  lemma NotSentLine()
    ensures |UNSENT.items| == 1 && UNSENT.items[0] == LINE.(status := NotSent, error := Text("undelivered"))
    ensures UNSENT.finishedAt == Some(600)
  {}

  lemma WaitOneMinute()
    ensures Next(SETTLED, Advance(660)) == MINUTE_LATER
  {
    hide EnabledQueue, EnabledRequest, ApplyQueue, ApplyRequest;
  }

  lemma ReconcileAgain()
    ensures Next(MINUTE_LATER, Reconcile(0, READY)) == READY_AGAIN
  {
    hide EnabledCatalogue, EnabledRequest, ApplyCatalogue, ApplyRequest;
    NotSentLine();
    hide UNSENT;
  }

  lemma ClaimSecond()
    ensures Next(READY_AGAIN, ClaimNext(0, READY, 1)) == SECOND_CLAIM
  {
    hide EnabledCatalogue, EnabledRequest, ApplyCatalogue, ApplyRequest;
    NotSentLine();
    hide UNSENT;
  }

  lemma ReadSecondOptions()
    ensures Next(SECOND_CLAIM, ReadOptions(1)) == SECOND_OPTIONS
  {
    hide EnabledCatalogue, EnabledRequest, ApplyCatalogue, ApplyRequest;
  }

  /** Nothing unsent blocks a second attempt. */
  lemma SecondIsClear(groups: seq<Group>)
    requires groups == [UNSENT]
    ensures ExpireAll(groups, 660) == groups && Clear(groups, TickSends("r1", 1)) && !KnownRequest(groups, "r1")
  {
    NotSentLine();
    assert UNSENT.requestId == "r0";
    hide UNSENT;
  }

  lemma SecondIsFresh(db: Db)
    requires db.files == map[7 := SOURCE]
    ensures FreshRequest(db, TickSends("r1", 1))
  {}

  lemma SubmitSecond()
    ensures Next(SECOND_OPTIONS, ClaimByTick(1, TickSends("r1", 1))) == SECOND_SUBMISSION
  {
    hide EnabledCatalogue, EnabledRequest, ApplyCatalogue, ApplyRequest;
    SecondIsClear([UNSENT]);
    SecondIsFresh(SECOND_OPTIONS.db);
    hide UNSENT, Clear, FreshRequest, KnownRequest, ExpireAll, NewestLive;
  }

  lemma Untrack()
    ensures Next(SECOND_SUBMISSION, Track(1, false)) == UNTRACKED
  {
    hide EnabledQueue, EnabledRequest, ApplyQueue, ApplyRequest;
  }

  lemma RecoverLate()
    ensures var v := Next(UNTRACKED, RecoverReceipt(0, Silent, {})); |v.db.autos| == 1 && v.db.autos[0] == LEFT
  {
    hide EnabledCatalogue, EnabledQueue, ApplyCatalogue, ApplyQueue;
    NotSentLine();
  }

  /** From an empty system to the tick's first submission, not yet looked at by a preflight. */
  lemma UntilFirstSubmission() returns (es: seq<Event>)
    ensures Run(START, es) == Running(FIRST, Preparing, 0) && NoneOverrides(es)
  {
    assert ROW_WAITING == Scene([], WAITING, true, None, 0);
    hide Run, Next, Scene, Running, START, ROW_READY, FIRST_CLAIM, FIRST_OPTIONS, TickSends, FIRST, READY, NoneOverrides;
    es := SetUp();
    ReconcileToReady();
    es := Extend(es, ROW_WAITING, Reconcile(0, READY));
    ClaimFirst();
    es := Extend(es, ROW_READY, ClaimNext(0, READY, 0));
    ReadFirstOptions();
    es := Extend(es, FIRST_CLAIM, ReadOptions(0));
    SubmitFirst();
    es := Extend(es, FIRST_OPTIONS, ClaimByTick(0, TickSends("r0", 0)));
  }

  /**
   `cancelled` is not final: in this run the release is untracked, which
   cancels the row, and the late second transaction of an older recovery
   moves it to `needs_attention`.
   */
  lemma CancelledCanLeave() returns (es: seq<Event>, e: Event)
    ensures Initial(START) && !START.db.initialized
    ensures var w := Run(START, es);
      |w.db.autos| == 1 && w.db.autos[0].state == Cancelled && 1 !in w.db.tracked && e.RecoverReceipt? && Enabled(w, e)
    ensures var v := Next(Run(START, es), e); |v.db.autos| == 1 && v.db.autos[0].state == NeedsAttention
  {
    es := UntilFirstSubmission();
    Ends();
    hide Next, Scene, Running, Later, START, ASKED, STARTED, UNSENT, SELECTED, POSTED, GIVEN_UP, SETTLED, MINUTE_LATER, READY_AGAIN, SECOND_CLAIM, SECOND_OPTIONS, SECOND_SUBMISSION, UNTRACKED, Enabled, Initial;
    hide TickSends, FIRST;
    PreflightFirst();
    es := Extend(es, Running(FIRST, Preparing, 0), Preflight(0, [Some(Captured("f", None))]));
    CommitFirst();
    es := Extend(es, Running(FIRST, Prepared, 0), Commit(0, {0}, true, EMPTY, READY));
    WaitTenMinutes();
    es := Extend(es, Running(STARTED, Committed, 0), Advance(600));
    SelectForRecovery();
    es := Extend(es, Running(STARTED, Committed, 600), SelectReceipt(0));
    PostUndelivered();
    es := Extend(es, SELECTED, Post(0, false, {}));
    RecordUndelivered();
    es := Extend(es, POSTED, Undelivered(0));
    EndFirstTick();
    es := Extend(es, GIVEN_UP, EndTick(0));
    WaitOneMinute();
    es := Extend(es, SETTLED, Advance(660));
    ReconcileAgain();
    es := Extend(es, MINUTE_LATER, Reconcile(0, READY));
    ClaimSecond();
    es := Extend(es, READY_AGAIN, ClaimNext(0, READY, 1));
    ReadSecondOptions();
    es := Extend(es, SECOND_CLAIM, ReadOptions(1));
    SubmitSecond();
    es := Extend(es, SECOND_OPTIONS, ClaimByTick(1, TickSends("r1", 1)));
    Untrack();
    es := Extend(es, SECOND_SUBMISSION, Track(1, false));
    e := RecoverReceipt(0, Silent, {});
    RecoverLate();
  }

  lemma Ends()
    ensures Initial(START) && !START.db.initialized
    ensures |UNTRACKED.db.autos| == 1 && UNTRACKED.db.autos[0].state == Cancelled && 1 !in UNTRACKED.db.tracked
    ensures Enabled(UNTRACKED, RecoverReceipt(0, Silent, {}))
  {
    assert UNSENT.origin == Automatic(0);
    hide UNSENT, SECOND;
  }
}
