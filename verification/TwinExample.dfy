/** A run, with no override, that brings two lines with the same captured content together. */
module TwinExample {
  import opened Json
  import opened EncoderHistory
  import opened EncoderTables
  import opened EncoderRuns
  import opened RunSafety
  import opened RunContents
  import opened CancelledExample

  const CONTENT := Content("c", "sha256", 1)
  const SEEN := Some(Captured("f", Some(CONTENT)))
  const TICK_LINE := LINE.(content := Some(CONTENT))
  const TICK_GROUP := FIRST.(items := [TICK_LINE])

  /** The path again, uploaded under another version; the claim does not know its content yet. */
  const AGAIN_SOURCE := Identity(1, "h2", "p")
  const AGAIN_LINE := Item(8, 1, "h2", "p", "f", Sending, NoNote, {}, None, false)
  const BY_HAND := Request("r1", "s", NO_PRESETS, Manual, 0, [AGAIN_LINE], false, false)
  const HAND_GROUP := NewGroup(BY_HAND, 0)
  const TWIN_GROUP := HAND_GROUP.(items := [AGAIN_LINE.(content := Some(CONTENT))])

  const PREPARED := Running(TICK_GROUP, Prepared, 0)
  const ADDED := PREPARED.(db := PREPARED.db.(files := map[7 := SOURCE, 8 := AGAIN_SOURCE]))
  const BOTH := ADDED.(
    db := ADDED.db.(groups := [TICK_GROUP, HAND_GROUP]), owners := ADDED.owners[1 := Owner(None, Preparing)])
  const TWINS := BOTH.(
    db := BOTH.db.(groups := [TICK_GROUP, TWIN_GROUP]), owners := BOTH.owners[1 := Owner(None, Prepared)])

  lemma Prepares()
    ensures Prepare([LINE], [SEEN]) == [TICK_LINE]
    ensures Prepare([AGAIN_LINE], [SEEN]) == [AGAIN_LINE.(content := Some(CONTENT))]
  {}

  lemma PreflightTick()
    ensures Next(Running(FIRST, Preparing, 0), Preflight(0, [SEEN])) == PREPARED
  {
    hide EnabledCatalogue, EnabledQueue, ApplyCatalogue, ApplyQueue;
    Prepares();
  }

  lemma UploadAgain()
    ensures Next(PREPARED, AddFile(8, AGAIN_SOURCE)) == ADDED
  {
    hide EnabledQueue, EnabledRequest, ApplyQueue, ApplyRequest;
  }

  lemma HandIsClear(groups: seq<Group>)
    requires groups == [TICK_GROUP]
    ensures ExpireAll(groups, 0) == groups && Clear(groups, BY_HAND) && !KnownRequest(groups, "r1")
  {}

  lemma HandIsFresh(db: Db)
    requires db.files == map[7 := SOURCE, 8 := AGAIN_SOURCE]
    ensures FreshRequest(db, BY_HAND)
  {}

  lemma ClaimByHand()
    ensures Next(ADDED, ClaimManual(BY_HAND)) == BOTH
  {
    hide EnabledCatalogue, EnabledRequest, ApplyCatalogue, ApplyRequest;
    HandIsClear([TICK_GROUP]);
    HandIsFresh(ADDED.db);
    hide Clear, FreshRequest, KnownRequest, ExpireAll, NewestLive, TICK_GROUP;
  }

  lemma PreflightByHand()
    ensures Next(BOTH, Preflight(1, [SEEN])) == TWINS
  {
    hide EnabledCatalogue, EnabledQueue, ApplyCatalogue, ApplyQueue;
    Prepares();
  }

  lemma AreTwins(groups: seq<Group>)
    requires groups == [TICK_GROUP, TWIN_GROUP]
    ensures SameContentLines(groups, Ref(0, 0), Ref(1, 0))
  {}

  /**
   The content check belongs to the claim: here a manual claim passes while its
   file's content is not known, and the first preflight then captures the very
   content the tick is sending.
   */
  lemma TwinsCanMeet() returns (es: seq<Event>)
    ensures Initial(START) && NoneOverrides(es)
    ensures !NoContentTwins(Run(START, es).db.groups)
  {
    Ends();
    es := UntilFirstSubmission();
    hide Next, Running, START, Initial, TICK_GROUP, HAND_GROUP, TWIN_GROUP, FIRST, SameContentLines, NoneOverrides;
    PreflightTick();
    es := Extend(es, Running(FIRST, Preparing, 0), Preflight(0, [SEEN]));
    UploadAgain();
    es := Extend(es, PREPARED, AddFile(8, AGAIN_SOURCE));
    ClaimByHand();
    es := Extend(es, ADDED, ClaimManual(BY_HAND));
    PreflightByHand();
    es := Extend(es, BOTH, Preflight(1, [SEEN]));
    AreTwins(TWINS.db.groups);
  }
}
