/** What queueing, claiming, tracking and saved presets do, in the fields of rows and policies. */
module QueueLaws {
  import opened Json
  import opened EncoderHistory
  import opened EncoderTables
  import opened EncoderRuns
  import opened RowLaws

  // ---- reconciling --------------------------------------------------------------------

  /** States and reasons that are not looked at again. */
  predicate AtRest(a: Auto) {
    match a.state
    case Done => true
    case Cancelled => true
    case NeedsAttention => a.reason != AtUnknown
    case _ => false
  }

  /** A row is looked at exactly when it is not at rest, its time has come, and nobody holds it. */
  lemma DueExactlyWhen(a: Auto, now: int)
    ensures Due(a, now) <==> !AtRest(a) && a.nextAttemptAt <= now && !(a.lease.Some? && now < a.lease.value.until)
  {}

  /** The row points at a line that is not simply unsent. */
  ghost predicate PointsAtOutcome(groups: seq<Group>, a: Auto) {
    a.receipt.Some? && HasRef(groups, a.receipt.value) && At(groups, a.receipt.value).status != NotSent
  }

  lemma OutcomeMeans(a: Auto, groups: seq<Group>)
    ensures HasOutcome(a, groups) <==> PointsAtOutcome(groups, a)
  {
    if PointsAtOutcome(groups, a) {
      var r := a.receipt.value;
      assert r.index in Receipts(a, r.group, groups[r.group]);
    }
  }

  /**
   One pass over one row: a row that points at a line with an outcome is settled
   from that submission. Any other is assessed as if nobody held it and looked at
   again in 30 seconds. No other row and no other table changes but the pause.
   */
  lemma ReconciledRow(db: Db, k: nat, f: Facts, now: int)
    requires k < |db.autos|
    ensures var a, next := db.autos[k], ReconcileItem(db, k, f, now);
      && next == db.(autos := next.autos, retryAt := next.retryAt) && |next.autos| == |db.autos|
      && (forall j :: 0 <= j < |db.autos| && j != k ==> next.autos[j] == db.autos[j])
      && next.autos[k].id == a.id && next.autos[k].lease.None? && next.autos[k].attempts == a.attempts
    ensures var a, next := db.autos[k], ReconcileItem(db, k, f, now);
      PointsAtOutcome(db.groups, a) ==>
        next.autos[k] == SettleAuto(a, a.receipt.value.group, db.groups[a.receipt.value.group], now)
    ensures var a, next := db.autos[k], ReconcileItem(db, k, f, now);
      !PointsAtOutcome(db.groups, a) ==>
        && next.retryAt == db.retryAt && next.autos[k].nextAttemptAt == now + 30
        && (next.autos[k].state == Ready <==> Unobstructed(db, a, f) && NoCarrier(db.groups, a.id, f.content, OwnGroup(a)))
        && next.autos[k].state == Assess(db, a.(lease := None), f).state
        && next.autos[k].reason == Assess(db, a.(lease := None), f).reason
  {
    var a := db.autos[k];
    OutcomeMeans(a, db.groups);
    if PointsAtOutcome(db.groups, a) { SettledByLines(a, a.receipt.value.group, db.groups[a.receipt.value.group], now); }
    hide HasOutcome, SettleAuto, RetryAfter, PointsAtOutcome;
    ReadyExactlyWhen(db, a.(lease := None), f);
    SameObstacles(db, a, f);
    AssessedShape(db, a.(lease := None), f);
    hide Assess, Unobstructed, NoCarrier;
  }

  lemma SameObstacles(db: Db, a: Auto, f: Facts)
    ensures Unobstructed(db, a.(lease := None), f) <==> Unobstructed(db, a, f)
  {}

  lemma AssessedShape(db: Db, a: Auto, f: Facts)
    ensures var b := Assess(db, a, f).auto; b == a.(fileId := b.fileId, receipt := b.receipt)
    ensures Assess(db, a, f).state != Claimed
  {
    hide Previous;
  }

  // ---- claiming -------------------------------------------------------------------------

  /** A claim may be made once the pause is over and no claimed row is inside its lease. */
  lemma ClaimAllowedExactlyWhen(db: Db, now: int)
    ensures MayClaim(db, now) <==>
      && !(db.retryAt.Some? && now < db.retryAt.value)
      && !exists k: nat :: k < |db.autos| && db.autos[k].state == Claimed && db.autos[k].lease.Some? && now < db.autos[k].lease.value.until
  {}

  /**
   A ready row is claimed if and only if it is still ready at that instant: then
   it holds the token for 660 seconds, counts one more attempt, and remembers
   the revision of its policy. Otherwise it goes where its obstacle sends it.
   */
  lemma ClaimedExactlyWhen(db: Db, k: nat, f: Facts, token: nat, now: int)
    requires k < |db.autos|
    ensures var a, b := db.autos[k], ClaimAuto(db, k, f, token, now);
      b.state == Claimed <==> Unobstructed(db, a, f) && NoCarrier(db.groups, a.id, f.content, OwnGroup(a))
    ensures var a, b := db.autos[k], ClaimAuto(db, k, f, token, now);
      b.state == Claimed ==>
        && b == a.(state := Claimed, reason := AtSending, fileId := f.file.value, lease := b.lease, attempts := b.attempts,
                   revision := b.revision)
        && b.lease == Some(Lease(token, now + 660)) && b.attempts == a.attempts + 1
        && b.revision == db.policies[a.id.release].revision
    ensures var a, b := db.autos[k], ClaimAuto(db, k, f, token, now);
      b.state != Claimed ==>
        b.state == Assess(db, a, f).state && b.reason == Assess(db, a, f).reason && b.lease == a.lease && b.attempts == a.attempts
  {
    ReadyExactlyWhen(db, db.autos[k], f);
    AssessedShape(db, db.autos[k], f);
    hide Assess, NoCarrier;
  }

  // ---- tracking ---------------------------------------------------------------------------

  /** Untracking stops the row: it is active and its request has not started. */
  ghost predicate StopsWith(db: Db, a: Auto, release: int) {
    && a.id.release == release && (a.state == Waiting || a.state == Ready || a.state == Claimed)
    && !(a.receipt.Some? && a.receipt.value.group < |db.groups| && db.groups[a.receipt.value.group].startedAt.Some?)
  }

  predicate TakesPartIn(db: Db, release: int) {
    release in db.policies && db.policies[release].participating
  }

  /** Every policy but that of `release` is as before. */
  ghost predicate OtherPolicies(db: Db, next: Db, release: int) {
    forall r :: r != release ==>
      (r in next.policies <==> r in db.policies) && (r in next.policies && r in db.policies ==> next.policies[r] == db.policies[r])
  }

  /**
   Turning tracking on or off sets the participation. A generation begins exactly
   when participation does, with every version archived so far as its baseline;
   presets and revision stay.
   */
  lemma TrackingSetsPolicy(db: Db, release: int, on: bool)
    requires db.initialized
    ensures var next, was := TrackingChanged(db, release, on), PolicyFor(db, release);
      && release in next.policies && OtherPolicies(db, next, release)
      && var p, begins := next.policies[release], on && !TakesPartIn(db, release);
         && p.participating == on && p.presets == was.presets && p.snapshot == was.snapshot && p.revision == was.revision
         && p.generation == (if begins then was.generation + 1 else was.generation)
         && (forall key :: key in next.sources <==>
               key in db.sources ||
               (begins && key.release == release && key.generation == p.generation && (release, key.infoHash) in db.archives))
         && (forall key :: key in next.sources ==>
               next.sources[key] ==
               if begins && key.release == release && key.generation == p.generation && (release, key.infoHash) in db.archives
               then true else key in db.sources && db.sources[key])
  {
    var begins := on && !TakesPartIn(db, release);
    if begins { BaselineMeans(db, release, PolicyFor(db, release).generation + 1); }
    hide Baseline, StopAll;
  }

  lemma BaselineMeans(db: Db, release: int, generation: nat)
    ensures var base := Baseline(db, release, generation);
      forall key :: key in base <==> key.release == release && key.generation == generation && (release, key.infoHash) in db.archives
    ensures var base := Baseline(db, release, generation); forall key :: key in base ==> base[key]
  {
    var base := Baseline(db, release, generation);
    var hashes := ArchivedHashes(db, release);
    forall h: string ensures h in hashes <==> (release, h) in db.archives {
      if (release, h) in db.archives { assert (release, h).1 == h; }
    }
    hide ArchivedHashes;
    forall key: SourceKey
      ensures key in base <==> key.release == release && key.generation == generation && key.infoHash in hashes
    {
      if key.release == release && key.generation == generation && key.infoHash in hashes {
        assert key == SourceKey(release, generation, key.infoHash);
      }
    }
  }

  /** Rows are stopped exactly by ending the participation, and only those whose request has not started. */
  lemma TrackingStopsRows(db: Db, release: int, on: bool, k: nat)
    requires k < |db.autos| && db.initialized
    ensures var next := TrackingChanged(db, release, on);
      && |next.autos| == |db.autos|
      && next == db.(policies := next.policies, sources := next.sources, autos := next.autos)
      && next.autos[k] ==
         if !on && TakesPartIn(db, release) && StopsWith(db, db.autos[k], release)
         then db.autos[k].(state := Cancelled, reason := AtUntracked) else db.autos[k]
  {
    hide Baseline;
  }

  /** Before automation is set up, tracking changes nothing. */
  lemma TrackingWaitsForSetup(db: Db, release: int, on: bool)
    requires !db.initialized
    ensures TrackingChanged(db, release, on) == db
  {}

  /**
   An archived version becomes a source of the current generation exactly when its
   release is tracked: of its baseline if it was archived before the generation
   began just now, and otherwise as what it is already or as a new one.
   */
  lemma ObservedSource(db: Db, release: int, infoHash: string)
    requires db.initialized && release in db.tracked
    ensures var next := ObserveArchive(db, release, infoHash);
      && TakesPartIn(next, release)
      && var key, begins := SourceKey(release, next.policies[release].generation, infoHash), !TakesPartIn(db, release);
         && next.archives == db.archives + {(release, infoHash)}
         && key in next.sources
         && (next.sources[key] <==> (begins && (release, infoHash) in db.archives) || (key in db.sources && db.sources[key]))
  {
    TrackingSetsPolicy(db, release, true);
    hide TrackingChanged;
  }

  lemma UntrackedSource(db: Db, release: int, infoHash: string)
    requires !db.initialized || release !in db.tracked
    ensures ObserveArchive(db, release, infoHash) == db.(archives := db.archives + {(release, infoHash)})
  {}

  // ---- registering files --------------------------------------------------------------------

  ghost predicate RowFor(autos: seq<Auto>, id: Identity, generation: nat) {
    exists k: nat :: k < |autos| && autos[k].id == id && autos[k].generation == generation
  }

  /** The release takes part, and its generation knows the version: as a new one, or asked for by hand. */
  ghost predicate Admitted(db: Db, id: Identity, explicit: bool) {
    && TakesPartIn(db, id.release)
    && var key := SourceKey(id.release, db.policies[id.release].generation, id.infoHash);
       key in db.sources && (explicit || !db.sources[key])
  }

  /**
   After registering a file, the current generation has a row for it exactly if
   it had one or the file is admitted. A new row is the last and waits for its
   hash; an old one is only given the file, and only while active.
   */
  lemma RegisteredExactlyWhen(db: Db, fileId: int, explicit: bool, now: int)
    requires fileId in db.files && TakesPartIn(db, db.files[fileId].release)
    ensures var next, id := RegisterFile(db, fileId, explicit, now), db.files[fileId];
      var generation := db.policies[id.release].generation;
      && next == db.(autos := next.autos)
      && (RowFor(next.autos, id, generation) <==> RowFor(db.autos, id, generation) || Admitted(db, id, explicit))
      && (Admitted(db, id, explicit) && !RowFor(db.autos, id, generation) ==>
            next.autos == db.autos + [Auto(id, generation, fileId, explicit, Waiting, AtHash, 0, None, 0, None, now)])
      && (!Admitted(db, id, explicit) ==> next.autos == db.autos)
  {
    var id := db.files[fileId];
    var generation := db.policies[id.release].generation;
    var next, k := RegisterFile(db, fileId, explicit, now), FindItem(db.autos, id, generation, 0);
    FoundRow(db.autos, id, generation);
    if RowFor(db.autos, id, generation) { RowStays(db.autos, next.autos, id, generation); }
    else if Admitted(db, id, explicit) { assert IsRow(next.autos, |db.autos|, id, generation); }
  }

  predicate IsRow(autos: seq<Auto>, k: nat, id: Identity, generation: nat) {
    k < |autos| && autos[k].id == id && autos[k].generation == generation
  }

  lemma FoundRow(autos: seq<Auto>, id: Identity, generation: nat)
    ensures FindItem(autos, id, generation, 0) < |autos| <==> RowFor(autos, id, generation)
  {
    hide FindItem;
    var k := FindItem(autos, id, generation, 0);
    if j: nat :| j < |autos| && autos[j].id == id && autos[j].generation == generation { assert IsItem(autos[j], id, generation); }
  }

  lemma RowStays(autos: seq<Auto>, next: seq<Auto>, id: Identity, generation: nat)
    requires RowFor(autos, id, generation) && |next| >= |autos|
    requires forall k :: 0 <= k < |autos| ==> next[k].id == autos[k].id && next[k].generation == autos[k].generation
    ensures RowFor(next, id, generation)
  {
    var k: nat :| k < |autos| && autos[k].id == id && autos[k].generation == generation;
    assert next[k].id == id && next[k].generation == generation;
  }

  /** The row of an admitted file gets the file if it is active, and no other row changes. */
  lemma RegisteredRow(db: Db, fileId: int, explicit: bool, now: int, k: nat)
    requires fileId in db.files && TakesPartIn(db, db.files[fileId].release) && k < |db.autos|
    requires var id := db.files[fileId];
      forall i, j :: 0 <= i < j < |db.autos| && db.autos[i].id == db.autos[j].id == id ==>
        db.autos[i].generation != db.autos[j].generation
    ensures var next, id := RegisterFile(db, fileId, explicit, now), db.files[fileId];
      && |next.autos| >= |db.autos|
      && next.autos[k] ==
         if Admitted(db, id, explicit) && db.autos[k].id == id && db.autos[k].generation == db.policies[id.release].generation
            && (db.autos[k].state == Waiting || db.autos[k].state == Ready || db.autos[k].state == Claimed)
         then db.autos[k].(fileId := fileId) else db.autos[k]
  {
    hide FindItem;
    var id := db.files[fileId];
    var found := FindItem(db.autos, id, db.policies[id.release].generation, 0);
    if db.autos[k].id == id && db.autos[k].generation == db.policies[id.release].generation {
      assert IsItem(db.autos[k], id, db.policies[id.release].generation);
      assert found <= k;
    }
  }

  // ---- saving presets -------------------------------------------------------------------------

  predicate BothNamed(p: Presets) { p.video != "" && p.audio != "" }
  predicate OneNamed(p: Presets) { (p.video == "") != (p.audio == "") }

  /** Presets are refused exactly if only one is named or the caller saw another revision. */
  lemma SavedExactlyWhen(db: Db, release: int, revision: nat, presets: Presets, snapshot: Json, now: int)
    ensures SavePolicy(db, release, revision, presets, snapshot, now).None? <==>
      OneNamed(presets) || revision != if release in db.policies then db.policies[release].revision else 0
  {}

  /**
   A saved policy holds the named presets with their snapshot, or none at all,
   under the next revision; participation, generation and every other release
   are as before.
   */
  lemma SavedPolicy(db: Db, release: int, revision: nat, presets: Presets, snapshot: Json, now: int)
    requires SavePolicy(db, release, revision, presets, snapshot, now).Some?
    ensures var next := SavePolicy(db, release, revision, presets, snapshot, now).value;
      && next == db.(policies := next.policies, autos := next.autos)
      && release in next.policies && OtherPolicies(db, next, release)
      && var p := next.policies[release];
         && p.revision == revision + 1
         && (BothNamed(presets) ==> p.presets == presets && p.snapshot == snapshot)
         && (!BothNamed(presets) ==> p.presets.video == "" && p.presets.audio == "" && p.presets.downmix == "none" && p.snapshot == Obj(map[]))
         && (release in db.policies ==>
               p.participating == db.policies[release].participating && p.generation == db.policies[release].generation)
         && (release !in db.policies ==> !p.participating && p.generation == 0)
  {
    hide Wake;
  }

  /** Exactly the rows of the release that wait for presets, or for somebody to look at changed ones, are woken. */
  lemma WokenRows(db: Db, release: int, revision: nat, presets: Presets, snapshot: Json, now: int, k: nat)
    requires SavePolicy(db, release, revision, presets, snapshot, now).Some? && k < |db.autos|
    ensures var next, a := SavePolicy(db, release, revision, presets, snapshot, now).value, db.autos[k];
      && |next.autos| == |db.autos|
      && var wakes := a.id.release == release && (a.reason == AtPreset || a.reason == AtPresetChanged)
                      && (a.state == Waiting || a.state == NeedsAttention);
         next.autos[k] == if wakes then a.(state := Waiting, reason := AtSettings, nextAttemptAt := now) else a
  {}

  // ---- the end of a tick ----------------------------------------------------------------------

  /**
   The last transaction of a tick does nothing unless its row still carries its
   token. It then settles the row from the submission it points at, or lets it
   wait for 30 seconds if there is none; a cancelled row stays cancelled. The
   row is nobody's afterwards.
   */
  lemma EndedTick(w: World, token: nat)
    requires token in w.senders
    ensures var v := DoEndTick(w, token);
      && token !in v.senders && (!HoldsToken(w, token) ==> v.db == w.db)
      && (HoldsToken(w, token) ==>
            var k := w.senders[token].auto;
            var a, b := w.db.autos[k], v.db.autos[k];
            var points := a.receipt.Some? && a.receipt.value.group < |w.db.groups|;
            && b.lease.None? && b.id == a.id && b.attempts == a.attempts && b.receipt == a.receipt
            && (points ==> b == SettleAuto(a, a.receipt.value.group, w.db.groups[a.receipt.value.group], w.now))
            && (!points ==> b.nextAttemptAt == w.now + 30 && v.db.retryAt == w.db.retryAt)
            && (!points && a.state == Cancelled ==> b.state == Cancelled && b.reason == a.reason)
            && (!points && a.state != Cancelled ==> b.state == Waiting && b.reason == AtServer))
  {
    if HoldsToken(w, token) {
      var a := w.db.autos[w.senders[token].auto];
      if a.receipt.Some? && a.receipt.value.group < |w.db.groups| {
        SettledByLines(a, a.receipt.value.group, w.db.groups[a.receipt.value.group], w.now);
      }
    }
    hide SettleAuto, RetryAfter, TakesState, SomeLine, SomeConflict;
  }

  /**
   A tick that was refused because of another line takes that line over: its row
   points at it and, unless it is cancelled, is done as already submitted, pending,
   or in need of attention as that line is.
   */
  lemma AdoptedLine(w: World, token: nat)
    requires HoldsToken(w, token) && w.senders[token].step.Conflicted? && HasRef(w.db.groups, w.senders[token].step.prior)
    requires w.db.autos[w.senders[token].auto].reason != AtPresetChanged && Live(At(w.db.groups, w.senders[token].step.prior).status)
    ensures var prior := w.senders[token].step.prior;
      var b, line := DoSettleConflict(w, token).db.autos[w.senders[token].auto], At(w.db.groups, prior);
      && b.receipt == Some(prior) && b.lease.None?
      && (w.db.autos[w.senders[token].auto].state == Cancelled ==> b.state == Cancelled)
      && (w.db.autos[w.senders[token].auto].state != Cancelled ==>
            && (line.conflict ==> b.state == NeedsAttention && b.reason == AtSourceConflict)
            && (!line.conflict && line.status == Accepted ==> b.state == Done && b.reason == AtAlreadySubmitted)
            && (!line.conflict && line.status == Sending ==> b.state == ReceiptPending && b.reason == AtReceiptPending)
            && (!line.conflict && line.status == Unknown ==> b.state == NeedsAttention && b.reason == AtUnknown))
  {
    var prior := w.senders[token].step.prior;
    var moved := w.db.autos[w.senders[token].auto].(receipt := Some(prior));
    var group := w.db.groups[prior.group];
    SettledByLines(moved, prior.group, group, w.now);
    OnlyLine(moved, group, prior);
    hide SettleAuto, RetryAfter, AnyLine, SomeLine, SomeConflict;
  }

  lemma OnlyLine(a: Auto, group: Group, r: Ref)
    requires a.receipt == Some(r) && r.index < |group.items|
    ensures AnyLine(a, r.group, group)
    ensures forall s :: SomeLine(a, r.group, group, s) <==> group.items[r.index].status == s
    ensures SomeConflict(a, r.group, group) <==> group.items[r.index].conflict
  {
    assert OwnLine(a, r.group, r.index, group.items[r.index]);
    if s :| SomeLine(a, r.group, group, s) { assert forall n: nat :: n < |group.items| && OwnLine(a, r.group, n, group.items[n]) ==> n == r.index; }
  }
}
