/** What settling and assessing a row mean, in the fields of rows, lines and facts. */
module RowLaws {
  import opened Json
  import opened EncoderHistory
  import opened EncoderTables

  // ---- settling -------------------------------------------------------------------

  /** Line `n` of submission `g` is the row's: the one it points at, or without a pointer the one of its version and path. */
  predicate OwnLine(a: Auto, g: nat, n: nat, item: Item) {
    if a.receipt.Some? then a.receipt == Some(Ref(g, n))
    else item.infoHash == a.id.infoHash && item.relativePath == a.id.relativePath
  }

  /** Some line of the row has that status. */
  ghost predicate SomeLine(a: Auto, g: nat, group: Group, s: Status) {
    exists n: nat :: n < |group.items| && OwnLine(a, g, n, group.items[n]) && group.items[n].status == s
  }

  ghost predicate AnyLine(a: Auto, g: nat, group: Group) {
    exists n: nat :: n < |group.items| && OwnLine(a, g, n, group.items[n])
  }

  ghost predicate SomeConflict(a: Auto, g: nat, group: Group) {
    exists n: nat :: n < |group.items| && OwnLine(a, g, n, group.items[n]) && group.items[n].conflict
  }

  /** A row that takes its state from its lines: it has one, is not cancelled, and was not stopped by changed presets before the request. */
  ghost predicate TakesState(a: Auto, g: nat, group: Group) {
    && AnyLine(a, g, group) && a.state != Cancelled
    && !(a.reason == AtPresetChanged && group.startedAt.None?)
  }

  lemma LinesOfRow(a: Auto, g: nat, group: Group)
    ensures Receipts(a, g, group) != {} <==> AnyLine(a, g, group)
    ensures forall s :: AnyHas(group, Receipts(a, g, group), s) <==> SomeLine(a, g, group, s)
    ensures (exists i :: i in Receipts(a, g, group) && i < |group.items| && group.items[i].conflict) <==> SomeConflict(a, g, group)
  {
    var lines := Receipts(a, g, group);
    assert forall n: nat :: n in lines <==> n < |group.items| && OwnLine(a, g, n, group.items[n]);
    hide Receipts, OwnLine;
    if lines != {} { var n :| n in lines; }
  }

  /** The pause after the n-th attempt: 30 seconds doubled each time, five times at most, and never more than 900. */
  lemma PauseTable(n: nat)
    ensures Backoff(n) ==
      if n == 0 then 30 else if n == 1 then 60 else if n == 2 then 120 else if n == 3 then 240 else if n == 4 then 480 else 900
  {
    assert Pow2(0) == 1 && Pow2(1) == 2 && Pow2(2) == 4 && Pow2(3) == 8 && Pow2(4) == 16 && Pow2(5) == 32;
  }

  /**
   A settled row, state by state: a changed source comes first, then the first
   of accepted, sending, unknown and rejected among its lines; with none of them
   it waits for its next attempt. Otherwise it keeps its state, or needs
   attention if no line is its own. It is released in every case.
   */
  lemma SettledByLines(a: Auto, g: nat, group: Group, now: int)
    ensures var b := SettleAuto(a, g, group, now);
      b.id == a.id && b.receipt == a.receipt && b.attempts == a.attempts && b.revision == a.revision && b.lease.None?
    ensures var b := SettleAuto(a, g, group, now);
      TakesState(a, g, group) ==>
        && (b.state == NeedsAttention && b.reason == AtSourceConflict <==> SomeConflict(a, g, group))
        && (b.state == Done && b.reason == AtAccepted <==> !SomeConflict(a, g, group) && SomeLine(a, g, group, Accepted))
        && (b.state == ReceiptPending && b.reason == AtReceiptPending <==>
              !SomeConflict(a, g, group) && !SomeLine(a, g, group, Accepted) && SomeLine(a, g, group, Sending))
        && (b.state == NeedsAttention && b.reason == AtUnknown <==>
              !SomeConflict(a, g, group) && !SomeLine(a, g, group, Accepted) && !SomeLine(a, g, group, Sending) &&
              SomeLine(a, g, group, Unknown))
        && (b.state == NeedsAttention && b.reason == AtRejected <==>
              !SomeConflict(a, g, group) && !SomeLine(a, g, group, Accepted) && !SomeLine(a, g, group, Sending) &&
              !SomeLine(a, g, group, Unknown) && SomeLine(a, g, group, Rejected))
        && (b.state == Waiting && b.reason == AtServer <==>
              !SomeConflict(a, g, group) && !SomeLine(a, g, group, Accepted) && !SomeLine(a, g, group, Sending) &&
              !SomeLine(a, g, group, Unknown) && !SomeLine(a, g, group, Rejected))
        && (b.state == Waiting ==> b.nextAttemptAt == now + Backoff(a.attempts))
        && (b.state != Waiting && !SomeConflict(a, g, group) ==> b.nextAttemptAt == a.nextAttemptAt)
    ensures var b := SettleAuto(a, g, group, now);
      !TakesState(a, g, group) ==>
        if AnyLine(a, g, group) then b.state == a.state && b.reason == a.reason
        else b.state == NeedsAttention && b.reason == AtUnknown
  {
    LinesOfRow(a, g, group);
    hide Receipts, AnyHas, AnyLine, SomeLine, SomeConflict, Backoff;
  }

  /** The pause before the next claim ends with an accepted file, and begins with a file that was not sent. */
  lemma PausedByLines(a: Auto, g: nat, group: Group, retryAt: Option<int>, now: int)
    ensures var next := RetryAfter(a, g, group, retryAt, now);
      if !TakesState(a, g, group) then next == retryAt
      else if SomeLine(a, g, group, Accepted) then next == None
      else if SomeLine(a, g, group, Sending) || SomeLine(a, g, group, Unknown) || SomeLine(a, g, group, Rejected) then next == retryAt
      else next == Some(now + Backoff(a.attempts))
  {
    LinesOfRow(a, g, group);
    hide Receipts, AnyHas, AnyLine, SomeLine, SomeConflict, Backoff;
  }

  // ---- assessing --------------------------------------------------------------------

  /** A line that may carry the source: still live, of the same release and path, and not provably another content. */
  ghost predicate MayCarry(line: Item, id: Identity, content: Option<Content>) {
    && line.status in {Sending, Accepted, Unknown}
    && line.release == id.release && line.relativePath == id.relativePath
    && (line.infoHash == id.infoHash
        || (line.content.Some? && content.Some? && line.content.value == content.value)
        || line.conflict
        || (line.status == Unknown && (line.content.None? || content.None?)))
  }

  /** The submission a claimed row is itself in. */
  function OwnGroup(a: Auto): Option<nat> {
    if a.state == Claimed && a.receipt.Some? then Some(a.receipt.value.group) else None
  }

  ghost predicate CarriedBy(groups: seq<Group>, r: Ref, id: Identity, content: Option<Content>, own: Option<nat>) {
    HasRef(groups, r) && Some(r.group) != own && MayCarry(At(groups, r), id, content)
  }

  /** The newest line outside its own submission that may carry the source. */
  ghost predicate NewestCarrier(groups: seq<Group>, r: Ref, id: Identity, content: Option<Content>, own: Option<nat>) {
    && CarriedBy(groups, r, id, content, own)
    && forall q :: CarriedBy(groups, q, id, content, own) ==> q == r || q.group < r.group || (q.group == r.group && q.index < r.index)
  }

  ghost predicate NoCarrier(groups: seq<Group>, id: Identity, content: Option<Content>, own: Option<nat>) {
    forall r :: !CarriedBy(groups, r, id, content, own)
  }

  lemma DuplicateMeans(line: Item, id: Identity, content: Option<Content>)
    ensures Duplicate(line, id, content) <==> MayCarry(line, id, content)
  {}

  /** The preview finds exactly the newest carrier, if there is one. */
  lemma PreviousMeans(groups: seq<Group>, id: Identity, content: Option<Content>, own: Option<nat>)
    ensures var r := Previous(groups, |groups|, id, content, own);
      && (r.None? <==> NoCarrier(groups, id, content, own))
      && (r.Some? ==> NewestCarrier(groups, r.value, id, content, own))
  {
    hide Duplicate, MayCarry, Previous;
    forall q: Ref
      ensures CarriedBy(groups, q, id, content, own) <==>
        HasRef(groups, q) && Some(q.group) != own && Duplicate(At(groups, q), id, content)
    {
      if HasRef(groups, q) { DuplicateMeans(At(groups, q), id, content); }
    }
    hide CarriedBy;
    PreviousContract(groups, id, content, own);
    var r := Previous(groups, |groups|, id, content, own);
    if r.Some? { assert CarriedBy(groups, r.value, id, content, own); }
  }

  lemma PreviousContract(groups: seq<Group>, id: Identity, content: Option<Content>, own: Option<nat>)
    ensures var r := Previous(groups, |groups|, id, content, own);
      && (r.Some? ==> HasRef(groups, r.value) && Some(r.value.group) != own && Duplicate(At(groups, r.value), id, content))
      && forall q: Ref :: HasRef(groups, q) && Some(q.group) != own && Duplicate(At(groups, q), id, content)
           ==> r.Some? && (q == r.value || Before(q, r.value))
  {
    hide Duplicate;
  }

  /** The release takes part, is tracked, and is still in the row's generation. */
  ghost predicate TakesPart(db: Db, a: Auto) {
    && a.id.release in db.policies && a.id.release in db.tracked
    && db.policies[a.id.release].participating && db.policies[a.id.release].generation == a.generation
  }

  ghost predicate FileThere(f: Facts) { f.file.Some? && !f.removed }

  /** Both presets are named, or none. */
  ghost predicate PresetsWhole(db: Db, a: Auto)
    requires TakesPart(db, a)
  {
    (db.policies[a.id.release].presets.video == "") <==> (db.policies[a.id.release].presets.audio == "")
  }

  /** The catalogue allows it: archived, known to be AVC, a selected video file that is new or changed. */
  ghost predicate Wanted(f: Facts) {
    f.archived && f.avc == Some(true) && FileThere(f) && f.video && f.changed && f.selected
  }

  /** The disk and the server allow it. */
  ghost predicate Sendable(f: Facts) {
    f.server && !f.hashing && f.present && f.verified
  }

  /** Nothing stands in the way but perhaps another line. */
  ghost predicate Unobstructed(db: Db, a: Auto, f: Facts) {
    TakesPart(db, a) && Wanted(f) && PresetsWhole(db, a) && db.enabled && Sendable(f)
  }

  /** A row is ready if and only if nothing stands in its way and no line outside its own submission may carry its source. */
  lemma ReadyExactlyWhen(db: Db, a: Auto, f: Facts)
    ensures Assess(db, a, f).state == Ready <==>
      Unobstructed(db, a, f) && NoCarrier(db.groups, a.id, f.content, OwnGroup(a))
    ensures Assess(db, a, f).state == Ready ==>
      Assess(db, a, f).reason == AtReady && Assess(db, a, f).auto == a.(fileId := f.file.value)
  {
    hide Previous, NoCarrier, CarriedBy;
    PreviousMeans(db.groups, a.id, f.content, OwnGroup(a));
  }

  /** The first obstacle in the order of the checks decides where the row goes. */
  lemma FirstObstacle(db: Db, a: Auto, f: Facts)
    ensures var r := Assess(db, a, f);
      && (!TakesPart(db, a) ==> r.state == Cancelled && r.reason == AtUntracked)
      && (TakesPart(db, a) && !f.archived ==> r.state == Cancelled && r.reason == AtSuperseded)
      && (TakesPart(db, a) && f.archived && f.avc.None? ==> r.state == Waiting && r.reason == AtMetadata)
      && (TakesPart(db, a) && f.archived && f.avc == Some(false) ==> r.state == Cancelled && r.reason == AtNotAvc)
    ensures var r := Assess(db, a, f);
      TakesPart(db, a) && f.archived && f.avc == Some(true) ==>
        && (!FileThere(f) ==> r.state == Cancelled && r.reason == AtRemoved)
        && (FileThere(f) && !f.video ==> r.state == Cancelled && r.reason == AtNotVideo)
        && (FileThere(f) && f.video && !f.changed ==> r.state == Cancelled && r.reason == AtNotChanged)
        && (FileThere(f) && f.video && f.changed && !f.selected ==> r.state == Waiting && r.reason == AtSelection)
    ensures var r := Assess(db, a, f);
      TakesPart(db, a) && Wanted(f) ==>
        && (!PresetsWhole(db, a) ==> r.state == Waiting && r.reason == AtPreset)
        && (PresetsWhole(db, a) && !db.enabled ==> r.state == Waiting && r.reason == AtPaused)
        && (PresetsWhole(db, a) && db.enabled && !f.server ==> r.state == Waiting && r.reason == AtServer)
        && (PresetsWhole(db, a) && db.enabled && f.server && f.hashing ==> r.state == Waiting && r.reason == AtHash)
        && (PresetsWhole(db, a) && db.enabled && f.server && !f.hashing && !f.present ==> r.state == Waiting && r.reason == AtDownload)
        && (PresetsWhole(db, a) && db.enabled && f.server && !f.hashing && f.present && !f.verified ==>
              r.state == Waiting && r.reason == AtHash)
  {
    hide Previous;
  }

  /** If only another line stands in the way, the row points at the newest one and follows it. */
  lemma CarrierDecides(db: Db, a: Auto, f: Facts, q: Ref)
    requires Unobstructed(db, a, f) && NewestCarrier(db.groups, q, a.id, f.content, OwnGroup(a))
    ensures var r, line := Assess(db, a, f), At(db.groups, q);
      && r.auto.receipt == Some(q)
      && (line.conflict ==> r.state == NeedsAttention && r.reason == AtSourceConflict)
      && (!line.conflict && line.status == Accepted ==> r.state == Done && r.reason == AtAlreadySubmitted)
      && (!line.conflict && line.status == Sending ==> r.state == ReceiptPending && r.reason == AtReceiptPending)
      && (!line.conflict && line.status == Unknown ==> r.state == NeedsAttention && r.reason == AtUnknown)
  {
    PreviousMeans(db.groups, a.id, f.content, OwnGroup(a));
    hide Previous;
    assert CarriedBy(db.groups, q, a.id, f.content, OwnGroup(a));
  }

  /**
   An intent is granted if and only if the row is claimed under that token and
   inside its lease, nothing stands in its way any more, the policy is the one it
   was claimed under, and named presets are offered as they were when saved.
   */
  lemma GrantedExactlyWhen(db: Db, a: nat, token: nat, snapshot: Json, f: Facts, now: int)
    requires a < |db.autos|
    ensures var auto := db.autos[a];
      Validate(db, a, token, snapshot, f, now).Granted? <==>
        && auto.state == Claimed && auto.lease.Some? && auto.lease.value.token == token && now < auto.lease.value.until
        && Unobstructed(db, auto, f) && NoCarrier(db.groups, auto.id, f.content, OwnGroup(auto))
        && var p := db.policies[auto.id.release];
           p.revision == auto.revision && (p.presets.video != "" && p.presets.audio != "" ==> p.snapshot == snapshot)
  {
    ReadyExactlyWhen(db, db.autos[a], f);
    hide Assess, NoCarrier;
  }

  /** A refused intent moves the row where its obstacle sends it, or says what about the presets has changed. */
  lemma DeniedRow(db: Db, a: nat, token: nat, snapshot: Json, f: Facts, now: int)
    requires a < |db.autos| && Validate(db, a, token, snapshot, f, now).Denied?
    ensures var auto, b := db.autos[a], Validate(db, a, token, snapshot, f, now).auto;
      var held := auto.state == Claimed && auto.lease.Some? && auto.lease.value.token == token && now < auto.lease.value.until;
      var ready := Unobstructed(db, auto, f) && NoCarrier(db.groups, auto.id, f.content, OwnGroup(auto));
      && (!held ==> b == auto)
      && (held && !ready ==> b.state == Assess(db, auto, f).state && b.reason == Assess(db, auto, f).reason)
      && (held && ready && db.policies[auto.id.release].revision != auto.revision ==> b.state == Waiting && b.reason == AtPreset)
      && (held && ready && db.policies[auto.id.release].revision == auto.revision ==>
            b.state == NeedsAttention && b.reason == AtPresetChanged)
  {
    ReadyExactlyWhen(db, db.autos[a], f);
    hide Assess, NoCarrier;
  }
}
