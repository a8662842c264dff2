/**
 The tables of the automatic encoder and what each locked transaction does to
 them (automatic_encoder.py, encoder_history.py, encoder_submission.py,
 encoder_receipts.py under backend/app/services).
 */
module EncoderTables {
  import opened Json
  import opened EncoderHistory

  // ---- rows -----------------------------------------------------------------

  /** A receipt line: submission and position inside it. Later refs have larger row ids. */
  datatype Ref = Ref(group: nat, index: nat)

  datatype Presets = Presets(video: string, audio: string, downmix: string)

  /** `origin` and `auto_item_id`, which are always set together. */
  datatype Origin = Manual | Automatic(item: nat)

  datatype Group = Group(
    requestId: string, target: string, presets: Presets, origin: Origin, items: seq<Item>,
    snapshot: Json, payload: set<nat>, startedAt: Option<int>, finishedAt: Option<int>, expiresAt: int,
    receiptNextAt: Option<int>, receiptError: bool,
    httpStatus: Option<int>, response: Json, error: Option<string>)

  datatype AutoState = Waiting | Ready | Claimed | ReceiptPending | Done | NeedsAttention | Cancelled

  datatype Reason =
    | AtPreset | AtPresetChanged | AtSettings | AtMetadata | AtHash | AtDownload | AtSelection | AtServer
    | AtPaused | AtReady | AtSending | AtAccepted | AtReceiptPending | AtUnknown | AtAlreadySubmitted
    | AtSuperseded | AtUntracked | AtRemoved | AtNotChanged | AtNotAvc | AtNotVideo | AtRejected | AtSourceConflict

  /** `claim_token` and `lease_until`, which are always set and cleared together. */
  datatype Lease = Lease(token: nat, until: int)

  /** What makes two rows speak of the same source: release, version and exact path. */
  datatype Identity = Identity(release: int, infoHash: string, relativePath: string)

  datatype Auto = Auto(
    id: Identity, generation: nat, fileId: int, explicit: bool, state: AutoState, reason: Reason,
    revision: nat, receipt: Option<Ref>, attempts: nat, lease: Option<Lease>, nextAttemptAt: int)

  /** Empty `video` and `audio` mean that the encoder's defaults are followed. */
  datatype Policy = Policy(presets: Presets, snapshot: Json, revision: nat, generation: nat, participating: bool)

  datatype SourceKey = SourceKey(release: int, generation: nat, infoHash: string)

  datatype Db = Db(
    groups: seq<Group>, autos: seq<Auto>, policies: map<int, Policy>, sources: map<SourceKey, bool>,
    archives: set<(int, string)>, tracked: set<int>, files: map<int, Identity>,
    enabled: bool, initialized: bool, retryAt: Option<int>)

  const NO_PRESETS := Presets("", "", "none")
  const ACTIVE := {Waiting, Ready, Claimed}

  predicate Live(s: Status) { s in {Sending, Accepted, Unknown} }
  predicate Unresolved(s: Status) { s in {Sending, Unknown} }

  predicate HasPresets(p: Presets) { p.video != "" && p.audio != "" }
  predicate NoPresets(p: Presets) { p.video == "" && p.audio == "" }

  predicate HasRef(groups: seq<Group>, r: Ref) {
    r.group < |groups| && r.index < |groups[r.group].items|
  }

  function At(groups: seq<Group>, r: Ref): Item
    requires HasRef(groups, r)
  {
    groups[r.group].items[r.index]
  }

  function IdOf(item: Item): Identity {
    Identity(item.release, item.infoHash, item.relativePath)
  }

  // ---- receipts: expiry, failure, source conflicts -----------------------------

  /** Every file still being sent is written off: unknown if the request had started. */
  function WriteOff(items: seq<Item>, started: bool, why: string): (r: seq<Item>)
    ensures |r| == |items|
    ensures forall i :: 0 <= i < |items| ==>
      r[i] == if items[i].status == Sending
              then items[i].(status := if started then Unknown else NotSent, error := Text(why)) else items[i]
  {
    seq(|items|, i requires 0 <= i < |items| =>
      if items[i].status == Sending
      then items[i].(status := if started then Unknown else NotSent, error := Text(why)) else items[i])
  }

  predicate Expired(g: Group, now: int) {
    g.finishedAt.None? && g.expiresAt < now
  }

  function Expire(g: Group, now: int): Group {
    if Expired(g, now)
    then g.(items := WriteOff(g.items, g.startedAt.Some?, "expired"), finishedAt := Some(now))
    else g
  }

  function ExpireAll(groups: seq<Group>, now: int): (r: seq<Group>)
    ensures |r| == |groups|
    ensures forall g :: 0 <= g < |groups| ==> r[g] == Expire(groups[g], now)
  {
    seq(|groups|, g requires 0 <= g < |groups| => Expire(groups[g], now))
  }

  function FinishFailure(g: Group, started: bool, why: string, now: int): Group {
    g.(items := WriteOff(g.items, started, why), error := Some(why), finishedAt := Some(now))
  }

  /** A documented refusal of the whole request. */
  function RefuseAll(items: seq<Item>, why: Json): (r: seq<Item>)
    ensures |r| == |items|
    ensures forall i :: 0 <= i < |items| ==>
      r[i] == if items[i].status == Sending then items[i].(status := Rejected, error := Refused(why)) else items[i]
  {
    seq(|items|, i requires 0 <= i < |items| =>
      if items[i].status == Sending then items[i].(status := Rejected, error := Refused(why)) else items[i])
  }

  /** `check_source_conflicts`: files whose source changed on disk since it was captured. */
  function MarkConflicts(items: seq<Item>, changed: set<nat>): (r: seq<Item>)
    ensures |r| == |items|
    ensures forall i :: 0 <= i < |items| ==>
      r[i] == if items[i].status != NotSent && i in changed
              then items[i].(conflict := true, error := Text("source changed")) else items[i]
  {
    seq(|items|, i requires 0 <= i < |items| =>
      if items[i].status != NotSent && i in changed
      then items[i].(conflict := true, error := Text("source changed")) else items[i])
  }

  /** A file's state on disk, captured before sending; none when it is not available. */
  datatype Captured = Captured(fullPath: string, content: Option<Content>)

  /** First preflight. */
  function Prepare(items: seq<Item>, checks: seq<Option<Captured>>): (r: seq<Item>)
    requires |items| == |checks|
    ensures |r| == |items|
    ensures forall i :: 0 <= i < |items| ==>
      r[i] == if items[i].status == NotSent then items[i]
              else if checks[i].None? then items[i].(status := NotSent, error := Text("unavailable"))
              else items[i].(fullPath := checks[i].value.fullPath, content := checks[i].value.content)
  {
    seq(|items|, i requires 0 <= i < |items| =>
      if items[i].status == NotSent then items[i]
      else if checks[i].None? then items[i].(status := NotSent, error := Text("unavailable"))
      else items[i].(fullPath := checks[i].value.fullPath, content := checks[i].value.content))
  }

  /** Second preflight: files that no longer match what was captured are not sent. */
  function Recheck(items: seq<Item>, ok: set<nat>): (r: seq<Item>)
    ensures |r| == |items|
    ensures forall i :: 0 <= i < |items| ==>
      r[i] == if items[i].status == Sending && i !in ok
              then items[i].(status := NotSent, error := Text("changed")) else items[i]
  {
    seq(|items|, i requires 0 <= i < |items| =>
      if items[i].status == Sending && i !in ok
      then items[i].(status := NotSent, error := Text("changed")) else items[i])
  }

  function SendingSet(items: seq<Item>): set<nat> {
    set i: nat | i < |items| && items[i].status == Sending
  }

  /** Durable intent: from here on the request may reach the encoder. */
  function StartRequest(g: Group, items: seq<Item>, now: int): Group {
    g.(items := items, payload := SendingSet(items), startedAt := Some(now), receiptNextAt := Some(now + 600))
  }

  /** `settle_response` on a receipt: the files it decides, and the code and reply it writes down. */
  function SettleGroup(g: Group, code: int, body: Json, saved: Json, now: int): Group {
    g.(items := Settled(g.items, code, body), httpStatus := Some(code), response := saved, finishedAt := Some(now))
  }

  /** The reply, code and error that `from` had are put back. */
  function RestoreReply(g: Group, from: Group): Group {
    g.(response := from.response, httpStatus := from.httpStatus, error := from.error)
  }

  /** The POST was answered 200/207 (settled) or 202 (pending). */
  function Answered(g: Group, code: int, body: Json, saved: Json, changed: set<nat>, now: int): Group {
    if code == 202 then
      g.(httpStatus := Some(202), response := saved, receiptNextAt := Some(now + 2),
         items := MarkConflicts(g.items, changed))
    else
      var settled := SettleGroup(g, code, body, saved, now);
      var items := settled.items;
      settled.(
         receiptNextAt := if exists i :: 0 <= i < |items| && items[i].status == Unknown then Some(now) else None,
         items := MarkConflicts(items, changed))
  }

  /** The POST was refused with a documented 400, 403, 404 or 422. */
  function RefusedPost(g: Group, status: int, why: Json, changed: set<nat>, now: int): Group {
    g.(httpStatus := Some(status), items := MarkConflicts(RefuseAll(g.items, why), changed),
       error := Some("refused"), finishedAt := Some(now))
  }

  /** Any other failure after the intent: the encoder may or may not have the files. */
  function LostPost(g: Group, status: Option<int>, retry: bool, changed: set<nat>, now: int): Group {
    FinishFailure(g.(items := MarkConflicts(g.items, changed), httpStatus := status,
                     receiptNextAt := if retry then Some(now) else g.receiptNextAt), true, "lost", now)
  }

  const REFUSALS := {400, 403, 404, 422}

  // ---- receipt recovery -------------------------------------------------------

  /** What asking the encoder for a receipt returned; `Silent` is any transport failure. */
  datatype Answer = Silent | Answer(code: int, body: Json, delay: int)

  /** How the program reads an answer, given the request it asked about. */
  datatype Outcome =
    | Failed                          // transport failure or an unexpected code: ask again later
    | Foreign                         // nothing confirms this request, or it was interrupted: stop asking
    | Processing(delay: int)
    | Settles(code: int, body: Json)
    | Refuses(why: Json)

  function Max(a: int, b: int): int { if a < b then b else a }
  function Min(a: int, b: int): int { if a < b then a else b }

  function OutcomeOf(requestId: string, a: Answer): Outcome {
    if a.Silent? then Failed
    else if Get(a.body, "request_id") != Str(requestId) then Foreign
    else if a.code == 202 then
      if Get(a.body, "request_status") == Str("processing") then Processing(Max(2, Min(a.delay, 300))) else Foreign
    else if a.code in ENCODER_CODES then Settles(a.code, a.body)
    else if a.code in REFUSALS then
      Refuses(if a.body.Obj? && "error" in a.body.fields then a.body.fields["error"] else a.body)
    else Failed
  }

  /** A file a recovered reply may still decide is sending again, with a clean note. */
  function Reopen(items: seq<Item>): (r: seq<Item>)
    ensures |r| == |items|
    ensures forall i :: 0 <= i < |items| ==>
      r[i] == if Unresolved(items[i].status) then items[i].(status := Sending, error := NoNote) else items[i]
  {
    seq(|items|, i requires 0 <= i < |items| =>
      if Unresolved(items[i].status) then items[i].(status := Sending, error := NoNote) else items[i])
  }

  /** The encoder is still working: unknown lines are pending again. */
  function Resume(items: seq<Item>): (r: seq<Item>)
    ensures |r| == |items|
    ensures forall i :: 0 <= i < |items| ==>
      r[i] == if items[i].status == Unknown then items[i].(status := Sending, error := NoNote) else items[i]
  {
    seq(|items|, i requires 0 <= i < |items| =>
      if items[i].status == Unknown then items[i].(status := Sending, error := NoNote) else items[i])
  }

  /** The receipt after the answer, before an unanswered one is given up. */
  function ReadOutcome(g: Group, o: Outcome, changed: set<nat>, now: int): Group {
    var open := Reopen(MarkConflicts(g.items, changed));
    match o
    case Failed => g.(receiptError := true, receiptNextAt := Some(now + 300))
    case Foreign => g.(receiptError := true, receiptNextAt := None)
    case Processing(delay) =>
      g.(receiptError := false, finishedAt := None, expiresAt := now + 600, items := Resume(g.items),
         receiptNextAt := Some(now + delay))
    case Settles(code, body) =>
      RestoreReply(SettleGroup(g.(items := open), code, body, Payload(body), now), g).(receiptError := false, receiptNextAt := None)
    case Refuses(why) =>
      RestoreReply(g.(items := RefuseAll(open, why), finishedAt := Some(now)), g).(receiptError := false, receiptNextAt := None)
  }

  /** A receipt that could not be read is given up: pending lines become unknown. */
  function RecoverWith(g: Group, o: Outcome, changed: set<nat>, now: int): Group {
    var read := ReadOutcome(g, o, changed, now);
    if read.receiptError
    then read.(items := WriteOff(read.items, true, "receipt"),
               finishedAt := if read.finishedAt.Some? then read.finishedAt else Some(now))
    else read
  }

  /** Second transaction of `recover_receipts`. */
  function Recover(g: Group, a: Answer, changed: set<nat>, now: int): Group {
    RecoverWith(g, OutcomeOf(g.requestId, a), changed, now)
  }

  predicate AwaitsReceipt(g: Group, now: int) {
    && g.startedAt.Some? && g.payload != {}
    && g.receiptNextAt.Some? && g.receiptNextAt.value <= now
    && exists i :: 0 <= i < |g.items| && Unresolved(g.items[i].status)
  }

  // ---- claiming a receipt -------------------------------------------------------

  datatype Request = Request(
    requestId: string, target: string, presets: Presets, origin: Origin, token: nat, items: seq<Item>,
    allowRepeat: bool, acknowledgeUnknown: bool)

  predicate Blocking(s: Status, allowRepeat: bool, acknowledgeUnknown: bool) {
    s == Sending || (s == Accepted && !allowRepeat) || (s == Unknown && !acknowledgeUnknown)
  }

  /** The same version and path, sent to the same server with the same presets, and still live. */
  predicate SameSend(g: Group, i: nat, target: string, presets: Presets, infoHash: string, path: string)
    requires i < |g.items|
  {
    && g.target == target && g.presets == presets
    && g.items[i].infoHash == infoHash && g.items[i].relativePath == path && Live(g.items[i].status)
  }

  function NewestIn(g: Group, n: nat, target: string, presets: Presets, infoHash: string, path: string): (r: Option<nat>)
    requires n <= |g.items|
    ensures r.Some? ==> r.value < n && SameSend(g, r.value, target, presets, infoHash, path)
    ensures forall i :: (if r.Some? then r.value + 1 else 0) <= i < n ==> !SameSend(g, i, target, presets, infoHash, path)
  {
    if n == 0 then None
    else if SameSend(g, n - 1, target, presets, infoHash, path) then Some(n - 1)
    else NewestIn(g, n - 1, target, presets, infoHash, path)
  }

  predicate Before(a: Ref, b: Ref) {
    a.group < b.group || (a.group == b.group && a.index < b.index)
  }

  /** The newest live line for that server, presets, version and path among the first `n` submissions. */
  function NewestLive(groups: seq<Group>, n: nat, target: string, presets: Presets, infoHash: string, path: string): (r: Option<Ref>)
    requires n <= |groups|
    ensures r.Some? ==> r.value.group < n && HasRef(groups, r.value) &&
                        SameSend(groups[r.value.group], r.value.index, target, presets, infoHash, path)
    ensures forall q: Ref :: q.group < n && HasRef(groups, q) && SameSend(groups[q.group], q.index, target, presets, infoHash, path)
              ==> r.Some? && (q == r.value || Before(q, r.value))
  {
    if n == 0 then None
    else
      var g := groups[n - 1];
      var i := NewestIn(g, |g.items|, target, presets, infoHash, path);
      if i.Some? then Some(Ref(n - 1, i.value)) else NewestLive(groups, n - 1, target, presets, infoHash, path)
  }

  /** An older line that may be the same source, when either side is automatic. */
  predicate MayRepeat(parent: Group, prior: Item, item: Item, origin: Origin) {
    && Live(prior.status) && prior.release == item.release && prior.relativePath == item.relativePath
    && (origin.Automatic? || parent.origin.Automatic?)
    && (prior.infoHash == item.infoHash
        || (item.content.Some? && item.content == prior.content)
        || prior.conflict
        || (prior.status == Unknown && !(item.content.Some? && prior.content.Some?)))
  }

  /** Line `prior` forbids sending file `i` of the request. */
  predicate Forbids(groups: seq<Group>, q: Request, i: nat, prior: Ref)
    requires i < |q.items|
  {
    && q.items[i].infoHash != "" && HasRef(groups, prior)
    && Blocking(At(groups, prior).status, q.allowRepeat, q.acknowledgeUnknown)
    && (NewestLive(groups, |groups|, q.target, q.presets, q.items[i].infoHash, q.items[i].relativePath) == Some(prior)
        || MayRepeat(groups[prior.group], At(groups, prior), q.items[i], q.origin))
  }

  ghost predicate Clear(groups: seq<Group>, q: Request) {
    forall i, prior :: 0 <= i < |q.items| ==> !Forbids(groups, q, i, prior)
  }

  /** The automatic item still waits for exactly this submission. */
  predicate HoldsClaim(autos: seq<Auto>, origin: Origin, token: nat) {
    origin.Automatic? ==>
      && origin.item < |autos| && autos[origin.item].state == Claimed
      && autos[origin.item].lease.Some? && autos[origin.item].lease.value.token == token
  }

  function NewGroup(q: Request, now: int): Group {
    Group(q.requestId, q.target, q.presets, q.origin, q.items, Obj(map[]), {}, None, None, now + 600,
          None, false, None, Obj(map[]), None)
  }

  function PointTo(autos: seq<Auto>, origin: Origin, r: Ref): (out: seq<Auto>)
    ensures |out| == |autos|
  {
    if origin.Automatic? && origin.item < |autos|
    then autos[origin.item := autos[origin.item].(receipt := Some(r))] else autos
  }

  /** A successful `claim`. */
  function AddGroup(db: Db, q: Request, now: int): Db {
    db.(groups := ExpireAll(db.groups, now) + [NewGroup(q, now)],
        autos := PointTo(db.autos, q.origin, Ref(|db.groups|, 0)))
  }

  predicate KnownRequest(groups: seq<Group>, requestId: string) {
    exists g :: 0 <= g < |groups| && groups[g].requestId == requestId
  }

  // ---- automatic items -----------------------------------------------------------

  function Transition(a: Auto, state: AutoState, reason: Reason): Auto {
    a.(state := state, reason := reason)
  }

  /** Lines of submission `g` that decide the automatic item. */
  function Receipts(a: Auto, g: nat, group: Group): set<nat> {
    set i: nat | i < |group.items| &&
      (if a.receipt.Some? then a.receipt == Some(Ref(g, i))
       else group.items[i].infoHash == a.id.infoHash && group.items[i].relativePath == a.id.relativePath)
  }

  predicate AnyHas(group: Group, lines: set<nat>, s: Status) {
    exists i :: i in lines && i < |group.items| && group.items[i].status == s
  }

  function Pow2(n: nat): nat { if n == 0 then 1 else 2 * Pow2(n - 1) }

  function Backoff(attempts: nat): int {
    Min(900, 30 * Pow2(if attempts < 5 then attempts else 5))
  }

  function SettleAuto(a: Auto, g: nat, group: Group, now: int): Auto {
    var lines := Receipts(a, g, group);
    if lines == {} then Transition(a, NeedsAttention, AtUnknown).(lease := None)
    else if a.state == Cancelled || (a.reason == AtPresetChanged && group.startedAt.None?) then a.(lease := None)
    else
      var next :=
        if AnyHas(group, lines, Accepted) then Transition(a, Done, AtAccepted)
        else if AnyHas(group, lines, Sending) then Transition(a, ReceiptPending, AtReceiptPending)
        else if AnyHas(group, lines, Unknown) then Transition(a, NeedsAttention, AtUnknown)
        else if AnyHas(group, lines, Rejected) then Transition(a, NeedsAttention, AtRejected)
        else Transition(a, Waiting, AtServer).(nextAttemptAt := now + Backoff(a.attempts));
      (if exists i :: i in lines && i < |group.items| && group.items[i].conflict
       then Transition(next, NeedsAttention, AtSourceConflict) else next).(lease := None)
  }

  /** The pause before the next automatic claim, as `settle_item` leaves it. */
  function RetryAfter(a: Auto, g: nat, group: Group, retryAt: Option<int>, now: int): Option<int> {
    var lines := Receipts(a, g, group);
    if lines == {} || a.state == Cancelled || (a.reason == AtPresetChanged && group.startedAt.None?) then retryAt
    else if AnyHas(group, lines, Accepted) then None
    else if AnyHas(group, lines, Sending) || AnyHas(group, lines, Unknown) || AnyHas(group, lines, Rejected) then retryAt
    else Some(now + Backoff(a.attempts))
  }

  function SettleItem(db: Db, a: nat, g: nat, now: int): Db
    requires a < |db.autos| && g < |db.groups|
  {
    db.(autos := db.autos[a := SettleAuto(db.autos[a], g, db.groups[g], now)],
        retryAt := RetryAfter(db.autos[a], g, db.groups[g], db.retryAt, now))
  }

  /** What the catalogue, the disk and the encoder settings say about a candidate right now. */
  datatype Facts = Facts(
    archived: bool, avc: Option<bool>, file: Option<int>, removed: bool, video: bool, changed: bool, selected: bool,
    server: bool, hashing: bool, present: bool, verified: bool, content: Option<Content>)

  predicate FactsFit(db: Db, a: Auto, f: Facts) {
    f.file.Some? ==> f.file.value in db.files && db.files[f.file.value] == a.id
  }

  /** A live line that may already carry this source. */
  predicate Duplicate(prior: Item, id: Identity, content: Option<Content>) {
    && Live(prior.status) && prior.release == id.release && prior.relativePath == id.relativePath
    && (prior.infoHash == id.infoHash || (content.Some? && content == prior.content) || prior.conflict
        || (prior.status == Unknown && !(content.Some? && prior.content.Some?)))
  }

  function DuplicateIn(g: Group, n: nat, id: Identity, content: Option<Content>): (r: Option<nat>)
    requires n <= |g.items|
    ensures r.Some? ==> r.value < n && Duplicate(g.items[r.value], id, content)
    ensures forall i :: (if r.Some? then r.value + 1 else 0) <= i < n ==> !Duplicate(g.items[i], id, content)
  {
    if n == 0 then None
    else if Duplicate(g.items[n - 1], id, content) then Some(n - 1)
    else DuplicateIn(g, n - 1, id, content)
  }

  /** `previous_receipt`: the newest duplicate outside submission `exclude`. */
  function Previous(groups: seq<Group>, n: nat, id: Identity, content: Option<Content>, exclude: Option<nat>): (r: Option<Ref>)
    requires n <= |groups|
    ensures r.Some? ==> r.value.group < n && HasRef(groups, r.value) && Some(r.value.group) != exclude &&
                        Duplicate(At(groups, r.value), id, content)
    ensures forall q: Ref :: q.group < n && HasRef(groups, q) && Some(q.group) != exclude && Duplicate(At(groups, q), id, content)
              ==> r.Some? && (q == r.value || Before(q, r.value))
  {
    if n == 0 then None
    else
      var g := groups[n - 1];
      var i := DuplicateIn(g, |g.items|, id, content);
      if Some(n - 1) != exclude && i.Some? then Some(Ref(n - 1, i.value))
      else Previous(groups, n - 1, id, content, exclude)
  }

  datatype Assessment = Assessment(state: AutoState, reason: Reason, auto: Auto)

  predicate MayRun(db: Db, a: Auto) {
    && a.id.release in db.policies && a.id.release in db.tracked
    && db.policies[a.id.release].participating && db.policies[a.id.release].generation == a.generation
  }

  /** `assess`: the first obstacle in order; a found duplicate becomes the item's receipt. */
  function Assess(db: Db, a: Auto, f: Facts): Assessment {
    if !MayRun(db, a) then Assessment(Cancelled, AtUntracked, a)
    else if !f.archived then Assessment(Cancelled, AtSuperseded, a)
    else if f.avc.None? then Assessment(Waiting, AtMetadata, a)
    else if !f.avc.value then Assessment(Cancelled, AtNotAvc, a)
    else if f.file.None? || f.removed then Assessment(Cancelled, AtRemoved, a)
    else
      var b := a.(fileId := f.file.value);
      var p := db.policies[a.id.release].presets;
      if !f.video then Assessment(Cancelled, AtNotVideo, b)
      else if !f.changed then Assessment(Cancelled, AtNotChanged, b)
      else if !f.selected then Assessment(Waiting, AtSelection, b)
      else if (p.video != "") != (p.audio != "") then Assessment(Waiting, AtPreset, b)
      else if !db.enabled then Assessment(Waiting, AtPaused, b)
      else if !f.server then Assessment(Waiting, AtServer, b)
      else if f.hashing then Assessment(Waiting, AtHash, b)
      else if !f.present then Assessment(Waiting, AtDownload, b)
      else if !f.verified then Assessment(Waiting, AtHash, b)
      else
        var own := if a.state == Claimed && a.receipt.Some? then Some(a.receipt.value.group) else None;
        var prior := Previous(db.groups, |db.groups|, a.id, f.content, own);
        if prior.None? then Assessment(Ready, AtReady, b)
        else
          var c, item := b.(receipt := prior), At(db.groups, prior.value);
          if item.conflict then Assessment(NeedsAttention, AtSourceConflict, c)
          else if item.status == Accepted then Assessment(Done, AtAlreadySubmitted, c)
          else if item.status == Sending then Assessment(ReceiptPending, AtReceiptPending, c)
          else Assessment(NeedsAttention, AtUnknown, c)
  }

  /** Rows `reconcile` picks up. */
  predicate Due(a: Auto, now: int) {
    && (a.state in ACTIVE + {ReceiptPending} || (a.state == NeedsAttention && a.reason == AtUnknown))
    && a.nextAttemptAt <= now
    && (a.lease.None? || a.lease.value.until <= now)
  }

  /** The item's submission already holds something that decides it. */
  predicate HasOutcome(a: Auto, groups: seq<Group>) {
    && a.receipt.Some? && a.receipt.value.group < |groups|
    && var g := a.receipt.value.group;
       exists i :: i in Receipts(a, g, groups[g]) && i < |groups[g].items| && groups[g].items[i].status != NotSent
  }

  /** One pass of `reconcile` over one due row. */
  function ReconcileItem(db: Db, a: nat, f: Facts, now: int): Db
    requires a < |db.autos|
  {
    if HasOutcome(db.autos[a], db.groups) then SettleItem(db, a, db.autos[a].receipt.value.group, now)
    else
      var r := Assess(db, db.autos[a].(lease := None), f);
      db.(autos := db.autos[a := Transition(r.auto, r.state, r.reason).(nextAttemptAt := now + 30)])
  }

  /** The oldest ready row. */
  predicate NextReady(autos: seq<Auto>, a: nat) {
    a < |autos| && autos[a].state == Ready && forall b :: 0 <= b < a ==> autos[b].state != Ready
  }

  /** No claim of any row is still inside its lease. */
  predicate NoneClaimed(autos: seq<Auto>, now: int) {
    forall a :: 0 <= a < |autos| && autos[a].state == Claimed && autos[a].lease.Some? ==> autos[a].lease.value.until <= now
  }

  predicate MayClaim(db: Db, now: int) {
    (db.retryAt.None? || db.retryAt.value <= now) && NoneClaimed(db.autos, now)
  }

  /** The oldest ready row is claimed, or moved to where its assessment sends it. */
  function ClaimAuto(db: Db, a: nat, f: Facts, token: nat, now: int): Auto
    requires a < |db.autos|
  {
    var r := Assess(db, db.autos[a], f);
    if r.state == Ready then
      Transition(r.auto, Claimed, AtSending).(
        lease := Some(Lease(token, now + 660)), attempts := r.auto.attempts + 1,
        revision := if r.auto.id.release in db.policies then db.policies[r.auto.id.release].revision else 0)
    else Transition(r.auto, r.state, r.reason)
  }

  /** `validate_intent`: permission at the instant of the durable intent. */
  datatype Permission = Granted | Denied(auto: Auto)

  function Validate(db: Db, a: nat, token: nat, snapshot: Json, f: Facts, now: int): Permission
    requires a < |db.autos|
  {
    var auto := db.autos[a];
    if auto.state != Claimed || auto.lease.None? || auto.lease.value.token != token || auto.lease.value.until <= now
    then Denied(auto)
    else
      var r := Assess(db, auto, f);
      if r.state != Ready then Denied(Transition(r.auto, r.state, r.reason))
      else
        var p := db.policies[auto.id.release];
        if p.revision != auto.revision then Denied(Transition(r.auto, Waiting, AtPreset))
        else if HasPresets(p.presets) && p.snapshot != snapshot then Denied(Transition(r.auto, NeedsAttention, AtPresetChanged))
        else Granted
  }

  // ---- policies and generations -----------------------------------------------------

  function PolicyFor(db: Db, release: int): Policy {
    if release in db.policies then db.policies[release] else Policy(NO_PRESETS, Obj(map[]), 0, 0, false)
  }

  /** Untracking stops every active item whose request has not started. */
  function Stopped(groups: seq<Group>, a: Auto, release: int): bool {
    a.id.release == release && a.state in ACTIVE &&
    (a.receipt.None? || a.receipt.value.group >= |groups| || groups[a.receipt.value.group].startedAt.None?)
  }

  function StopAll(db: Db, release: int): (r: seq<Auto>)
    ensures |r| == |db.autos|
    ensures forall a :: 0 <= a < |r| ==>
      r[a] == if Stopped(db.groups, db.autos[a], release) then Transition(db.autos[a], Cancelled, AtUntracked) else db.autos[a]
  {
    seq(|db.autos|, a requires 0 <= a < |db.autos| =>
      if Stopped(db.groups, db.autos[a], release) then Transition(db.autos[a], Cancelled, AtUntracked) else db.autos[a])
  }

  /** Versions of a release already archived. */
  function ArchivedHashes(db: Db, release: int): set<string> {
    set x | x in db.archives && x.0 == release :: x.1
  }

  function Baseline(db: Db, release: int, generation: nat): map<SourceKey, bool> {
    var keys := set h | h in ArchivedHashes(db, release) :: SourceKey(release, generation, h);
    map k | k in keys :: true
  }

  function TrackingChanged(db: Db, release: int, on: bool): Db {
    if !db.initialized then db
    else
      var p := PolicyFor(db, release);
      if p.participating == on then db.(policies := db.policies[release := p])
      else if on then
        db.(policies := db.policies[release := p.(participating := true, generation := p.generation + 1)],
            sources := db.sources + Baseline(db, release, p.generation + 1))
      else
        db.(policies := db.policies[release := p.(participating := false)], autos := StopAll(db, release))
  }

  function SetTracked(db: Db, release: int, on: bool): Db {
    TrackingChanged(db.(tracked := if on then db.tracked + {release} else db.tracked - {release}), release, on)
  }

  /** A version is registered before its archive row is committed. */
  function ObserveArchive(db: Db, release: int, infoHash: string): Db {
    var archived := db.archives + {(release, infoHash)};
    if !db.initialized || release !in db.tracked then db.(archives := archived)
    else
      var on := TrackingChanged(db, release, true);
      var key := SourceKey(release, PolicyFor(on, release).generation, infoHash);
      on.(archives := archived,
          sources := if key in on.sources then on.sources else on.sources[key := false])
  }

  predicate IsItem(a: Auto, id: Identity, generation: nat) {
    a.id == id && a.generation == generation
  }

  /** Position of the row for that source and generation, or the number of rows. */
  function FindItem(autos: seq<Auto>, id: Identity, generation: nat, from: nat): (k: nat)
    requires from <= |autos|
    ensures from <= k <= |autos|
    ensures k < |autos| ==> IsItem(autos[k], id, generation)
    ensures forall j :: from <= j < k ==> !IsItem(autos[j], id, generation)
    decreases |autos| - from
  {
    if from == |autos| || IsItem(autos[from], id, generation) then from
    else FindItem(autos, id, generation, from + 1)
  }

  predicate MayRegister(db: Db, id: Identity, explicit: bool) {
    && id.release in db.policies && db.policies[id.release].participating
    && var key := SourceKey(id.release, db.policies[id.release].generation, id.infoHash);
       key in db.sources && (db.sources[key] ==> explicit)
  }

  function RegisterFile(db: Db, fileId: int, explicit: bool, now: int): Db
    requires fileId in db.files
  {
    var id := db.files[fileId];
    if !MayRegister(db, id, explicit) then db
    else
      var generation := db.policies[id.release].generation;
      var k := FindItem(db.autos, id, generation, 0);
      if k == |db.autos| then
        db.(autos := db.autos + [Auto(id, generation, fileId, explicit, Waiting, AtHash, 0, None, 0, None, now)])
      else if db.autos[k].state in ACTIVE then db.(autos := db.autos[k := db.autos[k].(fileId := fileId)])
      else db
  }

  /** Rows a saved assignment wakes up. */
  predicate AwaitsPreset(a: Auto, release: int) {
    a.id.release == release && a.state in {Waiting, NeedsAttention} && a.reason in {AtPreset, AtPresetChanged}
  }

  function Wake(autos: seq<Auto>, release: int, now: int): (r: seq<Auto>)
    ensures |r| == |autos|
    ensures forall a :: 0 <= a < |r| ==>
      r[a] == if AwaitsPreset(autos[a], release) then Transition(autos[a], Waiting, AtSettings).(nextAttemptAt := now) else autos[a]
  {
    seq(|autos|, a requires 0 <= a < |autos| =>
      if AwaitsPreset(autos[a], release) then Transition(autos[a], Waiting, AtSettings).(nextAttemptAt := now) else autos[a])
  }

  /** `save_policy`: refused unless the caller saw the current revision. */
  function SavePolicy(db: Db, release: int, revision: nat, presets: Presets, snapshot: Json, now: int): Option<Db> {
    var p := PolicyFor(db, release);
    if (presets.video != "") != (presets.audio != "") || p.revision != revision then None
    else
      var saved := p.(presets := if HasPresets(presets) then presets else NO_PRESETS,
                      snapshot := if HasPresets(presets) then snapshot else Obj(map[]), revision := p.revision + 1);
      Some(db.(policies := db.policies[release := saved], autos := Wake(db.autos, release, now)))
  }
}
