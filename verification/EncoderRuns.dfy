/**
 The submission protocol as a step system: workers that may crash at any point,
 an encoder that may lose replies, and every order of their transactions.
 */
module EncoderRuns {
  import opened Json
  import opened EncoderHistory
  import opened EncoderTables
  import opened RepairReceipt

  /** How far one `submit_files` call has come after claiming its receipt. */
  datatype Phase = Preparing | Prepared | Committed | Posted(delivered: bool)

  /** A running `submit_files` call; `token` only for automatic submissions. */
  datatype Owner = Owner(token: Option<nat>, phase: Phase)

  /** What a tick read before submitting. */
  datatype Options = Options(fileId: int, presets: Presets)

  datatype SenderStep = Fresh | Submitted | Conflicted(prior: Ref)

  /** A running tick that holds a claim token. */
  datatype Sender = Sender(auto: nat, options: Option<Options>, step: SenderStep)

  /**
   `issued`: every token ever handed out, and the row it was for.
   `posts`, `received`, `created`: what the encoder saw and made of it.
   `baselines`: for each generation, the versions archived when it began.
   */
  datatype World = World(
    db: Db, owners: map<nat, Owner>, senders: map<nat, Sender>, issued: map<nat, nat>, recoveries: multiset<nat>,
    posts: multiset<nat>, received: set<nat>, created: set<Ref>,
    baselines: map<(int, nat), set<string>>, now: int)

  datatype Event =
    | Advance(to: int)
    | SetEnabled(on: bool)
    | Initialize
    | Track(release: int, on: bool)
    | Observe(release: int, infoHash: string)
    | AddFile(fileId: int, id: Identity)
    | Register(fileId: int, explicit: bool)
    | SavePresets(release: int, revision: nat, presets: Presets, snapshot: Json)
    | Reconcile(item: nat, facts: Facts)
    | ExpireReceipts
    | ClaimNext(item: nat, facts: Facts, token: nat)
    | ReadOptions(token: nat)
    | ClaimManual(request: Request)
    | ClaimByTick(token: nat, request: Request)
    | ConflictForTick(token: nat, request: Request, prior: Ref)
    | Preflight(group: nat, checks: seq<Option<Captured>>)
    | Abort(group: nat)
    | Commit(group: nat, ok: set<nat>, sameServer: bool, snapshot: Json, facts: Facts)
    | Post(group: nat, delivered: bool, creates: set<nat>)
    | Reply(group: nat, code: int, body: Json, saved: Json, changed: set<nat>)
    | Refuse(group: nat, status: int, why: Json, changed: set<nat>)
    | Lose(group: nat, http: Option<int>, retry: bool, changed: set<nat>)
    | Undelivered(group: nat)
    | CrashOwner(group: nat)
    | SelectReceipt(group: nat)
    | RecoverReceipt(group: nat, answer: Answer, changed: set<nat>)
    | Repair(group: nat)
    | SettleConflict(token: nat)
    | EndTick(token: nat)
    | CrashTick(token: nat)

  // ---- what a request may look like ---------------------------------------------

  /** A source line freshly read from its file row; a missing file is never sent. */
  predicate FreshItem(db: Db, item: Item) {
    && item.jobIds == {} && !item.conflict && item.error != Unconfirmed
    && if item.status == NotSent then item.infoHash == ""
       else item.status == Sending && item.fileId in db.files && IdOf(item) == db.files[item.fileId]
  }

  predicate FreshRequest(db: Db, q: Request) {
    && q.items != []
    && (forall i :: 0 <= i < |q.items| ==> FreshItem(db, q.items[i]))
    && (forall i, j :: 0 <= i < j < |q.items| ==> q.items[i].fileId != q.items[j].fileId)
    // uq_torrent_files_hash_path
    && (forall i, j :: 0 <= i < j < |q.items| && q.items[i].infoHash != "" ==>
          q.items[i].infoHash != q.items[j].infoHash || q.items[i].relativePath != q.items[j].relativePath)
  }

  /** A tick submits one file, with the options it read and no override. */
  predicate TickRequest(w: World, token: nat, q: Request) {
    && token in w.senders && w.senders[token].step == Fresh && w.senders[token].options.Some?
    && q.origin == Automatic(w.senders[token].auto) && q.token == token
    && !q.allowRepeat && !q.acknowledgeUnknown && |q.items| == 1
    && var o := w.senders[token].options.value;
       q.items[0].fileId == o.fileId && (!NoPresets(o.presets) ==> q.presets == o.presets)
  }

  /** uq_torrent_files_hash_path: no other file row has that version and path. */
  ghost predicate NewFile(files: map<int, Identity>, id: Identity) {
    forall x :: x in files ==> files[x].infoHash != id.infoHash || files[x].relativePath != id.relativePath
  }

  /** The conflict checks run after expired receipts were written off in the same transaction. */
  ghost predicate ClaimChecks(w: World, q: Request) {
    && !KnownRequest(w.db.groups, q.requestId)
    && Clear(ExpireAll(w.db.groups, w.now), q)
    && HoldsClaim(w.db.autos, q.origin, q.token)
  }

  predicate InPhase(w: World, g: nat, p: Phase) {
    g < |w.db.groups| && g in w.owners && w.owners[g].phase == p
  }

  /** Past the first preflight; an automatic submission knows its token and its row. */
  predicate ReadyToCommit(w: World, g: nat) {
    && InPhase(w, g, Prepared)
    && (w.db.groups[g].origin.Automatic? ==> w.owners[g].token.Some? && w.db.groups[g].origin.item < |w.db.autos|)
  }

  predicate IsCatalogue(e: Event) { e.Advance? || e.SetEnabled? || e.Initialize? || e.Track? || e.Observe? || e.AddFile? || e.Register? || e.SavePresets? || e.ExpireReceipts? }

  predicate IsQueue(e: Event) { e.Reconcile? || e.ClaimNext? || e.ReadOptions? || e.ConflictForTick? || e.SettleConflict? || e.EndTick? || e.CrashTick? || e.ClaimManual? || e.ClaimByTick? }

  predicate IsRequest(e: Event) { e.Preflight? || e.Abort? || e.Commit? || e.Post? || e.Reply? || e.Refuse? || e.Lose? || e.Undelivered? || e.CrashOwner? || e.SelectReceipt? || e.RecoverReceipt? || e.Repair? }

  /** Catalogue, policies and the clock. */
  ghost predicate EnabledCatalogue(w: World, e: Event)
    requires IsCatalogue(e)
  {
    match e
    case Advance(to) => w.now <= to
    case SetEnabled(_) => true
    case Initialize => w.db.enabled
    case Track(_, _) => true
    case Observe(_, _) => true
    case AddFile(fileId, id) => fileId !in w.db.files && NewFile(w.db.files, id)
    case Register(fileId, _) => fileId in w.db.files
    case SavePresets(release, revision, presets, snapshot) =>
      SavePolicy(w.db, release, revision, presets, snapshot, w.now).Some?
    case ExpireReceipts => true
  }

  /** Rows, ticks and claims. */
  ghost predicate EnabledQueue(w: World, e: Event)
    requires IsQueue(e)
  {
    match e
    case Reconcile(item, facts) =>
      item < |w.db.autos| && Due(w.db.autos[item], w.now) && FactsFit(w.db, w.db.autos[item], facts)
    case ClaimNext(item, facts, token) =>
      MayClaim(w.db, w.now) && NextReady(w.db.autos, item) && token !in w.issued && FactsFit(w.db, w.db.autos[item], facts)
    case ReadOptions(token) =>
      token in w.senders && w.senders[token].step == Fresh && w.senders[token].options.None? &&
      w.senders[token].auto < |w.db.autos| && w.db.autos[w.senders[token].auto].id.release in w.db.policies
    case ClaimManual(q) => q.origin == Manual && FreshRequest(w.db, q) && ClaimChecks(w, q)
    case ClaimByTick(token, q) => TickRequest(w, token, q) && FreshRequest(w.db, q) && ClaimChecks(w, q)
    case ConflictForTick(token, q, prior) =>
      TickRequest(w, token, q) && FreshRequest(w.db, q) && Forbids(ExpireAll(w.db.groups, w.now), q, 0, prior)
    case SettleConflict(token) =>
      token in w.senders && w.senders[token].step.Conflicted? && HoldsToken(w, token) &&
      w.senders[token].step.prior.group < |w.db.groups|
    case EndTick(token) => token in w.senders
    case CrashTick(token) => token in w.senders
  }

  /** Running submissions and their receipts. */
  ghost predicate EnabledRequest(w: World, e: Event)
    requires IsRequest(e)
  {
    match e
    case Preflight(g, checks) => InPhase(w, g, Preparing) && |checks| == |w.db.groups[g].items|
    case Abort(g) => InPhase(w, g, Preparing) || InPhase(w, g, Prepared)
    case Commit(g, _, _, _, facts) =>
      && ReadyToCommit(w, g)
      && (w.db.groups[g].origin.Automatic? ==> FactsFit(w.db, w.db.autos[w.db.groups[g].origin.item], facts))
    case Post(g, delivered, creates) =>
      InPhase(w, g, Committed) && creates <= w.db.groups[g].payload && (delivered || creates == {})
    case Reply(g, code, _, _, _) => InPhase(w, g, Posted(true)) && code in {200, 202, 207}
    case Refuse(g, status, _, _) => (InPhase(w, g, Posted(true)) || InPhase(w, g, Posted(false))) && status in REFUSALS
    case Lose(g, _, _, _) => InPhase(w, g, Committed) || InPhase(w, g, Posted(true)) || InPhase(w, g, Posted(false))
    case Undelivered(g) => InPhase(w, g, Posted(false))
    case CrashOwner(g) => g in w.owners
    case SelectReceipt(g) => g < |w.db.groups| && AwaitsReceipt(w.db.groups[g], w.now)
    case RecoverReceipt(g, _, _) =>
      g < |w.db.groups| && w.recoveries[g] > 0 &&
      (w.db.groups[g].origin.Automatic? ==> w.db.groups[g].origin.item < |w.db.autos|)
    case Repair(g) =>
      g < |w.db.groups| && var r := w.db.groups[g];
      Repairable(r.finishedAt.Some?, r.startedAt.Some?, r.httpStatus, r.response)
  }

  ghost predicate Enabled(w: World, e: Event) {
    if IsCatalogue(e) then EnabledCatalogue(w, e)
    else if IsQueue(e) then EnabledQueue(w, e)
    else EnabledRequest(w, e)
  }

  /** The tick's row still carries the tick's own token. */
  predicate HoldsToken(w: World, token: nat) {
    && token in w.senders && w.senders[token].auto < |w.db.autos|
    && var lease := w.db.autos[w.senders[token].auto].lease;
       lease.Some? && lease.value.token == token
  }

  // ---- one step of the world -----------------------------------------------------

  function WithGroup(w: World, g: nat, r: Group): World
    requires g < |w.db.groups|
  {
    w.(db := w.db.(groups := w.db.groups[g := r]))
  }

  function DropOwner(w: World, g: nat): World {
    w.(owners := w.owners - {g})
  }

  /** A generation's baseline is remembered when the generation begins. */
  function Remember(w: World, release: int, db: Db): World {
    var before, after := PolicyFor(w.db, release), PolicyFor(db, release);
    w.(db := db,
       baselines := if after.generation > before.generation
                    then w.baselines[(release, after.generation) := ArchivedHashes(w.db, release)] else w.baselines)
  }

  function DoClaimNext(w: World, a: nat, f: Facts, token: nat): World
    requires a < |w.db.autos|
  {
    var auto := ClaimAuto(w.db, a, f, token, w.now);
    var next := w.(db := w.db.(autos := w.db.autos[a := auto]));
    if auto.state == Claimed
    then next.(senders := w.senders[token := Sender(a, None, Fresh)], issued := w.issued[token := a])
    else next
  }

  function DoClaim(w: World, q: Request): World {
    w.(db := AddGroup(w.db, q, w.now),
       owners := w.owners[|w.db.groups| := Owner(if q.origin.Automatic? then Some(q.token) else None, Preparing)])
  }

  function DoAbort(w: World, g: nat, items: seq<Item>, snapshot: Json): World
    requires g < |w.db.groups|
  {
    var r := w.db.groups[g].(items := items, snapshot := snapshot);
    DropOwner(WithGroup(w, g, FinishFailure(r, false, "aborted", w.now)), g)
  }

  /** Second preflight through the durable intent, in one transaction. */
  function DoCommit(w: World, g: nat, ok: set<nat>, sameServer: bool, snapshot: Json, f: Facts): World
    requires g < |w.db.groups| && g in w.owners
    requires w.db.groups[g].origin.Automatic? ==> w.owners[g].token.Some? && w.db.groups[g].origin.item < |w.db.autos|
  {
    var r := w.db.groups[g];
    var items := Recheck(r.items, ok);
    if SendingSet(items) == {} || !sameServer then DoAbort(w, g, items, snapshot)
    else if r.origin.Manual? then StartWith(w, g, items, snapshot)
    else
      var a := r.origin.item;
      match Validate(w.db, a, w.owners[g].token.value, snapshot, f, w.now)
      case Granted => StartWith(w, g, items, snapshot)
      case Denied(auto) => DoAbort(w.(db := w.db.(autos := w.db.autos[a := auto])), g, items, snapshot)
  }

  function StartWith(w: World, g: nat, items: seq<Item>, snapshot: Json): World
    requires g < |w.db.groups| && g in w.owners
  {
    var r := w.db.groups[g].(snapshot := snapshot);
    WithGroup(w, g, StartRequest(r, items, w.now)).(owners := w.owners[g := w.owners[g].(phase := Committed)])
  }

  function DoPost(w: World, g: nat, delivered: bool, creates: set<nat>): World
    requires g in w.owners
  {
    w.(owners := w.owners[g := w.owners[g].(phase := Posted(delivered))],
       posts := w.posts + multiset{g},
       received := if delivered then w.received + {g} else w.received,
       created := w.created + set i | i in creates :: Ref(g, i))
  }

  function DoRecover(w: World, g: nat, answer: Answer, changed: set<nat>): World
    requires g < |w.db.groups|
    requires w.db.groups[g].origin.Automatic? ==> w.db.groups[g].origin.item < |w.db.autos|
  {
    var next := WithGroup(w, g, Recover(w.db.groups[g], answer, changed, w.now)).(recoveries := w.recoveries - multiset{g});
    match w.db.groups[g].origin
    case Manual => next
    case Automatic(a) => next.(db := SettleItem(next.db, a, g, w.now))
  }

  function DoRepair(w: World, g: nat): World
    requires g < |w.db.groups| && w.db.groups[g].httpStatus.Some?
  {
    var r := w.db.groups[g];
    WithGroup(w, g, r.(items := Repaired(r.items, r.httpStatus.value, r.response)))
  }

  /** The tick adopts the line that blocked it. */
  function DoSettleConflict(w: World, token: nat): World
    requires HoldsToken(w, token) && w.senders[token].step.Conflicted?
    requires w.senders[token].step.prior.group < |w.db.groups|
  {
    var a, prior := w.senders[token].auto, w.senders[token].step.prior;
    var db := w.db.(autos := w.db.autos[a := w.db.autos[a].(receipt := Some(prior))]);
    var settled := SettleItem(db, a, prior.group, w.now);
    w.(db := settled.(autos := settled.autos[a :=
      if settled.autos[a].state == Done then Transition(settled.autos[a], Done, AtAlreadySubmitted) else settled.autos[a]]))
  }

  /** The tick's last transaction. */
  function DoEndTick(w: World, token: nat): World
    requires token in w.senders
  {
    var over := w.(senders := w.senders - {token});
    if !HoldsToken(w, token) then over
    else
      var a := w.senders[token].auto;
      var auto := w.db.autos[a];
      if auto.receipt.Some? && auto.receipt.value.group < |w.db.groups|
      then over.(db := SettleItem(w.db, a, auto.receipt.value.group, w.now))
      else
        var idle := if auto.state == Cancelled then auto else Transition(auto, Waiting, AtServer);
        over.(db := w.db.(autos := w.db.autos[a := idle.(lease := None, nextAttemptAt := w.now + 30)]))
  }

  ghost function ApplyCatalogue(w: World, e: Event): World
    requires IsCatalogue(e) && EnabledCatalogue(w, e)
  {
    match e
    case Advance(to) => w.(now := to)
    case SetEnabled(on) => w.(db := w.db.(enabled := on))
    case Initialize => w.(db := w.db.(initialized := true))
    case Track(release, on) => Remember(w, release, SetTracked(w.db, release, on))
    case Observe(release, h) => Remember(w, release, ObserveArchive(w.db, release, h))
    case AddFile(fileId, id) => w.(db := w.db.(files := w.db.files[fileId := id]))
    case Register(fileId, explicit) => w.(db := RegisterFile(w.db, fileId, explicit, w.now))
    case SavePresets(release, revision, presets, snapshot) =>
      w.(db := SavePolicy(w.db, release, revision, presets, snapshot, w.now).value)
    case ExpireReceipts => w.(db := w.db.(groups := ExpireAll(w.db.groups, w.now)))
  }

  ghost function ApplyQueue(w: World, e: Event): World
    requires IsQueue(e) && EnabledQueue(w, e)
  {
    match e
    case Reconcile(item, facts) => w.(db := ReconcileItem(w.db, item, facts, w.now))
    case ClaimNext(item, facts, token) => DoClaimNext(w, item, facts, token)
    case ReadOptions(token) =>
      var auto := w.db.autos[w.senders[token].auto];
      var options := Options(auto.fileId, w.db.policies[auto.id.release].presets);
      w.(senders := w.senders[token := w.senders[token].(options := Some(options))])
    case ClaimManual(q) => DoClaim(w, q)
    case ClaimByTick(token, q) =>
      DoClaim(w, q).(senders := w.senders[token := w.senders[token].(step := Submitted)])
    case ConflictForTick(token, q, prior) =>
      w.(senders := w.senders[token := w.senders[token].(step := Conflicted(prior))])
    case SettleConflict(token) => DoSettleConflict(w, token)
    case EndTick(token) => DoEndTick(w, token)
    case CrashTick(token) => w.(senders := w.senders - {token})
  }

  ghost function ApplyRequest(w: World, e: Event): World
    requires IsRequest(e) && EnabledRequest(w, e)
  {
    match e
    case Preflight(g, checks) =>
      WithGroup(w, g, w.db.groups[g].(items := Prepare(w.db.groups[g].items, checks))).(
        owners := w.owners[g := w.owners[g].(phase := Prepared)])
    case Abort(g) => DoAbort(w, g, w.db.groups[g].items, w.db.groups[g].snapshot)
    case Commit(g, ok, sameServer, snapshot, facts) => DoCommit(w, g, ok, sameServer, snapshot, facts)
    case Post(g, delivered, creates) => DoPost(w, g, delivered, creates)
    case Reply(g, code, body, saved, changed) =>
      DropOwner(WithGroup(w, g, Answered(w.db.groups[g], code, body, saved, changed, w.now)), g)
    case Refuse(g, status, why, changed) =>
      DropOwner(WithGroup(w, g, RefusedPost(w.db.groups[g], status, why, changed, w.now)), g)
    case Lose(g, status, retry, changed) =>
      DropOwner(WithGroup(w, g, LostPost(w.db.groups[g], status, retry, changed, w.now)), g)
    case Undelivered(g) =>
      DropOwner(WithGroup(w, g, FinishFailure(w.db.groups[g].(httpStatus := None), false, "undelivered", w.now)), g)
    case CrashOwner(g) => DropOwner(w, g)
    case SelectReceipt(g) =>
      WithGroup(w, g, w.db.groups[g].(receiptNextAt := Some(w.now + 600))).(recoveries := w.recoveries + multiset{g})
    case RecoverReceipt(g, answer, changed) => DoRecover(w, g, answer, changed)
    case Repair(g) => DoRepair(w, g)
  }

  ghost function Apply(w: World, e: Event): World
    requires Enabled(w, e)
  {
    if IsCatalogue(e) then ApplyCatalogue(w, e)
    else if IsQueue(e) then ApplyQueue(w, e)
    else ApplyRequest(w, e)
  }

  lemma CommitApplied(w: World, e: Event)
    requires Enabled(w, e) && e.Commit?
    ensures ReadyToCommit(w, e.group)
    ensures w.db.groups[e.group].origin.Automatic? ==> FactsFit(w.db, w.db.autos[w.db.groups[e.group].origin.item], e.facts)
    ensures Apply(w, e) == DoCommit(w, e.group, e.ok, e.sameServer, e.snapshot, e.facts)
  {
    hide EnabledCatalogue, EnabledQueue, ApplyCatalogue, ApplyQueue;
    hide DoCommit, FactsFit;
  }

  /** The receipt after the owner recorded an answer, or that there was none. */
  function AfterAnswer(g: Group, e: Event, now: int): Group
    requires e.Reply? || e.Refuse? || e.Lose?
  {
    if e.Reply? then Answered(g, e.code, e.body, e.saved, e.changed, now)
    else if e.Refuse? then RefusedPost(g, e.status, e.why, e.changed, now)
    else LostPost(g, e.http, e.retry, e.changed, now)
  }

  lemma AnswerApplied(w: World, e: Event)
    requires Enabled(w, e) && (e.Reply? || e.Refuse? || e.Lose?)
    ensures e.group < |w.db.groups| && e.group in w.owners && w.owners[e.group].phase !in {Preparing, Prepared}
    ensures Apply(w, e) == DropOwner(WithGroup(w, e.group, AfterAnswer(w.db.groups[e.group], e, w.now)), e.group)
  {
    hide EnabledCatalogue, EnabledQueue, ApplyCatalogue, ApplyQueue;
    hide Answered, RefusedPost, LostPost;
  }

  lemma SelectApplied(w: World, e: Event)
    requires Enabled(w, e) && e.SelectReceipt?
    ensures e.group < |w.db.groups| && AwaitsReceipt(w.db.groups[e.group], w.now)
    ensures Apply(w, e) == WithGroup(w, e.group, w.db.groups[e.group].(receiptNextAt := Some(w.now + 600))).(
                             recoveries := w.recoveries + multiset{e.group})
  {
    hide EnabledCatalogue, EnabledQueue, ApplyCatalogue, ApplyQueue;
    hide AwaitsReceipt;
  }

  lemma AbortApplied(w: World, e: Event)
    requires Enabled(w, e) && e.Abort?
    ensures InPhase(w, e.group, Preparing) || InPhase(w, e.group, Prepared)
    ensures Apply(w, e) == DoAbort(w, e.group, w.db.groups[e.group].items, w.db.groups[e.group].snapshot)
  {
    hide EnabledCatalogue, EnabledQueue, ApplyCatalogue, ApplyQueue;
    hide DoAbort;
  }

  lemma RecoverApplied(w: World, e: Event)
    requires Enabled(w, e) && e.RecoverReceipt?
    ensures e.group < |w.db.groups| && w.recoveries[e.group] > 0
    ensures w.db.groups[e.group].origin.Automatic? ==> w.db.groups[e.group].origin.item < |w.db.autos|
    ensures Apply(w, e) == DoRecover(w, e.group, e.answer, e.changed)
  {
    hide EnabledCatalogue, EnabledQueue, ApplyCatalogue, ApplyQueue;
    hide DoRecover;
  }

  /** A step that is not possible changes nothing, so every sequence of events is a run. */
  ghost function Next(w: World, e: Event): World {
    if Enabled(w, e) then Apply(w, e) else w
  }

  ghost function Run(w: World, es: seq<Event>): World {
    if es == [] then w else Next(Run(w, es[..|es| - 1]), es[|es| - 1])
  }

  /** Before the first submission: nothing sent, nothing queued, automation not yet started. */
  ghost predicate Initial(w: World) {
    && w.db.groups == [] && w.db.autos == [] && w.db.policies == map[] && w.db.sources == map[]
    && !w.db.initialized && w.db.retryAt.None?
    && w.owners == map[] && w.senders == map[] && w.issued == map[] && w.recoveries == multiset{}
    && w.posts == multiset{} && w.received == {} && w.created == {} && w.baselines == map[]
  }
}
