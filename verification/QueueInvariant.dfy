/**
 The automatic queue: who holds a claim, which receipt a row points at, and
 which presets a running submission carries.
 */
module QueueInvariant {
  import opened Json
  import opened EncoderHistory
  import opened EncoderTables
  import opened EncoderRuns
  import opened RowLaws
  import opened ReceiptSteps
  import opened FlightInvariant

  /** The line the row points at, if any, was never sent. */
  ghost predicate TargetUnsent(groups: seq<Group>, a: Auto) {
    a.receipt.Some? ==> HasRef(groups, a.receipt.value) && At(groups, a.receipt.value).status == NotSent
  }

  predicate AwaitingPreset(a: Auto) { a.reason == AtPreset || a.reason == AtPresetChanged }

  /** The line the row points at ended with that status. */
  ghost predicate TargetIs(groups: seq<Group>, a: Auto, s: Status) {
    a.receipt.Some? && HasRef(groups, a.receipt.value) && At(groups, a.receipt.value).status == s
  }

  /** A row that is done points at an accepted line, a rejected one at a rejected line. */
  ghost predicate VerdictOk(groups: seq<Group>, a: Auto) {
    && (a.state == Done ==> TargetIs(groups, a, Accepted) && a.reason != AtRejected)
    && (a.reason == AtRejected ==> a.state == NeedsAttention && TargetIs(groups, a, Rejected))
  }

  /** One row of the queue by itself. */
  ghost predicate AutoOk(db: Db, a: Auto) {
    && a.fileId in db.files && db.files[a.fileId] == a.id
    && (a.receipt.Some? ==> HasRef(db.groups, a.receipt.value))
    && (a.state == Waiting || a.state == Ready || AwaitingPreset(a) ==> TargetUnsent(db.groups, a))
    && (AwaitingPreset(a) ==> a.state == Waiting || a.state == NeedsAttention)
    && VerdictOk(db.groups, a)
    && (a.state == Ready ==> a.lease.None?)
    && (a.state == Claimed ==> a.lease.Some?)
    && (a.lease.Some? ==> a.id.release in db.policies && a.revision <= db.policies[a.id.release].revision)
  }

  predicate Holds(a: Auto, token: nat) {
    a.lease.Some? && a.lease.value.token == token
  }

  /** The row's release still has the assignment it was claimed under. */
  predicate SameRevision(db: Db, a: Auto) {
    a.id.release in db.policies && db.policies[a.id.release].revision == a.revision
  }

  /** A running tick. */
  ghost predicate SenderOk(db: Db, issued: map<nat, nat>, token: nat, s: Sender) {
    && token in issued && issued[token] == s.auto && s.auto < |db.autos|
    && var a := db.autos[s.auto];
      && (s.options.Some? ==>
            && s.options.value.fileId in db.files && db.files[s.options.value.fileId] == a.id
            && (Holds(a, token) && SameRevision(db, a) ==> s.options.value.presets == db.policies[a.id.release].presets))
      && (s.step.Conflicted? ==> HasRef(db.groups, s.step.prior))
      && (s.step != Submitted && Holds(a, token) ==>
            (a.state == Claimed || a.state == Cancelled) && TargetUnsent(db.groups, a))
  }

  /** A running automatic submission `g` under `token`. */
  ghost predicate SubmissionOk(db: Db, issued: map<nat, nat>, g: nat, token: nat) {
    && token in issued && issued[token] < |db.autos|
    && g < |db.groups| && db.groups[g].origin == Automatic(issued[token])
    && var a := db.autos[issued[token]];
       Holds(a, token) ==>
         && a.receipt == Some(Ref(g, 0))
         && (SameRevision(db, a) && HasPresets(db.policies[a.id.release].presets) ==>
               db.groups[g].presets == db.policies[a.id.release].presets)
  }

  /** An automatic receipt and the row it was made for; unless it was never sent, the row points at it. */
  ghost predicate ReceiptOk(autos: seq<Auto>, g: nat, r: Group) {
    r.origin.Automatic? ==>
      && r.origin.item < |autos| && |r.items| == 1
      && (r.items[0].status != NotSent ==>
            IdOf(r.items[0]) == autos[r.origin.item].id && autos[r.origin.item].receipt == Some(Ref(g, 0)))
  }

  predicate InLease(a: Auto, now: int) {
    a.state == Claimed && a.lease.Some? && now < a.lease.value.until
  }

  /** At most one claim is inside its lease. */
  ghost predicate OneClaim(autos: seq<Auto>, now: int) {
    forall j, k :: 0 <= j < k < |autos| && InLease(autos[j], now) ==> !InLease(autos[k], now)
  }

  ghost predicate QueueInv(w: World) {
    && (forall k :: 0 <= k < |w.db.autos| ==> AutoOk(w.db, w.db.autos[k]))
    && (forall k :: 0 <= k < |w.db.autos| && w.db.autos[k].lease.Some? ==>
          var t := w.db.autos[k].lease.value.token; t in w.issued && w.issued[t] == k)
    && (forall t :: t in w.senders ==> SenderOk(w.db, w.issued, t, w.senders[t]))
    && (forall g :: g in w.owners && w.owners[g].token.Some? ==>
          && SubmissionOk(w.db, w.issued, g, w.owners[g].token.value)
          && (w.owners[g].token.value in w.senders ==> w.senders[w.owners[g].token.value].step == Submitted))
    && (forall g :: 0 <= g < |w.db.groups| ==> ReceiptOk(w.db.autos, g, w.db.groups[g]))
    && OneClaim(w.db.autos, w.now)
  }

  // ---- steps that leave every claim and every pointer as it is -------------------

  ghost predicate PoliciesFollow(p: map<int, Policy>, q: map<int, Policy>) {
    forall r :: r in p ==>
      r in q && p[r].revision <= q[r].revision && (p[r].revision == q[r].revision ==> p[r].presets == q[r].presets)
  }

  ghost predicate FilesGrow(f: map<int, Identity>, g: map<int, Identity>) {
    forall x :: x in f ==> x in g && g[x] == f[x]
  }

  ghost predicate TablesFollow(db: Db, next: Db) {
    && Evolved(db.groups, next.groups) && |next.groups| == |db.groups|
    && PoliciesFollow(db.policies, next.policies) && FilesGrow(db.files, next.files)
    && |db.autos| <= |next.autos|
  }

  predicate AutoSteady(a: Auto, b: Auto) {
    && b.id == a.id && b.receipt == a.receipt && b.lease == a.lease && b.revision == a.revision
    && (b.state == Claimed ==> a.state == Claimed)
    && (a.state == Claimed || a.state == Cancelled ==> b.state == Claimed || b.state == Cancelled)
  }

  lemma TargetStaysUnsent(gs: seq<Group>, hs: seq<Group>, a: Auto)
    requires Evolved(gs, hs) && TargetUnsent(gs, a)
    ensures TargetUnsent(hs, a)
  {
    if a.receipt.Some? {
      var r := a.receipt.value;
      assert GroupEvolves(gs[r.group], hs[r.group]);
      assert ItemEvolves(At(gs, r), At(hs, r));
    }
  }

  lemma RefsStay(gs: seq<Group>, hs: seq<Group>, r: Ref)
    requires Evolved(gs, hs) && HasRef(gs, r)
    ensures HasRef(hs, r) && ItemEvolves(At(gs, r), At(hs, r))
  {
    assert GroupEvolves(gs[r.group], hs[r.group]);
  }

  lemma AutoStaysOk(db: Db, next: Db, a: Auto)
    requires AutoOk(db, a) && TablesFollow(db, next)
    ensures AutoOk(next, a)
  {
    hide GroupEvolves;
    if a.receipt.Some? { RefsStay(db.groups, next.groups, a.receipt.value); }
    if TargetUnsent(db.groups, a) { TargetStaysUnsent(db.groups, next.groups, a); }
  }

  lemma SenderStaysOk(db: Db, next: Db, issued: map<nat, nat>, token: nat, s: Sender)
    requires SenderOk(db, issued, token, s) && TablesFollow(db, next)
    requires AutoSteady(db.autos[s.auto], next.autos[s.auto])
    requires db.autos[s.auto].lease.Some? ==>
      db.autos[s.auto].id.release in db.policies && db.autos[s.auto].revision <= db.policies[db.autos[s.auto].id.release].revision
    ensures SenderOk(next, issued, token, s)
  {
    hide GroupEvolves;
    if s.step.Conflicted? { RefsStay(db.groups, next.groups, s.step.prior); }
    if TargetUnsent(db.groups, db.autos[s.auto]) { TargetStaysUnsent(db.groups, next.groups, db.autos[s.auto]); }
  }

  lemma SubmissionStaysOk(db: Db, next: Db, issued: map<nat, nat>, g: nat, token: nat)
    requires SubmissionOk(db, issued, g, token) && TablesFollow(db, next)
    requires AutoSteady(db.autos[issued[token]], next.autos[issued[token]])
    requires db.autos[issued[token]].lease.Some? ==>
      db.autos[issued[token]].id.release in db.policies &&
      db.autos[issued[token]].revision <= db.policies[db.autos[issued[token]].id.release].revision
    ensures SubmissionOk(next, issued, g, token)
  {
    assert GroupEvolves(db.groups[g], next.groups[g]);
  }

  lemma ReceiptStaysOk(db: Db, next: Db, g: nat)
    requires g < |db.groups| && ReceiptOk(db.autos, g, db.groups[g]) && TablesFollow(db, next)
    requires forall k :: 0 <= k < |db.autos| ==> AutoSteady(db.autos[k], next.autos[k])
    ensures ReceiptOk(next.autos, g, next.groups[g])
  {
    assert GroupEvolves(db.groups[g], next.groups[g]);
    if db.groups[g].origin.Automatic? {
      assert ItemEvolves(db.groups[g].items[0], next.groups[g].items[0]);
    }
  }

  /** Owners may leave; those that stay keep their token. */
  ghost predicate OwnersFollow(o: map<nat, Owner>, p: map<nat, Owner>) {
    forall g :: g in p ==> g in o && p[g].token == o[g].token
  }

  lemma Steady(w: World, v: World)
    requires QueueInv(w) && TablesFollow(w.db, v.db)
    requires forall k :: 0 <= k < |w.db.autos| ==> AutoSteady(w.db.autos[k], v.db.autos[k])
    requires forall k :: 0 <= k < |v.db.autos| ==> AutoOk(v.db, v.db.autos[k])
    requires forall k :: |w.db.autos| <= k < |v.db.autos| ==> v.db.autos[k].lease.None?
    requires v.issued == w.issued && OwnersFollow(w.owners, v.owners) && w.now <= v.now
    requires forall t :: t in v.senders ==> t in w.senders && v.senders[t] == w.senders[t]
    ensures QueueInv(v)
  {
    hide AutoOk, TablesFollow, SenderOk, SubmissionOk, ReceiptOk;
    forall t | t in v.senders
      ensures SenderOk(v.db, v.issued, t, v.senders[t])
    {
      SenderFacts(w.db, w.issued, t, w.senders[t]);
      AutoFacts(w.db, w.db.autos[w.senders[t].auto]);
      SenderStaysOk(w.db, v.db, w.issued, t, w.senders[t]);
    }
    forall g | g in v.owners && v.owners[g].token.Some?
      ensures SubmissionOk(v.db, v.issued, g, v.owners[g].token.value)
    {
      var t := w.owners[g].token.value;
      SubmissionFacts(w.db, w.issued, g, t);
      AutoFacts(w.db, w.db.autos[w.issued[t]]);
      SubmissionStaysOk(w.db, v.db, w.issued, g, t);
    }
    FollowFacts(w.db, v.db);
    forall g | 0 <= g < |v.db.groups|
      ensures ReceiptOk(v.db.autos, g, v.db.groups[g])
    {
      ReceiptStaysOk(w.db, v.db, g);
    }
  }

  lemma SenderFacts(db: Db, issued: map<nat, nat>, token: nat, s: Sender)
    requires SenderOk(db, issued, token, s)
    ensures s.auto < |db.autos| && token in issued && issued[token] == s.auto
  {}

  lemma SubmissionFacts(db: Db, issued: map<nat, nat>, g: nat, token: nat)
    requires SubmissionOk(db, issued, g, token)
    ensures token in issued && issued[token] < |db.autos| && g < |db.groups| && db.groups[g].origin == Automatic(issued[token])
    ensures Holds(db.autos[issued[token]], token) ==> db.autos[issued[token]].receipt == Some(Ref(g, 0))
  {}

  lemma AutoFacts(db: Db, a: Auto)
    requires AutoOk(db, a)
    ensures a.lease.Some? ==> a.id.release in db.policies && a.revision <= db.policies[a.id.release].revision
    ensures a.state == Ready ==> a.lease.None?
    ensures a.state == Claimed ==> a.lease.Some?
    ensures a.receipt.Some? ==> HasRef(db.groups, a.receipt.value)
    ensures a.state == Waiting || a.state == Ready ==> TargetUnsent(db.groups, a)
    ensures AwaitingPreset(a) ==> TargetUnsent(db.groups, a) && (a.state == Waiting || a.state == NeedsAttention)
    ensures a.fileId in db.files && db.files[a.fileId] == a.id
  {}

  lemma FollowFacts(db: Db, next: Db)
    requires TablesFollow(db, next)
    ensures |next.groups| == |db.groups| && |db.autos| <= |next.autos|
  {}

  // ---- steps that settle, release or move one row ---------------------------------

  /** Row `k` gives up its lease; it may move its pointer only away from a resolved line. */
  lemma OneAuto(w: World, v: World, k: nat, b: Auto)
    requires QueueInv(w) && k < |w.db.autos| && v.db.autos == w.db.autos[k := b]
    requires v.db == w.db.(autos := v.db.autos, retryAt := v.db.retryAt)
    requires v.issued == w.issued && v.owners == w.owners && v.now == w.now
    requires forall t :: t in v.senders ==> t in w.senders && v.senders[t] == w.senders[t]
    requires b.id == w.db.autos[k].id && b.lease.None? && AutoOk(v.db, b)
    requires b.receipt == w.db.autos[k].receipt || TargetUnsent(w.db.groups, w.db.autos[k])
    ensures QueueInv(v)
  {
    hide AutoOk, SenderOk, SubmissionOk, ReceiptOk, TargetUnsent;
    forall j | 0 <= j < |v.db.autos|
      ensures AutoOk(v.db, v.db.autos[j])
    {
      if j != k { AutoSameTables(w.db, v.db, w.db.autos[j]); }
    }
    forall t | t in v.senders
      ensures SenderOk(v.db, v.issued, t, v.senders[t])
    {
      SenderReleased(w.db, v.db, w.issued, t, w.senders[t], k);
    }
    forall g | g in v.owners && v.owners[g].token.Some?
      ensures SubmissionOk(v.db, v.issued, g, v.owners[g].token.value)
    {
      SubmissionReleased(w.db, v.db, w.issued, g, w.owners[g].token.value, k);
    }
    forall g | 0 <= g < |v.db.groups|
      ensures ReceiptOk(v.db.autos, g, v.db.groups[g])
    {
      ReceiptReleased(w.db, v.db, g, k);
    }
    assert OneClaim(v.db.autos, v.now) by {
      AutoFacts(v.db, b);
    }
  }

  lemma AutoSameTables(db: Db, next: Db, a: Auto)
    requires AutoOk(db, a) && next == db.(autos := next.autos, retryAt := next.retryAt)
    ensures AutoOk(next, a)
  {}

  lemma SenderReleased(db: Db, next: Db, issued: map<nat, nat>, t: nat, s: Sender, k: nat)
    requires SenderOk(db, issued, t, s) && k < |db.autos| && |next.autos| == |db.autos|
    requires next == db.(autos := next.autos, retryAt := next.retryAt)
    requires next.autos[k].id == db.autos[k].id && next.autos[k].lease.None?
    requires forall j :: 0 <= j < |db.autos| && j != k ==> next.autos[j] == db.autos[j]
    ensures SenderOk(next, issued, t, s)
  {}

  lemma SubmissionReleased(db: Db, next: Db, issued: map<nat, nat>, g: nat, t: nat, k: nat)
    requires SubmissionOk(db, issued, g, t) && k < |db.autos| && |next.autos| == |db.autos|
    requires next == db.(autos := next.autos, retryAt := next.retryAt)
    requires next.autos[k].id == db.autos[k].id && next.autos[k].lease.None?
    requires forall j :: 0 <= j < |db.autos| && j != k ==> next.autos[j] == db.autos[j]
    ensures SubmissionOk(next, issued, g, t)
  {}

  lemma ReceiptReleased(db: Db, next: Db, g: nat, k: nat)
    requires g < |db.groups| && ReceiptOk(db.autos, g, db.groups[g]) && k < |db.autos| && |next.autos| == |db.autos|
    requires next.groups == db.groups && next.autos[k].id == db.autos[k].id
    requires forall j :: 0 <= j < |db.autos| && j != k ==> next.autos[j] == db.autos[j]
    requires next.autos[k].receipt == db.autos[k].receipt || TargetUnsent(db.groups, db.autos[k])
    ensures ReceiptOk(next.autos, g, next.groups[g])
  {}

  /** What a row without a pointer may be settled from: nothing that was sent. */
  ghost predicate SettleFits(db: Db, a: Auto, g: nat)
    requires g < |db.groups|
  {
    a.receipt.None? ==> forall i :: 0 <= i < |db.groups[g].items| ==> db.groups[g].items[i].status == NotSent
  }

  /** With a pointer, the row's only line is the one it points at. */
  lemma PointedStatus(db: Db, a: Auto, g: nat, s: Status)
    requires g < |db.groups| && SettleFits(db, a, g) && SomeLine(a, g, db.groups[g], s) && s != NotSent
    ensures TargetIs(db.groups, a, s)
  {}

  lemma OneStatus(db: Db, a: Auto, g: nat)
    requires g < |db.groups| && a.receipt.Some? && AnyLine(a, g, db.groups[g])
    ensures HasRef(db.groups, a.receipt.value) && SomeLine(a, g, db.groups[g], At(db.groups, a.receipt.value).status)
  {}

  /** Settling a row from a submission leaves it released, consistent and never claimed. */
  lemma SettledAutoOk(db: Db, k: nat, g: nat, now: int)
    requires k < |db.autos| && g < |db.groups| && AutoOk(db, db.autos[k]) && SettleFits(db, db.autos[k], g)
    ensures var b := SettleAuto(db.autos[k], g, db.groups[g], now);
      b.id == db.autos[k].id && b.lease.None? && b.receipt == db.autos[k].receipt && AutoOk(SettleItem(db, k, g, now), b)
  {
    var a, group := db.autos[k], db.groups[g];
    var b := SettleAuto(a, g, group, now);
    SettledFields(a, g, group, now);
    SettledByLines(a, g, group, now);
    hide SettleAuto, RetryAfter, SomeLine, AnyLine, SomeConflict, Receipts, SettleFits, Backoff, AutoOk, AnyHas;
    if TakesState(a, g, group) { TakenTarget(db, a, g, b); } else { KeptTarget(db, a, b); }
    hide TakesState, SettledTarget;
    SettledRowOk(db, SettleItem(db, k, g, now), a, b);
  }

  /** A row that keeps its state, or gets none from its lines. */
  lemma KeptTarget(db: Db, a: Auto, b: Auto)
    requires AutoOk(db, a) && b.receipt == a.receipt && b.state != Claimed
    requires (b.state == a.state && b.reason == a.reason) || (b.state == NeedsAttention && b.reason == AtUnknown)
    ensures SettledTarget(db.groups, b)
  {}

  /** A row that takes its state from its lines. */
  lemma TakenTarget(db: Db, a: Auto, g: nat, b: Auto)
    requires AutoOk(db, a) && g < |db.groups| && SettleFits(db, a, g) && TakesState(a, g, db.groups[g]) && b.receipt == a.receipt
    requires b.state in {Done, ReceiptPending, NeedsAttention, Waiting} && !AwaitingPreset(b)
    requires b.state == Done ==> b.reason == AtAccepted && SomeLine(a, g, db.groups[g], Accepted)
    requires b.reason == AtRejected ==> b.state == NeedsAttention && SomeLine(a, g, db.groups[g], Rejected)
    requires b.state == Waiting ==> forall s :: SomeLine(a, g, db.groups[g], s) ==> s == NotSent
    ensures SettledTarget(db.groups, b)
  {
    hide SomeLine, AnyLine, SettleFits;
    if b.state == Done { PointedStatus(db, a, g, Accepted); }
    if b.reason == AtRejected { PointedStatus(db, a, g, Rejected); }
    if a.receipt.Some? { OneStatus(db, a, g); }
  }

  /** What a row's state says of the line it points at. */
  ghost predicate SettledTarget(groups: seq<Group>, a: Auto) {
    && (a.receipt.Some? ==> HasRef(groups, a.receipt.value))
    && (a.state == Waiting || a.state == Ready || AwaitingPreset(a) ==> TargetUnsent(groups, a))
    && (AwaitingPreset(a) ==> a.state == Waiting || a.state == NeedsAttention)
    && VerdictOk(groups, a) && a.state != Claimed
  }

  lemma SettledRowOk(db: Db, next: Db, a: Auto, b: Auto)
    requires AutoOk(db, a) && SettledTarget(db.groups, b) && b.lease.None? && b.id == a.id && b.fileId == a.fileId
    requires next.groups == db.groups && next.files == db.files
    ensures AutoOk(next, b)
  {}

  lemma SettledFields(a: Auto, g: nat, group: Group, now: int)
    ensures var b := SettleAuto(a, g, group, now);
      b == a.(state := b.state, reason := b.reason, lease := None, nextAttemptAt := b.nextAttemptAt)
    ensures var b := SettleAuto(a, g, group, now);
      if Receipts(a, g, group) == {} then b.state == NeedsAttention && b.reason == AtUnknown
      else if a.state == Cancelled || (a.reason == AtPresetChanged && group.startedAt.None?) then b.state == a.state && b.reason == a.reason
      else b.state in {Done, ReceiptPending, NeedsAttention, Waiting} && !AwaitingPreset(b)
    ensures var b, lines := SettleAuto(a, g, group, now), Receipts(a, g, group);
      lines != {} && a.state != Cancelled && !(a.reason == AtPresetChanged && group.startedAt.None?) && b.state == Waiting ==>
        !AnyHas(group, lines, Accepted) && !AnyHas(group, lines, Sending) && !AnyHas(group, lines, Unknown) && !AnyHas(group, lines, Rejected)
  {
    hide Receipts, AnyHas;
  }
}
