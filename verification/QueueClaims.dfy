/** Claims, intents and recoveries keep the queue invariant, and so does every step. */
module QueueClaims {
  import opened Json
  import opened EncoderHistory
  import opened EncoderTables
  import opened EncoderRuns
  import opened RowLaws
  import opened ReceiptSteps
  import opened FlightInvariant
  import opened QueueInvariant
  import opened QueueSteps

  // ---- a new receipt ------------------------------------------------------------

  predicate Extends(gs: seq<Group>, hs: seq<Group>, r: Group) {
    hs == gs + [r]
  }

  lemma AutoBesidesReceipt(db: Db, next: Db, a: Auto, r: Group)
    requires AutoOk(db, a) && next.files == db.files && next.policies == db.policies && Extends(db.groups, next.groups, r)
    ensures AutoOk(next, a)
  {}

  lemma PointedAutoOk(db: Db, next: Db, a: Auto, r: Group)
    requires AutoOk(db, a) && a.state == Claimed && r.items != []
    requires next.files == db.files && next.policies == db.policies && Extends(db.groups, next.groups, r)
    ensures AutoOk(next, a.(receipt := Some(Ref(|db.groups|, 0))))
  {}

  /** What a tick's request brings along. */
  ghost predicate Requested(w: World, q: Request) {
    q.origin.Automatic? ==>
      && TickRequest(w, q.token, q) && HoldsClaim(w.db.autos, q.origin, q.token) && FreshRequest(w.db, q)
  }

  ghost predicate AddsReceipt(w: World, v: World, q: Request) {
    var n := |w.db.groups|;
    && v.db == w.db.(groups := w.db.groups + [NewGroup(q, w.now)], autos := PointTo(w.db.autos, q.origin, Ref(n, 0)))
    && v.issued == w.issued && v.now == w.now
    && v.owners == w.owners[n := Owner(if q.origin.Automatic? then Some(q.token) else None, Preparing)]
    && v.senders.Keys == w.senders.Keys
    && forall t :: t in w.senders ==>
         v.senders[t] == if q.origin.Automatic? && t == q.token then w.senders[t].(step := Submitted) else w.senders[t]
  }

  lemma SendersAfterClaim(w: World, v: World, q: Request, t: nat)
    requires AddsReceipt(w, v, q) && Requested(w, q) && t in w.senders
    requires SenderOk(w.db, w.issued, t, w.senders[t])
    ensures SenderOk(v.db, v.issued, t, v.senders[t])
  {
    hide FreshRequest, NewGroup;
  }

  lemma SubmissionsAfterClaim(w: World, v: World, q: Request, g: nat, t: nat)
    requires AddsReceipt(w, v, q) && SubmissionOk(w.db, w.issued, g, t)
    requires q.origin.Automatic? ==> HoldsClaim(w.db.autos, q.origin, q.token) && t != q.token
    ensures SubmissionOk(v.db, v.issued, g, t)
  {
    hide FreshRequest;
  }

  lemma NewSubmissionOk(w: World, v: World, q: Request)
    requires AddsReceipt(w, v, q) && q.origin.Automatic? && Requested(w, q)
    requires SenderOk(w.db, w.issued, q.token, w.senders[q.token])
    ensures SubmissionOk(v.db, v.issued, |w.db.groups|, q.token)
  {
    hide FreshRequest;
  }

  lemma ReceiptsAfterClaim(w: World, v: World, q: Request, g: nat)
    requires AddsReceipt(w, v, q) && Requested(w, q) && g < |w.db.groups| && ReceiptOk(w.db.autos, g, w.db.groups[g])
    requires q.origin.Automatic? ==> SenderOk(w.db, w.issued, q.token, w.senders[q.token])
    ensures ReceiptOk(v.db.autos, g, v.db.groups[g])
  {
    hide FreshRequest;
  }

  lemma NewReceiptOk(w: World, v: World, q: Request)
    requires AddsReceipt(w, v, q) && Requested(w, q)
    requires q.origin.Automatic? ==> SenderOk(w.db, w.issued, q.token, w.senders[q.token])
    ensures ReceiptOk(v.db.autos, |w.db.groups|, v.db.groups[|w.db.groups|])
  {}

  lemma PointFacts(w: World, v: World, q: Request)
    requires AddsReceipt(w, v, q) && HoldsClaim(w.db.autos, q.origin, q.token)
    ensures |v.db.autos| == |w.db.autos|
    ensures forall k :: 0 <= k < |v.db.autos| ==>
      v.db.autos[k] == w.db.autos[k] ||
      (w.db.autos[k].state == Claimed && v.db.autos[k] == w.db.autos[k].(receipt := Some(Ref(|w.db.groups|, 0))))
    ensures Extends(w.db.groups, v.db.groups, NewGroup(q, w.now)) && v.db.files == w.db.files && v.db.policies == w.db.policies
  {
    hide NewGroup;
  }

  lemma AddReceiptKeepsQueue(w: World, v: World, q: Request)
    requires QueueInv(w) && AddsReceipt(w, v, q) && Requested(w, q) && HoldsClaim(w.db.autos, q.origin, q.token)
    requires q.items != []
    ensures QueueInv(v)
  {
    hide AutoOk, SenderOk, SubmissionOk, ReceiptOk, FreshRequest, Extends, NewGroup;
    var n, r := |w.db.groups|, NewGroup(q, w.now);
    PointFacts(w, v, q);
    hide PointTo;
    NewGroupItems(q, w.now);
    forall k | 0 <= k < |v.db.autos|
      ensures AutoOk(v.db, v.db.autos[k])
    {
      AutoBesidesReceipt(w.db, v.db, w.db.autos[k], r);
      if w.db.autos[k].state == Claimed { PointedAutoOk(w.db, v.db, w.db.autos[k], r); }
    }
    forall t | t in v.senders
      ensures SenderOk(v.db, v.issued, t, v.senders[t])
    {
      SendersAfterClaim(w, v, q, t);
    }
    forall g | g in v.owners && v.owners[g].token.Some?
      ensures SubmissionOk(v.db, v.issued, g, v.owners[g].token.value)
      ensures v.owners[g].token.value in v.senders ==> v.senders[v.owners[g].token.value].step == Submitted
    {
      if g == n { NewSubmissionOk(w, v, q); }
      else {
        assert q.origin.Automatic? ==> w.owners[g].token.value != q.token;
        SubmissionsAfterClaim(w, v, q, g, w.owners[g].token.value);
      }
    }
    forall g | 0 <= g < |v.db.groups|
      ensures ReceiptOk(v.db.autos, g, v.db.groups[g])
    {
      if g == n { NewReceiptOk(w, v, q); } else { ReceiptsAfterClaim(w, v, q, g); }
    }
  }

  lemma NewGroupItems(q: Request, now: int)
    ensures NewGroup(q, now).items == q.items
  {}

  lemma ExpiryEvolves(w: World)
    requires FlightInv(w)
    ensures Evolved(w.db.groups, ExpireAll(w.db.groups, w.now))
  {
    hide FlightInv, Evolved;
    ExpiryKeepsFlight(w, w.(db := w.db.(groups := ExpireAll(w.db.groups, w.now))));
  }

  lemma ClaimKeepsQueue(w: World, e: Event)
    requires QueueInv(w) && FlightInv(w) && Enabled(w, e) && (e.ClaimManual? || e.ClaimByTick?)
    ensures QueueInv(Apply(w, e))
  {
    hide EnabledCatalogue, EnabledRequest, ApplyCatalogue, ApplyRequest;
    hide QueueInv, FlightInv, Evolved, FreshRequest, Clear;
    var mid := w.(db := w.db.(groups := ExpireAll(w.db.groups, w.now)));
    ExpiryEvolves(w);
    QueueFrameKeeps(w, mid);
    var q := e.request;
    assert Requested(mid, q) by { FreshElsewhere(w.db, mid.db, q); }
    FreshItems(w.db, q);
    AddReceiptKeepsQueue(mid, Apply(w, e), q);
  }

  lemma FreshItems(db: Db, q: Request)
    requires FreshRequest(db, q)
    ensures q.items != []
  {}

  lemma FreshElsewhere(db: Db, next: Db, q: Request)
    requires next.files == db.files
    ensures FreshRequest(db, q) ==> FreshRequest(next, q)
  {}

  // ---- a refused intent -----------------------------------------------------------

  /** Row `k` leaves `Claimed` but keeps its lease; the submission made under that lease is over. */
  lemma OneAutoKeepsLease(w: World, v: World, k: nat, b: Auto)
    requires QueueInv(w) && k < |w.db.autos| && v == w.(db := w.db.(autos := w.db.autos[k := b]))
    requires b == w.db.autos[k].(fileId := b.fileId, state := b.state, reason := b.reason, receipt := b.receipt)
    requires b.state != Claimed && AutoOk(v.db, b) && TargetUnsent(w.db.groups, w.db.autos[k])
    requires forall t :: t in w.senders && Holds(b, t) ==> w.senders[t].step == Submitted
    requires forall g :: g in w.owners && w.owners[g].token.Some? ==> !Holds(b, w.owners[g].token.value)
    ensures QueueInv(v)
  {
    hide AutoOk, SenderOk, SubmissionOk, ReceiptOk, TargetUnsent;
    forall j | 0 <= j < |v.db.autos|
      ensures AutoOk(v.db, v.db.autos[j])
    {
      if j != k { AutoSameTables(w.db, v.db, w.db.autos[j]); }
    }
    forall t | t in v.senders
      ensures SenderOk(v.db, v.issued, t, v.senders[t])
    {
      SenderKeepsLease(w.db, v.db, w.issued, t, w.senders[t], k);
    }
    forall g | g in v.owners && v.owners[g].token.Some?
      ensures SubmissionOk(v.db, v.issued, g, v.owners[g].token.value)
    {
      SubmissionOverThere(w.db, v.db, w.issued, g, w.owners[g].token.value, k);
    }
    forall g | 0 <= g < |v.db.groups|
      ensures ReceiptOk(v.db.autos, g, v.db.groups[g])
    {
      ReceiptReleased(w.db, v.db, g, k);
    }
  }

  lemma SenderKeepsLease(db: Db, next: Db, issued: map<nat, nat>, t: nat, s: Sender, k: nat)
    requires SenderOk(db, issued, t, s) && k < |db.autos| && next == db.(autos := next.autos) && |next.autos| == |db.autos|
    requires forall j :: 0 <= j < |db.autos| && j != k ==> next.autos[j] == db.autos[j]
    requires next.autos[k].id == db.autos[k].id && next.autos[k].lease == db.autos[k].lease
    requires next.autos[k].revision == db.autos[k].revision && (Holds(next.autos[k], t) ==> s.step == Submitted)
    ensures SenderOk(next, issued, t, s)
  {}

  lemma SubmissionOverThere(db: Db, next: Db, issued: map<nat, nat>, g: nat, t: nat, k: nat)
    requires SubmissionOk(db, issued, g, t) && k < |db.autos| && next == db.(autos := next.autos) && |next.autos| == |db.autos|
    requires forall j :: 0 <= j < |db.autos| && j != k ==> next.autos[j] == db.autos[j]
    requires !Holds(next.autos[k], t)
    ensures SubmissionOk(next, issued, g, t)
  {}

  lemma AbortShape(w: World, g: nat, items: seq<Item>, snapshot: Json)
    requires g < |w.db.groups|
    ensures var v := DoAbort(w, g, items, snapshot);
      && v == w.(db := w.db.(groups := v.db.groups), owners := w.owners - {g})
      && |v.db.groups| == |w.db.groups|
      && v.db.groups[g].items == WriteOff(items, false, "aborted")
  {}

  /** A receipt given up before its intent holds nothing undecided. */
  lemma AbortedResolved(w: World, g: nat, ok: set<nat>, snapshot: Json)
    requires g < |w.db.groups| && GroupOk(w.db.groups[g]) && w.db.groups[g].startedAt.None?
    ensures var r := DoAbort(w, g, Recheck(w.db.groups[g].items, ok), snapshot).db.groups[g];
      |r.items| > 0 && forall i :: 0 <= i < |r.items| ==> r.items[i].status == NotSent
  {}

  lemma DeniedAutoOk(w: World, db: Db, a: nat, token: nat, snapshot: Json, f: Facts)
    requires a < |w.db.autos| && AutoOk(w.db, w.db.autos[a]) && FactsFit(w.db, w.db.autos[a], f)
    requires AutoOk(db, w.db.autos[a])
    requires Evolved(w.db.groups, db.groups) && db.files == w.db.files && db.policies == w.db.policies
    requires Validate(w.db, a, token, snapshot, f, w.now).Denied?
    requires var auto := w.db.autos[a];
      auto.state == Claimed && auto.lease.Some? && auto.lease.value.token == token && w.now < auto.lease.value.until ==>
        TargetUnsent(db.groups, auto)
    ensures var auto, b := w.db.autos[a], Validate(w.db, a, token, snapshot, f, w.now).auto;
      AutoOk(db, b) && b == auto.(fileId := b.fileId, state := b.state, reason := b.reason, receipt := b.receipt) &&
      (b == auto || (b.state != Claimed && Holds(auto, token)))
  {
    hide Assess, AutoOk, Evolved, TargetUnsent, HasPresets, HasRef;
    var auto, b := w.db.autos[a], Validate(w.db, a, token, snapshot, f, w.now).auto;
    AutoIsRow(w.db, auto);
    AssessShape(w.db, auto, f);
    if auto.state == Claimed && auto.lease.Some? && auto.lease.value.token == token && w.now < auto.lease.value.until {
      AssessedAutoOk(w.db, db, auto, f, b);
    }
  }

  /** The two outcomes of a commit: only receipts change, or the row is moved and its submission given up. */
  lemma CommitShape(w: World, g: nat, ok: set<nat>, sameServer: bool, snapshot: Json, f: Facts)
    requires ReadyToCommit(w, g)
    ensures var v, r := DoCommit(w, g, ok, sameServer, snapshot, f), w.db.groups[g];
      QueueFrame(w, v) ||
      (r.origin.Automatic? && Validate(w.db, r.origin.item, w.owners[g].token.value, snapshot, f, w.now).Denied? &&
       var b := Validate(w.db, r.origin.item, w.owners[g].token.value, snapshot, f, w.now).auto;
       v == DoAbort(w.(db := w.db.(autos := w.db.autos[r.origin.item := b])), g, Recheck(r.items, ok), snapshot))
    ensures var v := DoCommit(w, g, ok, sameServer, snapshot, f); v.created == w.created && v.issued == w.issued && v.recoveries == w.recoveries
  {
    forall u: World, items: seq<Item> | g < |u.db.groups|
      ensures DoAbort(u, g, items, snapshot).created == u.created && DoAbort(u, g, items, snapshot).issued == u.issued
      ensures DoAbort(u, g, items, snapshot).recoveries == u.recoveries
    { AbortShape(u, g, items, snapshot); }
    hide Validate, SendingSet, Recheck, StartWith, DoAbort, QueueFrame;
    StartFrame(w, g, Recheck(w.db.groups[g].items, ok), snapshot);
    AbortFrame(w, g, Recheck(w.db.groups[g].items, ok), snapshot);
  }

  lemma StartFrame(w: World, g: nat, items: seq<Item>, snapshot: Json)
    requires g < |w.db.groups| && g in w.owners
    ensures QueueFrame(w, StartWith(w, g, items, snapshot)) && StartWith(w, g, items, snapshot).created == w.created
    ensures StartWith(w, g, items, snapshot).issued == w.issued && StartWith(w, g, items, snapshot).recoveries == w.recoveries
  {
    hide StartRequest;
  }

  lemma AbortFrame(w: World, g: nat, items: seq<Item>, snapshot: Json)
    requires g < |w.db.groups|
    ensures QueueFrame(w, DoAbort(w, g, items, snapshot))
  {
    hide FinishFailure;
  }

  lemma CommitKeepsQueue(w: World, e: Event)
    requires QueueInv(w) && FlightInv(w) && Enabled(w, e) && e.Commit?
    requires Evolved(w.db.groups, Apply(w, e).db.groups)
    ensures QueueInv(Apply(w, e))
  {
    CommitApplied(w, e);
    hide Enabled, Apply;
    var g := e.group;
    CommitShape(w, g, e.ok, e.sameServer, e.snapshot, e.facts);
    hide QueueInv, FlightInv, Evolved, DoCommit, DoAbort, Validate, FactsFit;
    var v := Apply(w, e);
    if QueueFrame(w, v) { QueueFrameKeeps(w, v); }
    else {
      var b := Validate(w.db, w.db.groups[g].origin.item, w.owners[g].token.value, e.snapshot, e.facts, w.now).auto;
      DeniedKeepsQueue(w, v, g, e.ok, e.snapshot, e.facts, b);
    }
  }

  /** A running automatic submission, its token and the row it is for. */
  lemma OwnerFacts(w: World, g: nat)
    requires QueueInv(w) && g in w.owners && w.owners[g].token.Some?
    ensures var token := w.owners[g].token.value;
      && token in w.issued && w.issued[token] < |w.db.autos| && g < |w.db.groups|
      && w.db.groups[g].origin == Automatic(w.issued[token])
      && (Holds(w.db.autos[w.issued[token]], token) ==> w.db.autos[w.issued[token]].receipt == Some(Ref(g, 0)))
  {
    hide SenderOk, ReceiptOk, AutoOk, SubmissionOk;
    SubmissionFacts(w.db, w.issued, g, w.owners[g].token.value);
  }

  /** The submission is given up first; its row has not moved yet, and its line was never sent. */
  lemma GivenUpFirst(w: World, mid: World, g: nat, ok: set<nat>, snapshot: Json)
    requires QueueInv(w) && FlightInv(w) && InPhase(w, g, Prepared) && w.owners[g].token.Some?
    requires mid == DoAbort(w, g, Recheck(w.db.groups[g].items, ok), snapshot) && Evolved(w.db.groups, mid.db.groups)
    ensures QueueInv(mid) && mid == w.(db := w.db.(groups := mid.db.groups), owners := w.owners - {g})
    ensures var token := w.owners[g].token.value;
      && token in w.issued && w.issued[token] < |w.db.autos| && w.db.groups[g].origin == Automatic(w.issued[token])
      && (Holds(w.db.autos[w.issued[token]], token) ==> TargetUnsent(mid.db.groups, w.db.autos[w.issued[token]]))
  {
    hide QueueInv, FlightInv, Evolved, GroupOk, FlightOk, DoAbort, Recheck;
    OwnerFacts(w, g);
    FlightAt(w, g);
    AbortShape(w, g, Recheck(w.db.groups[g].items, ok), snapshot);
    AbortedResolved(w, g, ok, snapshot);
    QueueFrameKeeps(w, mid);
  }

  /** No running submission is left under the tokens that row `a` may hold but `g`'s. */
  lemma OthersNotHeld(w: World, g: nat, b: Auto, auto: Auto)
    requires QueueInv(w) && g in w.owners && w.owners[g].token.Some?
    requires w.owners[g].token.value in w.issued && w.issued[w.owners[g].token.value] < |w.db.autos|
    requires auto == w.db.autos[w.issued[w.owners[g].token.value]] && Holds(auto, w.owners[g].token.value)
    requires b.lease == auto.lease
    ensures forall h :: h in w.owners && h != g && w.owners[h].token.Some? ==> !Holds(b, w.owners[h].token.value)
    ensures forall t :: t in w.senders && Holds(b, t) ==> w.senders[t].step == Submitted
  {
    OwnerFacts(w, g);
    forall h | h in w.owners && h != g && w.owners[h].token.Some?
      ensures !Holds(b, w.owners[h].token.value)
    {
      OwnerFacts(w, h);
    }
    hide SenderOk, ReceiptOk, AutoOk, SubmissionOk;
  }

  lemma DeniedKeepsQueue(w: World, v: World, g: nat, ok: set<nat>, snapshot: Json, f: Facts, b: Auto)
    requires QueueInv(w) && FlightInv(w) && InPhase(w, g, Prepared) && w.db.groups[g].origin.Automatic?
    requires w.db.groups[g].origin.item < |w.db.autos| && w.owners[g].token.Some?
    requires FactsFit(w.db, w.db.autos[w.db.groups[g].origin.item], f)
    requires Validate(w.db, w.db.groups[g].origin.item, w.owners[g].token.value, snapshot, f, w.now) == Denied(b)
    requires v == DoAbort(w.(db := w.db.(autos := w.db.autos[w.db.groups[g].origin.item := b])), g,
                          Recheck(w.db.groups[g].items, ok), snapshot)
    requires Evolved(w.db.groups, v.db.groups)
    ensures QueueInv(v)
  {
    var a, token := w.db.groups[g].origin.item, w.owners[g].token.value;
    var auto := w.db.autos[a];
    var items := Recheck(w.db.groups[g].items, ok);
    var mid := DoAbort(w, g, items, snapshot);
    var moved := w.(db := w.db.(autos := w.db.autos[a := b]));
    assert AutoOk(w.db, auto);
    hide QueueInv, FlightInv, Evolved, FactsFit, Validate, AutoOk, Recheck, TargetUnsent;
    AbortShape(moved, g, items, snapshot);
    AbortSameGroups(w, moved, g, items, snapshot);
    hide DoAbort;
    GivenUpFirst(w, mid, g, ok, snapshot);
    AutoInside(mid, a);
    DeniedAutoOk(w, mid.db, a, token, snapshot, f);
    if b != auto {
      OthersNotHeld(w, g, b, auto);
      AutoSameTables(mid.db, v.db, b);
      OneAutoKeepsLease(mid, v, a, b);
    } else {
      assert w.db.autos[a := b] == w.db.autos;
    }
  }

  lemma AutoInside(w: World, a: nat)
    requires QueueInv(w) && a < |w.db.autos|
    ensures AutoOk(w.db, w.db.autos[a])
  {}

  lemma AbortSameGroups(w: World, moved: World, g: nat, items: seq<Item>, snapshot: Json)
    requires g < |w.db.groups| && moved.db.groups == w.db.groups && moved.now == w.now
    ensures DoAbort(w, g, items, snapshot).db.groups == DoAbort(moved, g, items, snapshot).db.groups
  {}

  // ---- the remaining steps ----------------------------------------------------------

  lemma RecoverKeepsQueue(w: World, e: Event)
    requires QueueInv(w) && Enabled(w, e) && e.RecoverReceipt?
    requires Evolved(w.db.groups, Apply(w, e).db.groups)
    ensures QueueInv(Apply(w, e))
  {
    hide Enabled, Apply, QueueInv, Evolved, DoRecover;
    RecoverApplied(w, e);
    DoRecoverKeepsQueue(w, e.group, e.answer, e.changed);
  }

  lemma OriginStays(gs: seq<Group>, hs: seq<Group>, g: nat)
    requires Evolved(gs, hs) && g < |gs|
    ensures g < |hs| && hs[g].origin == gs[g].origin
  {
    assert GroupEvolves(gs[g], hs[g]);
  }

  /** A row that points nowhere has no receipt that was sent. */
  lemma OwnRowFits(w: World, g: nat)
    requires QueueInv(w) && g < |w.db.groups| && w.db.groups[g].origin.Automatic?
    ensures w.db.groups[g].origin.item < |w.db.autos| && SettleFits(w.db, w.db.autos[w.db.groups[g].origin.item], g)
  {
    assert ReceiptOk(w.db.autos, g, w.db.groups[g]);
  }

  lemma DoRecoverKeepsQueue(w: World, g: nat, answer: Answer, changed: set<nat>)
    requires QueueInv(w) && g < |w.db.groups|
    requires w.db.groups[g].origin.Automatic? ==> w.db.groups[g].origin.item < |w.db.autos|
    requires Evolved(w.db.groups, DoRecover(w, g, answer, changed).db.groups)
    ensures QueueInv(DoRecover(w, g, answer, changed))
  {
    hide QueueInv, Evolved, Recover, SettleAuto, RetryAfter;
    var mid := WithGroup(w, g, Recover(w.db.groups[g], answer, changed, w.now)).(recoveries := w.recoveries - multiset{g});
    QueueFrameKeeps(w, mid);
    if w.db.groups[g].origin.Automatic? {
      OriginStays(w.db.groups, mid.db.groups, g);
      OwnRowFits(mid, g);
      SettleKeepsQueue(mid, DoRecover(w, g, answer, changed), w.db.groups[g].origin.item, g);
    }
  }

  lemma PlainEvents(w: World, e: Event)
    requires QueueInv(w) && Enabled(w, e)
    requires e.Advance? || e.SetEnabled? || e.Initialize? || e.AddFile? || e.CrashTick?
    ensures QueueInv(Apply(w, e))
  {
    hide QueueInv;
    PlainKeepsQueue(w, Apply(w, e));
  }

  /** Every step keeps the queue invariant. */
  lemma QueueNext(w: World, e: Event)
    requires QueueInv(w) && FlightInv(w) && Enabled(w, e)
    ensures QueueInv(Apply(w, e))
  {
    hide QueueInv, FlightInv, Evolved, Apply, Enabled;
    FlightNext(w, e);
    if ReceiptsOnly(e) { ReceiptsOnlyFrame(w, e); QueueFrameKeeps(w, Apply(w, e)); }
    else if e.ClaimManual? || e.ClaimByTick? { ClaimKeepsQueue(w, e); }
    else if e.Commit? { CommitKeepsQueue(w, e); }
    else if e.RecoverReceipt? { RecoverKeepsQueue(w, e); }
    else if e.SavePresets? { SaveKeepsQueue(w, e); }
    else if e.Track? || e.Observe? { CatalogueKeepsQueue(w, e); }
    else if e.Register? { RegisterKeepsQueue(w, e); }
    else if e.Reconcile? { ReconcileKeepsQueue(w, e); }
    else if e.ClaimNext? { ClaimNextKeepsQueue(w, e); }
    else if e.ReadOptions? || e.ConflictForTick? { OptionsKeepQueue(w, e); }
    else if e.SettleConflict? { SettleConflictKeepsQueue(w, e); }
    else if e.EndTick? { EndTickKeepsQueue(w, e); }
    else { PlainEvents(w, e); }
  }
}
