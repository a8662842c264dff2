/**
 The locked transactions as the program runs them: rows rewritten one by one, in
 loops. Each is proved against the table functions the runs are made of.
 */
module EncoderStore {
  import opened Json
  import opened EncoderHistory
  import opened EncoderTables
  import opened EncoderRuns
  import opened ClaimLaws
  import SettleResponse
  import RepairReceipt
  import Generations
  import QueueSteps

  /** What a claim tells its caller. */
  datatype Claim = Owned(group: nat) | Known(group: nat) | Conflict(previous: seq<Ref>) | Stale

  class EncoderStore {
    var groups: seq<Group>
    var autos: seq<Auto>
    var policies: map<int, Policy>
    var sources: map<SourceKey, bool>
    var archives: set<(int, string)>
    var tracked: set<int>
    var files: map<int, Identity>
    var enabled: bool
    var initialized: bool
    var retryAt: Option<int>

    function View(): Db reads this {
      Db(groups, autos, policies, sources, archives, tracked, files, enabled, initialized, retryAt)
    }

    constructor (archives: set<(int, string)>, tracked: set<int>, files: map<int, Identity>, enabled: bool)
      ensures View() == Db([], [], map[], map[], archives, tracked, files, enabled, false, None)
    {
      groups, autos, policies, sources := [], [], map[], map[];
      this.archives, this.tracked, this.files, this.enabled := archives, tracked, files, enabled;
      initialized, retryAt := false, None;
    }

    // ---- receipts ---------------------------------------------------------------

    /** Writes off the pending lines of submission `g`. */
    method WriteOffLines(g: nat, started: bool, why: string)
      requires g < |groups|
      modifies this`groups
      ensures groups == old(groups)[g := old(groups[g]).(items := WriteOff(old(groups[g].items), started, why))]
    {
      var n := 0;
      while n < |groups[g].items|
        invariant |groups| == |old(groups)| && n <= |groups[g].items|
        invariant groups == old(groups)[g := old(groups[g]).(items := groups[g].items)]
        invariant |groups[g].items| == |old(groups[g].items)|
        invariant forall k :: 0 <= k < n ==> groups[g].items[k] == WriteOff(old(groups[g].items), started, why)[k]
        invariant forall k :: n <= k < |groups[g].items| ==> groups[g].items[k] == old(groups[g].items)[k]
      {
        var item := groups[g].items[n];
        if item.status == Sending {
          var gone := item.(status := if started then Unknown else NotSent, error := Text(why));
          groups := groups[g := groups[g].(items := groups[g].items[n := gone])];
        }
        n := n + 1;
      }
      assert groups[g].items == WriteOff(old(groups[g].items), started, why);
    }

    method RecoverExpired(now: int)
      modifies this`groups
      ensures groups == ExpireAll(old(groups), now)
    {
      var n := 0;
      while n < |groups|
        invariant n <= |groups| == |old(groups)|
        invariant forall h :: 0 <= h < n ==> groups[h] == Expire(old(groups)[h], now)
        invariant forall h :: n <= h < |groups| ==> groups[h] == old(groups)[h]
      {
        var group := groups[n];
        if group.finishedAt.None? && group.expiresAt < now {
          WriteOffLines(n, group.startedAt.Some?, "expired");
          groups := groups[n := groups[n].(finishedAt := Some(now))];
        }
        n := n + 1;
      }
    }

    method FinishFailure(g: nat, started: bool, why: string, now: int)
      requires g < |groups|
      modifies this`groups
      ensures groups == old(groups)[g := EncoderTables.FinishFailure(old(groups[g]), started, why, now)]
    {
      WriteOffLines(g, started, why);
      groups := groups[g := groups[g].(error := Some(why), finishedAt := Some(now))];
    }

    /** Flags the lines whose source changed on disk. */
    method CheckSourceConflicts(g: nat, changed: set<nat>)
      requires g < |groups|
      modifies this`groups
      ensures groups == old(groups)[g := old(groups[g]).(items := MarkConflicts(old(groups[g].items), changed))]
    {
      var n := 0;
      while n < |groups[g].items|
        invariant |groups| == |old(groups)| && n <= |groups[g].items|
        invariant groups == old(groups)[g := old(groups[g]).(items := groups[g].items)]
        invariant |groups[g].items| == |old(groups[g].items)|
        invariant forall k :: 0 <= k < n ==> groups[g].items[k] == MarkConflicts(old(groups[g].items), changed)[k]
        invariant forall k :: n <= k < |groups[g].items| ==> groups[g].items[k] == old(groups[g].items)[k]
      {
        var item := groups[g].items[n];
        if item.status != NotSent && n in changed {
          groups := groups[g := groups[g].(items := groups[g].items[n := item.(conflict := true, error := Text("source changed"))])];
        }
        n := n + 1;
      }
      assert groups[g].items == MarkConflicts(old(groups[g].items), changed);
    }

    // ---- claiming a receipt ---------------------------------------------------------

    /** Position of the submission with that request id, or the number of submissions. */
    method Replay(requestId: string) returns (g: nat)
      ensures g <= |groups| && (g < |groups| <==> KnownRequest(groups, requestId))
      ensures g < |groups| ==> groups[g].requestId == requestId
    {
      g := 0;
      while g < |groups| && groups[g].requestId != requestId
        invariant g <= |groups| && forall h :: 0 <= h < g ==> groups[h].requestId != requestId
      {
        g := g + 1;
      }
    }

    /** First pass: the newest line sent with the same presets, file by file. */
    method SamePresets(q: Request) returns (previous: seq<Ref>)
      ensures forall p :: p in previous ==> exists i :: 0 <= i < |q.items| && NewestBlocks(groups, q, i, p)
      ensures previous == [] ==> forall i, p :: 0 <= i < |q.items| ==> !NewestBlocks(groups, q, i, p)
    {
      previous := [];
      var i := 0;
      while i < |q.items|
        invariant i <= |q.items|
        invariant forall p :: p in previous ==> exists j :: 0 <= j < |q.items| && NewestBlocks(groups, q, j, p)
        invariant previous == [] ==> forall j, p :: 0 <= j < i ==> !NewestBlocks(groups, q, j, p)
      {
        var item := q.items[i];
        if item.infoHash != "" {
          var newest := NewestLive(groups, |groups|, q.target, q.presets, item.infoHash, item.relativePath);
          if newest.Some? && Blocking(At(groups, newest.value).status, q.allowRepeat, q.acknowledgeUnknown) {
            assert NewestBlocks(groups, q, i, newest.value);
            previous := previous + [newest.value];
          }
        }
        i := i + 1;
      }
    }

    /** Second pass: every line that may be the same automatic source, whatever its presets and server. */
    method MayBeRepeated(q: Request, i: nat) returns (previous: seq<Ref>)
      requires i < |q.items|
      ensures forall p :: p in previous <==> RepeatBlocks(groups, q, i, p)
      ensures forall p :: p in previous <==>
        q.items[i].infoHash != "" && HasRef(groups, p) && Insists(At(groups, p).status, q.allowRepeat, q.acknowledgeUnknown) &&
        EitherAutomatic(groups, p, q) && MaybeSame(At(groups, p), q.items[i])
    {
      previous := [];
      var h := 0;
      while h < |groups|
        invariant h <= |groups|
        invariant forall p :: p in previous <==> RepeatBlocks(groups, q, i, p) && p.group < h
      {
        var k := 0;
        while k < |groups[h].items|
          invariant k <= |groups[h].items|
          invariant forall p :: p in previous <==> RepeatBlocks(groups, q, i, p) && (p.group < h || (p.group == h && p.index < k))
        {
          var prior := groups[h].items[k];
          if q.items[i].infoHash != "" && MayRepeat(groups[h], prior, q.items[i], q.origin)
             && Blocking(prior.status, q.allowRepeat, q.acknowledgeUnknown) {
            previous := previous + [Ref(h, k)];
          }
          k := k + 1;
        }
        h := h + 1;
      }
    }

    method AllRepeated(q: Request) returns (previous: seq<Ref>)
      ensures forall p :: p in previous ==> exists i :: 0 <= i < |q.items| && RepeatBlocks(groups, q, i, p)
      ensures previous == [] ==> forall i, p :: 0 <= i < |q.items| ==> !RepeatBlocks(groups, q, i, p)
    {
      previous := [];
      var i := 0;
      while i < |q.items|
        invariant i <= |q.items|
        invariant forall p :: p in previous ==> exists j :: 0 <= j < |q.items| && RepeatBlocks(groups, q, j, p)
        invariant previous == [] ==> forall j, p :: 0 <= j < i ==> !RepeatBlocks(groups, q, j, p)
      {
        var found := MayBeRepeated(q, i);
        forall j, p | 0 <= j < i + 1 && previous + found == []
          ensures !RepeatBlocks(groups, q, j, p)
        {
          assert p !in found;
        }
        previous := previous + found;
        i := i + 1;
      }
    }

    /** The lines that forbid the request: none exactly if the request is clear. */
    method Conflicts(q: Request) returns (previous: seq<Ref>)
      ensures previous == [] <==> Clear(groups, q)
      ensures previous == [] <==> WayIsClear(groups, q)
      ensures forall p :: p in previous ==> exists i :: 0 <= i < |q.items| && Forbids(groups, q, i, p)
      ensures forall p :: p in previous ==> exists i :: 0 <= i < |q.items| && StandsInTheWay(groups, q, q.items[i], p)
    {
      hide NewestLive, MayRepeat, Blocking;
      previous := SamePresets(q);
      if previous == [] { previous := AllRepeated(q); }
      BlockedOrClear(groups, q);
      ClearMeans(groups, q);
      forall i, p | 0 <= i < |q.items| && Forbids(groups, q, i, p)
        ensures StandsInTheWay(groups, q, q.items[i], p)
      {
        ForbidsMeans(groups, q, i, p);
      }
      hide StandsInTheWay, WayIsClear;
      forall p | p in previous
        ensures exists i :: 0 <= i < |q.items| && Forbids(groups, q, i, p) && StandsInTheWay(groups, q, q.items[i], p)
      {
        if i :| 0 <= i < |q.items| && NewestBlocks(groups, q, i, p) { assert Forbids(groups, q, i, p); }
        else { var i :| 0 <= i < |q.items| && RepeatBlocks(groups, q, i, p); assert Forbids(groups, q, i, p); }
      }
      if previous != [] { assert previous[0] in previous; }
    }

    /**
     A new submission is created exactly when its request id is new, no line
     forbids any of its files and, for a tick, its row still holds the token.
     Every refusal leaves the tables as they were.
     */
    method ClaimReceipt(q: Request, now: int) returns (r: Claim)
      requires q.origin.Automatic? ==> q.items != []
      modifies this
      ensures r.Known? <==> KnownRequest(old(groups), q.requestId)
      ensures r.Known? ==> r.group < |old(groups)| && old(groups)[r.group].requestId == q.requestId
      ensures r.Conflict? <==> !r.Known? && !Clear(ExpireAll(old(groups), now), q)
      ensures r.Conflict? ==> r.previous != []
      ensures r.Conflict? ==>
        forall p :: p in r.previous ==> exists i :: 0 <= i < |q.items| && Forbids(ExpireAll(old(groups), now), q, i, p)
      ensures r.Conflict? <==> !r.Known? && !WayIsClear(ExpireAll(old(groups), now), q)
      ensures r.Conflict? ==>
        forall p :: p in r.previous ==> exists i :: 0 <= i < |q.items| && StandsInTheWay(ExpireAll(old(groups), now), q, q.items[i], p)
      ensures r.Stale? <==> !r.Known? && !r.Conflict? && !HoldsClaim(old(autos), q.origin, q.token)
      ensures r.Owned? ==> r.group == |old(groups)|
      ensures View() == if r.Owned? then AddGroup(old(View()), q, now) else old(View())
    {
      hide Clear, NewGroup, Forbids, WayIsClear, StandsInTheWay;
      var before := groups;
      RecoverExpired(now);
      var g := Replay(q.requestId);
      SameRequests(before, groups, q.requestId);
      if g < |groups| { groups := before; return Known(g); }
      var previous := Conflicts(q);
      if previous != [] { groups := before; return Conflict(previous); }
      if q.origin.Automatic? {
        var a := q.origin.item;
        if a >= |autos| || autos[a].state != Claimed || autos[a].lease.None? || autos[a].lease.value.token != q.token {
          groups := before;
          return Stale;
        }
      }
      r := Owned(|groups|);
      groups := groups + [NewGroup(q, now)];
      if q.origin.Automatic? {
        autos := autos[q.origin.item := autos[q.origin.item].(receipt := Some(Ref(|before|, 0)))];
      }
    }

    // ---- from the claim to the POST ----------------------------------------------------

    /** First preflight: files that are not available are not sent, the others are captured. */
    method Preflight(g: nat, checks: seq<Option<Captured>>)
      requires g < |groups| && |checks| == |groups[g].items|
      modifies this`groups
      ensures groups == old(groups)[g := old(groups[g]).(items := Prepare(old(groups[g].items), checks))]
    {
      ghost var prepared := Prepare(groups[g].items, checks);
      var n := 0;
      while n < |groups[g].items|
        invariant |groups| == |old(groups)| && n <= |groups[g].items| == |prepared| == |old(groups[g].items)|
        invariant groups == old(groups)[g := old(groups[g]).(items := groups[g].items)]
        invariant forall k :: 0 <= k < n ==> groups[g].items[k] == prepared[k]
        invariant forall k :: n <= k < |groups[g].items| ==> groups[g].items[k] == old(groups[g].items)[k]
      {
        var item := groups[g].items[n];
        if item.status != NotSent {
          var next := if checks[n].None? then item.(status := NotSent, error := Text("unavailable"))
                      else item.(fullPath := checks[n].value.fullPath, content := checks[n].value.content);
          groups := groups[g := groups[g].(items := groups[g].items[n := next])];
        }
        n := n + 1;
      }
      assert groups[g].items == prepared;
    }

    /** Second preflight; `payload` is what may still be sent. */
    method RecheckLines(g: nat, ok: set<nat>) returns (payload: set<nat>)
      requires g < |groups|
      modifies this`groups
      ensures groups == old(groups)[g := old(groups[g]).(items := Recheck(old(groups[g].items), ok))]
      ensures payload == SendingSet(groups[g].items)
    {
      ghost var checked := Recheck(groups[g].items, ok);
      payload := {};
      var n := 0;
      while n < |groups[g].items|
        invariant |groups| == |old(groups)| && n <= |groups[g].items| == |checked| == |old(groups[g].items)|
        invariant groups == old(groups)[g := old(groups[g]).(items := groups[g].items)]
        invariant forall k :: 0 <= k < n ==> groups[g].items[k] == checked[k]
        invariant forall k :: n <= k < |groups[g].items| ==> groups[g].items[k] == old(groups[g].items)[k]
        invariant payload == set i: nat | i < n && checked[i].status == Sending
      {
        var item := groups[g].items[n];
        if item.status == Sending {
          if n in ok { payload := payload + {n}; }
          else { groups := groups[g := groups[g].(items := groups[g].items[n := item.(status := NotSent, error := Text("changed"))])]; }
        }
        n := n + 1;
      }
      assert groups[g].items == checked;
    }

    /** Second preflight, and for an automatic submission the permission of its row. */
    method MayStart(g: nat, token: Option<nat>, ok: set<nat>, sameServer: bool, snapshot: Json, f: Facts, now: int)
      returns (started: bool)
      requires g < |groups| && MayCommit(View(), g, token, f)
      modifies this`groups, this`autos
      ensures groups == old(groups)[g := old(groups[g]).(items := Recheck(old(groups[g].items), ok), snapshot := snapshot)]
      ensures started <==> CommitStarts(old(View()), g, token, ok, sameServer, snapshot, f, now)
      ensures autos == RowsAfter(old(View()), g, token, ok, sameServer, snapshot, f, now)
    {
      hide Validate, Recheck, SendingSet, FactsFit, DistinctFiles, FileOf;
      ghost var before := View();
      var payload := RecheckLines(g, ok);
      groups := groups[g := groups[g].(snapshot := snapshot)];
      started := payload != {} && sameServer;
      if started && groups[g].origin.Automatic? {
        started := Permit(g, token.value, snapshot, f, now, before);
      }
    }

    /** Second preflight through the durable intent: one locked transaction. */
    method CommitIntent(g: nat, token: Option<nat>, ok: set<nat>, sameServer: bool, snapshot: Json, f: Facts, now: int)
      returns (started: bool)
      requires g < |groups| && MayCommit(View(), g, token, f)
      modifies this`groups, this`autos
      ensures started <==> CommitStarts(old(View()), g, token, ok, sameServer, snapshot, f, now)
      ensures View() == AfterCommit(old(View()), g, token, ok, sameServer, snapshot, f, now)
    {
      hide RowsAfter, CommitStarts, Recheck, SendingSet, FactsFit, DistinctFiles, FileOf, WriteOff;
      started := MayStart(g, token, ok, sameServer, snapshot, f, now);
      if started {
        groups := groups[g := StartRequest(groups[g], groups[g].items, now)];
      } else {
        FinishFailure(g, false, "aborted", now);
      }
    }

    /** `before`: the tables before the second preflight, which this decision does not depend on. */
    method Permit(g: nat, token: nat, snapshot: Json, f: Facts, now: int, ghost before: Db) returns (granted: bool)
      requires g < |groups| && groups[g].origin.Automatic? && groups[g].origin.item < |autos|
      requires View() == before.(groups := groups) && |before.groups| == |groups|
      requires forall h :: 0 <= h < |groups| && h != g ==> groups[h] == before.groups[h]
      requires var a := autos[groups[g].origin.item];
        FileOf(files, a) && FactsFit(before, a, f) && (Held(a, token) ==> a.receipt == Some(Ref(g, 0)))
      requires DistinctFiles(files)
      modifies this`autos
      ensures var a := groups[g].origin.item;
        match Validate(before, a, token, snapshot, f, now)
        case Granted => granted && autos == old(autos)
        case Denied(row) => !granted && autos == old(autos)[a := row]
    {
      hide Validate, FactsFit, DistinctFiles, FileOf, Assess;
      var a := groups[g].origin.item;
      OwnReceiptIgnored(before, View(), a, g, token, snapshot, f, now);
      ghost var row := autos[a];
      SameFacts(before, View(), row, f);
      ghost var seen := View();
      granted := ValidateIntent(a, token, snapshot, f, now);
      if granted { SameFile(seen, a, token, snapshot, f, now); assert old(autos)[a := row] == old(autos); }
    }

    /** A documented refusal: nothing is left pending when the receipt is finished. */
    method RefuseRequest(g: nat, status: int, why: Json, changed: set<nat>, now: int)
      requires g < |groups|
      modifies this`groups
      ensures groups == old(groups)[g := RefusedPost(old(groups[g]), status, why, changed, now)]
    {
      hide RefuseAll, MarkConflicts, WriteOff;
      ghost var was := groups[g];
      groups := groups[g := groups[g].(httpStatus := Some(status))];
      RefusePending(g, why);
      CheckSourceConflicts(g, changed);
      NothingPending(was.items, why, changed);
      NothingToWriteOff(groups[g].items, "refused");
      FinishFailure(g, true, "refused", now);
    }

    /** The encoder may or may not have the files: they stay unknown, and the receipt is asked for at once. */
    method LoseRequest(g: nat, status: Option<int>, changed: set<nat>, now: int)
      requires g < |groups|
      modifies this`groups
      ensures groups == old(groups)[g := LostPost(old(groups[g]), status, true, changed, now)]
    {
      hide MarkConflicts, WriteOff;
      groups := groups[g := groups[g].(httpStatus := status)];
      CheckSourceConflicts(g, changed);
      FinishFailure(g, true, "lost", now);
      groups := groups[g := groups[g].(receiptNextAt := Some(now))];
    }

    /** A POST that failed: refused, never delivered, or lost. */
    method FailPost(g: nat, status: Option<int>, unsent: bool, why: Json, changed: set<nat>, now: int)
      requires g < |groups| && (unsent ==> status.None?)
      modifies this`groups
      ensures groups == old(groups)[g :=
        if unsent then EncoderTables.FinishFailure(old(groups[g]).(httpStatus := None), false, "undelivered", now)
        else if status.Some? && status.value in REFUSALS then RefusedPost(old(groups[g]), status.value, why, changed, now)
        else LostPost(old(groups[g]), status, true, changed, now)]
    {
      hide RefusedPost, LostPost, WriteOff;
      if unsent {
        groups := groups[g := groups[g].(httpStatus := None)];
        FinishFailure(g, false, "undelivered", now);
      } else if status.Some? && status.value in REFUSALS {
        RefuseRequest(g, status.value, why, changed, now);
      } else {
        LoseRequest(g, status, changed, now);
      }
    }

    // ---- after the POST ---------------------------------------------------------------

    /** `settle_response`: decides the files, and writes the code and the reply into the receipt. */
    method SettleGroup(g: nat, code: int, body: Json, saved: Json, now: int)
      requires g < |groups|
      requires forall i, j :: 0 <= i < j < |groups[g].items| ==> groups[g].items[i].fileId != groups[g].items[j].fileId
      modifies this`groups
      ensures groups == old(groups)[g := EncoderTables.SettleGroup(old(groups[g]), code, body, saved, now)]
    {
      hide Settled;
      var items := SettleResponse.SettleResponse(groups[g].items, code, body);
      groups := groups[g := groups[g].(items := items)];
      groups := groups[g := groups[g].(httpStatus := Some(code), response := saved, finishedAt := Some(now))];
    }

    /** A 200, 202 or 207 reply is recorded, and unless it is 202 it decides every file. */
    method RecordReply(g: nat, code: int, body: Json, saved: Json, changed: set<nat>, now: int)
      requires g < |groups|
      requires forall i, j :: 0 <= i < j < |groups[g].items| ==> groups[g].items[i].fileId != groups[g].items[j].fileId
      modifies this`groups
      ensures groups == old(groups)[g := Answered(old(groups[g]), code, body, saved, changed, now)]
    {
      hide Settled;
      ghost var was := groups[g];
      if code == 202 {
        groups := groups[g := groups[g].(httpStatus := Some(202), response := saved, receiptNextAt := Some(now + 2))];
      } else {
        SettleGroup(g, code, body, saved, now);
        var items := groups[g].items;
        var open := false;
        var n := 0;
        while n < |items|
          invariant n <= |items| && (open <==> exists i :: 0 <= i < n && items[i].status == Unknown)
        {
          if items[n].status == Unknown { open := true; }
          n := n + 1;
        }
        groups := groups[g := groups[g].(receiptNextAt := if open then Some(now) else None)];
      }
      CheckSourceConflicts(g, changed);
    }

    /** The second transaction of a recovery: the answer is read, then the row it was sent for is settled. */
    method RecoverReceipt(g: nat, answer: Answer, changed: set<nat>, now: int)
      requires g < |groups|
      requires forall i, j :: 0 <= i < j < |groups[g].items| ==> groups[g].items[i].fileId != groups[g].items[j].fileId
      requires groups[g].origin.Automatic? ==> groups[g].origin.item < |autos|
      modifies this`groups, this`autos, this`retryAt
      ensures var mid := old(View()).(groups := old(groups)[g := Recover(old(groups[g]), answer, changed, now)]);
        View() == match old(groups[g]).origin
                  case Manual => mid
                  case Automatic(a) => EncoderTables.SettleItem(mid, a, g, now)
    {
      hide Settled, OutcomeOf, EncoderTables.SettleItem;
      ghost var was := groups[g];
      var outcome := OutcomeOf(groups[g].requestId, answer);
      ReadAnswer(g, outcome, changed, now);
      if groups[g].receiptError {
        WriteOffLines(g, true, "receipt");
        if groups[g].finishedAt.None? { groups := groups[g := groups[g].(finishedAt := Some(now))]; }
      }
      assert groups[g] == Recover(was, answer, changed, now);
      ghost var mid := View();
      assert mid == old(View()).(groups := old(groups)[g := Recover(was, answer, changed, now)]);
      if groups[g].origin.Automatic? { SettleItem(groups[g].origin.item, g, now); }
    }

    /** Pending and unknown lines are opened again for the answer to decide. */
    method ReopenLines(g: nat, unknownOnly: bool)
      requires g < |groups|
      modifies this`groups
      ensures groups == old(groups)[g := old(groups[g]).(items :=
        if unknownOnly then Resume(old(groups[g].items)) else Reopen(old(groups[g].items)))]
    {
      ghost var open := if unknownOnly then Resume(groups[g].items) else Reopen(groups[g].items);
      var n := 0;
      while n < |groups[g].items|
        invariant |groups| == |old(groups)| && n <= |groups[g].items| == |open| == |old(groups[g].items)|
        invariant groups == old(groups)[g := old(groups[g]).(items := groups[g].items)]
        invariant forall k :: 0 <= k < n ==> groups[g].items[k] == open[k]
        invariant forall k :: n <= k < |groups[g].items| ==> groups[g].items[k] == old(groups[g].items)[k]
      {
        var item := groups[g].items[n];
        if item.status == Unknown || (item.status == Sending && !unknownOnly) {
          groups := groups[g := groups[g].(items := groups[g].items[n := item.(status := Sending, error := NoNote)])];
        }
        n := n + 1;
      }
      assert groups[g].items == open;
    }

    method RefusePending(g: nat, why: Json)
      requires g < |groups|
      modifies this`groups
      ensures groups == old(groups)[g := old(groups[g]).(items := RefuseAll(old(groups[g].items), why))]
    {
      ghost var refused := RefuseAll(groups[g].items, why);
      var n := 0;
      while n < |groups[g].items|
        invariant |groups| == |old(groups)| && n <= |groups[g].items| == |refused| == |old(groups[g].items)|
        invariant groups == old(groups)[g := old(groups[g]).(items := groups[g].items)]
        invariant forall k :: 0 <= k < n ==> groups[g].items[k] == refused[k]
        invariant forall k :: n <= k < |groups[g].items| ==> groups[g].items[k] == old(groups[g].items)[k]
      {
        var item := groups[g].items[n];
        if item.status == Sending {
          groups := groups[g := groups[g].(items := groups[g].items[n := item.(status := Rejected, error := Refused(why))])];
        }
        n := n + 1;
      }
      assert groups[g].items == refused;
    }

    method ReadAnswer(g: nat, outcome: Outcome, changed: set<nat>, now: int)
      requires g < |groups|
      requires forall i, j :: 0 <= i < j < |groups[g].items| ==> groups[g].items[i].fileId != groups[g].items[j].fileId
      modifies this`groups
      ensures groups == old(groups)[g := ReadOutcome(old(groups[g]), outcome, changed, now)]
    {
      hide Settled;
      match outcome
      case Failed => groups := groups[g := groups[g].(receiptError := true, receiptNextAt := Some(now + 300))];
      case Foreign => groups := groups[g := groups[g].(receiptError := true, receiptNextAt := None)];
      case Processing(delay) =>
        ReopenLines(g, true);
        groups := groups[g := groups[g].(receiptError := false, finishedAt := None, expiresAt := now + 600,
                                         receiptNextAt := Some(now + delay))];
      case Settles(code, body) =>
        CheckSourceConflicts(g, changed);
        var original, originalCode, originalError := groups[g].response, groups[g].httpStatus, groups[g].error;
        ReopenLines(g, false);
        SettleGroup(g, code, body, Payload(body), now);
        groups := groups[g := groups[g].(response := original, httpStatus := originalCode, error := originalError)];
        groups := groups[g := groups[g].(receiptError := false, receiptNextAt := None)];
      case Refuses(why) =>
        CheckSourceConflicts(g, changed);
        var original, originalCode, originalError := groups[g].response, groups[g].httpStatus, groups[g].error;
        ReopenLines(g, false);
        RefusePending(g, why);
        groups := groups[g := groups[g].(finishedAt := Some(now))];
        groups := groups[g := groups[g].(response := original, httpStatus := originalCode, error := originalError)];
        groups := groups[g := groups[g].(receiptError := false, receiptNextAt := None)];
    }

    // ---- automatic rows -----------------------------------------------------------------

    method Move(a: nat, state: AutoState, reason: Reason)
      requires a < |autos|
      modifies this`autos
      ensures autos == old(autos)[a := Transition(old(autos[a]), state, reason)]
    {
      if autos[a].state != state || autos[a].reason != reason {
        autos := autos[a := autos[a].(state := state, reason := reason)];
      } else {
        assert Transition(autos[a], state, reason) == autos[a];
      }
    }

    method Release(a: nat)
      requires a < |autos|
      modifies this`autos
      ensures autos == old(autos)[a := old(autos[a]).(lease := None)]
    {
      autos := autos[a := autos[a].(lease := None)];
    }

    /** Is there a line of the row in submission `g`, and one with status `s`? */
    method AnyLine(a: nat, g: nat, s: Status) returns (some: bool, has: bool)
      requires a < |autos| && g < |groups|
      ensures some <==> Receipts(autos[a], g, groups[g]) != {}
      ensures has <==> AnyHas(groups[g], Receipts(autos[a], g, groups[g]), s)
    {
      ghost var lines := Receipts(autos[a], g, groups[g]);
      LineByLine(autos[a], g, groups[g]);
      hide Receipts, IsLine;
      some, has := false, false;
      var n := 0;
      while n < |groups[g].items|
        invariant n <= |groups[g].items|
        invariant some <==> exists i :: 0 <= i < n && i in lines
        invariant has <==> exists i :: 0 <= i < n && i in lines && groups[g].items[i].status == s
      {
        if IsLine(autos[a], g, n, groups[g].items[n]) {
          some := true;
          if groups[g].items[n].status == s { has := true; }
        }
        n := n + 1;
      }
      if lines != {} { var i :| i in lines; }
    }

    method AnyConflict(a: nat, g: nat) returns (has: bool)
      requires a < |autos| && g < |groups|
      ensures has <==> exists i :: i in Receipts(autos[a], g, groups[g]) && i < |groups[g].items| && groups[g].items[i].conflict
    {
      ghost var lines := Receipts(autos[a], g, groups[g]);
      LineByLine(autos[a], g, groups[g]);
      hide Receipts, IsLine;
      has := false;
      var n := 0;
      while n < |groups[g].items|
        invariant n <= |groups[g].items|
        invariant has <==> exists i :: 0 <= i < n && i in lines && groups[g].items[i].conflict
      {
        if IsLine(autos[a], g, n, groups[g].items[n]) {
          if groups[g].items[n].conflict { has := true; }
        }
        n := n + 1;
      }
    }

    /** The first status found in this order decides: accepted, sending, unknown, rejected. */
    method Judge(a: nat, g: nat, now: int)
      requires a < |autos| && g < |groups|
      modifies this`autos, this`retryAt
      ensures autos == old(autos)[a := Judged(old(autos[a]), groups[g], Receipts(old(autos[a]), g, groups[g]), now)]
      ensures var lines := Receipts(old(autos[a]), g, groups[g]);
        retryAt == if AnyHas(groups[g], lines, Accepted) then None
                   else if AnyHas(groups[g], lines, Sending) || AnyHas(groups[g], lines, Unknown) || AnyHas(groups[g], lines, Rejected)
                   then old(retryAt) else Some(now + Backoff(old(autos[a]).attempts))
    {
      hide Receipts, AnyHas, Backoff;
      var _, accepted := AnyLine(a, g, Accepted);
      var _, sending := AnyLine(a, g, Sending);
      var _, unknown := AnyLine(a, g, Unknown);
      var _, rejected := AnyLine(a, g, Rejected);
      if accepted {
        Move(a, Done, AtAccepted);
        retryAt := None;
      } else if sending {
        Move(a, ReceiptPending, AtReceiptPending);
      } else if unknown {
        Move(a, NeedsAttention, AtUnknown);
      } else if rejected {
        Move(a, NeedsAttention, AtRejected);
      } else {
        Move(a, Waiting, AtServer);
        autos := autos[a := autos[a].(nextAttemptAt := now + Backoff(autos[a].attempts))];
        retryAt := Some(now + Backoff(autos[a].attempts));
      }
    }

    method SettleItem(a: nat, g: nat, now: int)
      requires a < |autos| && g < |groups|
      modifies this`autos, this`retryAt
      ensures |autos| == |old(autos)| && View() == EncoderTables.SettleItem(old(View()), a, g, now)
    {
      hide Receipts, AnyHas, Backoff;
      ghost var row := autos[a];
      var some, _ := AnyLine(a, g, Accepted);
      if !some {
        Move(a, NeedsAttention, AtUnknown);
      } else if autos[a].state != Cancelled && !(autos[a].reason == AtPresetChanged && groups[g].startedAt.None?) {
        var conflict := AnyConflict(a, g);
        Judge(a, g, now);
        if conflict { Move(a, NeedsAttention, AtSourceConflict); }
      }
      Release(a);
      assert autos[a] == SettleAuto(row, g, groups[g], now);
    }

    /** The newest line, outside submission `exclude`, that may already carry the source. */
    method PreviousReceipt(id: Identity, content: Option<Content>, exclude: Option<nat>) returns (r: Option<Ref>)
      ensures r == Previous(groups, |groups|, id, content, exclude)
    {
      hide Duplicate, DuplicateIn, Previous;
      var h := |groups|;
      while h > 0
        invariant 0 <= h <= |groups| && Previous(groups, |groups|, id, content, exclude) == Previous(groups, h, id, content, exclude)
      {
        PreviousStep(groups, h, id, content, exclude);
        if Some(h - 1) != exclude {
          var k := NewestDuplicate(h - 1, id, content);
          if k.Some? { return Some(Ref(h - 1, k.value)); }
        }
        h := h - 1;
      }
      PreviousStep(groups, 0, id, content, exclude);
      r := None;
    }

    method NewestDuplicate(g: nat, id: Identity, content: Option<Content>) returns (r: Option<nat>)
      requires g < |groups|
      ensures r == DuplicateIn(groups[g], |groups[g].items|, id, content)
    {
      hide Duplicate;
      var k := |groups[g].items|;
      while k > 0 && !Duplicate(groups[g].items[k - 1], id, content)
        invariant 0 <= k <= |groups[g].items|
        invariant DuplicateIn(groups[g], |groups[g].items|, id, content) == DuplicateIn(groups[g], k, id, content)
      {
        k := k - 1;
      }
      r := if k > 0 then Some(k - 1) else None;
    }

    /** The first obstacle in order; the row remembers its file and the line that stands in its way. */
    method AssessRow(a: nat, f: Facts) returns (state: AutoState, reason: Reason)
      requires a < |autos|
      modifies this`autos
      ensures var r := Assess(old(View()), old(autos[a]), f);
        state == r.state && reason == r.reason && autos == old(autos)[a := r.auto]
    {
      hide Previous, Duplicate;
      ghost var was := autos[a];
      var row := autos[a];
      assert autos == autos[a := row];
      var release := row.id.release;
      if release !in policies || release !in tracked || !policies[release].participating
         || policies[release].generation != row.generation { return Cancelled, AtUntracked; }
      if !f.archived { return Cancelled, AtSuperseded; }
      if f.avc.None? { return Waiting, AtMetadata; }
      if !f.avc.value { return Cancelled, AtNotAvc; }
      if f.file.None? || f.removed { return Cancelled, AtRemoved; }
      autos := autos[a := row.(fileId := f.file.value)];
      if !f.video { return Cancelled, AtNotVideo; }
      if !f.changed { return Cancelled, AtNotChanged; }
      if !f.selected { return Waiting, AtSelection; }
      if (policies[release].presets.video != "") != (policies[release].presets.audio != "") { return Waiting, AtPreset; }
      if !enabled { return Waiting, AtPaused; }
      if !f.server { return Waiting, AtServer; }
      if f.hashing { return Waiting, AtHash; }
      if !f.present { return Waiting, AtDownload; }
      if !f.verified { return Waiting, AtHash; }
      var own := if row.state == Claimed && row.receipt.Some? then Some(row.receipt.value.group) else None;
      var previous := PreviousReceipt(row.id, f.content, own);
      if previous.None? { return Ready, AtReady; }
      autos := autos[a := autos[a].(receipt := previous)];
      PreviousIsThere(groups, row.id, f.content, own);
      var line := groups[previous.value.group].items[previous.value.index];
      if line.conflict { return NeedsAttention, AtSourceConflict; }
      if line.status == Accepted { return Done, AtAlreadySubmitted; }
      if line.status == Sending { return ReceiptPending, AtReceiptPending; }
      return NeedsAttention, AtUnknown;
    }

    method ReconcileRow(a: nat, f: Facts, now: int)
      requires a < |autos|
      modifies this`autos, this`retryAt
      ensures |autos| == |old(autos)| && View() == ReconcileItem(old(View()), a, f, now)
    {
      hide Assess, EncoderTables.SettleItem, Receipts;
      var outcome := false;
      var row := autos[a];
      if row.receipt.Some? && row.receipt.value.group < |groups| {
        var g := row.receipt.value.group;
        LineByLine(row, g, groups[g]);
        var n := 0;
        while n < |groups[g].items|
          invariant n <= |groups[g].items|
          invariant outcome <==> exists i :: 0 <= i < n && IsLine(row, g, i, groups[g].items[i]) && groups[g].items[i].status != NotSent
        {
          if IsLine(row, g, n, groups[g].items[n]) && groups[g].items[n].status != NotSent { outcome := true; }
          n := n + 1;
        }
      }
      assert outcome <==> HasOutcome(row, groups);
      if outcome { SettleItem(a, row.receipt.value.group, now); }
      else {
        Release(a);
        ghost var free := View();
        assert free == old(View()).(autos := old(autos)[a := row.(lease := None)]);
        AssessElsewhere(old(View()), free, row.(lease := None), f);
        var state, reason := AssessRow(a, f);
        Move(a, state, reason);
        autos := autos[a := autos[a].(nextAttemptAt := now + 30)];
      }
    }

    /** One page of due rows, oldest attempt first; `facts` is what the disk and the catalogue say about each. */
    method ReconcilePage(page: seq<nat>, facts: seq<Facts>, now: int)
      requires |facts| == |page| && forall k :: 0 <= k < |page| ==> page[k] < |autos|
      modifies this`autos, this`retryAt
      ensures View() == Reconciled(old(View()), page, facts, now)
    {
      hide ReconcileItem;
      ghost var start := View();
      var k := 0;
      while k < |page|
        invariant k <= |page| && |autos| == |start.autos|
        invariant View() == Reconciled(start, page[..k], facts[..k], now)
      {
        ReconcileRow(page[k], facts[k], now);
        assert page[..k + 1][..k] == page[..k] && facts[..k + 1][..k] == facts[..k];
        k := k + 1;
      }
      assert page[..k] == page && facts[..k] == facts;
    }

    /** Nothing is claimed during a pause or while another claim is inside its lease. */
    method ClaimNext(f: Facts, token: nat, now: int) returns (claimed: Option<nat>)
      modifies this`autos
      ensures |autos| == |old(autos)|
      ensures claimed.Some? ==> MayClaim(old(View()), now) && NextReady(old(autos), claimed.value)
      ensures claimed.Some? ==> autos[claimed.value].lease == Some(Lease(token, now + 660))
      ensures if MayClaim(old(View()), now) && exists a: nat :: NextReady(old(autos), a)
              then exists a: nat :: NextReady(old(autos), a) && autos == old(autos)[a := ClaimAuto(old(View()), a, f, token, now)] &&
                     (claimed == Some(a) <==> autos[a].state == Claimed)
              else autos == old(autos) && claimed.None?
    {
      hide Assess;
      if retryAt.Some? && retryAt.value > now { return None; }
      var n := 0;
      while n < |autos|
        invariant n <= |autos|
        invariant forall k :: 0 <= k < n && autos[k].state == Claimed && autos[k].lease.Some? ==> autos[k].lease.value.until <= now
      {
        if autos[n].state == Claimed && autos[n].lease.Some? && autos[n].lease.value.until > now { return None; }
        n := n + 1;
      }
      var a := 0;
      while a < |autos| && autos[a].state != Ready
        invariant a <= |autos| && forall k :: 0 <= k < a ==> autos[k].state != Ready
      {
        a := a + 1;
      }
      if a == |autos| { return None; }
      assert NextReady(autos, a);
      var state, reason := AssessRow(a, f);
      if state != Ready {
        Move(a, state, reason);
        AssessNeverClaims(old(View()), old(autos[a]), f);
        return None;
      }
      var release := autos[a].id.release;
      autos := autos[a := autos[a].(
        lease := Some(Lease(token, now + 660)), attempts := autos[a].attempts + 1,
        revision := if release in policies then policies[release].revision else 0)];
      Move(a, Claimed, AtSending);
      claimed := Some(a);
    }

    /** Permission at the instant of the intent; a refusal moves the row. */
    method ValidateIntent(a: nat, token: nat, snapshot: Json, f: Facts, now: int) returns (granted: bool)
      requires a < |autos|
      modifies this`autos
      ensures match Validate(old(View()), a, token, snapshot, f, now)
              case Granted => granted && autos == old(autos)[a := Assess(old(View()), old(autos[a]), f).auto]
              case Denied(row) => !granted && autos == old(autos)[a := row]
    {
      hide Assess, Previous;
      var row := autos[a];
      if row.state != Claimed || row.lease.None? || row.lease.value.token != token || row.lease.value.until <= now {
        assert autos == autos[a := row];
        return false;
      }
      ReadyMayRun(View(), row, f);
      var state, reason := AssessRow(a, f);
      if state != Ready { Move(a, state, reason); return false; }
      var policy := policies[row.id.release];
      if policy.revision != row.revision { Move(a, Waiting, AtPreset); return false; }
      if HasPresets(policy.presets) && policy.snapshot != snapshot { Move(a, NeedsAttention, AtPresetChanged); return false; }
      granted := true;
    }

    // ---- tracking, versions and policies ------------------------------------------------

    method TrackingChanged(release: int, on: bool)
      modifies this`policies, this`sources, this`autos
      ensures View() == EncoderTables.TrackingChanged(old(View()), release, on)
    {
      if !initialized { return; }
      var policy := PolicyFor(View(), release);
      policies := policies[release := policy];
      if policy.participating == on { return; }
      if on {
        policies := policies[release := policy.(participating := true, generation := policy.generation + 1)];
        AddBaseline(release, policy.generation + 1);
      } else {
        policies := policies[release := policy.(participating := false)];
        StopRows(release);
      }
    }

    /** Every version archived so far becomes an old source of the new generation. */
    method AddBaseline(release: int, generation: nat)
      modifies this`sources
      ensures sources == old(sources) + Baseline(View(), release, generation)
    {
      ghost var start, all := sources, Baseline(View(), release, generation);
      var left := ArchivedHashes(View(), release);
      forall k: SourceKey
        ensures k in all <==> k.release == release && k.generation == generation && k.infoHash in left
        ensures k in all ==> all[k]
      {
        Generations.InBaseline(View(), release, generation, k);
      }
      hide Baseline;
      while left != {}
        invariant forall k :: k in sources <==> k in start || (k in all && k.infoHash !in left)
        invariant forall k :: k in sources ==>
          sources[k] == if k in all && k.infoHash !in left then true else k in start && start[k]
        decreases left
      {
        var h :| h in left;
        sources := sources[SourceKey(release, generation, h) := true];
        left := left - {h};
      }
      assert sources == start + all;
    }

    /** Active rows whose request has not started are cancelled. */
    method StopRows(release: int)
      modifies this`autos
      ensures autos == StopAll(old(View()), release)
    {
      ghost var start := View();
      var n := 0;
      while n < |autos|
        invariant n <= |autos| == |start.autos|
        invariant forall k :: 0 <= k < n ==> autos[k] == StopAll(start, release)[k]
        invariant forall k :: n <= k < |autos| ==> autos[k] == start.autos[k]
      {
        var row := autos[n];
        if row.id.release == release && row.state in ACTIVE {
          if row.receipt.None? || row.receipt.value.group >= |groups| || groups[row.receipt.value.group].startedAt.None? {
            Move(n, Cancelled, AtUntracked);
          }
        }
        n := n + 1;
      }
    }

    method ObserveArchive(release: int, infoHash: string)
      modifies this
      ensures View() == EncoderTables.ObserveArchive(old(View()), release, infoHash)
    {
      hide Baseline, StopAll;
      if initialized && release in tracked {
        TrackingChanged(release, true);
        var key := SourceKey(release, PolicyFor(View(), release).generation, infoHash);
        if key !in sources { sources := sources[key := false]; }
      }
      archives := archives + {(release, infoHash)};
    }

    method RegisterFile(fileId: int, explicit: bool, now: int)
      requires fileId in files
      modifies this`autos
      ensures View() == EncoderTables.RegisterFile(old(View()), fileId, explicit, now)
    {
      var id := files[fileId];
      if id.release !in policies || !policies[id.release].participating { return; }
      var generation := policies[id.release].generation;
      var key := SourceKey(id.release, generation, id.infoHash);
      if key !in sources || (sources[key] && !explicit) { return; }
      var k := 0;
      while k < |autos| && !IsItem(autos[k], id, generation)
        invariant k <= |autos| && FindItem(autos, id, generation, 0) == FindItem(autos, id, generation, k)
      {
        k := k + 1;
      }
      if k == |autos| {
        autos := autos + [Auto(id, generation, fileId, explicit, Waiting, AtHash, 0, None, 0, None, now)];
      } else if autos[k].state in ACTIVE {
        autos := autos[k := autos[k].(fileId := fileId)];
      }
    }

    /** Refused, without any change, unless both presets or none are named and the revision is current. */
    method SavePolicy(release: int, revision: nat, presets: Presets, snapshot: Json, now: int) returns (saved: bool)
      modifies this`policies, this`autos
      ensures match EncoderTables.SavePolicy(old(View()), release, revision, presets, snapshot, now)
              case None => !saved && View() == old(View())
              case Some(next) => saved && View() == next
    {
      if (presets.video != "") != (presets.audio != "") { return false; }
      var policy := PolicyFor(View(), release);
      if policy.revision != revision { return false; }
      policies := policies[release := policy.(
        presets := if HasPresets(presets) then presets else NO_PRESETS,
        snapshot := if HasPresets(presets) then snapshot else Obj(map[]), revision := policy.revision + 1)];
      WakeRows(release, now);
      saved := true;
    }

    method WakeRows(release: int, now: int)
      modifies this`autos
      ensures autos == Wake(old(autos), release, now)
    {
      ghost var start := autos;
      var n := 0;
      while n < |autos|
        invariant n <= |autos| == |start|
        invariant forall k :: 0 <= k < n ==> autos[k] == Wake(start, release, now)[k]
        invariant forall k :: n <= k < |autos| ==> autos[k] == start[k]
      {
        var row := autos[n];
        if row.id.release == release && row.state in {Waiting, NeedsAttention} && row.reason in {AtPreset, AtPresetChanged} {
          Move(n, Waiting, AtSettings);
          autos := autos[n := autos[n].(nextAttemptAt := now)];
        }
        n := n + 1;
      }
    }
  }

  /** The row's file is the one with the row's version and path. */
  predicate FileOf(files: map<int, Identity>, a: Auto) {
    a.fileId in files && files[a.fileId] == a.id
  }

  /** uq_torrent_files_hash_path */
  ghost predicate DistinctFiles(files: map<int, Identity>) {
    forall x, y :: x in files && y in files && files[x] == files[y] ==> x == y
  }

  /** Granting an intent leaves the row as it is: its file is already the right one. */
  lemma SameFile(db: Db, a: nat, token: nat, snapshot: Json, f: Facts, now: int)
    requires a < |db.autos| && FileOf(db.files, db.autos[a]) && DistinctFiles(db.files) && FactsFit(db, db.autos[a], f)
    requires Validate(db, a, token, snapshot, f, now).Granted?
    ensures Assess(db, db.autos[a], f).auto == db.autos[a]
  {
    hide Previous;
  }

  lemma SameFacts(db: Db, next: Db, a: Auto, f: Facts)
    requires next.files == db.files
    ensures FactsFit(db, a, f) <==> FactsFit(next, a, f)
  {}

  /** A submission at its commit: an automatic one still has its row, and the row points at it while it holds the token. */
  ghost predicate MayCommit(db: Db, g: nat, token: Option<nat>, f: Facts)
    requires g < |db.groups|
  {
    && DistinctFiles(db.files)
    && (db.groups[g].origin.Automatic? ==>
          && token.Some? && db.groups[g].origin.item < |db.autos|
          && var a := db.autos[db.groups[g].origin.item];
             FileOf(db.files, a) && FactsFit(db, a, f) && (Held(a, token.value) ==> a.receipt == Some(Ref(g, 0))))
  }

  /** Something is left to send, to the same server, and an automatic row is still permitted. */
  predicate CommitStarts(db: Db, g: nat, token: Option<nat>, ok: set<nat>, sameServer: bool, snapshot: Json, f: Facts, now: int)
    requires g < |db.groups| && (db.groups[g].origin.Automatic? ==> token.Some? && db.groups[g].origin.item < |db.autos|)
  {
    && SendingSet(Recheck(db.groups[g].items, ok)) != {} && sameServer
    && (db.groups[g].origin.Automatic? ==> Validate(db, db.groups[g].origin.item, token.value, snapshot, f, now).Granted?)
  }

  function GroupAfter(g: Group, started: bool, ok: set<nat>, snapshot: Json, now: int): Group {
    var r := g.(items := Recheck(g.items, ok), snapshot := snapshot);
    if started then StartRequest(r, r.items, now) else EncoderTables.FinishFailure(r, false, "aborted", now)
  }

  function RowsAfter(db: Db, g: nat, token: Option<nat>, ok: set<nat>, sameServer: bool, snapshot: Json, f: Facts, now: int): seq<Auto>
    requires g < |db.groups| && (db.groups[g].origin.Automatic? ==> token.Some? && db.groups[g].origin.item < |db.autos|)
  {
    if SendingSet(Recheck(db.groups[g].items, ok)) == {} || !sameServer || db.groups[g].origin.Manual? then db.autos
    else
      var a := db.groups[g].origin.item;
      match Validate(db, a, token.value, snapshot, f, now)
      case Granted => db.autos
      case Denied(row) => db.autos[a := row]
  }

  function AfterCommit(db: Db, g: nat, token: Option<nat>, ok: set<nat>, sameServer: bool, snapshot: Json, f: Facts, now: int): Db
    requires g < |db.groups| && (db.groups[g].origin.Automatic? ==> token.Some? && db.groups[g].origin.item < |db.autos|)
  {
    db.(groups := db.groups[g := GroupAfter(db.groups[g], CommitStarts(db, g, token, ok, sameServer, snapshot, f, now), ok, snapshot, now)],
        autos := RowsAfter(db, g, token, ok, sameServer, snapshot, f, now))
  }

  lemma StartDb(w: World, g: nat, ok: set<nat>, snapshot: Json)
    requires g < |w.db.groups| && g in w.owners
    ensures StartWith(w, g, Recheck(w.db.groups[g].items, ok), snapshot).db ==
            w.db.(groups := w.db.groups[g := GroupAfter(w.db.groups[g], true, ok, snapshot, w.now)])
  {
    hide Recheck, SendingSet;
  }

  lemma AbortDb(w: World, r: Group, g: nat, ok: set<nat>, snapshot: Json)
    requires g < |w.db.groups| && w.db.groups[g] == r
    ensures DoAbort(w, g, Recheck(r.items, ok), snapshot).db ==
            w.db.(groups := w.db.groups[g := GroupAfter(r, false, ok, snapshot, w.now)])
  {
    hide Recheck, WriteOff;
  }

  /** The committing step of the runs is this transaction. */
  lemma CommitOfRuns(w: World, g: nat, ok: set<nat>, sameServer: bool, snapshot: Json, f: Facts)
    requires g < |w.db.groups| && g in w.owners
    requires w.db.groups[g].origin.Automatic? ==> w.owners[g].token.Some? && w.db.groups[g].origin.item < |w.db.autos|
    ensures DoCommit(w, g, ok, sameServer, snapshot, f).db == AfterCommit(w.db, g, w.owners[g].token, ok, sameServer, snapshot, f, w.now)
  {
    hide Validate, Recheck, SendingSet, StartWith, DoAbort, GroupAfter;
    var r := w.db.groups[g];
    StartDb(w, g, ok, snapshot);
    AbortDb(w, r, g, ok, snapshot);
    if r.origin.Automatic? {
      var a := r.origin.item;
      match Validate(w.db, a, w.owners[g].token.value, snapshot, f, w.now)
      case Granted =>
      case Denied(row) => AbortDb(w.(db := w.db.(autos := w.db.autos[a := row])), r, g, ok, snapshot);
    }
  }

  predicate Held(a: Auto, token: nat) {
    a.state == Claimed && a.lease.Some? && a.lease.value.token == token
  }

  lemma {:induction false} PreviousSkips(gs: seq<Group>, hs: seq<Group>, n: nat, g: nat, id: Identity, content: Option<Content>)
    requires n <= |gs| == |hs| && forall h :: 0 <= h < |gs| && h != g ==> hs[h] == gs[h]
    ensures Previous(gs, n, id, content, Some(g)) == Previous(hs, n, id, content, Some(g))
  {
    hide Duplicate;
    if n > 0 { PreviousSkips(gs, hs, n - 1, g, id, content); }
  }

  lemma PreviousElsewhere(gs: seq<Group>, id: Identity, content: Option<Content>, g: nat)
    ensures var r := Previous(gs, |gs|, id, content, Some(g)); r.Some? ==> HasRef(gs, r.value) && r.value.group != g
  {}

  /** What the submission itself holds by now plays no part in its own permission. */
  lemma OwnReceiptIgnored(db: Db, next: Db, a: nat, g: nat, token: nat, snapshot: Json, f: Facts, now: int)
    requires a < |db.autos| && next == db.(groups := next.groups) && |next.groups| == |db.groups|
    requires forall h :: 0 <= h < |db.groups| && h != g ==> next.groups[h] == db.groups[h]
    requires Held(db.autos[a], token) ==> db.autos[a].receipt == Some(Ref(g, 0))
    ensures Validate(next, a, token, snapshot, f, now) == Validate(db, a, token, snapshot, f, now)
  {
    hide Previous;
    PreviousSkips(db.groups, next.groups, |db.groups|, g, db.autos[a].id, f.content);
    PreviousElsewhere(db.groups, db.autos[a].id, f.content, g);
  }

  lemma NothingPending(items: seq<Item>, why: Json, changed: set<nat>)
    ensures var r := MarkConflicts(RefuseAll(items, why), changed);
      forall i :: 0 <= i < |r| ==> r[i].status != Sending
  {}

  lemma NothingToWriteOff(items: seq<Item>, why: string)
    requires forall i :: 0 <= i < |items| ==> items[i].status != Sending
    ensures WriteOff(items, true, why) == items
  {}

  /** `reconcile` over a page of rows, in order. */
  ghost function Reconciled(db: Db, page: seq<nat>, facts: seq<Facts>, now: int): (r: Db)
    requires |facts| == |page| && forall k :: 0 <= k < |page| ==> page[k] < |db.autos|
    ensures |r.autos| == |db.autos|
  {
    if page == [] then db
    else
      var n := |page| - 1;
      ReconcileItem(Reconciled(db, page[..n], facts[..n], now), page[n], facts[n], now)
  }

  lemma PreviousStep(groups: seq<Group>, n: nat, id: Identity, content: Option<Content>, exclude: Option<nat>)
    requires n <= |groups|
    ensures Previous(groups, n, id, content, exclude) ==
      if n == 0 then None
      else if Some(n - 1) != exclude && DuplicateIn(groups[n - 1], |groups[n - 1].items|, id, content).Some?
      then Some(Ref(n - 1, DuplicateIn(groups[n - 1], |groups[n - 1].items|, id, content).value))
      else Previous(groups, n - 1, id, content, exclude)
  {
    hide Duplicate, DuplicateIn;
  }

  lemma PreviousIsThere(groups: seq<Group>, id: Identity, content: Option<Content>, exclude: Option<nat>)
    ensures var r := Previous(groups, |groups|, id, content, exclude); r.Some? ==> HasRef(groups, r.value)
  {}

  /** Assessing a row reads nothing of the other rows. */
  lemma AssessElsewhere(db: Db, next: Db, a: Auto, f: Facts)
    requires next == db.(autos := next.autos)
    ensures Assess(next, a, f) == Assess(db, a, f)
  {
    hide Previous;
  }

  lemma AssessNeverClaims(db: Db, a: Auto, f: Facts)
    ensures Assess(db, a, f).state != Claimed
  {
    hide Previous;
  }

  lemma ReadyMayRun(db: Db, a: Auto, f: Facts)
    ensures Assess(db, a, f).state == Ready ==> a.id.release in db.policies
  {
    hide Previous;
  }

  /** Line `n` of submission `g` decides the row. */
  predicate IsLine(a: Auto, g: nat, n: nat, item: Item) {
    if a.receipt.Some? then a.receipt == Some(Ref(g, n))
    else item.infoHash == a.id.infoHash && item.relativePath == a.id.relativePath
  }

  lemma LineByLine(a: Auto, g: nat, group: Group)
    ensures forall n: nat :: n in Receipts(a, g, group) <==> n < |group.items| && IsLine(a, g, n, group.items[n])
  {}

  /** Where the lines' statuses send a row that is neither cancelled nor blocked by its presets. */
  ghost function Judged(a: Auto, group: Group, lines: set<nat>, now: int): Auto {
    if AnyHas(group, lines, Accepted) then Transition(a, Done, AtAccepted)
    else if AnyHas(group, lines, Sending) then Transition(a, ReceiptPending, AtReceiptPending)
    else if AnyHas(group, lines, Unknown) then Transition(a, NeedsAttention, AtUnknown)
    else if AnyHas(group, lines, Rejected) then Transition(a, NeedsAttention, AtRejected)
    else Transition(a, Waiting, AtServer).(nextAttemptAt := now + Backoff(a.attempts))
  }

  /** The newest line sent with the same presets forbids sending file `i`. */
  predicate NewestBlocks(groups: seq<Group>, q: Request, i: nat, p: Ref)
    requires i < |q.items|
  {
    && q.items[i].infoHash != "" && HasRef(groups, p) && Blocking(At(groups, p).status, q.allowRepeat, q.acknowledgeUnknown)
    && NewestLive(groups, |groups|, q.target, q.presets, q.items[i].infoHash, q.items[i].relativePath) == Some(p)
  }

  /** A line that may be the same automatic source forbids sending file `i`. */
  predicate RepeatBlocks(groups: seq<Group>, q: Request, i: nat, p: Ref)
    requires i < |q.items|
  {
    && q.items[i].infoHash != "" && HasRef(groups, p) && Blocking(At(groups, p).status, q.allowRepeat, q.acknowledgeUnknown)
    && MayRepeat(groups[p.group], At(groups, p), q.items[i], q.origin)
  }

  lemma BlockedOrClear(groups: seq<Group>, q: Request)
    ensures Clear(groups, q) <==>
      (forall i, p :: 0 <= i < |q.items| ==> !NewestBlocks(groups, q, i, p)) &&
      (forall i, p :: 0 <= i < |q.items| ==> !RepeatBlocks(groups, q, i, p))
  {
    hide NewestLive, MayRepeat, Blocking;
    forall i, p | 0 <= i < |q.items|
      ensures Forbids(groups, q, i, p) <==> NewestBlocks(groups, q, i, p) || RepeatBlocks(groups, q, i, p)
    {}
  }

  lemma SameRequests(before: seq<Group>, after: seq<Group>, requestId: string)
    requires |after| == |before| && forall g :: 0 <= g < |before| ==> after[g].requestId == before[g].requestId
    ensures KnownRequest(after, requestId) <==> KnownRequest(before, requestId)
  {}

  /** The page as steps of a run. */
  function PageEvents(page: seq<nat>, facts: seq<Facts>): (es: seq<Event>)
    requires |facts| == |page|
    ensures |es| == |page|
  {
    if page == [] then []
    else PageEvents(page[..|page| - 1], facts[..|page| - 1]) + [Reconcile(page[|page| - 1], facts[|page| - 1])]
  }

  lemma ReconcileTouchesOneRow(db: Db, a: nat, f: Facts, now: int)
    requires a < |db.autos|
    ensures var next := ReconcileItem(db, a, f, now);
      next == db.(autos := next.autos, retryAt := next.retryAt) && |next.autos| == |db.autos| &&
      forall k :: 0 <= k < |db.autos| && k != a ==> next.autos[k] == db.autos[k]
  {
    hide Assess, SettleAuto, RetryAfter, HasOutcome;
    if HasOutcome(db.autos[a], db.groups) { QueueSteps.HasOutcomeExists(db.autos[a], db.groups); }
  }

  lemma {:induction false} PageTouchesItsRows(db: Db, page: seq<nat>, facts: seq<Facts>, now: int)
    requires |facts| == |page| && forall k :: 0 <= k < |page| ==> page[k] < |db.autos|
    ensures var next := Reconciled(db, page, facts, now);
      next == db.(autos := next.autos, retryAt := next.retryAt) &&
      forall k :: 0 <= k < |db.autos| && k !in page ==> next.autos[k] == db.autos[k]
  {
    hide ReconcileItem;
    if page != [] {
      var n := |page| - 1;
      PageTouchesItsRows(db, page[..n], facts[..n], now);
      ReconcileTouchesOneRow(Reconciled(db, page[..n], facts[..n], now), page[n], facts[n], now);
      assert forall k :: k !in page ==> k !in page[..n] && k != page[n];
    }
  }

  /** A page of distinct due rows is a run of `reconcile` steps: none of them makes another one fall due or not. */
  lemma {:induction false} PageIsARun(w: World, page: seq<nat>, facts: seq<Facts>)
    requires |facts| == |page| && forall k :: 0 <= k < |page| ==> page[k] < |w.db.autos|
    requires forall i, j :: 0 <= i < j < |page| ==> page[i] != page[j]
    requires forall k :: 0 <= k < |page| ==> Due(w.db.autos[page[k]], w.now) && FactsFit(w.db, w.db.autos[page[k]], facts[k])
    ensures Run(w, PageEvents(page, facts)) == w.(db := Reconciled(w.db, page, facts, w.now))
  {
    hide Due, ReconcileItem, Enabled, Apply;
    if page != [] {
      var n := |page| - 1;
      var u := Run(w, PageEvents(page[..n], facts[..n]));
      PageIsARun(w, page[..n], facts[..n]);
      PageTouchesItsRows(w.db, page[..n], facts[..n], w.now);
      assert page[n] !in page[..n];
      assert PageEvents(page, facts)[..n] == PageEvents(page[..n], facts[..n]);
      ReconcileApplies(u, page[n], facts[n]);
    }
  }

  lemma ReconcileApplies(w: World, a: nat, f: Facts)
    requires a < |w.db.autos| && Due(w.db.autos[a], w.now) && FactsFit(w.db, w.db.autos[a], f)
    ensures Next(w, Reconcile(a, f)) == w.(db := ReconcileItem(w.db, a, f, w.now))
  {
    hide EnabledCatalogue, EnabledRequest, ApplyCatalogue, ApplyRequest;
  }
}
