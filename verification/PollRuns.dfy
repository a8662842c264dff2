/** Any number of poller workers, crashing or late, over shared rows. */
module PollRuns {
  import opened Json
  import opened PollTracking
  import EncoderTables

  /** A successful save: the number of its claim among the row's claims, when, what, and the pause it chose. */
  datatype Save = Save(turn: nat, at: int, seen: Seen, delay: int)

  /** A claim once handed out; a worker may use it at any later time, or never. */
  datatype Taken = Taken(target: Target, turn: nat)

  /** `claims`: how often each row was claimed. `log`: the successful saves of each row. */
  datatype World = World(rows: seq<Row>, taken: map<nat, Taken>, claims: seq<nat>, log: seq<seq<Save>>, now: int)

  datatype Event =
    | Wait(to: int)
    | NewJob
    | Claim(row: nat, token: nat)
    | Observed(token: nat, seen: Seen)
    | Release(token: nat)

  predicate MaySave(w: World, token: nat) {
    && token in w.taken && w.taken[token].target.row < |w.rows|
    && HeldBy(w.rows[w.taken[token].target.row], token) && w.now < w.rows[w.taken[token].target.row].lease.value.until
  }

  predicate Enabled(w: World, e: Event) {
    match e
    case Wait(to) => w.now <= to
    case NewJob => true
    case Claim(row, token) => row < |w.rows| && Due(w.rows[row], w.now) && token !in w.taken && row < |w.claims|
    case Observed(token, seen) => MaySave(w, token) && Consistent(seen) && w.taken[token].target.row < |w.log|
    case Release(token) =>
      token in w.taken && w.taken[token].target.row < |w.rows| && HeldBy(w.rows[w.taken[token].target.row], token)
  }

  function Apply(w: World, e: Event): World
    requires Enabled(w, e)
  {
    match e
    case Wait(to) => w.(now := to)
    case NewJob =>
      w.(rows := w.rows + [Row(Unseen, None, None, None, 0, w.now, None)], claims := w.claims + [0], log := w.log + [[]])
    case Claim(row, token) =>
      w.(rows := w.rows[row := w.rows[row].(lease := Some(Lease(token, w.now + LEASE)))],
         taken := w.taken[token := Taken(Target(row, token, w.rows[row].failures), w.claims[row])],
         claims := w.claims[row := w.claims[row] + 1])
    case Observed(token, seen) =>
      var t, r := w.taken[token], w.taken[token].target.row;
      w.(rows := w.rows[r := Saved(w.rows[r], t.target, seen, w.now)],
         log := w.log[r := w.log[r] + [Save(t.turn, w.now, seen, Delay(Failures(t.target, seen), seen))]])
    case Release(token) =>
      var r := w.taken[token].target.row;
      w.(rows := w.rows[r := w.rows[r].(lease := None)])
  }

  /** A step that is not possible, such as a save under a lost claim, changes nothing. */
  function Next(w: World, e: Event): World {
    if Enabled(w, e) then Apply(w, e) else w
  }

  function Run(w: World, es: seq<Event>): World {
    if es == [] then w else Next(Run(w, es[..|es| - 1]), es[|es| - 1])
  }

  predicate Initial(w: World) {
    w.rows == [] && w.taken == map[] && w.claims == [] && w.log == []
  }

  // ---- what a row's saves say ------------------------------------------------------

  /** Length of the trailing run of failed saves. */
  function Trailing(log: seq<Save>): nat {
    if log == [] || log[|log| - 1].seen.kind.None? then 0 else 1 + Trailing(log[..|log| - 1])
  }

  function LastAvailable(log: seq<Save>): Option<bool> {
    if log == [] then None
    else Update(LastAvailable(log[..|log| - 1]), log[|log| - 1].seen.fields.available)
  }

  function LastStatus(log: seq<Save>): JobStatus {
    if log == [] then Unseen
    else Update(LastStatus(log[..|log| - 1]), log[|log| - 1].seen.fields.status)
  }

  // ---- the invariant of one row ---------------------------------------------------------

  /** The row is what its saves made of it. */
  ghost predicate RowMatches(r: Row, log: seq<Save>) {
    && r.failures == Trailing(log) && r.available == LastAvailable(log) && r.status == LastStatus(log)
    && (log != [] ==> var last := log[|log| - 1];
          r.nextPollAt == last.at + last.delay && r.kind == last.seen.kind)
    && (log == [] ==> r.kind.None?)
    && (r.available == Some(true) ==> r.status == Finished)
  }

  /** Saves in order of their claims, each at least the earlier one's pause later. */
  ghost predicate LogOk(log: seq<Save>) {
    && (forall i :: 0 <= i < |log| ==> Consistent(log[i].seen) && 30 <= log[i].delay <= 900)
    && (forall i :: 0 <= i < |log| - 1 ==> log[i].turn < log[i + 1].turn && log[i].at + log[i].delay <= log[i + 1].at)
  }

  /** A held row's claim is its latest, no save happened since, and it was due. */
  ghost predicate LeaseOk(r: Row, row: nat, taken: map<nat, Taken>, claims: nat, log: seq<Save>, now: int) {
    && (log != [] ==> log[|log| - 1].turn < claims)
    && (r.lease.Some? ==>
          var token := r.lease.value.token;
          && claims > 0 && token in taken && taken[token] == Taken(Target(row, token, r.failures), claims - 1)
          && r.nextPollAt <= now && (log != [] ==> log[|log| - 1].turn < claims - 1))
  }

  ghost predicate RowOk(w: World, r: nat)
    requires |w.rows| == |w.claims| == |w.log| && r < |w.rows|
  {
    RowMatches(w.rows[r], w.log[r]) && LogOk(w.log[r]) && LeaseOk(w.rows[r], r, w.taken, w.claims[r], w.log[r], w.now)
  }

  ghost predicate Inv(w: World) {
    && |w.rows| == |w.claims| == |w.log|
    && (forall r :: 0 <= r < |w.rows| ==> RowOk(w, r))
    && (forall t :: t in w.taken ==>
          w.taken[t].target.token == t && w.taken[t].target.row < |w.rows| && w.taken[t].turn < w.claims[w.taken[t].target.row])
  }

  lemma DelayRange(failures: nat, s: Seen)
    requires s.kind.Some? ==> failures > 0
    ensures 30 <= Delay(failures, s) <= 900
  {
    var n := if failures < 5 then failures else 5;
    assert EncoderTables.Pow2(n) >= 1 by { if n > 0 { PowPositive(n); } }
  }

  lemma PowPositive(n: nat)
    ensures EncoderTables.Pow2(n) >= 1
  {}

  lemma LogAfterSave(log: seq<Save>, save: Save)
    requires LogOk(log) && Consistent(save.seen) && 30 <= save.delay <= 900
    requires log != [] ==> log[|log| - 1].turn < save.turn && log[|log| - 1].at + log[|log| - 1].delay <= save.at
    ensures LogOk(log + [save])
  {
    hide Consistent;
    var after := log + [save];
    forall i | 0 <= i < |after| - 1
      ensures after[i].turn < after[i + 1].turn && after[i].at + after[i].delay <= after[i + 1].at
    {
      if i < |log| - 1 { assert after[i] == log[i] && after[i + 1] == log[i + 1]; }
    }
  }

  lemma RowAfterSave(r: Row, log: seq<Save>, t: Target, s: Seen, turn: nat, now: int)
    requires RowMatches(r, log) && Consistent(s) && t.failures == r.failures
    ensures RowMatches(Saved(r, t, s, now), log + [Save(turn, now, s, Delay(Failures(t, s), s))])
  {
    hide Delay;
    var after := log + [Save(turn, now, s, Delay(Failures(t, s), s))];
    assert after[..|after| - 1] == log;
  }

  lemma SaveKeepsRow(r: Row, row: nat, taken: map<nat, Taken>, claims: nat, log: seq<Save>, token: nat, s: Seen, now: int)
    requires RowMatches(r, log) && LogOk(log) && LeaseOk(r, row, taken, claims, log, now)
    requires HeldBy(r, token) && token in taken && Consistent(s)
    ensures var t := taken[token].target;
      var after := log + [Save(taken[token].turn, now, s, Delay(Failures(t, s), s))];
      RowMatches(Saved(r, t, s, now), after) && LogOk(after) && LeaseOk(Saved(r, t, s, now), row, taken, claims, after, now)
  {
    var t := taken[token].target;
    DelayRange(Failures(t, s), s);
    RowAfterSave(r, log, t, s, taken[token].turn, now);
    PauseOver(r, log);
    hide Delay, Consistent, RowMatches;
    LogAfterSave(log, Save(taken[token].turn, now, s, Delay(Failures(t, s), s)));
  }

  lemma PauseOver(r: Row, log: seq<Save>)
    requires RowMatches(r, log)
    ensures log != [] ==> r.nextPollAt == log[|log| - 1].at + log[|log| - 1].delay
  {}

  lemma Step(w: World, e: Event)
    requires Inv(w)
    ensures Inv(Next(w, e))
  {
    hide RowMatches, LogOk, Consistent;
    var v := Next(w, e);
    if Enabled(w, e) {
      match e
      case Wait(_) => forall r | 0 <= r < |v.rows| ensures RowOk(v, r) { assert RowOk(w, r); }
      case NewJob =>
        NewRow(w.now, |w.rows|, w.taken);
        forall r | 0 <= r < |v.rows| ensures RowOk(v, r) { if r < |w.rows| { assert RowOk(w, r); } }
      case Claim(row, token) =>
        forall r | 0 <= r < |v.rows| ensures RowOk(v, r) {
          assert RowOk(w, r);
          if r == row { LeasedMatches(w.rows[r], w.log[r], v.rows[r]); }
        }
      case Observed(token, seen) =>
        var row := w.taken[token].target.row;
        forall r | 0 <= r < |v.rows| ensures RowOk(v, r) {
          assert RowOk(w, r);
          if r == row { SaveKeepsRow(w.rows[r], r, w.taken, w.claims[r], w.log[r], token, seen, w.now); }
        }
      case Release(token) =>
        var row := w.taken[token].target.row;
        forall r | 0 <= r < |v.rows| ensures RowOk(v, r) {
          assert RowOk(w, r);
          if r == row { LeasedMatches(w.rows[r], w.log[r], v.rows[r]); }
        }
    }
  }

  lemma NewRow(now: int, row: nat, taken: map<nat, Taken>)
    ensures var r := Row(Unseen, None, None, None, 0, now, None);
      RowMatches(r, []) && LogOk([]) && LeaseOk(r, row, taken, 0, [], now)
  {}

  lemma LeasedMatches(r: Row, log: seq<Save>, next: Row)
    requires RowMatches(r, log) && next == r.(lease := next.lease)
    ensures RowMatches(next, log)
  {}

  lemma {:induction false} Reachable(w: World, es: seq<Event>)
    requires Initial(w)
    ensures Inv(Run(w, es))
  {
    hide Next;
    if es != [] {
      Reachable(w, es[..|es| - 1]);
      Step(Run(w, es[..|es| - 1]), es[|es| - 1]);
    }
  }

  // ---- the results ---------------------------------------------------------------------------

  lemma {:induction false} TurnsIncrease(log: seq<Save>, i: nat, j: nat)
    requires LogOk(log) && i < j < |log|
    ensures log[i].turn < log[j].turn && log[i].at + log[i].delay <= log[j].at
    decreases j - i
  {
    if i + 1 < j { TurnsIncrease(log, i + 1, j); }
  }

  /**
   Fencing: in every run, a claim saves at most once, later claims save later, and a
   worker can save only under the row's latest claim, and only if that has not saved yet.
   */
  lemma ClaimsSaveOnceInOrder(w: World, es: seq<Event>, r: nat)
    requires Initial(w) && r < |Run(w, es).rows|
    ensures var v := Run(w, es);
      && r < |v.log| && r < |v.claims|
      && (forall i, j :: 0 <= i < j < |v.log[r]| ==> v.log[r][i].turn < v.log[r][j].turn)
      && (forall t :: t in v.taken && v.taken[t].target.row == r && MaySave(v, t) ==>
            v.taken[t].turn + 1 == v.claims[r] && forall i :: 0 <= i < |v.log[r]| ==> v.log[r][i].turn < v.taken[t].turn)
  {
    Reachable(w, es);
    var v := Run(w, es);
    assert RowOk(v, r);
    hide Run, RowMatches;
    forall i, j | 0 <= i < j < |v.log[r]| ensures v.log[r][i].turn < v.log[r][j].turn { TurnsIncrease(v.log[r], i, j); }
  }

  /** The failure counter is the length of the trailing run of failed saves. */
  lemma FailuresCountTheTail(w: World, es: seq<Event>, r: nat)
    requires Initial(w) && r < |Run(w, es).rows|
    ensures var v := Run(w, es); r < |v.log| && v.rows[r].failures == Trailing(v.log[r])
  {
    Reachable(w, es);
    assert RowOk(Run(w, es), r);
  }

  /** Two saves of a row are at least the first one's pause apart, and a pause lasts from 30 to 900 seconds. */
  lemma SavesKeepTheirDistance(w: World, es: seq<Event>, r: nat, i: nat, j: nat)
    requires Initial(w) && r < |Run(w, es).rows| && r < |Run(w, es).log|
    requires i < j < |Run(w, es).log[r]|
    ensures var log := Run(w, es).log[r];
      30 <= log[i].delay <= 900 && log[i].at + log[i].delay <= log[j].at
  {
    Reachable(w, es);
    assert RowOk(Run(w, es), r);
    TurnsIncrease(Run(w, es).log[r], i, j);
  }

  lemma {:induction false} ConfirmedInLog(log: seq<Save>) returns (i: nat)
    requires LastAvailable(log) == Some(true)
    ensures i < |log| && log[i].seen.fields.available == Some(Some(true))
    ensures forall j :: i < j < |log| ==> log[j].seen.fields.available.None?
  {
    var n := |log| - 1;
    if log[n].seen.fields.available.Some? { i := n; }
    else { i := ConfirmedInLog(log[..n]); }
  }

  /**
   A row says that a file is available only while its status is done. A link
   shown goes back to a save that confirmed the file; nothing saved since then
   was a 404 or spoke of the file at all.
   */
  lemma LinkWasConfirmed(w: World, es: seq<Event>, r: nat) returns (i: nat)
    requires Initial(w) && r < |Run(w, es).rows| && Run(w, es).rows[r].available == Some(true)
    ensures Run(w, es).rows[r].status == Finished
    ensures var v := Run(w, es);
      && r < |v.log| && i < |v.log[r]|
      && v.log[r][i].seen.fields.available == Some(Some(true)) && v.log[r][i].seen.fields.status == Some(Finished)
      && forall j :: i < j < |v.log[r]| ==> v.log[r][j].seen.kind != Some(NotFound) && v.log[r][j].seen.fields.available.None?
  {
    Reachable(w, es);
    var v := Run(w, es);
    assert RowOk(v, r);
    hide Run;
    i := ConfirmedInLog(v.log[r]);
  }

  /** After a saved 404 no link is shown until a later save confirms the file. */
  lemma NoLinkAfter404(w: World, es: seq<Event>, r: nat, n: nat) returns (i: nat)
    requires Initial(w) && r < |Run(w, es).rows| && r < |Run(w, es).log| && n < |Run(w, es).log[r]|
    requires Run(w, es).log[r][n].seen.kind == Some(NotFound) && ShowsLink(Run(w, es).rows[r])
    ensures var log := Run(w, es).log[r]; n < i < |log| && log[i].seen.fields.available == Some(Some(true))
  {
    i := LinkWasConfirmed(w, es, r);
    Reachable(w, es);
    assert RowOk(Run(w, es), r);
  }
}
