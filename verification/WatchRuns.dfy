/** Whole histories of the watch list: nothing is dropped while it is on air or still growing. */
module WatchRuns {
  import opened Json
  import opened OngoingWatch

  datatype Event =
    | Update(schedule: Option<seq<Entry>>)
    | Observe(release: nat, ids: seq<int>)
    | Remove(release: nat)

  /** What happened, and when. */
  datatype Dated = Dated(event: Event, at: int)

  function Apply(rows: map<nat, Row>, d: Dated): map<nat, Row> {
    match d.event
    case Update(schedule) => Kept(Marked(rows, schedule, d.at), d.at)
    case Observe(release, ids) => Checked(rows, release, ids, d.at)
    case Remove(release) => rows - {release}
  }

  function Run(h: seq<Dated>): map<nat, Row> {
    if h == [] then map[] else Apply(Run(h[..|h| - 1]), h[|h| - 1])
  }

  predicate InOrder(h: seq<Dated>) {
    forall i, j :: 0 <= i < j < |h| ==> h[i].at <= h[j].at
  }

  /** A schedule that could be read listed the release. */
  predicate Lists(d: Dated, r: nat) {
    d.event.Update? && d.event.schedule.Some? && r in Present(d.event.schedule.value)
  }

  /** Step `k` of the history saw a torrent id larger than every earlier one of the row. */
  predicate GrowsAt(h: seq<Dated>, k: nat, r: nat)
    requires k < |h|
  {
    h[k].event.Observe? && h[k].event.release == r && Grows(Run(h[..k]), r, h[k].event.ids)
  }

  /** No listing or growth of the release is later than `t`. */
  ghost predicate QuietSince(h: seq<Dated>, r: nat, t: int) {
    (forall k :: 0 <= k < |h| && Lists(h[k], r) ==> h[k].at <= t) &&
    (forall k: nat :: k < |h| && GrowsAt(h, k, r) ==> h[k].at <= t)
  }

  /** A schedule that could be read did not list the release. */
  predicate Omits(d: Dated, r: nat) {
    d.event.Update? && d.event.schedule.Some? && r !in Present(d.event.schedule.value)
  }

  /** Since step `k` the release, watched by then, has been omitted and neither listed nor removed. */
  ghost predicate AbsentSince(h: seq<Dated>, k: nat, r: nat) {
    && k < |h| && Omits(h[k], r) && r in Run(h[..k])
    && forall j :: k < j < |h| ==> !Lists(h[j], r) && h[j].event != Remove(r)
  }

  /** Step `k` is the one at which the release left the schedule. */
  ghost predicate LeftAt(h: seq<Dated>, k: nat, r: nat) {
    AbsentSince(h, k, r) && Run(h[..k])[r].missingSince.None?
  }

  /** A missing row counts down 14 days from when it left the schedule, or from a later growth; no other row does. */
  ghost predicate RowOk(h: seq<Dated>, r: nat, row: Row) {
    if row.missingSince.None? then row.expires.None? && forall k: nat :: !AbsentSince(h, k, r)
    else
      && (exists k: nat :: LeftAt(h, k, r) && h[k].at == row.missingSince.value)
      && row.expires.Some? && row.missingSince.value + PERIOD <= row.expires.value
      && QuietSince(h, r, row.expires.value - PERIOD)
      && (row.expires.value == row.missingSince.value + PERIOD ||
          exists k: nat :: k < |h| && GrowsAt(h, k, r) && h[k].at + PERIOD == row.expires.value)
  }

  ghost predicate Inv(h: seq<Dated>) {
    forall r :: r in Run(h) ==> RowOk(h, r, Run(h)[r])
  }

  lemma GrowsInPrefix(h: seq<Dated>, d: Dated, k: nat, r: nat)
    requires k < |h|
    ensures GrowsAt(h + [d], k, r) == GrowsAt(h, k, r)
  {
    assert (h + [d])[..k] == h[..k];
  }

  lemma RunNext(h: seq<Dated>, d: Dated)
    ensures Run(h + [d]) == Apply(Run(h), d)
  {
    assert (h + [d])[..|h|] == h;
  }

  /** An event that neither lists nor removes the release lets its absence go on. */
  lemma AbsenceGoesOn(h: seq<Dated>, d: Dated, k: nat, r: nat)
    requires k < |h|
    ensures AbsentSince(h + [d], k, r) <==> AbsentSince(h, k, r) && !Lists(d, r) && d.event != Remove(r)
    ensures LeftAt(h + [d], k, r) <==> LeftAt(h, k, r) && !Lists(d, r) && d.event != Remove(r)
  {
    var after := h + [d];
    assert after[..k] == h[..k] && after[|h|] == d;
    assert forall j :: 0 <= j < |h| ==> after[j] == h[j];
  }

  /** One more event that leaves a row's count as it was. */
  lemma SameRowOk(h: seq<Dated>, d: Dated, r: nat, row: Row, next: Row)
    requires RowOk(h, r, row) && next.missingSince == row.missingSince && next.expires == row.expires
    requires !Lists(d, r) && d.event != Remove(r)
    requires if row.missingSince.Some? then !GrowsAt(h + [d], |h|, r) else !Omits(d, r)
    ensures RowOk(h + [d], r, next)
  {
    var after := h + [d];
    assert after[|h|] == d;
    if row.missingSince.Some? {
      var m: nat :| LeftAt(h, m, r) && h[m].at == row.missingSince.value;
      AbsenceGoesOn(h, d, m, r);
      var t := row.expires.value - PERIOD;
      forall k: nat | k < |after| && GrowsAt(after, k, r) ensures after[k].at <= t {
        if k < |h| { GrowsInPrefix(h, d, k, r); }
      }
      forall k | 0 <= k < |after| && Lists(after[k], r) ensures after[k].at <= t {
        if k < |h| { assert after[k] == h[k]; }
      }
      if k: nat :| k < |h| && GrowsAt(h, k, r) && h[k].at + PERIOD == row.expires.value {
        GrowsInPrefix(h, d, k, r);
        assert after[k] == h[k];
      }
    } else {
      forall k: nat ensures !AbsentSince(after, k, r) { if k < |h| { AbsenceGoesOn(h, d, k, r); } }
    }
  }

  /** A listed row is absent no more. */
  lemma ListedRowOk(h: seq<Dated>, d: Dated, r: nat, row: Row)
    requires Lists(d, r) && row.missingSince.None? && row.expires.None?
    ensures RowOk(h + [d], r, row)
  {
    assert (h + [d])[|h|] == d;
    forall k: nat ensures !AbsentSince(h + [d], k, r) { if k < |h| { AbsenceGoesOn(h, d, k, r); } }
  }

  /** The row leaves the schedule with this event. */
  lemma LeavingRowOk(h: seq<Dated>, d: Dated, r: nat, row: Row)
    requires InOrder(h + [d]) && Omits(d, r) && r in Run(h) && Run(h)[r].missingSince.None?
    requires row.missingSince == Some(d.at) && row.expires == Some(d.at + PERIOD)
    ensures RowOk(h + [d], r, row)
  {
    var after := h + [d];
    EarlierQuiet(h, d, r);
    assert after[..|h|] == h && after[|h|] == d;
    assert LeftAt(after, |h|, r);
  }

  lemma EarlierQuiet(h: seq<Dated>, d: Dated, r: nat)
    requires InOrder(h + [d])
    ensures QuietSince(h + [d], r, d.at)
  {
    var after := h + [d];
    forall k | 0 <= k < |after| ensures after[k].at <= d.at { assert after[|h|] == d; }
  }

  lemma UpdateKeeps(h: seq<Dated>, d: Dated, r: nat)
    requires Inv(h) && InOrder(h + [d]) && d.event.Update? && r in Run(h + [d])
    ensures RowOk(h + [d], r, Run(h + [d])[r])
  {
    RunNext(h, d);
    var rows, schedule := Run(h), d.event.schedule;
    var next := Marked(rows, schedule, d.at)[r];
    assert Run(h + [d])[r] == next;
    hide RowOk, LeftAt, AbsentSince;
    if Lists(d, r) { ListedRowOk(h, d, r, next); }
    else {
      assert r in rows && RowOk(h, r, rows[r]);
      if schedule.Some? && rows[r].missingSince.None? { LeavingRowOk(h, d, r, next); }
      else { SameRowOk(h, d, r, rows[r], next); }
    }
  }

  /** A missing row grows: its count starts again now. */
  lemma GrownRowOk(h: seq<Dated>, d: Dated, r: nat, row: Row, next: Row)
    requires RowOk(h, r, row) && row.missingSince.Some? && InOrder(h + [d]) && GrowsAt(h + [d], |h|, r)
    requires next.missingSince == row.missingSince && next.expires == Some(d.at + PERIOD)
    ensures RowOk(h + [d], r, next)
  {
    var after := h + [d];
    EarlierQuiet(h, d, r);
    var k: nat :| LeftAt(h, k, r) && h[k].at == row.missingSince.value;
    AbsenceGoesOn(h, d, k, r);
    assert after[k] == h[k] && after[|h|] == d;
  }

  lemma ObserveKeeps(h: seq<Dated>, d: Dated, r: nat)
    requires Inv(h) && InOrder(h + [d]) && d.event.Observe? && r in Run(h + [d])
    ensures RowOk(h + [d], r, Run(h + [d])[r])
  {
    hide RowOk, Latest;
    RunNext(h, d);
    var rows, after := Run(h), h + [d];
    assert after[..|h|] == h && after[|h|] == d;
    assert r in rows && RowOk(h, r, rows[r]);
    if GrowsAt(after, |h|, r) && rows[r].missingSince.Some? { GrownRowOk(h, d, r, rows[r], Run(after)[r]); }
    else { SameRowOk(h, d, r, rows[r], Run(after)[r]); }
  }

  lemma RemoveKeeps(h: seq<Dated>, d: Dated, r: nat)
    requires Inv(h) && d.event.Remove? && r in Run(h + [d])
    ensures RowOk(h + [d], r, Run(h + [d])[r])
  {
    RunNext(h, d);
    assert (h + [d])[|h|] == d;
    SameRowOk(h, d, r, Run(h)[r], Run(h + [d])[r]);
  }

  /** Every row counts down as it should, after every history with a non-decreasing clock. */
  lemma {:induction false} RowsCountDown(h: seq<Dated>)
    requires InOrder(h)
    ensures Inv(h)
  {
    if h != [] {
      var before, d := h[..|h| - 1], h[|h| - 1];
      RowsCountDown(before);
      assert before + [d] == h;
      forall r | r in Run(h)
        ensures RowOk(h, r, Run(h)[r])
      {
        match d.event
        case Update(_) => UpdateKeeps(before, d, r);
        case Observe(_, _) => ObserveKeeps(before, d, r);
        case Remove(_) => RemoveKeeps(before, d, r);
      }
    }
  }

  /** Seconds in a day. */
  const DAY := 86400

  /** An update at the end of the history drops the release. */
  predicate Drops(h: seq<Dated>, d: Dated, r: nat) {
    d.event.Update? && r in Run(h) && r !in Run(h + [d])
  }

  lemma EarlierInOrder(h: seq<Dated>, n: nat)
    requires InOrder(h) && n <= |h|
    ensures InOrder(h[..n])
  {}

  lemma OrderOfAll(h: seq<Dated>, d: Dated)
    requires InOrder(h + [d])
    ensures InOrder(h) && forall k :: 0 <= k < |h| ==> h[k].at <= d.at
  {
    var after := h + [d];
    assert after[..|h|] == h && after[|h|] == d;
    EarlierInOrder(after, |h|);
    forall k | 0 <= k < |h| ensures h[k].at <= d.at { assert after[k] == h[k]; }
  }

  /**
   A release dropped at some moment was on no readable schedule in the last 14
   days, that moment included, and none of its torrent ids was new in that time.
   */
  lemma DroppedOnlyWhenQuiet(h: seq<Dated>, d: Dated, r: nat)
    requires InOrder(h + [d]) && Drops(h, d, r)
    ensures !Lists(d, r) && QuietSince(h, r, d.at - 14 * DAY)
  {
    OrderOfAll(h, d);
    RowsCountDown(h);
    RunNext(h, d);
    var row := Run(h)[r];
    assert RowOk(h, r, row);
    assert Over(Marked(Run(h), d.event.schedule, d.at)[r], d.at);
  }

  /** No growth of the release is later than 14 days before `now`. */
  ghost predicate NoLateGrowth(h: seq<Dated>, r: nat, now: int) {
    forall k: nat :: k < |h| && GrowsAt(h, k, r) ==> h[k].at + 14 * DAY <= now
  }

  /** The release left the schedule before, or at, every step since which it is absent. */
  lemma LeftFirst(h: seq<Dated>, m: nat, k: nat, r: nat)
    requires InOrder(h) && LeftAt(h, m, r) && AbsentSince(h, k, r)
    ensures m <= k
  {
    if k < m {
      var before := h[..m];
      EarlierInOrder(h, m);
      RowsCountDown(before);
      assert before[..k] == h[..k];
      assert forall j :: 0 <= j < m ==> before[j] == h[j];
      assert RowOk(before, r, Run(before)[r]);
      assert AbsentSince(before, k, r);
      assert false;
    }
  }

  /**
   An update drops a watched release if and only if it does not list it, the
   release left the schedule at least 14 days ago and was neither listed nor
   removed since, and its last new torrent is as old as that too.
   */
  lemma DroppedExactlyWhenOver(h: seq<Dated>, d: Dated, r: nat)
    requires InOrder(h + [d]) && d.event.Update? && r in Run(h)
    ensures Drops(h, d, r) <==>
      !Lists(d, r) && NoLateGrowth(h, r, d.at) && exists k: nat :: LeftAt(h, k, r) && h[k].at + 14 * DAY <= d.at
  {
    OrderOfAll(h, d);
    RowsCountDown(h);
    RunNext(h, d);
    var row := Run(h)[r];
    assert RowOk(h, r, row);
    hide Run, Present, AbsentSince;
    if row.missingSince.Some? {
      var m: nat :| LeftAt(h, m, r) && h[m].at == row.missingSince.value;
      if k: nat :| LeftAt(h, k, r) && h[k].at + PERIOD <= d.at { LeftFirst(h, m, k, r); LeftFirst(h, k, m, r); }
    }
  }

  /** A watched release omitted 14 days ago, with no listing, removal or late growth since, is gone after any update that does not list it. */
  lemma OmittedIsDropped(h: seq<Dated>, d: Dated, k: nat, r: nat)
    requires InOrder(h + [d]) && d.event.Update? && !Lists(d, r)
    requires AbsentSince(h, k, r) && h[k].at + 14 * DAY <= d.at && NoLateGrowth(h, r, d.at)
    ensures r !in Run(h + [d])
  {
    OrderOfAll(h, d);
    RunNext(h, d);
    if r in Run(h) {
      RowsCountDown(h);
      var row := Run(h)[r];
      assert RowOk(h, r, row);
      var m: nat :| LeftAt(h, m, r) && h[m].at == row.missingSince.value;
      LeftFirst(h, m, k, r);
      DroppedExactlyWhenOver(h, d, r);
    }
  }

  // ---- known ids ------------------------------------------------------------------------

  /** The same rows, but for when they were last looked at. */
  ghost predicate SameButChecked(a: map<nat, Row>, b: map<nat, Row>) {
    && a.Keys == b.Keys
    && forall r :: r in a ==> a[r].(lastChecked := None) == b[r].(lastChecked := None)
  }

  lemma ApplyAlike(a: map<nat, Row>, b: map<nat, Row>, d: Dated)
    requires SameButChecked(a, b)
    ensures SameButChecked(Apply(a, d), Apply(b, d))
  {
    match d.event
    case Update(schedule) =>
      MarkedAlike(a, b, schedule, d.at);
      KeptAlike(Marked(a, schedule, d.at), Marked(b, schedule, d.at), d.at);
    case Observe(release, ids) =>
    case Remove(release) =>
  }

  lemma MarkedAlike(a: map<nat, Row>, b: map<nat, Row>, schedule: Option<seq<Entry>>, now: int)
    requires SameButChecked(a, b)
    ensures SameButChecked(Marked(a, schedule, now), Marked(b, schedule, now))
  {
    hide AliasAfter;
  }

  lemma KeptAlike(a: map<nat, Row>, b: map<nat, Row>, now: int)
    requires SameButChecked(a, b)
    ensures SameButChecked(Kept(a, now), Kept(b, now))
  {
    assert forall r :: r in a ==> (Over(a[r], now) <==> Over(b[r], now));
  }

  /**
   Looking at ids that are not new, or at a release that is not watched, changes
   nothing of what follows: whatever happens afterwards, the same releases are
   watched with the same deadlines as without it.
   */
  lemma {:induction false} KnownIdsChangeNoDeadline(h: seq<Dated>, release: nat, ids: seq<int>, at: int, rest: seq<Dated>)
    requires !Grows(Run(h), release, ids)
    ensures SameButChecked(Run(h + [Dated(Observe(release, ids), at)] + rest), Run(h + rest))
  {
    var seen := h + [Dated(Observe(release, ids), at)];
    if rest == [] {
      RunNext(h, Dated(Observe(release, ids), at));
      assert seen + rest == seen && h + rest == h;
    } else {
      var before, d := rest[..|rest| - 1], rest[|rest| - 1];
      KnownIdsChangeNoDeadline(h, release, ids, at, before);
      assert seen + rest == seen + before + [d] && h + rest == h + before + [d];
      RunNext(seen + before, d);
      RunNext(h + before, d);
      ApplyAlike(Run(seen + before), Run(h + before), d);
    }
  }
}
