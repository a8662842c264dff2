/**
 The watch list of ongoing releases (backend/app/services/ongoing_watch.py): a release that left
 the schedule is watched for 14 more days, counted from its last new torrent.
 */
module OngoingWatch {
  import opened Json

  const PERIOD := 14 * 24 * 3600

  datatype Entry = Entry(release: nat, alias: string)

  /** `maxId` is 0 until a torrent was seen. */
  datatype Row = Row(alias: string, lastSeen: int, missingSince: Option<int>, expires: Option<int>, maxId: int, lastChecked: Option<int>)

  // ---- what the loops are for ------------------------------------------------------

  function Present(schedule: seq<Entry>): set<nat> {
    set e | e in schedule :: e.release
  }

  /** The last non-empty alias the schedule gives, or the one the row had. */
  function AliasAfter(schedule: seq<Entry>, r: nat, alias: string): string {
    if schedule == [] then alias
    else
      var last := schedule[|schedule| - 1];
      if last.release == r && last.alias != "" then last.alias else AliasAfter(schedule[..|schedule| - 1], r, alias)
  }

  function Found(rows: map<nat, Row>, r: nat, now: int): Row {
    if r in rows then rows[r] else Row("", now, None, None, 0, None)
  }

  function Listed(rows: map<nat, Row>, schedule: seq<Entry>, r: nat, now: int): Row {
    var row := Found(rows, r, now);
    row.(alias := AliasAfter(schedule, r, row.alias), lastSeen := now, missingSince := None, expires := None)
  }

  function Missed(row: Row, now: int): Row {
    if row.missingSince.None? then row.(missingSince := Some(now), expires := Some(now + PERIOD)) else row
  }

  function Marked(rows: map<nat, Row>, schedule: Option<seq<Entry>>, now: int): map<nat, Row> {
    if schedule.None? then rows
    else
      map r | r in rows.Keys + Present(schedule.value) ::
        if r in Present(schedule.value) then Listed(rows, schedule.value, r, now) else Missed(rows[r], now)
  }

  predicate Over(row: Row, now: int) {
    row.expires.Some? && row.expires.value <= now
  }

  function Kept(rows: map<nat, Row>, now: int): map<nat, Row> {
    map r | r in rows && !Over(rows[r], now) :: rows[r]
  }

  function Latest(ids: seq<int>): (m: int)
    ensures ids == [] ==> m == 0
    ensures ids != [] ==> m in ids && forall i :: i in ids ==> i <= m
  {
    if ids == [] then 0
    else if |ids| == 1 then ids[0]
    else
      var m := Latest(ids[..|ids| - 1]);
      assert forall i :: i in ids ==> i in ids[..|ids| - 1] || i == ids[|ids| - 1];
      if m < ids[|ids| - 1] then ids[|ids| - 1] else m
  }

  predicate Grows(rows: map<nat, Row>, r: nat, ids: seq<int>) {
    r in rows && rows[r].maxId < Latest(ids)
  }

  function Checked(rows: map<nat, Row>, r: nat, ids: seq<int>, now: int): map<nat, Row> {
    if r !in rows then rows
    else
      var row := rows[r].(lastChecked := Some(now));
      rows[r := if !Grows(rows, r, ids) then row
                else row.(maxId := Latest(ids), expires := if row.missingSince.Some? then Some(now + PERIOD) else row.expires)]
  }

  class WatchList {
    var rows: map<nat, Row>

    constructor ()
      ensures rows == map[]
    {
      rows := map[];
    }

    /** The listed releases get their rows; nothing else changes. */
    method MarkListed(schedule: seq<Entry>, now: int)
      modifies this
      ensures rows.Keys == old(rows).Keys + Present(schedule)
      ensures forall r :: r in rows ==>
        rows[r] == if r in Present(schedule) then Listed(old(rows), schedule, r, now) else old(rows)[r]
    {
      var n := 0;
      while n < |schedule|
        invariant n <= |schedule| && rows.Keys == old(rows).Keys + Present(schedule[..n])
        invariant forall r :: r in rows ==>
          rows[r] == if r in Present(schedule[..n]) then Listed(old(rows), schedule[..n], r, now) else old(rows)[r]
      {
        var ref := schedule[n];
        assert schedule[..n + 1][..n] == schedule[..n];
        PresentNext(schedule[..n], ref);
        assert schedule[..n + 1] == schedule[..n] + [ref];
        var row := if ref.release in rows then rows[ref.release] else Row("", now, None, None, 0, None);
        if ref.alias != "" { row := row.(alias := ref.alias); }
        AliasUnlisted(schedule[..n], ref.release, Found(old(rows), ref.release, now).alias);
        rows := rows[ref.release := row.(lastSeen := now, missingSince := None, expires := None)];
        n := n + 1;
      }
      assert schedule[..n] == schedule;
    }

    /** Rows that are not in the schedule start to count down, once. */
    method MarkMissing(present: set<nat>, now: int)
      modifies this
      ensures rows.Keys == old(rows).Keys
      ensures forall r :: r in rows ==> rows[r] == if r in present then old(rows)[r] else Missed(old(rows)[r], now)
    {
      var left: set<nat> := rows.Keys;
      while left != {}
        invariant left <= rows.Keys == old(rows).Keys
        invariant forall r :: r in rows ==>
          rows[r] == if r in present || r in left then old(rows)[r] else Missed(old(rows)[r], now)
        decreases left
      {
        NonEmpty(left);
        var r :| r in left;
        if r !in present && rows[r].missingSince.None? {
          rows := rows[r := rows[r].(missingSince := Some(now), expires := Some(now + PERIOD))];
        }
        left := left - {r};
      }
    }

    /** Rows whose time is over are deleted and counted, the others are returned. */
    method DropOver(now: int) returns (retained: set<Entry>, expired: nat)
      modifies this
      ensures rows == Kept(old(rows), now)
      ensures retained == set r | r in rows :: Entry(r, rows[r].alias)
      ensures expired == |old(rows).Keys - rows.Keys|
    {
      ghost var marked := rows;
      hide Dropping, RetainedBut, Over;
      NothingDropped(rows, now);
      retained, expired := {}, 0;
      var left: set<nat> := rows.Keys;
      while left != {}
        invariant left <= rows.Keys && Dropping(marked, rows, left, now) && expired == |marked.Keys - rows.Keys|
        invariant RetainedBut(rows, left, retained)
        decreases left
      {
        NonEmpty(left);
        var r :| r in left;
        DropStep(marked, rows, left, now, r);
        RetainStep(rows, left, retained, r);
        var row := rows[r];
        left := left - {r};
        if row.expires.Some? && row.expires.value <= now {
          OneLess(marked.Keys, rows.Keys, r);
          rows := rows - {r};
          expired := expired + 1;
        } else {
          retained := retained + {Entry(r, row.alias)};
        }
      }
      AllDropped(marked, rows, now);
      AllRetained(rows, retained);
    }

    /** `update_watch_list`; no schedule means that it could not be read. */
    method Update(schedule: Option<seq<Entry>>, now: int) returns (retained: set<Entry>, expired: nat)
      modifies this
      ensures rows == Kept(Marked(old(rows), schedule, now), now)
      ensures retained == set r | r in rows :: Entry(r, rows[r].alias)
      ensures expired == |Marked(old(rows), schedule, now).Keys - rows.Keys|
    {
      if schedule.Some? {
        MarkListed(schedule.value, now);
        MarkMissing(Present(schedule.value), now);
      }
      MarkedPointwise(old(rows), rows, schedule, now);
      retained, expired := DropOver(now);
    }

    /** `observe_torrents` */
    method Observe(release: nat, ids: seq<int>, now: int) returns (prolonged: bool)
      modifies this
      ensures rows == Checked(old(rows), release, ids, now)
      ensures prolonged <==> Grows(old(rows), release, ids) && old(rows)[release].missingSince.Some?
    {
      if release !in rows { return false; }
      var row := rows[release];
      var latest := 0;
      var n := 0;
      while n < |ids|
        invariant n <= |ids| && latest == Latest(ids[..n])
      {
        assert ids[..n + 1][..n] == ids[..n];
        if n == 0 || latest < ids[n] { latest := ids[n]; }
        n := n + 1;
      }
      assert ids[..n] == ids;
      var grown := row.maxId < latest;
      if grown {
        row := row.(maxId := latest);
        if row.missingSince.Some? { row := row.(expires := Some(now + PERIOD)); }
      }
      rows := rows[release := row.(lastChecked := Some(now))];
      prolonged := grown && row.missingSince.Some?;
    }

    /** `remove_from_watch` */
    method Remove(release: nat) returns (removed: bool)
      modifies this
      ensures removed <==> release in old(rows)
      ensures rows == old(rows) - {release}
    {
      removed := release in rows;
      if removed { rows := rows - {release}; }
    }
  }

  /** The rows after marking, release by release. */
  lemma MarkedPointwise(before: map<nat, Row>, after: map<nat, Row>, schedule: Option<seq<Entry>>, now: int)
    requires schedule.None? ==> after == before
    requires schedule.Some? ==> after.Keys == before.Keys + Present(schedule.value)
    requires schedule.Some? ==> forall r :: r in after ==>
      after[r] == if r in Present(schedule.value) then Listed(before, schedule.value, r, now) else Missed(before[r], now)
    ensures after == Marked(before, schedule, now)
  {
    hide Listed, Missed, Present;
  }

  lemma NonEmpty(s: set<nat>)
    requires s != {}
    ensures exists r :: r in s
  {
    assert |s| > 0;
  }

  /** All rows but those in `left` were looked at: they are there exactly if their time is not over. */
  ghost predicate Dropping(marked: map<nat, Row>, rows: map<nat, Row>, left: set<nat>, now: int) {
    && rows.Keys <= marked.Keys && (forall r :: r in rows ==> rows[r] == marked[r])
    && forall r :: r in marked ==> (r in rows <==> r in left || !Over(marked[r], now))
  }

  /** The entries of all rows that were looked at and kept. */
  ghost predicate RetainedBut(rows: map<nat, Row>, left: set<nat>, retained: set<Entry>) {
    forall e :: e in retained <==> e.release in rows && e.release !in left && e.alias == rows[e.release].alias
  }

  lemma NothingDropped(rows: map<nat, Row>, now: int)
    ensures Dropping(rows, rows, rows.Keys, now) && RetainedBut(rows, rows.Keys, {}) && |rows.Keys - rows.Keys| == 0
  {
    assert rows.Keys - rows.Keys == {};
  }

  lemma DropStep(marked: map<nat, Row>, rows: map<nat, Row>, left: set<nat>, now: int, r: nat)
    requires Dropping(marked, rows, left, now) && r in left && left <= rows.Keys
    ensures rows.Keys <= marked.Keys && r in rows
    ensures Dropping(marked, if rows[r].expires.Some? && rows[r].expires.value <= now then rows - {r} else rows, left - {r}, now)
  {}

  lemma RetainStep(rows: map<nat, Row>, left: set<nat>, retained: set<Entry>, r: nat)
    requires RetainedBut(rows, left, retained) && r in left && left <= rows.Keys
    ensures RetainedBut(rows - {r}, left - {r}, retained)
    ensures RetainedBut(rows, left - {r}, retained + {Entry(r, rows[r].alias)})
  {}

  lemma AllRetained(rows: map<nat, Row>, retained: set<Entry>)
    requires RetainedBut(rows, {}, retained)
    ensures retained == set r | r in rows :: Entry(r, rows[r].alias)
  {
    forall e ensures e in retained <==> e in set r | r in rows :: Entry(r, rows[r].alias) {
      if e.release in rows { assert Entry(e.release, rows[e.release].alias) == e <==> e.alias == rows[e.release].alias; }
    }
  }

  lemma AllDropped(marked: map<nat, Row>, rows: map<nat, Row>, now: int)
    requires Dropping(marked, rows, {}, now)
    ensures rows == Kept(marked, now)
  {
    assert rows.Keys == Kept(marked, now).Keys;
  }

  lemma OneLess(all: set<nat>, rest: set<nat>, r: nat)
    requires r in rest && rest <= all
    ensures |all - (rest - {r})| == |all - rest| + 1
  {
    assert all - (rest - {r}) == (all - rest) + {r};
  }

  lemma PresentNext(before: seq<Entry>, e: Entry)
    ensures Present(before + [e]) == Present(before) + {e.release}
  {}

  lemma {:induction false} AliasUnlisted(schedule: seq<Entry>, r: nat, alias: string)
    ensures r !in Present(schedule) ==> AliasAfter(schedule, r, alias) == alias
  {
    if schedule != [] {
      var last := schedule[|schedule| - 1];
      assert schedule == schedule[..|schedule| - 1] + [last];
      PresentNext(schedule[..|schedule| - 1], last);
      AliasUnlisted(schedule[..|schedule| - 1], r, alias);
    }
  }
}
