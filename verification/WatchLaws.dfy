/** What a watched row remembers of its history. */
module WatchLaws {
  import opened Json
  import opened OngoingWatch
  import opened WatchRuns

  /** The `n`-th entry names the release with an alias, and no later one does. */
  ghost predicate LastNamed(schedule: seq<Entry>, r: nat, n: nat) {
    && n < |schedule| && schedule[n].release == r && schedule[n].alias != ""
    && forall k :: n < k < |schedule| && schedule[k].release == r ==> schedule[k].alias == ""
  }

  /** The alias is the last one the schedule gives. */
  lemma {:induction false} AliasIsLastNamed(schedule: seq<Entry>, r: nat, alias: string, n: nat)
    requires LastNamed(schedule, r, n)
    ensures AliasAfter(schedule, r, alias) == schedule[n].alias
  {
    var m := |schedule| - 1;
    if n < m { AliasIsLastNamed(schedule[..m], r, alias, n); }
  }

  /** Without one it stays as it was. */
  lemma {:induction false} AliasStays(schedule: seq<Entry>, r: nat, alias: string)
    requires forall k :: 0 <= k < |schedule| && schedule[k].release == r ==> schedule[k].alias == ""
    ensures AliasAfter(schedule, r, alias) == alias
  {
    if schedule != [] { AliasStays(schedule[..|schedule| - 1], r, alias); }
  }

  /**
   After an update with a readable schedule, every listed release is watched, as
   seen now and not counting down, with the ids it had; a missing one keeps what
   it had but for its count, which starts now unless it is running.
   */
  lemma UpdatedRow(rows: map<nat, Row>, schedule: seq<Entry>, now: int, r: nat)
    ensures var next := Kept(Marked(rows, Some(schedule), now), now);
      (exists n :: 0 <= n < |schedule| && schedule[n].release == r) ==>
        && r in next
        && next[r].lastSeen == now && next[r].missingSince.None? && next[r].expires.None?
        && next[r].maxId == (if r in rows then rows[r].maxId else 0)
        && next[r].lastChecked == (if r in rows then rows[r].lastChecked else None)
        && next[r].alias == AliasAfter(schedule, r, if r in rows then rows[r].alias else "")
    ensures var next := Kept(Marked(rows, Some(schedule), now), now);
      (forall n :: 0 <= n < |schedule| ==> schedule[n].release != r) && r in next ==>
        && r in rows && next[r].alias == rows[r].alias && next[r].lastSeen == rows[r].lastSeen && next[r].maxId == rows[r].maxId
        && next[r].lastChecked == rows[r].lastChecked
        && next[r].missingSince == (if rows[r].missingSince.Some? then rows[r].missingSince else Some(now))
        && next[r].expires == (if rows[r].missingSince.Some? then rows[r].expires else Some(now + 14 * DAY))
  {
    PresentMeans(schedule, r);
    hide Present, AliasAfter;
  }

  lemma PresentMeans(schedule: seq<Entry>, r: nat)
    ensures r in Present(schedule) <==> exists n :: 0 <= n < |schedule| && schedule[n].release == r
  {
    if n :| 0 <= n < |schedule| && schedule[n].release == r { assert schedule[n] in schedule; }
  }

  // ---- torrent ids ------------------------------------------------------------------------

  /** The row of the release began after `s` steps and is still the same one. */
  ghost predicate WatchedSince(h: seq<Dated>, s: nat, r: nat) {
    && s < |h| && r !in Run(h[..s]) && forall j :: s < j <= |h| ==> r in Run(h[..j])
  }

  /** Step `k` saw that torrent id. */
  predicate Saw(h: seq<Dated>, k: nat, r: nat, id: int) {
    k < |h| && h[k].event.Observe? && h[k].event.release == r && id in h[k].event.ids
  }

  /** `m` is the largest id seen since step `s`, or 0 if none is larger than that. */
  ghost predicate LargestSeen(h: seq<Dated>, s: nat, r: nat, m: int) {
    && (forall k, id :: s <= k && Saw(h, k, r, id) ==> id <= m)
    && m >= 0 && (m == 0 || exists k :: s <= k && Saw(h, k, r, m))
  }

  lemma ShorterHistory(h: seq<Dated>, s: nat, r: nat)
    requires h != [] && WatchedSince(h, s, r)
    ensures s < |h| - 1 ==> WatchedSince(h[..|h| - 1], s, r) && r in Run(h[..|h| - 1])
    ensures r in Run(h) && Run(h) == Apply(Run(h[..|h| - 1]), h[|h| - 1])
  {
    var before := h[..|h| - 1];
    assert h[..|h|] == h;
    forall j | 0 <= j <= |before| ensures before[..j] == h[..j] {}
  }

  /** One step of a row that stays: its largest id grows exactly with the ids it sees. */
  lemma MaxIdStep(rows: map<nat, Row>, d: Dated, r: nat)
    requires r in rows && r in Apply(rows, d) && rows[r].maxId >= 0
    ensures var ids := if d.event.Observe? && d.event.release == r then d.event.ids else [];
      Apply(rows, d)[r].maxId == if ids != [] && rows[r].maxId < Latest(ids) then Latest(ids) else rows[r].maxId
  {
    hide AliasAfter, Present;
  }

  /** A row begins without an id. */
  lemma FirstId(rows: map<nat, Row>, d: Dated, r: nat)
    requires r !in rows && r in Apply(rows, d)
    ensures Apply(rows, d)[r].maxId == 0 && !d.event.Observe?
  {
    hide AliasAfter, Present;
  }

  lemma SeenEarlier(h: seq<Dated>, r: nat)
    requires h != []
    ensures forall k: nat, id :: k < |h| - 1 ==> (Saw(h, k, r, id) <==> Saw(h[..|h| - 1], k, r, id))
  {}

  /**
   As long as a release stays watched, its row holds the largest torrent id seen
   since the row began: an id once seen, or a smaller one, never counts as new
   again, whatever was seen in between.
   */
  lemma {:induction false} HoldsLargestId(h: seq<Dated>, s: nat, r: nat)
    requires WatchedSince(h, s, r)
    ensures r in Run(h) && LargestSeen(h, s, r, Run(h)[r].maxId)
  {
    var n := |h| - 1;
    var d := h[n];
    ShorterHistory(h, s, r);
    hide WatchedSince, Run;
    if s == n {
      BeganNow(h, s, r);
      FirstId(Run(h[..n]), d, r);
    } else {
      HoldsLargestId(h[..n], s, r);
      MaxIdStep(Run(h[..n]), d, r);
      SeenEarlier(h, r);
      NextLargest(h, s, r, Run(h[..n])[r].maxId, Run(h)[r].maxId);
    }
  }

  lemma BeganNow(h: seq<Dated>, s: nat, r: nat)
    requires WatchedSince(h, s, r) && s == |h| - 1
    ensures r !in Run(h[..s])
  {}

  lemma NextLargest(h: seq<Dated>, s: nat, r: nat, before: int, after: int)
    requires h != [] && LargestSeen(h[..|h| - 1], s, r, before) && s < |h| - 1
    requires forall k: nat, id :: k < |h| - 1 ==> (Saw(h, k, r, id) <==> Saw(h[..|h| - 1], k, r, id))
    requires var d := h[|h| - 1];
      var ids := if d.event.Observe? && d.event.release == r then d.event.ids else [];
      after == if ids != [] && before < Latest(ids) then Latest(ids) else before
    ensures LargestSeen(h, s, r, after)
  {
    var n := |h| - 1;
    var d := h[n];
    var ids := if d.event.Observe? && d.event.release == r then d.event.ids else [];
    assert forall id :: Saw(h, n, r, id) <==> id in ids;
    hide Latest;
    LatestIs(ids);
    if after == before {
      if before != 0 { var k :| s <= k && Saw(h[..n], k, r, before); assert Saw(h, k, r, before); }
    } else { assert Saw(h, n, r, after); }
  }

  lemma LatestIs(ids: seq<int>)
    ensures ids != [] ==> Latest(ids) in ids && forall i :: i in ids ==> i <= Latest(ids)
  {}

  /** While a release stays watched, a step is a growth exactly if it sees an id above 0 and above all seen before. */
  lemma GrowsExactlyWhen(h: seq<Dated>, s: nat, r: nat, ids: seq<int>)
    requires WatchedSince(h, s, r)
    ensures Grows(Run(h), r, ids) <==>
      exists id :: id in ids && id > 0 && forall k, earlier :: s <= k && Saw(h, k, r, earlier) ==> earlier < id
  {
    HoldsLargestId(h, s, r);
    hide Run, WatchedSince, Latest;
    LatestIs(ids);
    var m := Run(h)[r].maxId;
    if Grows(Run(h), r, ids) {
      EmptyLatest(ids);
      assert Latest(ids) in ids;
    }
  }

  lemma EmptyLatest(ids: seq<int>)
    ensures ids == [] ==> Latest(ids) == 0
  {}
}
