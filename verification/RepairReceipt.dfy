/** `repair_saved_receipt`: a saved acknowledgement read again, without contacting the encoder. */
module RepairReceipt {
  import opened Json
  import opened EncoderHistory
  import opened SettleLemmas
  import SettleResponse

  /** Positions of the files that were posted, in order. */
  function Posted(items: seq<Item>): (r: seq<nat>)
    ensures forall k :: 0 <= k < |r| ==> r[k] < |items| && items[r[k]].status != NotSent
    ensures forall i, j :: 0 <= i < j < |r| ==> r[i] < r[j]
    ensures forall i :: 0 <= i < |items| && items[i].status != NotSent ==> i in r
  {
    if items == [] then []
    else
      var n := |items| - 1;
      Posted(items[..n]) + (if items[n].status != NotSent then [n] else [])
  }

  predicate Eligible(item: Item) {
    item.status == Unknown && item.error == Unconfirmed
  }

  /** The file as it was when the request was posted. */
  function Probe(items: seq<Item>): (r: seq<Item>)
    ensures |r| == |Posted(items)|
    ensures forall k :: 0 <= k < |r| ==>
      r[k] == items[Posted(items)[k]].(status := Sending, error := NoNote, jobIds := {})
  {
    var at := Posted(items);
    seq(|at|, k requires 0 <= k < |at| => items[at[k]].(status := Sending, error := NoNote, jobIds := {}))
  }

  function RepairOne(item: Item, parsed: Item): Item {
    if Eligible(item) && parsed.status == Accepted && parsed.jobIds != {}
    then item.(status := Accepted, jobIds := parsed.jobIds, error := NoNote)
    else item
  }

  /** Only a finished, started receipt with a saved 200/207 reply may be repaired. */
  predicate Repairable(finished: bool, started: bool, code: Option<int>, response: Json) {
    finished && started && code.Some? && code.value in ENCODER_CODES && response.Obj?
  }

  function Repaired(items: seq<Item>, code: int, response: Json): (r: seq<Item>)
    ensures |r| == |items|
  {
    var at, parsed := Posted(items), Parse(Probe(items), code, response);
    Patch(items, at, seq(|at|, k requires 0 <= k < |at| => RepairOne(items[at[k]], parsed[k])))
  }

  lemma RepairedAt(items: seq<Item>, code: int, response: Json)
    ensures forall k :: 0 <= k < |Posted(items)| ==>
      Repaired(items, code, response)[Posted(items)[k]] ==
      RepairOne(items[Posted(items)[k]], Parse(Probe(items), code, response)[k])
    ensures forall i :: 0 <= i < |items| && items[i].status == NotSent ==> Repaired(items, code, response)[i] == items[i]
  {
    var at, parsed := Posted(items), Parse(Probe(items), code, response);
    PatchAt(items, at, seq(|at|, k requires 0 <= k < |at| => RepairOne(items[at[k]], parsed[k])));
  }

  lemma {:induction false} OpenAllAt(items: seq<Item>)
    requires forall i :: 0 <= i < |items| ==> items[i].status == Sending
    ensures |Open(items)| == |items| && forall i :: 0 <= i < |items| ==> Open(items)[i] == i
  {
    if items != [] { OpenAllAt(items[..|items| - 1]); }
  }

  lemma OpenAll(items: seq<Item>)
    requires forall i :: 0 <= i < |items| ==> items[i].status == Sending
    ensures |Open(items)| == |items| && forall i :: 0 <= i < |items| ==> Open(items)[i] == i
    ensures Sent(items) == items
  {
    hide Open;
    OpenAllAt(items);
  }

  method RepairSavedReceipt(items: seq<Item>, finished: bool, started: bool, code: Option<int>, response: Json)
    returns (out: seq<Item>, repaired: seq<int>)
    requires forall i, j :: 0 <= i < j < |items| ==> items[i].fileId != items[j].fileId
    ensures out == if Repairable(finished, started, code, response) then Repaired(items, code.value, response) else items
    ensures forall id :: id in repaired <==>
      exists i :: 0 <= i < |items| && items[i].fileId == id && out[i] != items[i]
  {
    out, repaired := items, [];
    if !Repairable(finished, started, code, response) {
      return;
    }
    if !exists i :: 0 <= i < |items| && Eligible(items[i]) {
      NoneEligible(items, code.value, response);
      return;
    }
    var parsed := ReadAgain(items, code.value, response);
    out, repaired := ApplyRepairs(items, Posted(items), parsed);
    RepairsApplied(items, out, code.value, response);
  }

  /** The saved reply, parsed against the whole posted scope. */
  method ReadAgain(items: seq<Item>, code: int, response: Json) returns (parsed: seq<Item>)
    requires forall i, j :: 0 <= i < j < |items| ==> items[i].fileId != items[j].fileId
    ensures parsed == Parse(Probe(items), code, response)
  {
    var probe := Probe(items);
    parsed := SettleResponse.SettleResponse(probe, code, response);
    OpenAll(probe);
    SettledAt(probe, code, response);
  }

  lemma RepairsApplied(items: seq<Item>, out: seq<Item>, code: int, response: Json)
    requires |out| == |items|
    requires forall k :: 0 <= k < |Posted(items)| ==>
      out[Posted(items)[k]] == RepairOne(items[Posted(items)[k]], Parse(Probe(items), code, response)[k])
    requires forall i :: 0 <= i < |items| && i !in Posted(items) ==> out[i] == items[i]
    ensures out == Repaired(items, code, response)
  {
    RepairedAt(items, code, response);
    var at := Posted(items);
    forall i | 0 <= i < |items|
      ensures out[i] == Repaired(items, code, response)[i]
    {
      if items[i].status != NotSent {
        assert i in at;
      }
    }
  }

  /** The loop over the posted files and their freshly parsed copies. */
  method ApplyRepairs(items: seq<Item>, at: seq<nat>, parsed: seq<Item>) returns (out: seq<Item>, repaired: seq<int>)
    requires |at| == |parsed|
    requires forall k :: 0 <= k < |at| ==> at[k] < |items|
    requires forall i, j :: 0 <= i < j < |at| ==> at[i] < at[j]
    ensures |out| == |items|
    ensures forall k :: 0 <= k < |at| ==> out[at[k]] == RepairOne(items[at[k]], parsed[k])
    ensures forall i :: 0 <= i < |items| && i !in at ==> out[i] == items[i]
    ensures forall id :: id in repaired <==>
      exists i :: 0 <= i < |items| && items[i].fileId == id && out[i] != items[i]
  {
    out, repaired := items, [];
    for k := 0 to |at|
      invariant |out| == |items|
      invariant forall j :: 0 <= j < k ==> out[at[j]] == RepairOne(items[at[j]], parsed[j])
      invariant forall i :: 0 <= i < |items| && i !in at[..k] ==> out[i] == items[i]
      invariant forall id :: id in repaired ==>
        exists i :: 0 <= i < |items| && items[i].fileId == id && out[i] != items[i]
      invariant forall i :: 0 <= i < |items| && out[i] != items[i] ==> items[i].fileId in repaired
    {
      var i := at[k];
      assert at[..k + 1] == at[..k] + [i];
      assert i !in at[..k];
      if Eligible(items[i]) && parsed[k].status == Accepted && parsed[k].jobIds != {} {
        ghost var before := out;
        out := out[i := items[i].(status := Accepted, jobIds := parsed[k].jobIds, error := NoNote)];
        repaired := repaired + [items[i].fileId];
        assert out[i] != items[i];
        assert forall j :: 0 <= j < |items| && before[j] != items[j] ==> out[j] != items[j];
      }
    }
    assert at[..|at|] == at;
  }

  lemma NoneEligible(items: seq<Item>, code: int, response: Json)
    requires forall i :: 0 <= i < |items| ==> !Eligible(items[i])
    ensures Repaired(items, code, response) == items
  {
    RepairedAt(items, code, response);
    forall i | 0 <= i < |items|
      ensures Repaired(items, code, response)[i] == items[i]
    {
      if items[i].status != NotSent {
        assert i in Posted(items);
      }
    }
  }

  // ---- what repair promises ---------------------------------------------------

  /** Repair only turns eligible unknown files into accepted ones that carry job ids. */
  lemma RepairOnlyAccepts(items: seq<Item>, code: int, response: Json, i: nat)
    requires i < |items|
    ensures var r := Repaired(items, code, response)[i];
      r == items[i] ||
      (Eligible(items[i]) && r.status == Accepted && r.jobIds != {} &&
       r == items[i].(status := Accepted, jobIds := r.jobIds, error := NoNote))
  {
    RepairedAt(items, code, response);
    if items[i].status != NotSent {
      assert i in Posted(items);
    }
  }

  lemma {:induction false} PostedByStatus(a: seq<Item>, b: seq<Item>)
    requires |a| == |b|
    requires forall i :: 0 <= i < |a| ==> (a[i].status == NotSent <==> b[i].status == NotSent)
    ensures Posted(a) == Posted(b)
  {
    if a != [] {
      PostedByStatus(a[..|a| - 1], b[..|b| - 1]);
    }
  }

  /** Where a posted file stands among the posted ones. */
  lemma PostedIndex(items: seq<Item>, i: nat) returns (k: nat)
    requires i < |items| && items[i].status != NotSent
    ensures k < |Posted(items)| && Posted(items)[k] == i
  {
    assert i in Posted(items);
    k :| 0 <= k < |Posted(items)| && Posted(items)[k] == i;
  }

  lemma RepairedAgain(items: seq<Item>, once: seq<Item>, code: int, response: Json, i: nat)
    requires once == Repaired(items, code, response) && i < |items|
    requires Posted(once) == Posted(items) && Probe(once) == Probe(items)
    ensures Repaired(once, code, response)[i] == once[i]
  {
    hide Repaired, Parse, RepairOne, Probe;
    RepairedAt(items, code, response);
    RepairedAt(once, code, response);
    var parsed := Parse(Probe(items), code, response);
    if once[i].status != NotSent {
      var k := PostedIndex(once, i);
      RepairOneTwice(items[i], parsed[k]);
      assert once[Posted(items)[k]] == RepairOne(items[i], parsed[k]);
      assert Repaired(once, code, response)[Posted(once)[k]] == RepairOne(once[i], parsed[k]);
    }
  }

  /** Repair leaves the posted scope and its files' paths as they were. */
  lemma SameProbe(items: seq<Item>, once: seq<Item>, code: int, response: Json)
    requires once == Repaired(items, code, response)
    ensures Posted(once) == Posted(items) && Probe(once) == Probe(items)
  {
    hide Repaired;
    forall i | 0 <= i < |items|
      ensures once[i].(status := Sending, error := NoNote, jobIds := {}) == items[i].(status := Sending, error := NoNote, jobIds := {})
      ensures once[i].status == NotSent <==> items[i].status == NotSent
    {
      RepairOnlyAccepts(items, code, response, i);
    }
    PostedByStatus(items, once);
  }

  /** A second repair changes nothing. */
  lemma RepairTwice(items: seq<Item>, code: int, response: Json)
    ensures Repaired(Repaired(items, code, response), code, response) == Repaired(items, code, response)
  {
    hide Repaired, Probe, Posted;
    var once := Repaired(items, code, response);
    SameProbe(items, once, code, response);
    forall i | 0 <= i < |items|
      ensures Repaired(once, code, response)[i] == once[i]
    {
      RepairedAgain(items, once, code, response, i);
    }
  }

  lemma RepairOneTwice(item: Item, parsed: Item)
    ensures RepairOne(RepairOne(item, parsed), parsed) == RepairOne(item, parsed)
  {}

  lemma {:induction false} PostedWereOpen(items: seq<Item>, out: seq<Item>)
    requires |items| == |out|
    requires forall i :: 0 <= i < |items| ==>
      items[i].status in {Sending, NotSent} && (items[i].status == NotSent <==> out[i].status == NotSent)
    ensures Posted(out) == Open(items)
  {
    if items != [] {
      PostedWereOpen(items[..|items| - 1], out[..|out| - 1]);
    }
  }

  lemma SameReading(paths: seq<string>, code: int, body: Json)
    ensures Read(paths, code, Payload(body)) == Read(paths, code, body)
  {}

  /** Reading the saved reply again gives every posted file the status and the ids it has. */
  lemma ProbeSettlesAlike(items: seq<Item>, code: int, body: Json)
    requires forall i :: 0 <= i < |items| ==> items[i].status in {Sending, NotSent}
    ensures var out := Settled(items, code, body);
      var parsed := Parse(Probe(out), code, Payload(body));
      |out| == |items| && Posted(out) == Open(items) &&
      forall k :: 0 <= k < |Posted(out)| ==>
        out[Posted(out)[k]].status == parsed[k].status &&
        (items[Open(items)[k]].jobIds == {} ==> out[Posted(out)[k]].jobIds == parsed[k].jobIds)
  {
    var out, sent := Settled(items, code, body), Sent(items);
    OnlySendingFilesSettle(items, code, body);
    SettledAt(items, code, body);
    hide Settled;
    PostedWereOpen(items, out);
    var probe := Probe(out);
    assert Paths(sent) == Paths(probe);
    SameReading(Paths(probe), code, body);
    hide Read, Verdicts;
    VerdictsByEntries(sent, probe, Read(Paths(sent), code, body), Read(Paths(sent), code, body));
  }

  /** Right after settlement, with the reply saved unabridged, there is nothing to repair. */
  lemma SettlementNeedsNoRepair(items: seq<Item>, code: int, body: Json)
    requires forall i :: 0 <= i < |items| ==> items[i].status in {Sending, NotSent}
    ensures var out := Settled(items, code, body);
      Repaired(out, code, Payload(body)) == out
  {
    hide Settled, Repaired, Parse, Probe, Posted;
    var out := Settled(items, code, body);
    ProbeSettlesAlike(items, code, body);
    RepairedAt(out, code, Payload(body));
    forall i | 0 <= i < |out|
      ensures Repaired(out, code, Payload(body))[i] == out[i]
    {
      if out[i].status != NotSent { var k := PostedIndex(out, i); }
    }
  }
}
