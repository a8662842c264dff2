/** When a saved reply repairs a file, told by settling the receipt afresh. */
module RepairLaws {
  import opened Json
  import opened EncoderHistory
  import opened SettleLemmas
  import opened RepairReceipt

  /** The receipt as it was when its request was posted: every posted file pending, with a clean note and no job. */
  function Fresh(items: seq<Item>): (r: seq<Item>)
    ensures |r| == |items|
    ensures forall i :: 0 <= i < |items| ==>
      r[i] == if items[i].status == NotSent then items[i] else items[i].(status := Sending, error := NoNote, jobIds := {})
  {
    seq(|items|, i requires 0 <= i < |items| =>
      if items[i].status == NotSent then items[i] else items[i].(status := Sending, error := NoNote, jobIds := {}))
  }

  lemma {:induction false} FreshOpen(items: seq<Item>)
    ensures Open(Fresh(items)) == Posted(items)
  {
    if items != [] {
      FreshOpen(items[..|items| - 1]);
      assert Fresh(items)[..|items| - 1] == Fresh(items[..|items| - 1]);
    }
  }

  lemma FreshSent(items: seq<Item>)
    ensures Open(Fresh(items)) == Posted(items) && Sent(Fresh(items)) == Probe(items)
  {
    FreshOpen(items);
    hide Posted, Open;
    assert Sent(Fresh(items)) == Probe(items);
  }

  /**
   A file is repaired if and only if it is unknown for want of evidence and
   settling the whole receipt afresh with the saved reply would accept it with
   job ids. It then is accepted with exactly those; every other file stays.
   */
  lemma RepairedExactlyWhen(items: seq<Item>, code: int, response: Json, i: nat)
    requires i < |items|
    ensures i < |Settled(Fresh(items), code, response)| && i < |Repaired(items, code, response)|
    ensures var anew := Settled(Fresh(items), code, response)[i];
      Repaired(items, code, response)[i] ==
        if items[i].status == Unknown && items[i].error == Unconfirmed && anew.status == Accepted && anew.jobIds != {}
        then items[i].(status := Accepted, jobIds := anew.jobIds, error := NoNote)
        else items[i]
  {
    var anew := Fresh(items);
    FreshSent(items);
    SettledAt(anew, code, response);
    RepairedAt(items, code, response);
    hide Settled, Repaired, Parse, Posted, Open, Probe, Sent;
    if items[i].status != NotSent {
      var k := PostedIndex(items, i);
      assert Repaired(items, code, response)[Posted(items)[k]] == RepairOne(items[i], Parse(Probe(items), code, response)[k]);
      assert Settled(anew, code, response)[Open(anew)[k]] == Parse(Probe(items), code, response)[k];
    }
  }

  /** A receipt may be repaired if and only if its request was started and answered with a saved 200 or 207, and it is finished. */
  lemma RepairableExactlyWhen(finished: bool, started: bool, code: Option<int>, response: Json)
    ensures Repairable(finished, started, code, response) <==>
      finished && started && (code == Some(200) || code == Some(207)) && response.Obj?
  {}
}
