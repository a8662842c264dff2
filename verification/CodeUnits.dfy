/** The length of a text is the number of its UTF-16 code units (section 2.1 of RFC 2781). */
module CodeUnits {
  import opened Json
  import opened ReleaseList

  /** The code units of one character: a surrogate pair above 0xFFFF. */
  function UnitsOf(c: char): (u: seq<int>)
    ensures 1 <= |u| <= 2
  {
    var v := c as int;
    if v < 0x1_0000 then [v] else [0xD800 + (v - 0x1_0000) / 0x400, 0xDC00 + (v - 0x1_0000) % 0x400]
  }

  function Encode(s: string): seq<int> {
    if s == "" then [] else Encode(s[..|s| - 1]) + UnitsOf(s[|s| - 1])
  }

  predicate IsCharacter(v: int) { 0 <= v < 0xD800 || 0xE000 <= v < 0x11_0000 }
  predicate Leads(u: int) { 0xD800 <= u < 0xDC00 }
  predicate Trails(u: int) { 0xDC00 <= u < 0xE000 }

  /** The text of these code units, if they are well formed. */
  function Decode(units: seq<int>): Option<string> {
    if units == [] then Some("")
    else
      var n := |units|;
      var last := units[n - 1];
      if Trails(last) then
        if n >= 2 && Leads(units[n - 2]) then
          Append(Decode(units[..n - 2]), 0x1_0000 + (units[n - 2] - 0xD800) * 0x400 + (last - 0xDC00))
        else None
      else if IsCharacter(last) && last < 0x1_0000 then Append(Decode(units[..n - 1]), last)
      else None
  }

  function Append(s: Option<string>, v: int): Option<string>
    requires IsCharacter(v)
  {
    if s.Some? then Some(s.value + [v as char]) else None
  }

  lemma UnitsMeanCharacter(c: char)
    ensures var u, v := UnitsOf(c), c as int;
      && (v < 0x1_0000 ==> u == [v] && !Trails(v) && IsCharacter(v))
      && (0x1_0000 <= v ==>
            |u| == 2 && Leads(u[0]) && Trails(u[1]) && 0x1_0000 + (u[0] - 0xD800) * 0x400 + (u[1] - 0xDC00) == v)
  {
    assert IsCharacter(c as int);
  }

  /** Decoding takes the last character off the end. */
  lemma DecodeNext(before: seq<int>, c: char)
    ensures Decode(before + UnitsOf(c)) == Append(Decode(before), c as int)
  {
    var own := UnitsOf(c);
    var all := before + own;
    UnitsMeanCharacter(c);
    hide UnitsOf;
    assert all[|all| - 1] == own[|own| - 1];
    assert all[..|all| - |own|] == before;
    if |own| == 2 { assert all[|all| - 2] == own[0]; }
  }

  /** Decoding gives back every text that was encoded, and no unit is wider than 16 bits. */
  lemma {:induction false} DecodeOfEncode(s: string)
    ensures Decode(Encode(s)) == Some(s) && forall u :: u in Encode(s) ==> 0 <= u < 0x1_0000
  {
    if s != "" {
      var n := |s| - 1;
      DecodeOfEncode(s[..n]);
      DecodeNext(Encode(s[..n]), s[n]);
      UnitsMeanCharacter(s[n]);
      hide UnitsOf, Decode;
      assert s == s[..n] + [s[n]];
    }
  }

  /** The length that is compared with the limits is the number of code units. */
  lemma {:induction false} LengthCountsUnits(s: string)
    ensures Length(s) == |Encode(s)|
  {
    if s != "" { LengthCountsUnits(s[..|s| - 1]); }
  }
}
