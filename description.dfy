/**
 * The description pattern `Parking: (\S+), Gate: (\S+)`, taken as a whole-string
 * match: the literal "Parking: ", a token, the literal ", Gate: ", a token,
 * where a token is a non-empty run of characters outside Go's `\s` class.
 */
module Description {
  import opened Wrappers

  const ParkingLabel: string := "Parking: "
  const GateLabel: string := ", Gate: "

  /** Go's `\s`: space, tab, newline, form feed and carriage return. */
  predicate IsSpace(c: char) {
    c == ' ' || c == '\t' || c == '\n' || c == '\U{000C}' || c == '\r'
  }

  /** What `\S+` matches. */
  predicate IsToken(s: string) {
    |s| > 0 && forall i | 0 <= i < |s| :: !IsSpace(s[i])
  }

  /** The description a vehicle at this parking and gate carries. */
  function Describe(parking: string, gate: string): string {
    ParkingLabel + parking + GateLabel + gate
  }

  /** Index of the first whitespace character of `s`, or `|s|` if none. */
  function FirstSpace(s: string): (i: nat)
    ensures i <= |s|
    ensures forall j | 0 <= j < i :: !IsSpace(s[j])
    ensures i < |s| ==> IsSpace(s[i])
  {
    if s == [] then 0
    else if IsSpace(s[0]) then 0
    else 1 + FirstSpace(s[1..])
  }

  /**
   * The parking and gate a description names, or None when it does not follow
   * the pattern. A parking token holds no whitespace, so the first whitespace
   * after "Parking: " is the one inside ", Gate: ".
   */
  function Parse(desc: string): (r: Option<(string, string)>)
    ensures r.Some? ==> IsToken(r.value.0) && IsToken(r.value.1)
    ensures r.Some? ==> desc == Describe(r.value.0, r.value.1)
  {
    if |desc| < |ParkingLabel| || desc[..|ParkingLabel|] != ParkingLabel then None
    else
      var rest := desc[|ParkingLabel|..];
      var i := FirstSpace(rest);
      if i < 2 || |rest| < i - 1 + |GateLabel| || rest[i - 1 .. i - 1 + |GateLabel|] != GateLabel then None
      else
        var parking := rest[..i - 1];
        var gate := rest[i - 1 + |GateLabel|..];
        if !IsToken(gate) then None
        else
          assert rest == parking + GateLabel + gate;
          assert desc == ParkingLabel + rest;
          Some((parking, gate))
  }

  /** Every well-formed description is recognised, with the tokens it was built from. */
  lemma ParseDescribe(parking: string, gate: string)
    requires IsToken(parking) && IsToken(gate)
    ensures Parse(Describe(parking, gate)) == Some((parking, gate))
  {
    var desc := Describe(parking, gate);
    var rest := parking + GateLabel + gate;
    assert desc[..|ParkingLabel|] == ParkingLabel;
    assert desc[|ParkingLabel|..] == rest;
    var i := FirstSpace(rest);
    assert rest[|parking| + 1] == ' ';
    assert forall j | 0 <= j < |parking| :: rest[j] == parking[j];
    assert rest[|parking|] == ',';
    assert i == |parking| + 1;
    assert rest[i - 1 .. i - 1 + |GateLabel|] == GateLabel;
    assert rest[..i - 1] == parking;
    assert rest[i - 1 + |GateLabel|..] == gate;
  }

  /** The tokens of a well-formed description are recovered exactly. */
  lemma DescribeInjective(p1: string, g1: string, p2: string, g2: string)
    requires IsToken(p1) && IsToken(g1) && IsToken(p2) && IsToken(g2)
    requires Describe(p1, g1) == Describe(p2, g2)
    ensures p1 == p2 && g1 == g2
  {
    ParseDescribe(p1, g1);
    ParseDescribe(p2, g2);
  }
}
