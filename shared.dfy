/** Pieces that the current engine (backend/app/main.py) and its older backup
    (backend/app/main.bak.py) have in common: saturating clamps, the fixed
    0.6/0.4 blend of the rule score with the model percentage, and the
    35/65 band table. */
module Shared {

  datatype Option<+T> = None | Some(value: T)

  function Min(a: int, b: int): int { if a <= b then a else b }

  function Max(a: int, b: int): int { if a <= b then b else a }

  /** Python's `max(lo, min(hi, x))`: saturates at either end, never wraps. */
  function Clamp(lo: int, hi: int, x: int): (r: int)
    requires lo <= hi
    ensures lo <= r <= hi
    ensures lo <= x <= hi ==> r == x
    ensures x < lo ==> r == lo
    ensures hi < x ==> r == hi
  {
    Max(lo, Min(hi, x))
  }

  /** `max(lo, min(hi, x))` on probabilities. */
  function ClampReal(lo: real, hi: real, x: real): (r: real)
    requires lo <= hi
    ensures lo <= r <= hi
    ensures lo <= x <= hi ==> r == x
    ensures x < lo ==> r == lo
    ensures hi < x ==> r == hi
  {
    if x < lo then lo else if hi < x then hi else x
  }

  /** `int(round(0.6 * rules + 0.4 * mlPercent))`. The exact value of the
      blend is (6 * rules + 4 * mlPercent) / 10 and its numerator is even,
      so it never ends in .5: Python's round-half-even has no tie to break
      and the result is the unique nearest integer, computed here without
      floating point. */
  function BlendedScore(rules: int, mlPercent: int): (r: int)
    // r is within 0.4 of the exact blend, hence its nearest integer
    ensures 10 * r - 4 <= 6 * rules + 4 * mlPercent <= 10 * r + 4
    // a weighted average never leaves the range of its two inputs
    ensures Min(rules, mlPercent) <= r <= Max(rules, mlPercent)
  {
    var x := 6 * rules + 4 * mlPercent;
    assert x == 2 * (3 * rules + 2 * mlPercent);
    (x + 5) / 10
  }

  /** The three risk bands, in increasing order of risk. */
  datatype Band = Green | Amber | Red {
    /** The `risk_band` string of the response. */
    function Name(): string {
      match this
      case Green => "Green"
      case Amber => "Amber"
      case Red => "Red"
    }

    /** The `recommended_action` string that goes with the band. */
    function Action(): string {
      match this
      case Green => "Approve"
      case Amber => "Request Documents / Manual Review"
      case Red => "Decline / Escalate"
    }

    function Rank(): nat {
      match this
      case Green => 0
      case Amber => 1
      case Red => 2
    }
  }

  const AmberThreshold := 35
  const RedThreshold := 65

  /** `band_and_action`: every integer lands in exactly one band, below 35
      Green, 35 to 64 Amber, 65 and above Red; the action is fixed by the
      band. */
  function BandAndAction(riskScore: int): (r: (Band, string))
    ensures r.1 == r.0.Action()
    ensures r.0 == Green <==> riskScore < AmberThreshold
    ensures r.0 == Amber <==> AmberThreshold <= riskScore < RedThreshold
    ensures r.0 == Red <==> RedThreshold <= riskScore
  {
    if riskScore < AmberThreshold then (Green, "Approve")
    else if riskScore < RedThreshold then (Amber, "Request Documents / Manual Review")
    else (Red, "Decline / Escalate")
  }

  /** A higher score never falls into a less risky band. */
  lemma BandMonotone(lower: int, higher: int)
    requires lower <= higher
    ensures BandAndAction(lower).0.Rank() <= BandAndAction(higher).0.Rank()
  {
  }

  /** The three bands carry three different actions, so the action alone
      tells which band was chosen. */
  lemma ActionDeterminesBand(s1: int, s2: int)
    ensures BandAndAction(s1).1 == BandAndAction(s2).1 <==> BandAndAction(s1).0 == BandAndAction(s2).0
  {
    var b1, b2 := BandAndAction(s1).0, BandAndAction(s2).0;
    if b1 != b2 {
      assert b1.Action()[0] != b2.Action()[0] || |b1.Action()| != |b2.Action()|;
    }
  }
}
