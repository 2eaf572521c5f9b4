/** Client identifiers: 31 random draws rendered as a version 4 UUID. */
module UuidGenerator {

  const DRAWS: nat := 31
  const HEX := "0123456789abcdef"

  /** Every draw is a hex digit, and the sixteenth is the variant, 8..11. */
  predicate InRange(draws: seq<nat>) {
    && |draws| == DRAWS
    && (forall i :: 0 <= i < DRAWS ==> draws[i] < 16)
    && 8 <= draws[15] <= 11
  }

  function Hex(draws: seq<nat>): string
    requires forall i :: 0 <= i < |draws| ==> draws[i] < 16
    ensures |Hex(draws)| == |draws|
    ensures forall i :: 0 <= i < |draws| ==> Hex(draws)[i] == HEX[draws[i]]
  {
    seq(|draws|, i requires 0 <= i < |draws| => HEX[draws[i]])
  }

  /** The text of the draws, group by group. */
  function Render(draws: seq<nat>): string
    requires InRange(draws)
  {
    Hex(draws[0..8]) + "-" + Hex(draws[8..12]) + "-4" + Hex(draws[12..15]) + "-"
    + [HEX[draws[15]]] + Hex(draws[16..19]) + "-" + Hex(draws[19..31])
  }

  /** One counted loop of the generator. */
  method AppendDraws(ss: string, draws: seq<nat>, from: nat, count: nat) returns (out: string)
    requires from + count <= |draws| && forall i :: 0 <= i < |draws| ==> draws[i] < 16
    ensures out == ss + Hex(draws[from..from + count])
  {
    out := ss;
    for i := 0 to count
      invariant out == ss + Hex(draws[from..from + i])
    {
      out := out + [HEX[draws[from + i]]];
    }
  }

  method GenerateUuidV4(draws: seq<nat>) returns (ss: string)
    requires InRange(draws)
    ensures ss == Render(draws)
  {
    ss := AppendDraws("", draws, 0, 8);
    assert ss == Hex(draws[0..8]);
    ss := ss + "-";
    ss := AppendDraws(ss, draws, 8, 4);
    ss := ss + "-4";
    ss := AppendDraws(ss, draws, 12, 3);
    ss := ss + "-";
    ss := ss + [HEX[draws[15]]];
    ss := AppendDraws(ss, draws, 16, 3);
    ss := ss + "-";
    ss := AppendDraws(ss, draws, 19, 12);
  }

  predicate IsHex(c: char) {
    '0' <= c <= '9' || 'a' <= c <= 'f'
  }

  /** The version 4 form: 36 characters, four hyphens, version nibble 4, variant 8, 9, a or b. */
  predicate IsVersion4(s: string) {
    && |s| == 36
    && s[8] == s[13] == s[18] == s[23] == '-'
    && s[14] == '4'
    && s[19] in "89ab"
    && forall i :: 0 <= i < 36 && i != 8 && i != 13 && i != 18 && i != 23 ==> IsHex(s[i])
  }

  function Value(c: char): nat
    requires IsHex(c)
  {
    if c <= '9' then c as nat - '0' as nat else c as nat - 'a' as nat + 10
  }

  /** Where the i-th draw is found in the text. */
  function Place(i: nat): nat
    requires i < DRAWS
  {
    if i < 8 then i else if i < 12 then i + 1 else if i < 15 then i + 3 else if i < 19 then i + 4 else i + 5
  }

  /** Reads the draws back out of a version 4 UUID. */
  function Recover(s: string): seq<nat>
    requires IsVersion4(s)
  {
    seq(DRAWS, i requires 0 <= i < DRAWS => Value(s[Place(i)]))
  }

  lemma RenderPlaces(draws: seq<nat>)
    requires InRange(draws)
    ensures var s := Render(draws);
      && |s| == 36 && s[8] == s[13] == s[18] == s[23] == '-' && s[14] == '4'
      && forall i: nat :: i < DRAWS ==> s[Place(i)] == HEX[draws[i]]
  {
  }

  lemma {:induction false} HexDigits(d: nat)
    requires d < 16
    ensures IsHex(HEX[d]) && Value(HEX[d]) == d && (8 <= d <= 11 ==> HEX[d] in "89ab")
  {
    if d > 0 { HexDigits(d - 1); }
  }

  /** Every 31 draws in range give a UUID in version 4 form. */
  lemma RenderIsVersion4(draws: seq<nat>)
    requires InRange(draws)
    ensures IsVersion4(Render(draws))
  {
    RenderPlaces(draws);
    HexDigits(draws[15]);
    var s := Render(draws);
    forall i | 0 <= i < 36 && i != 8 && i != 13 && i != 18 && i != 23
      ensures IsHex(s[i])
    {
      if i != 14 {
        var d: nat := if i < 8 then i else if i < 13 then i - 1 else if i < 18 then i - 3 else if i < 23 then i - 4 else i - 5;
        assert Place(d) == i;
        HexDigits(draws[d]);
      }
    }
  }

  /** The draws can be read back, so different draws give different UUIDs. */
  lemma RecoverRender(draws: seq<nat>)
    requires InRange(draws)
    ensures IsVersion4(Render(draws)) && Recover(Render(draws)) == draws
  {
    RenderIsVersion4(draws);
    RenderPlaces(draws);
    forall i | 0 <= i < DRAWS
      ensures Recover(Render(draws))[i] == draws[i]
    {
      HexDigits(draws[i]);
    }
  }

  lemma RenderInjective(a: seq<nat>, b: seq<nat>)
    requires InRange(a) && InRange(b) && Render(a) == Render(b)
    ensures a == b
  {
    RecoverRender(a);
    RecoverRender(b);
  }
}
