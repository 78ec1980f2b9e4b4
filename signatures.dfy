/** Classification of a raw panel ID. A stage tests its ID against an ordered
    list of rules; the first rule whose signature matches decides the board. */
module Signatures {
  import opened Hardware

  /** Low byte of the ST7789 controller family's ID. */
  const ST7789_ID: uint32 := 0x85
  /** Low byte of the ST7735 controller family's ID. */
  const ST7735_ID: uint32 := 0x7C

  /** `id & 0xFF`: the byte the family tests look at. */
  function LowByte(id: uint32): (b: uint32)
    ensures b < 0x100
    ensures b == id % 0x100
  {
    id & 0xFF
  }

  /** A signature is either "the low byte equals v" or the presence test
      `id != 0 && id != ~0`, which tells a panel that answered from a bus
      that floats or is stuck. */
  datatype Signature = LowByteIs(value: uint32) | Answered

  predicate Matches(sig: Signature, id: uint32)
  {
    match sig
    case LowByteIs(v) => LowByte(id) == v
    case Answered => id != 0 && id != 0xFFFF_FFFF
  }

  datatype Rule = Rule(sig: Signature, board: Board)

  /** The board of the first rule that matches `id`, or None. */
  function Classify(rules: seq<Rule>, id: uint32): Option<Board>
  {
    if |rules| == 0 then None
    else if Matches(rules[0].sig, id) then Some(rules[0].board)
    else Classify(rules[1..], id)
  }

  /** Classification finds a board exactly when some rule matches, and the
      board it finds is that of the first matching rule: every rule before it
      fails. */
  lemma {:induction false} ClassifyFirstMatch(rules: seq<Rule>, id: uint32)
    ensures Classify(rules, id).Some? <==> exists j :: 0 <= j < |rules| && Matches(rules[j].sig, id)
    ensures Classify(rules, id).Some? ==>
      exists j :: 0 <= j < |rules| && Matches(rules[j].sig, id) && Classify(rules, id).value == rules[j].board
        && forall i :: 0 <= i < j ==> !Matches(rules[i].sig, id)
  {
    if |rules| > 0 && !Matches(rules[0].sig, id) {
      ClassifyFirstMatch(rules[1..], id);
      assert forall j :: 1 <= j < |rules| ==> rules[j] == rules[1..][j - 1];
      var r := Classify(rules[1..], id);
      if r.Some? {
        var j :| 0 <= j < |rules[1..]| && Matches(rules[1..][j].sig, id) && r.value == rules[1..][j].board
          && forall i :: 0 <= i < j ==> !Matches(rules[1..][i].sig, id);
        assert Matches(rules[j + 1].sig, id) && forall i :: 0 <= i < j + 1 ==> !Matches(rules[i].sig, id);
      }
    }
  }

  /** A rule list that never names `Unknown` never classifies to `Unknown`. */
  lemma {:induction false} ClassifyKnown(rules: seq<Rule>, id: uint32)
    requires forall i :: 0 <= i < |rules| ==> rules[i].board != Unknown
    ensures Classify(rules, id) != Some(Unknown)
  {
    if |rules| > 0 && !Matches(rules[0].sig, id) {
      ClassifyKnown(rules[1..], id);
    }
  }

  /** The two family signatures never match the same ID, so at the stage that
      tests both the order of the tests cannot change the result. */
  lemma FamilySignaturesDisjoint(id: uint32)
    ensures !(Matches(LowByteIs(ST7789_ID), id) && Matches(LowByteIs(ST7735_ID), id))
    ensures Matches(LowByteIs(ST7789_ID), id) ==> Matches(Answered, id)
  {
  }
}
