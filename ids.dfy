/** Player and game identifiers: a GUID and its default ("D") string form,
    32 lower-case hexadecimal digits in groups of 8-4-4-4-12 separated by '-'.
    The server keys its player table by GUID and its scoreboard by the GUID's
    string, so the model needs that conversion to be injective. */
module Ids {

  type Nibble = x: int | 0 <= x < 16

  /** A GUID, as the 32 hexadecimal digits it prints as. */
  type Guid = s: seq<Nibble> | |s| == 32
    witness seq(32, _ => 0)

  datatype Player = Player(id: Guid, name: string)

  const HexDigits: string := "0123456789abcdef"

  function HexDigit(n: Nibble): char { HexDigits[n] }

  /** Where the dashes of the "D" format stand. */
  predicate IsDashPosition(i: int) {
    i == 8 || i == 13 || i == 18 || i == 23
  }

  /** Which digit of the GUID stands at position i of its string. */
  function DigitAt(i: nat): (k: nat)
    requires i < 36 && !IsDashPosition(i)
    ensures k < 32
  {
    if i < 8 then i
    else if i < 13 then i - 1
    else if i < 18 then i - 2
    else if i < 23 then i - 3
    else i - 4
  }

  /** Guid.ToString(): the "D" format, 32 lower-case hexadecimal digits in
      groups of 8-4-4-4-12 separated by '-'. */
  function GuidString(g: Guid): (r: string)
    ensures |r| == 36
    ensures forall i :: 0 <= i < 36 && IsDashPosition(i) ==> r[i] == '-'
  {
    seq(36, i requires 0 <= i < 36 => if IsDashPosition(i) then '-' else HexDigit(g[DigitAt(i)]))
  }

  /** Where the k-th digit of a GUID stands in its string. */
  function PositionOf(k: nat): (i: nat)
    requires k < 32
    ensures i < 36 && !IsDashPosition(i) && DigitAt(i) == k
  {
    if k < 8 then k else if k < 12 then k + 1 else if k < 16 then k + 2 else if k < 20 then k + 3 else k + 4
  }

  /** Distinct GUIDs print as distinct strings. */
  lemma GuidStringDistinct(a: Guid, b: Guid)
    requires a != b
    ensures GuidString(a) != GuidString(b)
  {
    var k :| 0 <= k < 32 && a[k] != b[k];
    var i := PositionOf(k);
    assert GuidString(a)[i] == HexDigit(a[k]) != HexDigit(b[k]) == GuidString(b)[i];
  }
}
