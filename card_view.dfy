/**
 * parseCard, written out the same way in callbreak-ui/components/ui/Card.tsx
 * and callbreak-ui/components/game_screen/Hand.tsx: a card code split into
 * its rank text and suit letter, and the suit's symbol for display.
 */
module CardView {
  import opened Wrappers

  datatype Parsed = Parsed(rank: string, suit: string, suitLetter: string)

  /** The parse of a missing or empty code. */
  const UNKNOWN := Parsed("?", "?", "")

  /** The symbol shown for a suit letter: H, D and C have their own, every other letter shows as a spade. */
  function SuitSymbol(letter: string): (r: string)
    ensures r in {"♥", "♦", "♣", "♠"}
    ensures r == "♠" <==> letter !in {"H", "D", "C"}
  {
    if letter == "H" then "♥"
    else if letter == "D" then "♦"
    else if letter == "C" then "♣"
    else "♠"
  }

  /** parseCard: a falsy code (null, undefined or "") parses as unknown; any other is split before its last character. */
  function ParseCard(code: Option<string>): (p: Parsed)
    ensures code.None? || code.value == "" ==> p == UNKNOWN
    ensures code.Some? && code.value != "" ==>
      |p.suitLetter| == 1 && p.rank + p.suitLetter == code.value && p.suit == SuitSymbol(p.suitLetter)
  {
    if code.None? || code.value == "" then UNKNOWN
    else
      var c := code.value;
      var letter := c[|c| - 1..];
      Parsed(c[..|c| - 1], SuitSymbol(letter), letter)
  }

  /** The parse of a non-empty code can be read back: the code is the rank followed by the suit letter, and no other code parses the same. */
  lemma ParseCardInjective(a: string, b: string)
    requires a != "" && b != ""
    ensures ParseCard(Some(a)) == ParseCard(Some(b)) ==> a == b
  {
  }

  /** "10H" keeps its two-character rank. */
  lemma TenOfHearts()
    ensures ParseCard(Some("10H")) == Parsed("10", "♥", "H")
  {
    assert "10H"[..2] == "10";
    assert "10H"[2..] == "H";
  }

  /** A code parses as unknown only when it is missing or empty. */
  lemma UnknownOnlyWhenFalsy(code: Option<string>)
    ensures ParseCard(code) == UNKNOWN <==> code.None? || code.value == ""
  {
    if code.Some? && code.value != "" {
      assert |ParseCard(code).suitLetter| == 1;
    }
  }
}
