/**
 * The card records of one round and what makes a round well formed: every id
 * occurs once, and every card's `match` names exactly one other card of the
 * round, whose own `match` names it back.
 */
module Cards {

  datatype Option<T> = None | Some(value: T)

  /** The game mode: upper/lower-case letter pairs, or numeral/count pairs. */
  datatype Mode = Letters | Numbers

  /** The `class` field of a card record. */
  datatype Variant = Uppercase | Lowercase | NumberSymbol | NumberCount

  /** The `value` field: a letter, or a number from 1 to 9. */
  datatype Face = Letter(ch: char) | Number(n: nat)

  /**
   * A card record. `matchId` is the record's `match` field: the id of the card
   * it pairs with. The count card's separate `count` field always equals its
   * `value`, so `face` carries it.
   */
  datatype Card = Card(id: string, face: Face, variant: Variant, matchId: string)

  /** No two slots of the round hold the same id. */
  ghost predicate DistinctIds(cards: seq<Card>) {
    forall i, j :: 0 <= i < |cards| && 0 <= j < |cards| && cards[i].id == cards[j].id ==> i == j
  }

  /** Slot `j` is another card of the round, named by slot `i`'s `match` and naming `i` back. */
  ghost predicate IsPartner(cards: seq<Card>, i: int, j: int) {
    0 <= i < |cards| && 0 <= j < |cards| && i != j &&
    cards[j].id == cards[i].matchId && cards[i].id == cards[j].matchId
  }

  ghost predicate HasPartner(cards: seq<Card>, i: int) {
    exists j :: IsPartner(cards, i, j)
  }

  /** Every card of the round has a partner. */
  ghost predicate Paired(cards: seq<Card>) {
    forall i :: 0 <= i < |cards| ==> HasPartner(cards, i)
  }

  ghost predicate WellFormed(cards: seq<Card>) {
    DistinctIds(cards) && Paired(cards)
  }

  /** In a well-formed round the partner of a card exists, is unique, and has that card as its partner. */
  ghost function PartnerOf(cards: seq<Card>, i: nat): (j: nat)
    requires WellFormed(cards) && i < |cards|
    ensures IsPartner(cards, i, j) && IsPartner(cards, j, i)
    ensures forall k :: IsPartner(cards, i, k) ==> k == j
  {
    assert HasPartner(cards, i);
    var j :| IsPartner(cards, i, j);
    j
  }

  /**
   * The game compares only the first card's `match` with the second card's `id`. In a well-formed round
   * that one-sided test holds exactly when the two slots are partners.
   */
  lemma MatchTestIsPartnership(cards: seq<Card>, a: nat, b: nat)
    requires WellFormed(cards) && a < |cards| && b < |cards|
    ensures cards[a].matchId == cards[b].id <==> IsPartner(cards, a, b)
  {
    if cards[a].matchId == cards[b].id {
      var p := PartnerOf(cards, a);
      assert cards[p].id == cards[b].id;
    }
  }
}
