/**
 * `generateCardsData`: builds the cross-referenced pairs of one round and hands
 * them to `shuffleArray`.
 *
 * Letters mode pairs `upper-X` with `lower-x` for the first letters of the
 * alphabet. Numbers mode pairs `num-n` with `count-n` for the first numbers of
 * 1..9. The pair count is the session's `totalPairs`, capped the way
 * `substring` and `slice` cap it.
 */
module RoundGenerator {
  import opened Cards
  import opened Shuffle

  /** The letter string `ABCDEFGHIJKLMNOPQRSTUVWXYZ` (see `SymbolSetsAreConsecutive`). */
  const Alphabet: string := seq(26, k requires 0 <= k < 26 => LetterAt(k))
  /** The number list `[1, 2, 3, 4, 5, 6, 7, 8, 9]`. */
  const Numerals: seq<nat> := seq(9, k requires 0 <= k < 9 => k + 1)

  /** The `k`-th letter of the alphabet. */
  function LetterAt(k: nat): (c: char)
    requires k < 26
    ensures 'A' <= c <= 'Z'
  {
    ('A' as int + k) as char
  }

  /** The letter string is the game's `ABCDEFGHIJKLMNOPQRSTUVWXYZ` and the number list its `[1, ..., 9]`. */
  lemma SymbolSetsAreConsecutive()
    ensures Alphabet == "ABCDEFGHIJKLMNOPQRSTUVWXYZ"
    ensures Numerals == [1, 2, 3, 4, 5, 6, 7, 8, 9]
  {
  }

  /** How many pairs the mode can supply at most: the length of its letter string or number list. */
  function MaxPairs(mode: Mode): nat {
    match mode
    case Letters => 26
    case Numbers => 9
  }

  /**
   * The number of pairs a round of `totalPairs` gets. Letters mode takes
   * `substring(0, totalPairs)`, which clamps the end into `[0, 26]`. Numbers mode
   * takes `slice(0, totalPairs)`, which counts a negative end back from the end.
   */
  function PairCount(mode: Mode, totalPairs: int): (n: nat)
    ensures n <= MaxPairs(mode)
    ensures 0 <= totalPairs <= MaxPairs(mode) ==> n == totalPairs
    ensures totalPairs > MaxPairs(mode) ==> n == MaxPairs(mode)
    ensures mode == Letters && totalPairs < 0 ==> n == 0
    ensures mode == Numbers && totalPairs < 0 ==> n == if 9 + totalPairs < 0 then 0 else 9 + totalPairs
  {
    match mode
    case Letters =>
      if totalPairs < 0 then 0 else if totalPairs > 26 then 26 else totalPairs
    case Numbers =>
      if totalPairs < 0 then (if 9 + totalPairs < 0 then 0 else 9 + totalPairs)
      else if totalPairs > 9 then 9 else totalPairs
  }

  /** `letter.toLowerCase()` on an upper-case ASCII letter. */
  function Lower(c: char): (l: char)
    requires 'A' <= c <= 'Z'
    ensures 'a' <= l <= 'z' && l as int - 'a' as int == c as int - 'A' as int
  {
    (c as int + 32) as char
  }

  /** The decimal text of a number from 1 to 9, as a template literal writes it. */
  function Decimal(n: nat): (s: string)
    requires 1 <= n <= 9
    ensures |s| == 1 && '1' <= s[0] <= '9' && s[0] as int - '0' as int == n
  {
    [('0' as int + n) as char]
  }

  function UpperCard(c: char): Card
    requires 'A' <= c <= 'Z'
  {
    Card("upper-" + [c], Letter(c), Uppercase, "lower-" + [Lower(c)])
  }

  function LowerCard(c: char): Card
    requires 'A' <= c <= 'Z'
  {
    Card("lower-" + [Lower(c)], Letter(Lower(c)), Lowercase, "upper-" + [c])
  }

  function SymbolCard(n: nat): Card
    requires 1 <= n <= 9
  {
    Card("num-" + Decimal(n), Number(n), NumberSymbol, "count-" + Decimal(n))
  }

  function CountCard(n: nat): Card
    requires 1 <= n <= 9
  {
    Card("count-" + Decimal(n), Number(n), NumberCount, "num-" + Decimal(n))
  }

  /** The slot of the other card of a pair: pair `k` sits at slots `2k` and `2k + 1`. */
  function PartnerSlot(p: nat): nat {
    if p % 2 == 0 then p + 1 else p - 1
  }

  /**
   * Reads back the slot of the unshuffled round from an id: the first character
   * tells the side of the pair, the last one the letter or number.
   */
  function SlotOfId(mode: Mode, id: string): int {
    match mode
    case Letters =>
      if |id| == 7 && id[0] == 'u' then 2 * (id[6] as int - 'A' as int)
      else if |id| == 7 then 2 * (id[6] as int - 'a' as int) + 1
      else -1
    case Numbers =>
      if |id| == 5 then 2 * (id[4] as int - '1' as int)
      else if |id| == 7 then 2 * (id[6] as int - '1' as int) + 1
      else -1
  }

  /** The card the loop pushes at slot `p` (before shuffling). */
  function CardAt(mode: Mode, p: nat): Card
    requires p < 2 * MaxPairs(mode)
  {
    var k := p / 2;
    match mode
    case Letters => if p % 2 == 0 then UpperCard(LetterAt(k)) else LowerCard(LetterAt(k))
    case Numbers => if p % 2 == 0 then SymbolCard(k + 1) else CountCard(k + 1)
  }

  /** The id of the card at slot `p` reads back as `p`, and its `match` is the id at the partner slot. */
  lemma CardAtIds(mode: Mode, p: nat)
    requires p < 2 * MaxPairs(mode)
    ensures SlotOfId(mode, CardAt(mode, p).id) == p
    ensures PartnerSlot(p) < 2 * MaxPairs(mode)
    ensures CardAt(mode, p).matchId == CardAt(mode, PartnerSlot(p)).id
  {
    var k := p / 2;
    var q := PartnerSlot(p);
    assert q / 2 == k;
    match mode
    case Letters =>
      var c := LetterAt(k);
      LetterPairIds(c, k);
      if p % 2 == 0 {
        assert CardAt(mode, p) == UpperCard(c) && CardAt(mode, q) == LowerCard(c);
      } else {
        assert CardAt(mode, p) == LowerCard(c) && CardAt(mode, q) == UpperCard(c);
      }
    case Numbers =>
      var n := k + 1;
      NumberPairIds(n, k);
      if p % 2 == 0 {
        assert CardAt(mode, p) == SymbolCard(n) && CardAt(mode, q) == CountCard(n);
      } else {
        assert CardAt(mode, p) == CountCard(n) && CardAt(mode, q) == SymbolCard(n);
      }
  }

  lemma LetterPairIds(c: char, k: nat)
    requires c as int == 'A' as int + k && k < 26
    ensures SlotOfId(Letters, UpperCard(c).id) == 2 * k
    ensures SlotOfId(Letters, LowerCard(c).id) == 2 * k + 1
    ensures UpperCard(c).matchId == LowerCard(c).id && LowerCard(c).matchId == UpperCard(c).id
  {
    assert UpperCard(c).id[0] == 'u' && UpperCard(c).id[6] == c;
    assert LowerCard(c).id[0] == 'l' && LowerCard(c).id[6] == Lower(c);
  }

  lemma NumberPairIds(n: nat, k: nat)
    requires n == k + 1 && n <= 9
    ensures SlotOfId(Numbers, SymbolCard(n).id) == 2 * k
    ensures SlotOfId(Numbers, CountCard(n).id) == 2 * k + 1
    ensures SymbolCard(n).matchId == CountCard(n).id && CountCard(n).matchId == SymbolCard(n).id
  {
    assert SymbolCard(n).id[4] == Decimal(n)[0];
    assert CountCard(n).id[6] == Decimal(n)[0];
  }

  /** The round as the loops build it: pair `k` pushed at slots `2k` and `2k + 1`. */
  function Unshuffled(mode: Mode, n: nat): (cards: seq<Card>)
    requires n <= MaxPairs(mode)
    ensures |cards| == 2 * n
  {
    seq(2 * n, p requires 0 <= p < 2 * n => CardAt(mode, p))
  }

  /** One more iteration of the letters loop appends pair `k`. */
  lemma LetterStep(k: nat)
    requires k < 26
    ensures Unshuffled(Letters, k + 1) == Unshuffled(Letters, k) + [UpperCard(LetterAt(k)), LowerCard(LetterAt(k))]
  {
    assert (2 * k) / 2 == k && (2 * k) % 2 == 0 && (2 * k + 1) / 2 == k && (2 * k + 1) % 2 == 1;
  }

  /** One more iteration of the numbers loop appends pair `k`. */
  lemma NumberStep(k: nat)
    requires k < 9
    ensures Unshuffled(Numbers, k + 1) == Unshuffled(Numbers, k) + [SymbolCard(k + 1), CountCard(k + 1)]
  {
    assert (2 * k) / 2 == k && (2 * k) % 2 == 0 && (2 * k + 1) / 2 == k && (2 * k + 1) % 2 == 1;
  }

  /** In the unshuffled round, the id at slot `p` reads back as `p`, and slot `p` is partnered with its neighbour. */
  lemma UnshuffledSlot(mode: Mode, n: nat, p: nat)
    requires n <= MaxPairs(mode) && p < 2 * n
    ensures SlotOfId(mode, Unshuffled(mode, n)[p].id) == p
    ensures IsPartner(Unshuffled(mode, n), p, PartnerSlot(p))
  {
    var q := PartnerSlot(p);
    assert q < 2 * n;
    CardAtIds(mode, p);
    CardAtIds(mode, q);
  }

  /** The unshuffled round has distinct ids, and slots `2k` and `2k + 1` are partners. */
  lemma UnshuffledWellFormed(mode: Mode, n: nat)
    requires n <= MaxPairs(mode)
    ensures WellFormed(Unshuffled(mode, n))
    ensures forall p :: 0 <= p < 2 * n ==> IsPartner(Unshuffled(mode, n), p, PartnerSlot(p))
  {
    var u := Unshuffled(mode, n);
    forall p | 0 <= p < 2 * n
      ensures IsPartner(u, p, PartnerSlot(p)) && HasPartner(u, p)
    {
      UnshuffledSlot(mode, n, p);
    }
    forall p, q | 0 <= p < 2 * n && 0 <= q < 2 * n && u[p].id == u[q].id
      ensures p == q
    {
      UnshuffledSlot(mode, n, p);
      UnshuffledSlot(mode, n, q);
    }
  }

  /** Exchanging two slots keeps a round well formed. */
  lemma SwapKeepsWellFormed(cards: seq<Card>, i: nat, j: nat)
    requires WellFormed(cards) && i < |cards| && j < |cards|
    ensures WellFormed(Swap(cards, i, j))
  {
    var t := Swap(cards, i, j);
    forall p | 0 <= p < |t|
      ensures HasPartner(t, p)
    {
      var src := if p == i then j else if p == j then i else p;
      var q := PartnerOf(cards, src);
      var dst := if q == i then j else if q == j then i else q;
      assert IsPartner(t, p, dst);
    }
  }

  /** The shuffle keeps a round well formed. */
  lemma {:induction false} ShuffleKeepsWellFormed(cards: seq<Card>, draws: seq<nat>, i: int)
    requires ValidDraws(draws, |cards|) && i < |cards| && WellFormed(cards)
    ensures WellFormed(ShuffleFrom(cards, draws, i))
    decreases i
  {
    if i > 0 {
      SwapKeepsWellFormed(cards, i, draws[i]);
      ShuffleKeepsWellFormed(Swap(cards, i, draws[i]), draws, i - 1);
    }
  }

  /**
   * The loops of `generateCardsData`: take the first `totalPairs` letters (or
   * numbers) and push the two cards of each, cross-referenced through `match`.
   */
  method PushPairs(mode: Mode, totalPairs: int) returns (cardsData: seq<Card>)
    ensures cardsData == Unshuffled(mode, PairCount(mode, totalPairs))
    ensures |cardsData| == 2 * PairCount(mode, totalPairs)
  {
    var n := PairCount(mode, totalPairs);
    cardsData := [];
    match mode {
      case Letters =>
        var selected := Alphabet[..n];
        for i := 0 to |selected|
          invariant cardsData == Unshuffled(Letters, i)
        {
          var letter := selected[i];
          assert letter == LetterAt(i);
          LetterStep(i);
          cardsData := cardsData + [UpperCard(letter), LowerCard(letter)];
        }
      case Numbers =>
        var numbers := Numerals[..n];
        for i := 0 to |numbers|
          invariant cardsData == Unshuffled(Numbers, i)
        {
          var num := numbers[i];
          assert num == i + 1;
          NumberStep(i);
          cardsData := cardsData + [SymbolCard(num), CountCard(num)];
        }
    }
  }

  /** `generateCardsData`: the pushed pairs, shuffled. */
  method GenerateCardsData(mode: Mode, totalPairs: int, draws: seq<nat>) returns (round: seq<Card>)
    requires ValidDraws(draws, 2 * PairCount(mode, totalPairs))
    ensures |round| == 2 * PairCount(mode, totalPairs)
    ensures multiset(round) == multiset(Unshuffled(mode, PairCount(mode, totalPairs)))
    ensures round == Shuffled(Unshuffled(mode, PairCount(mode, totalPairs)), draws)
    ensures WellFormed(round)
  {
    var cardsData := PushPairs(mode, totalPairs);
    UnshuffledWellFormed(mode, PairCount(mode, totalPairs));
    round := ShuffleArray(cardsData, draws);
    ShuffleKeepsWellFormed(cardsData, draws, |cardsData| - 1);
  }
}
