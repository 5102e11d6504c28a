/**
 * One game session: the turn state machine of `flipCard`, `checkForMatch`,
 * `disableCards`, `unflipCards`, `resetBoard` and `startGame`, over the
 * module-level variables `firstCard`, `secondCard`, `lockBoard`, `matches`,
 * `attempts` and `totalPairs`.
 *
 * A card is identified by its slot on the board, because the game compares card
 * elements by identity. A matched card has lost its click listener; here that is
 * membership of its slot in `matched`. The one-second timer of `unflipCards` is
 * the explicit call `ResolveMismatch`.
 */
module Session {
  import opened Cards
  import opened Shuffle
  import opened RoundGenerator

  /** What a click on a card led to, for the presentation layer. */
  datatype FlipOutcome =
    | Ignored
    | FirstFlipped
    | Matched(roundComplete: bool)
    | Mismatched

  function ModeOf(lettersChecked: bool): Mode {
    if lettersChecked then Letters else Numbers
  }

  /** The difficulty step of `startGame`: easy gives 6 pairs, medium 9, neither keeps the current count. */
  function ChosenPairs(current: int, easyChecked: bool, mediumChecked: bool): (n: int)
    ensures current == 6 || current == 9 ==> n == 6 || n == 9
    ensures easyChecked ==> n == 6
    ensures !easyChecked && mediumChecked ==> n == 9
    ensures !easyChecked && !mediumChecked ==> n == current
  {
    if easyChecked then 6 else if mediumChecked then 9 else current
  }

  /** The board slots `0 .. n - 1`. */
  ghost function Slots(n: nat): set<nat> {
    if n == 0 then {} else Slots(n - 1) + {n - 1}
  }

  lemma {:induction false} SlotsContents(n: nat)
    ensures |Slots(n)| == n
    ensures forall k :: k in Slots(n) <==> 0 <= k < n
  {
    if n > 0 {
      SlotsContents(n - 1);
      assert n - 1 !in Slots(n - 1);
      assert |Slots(n - 1) + {n - 1}| == |Slots(n - 1)| + 1;
    }
  }

  /** A set of slots of a board of `n` has at most `n` members, and exactly `n` only when it is the whole board. */
  lemma SubsetOfSlots(s: set<nat>, n: nat)
    requires forall k :: k in s ==> k < n
    ensures |s| <= n
    ensures |s| == n <==> s == Slots(n)
  {
    SlotsContents(n);
    assert s <= Slots(n);
    var rest := Slots(n) - s;
    assert Slots(n) == s + rest;
    assert |Slots(n)| == |s| + |rest|;
    if |s| == n {
      assert rest == {};
    }
  }

  /** The turn registers that the match branch of `checkForMatch` reads and writes. */
  datatype Registers = Registers(
    firstCard: Option<nat>, secondCard: Option<nat>, lockBoard: bool,
    matched: set<nat>, matches: int, attempts: int)

  /** How a run of the match branch ends: with a thrown error, or normally. */
  datatype BranchEnd =
    | Threw(at: Registers)
    | Returned(at: Registers, successScheduled: bool)

  /**
   * The match branch of `checkForMatch` statement by statement, as written.
   * `disableCards` ends with `resetBoard`, which empties both slots, and only
   * then does the branch dereference `firstCard` to add an animation class.
   */
  function MatchBranchAsWritten(r: Registers, totalPairs: int): BranchEnd
    requires r.firstCard.Some? && r.secondCard.Some?
  {
    var locked := r.(lockBoard := true, attempts := r.attempts + 1);
    var disabled := locked.(matched := locked.matched + {locked.firstCard.value, locked.secondCard.value});
    var reset := disabled.(firstCard := None, secondCard := None, lockBoard := false);
    var counted := reset.(matches := reset.matches + 1);
    if counted.firstCard.None? then Threw(counted)
    else Returned(counted, counted.matches == totalPairs)
  }

  /**
   * As written, every match throws before the completion check, even the one that
   * finds the last pair: the success modal is never scheduled. The registers are
   * already fully updated when it throws.
   */
  lemma AsWrittenNeverSchedulesSuccess(r: Registers, totalPairs: int)
    requires r.firstCard.Some? && r.secondCard.Some?
    ensures MatchBranchAsWritten(r, totalPairs) == Threw(Registers(
      None, None, false, r.matched + {r.firstCard.value, r.secondCard.value},
      r.matches + 1, r.attempts + 1))
  {
  }

  /** The last pair of a six-pair round, as written: the branch throws instead of reporting completion. */
  lemma AsWrittenLastPairThrows()
    ensures MatchBranchAsWritten(Registers(Some(10), Some(11), false, {0, 1, 2, 3, 4, 5, 6, 7, 8, 9}, 5, 9), 6).Threw?
  {
  }

  class GameSession {
    var cards: seq<Card>
    var firstCard: Option<nat>
    var secondCard: Option<nat>
    var lockBoard: bool
    var matched: set<nat>
    var matches: int
    var attempts: int
    var totalPairs: int

    /**
     * The session between two calls: the round is well formed with
     * `totalPairs` pairs; matched slots come in whole pairs, two per match; a
     * held card is not matched; two held cards are a mismatch waiting to be
     * resolved, and the board is locked exactly then.
     */
    ghost predicate Valid()
      reads this
    {
      (totalPairs == 6 || totalPairs == 9) &&
      |cards| == 2 * totalPairs && WellFormed(cards) &&
      (forall k :: k in matched ==> k < |cards|) &&
      (forall a, b :: a in matched && IsPartner(cards, a, b) ==> b in matched) &&
      |matched| == 2 * matches && 0 <= matches <= attempts &&
      (firstCard.Some? ==> firstCard.value < |cards| && firstCard.value !in matched) &&
      (secondCard.Some? ==>
        firstCard.Some? && secondCard.value < |cards| && secondCard.value !in matched &&
        secondCard != firstCard && cards[firstCard.value].matchId != cards[secondCard.value].id) &&
      (lockBoard <==> secondCard.Some?)
    }

    /** The page's start-up: the initial variable values, then the first `startGame`. */
    constructor (lettersChecked: bool, easyChecked: bool, mediumChecked: bool, draws: seq<nat>)
      requires ValidDraws(draws, 2 * PairCount(ModeOf(lettersChecked), ChosenPairs(6, easyChecked, mediumChecked)))
      ensures Valid()
      ensures totalPairs == ChosenPairs(6, easyChecked, mediumChecked)
      ensures cards == Shuffled(Unshuffled(ModeOf(lettersChecked), totalPairs), draws)
      ensures firstCard.None? && secondCard.None? && !lockBoard
      ensures matched == {} && matches == 0 && attempts == 0
    {
      cards := [];
      firstCard, secondCard, lockBoard := None, None, false;
      matched := {};
      matches, attempts, totalPairs := 0, 0, 6;
      new;
      StartGame(lettersChecked, easyChecked, mediumChecked, draws);
    }

    /**
     * `startGame`: clears the board and the counters, empties both slots, picks
     * the pair count from the difficulty and deals a new round.
     */
    method StartGame(lettersChecked: bool, easyChecked: bool, mediumChecked: bool, draws: seq<nat>)
      requires totalPairs == 6 || totalPairs == 9
      requires ValidDraws(draws, 2 * PairCount(ModeOf(lettersChecked), ChosenPairs(totalPairs, easyChecked, mediumChecked)))
      modifies this
      ensures Valid()
      ensures totalPairs == ChosenPairs(old(totalPairs), easyChecked, mediumChecked)
      ensures cards == Shuffled(Unshuffled(ModeOf(lettersChecked), totalPairs), draws)
      ensures firstCard.None? && secondCard.None? && !lockBoard
      ensures matched == {} && matches == 0 && attempts == 0
    {
      matched := {};
      matches := 0;
      attempts := 0;
      ResetBoard();
      if easyChecked {
        totalPairs := 6;
      } else if mediumChecked {
        totalPairs := 9;
      }
      cards := GenerateCardsData(ModeOf(lettersChecked), totalPairs, draws);
    }

    /** `resetBoard`: both slots empty, the board unlocked. */
    method ResetBoard()
      modifies this`firstCard, this`secondCard, this`lockBoard
      ensures firstCard.None? && secondCard.None? && !lockBoard
    {
      firstCard, secondCard := None, None;
      lockBoard := false;
    }

    /** `disableCards`: both held cards become matched, then the board is reset. */
    method DisableCards()
      requires firstCard.Some? && secondCard.Some?
      modifies this`matched, this`firstCard, this`secondCard, this`lockBoard
      ensures matched == old(matched) + {old(firstCard).value, old(secondCard).value}
      ensures firstCard.None? && secondCard.None? && !lockBoard
    {
      matched := matched + {firstCard.value, secondCard.value};
      ResetBoard();
    }

    /**
     * `checkForMatch`: locks the board and counts the attempt; a match disables
     * both cards, counts it and reports whether the round is complete; a mismatch
     * leaves both cards held on the locked board.
     */
    method CheckForMatch() returns (outcome: FlipOutcome)
      requires firstCard.Some? && secondCard.Some?
      requires firstCard.value < |cards| && secondCard.value < |cards|
      modifies this`lockBoard, this`attempts, this`matches, this`matched, this`firstCard, this`secondCard
      ensures attempts == old(attempts) + 1
      ensures old(cards[firstCard.value].matchId == cards[secondCard.value].id) ==>
        outcome == Matched(matches == totalPairs) &&
        matches == old(matches) + 1 &&
        matched == old(matched) + {old(firstCard).value, old(secondCard).value} &&
        firstCard.None? && secondCard.None? && !lockBoard
      ensures old(cards[firstCard.value].matchId != cards[secondCard.value].id) ==>
        outcome == Mismatched &&
        matches == old(matches) && matched == old(matched) &&
        firstCard == old(firstCard) && secondCard == old(secondCard) && lockBoard
    {
      lockBoard := true;
      attempts := attempts + 1;
      var isMatch := cards[firstCard.value].matchId == cards[secondCard.value].id;
      if isMatch {
        DisableCards();
        matches := matches + 1;
        outcome := Matched(matches == totalPairs);
      } else {
        outcome := Mismatched;
      }
    }

    /**
     * `flipCard` on the card at slot `k`. A matched card has no listener, and a
     * click on the locked board or on the held card is ignored. A first card is
     * only held; a second card is compared with it.
     */
    method FlipCard(k: nat) returns (outcome: FlipOutcome)
      requires Valid() && k < |cards|
      modifies this
      ensures Valid()
      ensures cards == old(cards) && totalPairs == old(totalPairs)
      ensures old(k in matched || lockBoard || firstCard == Some(k)) ==>
        outcome == Ignored && unchanged(this)
      ensures old(k !in matched && !lockBoard && firstCard.None?) ==>
        outcome == FirstFlipped &&
        firstCard == Some(k) && secondCard.None? && !lockBoard &&
        matched == old(matched) && matches == old(matches) && attempts == old(attempts)
      ensures old(k !in matched && !lockBoard && firstCard.Some? && firstCard != Some(k)) ==>
        attempts == old(attempts) + 1 &&
        (outcome.Matched? || outcome.Mismatched?) &&
        (outcome.Matched? <==> old(cards[firstCard.value].matchId == cards[k].id)) &&
        (outcome.Matched? <==> IsPartner(cards, old(firstCard.value), k))
      ensures outcome.Matched? ==>
        matches == old(matches) + 1 &&
        matched == old(matched) + {old(firstCard.value), k} &&
        firstCard.None? && secondCard.None? && !lockBoard &&
        (outcome.roundComplete <==> matches == totalPairs) &&
        (outcome.roundComplete <==> matched == Slots(|cards|))
      ensures outcome.Mismatched? ==>
        matches == old(matches) && matched == old(matched) &&
        firstCard == old(firstCard) && secondCard == Some(k) && lockBoard
    {
      if k in matched || lockBoard || firstCard == Some(k) {
        return Ignored;
      }
      if firstCard.None? {
        firstCard := Some(k);
        return FirstFlipped;
      }
      var first := firstCard.value;
      MatchTestIsPartnership(cards, first, k);
      secondCard := Some(k);
      outcome := CheckForMatch();
      if outcome.Matched? {
        assert first != k && first !in old(matched) && k !in old(matched);
        assert |matched| == |old(matched)| + 2;
        forall a, b | a in matched && IsPartner(cards, a, b)
          ensures b in matched
        {
          if a == first || a == k {
            var p := PartnerOf(cards, a);
            assert b == p;
          }
        }
      }
      MatchesWithinPairs();
    }

    /**
     * The deferred body of `unflipCards`: it turns both held cards face down and
     * resets the board. With an empty slot it throws before `resetBoard`, so
     * nothing changes; that happens only when a new round started while the
     * timer was pending.
     */
    method ResolveMismatch() returns (reset: bool)
      requires Valid()
      modifies this`firstCard, this`secondCard, this`lockBoard
      ensures Valid()
      ensures reset == old(lockBoard)
      ensures reset ==> firstCard.None? && secondCard.None? && !lockBoard
      ensures !reset ==> unchanged(this)
    {
      if firstCard.None? || secondCard.None? {
        return false;
      }
      ResetBoard();
      return true;
    }

    /** Once every pair is found, every card of the board is matched: no click on it is handled again. */
    lemma CompletedRoundIsFrozen()
      requires Valid() && matches == totalPairs
      ensures forall k :: 0 <= k < |cards| ==> k in matched
    {
      MatchesWithinPairs();
      SlotsContents(|cards|);
    }

    /**
     * The match counter never exceeds the pair count, and it reaches it exactly
     * when every card of the board is matched.
     */
    lemma MatchesWithinPairs()
      requires Valid()
      ensures 0 <= matches <= totalPairs
      ensures matches == totalPairs <==> matched == Slots(|cards|)
    {
      SubsetOfSlots(matched, |cards|);
    }
  }
}
