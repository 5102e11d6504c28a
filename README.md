# Memory match: round generation and turn state machine

This project models the core of a browser memory-match game (`script.js`) in Dafny.
The game deals a round of face-down cards in cross-referenced pairs: an upper-case letter
with its lower-case letter, or a numeral with a card showing that many dots. The player
turns over two cards at a time. If the first card's `match` names the second card's `id`,
both stay matched; if not, both are turned back after a delay. The round is complete when
`matches` reaches `totalPairs`.

The model has four modules:

- `Cards` — the card record (`id`, value, class, `match`) and what makes a round well formed:
  ids are distinct, and every card's `match` names exactly one other card, whose `match`
  names it back.
- `Shuffle` — `shuffleArray`, the Fisher–Yates shuffle of a copy of the input. It is an
  array method with a descending loop, proved equal to a specification function `Shuffled`,
  and shown to be a permutation.
- `RoundGenerator` — `generateCardsData`. Its `push` loops are a method proved against the
  reference round `Unshuffled`, in which pair `k` sits at slots `2k` and `2k + 1`. The
  generated round is proved well formed, and the shuffle keeps it well formed.
- `Session` — the turn state machine, as a class `GameSession`. It holds the module-level
  variables `firstCard`, `secondCard`, `lockBoard`, `matches`, `attempts` and `totalPairs`,
  with the methods `flipCard`, `checkForMatch`, `disableCards`, `resetBoard`, `startGame`
  and the deferred body of `unflipCards`. A predicate `Valid` states the invariant every
  method keeps.

Modelling choices:

- A card is its slot on the board, because the game compares card elements by identity
  (`this === firstCard`).
- A matched card loses its click listener. In the model, that card's slot is in the set
  `matched`.
- `Math.random()` is abstracted as a caller-supplied sequence `draws`. `draws[i]` is the
  index the shuffle loop draws at `i`, and it is required to lie in `[0, i]`.
- The one-second timer of `unflipCards` is the explicit call `ResolveMismatch`. The caller
  makes that call when the timer fires.
- The state of the difficulty and mode radio buttons is passed in as booleans
  (`lettersChecked`, `easyChecked`, `mediumChecked`).

## Model

| member | source | states |
|---|---|---|
| Shuffle.ShuffleArray | script.js:104-111 | The loop over a fresh copy returns exactly `Shuffled(input, draws)`: same length and same multiset of items as the input, which is left as it was |
| Shuffle.ShuffleFromPermutes | script.js:106-109 | Every sequence of admissible swaps yields a permutation of its input |
| Shuffle.ShuffleFromKeepsTail | script.js:106-108 | Once the loop has passed slot `p`, later passes never change it |
| Shuffle.EveryItemCanLandLast | script.js:106-108 | For every item of the input, some admissible draw sequence puts it in the last slot |
| Shuffle.Swap | script.js:108 | The destructuring swap exchanges slots `i` and `j` and leaves every other slot alone |
| Shuffle.SwapPermutes | script.js:108 | An exchange keeps the same multiset of items |
| Shuffle.ShuffleFrom | script.js:106-109 | The loop passes for indices `i` down to 1 applied to a sequence: each exchanges slot `i` with slot `draws[i]`; the length is kept |
| Shuffle.Shuffled | script.js:104-111 | The whole shuffle: the passes from the last index down to 1; the length is kept |
| RoundGenerator.LetterAt | script.js:71 | The `k`-th letter of the letter string is an upper-case letter |
| RoundGenerator.SymbolSetsAreConsecutive | script.js:71-83 | The letter string is `A`..`Z` and the number list is `1`..`9` |
| RoundGenerator.PairCount | script.js:72-83 | `substring(0, totalPairs)` / `slice(0, totalPairs)` give exactly `totalPairs` symbols when it is in range, cap it at 26 / 9 above, give 0 letters below 0, and count a negative `slice` end back from 9 |
| RoundGenerator.Lower | script.js:77-78 | `toLowerCase` maps an upper-case letter to the lower-case letter at the same alphabet position |
| RoundGenerator.Decimal | script.js:88-93 | A number from 1 to 9 prints as one digit with that value |
| RoundGenerator.UpperCard | script.js:77 | The `upper-X` record: value `X`, class `uppercase`, `match` `lower-x` |
| RoundGenerator.LowerCard | script.js:78 | The `lower-x` record: value `x`, class `lowercase`, `match` `upper-X` |
| RoundGenerator.SymbolCard | script.js:88 | The `num-n` record: value `n`, class `number-symbol`, `match` `count-n` |
| RoundGenerator.CountCard | script.js:89-95 | The `count-n` record: value and count `n`, class `number-count`, `match` `num-n` |
| RoundGenerator.LetterPairIds | script.js:77-78 | `upper-X` and `lower-x` name each other through `match`, and their ids decode to slots `2k` and `2k + 1` |
| RoundGenerator.NumberPairIds | script.js:88-94 | `num-n` and `count-n` name each other through `match`, and their ids decode to slots `2k` and `2k + 1` |
| RoundGenerator.CardAt | script.js:74-97 | The card the loops push at slot `p`: pair `p / 2`, its first card (upper-case or numeral) at even slots and its second (lower-case or count) at odd slots |
| RoundGenerator.Unshuffled | script.js:74-97 | The round in push order before shuffling, `2n` cards with `CardAt(mode, p)` at slot `p`; `PushPairs` and `GenerateCardsData` are stated against it |
| RoundGenerator.CardAtIds | script.js:74-97 | The id of the card pushed at slot `p` decodes back to `p`, and its `match` is the id of the card at the partner slot |
| RoundGenerator.LetterStep | script.js:74-79 | One iteration of the letters loop appends exactly pair `k` of the reference round |
| RoundGenerator.NumberStep | script.js:85-96 | One iteration of the numbers loop appends exactly pair `k` of the reference round |
| RoundGenerator.UnshuffledSlot | script.js:74-97 | In the pushed round, slot `p` has an id unique to `p` and is the partner of its neighbour slot |
| RoundGenerator.UnshuffledWellFormed | script.js:74-97 | The pushed round has distinct ids, and every card's `match` names exactly one other card, which names it back |
| RoundGenerator.SwapKeepsWellFormed | script.js:108 | Exchanging two slots keeps the round well formed |
| RoundGenerator.ShuffleKeepsWellFormed | script.js:100-109 | The shuffle keeps the round well formed |
| RoundGenerator.PushPairs | script.js:67-98 | The push loops build exactly the reference round of `PairCount(mode, totalPairs)` pairs, `2 × PairCount` cards |
| RoundGenerator.GenerateCardsData | script.js:66-101 | The round has `2 × PairCount` cards, is a permutation of the reference round (exactly its shuffle under `draws`) and is well formed |
| Cards.PartnerOf | script.js:77-94 | In a well-formed round every card has exactly one partner, and the partner relation is symmetric |
| Cards.MatchTestIsPartnership | script.js:209 | The one-sided test `firstCard.match === secondCard.id` holds exactly when the two slots are partners |
| Session.ChosenPairs | script.js:326-330 | Easy gives 6 pairs, otherwise medium gives 9, otherwise the count is kept, so it stays 6 or 9 |
| Session.ModeOf | script.js:69 | Letters mode exactly when the letters radio button is checked, numbers mode otherwise |
| Session.MatchBranchAsWritten | script.js:211-229 | The match branch as written, statement by statement: attempt counted, both cards matched, slots emptied by `resetBoard`, match counted, then the throw at the `firstCard` dereference of line 218 |
| Session.AsWrittenNeverSchedulesSuccess | script.js:211-229 | As written, the match branch throws at the `firstCard` dereference after `resetBoard` on every match, with all counters already updated, so the completion check is never reached |
| Session.AsWrittenLastPairThrows | script.js:211-229 | The last pair of a six-pair round, as written, ends in the throw rather than in reporting completion |
| Session.GameSession.constructor | script.js:22-28 | The initial variable values followed by the first `startGame` (script line 365) give a valid session with a fresh round and zero counters |
| Session.GameSession.StartGame | script.js:316-336 | Zeroes `matches` and `attempts`, empties both slots and unlocks, picks 6/9 pairs from the difficulty, deals the shuffled round, and leaves the session valid |
| Session.GameSession.ResetBoard | script.js:269-272 | Both slots empty and the board unlocked; nothing else changes |
| Session.GameSession.DisableCards | script.js:245-253 | Both held cards join `matched` (their listeners are gone), then the board is reset |
| Session.GameSession.CheckForMatch | script.js:204-231 | Counts the attempt; a match marks both cards matched, counts it, clears both slots and reports whether `matches == totalPairs`; a mismatch keeps both cards held on the locked board |
| Session.GameSession.FlipCard | script.js:187-201 | A click on a matched card, the locked board or the held card changes nothing; a first flip only holds the card; a second flip counts one attempt and ends in `Matched` when the cards are partners and in `Mismatched` otherwise; a match adds both and completes the round exactly when every card is matched; a mismatch locks the board with both held; `Valid` is kept |
| Session.GameSession.ResolveMismatch | script.js:256-266 | When the timer fires on a locked board, it empties both slots and unlocks it; with an empty slot the callback throws and nothing changes; `Valid` is kept |
| Session.GameSession.MatchesWithinPairs | script.js:211-229 | In a valid session `0 ≤ matches ≤ totalPairs`, and `matches == totalPairs` exactly when every slot is matched |
| Session.GameSession.CompletedRoundIsFrozen | script.js:249-250 | When `matches == totalPairs`, every card is matched, so no further click is handled |
| Session.SubsetOfSlots | script.js:225 | A set of matched slots of a board of `n` has at most `n` members, and has `n` exactly when it is the whole board |

## Left out

- Element construction and the DOM (`createCard`, the board's children and layout classes,
  entry animations, script.js:114-162 and 338-361). These are presentation. A card element
  is its slot.
- `aria-pressed`, `aria-label` strings and `handleCardKeydown` (script.js:165-184). The
  keydown handler only forwards to a click, which is `FlipCard`.
- The `flipped`, `matched`, `matched-animation` and `no-match-animation` classes and their
  timers (script.js:216-223, 232-240). They carry no game state.
- script.js:233-236: line 234 opens a string literal it never closes, so the file as
  written is a SyntaxError: it never parses and no handler of it ever runs. The model, and
  the finding below, read the file with those lines repaired to their evident intent:
  the `else` branch is `unflipCards` followed by the no-match animation, which carries no
  state.
- `updateProgress` (floating-point percentage), `createConfetti` and `showSuccessModal`
  (script.js:275-313). `CheckForMatch` reports completion as `Matched(true)` instead of
  scheduling the modal.
- The settings-modal buttons and the difficulty radio listeners (script.js:31-63). The
  listeners at script.js:48-56 set `totalPairs` at once, even while a round is in play, and
  the completion test (script.js:225) and the progress bar (script.js:276) read the new
  value. Switching to easy during a nine-pair round lets `matches` climb past `totalPairs`
  (7, 8, 9 against 6), and switching to medium during a six-pair round makes completion
  unreachable. The model sets `totalPairs` only in `startGame`. So
  Session.GameSession.MatchesWithinPairs (`matches ≤ totalPairs`), the invariant `Valid`
  (`|cards| == 2 × totalPairs`), and the `roundComplete` results of
  Session.GameSession.CheckForMatch and Session.GameSession.FlipCard hold only for
  sessions whose difficulty is not changed mid-round.
- `Math.random()`: the shuffle takes its draws as a parameter, so the model says nothing about
  how evenly the draws are distributed.
- The separate `count` field of a count card always equals its `value`, so the card's face
  holds both.
- `cardsData` is a module-level variable, but only `generateCardsData` writes it and
  nothing reads it. The model treats it as a local of that function.
- Shuffle.ShuffleArray: takes the input as a sequence value rather than as a shared array,
  so that the argument stays unchanged follows from the types rather than from a frame
  proof.
- Timer interleavings: the model lets the mismatch timer fire at any call of
  `ResolveMismatch`, including after a new round, and does not model two pending timers
  racing each other.

## Findings

| source | as written | input that shows it | evidently intended | confidence | as-written member | corrected member |
|---|---|---|---|---|---|---|
| script.js:211-229 | `disableCards()` ends with `resetBoard()`, which sets `firstCard` to `null`; line 218 then calls `firstCard.classList.add(...)`, which throws a TypeError, so the `matches === totalPairs` check at line 225 never runs and the success modal is never shown | Any match, e.g. the last pair of a six-pair round (`matches` 5 → 6) | After a match, report the round complete when `matches === totalPairs` | high; not executed | Session.MatchBranchAsWritten (exhibited by Session.AsWrittenNeverSchedulesSuccess and Session.AsWrittenLastPairThrows) | Session.GameSession.CheckForMatch |
