# Sets: a Dafny model of the IRC game's board and rules

This project models the core of the `Sets` plugin for the supybot IRC bot.
The plugin plays the card game Sets in a channel:

- twelve distinct cards are dealt at the key positions `q w e r / a s d f / z x c v`;
- a player names a Set by typing its three keys;
- each guess is judged against the Sets not yet found and the Sets already found, and scored;
- the game ends when the last Set is found.

The model follows the three nested classes of `plugin.py`.

- `Card` is a value: shape, number, colour and pattern, compared attribute
  by attribute. The `Cards` module models it.
- `Board` owns the cards and two lists of Set keys, `sets` (not yet found)
  and `foundSets`.
  - The `Rules` module holds the Set rule (`allSameOrDifferent`, `isASet`).
  - The `Keys` module holds the key map and the canonical sorted key of a triple.
  - The `Boards` module holds:
    - the triple loop `findSets`, as a method;
    - the redraw loops of the constructor: one round of twelve draws as
      `DrawBoard`, and the rounds until a board has a Set as `Deal`, both
      proved equal to the reference definitions `FillBoard` and `DealFrom`;
    - the `Board` class, whose `CheckAnswer` method mutates `sets`,
      `foundSets` and `setCount` in place, as the source does.
- `CheckAnswer` is proved equal to a pure specification in the `Judging` module:
  - `Judge` classifies one guess;
  - `JudgeAll` folds `Judge` over a batch.
  The properties of a batch are proved there.
- `Game` (module `Games`) owns one board, the `scores` map and the
  `isRunning` flag. Its `Answer` method credits the player and ends the game
  on the last Set.

The plugin is Python 2, and the score of a found Set is written with floats.
Under Python 2 the last-Set bonus `(setCount==totalNumSets)/2` is an integer
division and always 0, and `round` sends halves away from zero. The model
therefore scores the c-th Set of T as `(5*c + T) / (2*T) + 1` in integers,
which is always between 1 and 4. The term `(setCount==totalNumSets)/2` reads
as a half-point bonus for the last Set. The model follows the code and
proves, in `Judging.IntendedBonusChangesNothing`, that a half-point bonus
would not change any score.

Random card drawing is replaced by inputs:
- a board is built from given cards;
- `Deal` draws from a given finite sequence of cards, each of which the
  level can deal (`Cards.InDomain`).

## Model

| member | source | states |
|---|---|---|
| Cards.Differ | plugin.py:436-440 | two cards differ exactly when some attribute differs, and that is value inequality |
| Cards.Same | plugin.py:442-443 | card equality is the negation of inequality and holds exactly when all four attributes agree |
| Cards.InDomain | plugin.py:421-434 | a card a level can deal is light gray exactly in the monochrome level, and has a pattern only outside the normal level |
| Rules.AllSameOrDifferent | plugin.py:394-395 | the three values pass exactly when the three pairwise comparisons agree: all equal or all unequal |
| Rules.AllSameOrDifferentBySize | plugin.py:394-395 | the rule holds exactly when the three values do not take exactly two distinct values (all one value, or three) |
| Rules.AllSameOrDifferentSymmetric | plugin.py:394-395 | the rule does not depend on the order of its arguments |
| Rules.IsASet | plugin.py:399-410 | whatever the order and early returns of the checks, three cards are a Set exactly when shape, number and colour each pass, and pattern too outside the normal level |
| Rules.IsASetSymmetric | plugin.py:399-410 | being a Set is unchanged by every permutation of the three cards |
| Rules.NormalIgnoresPattern | plugin.py:405-407 | in the normal level, changing the patterns never changes whether three cards are a Set |
| Rules.HardSetIsNormalSet | plugin.py:399-410 | a hard-level Set is a normal-level Set, and the hard and monochrome rules agree |
| Rules.NormalDomainIsFullRule | plugin.py:431-434 | on the plain cards a normal game deals, the normal rule equals the four-attribute rule |
| Rules.MonochromeIgnoresColor | plugin.py:426-427 | on the light-gray cards of a monochrome game, a Set is decided by shape, number and pattern |
| Lists.IndexOf | plugin.py:350 | `list.index` returns the first position holding the element |
| Lists.RemoveFirst | plugin.py:341 | removing an element that is present shortens the list by one |
| Lists.RemoveFirstDistinct | plugin.py:341 | removing a present element from a list without repetitions leaves exactly the other elements, without repetitions, one shorter |
| Keys.KeyIndex | plugin.py:296-298 | the position of a key is in range and the key map at that position gives the key back |
| Keys.KeyIndexInverts | plugin.py:296-298 | looking up the key of a position gives the position back |
| Keys.KeyIndexFindsKeys | plugin.py:296-298 | a position is found exactly for the twelve keys |
| Keys.KeymapInjective | plugin.py:296-298 | different positions have different keys |
| Keys.Sort3 | plugin.py:336 | the sorted form of a three-character guess has three characters in ascending order |
| Keys.Sort3Permutes | plugin.py:336 | sorting keeps the same characters with the same multiplicities |
| Keys.Sort3Repeats | plugin.py:336-337 | the adjacent-equal test on the sorted guess detects exactly a guess that repeats a key |
| Keys.SortedUnique | plugin.py:336 | two ascending strings of the same three characters are equal |
| Keys.Sort3Canonical | plugin.py:336 | guesses with the same characters in any order sort to the same string |
| Keys.Sort3Sorted | plugin.py:336 | sorting an ascending string leaves it unchanged |
| Keys.Key | plugin.py:325-326 | the stored key of a position triple is three characters in ascending order |
| Keys.KeyChars | plugin.py:325-326 | the stored key holds exactly the keys of its three positions |
| Keys.KeyCanonical | plugin.py:325-326 | the key of three different positions is three different keys in ascending order |
| Keys.KeyInjective | plugin.py:325-326 | different ascending position triples have different keys |
| Keys.CanonicalIsKey | plugin.py:325-326 | every ascending string of three different keys is the key of some ascending position triple |
| Keys.GuessKey | plugin.py:336 | a guess naming three positions in any order sorts to the key of those positions |
| Judging.RoundHalfUp | plugin.py:345 | Python 2 rounding of a non-negative rational gives the integer within a half of it, halves going up |
| Judging.RoundUnique | plugin.py:345 | that rounding is the only integer within a half of the rational |
| Judging.ScoreFor | plugin.py:345-346 | the points for a found Set are between 1 and 4 |
| Judging.ScoreClosedForm | plugin.py:345-346 | the points for the c-th Set of T are `(5*c + T) / (2*T) + 1` in integer arithmetic |
| Judging.ScoreExamples | plugin.py:345-346 | with five Sets on the board, the first found is worth 2 and the last 4 |
| Judging.IntendedBonusChangesNothing | plugin.py:346 | a real half-point bonus for the last Set would give the same points as the integer division does |
| Judging.Judge | plugin.py:336-356 | one guess: invalid exactly on a repeated key; good exactly when its sorted form is not yet found; dup exactly when already found; otherwise wrong. Only a good guess moves its key from `sets` to `foundSets` and increments the count. Points are ScoreFor, -2 or 0. The split of the board's Sets is kept |
| Judging.Record | plugin.py:338-356 | a judged guess counts under its own outcome and no other, a good guess is listed in order, and its points are added to the total |
| Judging.JudgeAllNext | plugin.py:333-334 | a batch one guess longer is the shorter batch followed by judging that guess |
| Judging.JudgeAll | plugin.py:331-357 | judging a batch keeps the invariant of the two lists and their joint contents |
| Judging.SortAll | plugin.py:336 | each entry is the sorted form of the guess at the same position |
| Judging.TallyCountsEveryGuess | plugin.py:333-356 | good, wrong, duplicate and invalid guesses add up to the number of guesses |
| Judging.BatchFindsGoodGuesses | plugin.py:341-343 | a batch appends exactly the sorted good guesses to `foundSets`, in order, and counts them |
| Judging.BatchRemovesGoodGuesses | plugin.py:341 | a batch removes exactly the sorted good guesses from `sets` |
| Judging.BatchScoreBounds | plugin.py:344-356 | the points of a batch lie between one and four per good guess, minus two per wrong guess |
| Judging.NoGoodGuessNoChange | plugin.py:337-356 | a batch without a good guess leaves both lists and the count unchanged |
| Judging.BadIffOutsidePool | plugin.py:347-356 | a guess without a repeated key is wrong exactly when its sorted form is in neither list |
| Judging.GoodThenDup | plugin.py:341-352 | a Set guessed again right after being found is a duplicate worth nothing |
| Judging.SingleGuess | plugin.py:333-334 | a batch of one guess is that guess judged alone |
| Judging.SameSetTwiceInBatch | plugin.py:333-356 | the same Set twice in one batch: one good guess, one duplicate, and only the first scores |
| Boards.FindSets | plugin.py:318-327 | the result holds the key of each ascending position triple whose cards are a Set, and nothing else. Every key is three different keys in ascending order, and no key repeats. The keys come in the order the loop visits their triples, which is the order the Sets are later listed |
| Boards.EnumeratedSetsAreExact | plugin.py:318-327 | a key is in the enumeration exactly when it is the key of a triple whose cards are a Set |
| Boards.EnumerationEmptyIffNoSet | plugin.py:301-312 | the enumeration is empty exactly when no three cards form a Set |
| Boards.FillBoard | plugin.py:303-311 | a round that completes places twelve pairwise-unequal cards, extending those already placed, taken from the draws, using at least one draw per card placed |
| Boards.FillNoneIffFewCards | plugin.py:303-311 | a round runs out of draws exactly when the cards placed and the draws left hold fewer than twelve different cards |
| Boards.DrawBoard | plugin.py:302-311 | the draw loops compute exactly the round `FillBoard` defines |
| Boards.DealFrom | plugin.py:301-312 | a board the deal gives has twelve pairwise-unequal drawn cards and a Set |
| Boards.DealFirstBoard | plugin.py:301-312 | when the first twelve draws are different and hold a Set, they are the board dealt |
| Boards.DealExtends | plugin.py:301-312 | a board dealt from some draws is still dealt when more draws follow: the deal depends only on the draws it used |
| Boards.DealNoneIffRanOut | plugin.py:301-312 | the deal gives no board exactly when one of its rounds (reached because every earlier board had no Set) starts where the draws left hold fewer than twelve different cards |
| Boards.Deal | plugin.py:301-312 | the redraw loop gives exactly the board `DealFrom` defines: twelve pairwise-unequal drawn cards the level can deal, with a Set, and the first twelve draws when they qualify |
| Boards.SetsText | plugin.py:368-370 | an empty list of Sets reads "-none-" |
| Boards.Join | plugin.py:382 | joining gives the empty string for no parts, and otherwise starts with the first part and ends with the last |
| Boards.JoinLength | plugin.py:382 | keys of three characters joined by a separator have the expected length |
| Boards.NoneOnlyWhenEmpty | plugin.py:368-383 | the text of a list of Sets is "-none-" exactly when the list is empty |
| Boards.Board.constructor | plugin.py:292-315 | a new board has the given cards; `sets` holds every Set and `foundSets` none; `setCount` is 0; `totalNumSets` is the number of Sets |
| Boards.Board.CheckAnswer | plugin.py:331-357 | the new lists and count, and the returned good guesses, counts and points, are those of `JudgeAll`; the lists still split the board's Sets |
| Boards.Board.NotFoundSetsText | plugin.py:386-387 | no Set left to find reads "-none-" |
| Boards.Board.FoundSetsText | plugin.py:390-391 | no Set found reads "-none-" |
| Boards.WrongIffNotASet | plugin.py:318-356 | on a board in play, a guess of three different positions is never invalid, and it is wrong exactly when its cards are not a Set, in any order |
| Games.Credit | plugin.py:281-283 | the player's score grows by the points, from 0 for a new player; every other score is unchanged; no other player appears |
| Games.FormatPoints | plugin.py:236-246 | red for negative, yellow for zero, green for positive points; a "+" only for positive points when asked for |
| Games.Game.constructor | plugin.py:161-175 | a new game is running on a fresh board of its level, with no scores |
| Games.Game.NotFoundSetsCount | plugin.py:185-186 | the Sets left to find number the Sets dealt minus those found |
| Games.Game.NotFoundSetsExist | plugin.py:188-189 | Sets remain exactly while fewer have been found than were dealt |
| Games.Game.GameOver | plugin.py:227-228 | the game stops running |
| Games.Game.Answer | plugin.py:277-287 | an empty batch changes nothing. Otherwise the board moves to the state `JudgeAll` gives, the player is credited with the batch's points, and the game stops exactly when a good guess left no Set to find. A game that stops has every Set found |
| Games.StartGame | plugin.py:88-95 | a game is started exactly when the deal gives a board; it is running, with no scores, on a fresh board in its initial state (every Set still to find, none found, count 0) holding the dealt cards, which are the first twelve draws when those are different and hold a Set |

## Left out

- The IRC layer is not modelled:
  - the `sets`, `giveup` and `show` commands, `doPrivmsg` and `gameIsRunning`;
  - `reply` and message queueing;
  - the texts a game prints when it starts and ends.
- The regular expressions that extract guesses from a message are not modelled. A guess is any three-character string. The judging handles any characters, as `checkAnswer` does.
- `random.Random` in the card constructor is replaced by given cards. `Cards.InDomain` states which cards each level can draw.
- Boards.Deal: the source redraws forever. The model draws from a finite sequence, and running out of draws gives no board. That is the "no Sets ... Aborting" branch, which the source itself never reaches.
- Boards.Board.constructor: it takes its cards from `Deal` or the caller instead of drawing them itself. It does not require the cards to be ones the level can deal; `Deal` and `StartGame` do.
- Games.FormatPoints: it returns the colour, sign and number. The IRC colour-code string and Python's `str` of the number are not built.
- Boards.SetsText: only the plain form is modelled, keys joined by ", ". The verbose form, which renders each card, is left out.
- `displayText`, `displayBoard`, `displayScores`, `displayRemainingCount`, `answerResponse` and the card rendering are text formatting and are not modelled. So are the order in which a dictionary is iterated and the remaining-count wording.
- Games.Game.GameOver: the printing of the Sets not found and of the final scores is left out; only the flag is modelled.
- The float arithmetic of the score is replaced by its exact integer value under Python 2 (see above).
