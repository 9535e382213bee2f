# A model of a Hanabi bot's reasoning

The bot plays Hanabi, a cooperative card game in which players see every hand but their own. This project models
what the bot's decisions rest on and proves what that code is for:

- **Empathy** (`src/basics/player-elim.js`, `src/basics.js`): everyone keeps, for every card, the set of identities
  that it may still have. Clues, plays, discards and eliminations shrink these sets. In every run, for every viewer,
  the true identity of a card is never ruled out, and `card_elim` throws only when no deal fits what is believed.
- **The table** (`src/basics/State.js`, `src/basics.js`): stacks, discards, clue tokens, the countdown of the last
  round. Cards are conserved and the score is bounded in every run.
- **The endgame solver** (`src/conventions/shared/endgame-helper.js`, `endgame.js`): the memoised, pruned search for a
  run that reaches the maximum score, the probabilities of what our own unknown cards may be, and the choice of an
  action with the best win rate.
- **Drafts** (`src/StateProxy.js`): an object tree is changed through lazily created proxies; what is not written is
  shared with the original. The result is the deep copy that the same script would have produced.
- **Identity sets and fractions** (`src/basics/IdentitySet.js`, `src/tools/fraction.js`): bit masks as sets, with the
  population count through double-precision numbers, and exact rational arithmetic.
- **Good touch and hypothetical stacks** (`good_touch_elim`, `update_hypo_stacks`): loops whose decisions belong to the
  conventions of play. Whatever is decided, they end, their bookkeeping is exact, and what the decisions allow is done.

Code that works by changing variables is modelled as methods and classes with the same loops, and proved against
specification functions; closures become methods of a class over the variables they capture. A deal `w` gives every
card its true identity; "consistent" always means consistent with such a deal. A state of the search is a position
(`Pos`): the table, whose turn it is, and the identities that may still be drawn.

## Files

| files | what they hold |
|---|---|
| Cards, GameState, Variants, Table, TableLaws | identities, the table, what each action does to it, laws of whole runs |
| Beliefs, Elimination, NakedSubsets, NakedCards, LastRound, Following, CardElim, Empathy | beliefs, `card_elim`, and runs of the game as everyone sees them |
| EndgameSteps, EndgameGame, EndgamePruning, DiscardSymmetry, MemoKey, EndgameSearch | the game that is searched, pruning, the memo key, the search |
| Boards, BoardTables, MemoCollision | which tables the memo key is adequate for |
| EndgameRemaining, EndgameStart, EndgameArrangements, EndgameOdds, Fractions | the opening of the solver, arrangements, win rates |
| DraftModel, DraftSteps, DraftResult, StateProxies | drafts, finalisation, patches |
| BitMasks, IdentitySets | bit masks and the sets they stand for |
| GoodTouch, HypoStacks | the loops of `good_touch_elim` and `update_hypo_stacks` |

## Findings

1. **The memo key of `winnable_simpler` is ambiguous in the last round** (`src/conventions/shared/endgame-helper.js:25-30`,
   `:223`). Hands are joined without separators, and once the deck is empty they shrink, so the end of one hand reads
   like the start of the next. `MemoCollision.AdequateTables` says exactly for which legal tables with full hands, in
   plain suits, every pair of positions with one key has one verdict: if all cards in hands are known, for two and three
   players and for no more; if a card in a hand may be unknown, for two players only. The tables that collide are given
   for three, four, five and six players, and `MemoCollision.AskBoth` shows the consequence: one search that has seen
   the first position answers "cannot be won" for the second, which can. The solver itself starts from tables whose
   cards are all known if every other player's card is (`EndgameStart.StartIdentified`), so three players are safe
   there. (The table for three players uses a discard at eight clue tokens, which the search does not exclude.)
   Verdicts from before the last round, for its first turn (and its second, if all hands are known) and for its last
   turn are right at every table (`EndgameSearch.KeysAgreeAt`). A search that does not remember the last round is exact
   at every table (`EndgameSearch.IsWinnableUncached`).
2. **`Fraction.reduce` does not always reach lowest terms** (`src/tools/fraction.js:45-57`). Its scan for odd factors is
   bounded by the smaller of numerator and denominator, so a numerator that is not positive is only halved: -3/9 stays.
   It reaches lowest terms exactly if the numerator is positive or no odd number above 1 divides both parts
   (`Fractions.ReducesFully`). Values, sums, products and comparisons are right in all cases.
3. **`possible_actions` gets the list from before the arrangement** (`src/conventions/shared/endgame.js:207`). With our
   unknown cards written into the deck, that list counts their copies twice; it fits the arranged position only if
   nothing was arranged (`EndgameStart.OriginalListFits`).
4. **The assertion in `solve_game`** (`src/conventions/shared/endgame.js:141`) holds for consistent beliefs exactly if
   every card in the other hands is identified (`EndgameStart.MassFits`).
5. **`reset_inferences` may infer what is impossible** (`src/basics/Card.js:366-403`). A finessed card falls back on its
   whole lock. The inferences are among the possibilities if and only if the card was not finessed with a lock of which
   some but not all identities are possible (`GoodTouch.ResetMeans`).
6. **Results that are overwritten in loops.** `basic_elim` keeps the identities to revisit of the last identity only
   (`src/basics/player-elim.js:132-152`, `Following.LastTurnEnds`), and `perform_elim` reports what its last identity did
   (`src/basics/player-elim.js:171-198`, `CardElimination.CardElim.PerformElim`), so the loop of `cross_elim` can end early;
   `NakedSubsets.Unreported` is the condition under which a subset may go unreported. `good_touch_elim` skips the candidate
   after one that is dropped, and misses an identity that becomes known on a card that was updated before
   (`src/basics/player-elim.js:478-541`, `GoodTouch.GoodTouchElim.Walk`).

## Model

| member | source | states |
|---|---|---|
| Empathy.Replay | src/basics.js:20-248 | For every deck for which a run from the start of the game is legal: no elimination throws, the table is the one the actions lead to, every viewer's possibilities (and what all undrawn cards may be) contain the truth, and every player knows each card in another hand whose draw reported it (we know our own as well). All viewers have the same cards marked as clued |
| Empathy.HandleAction | src/basics.js:20-248 | One action: the table advances as the rules say, and true beliefs stay true, for every deal and legal action; whoever sees a card goes on seeing it, and a card just drawn is seen by everyone but its drawer, unless that is us |
| Empathy.OnClue | src/basics.js:20-80 | Common knowledge becomes what the clue tells, put through card_elim; every player takes that over for the clued hand and goes through card_elim as well. For everyone, touched cards have only identities the clue touches and the others none; in a variant of plain suits these are exactly those of the clued rank or suit. No common possibility is gained, exactly the listed cards are newly marked as clued, and the truth is kept |
| Empathy.OnLeave | src/basics.js:87-248 | Play and discard: everyone learns the identity of the card that leaves, and goes through card_elim with it; the truth, the marks and what is seen are kept |
| Empathy.OnDraw | src/basics.js:147-192 | A new card may be whatever its viewer thinks undrawn cards may be, which includes what it is; a reported identity is seen by every player but the drawer, and by us, and not in common; then everyone goes through card_elim |
| Empathy.TeamElim | src/basics/helper.js:59-86 | Every player's possibilities on patched cards are cut down to the common ones, the patches are applied, and the player goes through card_elim; nobody's table changes, and true views stay true |
| Empathy.SeesHandsAfter | src/basics.js:165-175 | Over a run: the cards that were seen are still seen, and with each draw the new one is |
| Empathy.SeenIsKnown | src/basics/Card.js:292-300 | A seen card is known to be what it is, in every deal that the beliefs are true of |
| Beliefs.IdentityExact | src/basics/Card.js:292-300 | A card is known to a viewer exactly if one identity agrees with everything the viewer sees of it, and to its holder exactly if one is possible |
| Variants.PlainClues | src/variants.js:141-192 | In a variant without special suits and ranks a card is touched by exactly one rank clue, its rank, and exactly one colour clue, its suit |
| Variants.PlainPossibilities | src/variants.js:242-244 | There the possibilities of a clue are exactly the identities of that rank or suit |
| Variants.SuitsAndRanks | src/variants.js:168-182 | A brownish suit is touched by no rank clue; away from the special rank a pinkish one is touched by all |
| Variants.SuitsAndColours | src/variants.js:149-153 | A whitish suit is touched by no colour clue, a rainbowish one by all |
| Variants.SpecialRankAndRanks | src/variants.js:171-179 | A card of the special rank is touched by all rank clues but its own, by none, or by at most one that is not its own, for the three kinds of special rank |
| Variants.DeceptiveTells | src/variants.js:177-179 | Two cards of a deceptive special rank are touched by the same rank clues exactly if their suits are a multiple of four apart |
| Variants.SpecialRankAndColours | src/variants.js:155-160 | Which colour clues touch a card of the special rank |
| Variants.OrdinaryRanks | src/variants.js:184-190 | Chimneys touch upwards, funnels downwards, and otherwise a rank clue touches its rank |
| Variants.OneColour | src/variants.js:162-165 | A card of a prism or of an ordinary colourable suit, away from the special rank, is touched by exactly one colour clue |
| Empathy.ElimKeepsTrue | src/basics/player-elim.js:318-330 | A refinement that keeps all consistent deals, and drops from the undrawn identities only those with every copy on a stack, discarded or in a hand, keeps a true view true |
| CardElimination.CardElimFor | src/basics/player-elim.js:24-331 | No consistent deal is lost, beliefs only get finer, nothing but held cards changes; an identity leaves `all_possible` only if every copy is accounted for; it throws only if no deal is consistent. If no possibility was lost, no naked subset is left to act on: no two or more cards worth trying take up all copies of their identities while a card in another hand may be one of them. Otherwise the search for naked subsets ran out of what it reports; identities whose copies are all accounted for are gone from every other held card; and in the last round, in common knowledge, every hand has lost every identity that it could not hold |
| CardElimination.CardElim.Run | src/basics/player-elim.js:24-330 | The same of the closures' variables: the set-up, the loop of the three eliminations and its end |
| CardElimination.CardElim.PrepareCard | src/basics/player-elim.js:55-67 | A card becomes a candidate exactly if it is worth trying, and a certainty exactly if it is identified |
| CardElimination.CardElim.CrossLoop | src/basics/player-elim.js:314-316 | The loop ends with a round of `cross_elim` that reports nothing; if no possibility was lost, the very first round had already tried every naked subset |
| Elimination.CandidatesAre | src/basics/player-elim.js:55-67 | The candidates are exactly the held cards worth trying, each once |
| NakedCards.ExhaustedGroups | src/basics/player-elim.js:160-238 | If every naked subset that the search can reach is settled, every group of cards is: said of cards, possibilities and copies, without the search |
| NakedCards.GroupReached | src/basics/player-elim.js:206-235 | For every group of cards there are choices by which the search reaches exactly its identities, hands and other certain cards |
| NakedCards.FeasibleNotOverbooked | src/basics/player-elim.js:55-67 | Beliefs that fit a deal never identify more copies than there are |
| NakedCards.CandidatesWorthTrying | src/basics/player-elim.js:62-67 | Worth trying: at least two identities, one of them still of use, and at most four of them or a clue |
| CardElimination.CardElim.UpdateMap | src/basics/player-elim.js:75-125 | Removes the identity from exactly the cards that may lose it and touches no other; change is reported if and only if there was such a card; the identities handed back are those of exactly the cards that are left with one, which are recorded as certain and are no candidates any more |
| CardElimination.CardElim.BasicElim | src/basics/player-elim.js:132-152 | Every identity it is called with that is fully accounted for is cleared from the other cards. The last of them decides what is reported, and is followed: where a card that loses it is the last copy of what it is left with, that is cleared from all other cards as well |
| Following.LastTurnEnds | src/basics/player-elim.js:132-152 | Of the identities that are fully accounted for, exactly the last one's removals are followed up, as the list to revisit is overwritten |
| Following.FollowedBy | src/basics/player-elim.js:132-152 | Cards that are left with one identity count as copies of it, so completing the copies clears it elsewhere |
| CardElimination.CardElim.PerformElim | src/basics/player-elim.js:171-198 | Without losing a consistent deal: cards of the subset that are known, and with the other certain ones are all copies, clear their identity from the hands without them; the subset's identities are gone from all other hands; if nothing shrank, nothing was left to remove. What is reported is decided by the last identity removed, or the last one fully accounted for; if neither a known card nor an accounted identity is involved and the last one could be removed, everything is reported |
| CardElimination.CardElim.ElimGroups | src/basics/player-elim.js:174-189 | Every group of known cards that takes up all copies has cleared its identity from the other hands |
| NakedSubsets.GroupStep | src/basics/player-elim.js:174-189 | One group: what could be removed at first is gone afterwards, although other groups came before |
| CardElimination.CardElim.GenSubset | src/basics/player-elim.js:206-235 | If nothing shrank, every naked subset that extends the given one has been tried; if nothing is reported, the same holds and nothing changed, unless a subset goes unreported |
| CardElimination.CardElim.CrossElim | src/basics/player-elim.js:160-238 | Sound, and if nothing shrank then no naked subset of the candidates allows a removal: the cut-off misses none; if nothing is reported, neither, unless a subset goes unreported |
| CardElimination.CardElim.EndgameElim | src/basics/player-elim.js:244-312 | The last-round rule loses no consistent deal; every hand that could not hold an identity at first has lost it, whatever the other identities changed in between; it does nothing while cards are left or on a player's own thoughts |
| CardElimination.CardElim.EndgamePerform | src/basics/player-elim.js:255-282 | Exactly this hand loses the identity, and the cards left with one identity are no candidates any more |
| CardElimination.CardElim.Holders | src/basics/player-elim.js:288-305 | The holders are the players known to hold a copy and, while copies are missing, all who have an unknown card |
| LastRound.NeverHolds | src/basics/player-elim.js:288-311 | Who cannot hold an identity cannot later either, so the order of the identities does not matter |
| CardElimination.CardElim.FindHolders | src/basics/player-elim.js:284-300 | The copies counted are those on stacks and discards and the cards known to be the identity, in whatever hand, and their holders are found |
| Elimination.AllKnownExact | src/basics/player-elim.js:132-142 | If the certain copies and the copies on stacks are all there are, then in every consistent deal the held copies are exactly the certain cards |
| Elimination.PassAgrees | src/basics/player-elim.js:75-125 | A pass keeps every deal in which none of the cards that lose the identity is it |
| Elimination.RunClears | src/basics/player-elim.js:314-330 | What one stage clears stays cleared in the later ones |
| NakedSubsets.NakedSubset | src/basics/player-elim.js:206-235 | If a group of cards and the certain cards use up all free copies of the group's identities, no other held card is one of them, in any consistent deal |
| NakedSubsets.SubsetSpares | src/basics/player-elim.js:171-198 | So removing those identities from the cards outside the group's hands loses no deal |
| NakedSubsets.GroupSpares | src/basics/player-elim.js:174-189 | The same for the cards known to be one identity when they hold all of its copies |
| NakedSubsets.CutIsLossless | src/basics/player-elim.js:206-211 | Where the enumeration is cut off, no extension of the subset by any choice of the remaining cards is naked |
| NakedSubsets.ReachedIsFaithful | src/basics/player-elim.js:222-235 | The unions and certain cards that are passed down are those of the chosen cards, for every choice |
| LastRound.AllFound | src/basics/player-elim.js:255-300 | If stacks, discards and known cards account for all copies of an identity, no other held card has it, in any consistent deal |
| TableLaws.RunKeepsTable | src/basics/State.js:66-140 | In every legal run: every copy of a card is in a hand, undrawn, played or discarded; `max_ranks` is one below the least rank lost in each suit; stacks stay below it; clue tokens stay from 0 to 8; the clock runs only when the deck is empty |
| TableLaws.ConservedStep | src/basics.js:98-225 | Each draw, clue, play and discard, failed or not, keeps the copies of every identity in balance |
| TableLaws.ScoreBound | src/basics/State.js:143 | No legal run ends with more than score + cards left + players: what `pace` measures against |
| TableLaws.LastDrawStartsCountdown | src/basics.js:154-164 | From the last draw on there is exactly one more turn for each player, and then the game has ended |
| TableLaws.Countdown | src/basics/State.js:147 | With an empty deck the game ends exactly when the turns that are left have been taken |
| TableLaws.TokensBalance | src/basics.js:74-225 | Over a run, strikes are the misplays, which give back no clue token; every clue costs one, and every other discard and every five gives one back below eight |
| TableLaws.WholeGame | src/basics/State.js:66-90 | From the start of a game: the score is the number of plays, the strikes that of misplays, the cards drawn and left are the deck, and the clue tokens are eight with what was earned and spent |
| TableLaws.NewStateOk | src/basics/State.js:66-90 | The state of a new game satisfies all the laws, for every deck |
| EndgameSteps.AdvanceSimulates | src/conventions/shared/endgame-helper.js:307-391 | A step of the search is the real sequence of actions (clue, or play or discard and then the draw); it differs only in `max_ranks`, which it never lowers, and in noting an unknown card past the end of the deck in the last round |
| EndgameSteps.AdvanceState | src/conventions/shared/endgame-helper.js:307-391 | The assignments to the copied state make exactly that step |
| EndgameGame.SaneAfter | src/conventions/shared/endgame-helper.js:270-391 | Every step, also one the search would not try, leads from a consistent position to a consistent one |
| EndgameGame.RemoveRemainingCounts | src/conventions/shared/endgame-helper.js:253-261 | Exactly one copy of the drawn identity leaves the list, and no other count changes |
| EndgamePruning.PruningIsSound | src/conventions/shared/endgame-helper.js:59-113 | From no pruned position does any run of the unpruned game reach the maximum score |
| EndgamePruning.PrunedExactly | src/conventions/shared/endgame-helper.js:59-113 | A state is given up exactly if the game has ended, or the points missing exceed the cards left plus the players who hold something needed, or in the last round the turns of such players, or a player then has to play two cards, or two players have to before the last card is drawn |
| EndgamePruning.TooFewTurns | src/conventions/shared/endgame-helper.js:60-84 | Each remaining draw and each turn of a player who holds something useful is worth at most a point, and nobody else makes one |
| EndgamePruning.TwoInOneTurn | src/conventions/shared/endgame-helper.js:86-94 | In the last round a player who alone holds two needed cards cannot play both |
| EndgamePruning.TwoStarters | src/conventions/shared/endgame-helper.js:97-102 | With one card to draw, two such players cannot both play theirs |
| EndgamePruning.FindMustPlays | src/conventions/shared/endgame-helper.js:36-53 | Exactly the identities that are needed and have all their remaining copies in the hand are listed, each once |
| EndgamePruning.MustPlaysExact | src/conventions/shared/endgame-helper.js:36-53 | An identity is listed if and only if it is needed and wholly in the hand |
| DiscardSymmetry.FirstDiscardSuffices | src/conventions/shared/endgame-helper.js:238-241 | Trying only the first discardable card finds a win exactly if trying any discardable card does, from every consistent position |
| DiscardSymmetry.AlikeEqual | src/conventions/shared/endgame-helper.js:209-247 | Positions that differ only in trash, unknown cards, discards and the order of hands are equally winnable |
| MemoKey.KeyBeforeLastRound | src/conventions/shared/endgame-helper.js:25-30 | Two positions of one search with the same key before the last round are alike, although stacks and discards are not in the key |
| MemoKey.KeyEarlyInLastRound | src/conventions/shared/endgame-helper.js:25-30 | The same in the first turn of the last round, and in its second if all hands are known |
| MemoKey.OneTurnWins | src/conventions/shared/endgame-helper.js:59-84 | With one turn left, a position that is not pruned wins by a play, so its verdict is always the same |
| EndgameSearch.KeysAgreeAt | src/conventions/shared/endgame-helper.js:209-247 | For any number of players: positions of one search with one key have one verdict before the last round, in its first turn (its second too if all hands are known) and in its last |
| EndgameSearch.Search.WinnableSimpler | src/conventions/shared/endgame-helper.js:209-247 | The memoised search returns true exactly if the position can be won, for every table, whenever the verdicts it may look up are right; it remembers its answer, and returns a remembered answer whatever it is |
| EndgameSearch.Search.WinnableIf | src/conventions/shared/endgame-helper.js:270-300 | True exactly if the move, with some draw, leads to a position that can be won, and the draws listed are exactly those, in order |
| EndgameSearch.IsWinnable | src/conventions/shared/endgame-helper.js:209-300 | The code as it stands, with everything cached, answers exactly whether some run of the full game wins: for two players, for three with known hands, and for all tables in the last two turns |
| EndgameSearch.IsWinnableUncached | src/conventions/shared/endgame-helper.js:209-300 | Pruning, first discards and the cache before the last round are exact for every consistent position of every table |
| EndgameSearch.UnlistedDrawsAreLost | src/conventions/shared/endgame.js:512-574 | Skipping the draws that `winnable_if` does not list changes no action's win rate, if positive rates are only found where the position after the draw can be won |
| EndgameSearch.FuelDrops | src/conventions/shared/endgame-helper.js:209-247 | Cards, clue tokens and turns bound the depth of the search |
| MemoCollision.AdequateTables | src/conventions/shared/endgame-helper.js:25-30 | For all legal tables of n players with full hands: equal keys mean equal verdicts exactly for n at most 3 if hands are known, and exactly for n = 2 in general |
| MemoCollision.AskBoth | src/conventions/shared/endgame-helper.js:223-245 | Asked about both positions of a collision, one search answers false for a position that can be won |
| MemoCollision.FourPlayersCollide | src/conventions/shared/endgame-helper.js:25-30 | A legal table of four full, known hands, with two positions that its search visits, one key and different verdicts |
| MemoCollision.ThreePlayersCollide | src/conventions/shared/endgame-helper.js:25-30 | The same for three players when a card in a hand is unknown |
| Boards.ActShown | src/conventions/shared/endgame-helper.js:209-391 | An act on a board, without card numbers, is one of the search's own moves and leads to the position that looks like the next board |
| Boards.StuckLoses | src/conventions/shared/endgame-helper.js:209-247 | Two points and two turns left, with both players only able to play the same card: not winnable, though not pruned |
| BoardTables.TableSane | src/conventions/shared/endgame.js:250-314 | Every legal table, with the list of its unseen cards, is a consistent position, whatever is known of the hands |
| BoardTables.TableLegal | src/basics/State.js:66-140 | The tables used as examples satisfy all the laws of the table for some deck, with every card of the variant accounted for |
| EndgameRemaining.FindRemainingIdentities | src/conventions/shared/endgame.js:250-314 | The list says for every identity how many copies are in no stack and no hand, as far as known; our own cards are listed with what they are taken to be, unless more are inferred to be something than there are copies |
| EndgameRemaining.UnseenMissing | src/conventions/shared/endgame.js:296-311 | Every identity with unseen copies is listed, with their number, and no other |
| EndgameRemaining.UnseenNotNegative | src/conventions/shared/endgame.js:266-311 | Under consistent beliefs no identity is taken to be held more often than copies are left, inferences included |
| EndgameRemaining.UnseenAreUndrawnOrBlank | src/conventions/shared/endgame.js:296-311 | The unseen copies are as many as the undrawn cards and the cards in hands that are not taken to be anything |
| EndgameStart.MassFits | src/conventions/shared/endgame.js:141 | The unseen copies are as many as the undrawn cards and our unknown cards if and only if every other card is identified |
| EndgameStart.StartIsSane | src/conventions/shared/endgame.js:82-88 | Every position that `solve_game` arranges out of a legal table is consistent: the hypothesis of all results on the search holds |
| EndgameStart.OriginalListFits | src/conventions/shared/endgame.js:207 | With the list from before the arrangement the position is consistent if and only if no card was arranged |
| EndgameStart.StartIdentified | src/conventions/shared/endgame.js:172-195 | If every other player's card is identified, all cards in hands are once ours are written |
| EndgameStart.ArrangedGames | src/conventions/shared/endgame.js:62-195 | From a legal table: probabilities of the arrangements add up to 1, in each exactly the undrawn cards are left, and each position is consistent with known hands |
| EndgameArrangements.Arrangements | src/conventions/shared/endgame.js:110-143 | Every arrangement deals out listed, possible identities and leaves exactly the undrawn cards; probabilities add up to 1; there are none exactly if no such deal exists |
| EndgameArrangements.Arrange | src/conventions/shared/endgame.js:134-136 | Every possible way to deal the unknown cards is listed; no probability is made up, and none is lost if nothing is impossible |
| EndgameArrangements.ExpandAllKeeps | src/conventions/shared/endgame.js:110-132 | A round of expansion adds one card to each arrangement and takes one from its list; the probabilities never grow, and stay the same if nothing is impossible |
| EndgameArrangements.Normalise | src/conventions/shared/endgame.js:138-143 | Dividing by the sum keeps the proportions and makes the sum exactly 1 |
| EndgameArrangements.GenHypoGames | src/conventions/shared/endgame.js:417-451 | The draws have the shares of their copies, and together probability 1; the list handed on after each has lost exactly one copy of the card drawn and is a list as before |
| EndgameArrangements.DrawLeaves | src/conventions/shared/endgame-helper.js:253-261 | Removing the card drawn leaves every other identity its copies, and lists none without copies |
| EndgameOdds.Optimize | src/conventions/shared/endgame.js:512-574 | The win rate returned is the maximum over all actions, and the actions returned are exactly those that attain it, or the first sure win: the cut-off loses nothing |
| EndgameOdds.ClueRate | src/conventions/shared/endgame.js:516-555 | A clue is judged by the game without a draw |
| EndgameOdds.MoveRate | src/conventions/shared/endgame.js:516-555 | A play or discard is judged by the games with a draw, weighted by their probabilities |
| EndgameOdds.ActionRate | src/conventions/shared/endgame.js:516-555 | The sum for one action is its exact win rate, unless the loop stopped, and then the action is worse than the best so far |
| EndgameOdds.SkippingIsFree | src/conventions/shared/endgame.js:522-526 | Skipping draws after which the rate is 0 changes no action's rate |
| Fractions.GcdIsGreatest | src/tools/fraction.js:6-11 | The result divides both numbers, and every common divisor divides it |
| Fractions.LcmIsMultiple | src/tools/fraction.js:17-19 | The division is exact, and the result a multiple of both |
| Fractions.ReducedValue | src/tools/fraction.js:45-57 | Reducing keeps the value |
| Fractions.ReducesFully | src/tools/fraction.js:45-57 | Lowest terms are reached if and only if the numerator is positive or no odd number above 1 divides both parts |
| Fractions.PlusValue | src/tools/fraction.js:63-68 | The value of a sum is the sum of the values, through the lcm and the reduction |
| Fractions.SubtractValue | src/tools/fraction.js:74-77 | The same for differences |
| Fractions.MultiplyValue | src/tools/fraction.js:83-86 | The same for products |
| Fractions.DivideValue | src/tools/fraction.js:92-95 | The quotient times the divisor has the value of the dividend, for positive divisors |
| Fractions.OrderAgrees | src/tools/fraction.js:101-113 | Comparison and equality are those of the values |
| StateProxies.Produce | src/StateProxy.js:189-208 | For every script of reads, writes and new objects: the result is what the same script makes of a deep copy, with the same sharing among the objects it reaches; an object of the original is in the result as it is exactly if nothing at or below it was written; no object of the original is changed; applying the patches to the original's fields gives the result's fields |
| StateProxies.Producer.Get | src/StateProxy.js:30-60 | A read returns a handle on what the deep copy holds there, before and after modification, and one object has at most one draft |
| StateProxies.Producer.Set | src/StateProxy.js:65-78 | A write makes the drafts stand for the deep copy with that write, and marks the draft and all above it unless the value was the one already there |
| StateProxies.Producer.MarkChanged | src/StateProxy.js:133-148 | Exactly the draft and the drafts above it become modified, with copies, and each parent lists the property |
| StateProxies.Producer.Finish | src/StateProxy.js:189-258 | Finalisation replaces every draft by its final object, and the patches lead from the original to the result |
| StateProxies.GeneratePatches | src/StateProxy.js:310-321 | There is a patch with the final value for every modified property, an addition exactly where the original had none |
| StateProxies.ApplyPatches | src/StateProxy.js:327-347 | The object's fields become those the patches describe, in order |
| StateProxies.PatchesComplete | src/StateProxy.js:310-347 | If all other properties agree, patches for the modified ones turn the one object's fields into the other's |
| DraftResult.CopiedIffWritten | src/StateProxy.js:133-148 | An object of the original is copied exactly if something at or below it was written |
| DraftResult.ImageInjective | src/StateProxy.js:217-258 | Different objects of the deep copy have different final objects |
| DraftSteps.LateChildKeeps | src/StateProxy.js:35-46 | A draft made after its parent was copied goes into the copy, and all drafts stand for the deep copy as before |
| GoodTouch.GoodTouchElim.Run | src/basics/player-elim.js:602-625 | Whatever the conventions allow, the alternation of the two loops ends although emptied cards get inferences back, and possibilities are never touched. In the end no entry of `cross_map` that was walked last allows an elimination, and neither does any candidate, unless the last walk dropped one |
| GoodTouch.GoodTouchElim.BasicElim | src/basics/player-elim.js:452-551 | Ends although the list it walks grows and candidates are dropped while they are walked. The turns are those for the identities left and then for all that became known, in order; an identity is dropped exactly if its turn changed something; if nothing changed and no candidate was dropped, no elimination was allowed |
| GoodTouch.GoodTouchElim.Walk | src/basics/player-elim.js:478-541 | One turn does what its decisions say, candidate by candidate: dropping one skips the next, and an identity that becomes known is missed on a card that was updated before |
| GoodTouch.GoodTouchElim.CrossElim | src/basics/player-elim.js:553-600 | Ends although deleted entries are replaced by new ones that the same loop visits; a card only loses what another card of an entry with as many cards as identities is known to be; if nothing changed, no entry allowed anything |
| GoodTouch.ResetLighter | src/basics/Card.js:366-403 | A reset, which happens once per card, costs more than it can give back |
| GoodTouch.ResetMeans | src/basics/Card.js:366-403 | After a reset the inferences are possible if and only if the card was not finessed with a lock that is possible only in part; and there are none if and only if nothing is possible, or nothing of the old inferences that a finessed card falls back on |
| HypoStacks.UpdateHypoStacks | src/basics/Player.js:409-547 | The first computation and the retries are all exact computations; there is a retry for every doubled identity and every non-empty beginning of its list, and no other; the result is the first of the best |
| HypoStacks.Pass | src/basics/Player.js:434-521 | Ends, plays only cards of hands, none twice and no ignored one, and leaves no playable card; the doubles recorded are those that were met, and include all that are left |
| HypoStacks.Visit | src/basics/Player.js:439-519 | An identified card goes onto its stack; one that is playable but unknown is an unknown play, and then every link it fulfils whose identity is next has been played |
| HypoStacks.GroupIs | src/basics/Player.js:470-480 | The list of an identity is the play that was doubled first and then every card that doubled one, in order |
| HypoStacks.KeysAre | src/basics/Player.js:470-480 | There is one list for each identity that was doubled |
| HypoStacks.StacksAccount | src/basics/Player.js:392-547 | The stacks never drop; every point above the play stacks is a known play or a fulfilled promise of a link, each counted once, so `hypo_score` is the play stacks and the known plays, unknown plays and fulfilled links; what counts as played is exactly what the stacks have gained |
| IdentitySets.OperationsAreSets | src/basics/IdentitySet.js:153-175 | Union, intersection and difference are those of the sets the masks stand for, for every argument form |
| IdentitySets.EqualsIsEquality | src/basics/IdentitySet.js:177-180 | Masks are equal exactly if the sets are |
| IdentitySets.HasIsMember | src/basics/IdentitySet.js:142-147 | The bit test is membership |
| IdentitySets.ParseMeans | src/basics/IdentitySet.js:52-60 | The mask of an identity, a list or a set has exactly the bits of what it lists |
| IdentitySets.Array | src/basics/IdentitySet.js:88-102 | The walk over the bits lists the members in increasing order |
| IdentitySets.MaskOfArray | src/basics/IdentitySet.js:36-102 | Round trip: the mask of the listed identities is the value of the set |
| IdentitySets.LengthIsSize | src/basics/IdentitySet.js:74-83 | The population count, product and shift included, is the number of members |
| BitMasks.LengthIsExact | src/basics/IdentitySet.js:74-83 | The product stays within the integers a double holds exactly, and the signed 32-bit shift of it gives what a wrapping product would |

## Left out

- EndgameSearch.IsWinnable: not for three players with unknown cards in hand or for four players and more before the last two turns of the game, where it is false (MemoCollision.AdequateTables, MemoCollision.AskBoth).
- Fractions.DivideValue: only positive divisors; with others the denominator would not be positive, and the solver only divides by counts and positive sums.
- Fractions.PlusValue: numbers are unbounded integers; the range in which doubles are exact is not modelled.
- HypoStacks.UpdateHypoStacks: whether a card looks playable is any function of what has been computed so far, not the conventions' own test; `hypo_map` is not kept.
- GoodTouch.GoodTouchElim.Run: which identities may be eliminated is any function of the cards and of how often the maps were refilled; the match maps themselves, the elimination of trash before the loops and links are not modelled.
- GoodTouch.GoodTouchElim.CrossElim: that a changed entry is replaced by those of its cards is in the code but not in the contract.
- StateProxies.Produce: no arrays as bases of drafts, no deletion, no null, no keys that every object inherits, no drafts inside plain objects that are not themselves finalised, no nested calls; writing undefined to a property that an object of the original does not have is excluded, other writes of undefined are not.
- StateProxies.ApplyPatches: paths of length one; `generatePatches` only ever emits those, because its tests for deeper ones compare with `undefined` and with identical objects.
- CardElimination.CardElimFor: does not claim that everything derivable is derived; where results are overwritten (Findings 6) the loops can stop early, and for possibilities that were lost on the way it is only said that the search reported nothing more.
- EndgameArrangements.Arrangements: whether an identity is impossible for a card is any relation; the fallback for no arrangements is not modelled.
- EndgameOdds.Optimize: win rates below an action are any outcomes between 0 and 1; the recursion of `winnable` over beliefs, `trivially_winnable` and its caches are not modelled.
- EndgameStart.ArrangedGames: without the selection of arrangements by Monte Carlo and the early exit when too many identities are unseen.
- IdentitySets.OperationsAreSets: sets for at most six suits, which is what fits a 32-bit mask.
- Empathy.Replay: what conventions infer is any rewriting of inferences and status; deck ids, rewinds, notes and navigation are not modelled.
- Empathy.OnLeave: a card that is discarded with unknown identity skips the common elimination, as in the source; the turn count is not tracked.
- The order in which moves are tried, time limits and logging.
- The branch of `unwinnable_state` for a player too far away to start the last round returns false like the default, so it is not separate.
- `logCard` is taken to name identities apart.
- Conventions of play, parsing of clues, chat, networking.
