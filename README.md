# Riichi mahjong scorer and table tracker — a Dafny model

This project models the logic of `script.js`, the browser script behind a riichi-mahjong guide. The script has two parts: a hand calculator and a points tracker for a table of three or four players. The model covers:

- **Tiles and sorting** (`tiles.dfy`, module `Tiles`): a tile is a suit (`m`, `p`, `s`, wind `w` or dragon `d`) and a value. `sortTiles` orders tiles by suit, then by value.
- **Tile-count objects** (`counts.dfy`, module `TileCounts`): the scorer counts tiles with a JavaScript object keyed `suit-value`. Such an object enumerates its keys in the order they were first added. It is modelled as a list of entries in that order. Copying the object is a value copy. A decrement keeps a key in place, and a count that reaches 0 is deleted.
- **Hand validation** (`validator.dfy`, module `HandValidator`): `validateHandStructure`, `canFormWinningHand` and the set search `canFormSets`.
  - The error cases are proved against a reference meaning: at most four copies of each tile, and either seven distinct pairs or one pair plus four melds (triplets, or runs of three in a number suit starting at 7 or below).
  - The search is proved sound for every count object. It is proved complete for count objects in sorted order.
- **Yaku evaluation** (`yaku.dfy`, module `Yaku`): `analyzeHand`, `checkFuriten` and the hand-shape helpers.
  - The rule table is a list of entries built in the order the source pushes them.
  - What the table promises is proved name by name: exclusions, early returns, the han total and the fu.
- **Score conversion** (`scoring.dfy`, module `Scoring`): `calculateScoreFromHanFu` and `getLimitHandName`.
  - The table is proved equal to a two-step reference: basic points, then one payment rule.
  - Also proved: the limit rows ignore fu, the mangan cap, rounding to 100, and monotonicity in han and fu.
- **Table state** (`game.dfy`, module `GameState`): the `gameState` object is a class, `Game`. It has methods for the mode switch, a new game, a draw, a chombo, `applyScore` and `advanceRound`.
  - Points move between seats without being created or lost: a ron, a tsumo, and the riichi pool.
  - The deal passes once round the table in East and once in South, and then the game ends.
  - The manual score form passes a tsumo as one number. `applyScore` pays a tsumo only in the object form, so such a tsumo moves no points; the riichi pool is still collected and the round still advances. The model keeps this behaviour.
- **Hand buffer** (`hand_buffer.dfy`, module `HandBuilder`): the calculator's `handState` is a class, `HandBuffer`. It has the picker's click handler, removal by index, clearing, the furiten switch and the discard list.
  - The picker keeps at most 14 tiles and at most four copies of each tile.

Some inputs are parameters in the model:
- Form fields, such as the starting points, the win type and the condition check boxes.
- The hand calculator's global furiten switch and discard list, which `analyzeHand` reads.
- The click's shift key.

## Model

| member | source | states |
|---|---|---|
| Tiles.SortTiles | script.js:732-740 | the result is ordered by suit (m, p, s, w, d) and then by value, and it is a permutation of the input |
| Tiles.Insert | script.js:732-740 | inserting into an ordered list keeps it ordered and adds exactly that tile |
| Tiles.TileLeTotal | script.js:733-739 | the comparator orders any two tiles one way or the other |
| TileCounts.Tally | script.js:418-422 | the count object of a tile list: no key twice, every count positive, one key for each distinct tile, every count the number of copies, and the counts summing to the list length |
| TileCounts.CountTiles | script.js:418-422 | the `forEach` counting loop builds exactly that count object |
| TileCounts.Add | script.js:421 | `counts[key] = (counts[key] \|\| 0) + 1` adds one tile: the keys gain `key` and the total grows by one |
| TileCounts.AddKeepsWellFormed | script.js:421 | adding a tile keeps keys distinct and counts positive, and adds that tile to the counted tiles |
| TileCounts.TallyLookup | script.js:418-422 | looking up any key in the count object gives that tile's number of copies |
| TileCounts.TallyFirstKey | script.js:418-422 | the first key of the count object is the first tile of the list |
| TileCounts.Take | script.js:489-493 | subtracting `d` copies and deleting at zero keeps only existing keys and removes exactly `d` tiles |
| TileCounts.TakeMultiset | script.js:489-493 | the counted tiles lose exactly `d` copies of the key |
| TileCounts.TakeWellFormed | script.js:489-493 | the clone after the decrement and delete is again a count object |
| TileCounts.CountEqual | script.js:432 | `filter(c => c === m).length`: at most the number of keys, and equal to it exactly when every count is `m` |
| TileCounts.CountAtLeast | script.js:760 | `filter(count => count >= m).length`: 0 exactly when every count is below `m` |
| TileCounts.PairKeys | script.js:788 | the keys counted exactly twice: as many as `CountEqual(c, 2)`, each one a key with count 2 |
| TileCounts.CountEqualOne | script.js:788-789 | one key counted `m` times is the only one exactly when `CountEqual` is 1 |
| TileCounts.PairsWeigh | script.js:742-751 | a count object stands for at least one tile per key plus one more per key counted twice |
| TileCounts.TripletsWeigh | script.js:753-761 | each key counted three times or more stands for at least three tiles |
| HandValidator.TakeRun | script.js:505-512 | removing a run keeps a count object and removes exactly three tiles |
| HandValidator.TakeRunMultiset | script.js:505-512 | removing a run removes exactly the run's three tiles |
| HandValidator.CanFormSets | script.js:471-522 | a successful search leaves exactly three tiles per set |
| HandValidator.CanFormSetsBase | script.js:472-480 | with no sets left, success means no tiles are left; with sets left and no keys, the search fails |
| HandValidator.TripletStep | script.js:488-493 | taking a triplet of the first key removes exactly its three tiles and keeps a sorted count object sorted |
| HandValidator.RunStep | script.js:500-512 | taking a run from the first key removes exactly its three tiles and keeps a sorted count object sorted |
| HandValidator.SoundStep | script.js:487-518 | a successful search step takes one valid meld out of the tiles and leaves a count object the rest of the search accepts |
| HandValidator.CanFormSetsSound | script.js:471-522 | whenever the search succeeds, the counted tiles split into exactly `numSets` valid melds |
| HandValidator.CanFormSetsComplete | script.js:471-522 | on a count object in sorted order, the search succeeds whenever the tiles split into `numSets` valid melds |
| HandValidator.CompleteByTriplet | script.js:488-496 | when a split exists after taking a triplet of the first key, the search succeeds |
| HandValidator.CompleteByRun | script.js:500-517 | when a split exists after taking a run from the first key, the search succeeds |
| HandValidator.FirstMeld | script.js:482-518 | in a sorted count object, any split into melds has a meld that starts at the first key: its triplet or its run |
| HandValidator.TryPairs | script.js:452-466 | the pair loop succeeds exactly when some key from position `i` on leaves four sets after removing two copies |
| HandValidator.CanFormWinningHand | script.js:445-469 | succeeds exactly when removing two copies of some key leaves a count object that forms four sets |
| HandValidator.CanFormWinningHandSound | script.js:445-469 | when `canFormWinningHand` succeeds, the tiles are one pair plus four valid melds |
| HandValidator.CanFormWinningHandComplete | script.js:445-469 | on a sorted count object, a pair plus four valid melds makes `canFormWinningHand` succeed |
| HandValidator.ValidateCounts | script.js:424-442 | too many copies exactly when some count exceeds 4; seven keys each counted twice is accepted before the search; the pattern error exactly when neither holds and the search fails |
| HandValidator.TooManyIffOverFour | script.js:424-429 | a count above 4 exists exactly when some tile has more than four copies |
| HandValidator.SevenPairsIff | script.js:431-435 | seven keys each counted twice is exactly fourteen tiles made of seven distinct pairs |
| HandValidator.ValidateHandStructureAsWritten | script.js:416-443 | the too-many-copies error occurs exactly when some tile has more than four copies |
| HandValidator.ValidateAsWrittenSound | script.js:416-443 | a hand the source accepts has at most four copies of each tile and is seven pairs or one pair plus four melds |
| HandValidator.StuckFirstKey | script.js:482-521 | when the first key has fewer than three copies and its value plus two is absent, the search fails at once |
| HandValidator.FirstTileStuckRejects | script.js:477-521 | a hand whose first tile is a single with no tile two above it is rejected with the pattern error |
| HandValidator.OutOfOrderIsStandard | script.js:445-469 | the hand m2 m1 m3, p1×3, s1×3, s5×3, p9×2 is one pair plus four valid melds |
| HandValidator.OutOfOrderPremises | script.js:477-483 | that hand starts with m2, holds one m2, no m4, and at most four copies of each tile |
| HandValidator.FirstKeyOrderRejectsValidHand | script.js:477-483 | the source rejects that hand with the pattern error, and the corrected validator accepts it |
| HandValidator.ValidateHandStructure | script.js:416-443 | the corrected validator (sorted first) reports too many copies exactly when some tile has more than four copies |
| HandValidator.AsWrittenOnlyRejectsMore | script.js:424-442 | the order-picked validator and the sorted one agree on too many copies; whatever the first accepts the second accepts; where they differ, the first reports no winning pattern and the second accepts |
| HandValidator.ValidateHandStructureCorrect | script.js:416-443 | the corrected validator accepts exactly the hands with at most four copies of each tile that are seven pairs or one pair plus four melds |
| Yaku.FirstDiscarded | script.js:524-546 | no result exactly when no hand tile is a discard; a result is a hand tile that is also a discard, and the earliest such tile in hand order |
| Yaku.CheckFuriten | script.js:524-546 | the nested loops, with the early return on an empty discard list, find exactly that tile |
| Yaku.CheckSevenPairsIff | script.js:742-751 | on fourteen tiles, `checkSevenPairs` holds exactly when the hand is seven distinct pairs |
| Yaku.CountTripletsNone | script.js:753-761 | `countTriplets` is 0 exactly when no tile has three or more copies |
| Yaku.CountTripletsBound | script.js:753-761 | three times `countTriplets` is at most the number of tiles, so fourteen tiles hold at most four |
| Yaku.CountDragonTriplets | script.js:763-772 | at most 3, and 3 exactly when each of the three dragons has three or more copies |
| Yaku.PinfuToShape | script.js:774-813 | `checkPinfu` accepts only hands with no honour tile, no tile three times or more, and exactly one tile held twice |
| Yaku.ShapeToPinfu | script.js:774-813 | every such hand is accepted by `checkPinfu` |
| Yaku.CheckPinfuIff | script.js:774-813 | `checkPinfu` holds exactly for those hands |
| Yaku.FullFlushIff | script.js:639-640 | the full-flush test holds exactly when the hand is non-empty and every tile is of one number suit |
| Yaku.HalfFlushIff | script.js:644-647 | the half-flush test holds exactly when the suits used are one number suit and one honour suit |
| Yaku.Push | script.js:603-604 | `yaku.push(e); han += e.han` appends the entry and keeps `han` the sum of the entries' han |
| Yaku.AwardIf | script.js:621-624 | a conditional push appends the entry exactly when the condition holds and keeps the han sum |
| Yaku.PatternYaku | script.js:608-636 | seven pairs, all simples and pinfu in order; pinfu only for a closed hand that is not seven pairs; fu 25 with seven pairs, else 30 |
| Yaku.SuitYaku | script.js:638-662 | the flush and triplet entries in source order, with the han kept as their sum |
| Yaku.DragonYaku | script.js:664-675 | the dragon entries, and the early return exactly when there are three dragon triplets |
| Yaku.RiichiYaku | script.js:684-699 | the riichi and ippatsu entries in source order, with the han kept as their sum |
| Yaku.LastTileYaku | script.js:701-717 | the rinshan, chankan and haitei/houtei entries in source order, with the han kept as their sum |
| Yaku.EvaluateYaku | script.js:608-729 | the statement-by-statement rule table gives the table result |
| Yaku.PatternNames | script.js:608-636 | the names the pattern stage adds: chiitoitsu with seven pairs, tanyao with all simples, pinfu only for a closed hand that is not seven pairs |
| Yaku.SuitNames | script.js:638-662 | chinitsu with a full flush; honitsu only without it; toitoi with four or more triplets; sanankou with exactly three |
| Yaku.DragonNames | script.js:664-675 | daisangen with three dragon triplets; yakuhai with one or two |
| Yaku.RiichiNames | script.js:684-699 | double riichi when ticked; riichi only without it; ippatsu only with riichi or double riichi |
| Yaku.LastTileNames | script.js:701-717 | rinshan and chankan when ticked; the last-tile yaku is haitei on tsumo and houtei on ron |
| Yaku.MenzenHas | script.js:677-682 | menzen tsumo is listed exactly for a closed tsumo without pinfu and without seven pairs |
| Yaku.TableHas | script.js:608-729 | the table lists a name exactly when its award rule holds |
| Yaku.DaisangenLast | script.js:664-669 | with three dragon triplets the table ends with the 13-han daisangen entry after the pattern and suit entries |
| Yaku.TableDaisangen | script.js:664-669 | daisangen is listed exactly when there are three dragon triplets |
| Yaku.AwardedRules | script.js:608-729 | a name list that follows the award rules meets every exclusion the source promises |
| Yaku.TableResultRules | script.js:608-729 | the table result meets them: daisangen is last with no yakuhai or condition yaku beside it; double riichi replaces riichi; ippatsu needs riichi; menzen tsumo is never listed with pinfu or seven pairs; full flush excludes half flush; haitei on tsumo only and houtei on ron only |
| Yaku.TableTotals | script.js:719-729 | the no-yaku result has one entry, no han and 30 fu; any other table result has at least one entry and han equal to their sum |
| Yaku.AnalyzeHand | script.js:574-730 | validation of the hand in sorted order, then the furiten check, then all honours, then the table, with the source's early returns (see `Yaku.AnalyzeHand` under Left out) |
| Yaku.AnalyzeAsWrittenAgrees | script.js:580-584 | `analyzeHand` validating the tiles in the order picked gives the same result, except on the hands the picking order rejects: there it gives only the no-winning-pattern error, and the sorted validation accepts the hand |
| Yaku.AnalyzeOutOfOrder | script.js:580-584 | on m2 m1 m3, p1×3, s1×3, s5×3, p9×2, the order-picked analysis is that single error, and the model's analysis differs from it |
| Yaku.AnalyzeTotals | script.js:574-730 | every error result has han 0, fu 30 and one entry of 0 han; every other result has at least one entry and han equal to their sum |
| Yaku.AnalyzeInvalid | script.js:580-584 | a hand that fails validation gives only the validation error |
| Yaku.FuritenError | script.js:586-598 | the furiten error occurs exactly for a valid hand, with the check on, won by ron, that shares a tile with the discards; the error names a shared tile |
| Yaku.AllHonorsYakuman | script.js:600-606 | a valid hand of honours only, and not furiten, gives exactly one 13-han entry |
| Yaku.AnalyzeFu | script.js:574-730 | fu is 25 exactly for a non-error result of seven pairs that is not all honours, and 30 otherwise |
| Yaku.DaisangenEndsEvaluation | script.js:664-669 | daisangen is listed exactly for a non-error hand, not all honours, with three dragon triplets |
| Yaku.AnalyzeRules | script.js:574-730 | every result of analyzeHand meets the rule-table exclusions above |
| Scoring.RoundUp100 | script.js:913 | `Math.ceil(x / 100) * 100` is the least multiple of 100 not below `x` |
| Scoring.ScoreIsPayout | script.js:898-924 | the table equals the payments on the basic points: the limit value from five han, else `fu * 2^(2 + han)` capped at 2000; ron pays 6 or 4 times that, tsumo pays 2 times by the dealer or by everyone, and 1 time by the other non-dealers, each rounded up to 100 |
| Scoring.ScoreShape | script.js:898-924 | a ron is paid as one number, a dealer's tsumo as `{all}`, a non-dealer's tsumo as `{dealer, nondealer}` |
| Scoring.ScoreRounded | script.js:898-924 | every amount is a multiple of 100 |
| Scoring.LimitIgnoresFu | script.js:899-904 | from five han the result does not depend on fu and is the payment on the row's basic points |
| Scoring.ManganCap | script.js:906-910 | below five han, a base of 2000 or more pays exactly the five-han row |
| Scoring.NonLimitRonBound | script.js:906-913 | below five han a ron pays at most 12000 to the dealer and 8000 to anyone else |
| Scoring.BasicPointsMonotone | script.js:898-910 | more han or more fu never gives fewer basic points |
| Scoring.PayoutMonotone | script.js:912-923 | larger basic points never pay less on any share |
| Scoring.ScoreMonotone | script.js:898-924 | more han or more fu never pays less on any share |
| Scoring.GetLimitHandName | script.js:957-964 | a limit name exactly from five han |
| Scoring.LimitNameAgrees | script.js:957-964 | a named hand is paid on its limit's basic points (mangan 2000 … yakuman 8000), whatever its fu; an unnamed hand has basic points of at most 2000 |
| GameState.RonMovesPayment | script.js:1422-1426 | a ron adds the payment to the winner and takes it from the loser; nobody else changes and the total is kept |
| GameState.TsumoSharesCancel | script.js:1429-1444 | with every seat filled, and the winner not the dealer when paid as a non-dealer, the tsumo shares sum to zero |
| GameState.TsumoZeroSum | script.js:1429-1444 | such a tsumo keeps the total points |
| GameState.PayTsumo | script.js:1431-1444 | the `forEach` over the seats pays every seat its share: the winner receives, the dealer pays the dealer share, everyone else pays `nondealer \|\| all` |
| GameState.RiichiConserved | script.js:1448-1453 | a winner in riichi collects the pool, which becomes empty, and the flag is cleared; points plus pool are kept; a winner not in riichi changes nothing |
| GameState.NumberTsumoPaysNothing | script.js:1427-1429 | a tsumo whose points are a number, as the manual score form passes them, moves no points |
| GameState.PaidZeroSum | script.js:1421-1446 | paying a win with every seat filled keeps the total and the number of seats |
| GameState.ApplyScoreConserves | script.js:1421-1453 | paying a win and collecting the riichi pool keeps the points in play plus 1000 per stick |
| GameState.AdvanceRound | script.js:1467-1497 | the next dealer seat stays below the number of players |
| GameState.DealerRepeats | script.js:1469-1470 | a dealer win adds one honba and changes nothing else |
| GameState.KeepsInPlay | script.js:1467-1497 | unless the game ends, the hand after a hand in play is in play again |
| GameState.DealPasses | script.js:1471-1495 | any other win passes the deal to `(dealer + 1) % mode` and clears honba; the game ends exactly when South's last dealer loses the deal; otherwise the next hand is in play and the deal has passed once more |
| GameState.GameLength | script.js:1476-1492 | the game ends after the deal has passed `2 * mode` times |
| GameState.AfterChombo | script.js:1259-1265 | the penalty takes 8000 when the player holds that much, else leaves 0; never negative |
| GameState.SeatPlayers | script.js:1072-1082 | `mode` seats, seat `i` with the `i`-th seat wind, the starting points and no riichi; total `mode` times the starting points |
| GameState.Game.constructor | script.js:11-21 | four players, 25000 points, East 1, dealer 0, no honba or sticks, not started |
| GameState.Game.SetMode | script.js:168-169 | sets three or four players and changes nothing else in the state |
| GameState.Game.StartNewGame | script.js:1062-1082 | East 1 with dealer 0, no honba or sticks, started, and the seats of `SeatPlayers` |
| GameState.Game.Draw | script.js:1220-1226 | one more honba and nothing else |
| GameState.Game.Chombo | script.js:1256-1265 | only the chosen player changes, to the chombo result, which is never negative |
| GameState.Game.AdvanceRoundState | script.js:1467-1497 | the round fields become `AdvanceRound`'s next round; `finished` is its end-of-game flag; points and sticks are unchanged; a hand in play is followed by one in play unless the game ends |
| GameState.Game.ApplyScore | script.js:1421-1456 | the players and sticks become the paid win with the riichi pool collected, then the round advances; a hand in play is followed by one in play unless the game ends |
| HandBuilder.TileCount | script.js:270-272 | `getTileCount` is the number of copies of the tile in the hand |
| HandBuilder.Spliced | script.js:282 | `splice(index, 1)` removes the element at `index` and keeps the others in order; an index past the end changes nothing |
| HandBuilder.HandBuffer.constructor | script.js:24-29 | no tiles, no discards, furiten check off |
| HandBuilder.HandBuffer.AddTileToHand | script.js:275-279 | the tile is appended and nothing else changes |
| HandBuilder.HandBuffer.PickTile | script.js:244-265 | a shift-click marks a discard exactly when the check is on; otherwise a fifth copy is refused, a tile is added exactly below 14 tiles, and ignored at 14; at most 14 tiles and four copies are kept |
| HandBuilder.HandBuffer.RemoveTileFromHand | script.js:281-286 | the hand becomes its splice at `index`; the invariant is kept |
| HandBuilder.HandBuffer.ClearHand | script.js:288-299 | no tiles and no discards; the check keeps its setting |
| HandBuilder.HandBuffer.ToggleFuritenCheck | script.js:301-312 | the check takes the new setting and turning it off forgets the discards |
| HandBuilder.HandBuffer.AddToDiscards | script.js:337-342 | the discard is appended exactly when the check is on |
| HandBuilder.HandBuffer.RemoveDiscard | script.js:329-332 | the discards become their splice at `index` |
| HandBuilder.HandBuffer.CalculateHandScore | script.js:548-572 | no result unless the hand holds exactly 14 tiles; otherwise the result of `analyzeHand` with the check's setting and the discards |

## Left out

- Everything the script does to the page is not modelled: rendering, `alert` and `confirm`, event wiring, HTML strings and the tile glyphs. Display formatting (`formatScore`, `getPaymentDetails`, `displayHandResult`, `showGameEnd`) is also out. The end of the game is the `finished` result of `advanceRound` and `applyScore`.
- `setMode`'s change to the starting-points field is not modelled. `startNewGame` takes the starting points as a parameter, since it reads them from that field.
- `generateRoomCode`, which draws random characters, and all multiplayer and network code: `handleMultiplayerMessage`, `broadcastGameState`, `startGameFromHostRoom` and the other JavaScript files. They only send or replace the whole state.
- Player names and the tile glyph string are not modelled. The glyph is a function of suit and value.
- The `position` argument of `analyzeHand` and the `winType` argument of `checkPinfu` are never read by the source, so they are dropped.
- The hand checks `analyzeHand` consults are computed together as a `Shape` value before the rule table runs. The source computes them on the way. They are pure, so only the order of evaluation differs.
- Nothing in the script sets a player's riichi flag, so no riichi declaration is modelled. The pool is modelled as the script uses it.
- GameState.Game.ApplyScore: requires a number-valued `points` for a ron. For a tsumo paid in the object form, it requires `{all}` exactly when `isDealer`, and a non-zero non-dealer share. Outside these cases the script's arithmetic yields `NaN` or a string: an object added to or subtracted from a number, or `points.nondealer || points.all` reaching a missing field.
- GameState.PaidZeroSum: states conservation only when every seat is filled and a winner paid as a non-dealer is not the dealer seat. Otherwise the payments need not add up. For example, a dealer seat paid as a non-dealer receives the dealer share but pays out only the non-dealer shares. The model computes such payments as written.
- GameState.TsumoZeroSum: has the same conditions as `PaidZeroSum`.
- GameState.ApplyScoreConserves: has the same conditions as `PaidZeroSum`.
- Yaku.CheckSevenPairsIff: is stated for fourteen tiles, the only hands the calculator analyses. On other lengths, seven pairs plus extra single tiles also pass `checkSevenPairs`.
- Yaku.AnalyzeHand: validates the tiles in sorted order, the corrected validator of the Findings row. `analyzeHand` as written validates them in the order picked. The two differ on hands whose first-picked tile fits only a run starting below it: the script returns only the no-winning-pattern error there, and the model evaluates the hand. `Yaku.AnalyzeResultAsWritten` is the analysis as written, and `Yaku.AnalyzeAsWrittenAgrees` states the difference. The lemmas about `AnalyzeResult` (`FuritenError`, `AllHonorsYakuman`, `AnalyzeFu`, `DaisangenEndsEvaluation`, `AnalyzeRules`) are about the corrected analysis.
- HandBuilder.HandBuffer.CalculateHandScore: returns the corrected analysis, like `Yaku.AnalyzeHand`, and differs from the script on the same hands.
- HandValidator.CanFormSetsComplete: is stated for count objects in sorted order. The search as written is not complete in general; see Findings.
- JavaScript numbers are modelled as unbounded integers. All the values involved stay far below 2^53.

## Findings

| source | as written | input that shows it | evidently intended | confidence | as-written member | corrected member |
|---|---|---|---|---|---|---|
| script.js:477-483 | `canFormSets` builds its next set from the first key in the count object's enumeration order. That is the order in which tiles were first picked, not tile order. A tile that only fits into a run starting below it ends the search. | The hand m2 m1 m3, p1 p1 p1, s1 s1 s1, s5 s5 s5, p9 p9 (runs m123; triplets p1, s1, s5; pair p9) is rejected as "does not form a valid winning pattern". | Every hand of one pair plus four melds is accepted. Counting the tiles in sorted order (the script's own `sortTiles`) before the search achieves this. | not executed | HandValidator.FirstKeyOrderRejectsValidHand | HandValidator.ValidateHandStructureCorrect |

`HandValidator.ValidateHandStructureAsWritten` is the validator as written. `HandValidator.ValidateHandStructure` sorts the tiles first, and `analyzeHand` in this model uses it.
