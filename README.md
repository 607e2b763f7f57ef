# Sushi Go draft bots: the shared decision engine

The repository holds several interchangeable implementations of one bot entry point,
`decide(hand, state) -> index`, for the card-drafting game Sushi Go. The bots come from
different authors: Claude, ClaudeV2, ClaudeV3, deepseek, gemini, GeminiPro, LakerDawg and Drake.
Each is handed the cards in its current hand and the game-state object. It returns the
position of the card to play. This project models the engine those bots share. It has five
parts:

- **Hand-diff tracker** (`find_missing`). Hands rotate around the table. Comparing the
  hand seen at a rotation position with the same hand one rotation later shows which cards
  the opponents took from it. Module `HandDiff` defines the result as a sequence, in the
  order the Python `Counter` iteration gives. It proves that the result is the multiset
  difference truncated at zero. `FindMissing` is the counting loop, proved against that
  definition.
- **Turn-spanning ledger.** This is `update_state` in the Claude family and the inline
  prologue of `decide` in LakerDawg and Drake. Module `Game` holds the state object as a
  class (`GameState`). The fields the core writes (`hands`, `hand_num`, `player_count`,
  `start_card_num`, `total_remaining`, `enemy_cards_played`, `card_distribution`) sit next
  to the fields it only reads. Module `Ledger` states one call as a function on a value
  view of the ledger (`Observe`, `Turn`). The methods that change the object are proved to
  move it exactly as those functions say. The three Claude variants differ only in how they
  keep `total_remaining`: unclamped, clamped at zero, or not at all. Module `Prologue` holds
  the two steps LakerDawg and Drake write inline.
- **Proportional distribution estimator** (`_recompute_distribution`). Modules `Proportion`
  and `Estimator` hold it. Each of the 12 catalog card types is estimated as its count in
  the known hands plus its share of the unseen deck. The share is spread over the hands
  not yet seen. The arithmetic is exact (`real`).
- **Per-card valuation.** Each bot has its own module: `Claude`, `ClaudeV2`, `ClaudeV3`,
  `Deepseek`, `Gemini`, `GeminiPro` and `LakerDawg`. Each one's scoring is a function over
  the card kind, the own and opponents' played piles, the round, the turns left and the
  estimated distribution. Lemmas pin each branch's constants and conditions.
- **Arg-max selector.** Module `Selector` defines `IsFirstMax`: the first position that
  reaches the maximum. That is what the strict-`>` running-best loops compute, and what
  Python's `max` returns, since it keeps the first of equal keys. Every `Decide` is proved
  to return that position.

Cards are the datatype `Cards.Card`. A Maki Roll carries its roll count instead of the text
`"Maki Roll (n)"`. `Other(name)` stands for any name outside the catalog.

## Model

| member | source | states |
|---|---|---|
| HandDiff.MissingIsMultisetDifference | python/Claude_decide.py:26-35 | the cards `find_missing` returns are exactly max(old[c] − new[c], 0) copies of each card c, which is the multiset difference old − new |
| HandDiff.MissingIgnoresNewCards | python/ClaudeV2_decide.py:27-35 | a card that only the new hand holds is never reported |
| HandDiff.MissingRestoresPrevious | python/ClaudeV3_decide.py:43-51 | when the new hand is a sub-multiset of the old one, the diff plus the new hand is the old hand, and the diff's length is the difference in sizes |
| HandDiff.MissingExample | python/Drake_decide.py:24-26 | the example lists ["a","b","b","c","d"] and ["a","b","d"] give ["b","c"] |
| HandDiff.MissingOfShape | python/Drake_decide.py:24-26 | the same example holds for any four distinct cards |
| HandDiff.FindMissing | python/LakerDawg_decide.py:31-41 | the counting loop returns exactly `Missing(old, new)`, in Counter order, and its multiset is old − new |
| Cards.PlayersByHand | python/Claude_decide.py:5 | a first hand of 10/9/8/7 cards means 2/3/4/5 players (players + hand size = 12), and any other size has no entry |
| Cards.PlayerCountOrDefault | python/ClaudeV2_decide.py:40 | the lookup with default 2 always gives 2..5 players: 12 − hand size for sizes 7..10, else 2 |
| Cards.FrequencyListsCatalog | python/Claude_decide.py:7-21 | the default frequency table is positive exactly on the 12 catalog types |
| Cards.CatalogTotal | python/Claude_decide.py:7-22 | the catalog frequencies sum to 103, five short of `TOTAL_CARDS` = 108 |
| Cards.CatalogOnce | python/ClaudeV3_decide.py:7-21 | every catalog type is listed once |
| Cards.DumplingMarginal | python/ClaudeV2_decide.py:23 | one more dumpling adds n + 1 points on the `DUMP_SCORES` table while fewer than 5 are owned, and 0 from the sixth on |
| Cards.DumplingPointsTriangular | python/Claude_decide.py:156-158 | the dumpling table is the triangular numbers, capped at 5 dumplings |
| Cards.BasePriorityRanks | python/ClaudeV3_decide.py:26-39 | the shared priority table ranks the 12 catalog types 0..11 with no two equal |
| Cards.LeadingDigit | python/gemini_decide.py:82-83 | the digit after "(" in a Maki Roll name is at most 9, is the roll count for counts below 10, and is positive for a positive count |
| Cards.FlattenUpdate | python/Claude_decide.py:67-101 | replacing one known hand changes the pooled known cards by exactly that hand's cards |
| Estimator.Distribution | python/Claude_decide.py:86-101 | the distribution has exactly the 12 catalog keys, and each value is that type's estimate |
| Estimator.DistributionFallback | python/ClaudeV3_decide.py:66-80 | with no unseen hand or an empty deck, every estimate is the exact count in the known hands |
| Estimator.DistributionAtLeastKnown | python/ClaudeV2_decide.py:69-82 | while no more hands are recorded than players, every estimate is at least the known count |
| Estimator.DeckLeftCoversRemaining | python/Claude_decide.py:86-100 | when no accounted type exceeds its default frequency, the deck left is at least 5 plus any one type's remaining count |
| Estimator.DistributionBounded | python/Claude_decide.py:90-100 | under the same condition, the deck left is at least 5, and no estimate exceeds the known count plus unseen hands × unseen hand size |
| Estimator.RecomputeDistribution | python/Claude_decide.py:67-101 | the loop over the catalog leaves the distribution field equal to `Distribution` of the current ledger and changes nothing else |
| Ledger.ObserveFirstHand | python/Claude_decide.py:44-51 | the first call records [hand] at cursor 0, sets `start_card_num` to the hand size, sizes the table from the hand (2..5, default 2), sets `total_remaining` to 108, and leaves `enemy_cards_played` untouched |
| Ledger.ObserveKnownPosition | python/Claude_decide.py:54-57 | at a recorded slot, `enemy_cards_played` keeps its old prefix and gains exactly old-slot − hand; only the slot at the cursor is replaced; the number of hands, the cursor, the player count and `total_remaining` are unchanged |
| Ledger.ObserveKnownPositionConserves | python/ClaudeV3_decide.py:95-99 | when the new hand is what is left of the recorded one, the accounted cards (known hands plus opponents' plays) do not change |
| Ledger.ObserveNewPosition | python/ClaudeV2_decide.py:48-54 | at a new slot the hand is appended and opponents' plays are untouched; `total_remaining` drops by the hand size (Claude), becomes `max(0, total_remaining − |hand|)` (ClaudeV2), or is untouched (ClaudeV3) |
| Ledger.ClampedStaysNonNegative | python/ClaudeV2_decide.py:52-54 | ClaudeV2's deck count never goes negative |
| Ledger.UnclampedCanGoNegative | python/Claude_decide.py:60-62 | Claude's deck count can go below zero |
| Ledger.TurnKeepsValid | python/Claude_decide.py:257-260 | after update and cursor step, 0 ≤ `hand_num` < `player_count`, `hand_num` ≤ \|hands\| ≤ `player_count`, and before the step the observed hand sits at the cursor |
| Ledger.TurnsRotate | python/ClaudeV3_decide.py:237-238 | from a fresh state, after n turns min(n, players) hands are recorded and the cursor is at n mod players |
| Ledger.UpdateState | python/Claude_decide.py:38-63 | `update_state` moves the ledger fields exactly as `Observe` says and leaves the distribution equal to `Distribution` of the new ledger |
| Ledger.AdvanceCursor | python/Claude_decide.py:260 | the cursor becomes (`hand_num` + 1) mod `player_count`, and nothing else changes |
| Selector.FirstMax | python/ClaudeV2_decide.py:213-223 | the running-best scan returns the first position whose score is maximal |
| Selector.FirstMaxUnique | python/deepseek_decide.py:54-55 | the chosen position is determined by the scores |
| Selector.StrictMaxChosen | python/GeminiPro_decide.py:84-87 | a score strictly above all others is chosen wherever it is |
| Selector.FirstMaxShift | python/gemini_decide.py:78 | adding the same amount to every score does not change the chosen position |
| Selector.FirstMaxExtend | python/GeminiPro_decide.py:85-87 | one scan step: a new score takes over exactly when it beats the best so far |
| Claude.TempuraCompletesPair | python/Claude_decide.py:128-139 | Tempura scores 4.5 iff it completes a pair, and never more; with an even count it scores 3.0 iff at least one more is in play and a pick follows, and 0.5 iff not |
| Claude.SashimiCompletesTriple | python/Claude_decide.py:141-152 | Sashimi scores 5.0 iff it completes a triple; 3.5 iff one is owned (mod 3) with two more in play and two picks left; 2.5 iff none is owned with three in play and three picks left; 0.3 iff the triple is out of reach |
| Claude.DumplingIsMarginal | python/Claude_decide.py:154-161 | Dumpling scores the `DUMP_SCORES` marginal: owned + 1 below five, and 0 from five owned |
| Claude.MakiLeadBonus | python/Claude_decide.py:163-181 | Maki scores 1.2 per roll plus 2.0 / 0.5 / 0 as the projected rolls beat / tie / trail the per-opponent estimate (each iff) |
| Claude.NigiriOnWasabi | python/Claude_decide.py:183-188 | a nigiri scores 3·face + 1 on an unused Wasabi, and its face value otherwise |
| Claude.WasabiRange | python/Claude_decide.py:190-198 | Wasabi scores −1.0 when one is unused, and otherwise exactly 2.0 + 4.0·min(nigiri estimate / max(turns left, 1), 1.0), hence 2.0..6.0 for a non-negative estimate |
| Claude.PuddingByRound | python/Claude_decide.py:201-212 | Pudding scores 3.0 / 2.0 / 1.5 in round 3 / round 2 / any other round, plus 1.5 exactly when the own puddings trail the estimated puddings per player |
| Claude.ChopsticksWorth | python/Claude_decide.py:215-222 | Chopsticks score −1.0 when owned or at most one pick follows, and otherwise exactly 1.0 + 0.3 per pick left (so above 1.5) |
| Claude.UnknownWorthless | python/Claude_decide.py:108-222 | a card outside the catalog scores 0.0 and denies 0.0 |
| Claude.DenyBounds | python/Claude_decide.py:227-240 | the denial bonus is 0 above two players; at two or fewer it is 0.5 iff the card is high-value, 0.25 iff it is medium-value, and 0 for every other card |
| Claude.MakiCanOutrankPairCompletion | python/Claude_decide.py:163-181 | at two players a leading Maki Roll (3) totals 6.1, above the 4.75 of a Tempura that completes a pair |
| Claude.Decide | python/Claude_decide.py:245-272 | `decide` moves the ledger by one turn (deck count unclamped), keeps the ledger invariant, leaves the recomputed distribution, and returns the first index of maximal `score_card` + `deny_value` (0 for an empty hand) |
| ClaudeV2.TempuraValues | python/ClaudeV2_decide.py:99-106 | Tempura scores 15 iff the owned count is odd; with an even count, 6 iff at least one more can come and a turn remains, and 1 iff not |
| ClaudeV2.SashimiValues | python/ClaudeV2_decide.py:109-118 | Sashimi scores 18 iff it completes a triple; 9 iff one is owned (mod 3) with at least one more available and a turn left; 5 iff none is owned with at least two available and two turns left; otherwise 0.5 |
| ClaudeV2.DumplingSnowball | python/ClaudeV2_decide.py:121-124 | Dumpling scores the table marginal plus 2 per dumpling owned |
| ClaudeV2.NigiriOnWasabi | python/ClaudeV2_decide.py:149-157 | a nigiri scores 3·face + 8 iff own Wasabi outnumber own nigiri, and at least 1 always |
| ClaudeV2.WasabiValues | python/ClaudeV2_decide.py:160-173 | Wasabi scores −2 with an empty Wasabi down, and otherwise exactly 2 + 1.5·min(estimated nigiri points, turns left), hence 2 up to 2 + 1.5·turns left |
| ClaudeV2.MakiLeadBonus | python/ClaudeV2_decide.py:127-145 | Maki scores 1.5 per roll plus 3.0 / 1.5 / 0 as the projected rolls beat / tie / trail the estimate (each iff) |
| ClaudeV2.ChopsticksValues | python/ClaudeV2_decide.py:184-187 | Chopsticks score −3 when owned or late, and otherwise exactly 0.5 + 0.4 per pick left (so above 1.2) |
| ClaudeV2.PuddingValues | python/ClaudeV2_decide.py:176-181 | Pudding scores 1.5 per round number, plus 2.0 iff the own puddings trail the per-player average of estimated and owned puddings, and nothing extra otherwise |
| ClaudeV2.DenyBounds | python/ClaudeV2_decide.py:194-203 | the denial bonus is multiplier × 1.0 for a high-value card, multiplier × 0.5 for a medium one and 0 otherwise, with multiplier 1.0 at exactly two players and 0.3 else; hence within 0..1.0 |
| ClaudeV2.UnknownWorthless | python/ClaudeV2_decide.py:89-189 | a card outside the catalog scores 0 |
| ClaudeV2.Decide | python/ClaudeV2_decide.py:208-223 | `decide` moves the ledger by one turn (deck count clamped), keeps the invariant, leaves the recomputed distribution, and returns the first index of the strictly greatest total |
| ClaudeV3.UnknownWorthless | python/ClaudeV3_decide.py:123 | an unknown card starts from priority 0 and gets no adjustment or denial |
| ClaudeV3.EmptyWasabiSwing | python/ClaudeV3_decide.py:126-131 | a nigiri gets +20 iff own Wasabi outnumber own nigiri (and nothing otherwise); Wasabi scores −2 (11 − 13) iff so |
| ClaudeV3.TempuraAdjustment | python/ClaudeV3_decide.py:134-142 | Tempura scores 16 iff the owned count is odd; with an even count, 2 iff fewer than one can come or no turn remains, and 6 (unchanged) otherwise |
| ClaudeV3.WasabiSupply | python/ClaudeV3_decide.py:184-195 | without an empty Wasabi down, Wasabi scores 3 (11 − 8) iff fewer than one nigiri point is estimated to come or no pick follows, and 11 otherwise |
| ClaudeV3.PuddingAdjustment | python/ClaudeV3_decide.py:198-203 | Pudding gets the round number, plus 2 iff the own puddings trail the per-player average of estimated and owned puddings |
| ClaudeV3.SashimiAdjustment | python/ClaudeV3_decide.py:145-159 | Sashimi scores 17 iff it completes a triple, 12 iff one is owned and the triple is still reachable, 9 iff none is owned and it is reachable, and 2 iff it is not reachable |
| ClaudeV3.DumplingAdjustment | python/ClaudeV3_decide.py:162-165 | Dumpling scores 8 + the table marginal + 2 per dumpling owned |
| ClaudeV3.MakiAdjustment | python/ClaudeV3_decide.py:168-181 | Maki gets its rolls, plus 2 iff the projected total leads the per-opponent estimate |
| ClaudeV3.ChopsticksAdjustment | python/ClaudeV3_decide.py:206-210 | Chopsticks score −10 iff owned or at most one pick follows; otherwise the adjustment is 0.3 per pick left |
| ClaudeV3.DenyBounds | python/ClaudeV3_decide.py:215-226 | the denial bonus is 0 above two players and 0 for Wasabi; at two or fewer it is 1.0 iff the card is high-value and 0.5 iff it is medium-value |
| ClaudeV3.Decide | python/ClaudeV3_decide.py:231-249 | `decide` moves the ledger by one turn (no deck count), keeps the invariant, leaves the recomputed distribution, and returns the first index of maximal `_score` + `_deny` |
| Deepseek.UnknownScore | python/deepseek_decide.py:64-65 | an unknown card scores 0.5 when it is the only copy in the hand, and 0 otherwise |
| Deepseek.LastCopyBonus | python/deepseek_decide.py:185-187 | a card whose copy in the hand is the only one gets +0.5 over base plus adjustment, and no other card does |
| Deepseek.NigiriOnWasabi | python/deepseek_decide.py:68-80 | with an unused Wasabi a nigiri is worth 3× its face (+6/+4/+2 over base), and its base otherwise |
| Deepseek.WasabiAdjustment | python/deepseek_decide.py:82-96 | the Wasabi adjustment is −2 iff one is unused (the only negative case); otherwise +5 iff the hand holds a nigiri and +3 if it holds none |
| Deepseek.SetAdjustments | python/deepseek_decide.py:99-120 | Tempura gets +2.5 iff the owned count is odd and −0.5 iff it is even; Sashimi gets +6.67 / +3.33 / 0 iff owned mod 3 is 2 / 1 / 0 |
| Deepseek.DumplingAdjustment | python/deepseek_decide.py:123-132 | Dumpling gets current + 1 below five owned, and −5 from five |
| Deepseek.ChopsticksAdjustment | python/deepseek_decide.py:171-179 | Chopsticks get +8 iff round 1 before turn 5, +5 iff round 2 before turn 5, and +2 iff neither |
| Deepseek.PuddingAdjustment | python/deepseek_decide.py:153-168 | Pudding gets +5 / +10 / +20 by round (any round past 2 as the last) plus +10 / +5 / −5 for owning none, one or more; always within 0..30 |
| Deepseek.MakiAdjustment | python/deepseek_decide.py:135-150 | Maki gets 1.5 per roll digit when the distinct-name total passes 5, else 0.5 per digit; always within 0..13.5 |
| Deepseek.DistinctMakiAtMostAll | python/deepseek_decide.py:141-145 | the Maki total counts each distinct Maki name once, so it never exceeds the digits of every copy |
| Deepseek.DistinctMakiCountsNamesOnce | python/deepseek_decide.py:141-145 | two Maki Roll (2) cards in the pile count as 2 rolls, not 4 |
| Deepseek.Decide | python/deepseek_decide.py:25-56 | `decide` returns the first index of maximal score and does not change the state |
| Gemini.MissingKeysDefault | python/gemini_decide.py:44 | a state without `played_cards` or `round` reads as an empty pile and round 1 |
| Gemini.UnknownScoresDumplingTerm | python/gemini_decide.py:63 | an unknown card scores only 2 × owned Dumplings |
| Gemini.NigiriAfterAnyWasabi | python/gemini_decide.py:66-67 | every nigiri gets +20 iff any Wasabi was ever played, used or not |
| Gemini.SetBonuses | python/gemini_decide.py:70-75 | Tempura gets +10 iff the owned count is odd; Sashimi gets +10 iff owned mod 3 ≠ 0 |
| Gemini.MakiAndPudding | python/gemini_decide.py:82-87 | Maki gets + its roll digit; Pudding gets + the round |
| Gemini.DumplingTermNeutral | python/gemini_decide.py:78 | the Dumpling term is the same for every card, so the chosen index is the one the other bonuses choose |
| Gemini.Decide | python/gemini_decide.py:38-56 | `decide` returns the first index of maximal priority and does not change the state |
| GeminiPro.TierOneOrder | python/GeminiPro_decide.py:28-37 | with an empty own Wasabi, Squid / Salmon / Egg score 100 / 85 / 80 |
| GeminiPro.SetCompletions | python/GeminiPro_decide.py:30-33 | with more than 3 cards left, Sashimi scores 95 iff it completes a triple, and Tempura 90 iff it completes a pair |
| GeminiPro.LatePenaltyHitsCompletions | python/GeminiPro_decide.py:59-62 | with 3 or fewer cards left a completing Sashimi scores −5, a completing Tempura −10, and Wasabi −100 |
| GeminiPro.DenialTier | python/GeminiPro_decide.py:39-43 | Sashimi scores 75 when the enemy has 2 or more Sashimi, and Squid scores 70 when only the enemy has an empty Wasabi |
| GeminiPro.MakiAnyTime | python/GeminiPro_decide.py:45-48 | any Maki Roll scores 40 + 5 × its roll digit, whatever the number of cards left |
| GeminiPro.PuddingAndChopsticks | python/GeminiPro_decide.py:64-75 | Pudding scores 30, or 50 in round 3; Chopsticks score 50 with 7 or more cards left, else −100 |
| GeminiPro.Fallbacks | python/GeminiPro_decide.py:77-82 | where no tier scored: Squid 25, Dumpling 15 + 5 per owned Dumpling, Salmon 10, Egg 5 |
| GeminiPro.SetupTier | python/GeminiPro_decide.py:51-57 | with seven or more cards left, Wasabi scores 65, a Sashimi starting a triple 60 (when no denial tier applies) and a Tempura starting a pair 55; with four to six left a Wasabi scores 0 |
| GeminiPro.ScoreAboveSentinel | python/GeminiPro_decide.py:8-9 | no score is below −100, and only late Wasabi / Sashimi / Tempura / Chopsticks reach it, so the −999 start is always beaten |
| GeminiPro.UnknownScoresZero | python/GeminiPro_decide.py:24-82 | a card outside the catalog scores 0 |
| GeminiPro.SentinelScanStep | python/GeminiPro_decide.py:84-87 | one step of the running-best loop from −999 keeps the first maximum of the scores seen so far |
| GeminiPro.Scan | python/GeminiPro_decide.py:8-87 | the loop returns 0 for an empty hand, and otherwise the first index of the strictly greatest score |
| GeminiPro.Decide | python/GeminiPro_decide.py:3-88 | `decide` returns that index, reading the state without changing it |
| LakerDawg.FirstCall | python/LakerDawg_decide.py:82-85 | the first call sizes the table from the hand (players + hand size = 12), records [hand] and reports nothing played |
| LakerDawg.KnownSlot | python/LakerDawg_decide.py:107-111 | a later call appends exactly the missing cards, in order, replaces only the slot at the cursor, and leaves the cursor and player count unchanged |
| LakerDawg.KnownCountsExact | python/LakerDawg_decide.py:113-118 | the distribution has a key exactly for each known card, and its floor is that card's count |
| LakerDawg.LookupsSucceed | python/LakerDawg_decide.py:148-156 | after the prologue the Tempura and Sashimi lookups in the distribution never miss |
| LakerDawg.TempuraParity | python/LakerDawg_decide.py:148-149 | Tempura gets +10 iff the known hands hold an even number of Tempura |
| LakerDawg.SashimiBonus | python/LakerDawg_decide.py:152-156 | Sashimi gets a bonus iff the known count is not a multiple of 3 and owned mod 3 ≠ 0; under the first condition the bonus is 2 iff owned mod 3 = 1 and 20 iff owned mod 3 = 2 |
| LakerDawg.OtherBonuses | python/LakerDawg_decide.py:141-168 | a nigiri gets +20 iff any Wasabi was played; Maki gets + its roll digit; Pudding gets + the round; unknown cards get nothing |
| LakerDawg.DumplingTermNeutral | python/LakerDawg_decide.py:159 | the Dumpling term never changes the chosen index |
| LakerDawg.RunPrologue | python/LakerDawg_decide.py:82-118 | the prologue moves the ledger as `Observe` says and leaves the distribution equal to the counts of the known hands |
| LakerDawg.KnownCards | python/LakerDawg_decide.py:113-115 | the `known_cards` loop returns all cards of all hands, in order |
| LakerDawg.Choose | python/LakerDawg_decide.py:126-134 | the priority loop and `max` return the first index of maximal priority |
| LakerDawg.Decide | python/LakerDawg_decide.py:78-134 | `decide` runs the prologue, never moves the cursor, and returns the first index of maximal priority |
| Prologue.Initialise | python/Drake_decide.py:31-33 | the first call sets the player count from the table and records [hand]; later calls change nothing here |
| Prologue.DiffAndReplace | python/Drake_decide.py:37-41 | the missing cards are appended one by one to `enemy_cards_played` and the slot at the cursor is replaced |
| Drake.SecondCallFails | python/Drake_decide.py:35-38 | as written, the second call of a round (1 hand recorded, cursor 1) takes the diff branch and indexes past the end |
| Drake.CorrectedMatchesLedger | python/Drake_decide.py:35-41 | with the guard corrected to `<=`, the step is the Claude-family ledger step, and it agrees with the step as written wherever that one succeeds |
| Drake.CorrectedKeepsValid | python/Drake_decide.py:35-45 | with the corrected guard every call keeps the ledger invariant and the hand sits at the cursor before it moves on |
| Drake.Decide | python/Drake_decide.py:30-45 | `decide` (corrected guard) records or diffs the hand, moves the cursor to (`hand_num` + 1) mod `player_count`, keeps the invariant and returns 0, a valid index for any non-empty hand |

## Left out

- Floating point. Scores and estimates are exact `real`s, so IEEE rounding is not modelled. For example, 6.67 and 3.33 are exact decimals here. Integer scores (gemini, LakerDawg, GeminiPro) are cast to `real` only for the selector.
- python/decide.py is not part of this model. It references undefined names, so every call raises.
- The game client classes and the round and match orchestration are not part of this model. `GameState` holds only the fields the bots read and write. The fields the orchestrator owns (`played_cards`, `round`, `puddings`, the Wasabi and Chopsticks flags) are inputs.
- String parsing of `"Maki Roll (n)"` is replaced by the roll count carried in `Card`. The bots that read one character after "(" use `LeadingDigit`.
- Deepseek.Decide: deepseek's fallback of 1 roll when parsing fails is not modelled. Every Maki card carries its count, so that path cannot be taken.
- Python exceptions become preconditions:
  - the `players[len(hand)]` KeyError for hand sizes outside 7..10 (LakerDawg, Drake);
  - the IndexError of the Drake guard, which is modelled as written in `Drake.ObserveAsWritten` (see Findings);
  - LakerDawg's new-slot branch, which appends the hand and then raises UnboundLocalError at python/LakerDawg_decide.py:89. `LakerDawg.Ready` excludes it. LakerDawg never moves the cursor, so the branch is unreachable from a fresh state. Its estimator (python/LakerDawg_decide.py:91-103) is therefore not modelled.
- Deepseek.Decide, Gemini.Decide, LakerDawg.Decide: all three require a non-empty hand, because Python's `max` raises on an empty sequence.
- LakerDawg's local `start_card_num` (python/LakerDawg_decide.py:85) is a local that the state never sees, so it is left out.
- The Claude family's default `hand_size` of 9 for an unset `start_card_num` is left out. The ledger always sets that field on the first call, so the default is never used.
- List aliasing is not modelled. Drake and LakerDawg append the caller's list without copying. Sequences are values here.
- `total_remaining` is written but never read. It is modelled only as bookkeeping (`Ledger.Bookkeeping`).
- Strategy-quality claims are not modelled; the code does not guarantee them. `Claude.MakiCanOutrankPairCompletion` shows that set completion does not always win.
- Unused imports and the unused score tables are left out.

## Findings

| source | as written | input that shows it | evidently intended | confidence | as-written member | corrected member |
|---|---|---|---|---|---|---|
| python/Drake_decide.py:35 | `if len(state.hands) < state.hand_num:` appends only when the cursor is strictly past the last recorded hand; at cursor == \|hands\| it indexes `state.hands[hand_num]` | any hand of 7..10 cards, then any second hand: after the first call one hand is recorded and `hand_num` is 1, so the second call reads `state.hands[1]` and raises IndexError | `<=`, so a new rotation slot is recorded, as the Claude-family `update_state` does | high; not executed | Drake.SecondCallFails | Drake.CorrectedKeepsValid |
