# Daily challenges, line meter and line budget — a Dafny model

This project models the state-keeping core of a coding-challenge web client. The client has three parts.

- **The daily competition** (`daily-challenges.js`). It picks one challenge per day from the shared challenge store, accepts one submission per user per day and keeps a leaderboard ordered by `mm:ss` time. It scores line efficiency, keeps per-user day streaks, and pays line rewards for rank and streak milestones.
- **The friends league** (`daily-challenges.js`). It does three things:
  - keeps a duplicate-free friend list;
  - shows a friends-only leaderboard;
  - runs one-on-one wagers that go `pending` → `accepted` → `completed`, settled by the first two finishes.
- **The line meter** (`line-tracker.js`) and **the line budget** (`app.js`).
  - The meter charges one "line" per distinct hint, code option or distractor explanation a player opens, and posts running totals to the app.
  - The app keeps a monthly line allowance: roll-over top-ups, usage charged from the meter's messages, credits to challenge creators, membership upgrades, a guarded challenge generator with a 50-entry history, and a keyword search for similar challenges.

Inputs from the browser are explicit parameters:
- `localStorage` values are fields, `seq`s and `map`s.
- Days are integers, so "yesterday" is `today - 1`.
- Clock readings are integer milliseconds.
- A `Math.random` pick is a caller-supplied index, with a precondition that bounds it.

Modules, one per file:

| file | module | models |
|---|---|---|
| `wrappers.dfy` | `Wrappers` | `Option` (JavaScript `null`/`undefined`/NaN) |
| `seqs.dfy` | `Seqs` | `Array.prototype.filter`, duplicate-freedom, order-preserving subsequences |
| `strings.dfy` | `Strings` | decimal digits, `split`, ASCII `toLowerCase`, `includes`, `startsWith` |
| `elapsed_time.dfy` | `ElapsedTime` | `timeToSeconds` and the `mm:ss` formatting of `complete` |
| `stable_sort.dfy` | `StableSort` | the stable sort by a numeric key used by both leaderboards |
| `records.dfy` | `Records` | challenges, line-history records, the stored line balance shared by the engine and the league |
| `scoring.dfy` | `Scoring` | `calculateEfficiency`, `calculateRewards` |
| `streaks.dfy` | `Streaks` | the `updateStreak` rule |
| `friends_league.dfy` | `FriendsLeagues` | `FriendsLeague` |
| `daily_challenges.dfy` | `DailyChallenges` | `DailyChallengeManager` and the day record |
| `line_tracker.dfy` | `LineTracking` | `LineTracker` |
| `challenge_search.dfy` | `ChallengeSearch` | `searchSimilarChallenges` |
| `line_budget.dfy` | `LineBudget` | the line-budget globals of `app.js` as class `LineAccount` |

The code sorts with a comparator. A stable JavaScript sort with that comparator yields exactly one order: the entries sorted by key, with equal keys kept in their original order. `StableSort.SortBy` is an insertion sort. `StableSort.StableSortUnique` proves that only one sequence is sorted by key and keeps the per-key order of its input. So the model's leaderboard is the one the client computes.

## Model

| member | source | states |
|---|---|---|
| `ElapsedTime.MinutesSeconds` | daily-challenges.js:143-146 | "mm:ss" with digit fields reads as `minutes * 60 + seconds` |
| `ElapsedTime.TimeToSeconds` | daily-challenges.js:143-146 | a string without ':' is not a time; a time has at least two ':'-separated fields, the first two readable by `Number`, and is worth the first times 60 plus the second |
| `ElapsedTime.FieldValue` | daily-challenges.js:144-145 | `Number` of a field: a digit string reads as its value, '-' and a non-empty digit string as the negated value, every other string (any with ':' among them) as no number |
| `ElapsedTime.JsRemainder60` | line-tracker.js:112 | JavaScript `%` by 60: the Euclidean remainder for t >= 0; in (-60, 0] for t < 0; always t less a multiple of 60 |
| `ElapsedTime.IntString` | line-tracker.js:113 | `String(n)`: the decimal digits for n >= 0, a '-' before the digits of -n otherwise, never empty |
| `ElapsedTime.PadStart2` | line-tracker.js:113 | `padStart(2, '0')`: a string of two or more characters is kept; a shorter one gets zeros in front up to length 2 |
| `ElapsedTime.NegativeElapsed` | line-tracker.js:110-113 | a clock 1.5 s behind the start gives "-1:-2", which `timeToSeconds` reads as -62, not the -2 s elapsed |
| `ElapsedTime.Pad2` | line-tracker.js:113 | `String(n).padStart(2, '0')`: for n >= 0 a digit string with value n, two characters long below 100; for n < 0 a '-' and the digits of -n |
| `ElapsedTime.FormatTimeRoundTrip` | line-tracker.js:110-113 | for a non-negative elapsed time the string of `complete` has one ':' and a two-digit seconds field below 60; `timeToSeconds` reads back the seconds it was made from |
| `ElapsedTime.ExampleTime` | daily-challenges.js:143-146 | "02:15" is 135 seconds |
| `Strings.DecimalRoundTrip` | line-tracker.js:15 | the decimal text of a number reads back as that number |
| `Strings.DecimalInjective` | line-tracker.js:15 | distinct numbers have distinct decimal text |
| `Strings.DecimalString` | line-tracker.js:15 | the text of a number is a non-empty digit string |
| `Strings.Split` | daily-challenges.js:144 | `split` gives at least one piece |
| `Strings.SplitPieces` | daily-challenges.js:144 | no piece of `split` holds the separator |
| `Strings.SplitNoSeparator` | daily-challenges.js:144 | a string without the separator splits into itself alone |
| `Strings.ToLower` | app.js:141 | `toLowerCase` keeps the length, turns each ASCII capital into its small letter and leaves every other character alone |
| `Strings.Contains` | app.js:145-146 | `includes`: the empty needle always occurs; a needle that occurs is no longer than the text; a prefix occurs |
| `Strings.SplitTwo` | daily-challenges.js:144 | `split` at a separator occurring once gives exactly the two sides |
| `Strings.ContainsIff` | app.js:145-146 | `includes` holds exactly when the needle occurs at some position |
| `Seqs.Filter` | daily-challenges.js:312 | `filter` keeps exactly the elements satisfying the predicate, no more elements than it had |
| `Seqs.FilterIdempotent` | daily-challenges.js:311-314 | filtering twice by the same test is filtering once, so `removeFriend` is idempotent |
| `Seqs.FindIndex` | daily-challenges.js:161 | `findIndex`: the first index whose element passes the test, -1 exactly when none does |
| `Seqs.FilterSubsequence` | app.js:142-148 | what `filter` keeps is an order-preserving subsequence of its input |
| `Seqs.FilterCount` | app.js:141 | `filter` keeps every copy of a passing element and no copy of a failing one |
| `StableSort.InsertPos` | daily-challenges.js:118-120 | a new entry lands after every entry with a key at most its own and before every greater one |
| `StableSort.SortBy` | daily-challenges.js:118-120 | the sort keeps the number of entries (its ordering is stated by `StableSort.SortByCorrect`) |
| `StableSort.SortByCorrect` | daily-challenges.js:118-120 | the sort result is sorted by key, keeps the order of entries with equal keys, and is a permutation of its input |
| `StableSort.SortByMembers` | daily-challenges.js:118-120 | every entry of the sort result is an entry of its input |
| `StableSort.StableSortUnique` | daily-challenges.js:118-120 | two stable sorts of the same input by the same key are equal |
| `StableSort.PushThenSort` | daily-challenges.js:115-120 | pushing onto a sorted leaderboard and re-sorting inserts the entry in place |
| `StableSort.SortBySortedIdentity` | daily-challenges.js:118-120 | sorting a sorted sequence leaves it unchanged |
| `Scoring.CalculateEfficiency` | daily-challenges.js:149-157 | 100 at or below two lines per step, 0 at or beyond six, in between the value rounded half up: `(2e-1)s <= 300s-50l < (2e+1)s`; always in [0, 100] |
| `Scoring.EfficiencyMonotone` | daily-challenges.js:149-157 | more lines never raise the score for a fixed number of steps |
| `Scoring.EfficiencyZeroSteps` | daily-challenges.js:149-157 | with zero steps no division happens: 100 for no lines, 0 otherwise |
| `Scoring.ExampleEfficiency` | daily-challenges.js:149-157 | 20 lines on 15 steps scores 100 |
| `Scoring.CalculateRewards` | daily-challenges.js:195-229 | the total is rank bonus + streak bonus + 10, between 10 and 5510 |
| `Scoring.RankBonus` | daily-challenges.js:201-209 | the rank bonus is 500 exactly at rank 1, 200 exactly at ranks 2 and 3, 100 exactly at every other rank up to 10 (rank 0 included), and 0 beyond |
| `Scoring.RankBonusMonotone` | daily-challenges.js:201-209 | a better rank never earns a smaller rank bonus |
| `Scoring.StreakBonus` | daily-challenges.js:212-221 | the streak bonus is never negative and positive exactly at the milestone counts |
| `Scoring.StreakBonusAtMilestones` | daily-challenges.js:212-221 | the streak bonus is paid exactly at counts 3, 7, 14, 30, 50 and 100 |
| `Scoring.RewardTable` | daily-challenges.js:195-229 | boundary totals, including rank 0 earning the rank-10 bonus and the 14-, 30- and 50-day milestones |
| `Streaks.NextStreak` | daily-challenges.js:165-192 | the count continues after yesterday's credit or from 0, else restarts at 1; the best streak never falls and is at least the count; the last date becomes today |
| `Streaks.ConsecutiveDays` | daily-challenges.js:174-186 | n consecutive daily credits add n to a continuing streak |
| `Streaks.FreshRun` | daily-challenges.js:167-175 | from no record, n consecutive days give a streak of exactly n |
| `Streaks.BestNeverDecreases` | daily-challenges.js:182-184 | over any sequence of credits the best streak never goes down |
| `Streaks.GapResets` | daily-challenges.js:176-179 | after a gap of two days or more the streak restarts at 1 |
| `FriendsLeagues.DecideFair` | daily-challenges.js:398-406 | between two different users the winner and loser are the two users; the winner is strictly faster or it is the second completer; a tie goes to the second completer |
| `FriendsLeagues.Decide` | daily-challenges.js:398-401 | winner and loser are among the two completers, different when they are; the first completer wins exactly when strictly faster (for two different users) |
| `FriendsLeagues.Complete` | daily-challenges.js:394-406 | one completion appended, nothing else but status and outcome changes; from the second completion on the record is `completed` with a winner and a loser |
| `FriendsLeagues.NewChallenge` | daily-challenges.js:343-351 | a new challenge is pending with no completions and no outcome |
| `FriendsLeagues.Accept` | daily-challenges.js:365-367 | accepting sets `accepted` and the time whatever the prior status, and keeps the outcome invariant |
| `FriendsLeagues.CompleteTransition` | daily-challenges.js:382-410 | completing appends exactly one completion; from the second on the record is `completed` with the decision on the first two; before that nothing is decided |
| `FriendsLeagues.LaterCompletionKeepsOutcome` | daily-challenges.js:394-406 | a third or later completion leaves winner and loser as they were |
| `FriendsLeagues.FindChallenge` | daily-challenges.js:363 | `find` by id: the first match, or none when no record has the id |
| `FriendsLeagues.FriendIds` | daily-challenges.js:328 | the friends' ids, one per friend, in order |
| `FriendsLeagues.FriendsLeague.FriendsCompletions` | daily-challenges.js:322-331 | the stored completions by friends or the current user, in stored order, each such completion kept |
| `FriendsLeagues.FriendsBoardMembers` | daily-challenges.js:328-331 | every row of the friends board is a stored completion by a friend or by the current user |
| `FriendsLeagues.FriendsBoardFacts` | daily-challenges.js:322-338 | the board is a stable time sort of the completions by friends or by the current user |
| `FriendsLeagues.KeptFriendsDistinct` | daily-challenges.js:311-314 | removing friends keeps the friend ids duplicate-free |
| `FriendsLeagues.FilterDistinct` | daily-challenges.js:311-314 | a filtered friend list with distinct ids still has distinct ids |
| `FriendsLeagues.FriendsLeague.constructor` | daily-challenges.js:292-294 | loads the stored friend list and challenge records |
| `FriendsLeagues.FriendsLeague.AddFriend` | daily-challenges.js:297-308 | answers true and appends the friend exactly when no friend has the id; otherwise the list is unchanged |
| `FriendsLeagues.FriendsLeague.RemoveFriend` | daily-challenges.js:311-314 | drops every friend with the id, keeps the others in order |
| `FriendsLeagues.FriendsLeague.FriendsLeaderboard` | daily-challenges.js:322-338 | only stored completions by friends or the current user, sorted by time, equal times in stored order, none lost |
| `FriendsLeagues.FriendsLeague.ChallengeFriend` | daily-challenges.js:342-358 | appends and returns a pending challenge from the current user; the wager defaults to 100 |
| `FriendsLeagues.FriendsLeague.AcceptChallenge` | daily-challenges.js:361-372 | unknown id: nothing changes; otherwise the first match becomes accepted |
| `FriendsLeagues.FriendsLeague.CompleteChallenge` | daily-challenges.js:375-415 | unknown id: null and nothing changes; otherwise one completion appended, and from the second on the outcome is settled and the wager paid |
| `FriendsLeagues.FriendsLeague.AwardChallengeWin` | daily-challenges.js:418-435 | the winner is credited only when it is the current user; the loser is never debited; the win is logged |
| `FriendsLeagues.FriendsLeague.PendingChallenges` | daily-challenges.js:444-450 | exactly the pending challenges sent to the user, in stored order |
| `FriendsLeagues.FriendsLeague.ActiveChallenges` | daily-challenges.js:453-459 | exactly the accepted challenges the user sent or received, in stored order |
| `DailyChallenges.EffectiveRating` | daily-challenges.js:43 | a missing or zero rating counts as 3.0 |
| `DailyChallenges.Candidates` | daily-challenges.js:39-53 | the suitable challenges when there are any, every suitable one included, otherwise the whole store |
| `DailyChallenges.DefaultChallenge` | daily-challenges.js:80-90 | the default is serial "default", medium, 15 steps, Python, and is itself not suitable |
| `DailyChallenges.SelectChallenge` | daily-challenges.js:46-57 | a suitable stored challenge when one exists, else a stored one, else the default |
| `DailyChallenges.GenerateDailyChallenge` | daily-challenges.js:30-70 | today's new record holds the selected challenge and its serial, no participants and an empty leaderboard, and is well formed |
| `DailyChallenges.LoadTodaysChallenge` | daily-challenges.js:12-27 | a stored record dated today is reused unchanged; otherwise a new one is generated |
| `DailyChallenges.FindEntry` | daily-challenges.js:161 | `findIndex` by user id: the first row of the user, -1 exactly when there is none |
| `DailyChallenges.Rank` | daily-challenges.js:160-162 | the 1-based position of the user's first row, 0 exactly when the user has none |
| `DailyChallenges.RankOfRow` | daily-challenges.js:160-162 | with distinct ids the row at position i has rank i + 1 |
| `DailyChallenges.SliceEnd` | daily-challenges.js:255 | where `slice(0, limit)` ends, negative limits counting from the end |
| `DailyChallenges.Leaderboard` | daily-challenges.js:254-256 | the first `limit` rows |
| `DailyChallenges.LeaderboardPrefix` | daily-challenges.js:254-256 | the top rows are time-ordered and each shows its own rank |
| `DailyChallenges.GetUserStats` | daily-challenges.js:264-275 | null exactly when the user has no row; otherwise the user's row and rank |
| `DailyChallenges.Join` | daily-challenges.js:104-120 | a first submission appends the user to the participants, adds exactly its row to the leaderboard, and changes nothing else |
| `DailyChallenges.JoinKeepsDay` | daily-challenges.js:104-128 | a first submission keeps the day record well formed: one row per participant, distinct ids, the same id sets, sorted by time; the new row sits at its insertion point and the user's rank is that position + 1 |
| `DailyChallenges.JoinPermutes` | daily-challenges.js:115-120 | the new leaderboard is a permutation of the old one plus the new row, stably sorted |
| `DailyChallenges.JoinRows` | daily-challenges.js:115-120 | push then sort is insertion at the row's position, after every row at most as fast and before every slower one, and the result is sorted |
| `DailyChallenges.JoinParticipants` | daily-challenges.js:104-112 | the participant list after a first submission is duplicate-free and holds exactly the users on the new leaderboard |
| `DailyChallenges.InsertRow` | daily-challenges.js:104-115 | inserting the row of a new user keeps ids distinct and adds exactly that user |
| `DailyChallenges.DailyChallengeManager.constructor` | daily-challenges.js:5-9 | today's record is loaded or generated; the manager's invariant holds |
| `DailyChallenges.DailyChallengeManager.HasCompletedToday` | daily-challenges.js:93-95 | being a participant is the same as having a rank |
| `DailyChallenges.DailyChallengeManager.UpdateStreak` | daily-challenges.js:165-192 | the user's record advances by the streak rule; no other user's record changes |
| `DailyChallenges.DailyChallengeManager.AwardLines` | daily-challenges.js:232-251 | the balance is credited only for the current user; the reward is always logged |
| `DailyChallenges.DailyChallengeManager.Enter` | daily-challenges.js:104-120 | the new row goes in at its insertion point, the record stays well formed and the rank is that position + 1 |
| `DailyChallenges.DailyChallengeManager.SubmitCompletion` | daily-challenges.js:98-140 | a repeat submission reports the rank and changes nothing; a first one inserts its row by time, ranks the user in [1, rows], advances the streak and pays the rewards |
| `DailyChallenges.DailyChallengeManager.GetLeaderboard` | daily-challenges.js:254-256 | a time-ordered prefix of today's board as long as `slice(0, limit)` makes it, each row at its rank |
| `DailyChallenges.DefaultLeaderboardTopTen` | daily-challenges.js:254-256 | without a limit the board shows the first ten rows, or all of them when there are fewer |
| `DailyChallenges.DailyChallengeManager.GetFriendsLeaderboard` | daily-challenges.js:259-261 | today's serial's completions by friends or the current user, stably sorted by time, a permutation of them |
| `LineTracking.HintKey` | line-tracker.js:15 | a hint key has the hint prefix and neither other prefix |
| `LineTracking.CodeKey` | line-tracker.js:34 | a code key has the code prefix and neither other prefix |
| `LineTracking.CommentKey` | line-tracker.js:55 | a distractor key has the comment prefix and neither other prefix |
| `LineTracking.PairInjective` | line-tracker.js:34 | "i-j" determines i and j |
| `LineTracking.HintKeyInjective` | line-tracker.js:15 | `hint-i` determines i |
| `LineTracking.CodeKeyInjective` | line-tracker.js:34 | `code-i-j` determines i and j |
| `LineTracking.CommentKeyInjective` | line-tracker.js:55 | `comment-i-j` determines i and j |
| `LineTracking.KeyInjective` | line-tracker.js:15-55 | two views share a key exactly when they are the same kind on the same step and option |
| `LineTracking.KeyPrefix` | line-tracker.js:173-175 | each key starts with its own kind's prefix and with no other |
| `LineTracking.KeySetIff` | line-tracker.js:16-56 | a key has been charged exactly when some recorded view viewed that thing |
| `LineTracking.KeySetMembers` | line-tracker.js:16-56 | every charged key belongs to a recorded view |
| `LineTracking.SumUpTo` | line-tracker.js:78 | 1 + 2 + ... + k = k(k+1)/2 |
| `LineTracking.ChargeKeepsMeter` | line-tracker.js:14-83 | charging a new view and posting the new total keeps lines = keys = views and the posted totals 1..k |
| `LineTracking.MeterChargesTriangle` | line-tracker.js:74-83 | inside the app's frame the posted `lines` of k views add up to k(k+1)/2 |
| `LineTracking.CompletionKeepsMeter` | line-tracker.js:115-125 | the completion message posts no line total |
| `LineTracking.AppendCapped` | line-tracker.js:148-167 | the new record is last; one shift only past 100, so a log of at most 100 stays at most 100 |
| `LineTracking.PrefixesPartition` | line-tracker.js:170-179 | the hint, code and comment keys split the viewed keys into disjoint parts covering all of them |
| `LineTracking.LineTracker.constructor` | line-tracker.js:5-11 | no lines, no views, no messages |
| `LineTracking.LineTracker.SendLineUpdate` | line-tracker.js:74-83 | inside the frame, posts the running total, not the increment |
| `LineTracking.LineTracker.Track` | line-tracker.js:14-71 | a new key adds one line, one key and one view and posts the total; a repeated key changes nothing |
| `LineTracking.LineTracker.TrackHintView` | line-tracker.js:14-30 | the hint view is charged once per step |
| `LineTracking.LineTracker.TrackCodeOptionView` | line-tracker.js:33-51 | the code option view is charged once per step and option |
| `LineTracking.LineTracker.TrackDistractorView` | line-tracker.js:54-71 | the distractor view is charged once per step and distractor |
| `LineTracking.LineTracker.ChargedIffNew` | line-tracker.js:16 | a view is charged exactly when no earlier view viewed the same thing |
| `LineTracking.LineTracker.Complete` | line-tracker.js:109-129 | the time string is the elapsed whole seconds formatted as `complete` does, for any clock reading; when the clock is not behind the start it reads back as those seconds; the completion is posted and saved |
| `LineTracking.LineTracker.SaveCompletion` | line-tracker.js:148-167 | the log after push and the shift past 100 |
| `LineTracking.LineTracker.GetStats` | line-tracker.js:170-179 | the hint, code and distractor counts are the numbers of recorded views of each kind, and add up to the lines used |
| `LineTracking.KindCount` | line-tracker.js:172-174 | while each recorded view has its own key, the keys with a kind's prefix are as many as the views of that kind |
| `LineTracking.KindPrefix` | line-tracker.js:172-174 | a key's prefix names the kind of view it was made for |
| `LineTracking.KeySetSize` | line-tracker.js:16-56 | there are never more charged keys than recorded views |
| `ChallengeSearch.Keywords` | app.js:141 | an order-preserving selection of the lowercased words, split at spaces: every word longer than three characters and no other |
| `ChallengeSearch.KeywordRepeats` | app.js:141 | a word longer than three characters appears among the keywords as often as in the question; a shorter one never |
| `ChallengeSearch.MatchCountAppend` | app.js:146 | keyword hits add up over a split keyword list, repeats counted |
| `ChallengeSearch.SearchSimilarChallenges` | app.js:137-151 | exactly the similar stored challenges, in store order |
| `ChallengeSearch.RepeatedKeywordMatches` | app.js:141-147 | a keyword typed twice counts twice, so it alone makes a challenge containing it similar |
| `LineBudget.MembershipTiers` | app.js:12-17 | every tier allocates at least 1000 lines; only the free tier costs nothing |
| `LineBudget.TiersAscend` | app.js:12-17 | each tier up allocates more lines and costs more |
| `LineBudget.MonthlyReset` | app.js:41-76 | a first check sets the reset date without a top-up; a reset date before the month rolls the tier's lines over, clears usage and sets the date; otherwise nothing changes |
| `LineBudget.ResetIdempotent` | app.js:41-76 | a second check in the same month changes nothing |
| `LineBudget.ResetRollsOver` | app.js:61-66 | the lines left grow by the allocation and what had been used |
| `LineBudget.TwoMonths` | app.js:53-69 | two new months add two allocations |
| `LineBudget.Charge` | app.js:395-397 | usage grows by n and the balance is untouched |
| `LineBudget.Upgrade` | app.js:455-465 | the new tier and expiry, its lines added at once |
| `LineBudget.FindSerial` | app.js:413 | `find` by serial: the first match, or none |
| `LineBudget.CreditedStore` | app.js:411-421 | a missing serial or the current user's challenge leaves the store unchanged; otherwise only the found challenge changes, by one use and the lines earned |
| `LineBudget.Title` | app.js:273 | the first 50 characters of the question, followed by "..." exactly when it is longer |
| `LineBudget.PushHistory` | app.js:286-289 | the new entry first, at most 50 entries, the rest a prefix of the old history |
| `LineBudget.HistoryEntry` | app.js:270-284 | a generated challenge is created by "You" with no uses and no earnings |
| `LineBudget.StoreEntry` | app.js:317-331 | the store copy is the current user's, with no `createdBy` and no uses or earnings; every other field of the entry is kept |
| `LineBudget.OwnChallengeEarnsNothing` | app.js:314-421 | playing the challenge one just generated credits nobody |
| `LineBudget.LineAccount.SetBudget` | app.js:61-69 | the budget globals (lines, usage, tier, expiry, reset date, new-user flag) take exactly the values a budget step computed |
| `LineBudget.LineAccount.constructor` | app.js:2-9 | the globals read from storage |
| `LineBudget.LineAccount.CheckMonthlyReset` | app.js:41-76 | the budget after the monthly check |
| `LineBudget.LineAccount.TrackLinesUsed` | app.js:395-408 | usage grows by n, the balance is untouched, and one usage record is logged |
| `LineBudget.LineAccount.CreditLinesToCreator` | app.js:411-438 | the store credit, and the balance credit and log only for a challenge created by "You" |
| `LineBudget.LineAccount.UpgradeMembership` | app.js:455-465 | the budget after an upgrade |
| `LineBudget.LineAccount.GenerateChallenge` | app.js:189-311 | an empty question or no lines left stops before anything changes; past those, an empty custom language stops, a found similar challenge is reused, a failed request fails and otherwise the challenge is created; only a created challenge changes the history, the store and the current challenge |
| `LineBudget.LineAccount.Record` | app.js:286-296 | a created challenge goes first into the history, capped at 50, and first into the store, and becomes the current challenge |
| `LineBudget.LineAccount.OnMessage` | app.js:491-507 | a `linesUsed` message charges its lines, logs the usage and credits the named challenge's creator; other messages change nothing |

## Left out

- Browser set-up and display are not modelled. This covers the iframe and DOM code, `updateLocalDisplay`, `updateMembershipUI`, history and store rendering, `show*`/`hide*`, dialogs, the clipboard and the commented usage examples. None of it keeps state.
- `server.js`, `c.js` and `syllabus.js` are not part of this model. They are HTTP routing, a call to an external text API, static data and page bootstrap.
- The clock is a parameter throughout. `getEndOfDay` and `getTimeRemaining` only read or format the wall clock, so they are left out. Day numbers stand for `toDateString` and local-time-zone day boundaries.
- `updateStreak` computes "yesterday" from the wall clock but stamps `currentDate`, which was fixed when the page loaded. The model uses `currentDate - 1`, so the two agree. It does not capture a page that stays open past midnight.
- Randomness is a parameter. The daily pick is a caller-supplied index. Serial numbers and ids in `generateSerialNumber` and `Date.now().toString()` are inputs.
- Storage round-trips are not modelled. Stored values are fields. `localStorage` JSON encoding is left out. So is the fact that `app.js` and `daily-challenges.js` each hold their own copy of `monthlyLines` and `lineHistory` and can overwrite each other's writes. The model gives the engine and the league one shared `Records.LineWallet` (the manager's constructor requires `friendsLeague.wallet == wallet`), and `app.js` its own `LineBudget.LineAccount`.
- `initializeNewUser` is not modelled. It only seeds storage on first use, and its reset date is handled as an input value of `lastResetDate`.
- Floating point is not modelled:
  - `LineTracker.calculateEfficiency` divides by the current step, which may be 0, so the `efficiency` fields of the tracker's message, completion record and stats are omitted;
  - the progress-bar percentage is display only;
  - tier prices are kept in cents.
- `Scoring.CalculateEfficiency` uses exact rational rounding. The client's floating-point `Math.round` can differ from it only at exact halves.
- JavaScript `Number` parsing is simplified. `ElapsedTime.FieldValue` reads a digit string (the empty string as 0) or '-' followed by a non-empty digit string, and gives `None` for anything else. `Number` also accepts surrounding white space, a '+' sign, fractions and hexadecimal.
- Strings are simplified. `toLowerCase` covers only ASCII letters. `trim` of the question and custom language is taken as already done, so `GenerateChallenge` receives trimmed text. Lengths count characters, not UTF-16 units.
- `DailyChallenges.DailyChallengeManager.SubmitCompletion` requires a well-formed time on a first submission. The client's comparator returns NaN for a malformed time, and the resulting order is implementation-defined.
- `FriendsLeagues.FriendsLeague.FriendsLeaderboard` requires well-formed times in the completions it sorts (those of friends and the current user), for the same reason. `DailyChallenges.DailyChallengeManager.GetFriendsLeaderboard` passes that requirement on.
- Asynchrony is not modelled. `async`, `await`, `fetch`, `confirm` and `setTimeout` become parameters: the answer to the "use existing" prompt and the generated step count (absent when the request fails). Only the synchronous state updates, including the body of `upgradeMembership`'s timeout, are modelled.
- A tier outside the table is not modelled. For an unknown name `MEMBERSHIP_TIERS[tier]` is `undefined`, and the throw comes only at `tierInfo.lines`, after `membershipTier` and `membershipExpiry` have been set and stored (`app.js:459-464`). The model makes the table a total function on `LineBudget.Tier`, so that half-finished upgrade cannot arise.
- `getFriends` is a field read and has no member of its own.
- A third or later completion of a friend challenge re-pays the wager, as in the source (`completeChallenge`). There is no guard against it. `FriendsLeagues.LaterCompletionKeepsOutcome` shows the winner does not change.
- Challenges added by `addToStore` are never credited through the self-credit branch of `creditLinestoCreator`. Those carry `creatorId: 'current_user'` and no `createdBy`. This is modelled as written; see `LineBudget.OwnChallengeEarnsNothing`.
