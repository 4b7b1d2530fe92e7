/** The daily challenge of daily-challenges.js: choosing the day's challenge from the shared store, the
    time-ordered leaderboard, and the `DailyChallengeManager` that takes one submission per user per
    day, keeps streaks and pays rewards into the stored line balance. */
module DailyChallenges {
  import opened Wrappers
  import opened Seqs
  import opened ElapsedTime
  import opened StableSort
  import opened Records
  import opened Scoring
  import opened Streaks
  import FriendsLeagues

  /** One leaderboard row. */
  datatype Entry = Entry(userId: UserId, username: string, time: string, lines: int, timestamp: int, efficiency: int)

  /** The stored `dailyChallenge` record; `date` is the day number the record belongs to. */
  datatype DayChallenge = DayChallenge(
    date: int,
    challengeSerial: string,
    challenge: Challenge,
    participants: seq<UserId>,
    leaderboard: seq<Entry>,
    startTime: int,
    endTime: int)

  /** What `submitCompletion` answers. */
  datatype SubmitResult =
    | AlreadyCompleted(rank: int)
    | Submitted(rank: int, streak: StreakRecord, rewards: RewardBreakdown)

  /** What `getUserStats` answers for a user on the leaderboard. */
  datatype UserStats = UserStats(rank: int, time: string, lines: int, efficiency: int, timestamp: int)

  /** The number of entries `getLeaderboard()` shows when no limit is given. */
  const DefaultLimit: int := 10

  // ---------------------------------------------------------------- choosing the day's challenge

  /** `c.rating || 3.0`: a missing or zero rating counts as 3.0. */
  function EffectiveRating(rating: Option<real>): (r: real)
    ensures rating == None || rating == Some(0.0) ==> r == 3.0
    ensures rating.Some? && rating.value != 0.0 ==> r == rating.value
  {
    if rating == None || rating == Some(0.0) then 3.0 else rating.value
  }

  /** A medium challenge of 10 to 25 steps rated at least 3.5. */
  predicate IsSuitable(c: Challenge) {
    c.difficulty == "medium" && 10 <= c.steps <= 25 && EffectiveRating(c.rating) >= 3.5
  }

  /** The list the day's challenge is drawn from: the suitable shared challenges, or every shared
      challenge when none is suitable. */
  function Candidates(pool: seq<Challenge>): (cs: seq<Challenge>)
    ensures |cs| <= |pool|
    ensures forall i :: 0 <= i < |cs| ==> cs[i] in pool
    ensures (exists i :: 0 <= i < |pool| && IsSuitable(pool[i])) ==> cs != [] && forall i :: 0 <= i < |cs| ==> IsSuitable(cs[i])
    ensures (forall i :: 0 <= i < |pool| ==> !IsSuitable(pool[i])) ==> cs == pool
    ensures forall i :: 0 <= i < |pool| && IsSuitable(pool[i]) ==> pool[i] in cs
  {
    var suitable := Filter(IsSuitable, pool);
    if suitable != [] then
      assert suitable[0] in pool && IsSuitable(suitable[0]);
      suitable
    else
      assert forall i :: 0 <= i < |pool| ==> !IsSuitable(pool[i]);
      pool
  }

  const FizzBuzzQuestion: string :=
    "Write a program that prints numbers 1-100, but for multiples of 3 print Fizz, for multiples of 5 print Buzz, and for multiples of both print FizzBuzz"

  /** `getDefaultChallenge`: Fizz Buzz in Python, medium, 15 steps. */
  function DefaultChallenge(): (c: Challenge)
    ensures c.serial == "default" && c.difficulty == "medium" && c.steps == 15 && c.language == "python"
    ensures !IsSuitable(c)
  {
    Challenge("", "default", "Fizz Buzz Classic", FizzBuzzQuestion, "python", "medium", 15, None, None, None, 0, 0)
  }

  /** The challenge of the day, where `pick` stands for `Math.floor(Math.random() * length)`: a suitable
      challenge when the store has one, else any stored challenge, else the default. */
  function SelectChallenge(pool: seq<Challenge>, pick: nat): (c: Challenge)
    requires Candidates(pool) != [] ==> pick < |Candidates(pool)|
    ensures (exists i :: 0 <= i < |pool| && IsSuitable(pool[i])) ==> c in pool && IsSuitable(c)
    ensures pool != [] ==> c in pool
    ensures pool == [] ==> c == DefaultChallenge()
  {
    if pool == [] then DefaultChallenge() else Candidates(pool)[pick]
  }

  /** The record `generateDailyChallenge` stores for `today`: the chosen challenge, nobody in yet. */
  function GenerateDailyChallenge(today: int, pool: seq<Challenge>, pick: nat, now: int, endOfDay: int): (d: DayChallenge)
    requires Candidates(pool) != [] ==> pick < |Candidates(pool)|
    ensures d.date == today && d.challenge == SelectChallenge(pool, pick) && d.challengeSerial == d.challenge.serial
    ensures d.participants == [] && d.leaderboard == [] && d.startTime == now && d.endTime == endOfDay
    ensures WellFormedDay(d)
  {
    var c := SelectChallenge(pool, pick);
    DayChallenge(today, c.serial, c, [], [], now, endOfDay)
  }

  /** `loadTodaysChallenge`: the stored record when it is today's, a newly generated one otherwise. */
  function LoadTodaysChallenge(stored: Option<DayChallenge>, today: int, pool: seq<Challenge>, pick: nat, now: int, endOfDay: int)
    : (d: DayChallenge)
    requires !(stored.Some? && stored.value.date == today) && Candidates(pool) != [] ==> pick < |Candidates(pool)|
    ensures d.date == today
    ensures stored.Some? && stored.value.date == today ==> d == stored.value
    ensures !(stored.Some? && stored.value.date == today) ==> d == GenerateDailyChallenge(today, pool, pick, now, endOfDay)
  {
    if stored.Some? && stored.value.date == today then stored.value
    else GenerateDailyChallenge(today, pool, pick, now, endOfDay)
  }

  // ---------------------------------------------------------------- the leaderboard

  /** The leaderboard order: by elapsed seconds, fastest first. */
  function EntryKey(e: Entry): int {
    Seconds(e.time)
  }

  predicate DistinctIds(lb: seq<Entry>) {
    forall i, j :: 0 <= i < j < |lb| ==> lb[i].userId != lb[j].userId
  }

  predicate OnBoard(lb: seq<Entry>, userId: UserId) {
    exists i :: 0 <= i < |lb| && lb[i].userId == userId
  }

  /** The day-record invariant: every participant has exactly one leaderboard row and every row a
      participant, every row's time is a well-formed "mm:ss", and the rows are ordered by time. */
  ghost predicate WellFormedDay(d: DayChallenge) {
    && NoDup(d.participants)
    && DistinctIds(d.leaderboard)
    && |d.participants| == |d.leaderboard|
    && (forall u :: u in d.participants <==> OnBoard(d.leaderboard, u))
    && (forall i :: 0 <= i < |d.leaderboard| ==> TimeToSeconds(d.leaderboard[i].time).Some?)
    && SortedBy(EntryKey, d.leaderboard)
  }

  /** `findIndex(e => e.userId === userId)`. */
  function FindEntry(lb: seq<Entry>, userId: UserId): (i: int)
    ensures -1 <= i < |lb|
    ensures i >= 0 ==> lb[i].userId == userId && forall j :: 0 <= j < i ==> lb[j].userId != userId
    ensures i == -1 <==> !OnBoard(lb, userId)
  {
    FindIndex((e: Entry) => e.userId == userId, lb)
  }

  /** `getRank`: the 1-based position of the user's row, 0 when the user has none. */
  function Rank(lb: seq<Entry>, userId: UserId): (rank: int)
    ensures 0 <= rank <= |lb|
    ensures rank == 0 <==> !OnBoard(lb, userId)
    ensures rank > 0 ==> lb[rank - 1].userId == userId && forall j :: 0 <= j < rank - 1 ==> lb[j].userId != userId
  {
    FindEntry(lb, userId) + 1
  }

  /** With distinct ids, the rank is the one position holding the user's row. */
  lemma RankOfRow(lb: seq<Entry>, i: int)
    requires DistinctIds(lb) && 0 <= i < |lb|
    ensures Rank(lb, lb[i].userId) == i + 1
  {
  }

  /** Where `Array.prototype.slice(0, limit)` ends on a list of `len` items. */
  function SliceEnd(len: nat, limit: int): (e: nat)
    ensures e <= len
    ensures limit >= 0 ==> e == if limit < len then limit else len
    ensures limit < 0 ==> e == if len + limit > 0 then len + limit else 0
  {
    if limit >= 0 then (if limit < len then limit else len)
    else if len + limit > 0 then len + limit else 0
  }

  /** `getLeaderboard(limit)`: the first `limit` rows (a negative limit drops that many from the end). */
  function Leaderboard(lb: seq<Entry>, limit: int): (top: seq<Entry>)
    ensures top == lb[..SliceEnd(|lb|, limit)]
    ensures 0 <= limit ==> |top| == if limit < |lb| then limit else |lb|
  {
    lb[..SliceEnd(|lb|, limit)]
  }

  /** A prefix of a time-ordered leaderboard is time-ordered, and each row keeps its rank. */
  lemma LeaderboardPrefix(lb: seq<Entry>, limit: int)
    requires SortedBy(EntryKey, lb) && DistinctIds(lb)
    ensures SortedBy(EntryKey, Leaderboard(lb, limit))
    ensures var top := Leaderboard(lb, limit);
      forall i :: 0 <= i < |top| ==> Rank(lb, top[i].userId) == i + 1
  {
    var top := Leaderboard(lb, limit);
    forall i | 0 <= i < |top| ensures Rank(lb, top[i].userId) == i + 1 {
      RankOfRow(lb, i);
    }
  }

  /** `getUserStats`: the user's row with its rank, or `null` when the user has none. */
  function GetUserStats(lb: seq<Entry>, userId: UserId): (r: Option<UserStats>)
    ensures r.None? <==> !OnBoard(lb, userId)
    ensures r.Some? ==>
      && 1 <= r.value.rank <= |lb|
      && var e := lb[r.value.rank - 1];
         e.userId == userId && r.value == UserStats(r.value.rank, e.time, e.lines, e.efficiency, e.timestamp)
  {
    var i := FindEntry(lb, userId);
    if i == -1 then None
    else
      var e := lb[i];
      Some(UserStats(Rank(lb, userId), e.time, e.lines, e.efficiency, e.timestamp))
  }

  /** The day record after a first submission by `entry.userId`: the user joins the participants and
      the row is pushed and the rows sorted by time. */
  function Join(d: DayChallenge, entry: Entry): (r: DayChallenge)
    ensures r.participants == d.participants + [entry.userId]
    ensures |r.leaderboard| == |d.leaderboard| + 1
    ensures multiset(r.leaderboard) == multiset(d.leaderboard) + multiset{entry}
    ensures r.(participants := d.participants, leaderboard := d.leaderboard) == d
  {
    SortByPermutes(EntryKey, d.leaderboard + [entry]);
    d.(participants := d.participants + [entry.userId], leaderboard := SortBy(EntryKey, d.leaderboard + [entry]))
  }

  /** A first submission keeps the day record well formed, and the new row lands at its insertion point
      (`InsertPos`: after every row at most as fast, before every slower one), which is its rank less one. */
  lemma JoinKeepsDay(d: DayChallenge, entry: Entry)
    requires WellFormedDay(d)
    requires entry.userId !in d.participants && TimeToSeconds(entry.time).Some?
    ensures WellFormedDay(Join(d, entry))
    ensures var p := InsertPos(EntryKey, d.leaderboard, entry);
      && Join(d, entry).leaderboard == d.leaderboard[..p] + [entry] + d.leaderboard[p..]
      && Rank(Join(d, entry).leaderboard, entry.userId) == p + 1
  {
    var lb := d.leaderboard;
    var p := InsertPos(EntryKey, lb, entry);
    var lb' := lb[..p] + [entry] + lb[p..];
    JoinRows(lb, entry);
    InsertRow(lb, p, entry);
    var d' := Join(d, entry);
    assert d'.leaderboard == lb';
    JoinParticipants(d, entry, lb');
    RankOfRow(lb', p);
  }

  /** The participants after a first submission: duplicate-free, and exactly the users on the new rows. */
  lemma JoinParticipants(d: DayChallenge, entry: Entry, lb': seq<Entry>)
    requires NoDup(d.participants) && entry.userId !in d.participants
    requires forall u :: u in d.participants <==> OnBoard(d.leaderboard, u)
    requires forall u :: OnBoard(lb', u) <==> OnBoard(d.leaderboard, u) || u == entry.userId
    ensures NoDup(d.participants + [entry.userId])
    ensures forall u :: u in d.participants + [entry.userId] <==> OnBoard(lb', u)
  {
    var parts := d.participants + [entry.userId];
    forall i, j | 0 <= i < j < |parts| ensures parts[i] != parts[j] {
      if j == |parts| - 1 {
        assert parts[i] in d.participants;
      }
    }
  }

  /** The sorted push is the insertion at `InsertPos`, and it keeps the rows in time order. */
  lemma JoinRows(lb: seq<Entry>, entry: Entry)
    requires SortedBy(EntryKey, lb)
    ensures var p := InsertPos(EntryKey, lb, entry);
      && SortBy(EntryKey, lb + [entry]) == lb[..p] + [entry] + lb[p..]
      && SortedBy(EntryKey, lb[..p] + [entry] + lb[p..])
      && (forall i :: 0 <= i < p ==> EntryKey(lb[i]) <= EntryKey(entry))
      && (forall i :: p <= i < |lb| ==> EntryKey(lb[i]) > EntryKey(entry))
  {
    PushThenSort(EntryKey, lb, entry);
    InsertBySorted(EntryKey, lb, entry);
  }

  /** The new leaderboard is the old one plus the new row, rearranged, sorted by time with rows of
      equal time in submission order. */
  lemma JoinPermutes(d: DayChallenge, entry: Entry)
    ensures IsStableSortOf(EntryKey, Join(d, entry).leaderboard, d.leaderboard + [entry])
    ensures multiset(Join(d, entry).leaderboard) == multiset(d.leaderboard) + multiset{entry}
  {
    SortByCorrect(EntryKey, d.leaderboard + [entry]);
  }

  /** Where each row of `lb[..p] + [entry] + lb[p..]` comes from. */
  lemma InsertedAt(lb: seq<Entry>, p: nat, entry: Entry)
    requires p <= |lb|
    ensures var lb' := lb[..p] + [entry] + lb[p..];
      && |lb'| == |lb| + 1 && lb'[p] == entry
      && (forall i :: 0 <= i < p ==> lb'[i] == lb[i])
      && (forall i :: p < i < |lb'| ==> lb'[i] == lb[i - 1])
  {
  }

  /** Inserting a row for a user without one keeps the ids distinct and adds exactly that user. */
  lemma InsertRow(lb: seq<Entry>, p: nat, entry: Entry)
    requires DistinctIds(lb) && !OnBoard(lb, entry.userId) && p <= |lb|
    requires forall i :: 0 <= i < |lb| ==> TimeToSeconds(lb[i].time).Some?
    requires TimeToSeconds(entry.time).Some?
    ensures var lb' := lb[..p] + [entry] + lb[p..];
      && DistinctIds(lb') && lb'[p] == entry
      && (forall i :: 0 <= i < |lb'| ==> TimeToSeconds(lb'[i].time).Some?)
      && forall u :: OnBoard(lb', u) <==> OnBoard(lb, u) || u == entry.userId
  {
    InsertedAt(lb, p, entry);
    var lb' := lb[..p] + [entry] + lb[p..];
    assert DistinctIds(lb') by {
      forall i, j | 0 <= i < j < |lb'| ensures lb'[i].userId != lb'[j].userId {
        if i == p {
          assert lb[j - 1].userId != entry.userId;
        } else if j == p {
          assert lb[i].userId != entry.userId;
        }
      }
    }
    forall u ensures OnBoard(lb', u) <==> OnBoard(lb, u) || u == entry.userId {
      InsertOnBoard(lb, p, entry, u);
    }
  }

  /** A user is on the board after the insertion exactly when they were before or are the new row's. */
  lemma InsertOnBoard(lb: seq<Entry>, p: nat, entry: Entry, u: UserId)
    requires p <= |lb|
    ensures OnBoard(lb[..p] + [entry] + lb[p..], u) <==> OnBoard(lb, u) || u == entry.userId
  {
    InsertedAt(lb, p, entry);
    var lb' := lb[..p] + [entry] + lb[p..];
    if OnBoard(lb', u) {
      var i :| 0 <= i < |lb'| && lb'[i].userId == u;
      if i < p {
        assert lb[i].userId == u;
      } else if i > p {
        assert lb[i - 1].userId == u;
      }
    }
    if OnBoard(lb, u) {
      var j :| 0 <= j < |lb| && lb[j].userId == u;
      if j < p {
        assert lb'[j].userId == u;
      } else {
        assert lb'[j + 1].userId == u;
      }
    }
    if u == entry.userId {
      assert lb'[p].userId == u;
    }
  }

  // ---------------------------------------------------------------- the manager

  /** A user's stored streak, or the empty one. */
  function StreakOf(streaks: map<UserId, StreakRecord>, userId: UserId): StreakRecord {
    if userId in streaks then streaks[userId] else NoStreak
  }

  class DailyChallengeManager {
    /** Today's day number (`new Date().toDateString()` in the source). */
    var currentDate: int
    var challenge: DayChallenge
    /** The stored `userStreaks` map. */
    var streaks: map<UserId, StreakRecord>
    const wallet: LineWallet
    const friendsLeague: FriendsLeagues.FriendsLeague

    ghost predicate Valid()
      reads this
    {
      WellFormedDay(challenge) && challenge.date == currentDate
    }

    /** The constructor: loads today's record (or makes one) and opens the friends league. */
    constructor (today: int, stored: Option<DayChallenge>, pool: seq<Challenge>, pick: nat, now: int, endOfDay: int,
                 streaks: map<UserId, StreakRecord>, wallet: LineWallet, friendsLeague: FriendsLeagues.FriendsLeague)
      requires stored.Some? && stored.value.date == today ==> WellFormedDay(stored.value)
      requires !(stored.Some? && stored.value.date == today) && Candidates(pool) != [] ==> pick < |Candidates(pool)|
      requires friendsLeague.wallet == wallet
      ensures Valid()
      ensures currentDate == today && challenge == LoadTodaysChallenge(stored, today, pool, pick, now, endOfDay)
      ensures this.streaks == streaks && this.wallet == wallet && this.friendsLeague == friendsLeague
    {
      currentDate := today;
      challenge := LoadTodaysChallenge(stored, today, pool, pick, now, endOfDay);
      this.streaks := streaks;
      this.wallet := wallet;
      this.friendsLeague := friendsLeague;
    }

    /** `hasCompletedToday`: the user is a participant, which is the same as having a leaderboard row. */
    predicate HasCompletedToday(userId: UserId)
      reads this
      requires Valid()
      ensures HasCompletedToday(userId) <==> Rank(challenge.leaderboard, userId) > 0
    {
      userId in challenge.participants
    }

    /** The leaderboard half of a first submission: the row goes in at its insertion point. */
    method Enter(entry: Entry) returns (rank: int)
      requires Valid()
      requires entry.userId !in challenge.participants && TimeToSeconds(entry.time).Some?
      modifies this`challenge
      ensures Valid()
      ensures challenge == Join(old(challenge), entry)
      ensures rank == InsertPos(EntryKey, old(challenge).leaderboard, entry) + 1 && rank == Rank(challenge.leaderboard, entry.userId)
      ensures challenge.leaderboard == old(challenge).leaderboard[..rank - 1] + [entry] + old(challenge).leaderboard[rank - 1..]
    {
      var p := InsertPos(EntryKey, challenge.leaderboard, entry);
      JoinKeepsDay(challenge, entry);
      challenge := Join(challenge, entry);
      rank := p + 1;
    }

    /** `updateStreak`: advances the user's streak for today and stores it. */
    method UpdateStreak(userId: UserId) returns (streak: StreakRecord)
      modifies this`streaks
      ensures streak == NextStreak(StreakOf(old(streaks), userId), currentDate)
      ensures streaks == old(streaks)[userId := streak]
    {
      streak := NextStreak(StreakOf(streaks, userId), currentDate);
      streaks := streaks[userId := streak];
    }

    /** `awardLines`: credits the balance when the user is the current user, and logs the reward. */
    method AwardLines(userId: UserId, lines: int, now: int)
      modifies wallet
      ensures wallet.monthlyLines == old(wallet.monthlyLines) + (if userId == CurrentUser then lines else 0)
      ensures wallet.lineHistory == old(wallet.lineHistory) + [DailyReward(now, lines, challenge.challengeSerial)]
    {
      if userId == CurrentUser {
        wallet.monthlyLines := wallet.monthlyLines + lines;
      }
      wallet.lineHistory := wallet.lineHistory + [DailyReward(now, lines, challenge.challengeSerial)];
    }

    /** `submitCompletion`: a repeated submission changes nothing and reports the user's rank; a first one
        puts the user on the leaderboard in time order, advances the streak and pays the rewards. */
    method SubmitCompletion(userId: UserId, username: string, completionTime: string, linesUsed: int, now: int)
      returns (result: SubmitResult)
      requires Valid()
      requires userId !in challenge.participants ==> TimeToSeconds(completionTime).Some?
      modifies this, wallet
      ensures Valid() && currentDate == old(currentDate)
      ensures old(userId in challenge.participants) ==>
        && result == AlreadyCompleted(Rank(challenge.leaderboard, userId)) && 1 <= result.rank
        && challenge == old(challenge) && streaks == old(streaks)
        && wallet.monthlyLines == old(wallet.monthlyLines) && wallet.lineHistory == old(wallet.lineHistory)
      ensures old(userId !in challenge.participants) ==>
        var entry := Entry(userId, username, completionTime, linesUsed, now,
                           CalculateEfficiency(linesUsed, old(challenge).challenge.steps));
        var p := InsertPos(EntryKey, old(challenge).leaderboard, entry);
        && challenge == Join(old(challenge), entry)
        && challenge.leaderboard == old(challenge).leaderboard[..p] + [entry] + old(challenge).leaderboard[p..]
        && result.Submitted? && result.rank == p + 1 && result.rank == Rank(challenge.leaderboard, userId)
        && result.streak == NextStreak(StreakOf(old(streaks), userId), currentDate)
        && streaks == old(streaks)[userId := result.streak]
        && result.rewards == CalculateRewards(result.rank, result.streak.count)
        && wallet.monthlyLines == old(wallet.monthlyLines) + (if userId == CurrentUser then result.rewards.totalLines else 0)
        && wallet.lineHistory == old(wallet.lineHistory) + [DailyReward(now, result.rewards.totalLines, challenge.challengeSerial)]
    {
      if HasCompletedToday(userId) {
        return AlreadyCompleted(Rank(challenge.leaderboard, userId));
      }
      var entry := Entry(userId, username, completionTime, linesUsed, now,
                         CalculateEfficiency(linesUsed, challenge.challenge.steps));
      var rank := Enter(entry);
      var streak := UpdateStreak(userId);
      var rewards := CalculateRewards(rank, streak.count);
      AwardLines(userId, rewards.totalLines, now);
      result := Submitted(rank, streak, rewards);
    }

    /** `getLeaderboard(limit)` on today's record. */
    function GetLeaderboard(limit: int := DefaultLimit): (top: seq<Entry>)
      reads this
      requires Valid()
      ensures SortedBy(EntryKey, top) && |top| == SliceEnd(|challenge.leaderboard|, limit)
      ensures forall i :: 0 <= i < |top| ==> top[i] == challenge.leaderboard[i] && Rank(challenge.leaderboard, top[i].userId) == i + 1
    {
      LeaderboardPrefix(challenge.leaderboard, limit);
      Leaderboard(challenge.leaderboard, limit)
    }

    /** `getFriendsLeaderboard`: the friends league's board for today's challenge, that is the stored
        completions of today's serial by a friend or by the current user, stably sorted by time. */
    function GetFriendsLeaderboard(): (board: seq<FriendsLeagues.Completion>)
      reads this, friendsLeague
      requires var among := friendsLeague.FriendsCompletions(challenge.challengeSerial);
        forall i :: 0 <= i < |among| ==> TimeToSeconds(among[i].time).Some?
      ensures var among := friendsLeague.FriendsCompletions(challenge.challengeSerial);
        IsStableSortOf(FriendsLeagues.CompletionKey, board, among) && multiset(board) == multiset(among)
      ensures forall i :: 0 <= i < |board| ==>
        board[i] in friendsLeague.CompletionsOf(challenge.challengeSerial) &&
        (board[i].userId in FriendsLeagues.FriendIds(friendsLeague.friends) || board[i].userId == CurrentUser)
    {
      friendsLeague.FriendsLeaderboard(challenge.challengeSerial)
    }
  }

  /** `getLeaderboard()` without an argument shows the first ten rows, or every row when there are fewer. */
  lemma DefaultLeaderboardTopTen(m: DailyChallengeManager)
    requires m.Valid()
    ensures |m.GetLeaderboard()| == if |m.challenge.leaderboard| < 10 then |m.challenge.leaderboard| else 10
  {
  }
}
