/** The friends league of daily-challenges.js: a de-duplicated friend list, the friends-only leaderboard
    of one challenge, and friend challenges that move from `pending` through `accepted` to `completed`
    and pay the wager to the faster of the first two finishers. */
module FriendsLeagues {
  import opened Wrappers
  import opened Seqs
  import opened ElapsedTime
  import opened StableSort
  import opened Records

  datatype Friend = Friend(userId: UserId, username: string, addedAt: int)

  /** One recorded finish: who, in what "mm:ss" time, with how many lines, when. */
  datatype Completion = Completion(userId: UserId, time: string, lines: int, timestamp: int)

  datatype Status = Pending | Accepted | Declined | Completed

  datatype FriendChallenge = FriendChallenge(
    id: string,
    from: UserId,
    to: UserId,
    challengeSerial: string,
    wagerLines: int,
    sentAt: int,
    status: Status,
    acceptedAt: Option<int>,
    completions: seq<Completion>,
    winner: Option<UserId>,
    loser: Option<UserId>)

  /** The wager of `challengeFriend` when the caller names none. */
  const DefaultWager: int := 100

  function FriendIds(friends: seq<Friend>): (ids: seq<UserId>)
    ensures |ids| == |friends| && forall i :: 0 <= i < |friends| ==> ids[i] == friends[i].userId
  {
    seq(|friends|, i requires 0 <= i < |friends| => friends[i].userId)
  }

  /** The filter of `removeFriend`: every friend except `friendId`. */
  function OtherThan(friendId: UserId): Friend -> bool {
    (f: Friend) => f.userId != friendId
  }

  function CompletionKey(c: Completion): int {
    Seconds(c.time)
  }

  /** `time1 < time2` on the two `timeToSeconds` results; a NaN on either side makes it false. */
  predicate FasterThan(time1: string, time2: string) {
    TimeToSeconds(time1).Some? && TimeToSeconds(time2).Some? && TimeToSeconds(time1).value < TimeToSeconds(time2).value
  }

  /** Winner and loser of two completions: the first completer wins only when strictly faster; the
      loser is whichever completer the winner is not, checked against the first completer's id. */
  function Decide(first: Completion, second: Completion): (r: (UserId, UserId))
    ensures r.0 in {first.userId, second.userId} && r.1 in {first.userId, second.userId}
    ensures first.userId != second.userId ==> r.0 != r.1
    ensures r.0 == first.userId && first.userId != second.userId ==> FasterThan(first.time, second.time)
    ensures FasterThan(first.time, second.time) ==> r.0 == first.userId
  {
    var winner := if FasterThan(first.time, second.time) then first.userId else second.userId;
    var loser := if winner == first.userId then second.userId else first.userId;
    (winner, loser)
  }

  /** Between two different users the decision names both, once each; the winner is never slower than
      the loser, and a tie goes to the second completer. */
  lemma DecideFair(first: Completion, second: Completion)
    requires first.userId != second.userId
    requires TimeToSeconds(first.time).Some? && TimeToSeconds(second.time).Some?
    ensures var (winner, loser) := Decide(first, second);
      && winner != loser
      && {winner, loser} == {first.userId, second.userId}
      && (winner == first.userId ==> Seconds(first.time) < Seconds(second.time))
      && (winner == second.userId ==> Seconds(second.time) <= Seconds(first.time))
      && (Seconds(first.time) == Seconds(second.time) ==> winner == second.userId)
  {
  }

  /** The record invariant the league keeps: a winner and a loser are recorded exactly when there are
      two completions or more, they are the decision on the first two, and such a record is `completed`
      (or `accepted` again, as `acceptChallenge` does not look at the status). */
  ghost predicate Resolved(c: FriendChallenge) {
    && (|c.completions| >= 2 <==> c.winner.Some?)
    && (c.winner.Some? <==> c.loser.Some?)
    && (|c.completions| >= 2 ==>
          (c.winner.value, c.loser.value) == Decide(c.completions[0], c.completions[1]) &&
          (c.status == Completed || c.status == Accepted))
  }

  /** A new challenge sent by the current user. */
  function NewChallenge(id: string, to: UserId, challengeSerial: string, wagerLines: int, sentAt: int): (c: FriendChallenge)
    ensures c.status == Pending && c.completions == [] && Resolved(c)
  {
    FriendChallenge(id, CurrentUser, to, challengeSerial, wagerLines, sentAt, Pending, None, [], None, None)
  }

  /** The record after `acceptChallenge`. */
  function Accept(c: FriendChallenge, now: int): (r: FriendChallenge)
    ensures r.status == Accepted && r.acceptedAt == Some(now)
    ensures r.completions == c.completions && r.winner == c.winner && r.loser == c.loser
    ensures Resolved(c) ==> Resolved(r)
  {
    c.(status := Accepted, acceptedAt := Some(now))
  }

  /** The record after `completeChallenge` appends `finish`. */
  function Complete(c: FriendChallenge, finish: Completion): (r: FriendChallenge)
    ensures r.completions == c.completions + [finish]
    ensures |r.completions| >= 2 ==> r.status == Completed && r.winner.Some? && r.loser.Some?
    ensures |r.completions| < 2 ==> r.status == c.status && r.winner == c.winner && r.loser == c.loser
    ensures r.(completions := c.completions, status := c.status, winner := c.winner, loser := c.loser) == c
  {
    var completions := c.completions + [finish];
    if |completions| >= 2 then
      var (winner, loser) := Decide(completions[0], completions[1]);
      c.(completions := completions, status := Completed, winner := Some(winner), loser := Some(loser))
    else
      c.(completions := completions)
  }

  /** `Complete` appends exactly one completion; from the second one on the record is `completed` and
      names the decision on the first two, so the invariant is kept. */
  lemma CompleteTransition(c: FriendChallenge, finish: Completion)
    requires Resolved(c)
    ensures var r := Complete(c, finish);
      && r.completions == c.completions + [finish]
      && (|r.completions| >= 2 ==>
            r.status == Completed && (r.winner.value, r.loser.value) == Decide(r.completions[0], r.completions[1]))
      && (|r.completions| < 2 ==> r.status == c.status && r.winner.None?)
      && Resolved(r)
  {
    var r := Complete(c, finish);
    if |c.completions| >= 1 {
      assert r.completions[0] == c.completions[0];
    }
  }

  /** Once resolved, later completions never change the outcome. */
  lemma LaterCompletionKeepsOutcome(c: FriendChallenge, finish: Completion)
    requires Resolved(c) && |c.completions| >= 2
    ensures Complete(c, finish).winner == c.winner && Complete(c, finish).loser == c.loser
  {
    var r := Complete(c, finish);
    assert r.completions[0] == c.completions[0] && r.completions[1] == c.completions[1];
  }

  /** The first index holding a challenge with this id (`find`), or -1. */
  function FindChallenge(challenges: seq<FriendChallenge>, id: string): (i: int)
    ensures -1 <= i < |challenges|
    ensures i >= 0 ==> challenges[i].id == id && forall j :: 0 <= j < i ==> challenges[j].id != id
    ensures i == -1 ==> forall j :: 0 <= j < |challenges| ==> challenges[j].id != id
  {
    FindIndex((c: FriendChallenge) => c.id == id, challenges)
  }

  class FriendsLeague {
    var friends: seq<Friend>
    /** The stored `friendChallenges` list. */
    var challenges: seq<FriendChallenge>
    /** The stored `challenge_<serial>_completions` lists; a missing key reads as `[]`. */
    var completionsBySerial: map<string, seq<Completion>>
    const wallet: LineWallet

    ghost predicate Valid()
      reads this
    {
      NoDup(FriendIds(friends)) && forall i :: 0 <= i < |challenges| ==> Resolved(challenges[i])
    }

    constructor (friends: seq<Friend>, challenges: seq<FriendChallenge>,
                 completionsBySerial: map<string, seq<Completion>>, wallet: LineWallet)
      requires NoDup(FriendIds(friends)) && forall i :: 0 <= i < |challenges| ==> Resolved(challenges[i])
      ensures Valid()
      ensures this.friends == friends && this.challenges == challenges
      ensures this.completionsBySerial == completionsBySerial && this.wallet == wallet
    {
      this.friends := friends;
      this.challenges := challenges;
      this.completionsBySerial := completionsBySerial;
      this.wallet := wallet;
    }

    /** `addFriend`: appends the friend and answers true exactly when no friend has that id yet. */
    method AddFriend(friendUserId: UserId, friendUsername: string, now: int) returns (added: bool)
      requires Valid()
      modifies this`friends
      ensures Valid()
      ensures added <==> friendUserId !in FriendIds(old(friends))
      ensures friends == if added then old(friends) + [Friend(friendUserId, friendUsername, now)] else old(friends)
    {
      added := friendUserId !in FriendIds(friends);
      if added {
        assert FriendIds(friends + [Friend(friendUserId, friendUsername, now)]) == FriendIds(friends) + [friendUserId];
        friends := friends + [Friend(friendUserId, friendUsername, now)];
      }
    }

    /** `removeFriend`: keeps, in order, every friend with another id. */
    method RemoveFriend(friendUserId: UserId)
      requires Valid()
      modifies this`friends
      ensures Valid()
      ensures friends == Filter(OtherThan(friendUserId), old(friends))
      ensures friendUserId !in FriendIds(friends)
      ensures forall i :: 0 <= i < |old(friends)| && old(friends)[i].userId != friendUserId ==> old(friends)[i] in friends
    {
      ghost var before := friends;
      friends := Filter(OtherThan(friendUserId), friends);
      KeptFriendsDistinct(OtherThan(friendUserId), before);
    }

    /** `getFriendsLeaderboard(serial)`: the stored completions of that challenge by a friend or by the
        current user, ordered by time with ties in stored order. */
    function FriendsLeaderboard(challengeSerial: string): (board: seq<Completion>)
      reads this
      requires forall i :: 0 <= i < |FriendsCompletions(challengeSerial)| ==> TimeToSeconds(FriendsCompletions(challengeSerial)[i].time).Some?
      ensures var among := FriendsCompletions(challengeSerial);
        IsStableSortOf(CompletionKey, board, among) && multiset(board) == multiset(among)
      ensures forall i :: 0 <= i < |board| ==>
        board[i] in CompletionsOf(challengeSerial) && (board[i].userId in FriendIds(friends) || board[i].userId == CurrentUser)
    {
      FriendsBoardFacts(FriendIds(friends), CompletionsOf(challengeSerial));
      SortBy(CompletionKey, Filter(AmongFriends(FriendIds(friends)), CompletionsOf(challengeSerial)))
    }

    function CompletionsOf(challengeSerial: string): seq<Completion>
      reads this
    {
      if challengeSerial in completionsBySerial then completionsBySerial[challengeSerial] else []
    }

    /** The stored completions of a challenge by a friend or by the current user, in stored order. */
    function FriendsCompletions(challengeSerial: string): (among: seq<Completion>)
      reads this
      ensures SubsequenceOf(among, CompletionsOf(challengeSerial))
      ensures forall i :: 0 <= i < |among| ==> among[i].userId in FriendIds(friends) || among[i].userId == CurrentUser
      ensures forall i :: 0 <= i < |CompletionsOf(challengeSerial)| && AmongFriends(FriendIds(friends))(CompletionsOf(challengeSerial)[i]) ==>
        CompletionsOf(challengeSerial)[i] in among
    {
      FilterSubsequence(AmongFriends(FriendIds(friends)), CompletionsOf(challengeSerial));
      Filter(AmongFriends(FriendIds(friends)), CompletionsOf(challengeSerial))
    }

    /** `challengeFriend`: stores and returns a new pending challenge from the current user. */
    method ChallengeFriend(friendUserId: UserId, challengeSerial: string, wagerLines: int := DefaultWager, id: string, now: int)
      returns (c: FriendChallenge)
      requires Valid()
      modifies this`challenges
      ensures Valid()
      ensures c == NewChallenge(id, friendUserId, challengeSerial, wagerLines, now)
      ensures challenges == old(challenges) + [c]
    {
      c := NewChallenge(id, friendUserId, challengeSerial, wagerLines, now);
      challenges := challenges + [c];
    }

    /** `acceptChallenge`: the first challenge with the id becomes accepted, whatever its status was. */
    method AcceptChallenge(challengeId: string, now: int) returns (r: Option<FriendChallenge>)
      requires Valid()
      modifies this`challenges
      ensures Valid()
      ensures var i := FindChallenge(old(challenges), challengeId);
        if i == -1 then r == None && challenges == old(challenges)
        else r == Some(Accept(old(challenges)[i], now)) && challenges == old(challenges)[i := r.value]
    {
      var i := FindChallenge(challenges, challengeId);
      if i == -1 {
        r := None;
      } else {
        var accepted := Accept(challenges[i], now);
        challenges := challenges[i := accepted];
        r := Some(accepted);
      }
    }

    /** `completeChallenge`: records the finish on the first challenge with the id; from the second
        finish on it settles the outcome and pays the wager (again on every later finish). */
    method CompleteChallenge(challengeId: string, userId: UserId, completionTime: string, linesUsed: int, now: int)
      returns (r: Option<FriendChallenge>)
      requires Valid()
      modifies this`challenges, wallet
      ensures Valid()
      ensures var i := FindChallenge(old(challenges), challengeId);
        if i == -1 then
          r == None && challenges == old(challenges) &&
          wallet.monthlyLines == old(wallet.monthlyLines) && wallet.lineHistory == old(wallet.lineHistory)
        else
          var c := Complete(old(challenges)[i], Completion(userId, completionTime, linesUsed, now));
          && r == Some(c) && challenges == old(challenges)[i := c]
          && (|c.completions| >= 2 ==>
                wallet.monthlyLines == old(wallet.monthlyLines) + (if c.winner == Some(CurrentUser) then c.wagerLines else 0) &&
                wallet.lineHistory == old(wallet.lineHistory) + [FriendWin(now, c.wagerLines, c.loser.value)])
          && (|c.completions| < 2 ==>
                wallet.monthlyLines == old(wallet.monthlyLines) && wallet.lineHistory == old(wallet.lineHistory))
    {
      var i := FindChallenge(challenges, challengeId);
      if i == -1 {
        return None;
      }
      var finish := Completion(userId, completionTime, linesUsed, now);
      CompleteTransition(challenges[i], finish);
      var c := Complete(challenges[i], finish);
      challenges := challenges[i := c];
      if |c.completions| >= 2 {
        AwardChallengeWin(c.winner.value, c.loser.value, c.wagerLines, now);
      }
      r := Some(c);
    }

    /** `awardChallengeWin`: credits the wager when the winner is the current user and logs the win;
        the loser is never debited. */
    method AwardChallengeWin(winnerId: UserId, loserId: UserId, wagerLines: int, now: int)
      modifies wallet
      ensures wallet.monthlyLines == old(wallet.monthlyLines) + (if winnerId == CurrentUser then wagerLines else 0)
      ensures wallet.lineHistory == old(wallet.lineHistory) + [FriendWin(now, wagerLines, loserId)]
    {
      if winnerId == CurrentUser {
        wallet.monthlyLines := wallet.monthlyLines + wagerLines;
      }
      wallet.lineHistory := wallet.lineHistory + [FriendWin(now, wagerLines, loserId)];
    }

    /** `getPendingChallenges(userId)`: the pending challenges sent to the user, in stored order. */
    function PendingChallenges(userId: UserId): (r: seq<FriendChallenge>)
      reads this
      ensures SubsequenceOf(r, challenges)
      ensures forall i :: 0 <= i < |r| ==> r[i] in challenges && r[i].to == userId && r[i].status == Pending
      ensures forall i :: 0 <= i < |challenges| && challenges[i].to == userId && challenges[i].status == Pending ==>
        challenges[i] in r
    {
      FilterSubsequence((c: FriendChallenge) => c.to == userId && c.status == Pending, challenges);
      Filter((c: FriendChallenge) => c.to == userId && c.status == Pending, challenges)
    }

    /** `getActiveChallenges(userId)`: the accepted challenges the user is a party to, in stored order. */
    function ActiveChallenges(userId: UserId): (r: seq<FriendChallenge>)
      reads this
      ensures SubsequenceOf(r, challenges)
      ensures forall i :: 0 <= i < |r| ==> r[i] in challenges && (r[i].from == userId || r[i].to == userId) && r[i].status == Accepted
      ensures forall i ::
        0 <= i < |challenges| && (challenges[i].from == userId || challenges[i].to == userId) && challenges[i].status == Accepted
        ==> challenges[i] in r
    {
      FilterSubsequence((c: FriendChallenge) => (c.from == userId || c.to == userId) && c.status == Accepted, challenges);
      Filter((c: FriendChallenge) => (c.from == userId || c.to == userId) && c.status == Accepted, challenges)
    }
  }

  /** The filter of `getFriendsLeaderboard`: completions by a listed friend or by the current user. */
  function AmongFriends(friendIds: seq<UserId>): Completion -> bool {
    (c: Completion) => c.userId in friendIds || c.userId == CurrentUser
  }

  lemma FriendsBoardFacts(friendIds: seq<UserId>, all: seq<Completion>)
    ensures var among := Filter(AmongFriends(friendIds), all);
      IsStableSortOf(CompletionKey, SortBy(CompletionKey, among), among) &&
      multiset(SortBy(CompletionKey, among)) == multiset(among)
    ensures var board := SortBy(CompletionKey, Filter(AmongFriends(friendIds), all));
      forall i :: 0 <= i < |board| ==> board[i] in all && (board[i].userId in friendIds || board[i].userId == CurrentUser)
  {
    SortByCorrect(CompletionKey, Filter(AmongFriends(friendIds), all));
    FriendsBoardMembers(friendIds, all);
  }

  /** Every row of the friends board is a stored completion by a friend or by the current user. */
  lemma FriendsBoardMembers(friendIds: seq<UserId>, all: seq<Completion>)
    ensures var board := SortBy(CompletionKey, Filter(AmongFriends(friendIds), all));
      forall i :: 0 <= i < |board| ==> board[i] in all && (board[i].userId in friendIds || board[i].userId == CurrentUser)
  {
    var among := Filter(AmongFriends(friendIds), all);
    SortByMembers(CompletionKey, among);
    var board := SortBy(CompletionKey, among);
    forall i | 0 <= i < |board| ensures board[i] in all && AmongFriends(friendIds)(board[i]) {
      var j :| 0 <= j < |among| && among[j] == board[i];
    }
  }

  /** Dropping friends from a duplicate-free list keeps it duplicate-free. */
  lemma KeptFriendsDistinct(keep: Friend -> bool, friends: seq<Friend>)
    requires NoDup(FriendIds(friends))
    ensures NoDup(FriendIds(Filter(keep, friends)))
  {
    var kept := Filter(keep, friends);
    assert DistinctFriends(friends) by {
      forall i, j | 0 <= i < j < |friends| ensures friends[i].userId != friends[j].userId {
        assert FriendIds(friends)[i] != FriendIds(friends)[j];
      }
    }
    FilterDistinct(keep, friends);
    forall i, j | 0 <= i < j < |kept| ensures FriendIds(kept)[i] != FriendIds(kept)[j] {
      assert kept[i].userId != kept[j].userId;
    }
  }

  /** No two friends share an id. */
  predicate DistinctFriends(fs: seq<Friend>) {
    forall i, j :: 0 <= i < j < |fs| ==> fs[i].userId != fs[j].userId
  }

  lemma {:induction false} FilterDistinct(keep: Friend -> bool, friends: seq<Friend>)
    requires DistinctFriends(friends)
    ensures DistinctFriends(Filter(keep, friends))
  {
    if friends != [] {
      var rest := friends[1..];
      var kept := Filter(keep, rest);
      assert DistinctFriends(rest);
      FilterDistinct(keep, rest);
      if keep(friends[0]) {
        assert Filter(keep, friends) == [friends[0]] + kept;
        HeadNotKept(keep, friends);
        DistinctCons(friends[0], kept);
      } else {
        assert Filter(keep, friends) == kept;
      }
    }
  }

  /** What is kept of the tail does not share the head's id. */
  lemma HeadNotKept(keep: Friend -> bool, friends: seq<Friend>)
    requires DistinctFriends(friends) && friends != []
    ensures forall j :: 0 <= j < |Filter(keep, friends[1..])| ==> Filter(keep, friends[1..])[j].userId != friends[0].userId
  {
    var rest := friends[1..];
    var kept := Filter(keep, rest);
    forall j | 0 <= j < |kept| ensures kept[j].userId != friends[0].userId {
      assert kept[j] in rest;
      var k :| 0 <= k < |rest| && rest[k] == kept[j];
      assert friends[k + 1] == kept[j];
    }
  }

  lemma DistinctCons(f: Friend, fs: seq<Friend>)
    requires DistinctFriends(fs) && forall j :: 0 <= j < |fs| ==> fs[j].userId != f.userId
    ensures DistinctFriends([f] + fs)
  {
    var r := [f] + fs;
    forall i, j | 0 <= i < j < |r| ensures r[i].userId != r[j].userId {
      assert r[j] == fs[j - 1];
      if i > 0 {
        assert r[i] == fs[i - 1];
      }
    }
  }
}
