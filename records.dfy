/** Records shared by the daily engine, the friends league and the line ledger, and the stored line
    balance that the engine and the league credit. */
module Records {
  import opened Wrappers

  type UserId = string

  /** The identifier the client uses for the person at the keyboard. */
  const CurrentUser: UserId := "current_user"

  /** A challenge: an entry of the shared store (`sharedChallenges`) or of a user's `challengeHistory`.
      The step content itself belongs to the content generator and is not modelled; `steps` is its length. */
  datatype Challenge = Challenge(
    id: string,
    serial: string,
    title: string,
    question: string,
    language: string,
    difficulty: string,
    steps: int,
    rating: Option<real>,
    createdBy: Option<string>,
    creatorId: Option<UserId>,
    timesUsed: int,
    linesEarned: int)

  /** One entry of the `lineHistory` transaction log. */
  datatype LineRecord =
    | DailyReward(timestamp: int, amount: int, challengeSerial: string)
    | FriendWin(timestamp: int, amount: int, opponent: UserId)
    | Usage(timestamp: int, lines: int, currentSerial: Option<string>)
    | Earned(timestamp: int, lines: int, challengeSerial: string)

  /** The stored `monthlyLines` balance and `lineHistory` log that the daily engine and the friends
      league read, update and write back. */
  class LineWallet {
    var monthlyLines: int
    var lineHistory: seq<LineRecord>

    constructor (monthlyLines: int, lineHistory: seq<LineRecord>)
      ensures this.monthlyLines == monthlyLines && this.lineHistory == lineHistory
    {
      this.monthlyLines := monthlyLines;
      this.lineHistory := lineHistory;
    }
  }
}
