/** The line budget of app.js: the membership tiers, the monthly top-up, usage charged from the
    challenge frame's messages, creator credits, upgrades, and the guards and history cap of
    `generateChallenge`. The module-level variables of the page are the fields of `LineAccount`. */
module LineBudget {
  import opened Wrappers
  import opened Records
  import opened Seqs
  import opened ChallengeSearch
  import LineTracking

  datatype Tier = Free | Boost | Community | Super

  /** One row of `MEMBERSHIP_TIERS`; the price is in cents. */
  datatype TierInfo = TierInfo(lines: nat, priceCents: nat, name: string)

  /** `MEMBERSHIP_TIERS`. */
  function MembershipTiers(t: Tier): (info: TierInfo)
    ensures info.lines >= 1000
    ensures info.priceCents == 0 <==> t == Free
  {
    match t
    case Free => TierInfo(1000, 0, "Free")
    case Boost => TierInfo(5000, 999, "Boost")
    case Community => TierInfo(25000, 2999, "Community")
    case Super => TierInfo(50000, 4999, "Super")
  }

  /** Each tier up costs more and allocates more lines. */
  lemma TiersAscend()
    ensures MembershipTiers(Free).lines < MembershipTiers(Boost).lines < MembershipTiers(Community).lines < MembershipTiers(Super).lines
    ensures MembershipTiers(Free).priceCents < MembershipTiers(Boost).priceCents < MembershipTiers(Community).priceCents < MembershipTiers(Super).priceCents
  {
  }

  /** The most entries `challengeHistory` keeps. */
  const MaxHistory: nat := 50

  /** The most characters of the question a history title keeps. */
  const TitleLength: nat := 50

  /** The scalar budget state: `monthlyLines`, `linesUsed`, `membershipTier`, the stored
      `membershipExpiry`, `lastResetDate` (a day number) and the stored `isNewUser` flag. */
  datatype Budget = Budget(monthlyLines: int, linesUsed: int, tier: Tier, expiry: Option<int>,
                           lastResetDate: Option<int>, isNewUser: bool)

  function Remaining(b: Budget): int {
    b.monthlyLines - b.linesUsed
  }

  /** `checkMonthlyReset` given the first day of the current month: a missing reset date is set to
      it (without a top-up); a reset date before it rolls the tier's lines over onto the balance and
      clears the usage. */
  function MonthlyReset(b: Budget, firstOfMonth: int): (r: Budget)
    ensures r.tier == b.tier && r.expiry == b.expiry
    ensures r.lastResetDate.Some? && r.lastResetDate.value >= firstOfMonth
    ensures b.lastResetDate.None? ==> r == b.(lastResetDate := Some(firstOfMonth))
    ensures b.lastResetDate.Some? && b.lastResetDate.value < firstOfMonth ==>
      && r.monthlyLines == b.monthlyLines + MembershipTiers(b.tier).lines
      && r.linesUsed == 0 && r.lastResetDate == Some(firstOfMonth) && !r.isNewUser
    ensures b.lastResetDate.Some? && b.lastResetDate.value >= firstOfMonth ==> r == b
  {
    var last := b.lastResetDate.GetOr(firstOfMonth);
    if last < firstOfMonth then
      b.(monthlyLines := b.monthlyLines + MembershipTiers(b.tier).lines, linesUsed := 0,
         lastResetDate := Some(firstOfMonth), isNewUser := false)
    else
      b.(lastResetDate := Some(last))
  }

  /** A second check in the same month changes nothing. */
  lemma ResetIdempotent(b: Budget, firstOfMonth: int)
    ensures MonthlyReset(MonthlyReset(b, firstOfMonth), firstOfMonth) == MonthlyReset(b, firstOfMonth)
  {
  }

  /** The top-up rolls over: the lines left grow by the allocation plus what had been used. */
  lemma ResetRollsOver(b: Budget, firstOfMonth: int)
    requires b.lastResetDate.Some? && b.lastResetDate.value < firstOfMonth
    ensures Remaining(MonthlyReset(b, firstOfMonth)) == Remaining(b) + b.linesUsed + MembershipTiers(b.tier).lines
  {
  }

  /** Each new month tops up once more: two checks in consecutive months add two allocations. */
  lemma TwoMonths(b: Budget, month1: int, month2: int)
    requires b.lastResetDate.Some? && b.lastResetDate.value < month1 < month2
    ensures MonthlyReset(MonthlyReset(b, month1), month2).monthlyLines == b.monthlyLines + 2 * MembershipTiers(b.tier).lines
  {
  }

  /** `trackLinesUsed(n)` on the budget: the usage grows by `n`; the balance is untouched. */
  function Charge(b: Budget, n: int): (r: Budget)
    ensures r.linesUsed == b.linesUsed + n && r.monthlyLines == b.monthlyLines
    ensures Remaining(r) == Remaining(b) - n
    ensures r.(linesUsed := b.linesUsed) == b
  {
    b.(linesUsed := b.linesUsed + n)
  }

  /** The body of `upgradeMembership`'s timeout on the budget: the new tier, its expiry, and the
      tier's lines added at once. */
  function Upgrade(b: Budget, tier: Tier, expiry: int): (r: Budget)
    ensures r.tier == tier && r.expiry == Some(expiry)
    ensures r.monthlyLines == b.monthlyLines + MembershipTiers(tier).lines && r.linesUsed == b.linesUsed
    ensures Remaining(r) == Remaining(b) + MembershipTiers(tier).lines
    ensures r.lastResetDate == b.lastResetDate && r.isNewUser == b.isNewUser
  {
    b.(tier := tier, expiry := Some(expiry), monthlyLines := b.monthlyLines + MembershipTiers(tier).lines)
  }

  // ---------------------------------------------------------------- creator credits

  /** `find(c => c.serial === serial)`: the first index, or -1. */
  function FindSerial(store: seq<Challenge>, serial: string): (i: int)
    ensures -1 <= i < |store|
    ensures i >= 0 ==> store[i].serial == serial && forall j :: 0 <= j < i ==> store[j].serial != serial
    ensures i == -1 ==> forall j :: 0 <= j < |store| ==> store[j].serial != serial
  {
    FindIndex((c: Challenge) => c.serial == serial, store)
  }

  /** A credit is counted: the serial is in the store and its creator is not the current user. */
  predicate Creditable(store: seq<Challenge>, serial: string) {
    var i := FindSerial(store, serial);
    i >= 0 && store[i].creatorId != Some(CurrentUser)
  }

  /** The credit also goes to the current user's own balance: the found challenge names "You" as its
      creator. */
  predicate SelfCredit(store: seq<Challenge>, serial: string) {
    Creditable(store, serial) && store[FindSerial(store, serial)].createdBy == Some("You")
  }

  /** The store after `creditLinestoCreator(serial, lines)`: the first challenge with that serial gains
      one use and `lines` earned lines, unless it is missing or the current user's own. */
  function CreditedStore(store: seq<Challenge>, serial: string, lines: int): (r: seq<Challenge>)
    ensures |r| == |store|
    ensures !Creditable(store, serial) ==> r == store
    ensures Creditable(store, serial) ==>
      var i := FindSerial(store, serial);
      && r[i].timesUsed == store[i].timesUsed + 1 && r[i].linesEarned == store[i].linesEarned + lines
      && r[i].(timesUsed := store[i].timesUsed, linesEarned := store[i].linesEarned) == store[i]
      && forall j :: 0 <= j < |store| && j != i ==> r[j] == store[j]
  {
    if !Creditable(store, serial) then store
    else
      var i := FindSerial(store, serial);
      store[i := store[i].(timesUsed := store[i].timesUsed + 1, linesEarned := store[i].linesEarned + lines)]
  }

  // ---------------------------------------------------------------- generating a challenge

  /** `question.substring(0, 50)` followed by "..." when the question is longer. */
  function Title(question: string): (t: string)
    ensures |question| <= TitleLength ==> t == question
    ensures |question| > TitleLength ==> |t| == TitleLength + 3 && t[..TitleLength] == question[..TitleLength] && t[TitleLength..] == "..."
  {
    if |question| > TitleLength then question[..TitleLength] + "..." else question
  }

  /** `unshift` then `slice(0, 50)`: the newest entry first, at most fifty kept. */
  function PushHistory(history: seq<Challenge>, entry: Challenge): (r: seq<Challenge>)
    ensures 1 <= |r| <= MaxHistory && r[0] == entry
    ensures |r| == if |history| < MaxHistory then |history| + 1 else MaxHistory
    ensures r[1..] == history[..|r| - 1]
  {
    var pushed := [entry] + history;
    if |pushed| > MaxHistory then pushed[..MaxHistory] else pushed
  }

  /** The `challengeHistory` entry of a freshly generated challenge. */
  function HistoryEntry(id: string, serial: string, question: string, language: string, isCustom: bool,
                        difficulty: string, steps: int): (c: Challenge)
    ensures c.serial == serial && c.question == question && c.title == Title(question) && c.steps == steps
    ensures c.createdBy == Some("You") && c.creatorId == None && c.timesUsed == 0 && c.linesEarned == 0
    ensures c.language == if isCustom then "Custom: " + language else language
  {
    Challenge(id, serial, Title(question), question, if isCustom then "Custom: " + language else language,
              difficulty, steps, None, Some("You"), None, 0, 0)
  }

  /** What `addToStore` puts at the front of the shared store: the same challenge, marked as the
      current user's (`creatorId`) and shared by "You", with no `createdBy`. */
  function StoreEntry(entry: Challenge): (c: Challenge)
    ensures c.serial == entry.serial && c.creatorId == Some(CurrentUser) && c.createdBy == None
    ensures c.timesUsed == 0 && c.linesEarned == 0
    ensures c.(createdBy := entry.createdBy, creatorId := entry.creatorId, timesUsed := entry.timesUsed,
               linesEarned := entry.linesEarned) == entry
  {
    entry.(createdBy := None, creatorId := Some(CurrentUser), timesUsed := 0, linesEarned := 0)
  }

  /** Playing a challenge one has just generated never credits anyone: the store finds the user's own
      new entry first. */
  lemma OwnChallengeEarnsNothing(entry: Challenge, store: seq<Challenge>, lines: int)
    ensures !Creditable([StoreEntry(entry)] + store, entry.serial)
    ensures CreditedStore([StoreEntry(entry)] + store, entry.serial, lines) == [StoreEntry(entry)] + store
  {
    assert FindSerial([StoreEntry(entry)] + store, entry.serial) == 0;
  }

  /** How `generateChallenge` ends. */
  datatype GenerateOutcome =
    | EmptyQuestion
    | NoLinesRemaining
    | EmptyCustomLanguage
    | UsedExisting(similar: seq<Challenge>)
    | GenerationFailed
    | Created(entry: Challenge)

  /** The language choice that stands for a free-text language name. */
  const CustomChoice: string := "custom"

  /** The language a challenge is generated in: the custom name for the free-text choice, else the choice. */
  function ChosenLanguage(language: string, customLanguage: string): string {
    if language == CustomChoice then customLanguage else language
  }

  class LineAccount {
    var monthlyLines: int
    var linesUsed: int
    var membershipTier: Tier
    var membershipExpiry: Option<int>
    var lastResetDate: Option<int>
    var isNewUser: bool
    var lineHistory: seq<LineRecord>
    var challengeHistory: seq<Challenge>
    /** The stored `sharedChallenges` list (the challenge store). */
    var sharedChallenges: seq<Challenge>
    var currentChallenge: Option<Challenge>

    function Snapshot(): Budget
      reads this
    {
      Budget(monthlyLines, linesUsed, membershipTier, membershipExpiry, lastResetDate, isNewUser)
    }

    ghost predicate Valid()
      reads this
    {
      |challengeHistory| <= MaxHistory
    }

    constructor (b: Budget, lineHistory: seq<LineRecord>, challengeHistory: seq<Challenge>, sharedChallenges: seq<Challenge>)
      requires |challengeHistory| <= MaxHistory
      ensures Valid() && Snapshot() == b && currentChallenge == None
      ensures this.lineHistory == lineHistory && this.challengeHistory == challengeHistory
      ensures this.sharedChallenges == sharedChallenges
    {
      monthlyLines := b.monthlyLines;
      linesUsed := b.linesUsed;
      membershipTier := b.tier;
      membershipExpiry := b.expiry;
      lastResetDate := b.lastResetDate;
      isNewUser := b.isNewUser;
      this.lineHistory := lineHistory;
      this.challengeHistory := challengeHistory;
      this.sharedChallenges := sharedChallenges;
      currentChallenge := None;
    }

    method SetBudget(b: Budget)
      modifies this`monthlyLines, this`linesUsed, this`membershipTier, this`membershipExpiry, this`lastResetDate, this`isNewUser
      ensures Snapshot() == b
    {
      monthlyLines := b.monthlyLines;
      linesUsed := b.linesUsed;
      membershipTier := b.tier;
      membershipExpiry := b.expiry;
      lastResetDate := b.lastResetDate;
      isNewUser := b.isNewUser;
    }

    /** `currentChallenge?.serial`. */
    function CurrentSerial(): Option<string>
      reads this
    {
      if currentChallenge.Some? then Some(currentChallenge.value.serial) else None
    }

    /** `checkMonthlyReset`. */
    method CheckMonthlyReset(firstOfMonth: int)
      requires Valid()
      modifies this`monthlyLines, this`linesUsed, this`membershipTier, this`membershipExpiry, this`lastResetDate, this`isNewUser
      ensures Valid()
      ensures Snapshot() == MonthlyReset(old(Snapshot()), firstOfMonth)
    {
      SetBudget(MonthlyReset(Snapshot(), firstOfMonth));
    }

    /** `trackLinesUsed(n)`: charges the usage and logs one usage record. */
    method TrackLinesUsed(linesCount: int, now: int)
      requires Valid()
      modifies this`monthlyLines, this`linesUsed, this`membershipTier, this`membershipExpiry, this`lastResetDate, this`isNewUser,
               this`lineHistory
      ensures Valid()
      ensures Snapshot() == Charge(old(Snapshot()), linesCount)
      ensures lineHistory == old(lineHistory) + [Usage(now, linesCount, CurrentSerial())]
    {
      SetBudget(Charge(Snapshot(), linesCount));
      lineHistory := lineHistory + [Usage(now, linesCount, CurrentSerial())];
    }

    /** `creditLinestoCreator(serial, lines)`. */
    method CreditLinesToCreator(challengeSerial: string, lines: int, now: int)
      requires Valid()
      modifies this`monthlyLines, this`lineHistory, this`sharedChallenges
      ensures Valid()
      ensures sharedChallenges == CreditedStore(old(sharedChallenges), challengeSerial, lines)
      ensures SelfCredit(old(sharedChallenges), challengeSerial) ==>
        monthlyLines == old(monthlyLines) + lines && lineHistory == old(lineHistory) + [Earned(now, lines, challengeSerial)]
      ensures !SelfCredit(old(sharedChallenges), challengeSerial) ==>
        monthlyLines == old(monthlyLines) && lineHistory == old(lineHistory)
    {
      var i := FindSerial(sharedChallenges, challengeSerial);
      if i >= 0 && sharedChallenges[i].creatorId != Some(CurrentUser) {
        var c := sharedChallenges[i];
        sharedChallenges := sharedChallenges[i := c.(timesUsed := c.timesUsed + 1, linesEarned := c.linesEarned + lines)];
        if c.createdBy == Some("You") {
          monthlyLines := monthlyLines + lines;
          lineHistory := lineHistory + [Earned(now, lines, challengeSerial)];
        }
      }
    }

    /** The body of `upgradeMembership`'s timeout. */
    method UpgradeMembership(tier: Tier, expiry: int)
      requires Valid()
      modifies this`monthlyLines, this`linesUsed, this`membershipTier, this`membershipExpiry, this`lastResetDate, this`isNewUser
      ensures Valid()
      ensures Snapshot() == Upgrade(old(Snapshot()), tier, expiry)
    {
      SetBudget(Upgrade(Snapshot(), tier, expiry));
    }

    /** `generateChallenge`, with the page's inputs as parameters: the trimmed question, the selected
        language (`"custom"` for the free-text one) and the trimmed custom name, the difficulty, the
        answer to the "use an existing challenge" prompt, the step count of the generated challenge
        (`None` when the request fails), and the new serial, id and time. */
    method GenerateChallenge(question: string, language: string, customLanguage: string, difficulty: string,
                             useExisting: bool, generatedSteps: Option<int>, serial: string, id: string)
      returns (outcome: GenerateOutcome)
      requires Valid()
      modifies this`challengeHistory, this`sharedChallenges, this`currentChallenge
      ensures Valid()
      ensures question == "" <==> outcome == EmptyQuestion
      ensures question != "" && Remaining(Snapshot()) <= 0 ==> outcome == NoLinesRemaining
      ensures !outcome.Created? ==>
        challengeHistory == old(challengeHistory) && sharedChallenges == old(sharedChallenges) &&
        currentChallenge == old(currentChallenge)
      ensures outcome.Created? ==>
        && question != "" && Remaining(Snapshot()) > 0 && generatedSteps.Some?
        && challengeHistory == PushHistory(old(challengeHistory), outcome.entry)
        && sharedChallenges == [StoreEntry(outcome.entry)] + old(sharedChallenges)
        && currentChallenge == Some(outcome.entry)
        && outcome.entry == HistoryEntry(id, serial, question, ChosenLanguage(language, customLanguage),
                                         language == CustomChoice, difficulty, generatedSteps.value)
      ensures outcome.UsedExisting? ==>
        useExisting && outcome.similar == SearchSimilarChallenges(question, ChosenLanguage(language, customLanguage), sharedChallenges)
        && outcome.similar != []
      ensures question != "" && Remaining(Snapshot()) > 0 ==>
        (outcome == EmptyCustomLanguage <==> language == CustomChoice && customLanguage == "")
      ensures question != "" && Remaining(Snapshot()) > 0 && !(language == CustomChoice && customLanguage == "") ==>
        var reuse := useExisting && SearchSimilarChallenges(question, ChosenLanguage(language, customLanguage), old(sharedChallenges)) != [];
        && (reuse ==> outcome.UsedExisting?)
        && (!reuse && generatedSteps.None? ==> outcome == GenerationFailed)
        && (!reuse && generatedSteps.Some? ==> outcome.Created?)
    {
      if question == "" {
        return EmptyQuestion;
      }
      if monthlyLines - linesUsed <= 0 {
        return NoLinesRemaining;
      }
      var isCustom := language == CustomChoice;
      if isCustom && customLanguage == "" {
        return EmptyCustomLanguage;
      }
      var lang := ChosenLanguage(language, customLanguage);
      var similar := SearchSimilarChallenges(question, lang, sharedChallenges);
      if |similar| > 0 && useExisting {
        return UsedExisting(similar);
      }
      if generatedSteps.None? {
        return GenerationFailed;
      }
      var entry := HistoryEntry(id, serial, question, lang, isCustom, difficulty, generatedSteps.value);
      Record(entry);
      outcome := Created(entry);
    }

    /** The success branch of `generateChallenge`: the entry goes first into the capped history and the
        store, and becomes the current challenge. */
    method Record(entry: Challenge)
      requires Valid()
      modifies this`challengeHistory, this`sharedChallenges, this`currentChallenge
      ensures Valid()
      ensures challengeHistory == PushHistory(old(challengeHistory), entry)
      ensures sharedChallenges == [StoreEntry(entry)] + old(sharedChallenges)
      ensures currentChallenge == Some(entry)
    {
      challengeHistory := PushHistory(challengeHistory, entry);
      sharedChallenges := [StoreEntry(entry)] + sharedChallenges;
      currentChallenge := Some(entry);
    }

    /** The `message` listener: a `linesUsed` message charges its `lines` and credits the creator of the
        challenge it names; any other message leaves the ledger alone. */
    method OnMessage(m: LineTracking.Message, now: int)
      requires Valid()
      modifies this`monthlyLines, this`linesUsed, this`membershipTier, this`membershipExpiry, this`lastResetDate, this`isNewUser,
               this`lineHistory, this`sharedChallenges
      ensures Valid()
      ensures !m.LinesUsed? ==>
        Snapshot() == old(Snapshot()) && lineHistory == old(lineHistory) && sharedChallenges == old(sharedChallenges)
      ensures m.LinesUsed? ==>
        var credit := m.challengeSerial.Some? && m.challengeSerial.value != "";
        var self := credit && SelfCredit(old(sharedChallenges), m.challengeSerial.value);
        && linesUsed == old(linesUsed) + m.lines
        && monthlyLines == old(monthlyLines) + (if self then m.lines else 0)
        && Snapshot().(linesUsed := old(linesUsed), monthlyLines := old(monthlyLines)) == old(Snapshot())
        && sharedChallenges == (if credit then CreditedStore(old(sharedChallenges), m.challengeSerial.value, m.lines)
                                else old(sharedChallenges))
        && lineHistory == old(lineHistory) + [Usage(now, m.lines, CurrentSerial())] +
                          (if self then [Earned(now, m.lines, m.challengeSerial.value)] else [])
    {
      if m.LinesUsed? {
        TrackLinesUsed(m.lines, now);
        if m.challengeSerial.Some? && m.challengeSerial.value != "" {
          CreditLinesToCreator(m.challengeSerial.value, m.lines, now);
        }
      }
    }
  }
}
