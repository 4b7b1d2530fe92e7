/** The per-user day-streak rule of `updateStreak`, with days as consecutive integers. */
module Streaks {
  import opened Wrappers

  datatype StreakRecord = StreakRecord(count: nat, lastDate: Option<int>, bestStreak: nat)

  /** The record a user without one starts from: `{ count: 0, lastDate: null, bestStreak: 0 }`. */
  const NoStreak: StreakRecord := StreakRecord(0, None, 0)

  /** The record `updateStreak` leaves for a user credited on `today`: the streak continues after a
      credit yesterday (or on a first credit), otherwise it restarts at 1; the best streak is raised to
      the count when the count passes it. */
  function NextStreak(rec: StreakRecord, today: int): (r: StreakRecord)
    ensures r.lastDate == Some(today)
    ensures r.count == (if rec.lastDate == Some(today - 1) || rec.count == 0 then rec.count + 1 else 1)
    ensures rec.bestStreak <= r.bestStreak && r.count <= r.bestStreak
    ensures r.bestStreak == rec.bestStreak || r.bestStreak == r.count
  {
    var count := if rec.lastDate == Some(today - 1) || rec.count == 0 then rec.count + 1 else 1;
    StreakRecord(count, Some(today), if count > rec.bestStreak then count else rec.bestStreak)
  }

  /** Credits on the given days, one after the other. */
  function StreakOver(rec: StreakRecord, days: seq<int>): StreakRecord
    decreases |days|
  {
    if days == [] then rec else StreakOver(NextStreak(rec, days[0]), days[1..])
  }

  /** The `n` consecutive days starting at `start`. */
  function Days(start: int, n: nat): (d: seq<int>)
    ensures |d| == n && forall i :: 0 <= i < n ==> d[i] == start + i
  {
    seq(n, i => start + i)
  }

  /** A run of `n` consecutive daily credits that continues the record adds `n` to its count, and the
      best streak ends at least as long as the run. */
  lemma {:induction false} ConsecutiveDays(rec: StreakRecord, start: int, n: nat)
    requires rec.lastDate == Some(start - 1) || rec.count == 0
    requires n > 0
    ensures StreakOver(rec, Days(start, n)).count == rec.count + n
    ensures StreakOver(rec, Days(start, n)).bestStreak >= rec.count + n
    ensures StreakOver(rec, Days(start, n)).lastDate == Some(start + n - 1)
    decreases n
  {
    var days := Days(start, n);
    var next := NextStreak(rec, start);
    if n > 1 {
      assert days[1..] == Days(start + 1, n - 1);
      ConsecutiveDays(next, start + 1, n - 1);
    } else {
      assert days[1..] == [];
    }
  }

  /** From no record at all, `n` consecutive days give a streak of exactly `n`. */
  lemma FreshRun(start: int, n: nat)
    requires n > 0
    ensures StreakOver(NoStreak, Days(start, n)).count == n
  {
    ConsecutiveDays(NoStreak, start, n);
  }

  /** The best streak never goes down, whatever days are credited. */
  lemma {:induction false} BestNeverDecreases(rec: StreakRecord, days: seq<int>)
    ensures rec.bestStreak <= StreakOver(rec, days).bestStreak
    decreases |days|
  {
    if days != [] {
      BestNeverDecreases(NextStreak(rec, days[0]), days[1..]);
    }
  }

  /** After a gap of two days or more an existing streak restarts at 1. */
  lemma GapResets(rec: StreakRecord, today: int)
    requires rec.count > 0 && rec.lastDate.Some? && rec.lastDate.value < today - 1
    ensures NextStreak(rec, today).count == 1
  {
  }
}
