/**
 * The in-memory per-user, per-day credit ledger that server.js,
 * netlify/functions/clodudflare.js and netlify/functions/credits.js each
 * keep in a module-level `Map`: keys are `userId + ":" + day`, values
 * `{count, date}`. Records are created lazily on read, incremented in
 * place, and purged when their day is over.
 *
 * The clock is not read here: every helper takes the day it would have
 * read as an explicit argument, so a caller that reads the clock twice
 * passes two days.
 */
module Credits {

  const DAILY_CREDIT_LIMIT: nat := 1000

  /**
   * A calendar day as `Date.prototype.toDateString` renders it
   * ("Wed Oct 14 2026"): an opaque token that never contains ':'.
   */
  type Day = d: string | ':' !in d

  datatype Record = Record(count: nat, date: Day)

  type Ledger = map<string, Record>

  /** The ledger key of a user's day: `${userId}:${today}`. */
  function Key(userId: string, day: Day): string {
    userId + ":" + day
  }

  /** The text after the last ':' of a key (all of it when there is none). */
  function DayOfKey(k: string): string {
    if |k| == 0 || k[|k| - 1] == ':' then "" else DayOfKey(k[..|k| - 1]) + [k[|k| - 1]]
  }

  /** A key names the day it was formed from. */
  lemma {:induction false} DayOfKeyOfKey(userId: string, day: Day)
    ensures DayOfKey(Key(userId, day)) == day
    decreases |day|
  {
    var k := Key(userId, day);
    if day != "" {
      var shorter: Day := day[..|day| - 1];
      assert k[..|k| - 1] == Key(userId, shorter);
      assert k[|k| - 1] == day[|day| - 1];
      DayOfKeyOfKey(userId, shorter);
    }
  }

  /** Distinct (user, day) pairs never share a key, because days contain no ':'. */
  lemma KeyInjective(u1: string, d1: Day, u2: string, d2: Day)
    requires Key(u1, d1) == Key(u2, d2)
    ensures u1 == u2 && d1 == d2
  {
    DayOfKeyOfKey(u1, d1);
    DayOfKeyOfKey(u2, d2);
    assert |u1| == |u2|;
    assert u1 == Key(u1, d1)[..|u1|];
    assert u2 == Key(u2, d2)[..|u2|];
  }

  /** Every record sits under the key of its own day. */
  predicate WellKeyed(m: Ledger) {
    forall k | k in m :: DayOfKey(k) == m[k].date
  }

  /** No record has counted more calls than the daily limit. */
  predicate WithinLimit(m: Ledger) {
    forall k | k in m :: m[k].count <= DAILY_CREDIT_LIMIT
  }

  /** Calls charged to `userId` on `day` (zero when there is no record yet). */
  function Used(m: Ledger, userId: string, day: Day): nat {
    var k := Key(userId, day);
    if k in m then m[k].count else 0
  }

  /** The ledger after `getUserCredits(userId)` on `day`: a zero record inserted when missing. */
  function Touched(m: Ledger, userId: string, day: Day): Ledger {
    var k := Key(userId, day);
    if k in m then m else m[k := Record(0, day)]
  }

  /** The ledger after `incrementCredits(userId)` on `day`. */
  function Charged(m: Ledger, userId: string, day: Day): Ledger {
    m[Key(userId, day) := Record(Used(m, userId, day) + 1, day)]
  }

  /** The ledger after the hourly cleanup on `today`. */
  function Purged(m: Ledger, today: Day): Ledger {
    map k | k in m && m[k].date == today :: m[k]
  }

  /** The ledger after `n` successful calls of `userId` on `day`. */
  function ChargedTimes(m: Ledger, userId: string, day: Day, n: nat): Ledger {
    if n == 0 then m else Charged(ChargedTimes(m, userId, day, n - 1), userId, day)
  }

  /** Setting the record over a freshly read one is the charge itself. */
  lemma TouchThenSet(m: Ledger, userId: string, day: Day)
    ensures Touched(m, userId, day)[Key(userId, day) := Record(Used(m, userId, day) + 1, day)]
            == Charged(m, userId, day)
  {
  }

  /** Reading a user's credits changes no count of anyone on any day. */
  lemma TouchedKeepsCounts(m: Ledger, userId: string, day: Day, u: string, d: Day)
    ensures Used(Touched(m, userId, day), u, d) == Used(m, u, d)
    ensures Touched(m, userId, day).Keys == m.Keys + {Key(userId, day)}
  {
  }

  /**
   * A charge raises exactly the charged user's count for the charged day by
   * one; every other user and every other day keeps its count.
   */
  lemma ChargedCounts(m: Ledger, userId: string, day: Day, u: string, d: Day)
    ensures Used(Charged(m, userId, day), userId, day) == Used(m, userId, day) + 1
    ensures (u, d) != (userId, day) ==> Used(Charged(m, userId, day), u, d) == Used(m, u, d)
  {
    if Key(u, d) == Key(userId, day) {
      KeyInjective(u, d, userId, day);
    }
  }

  /** Inserting or charging a user's day keeps every record under its own day's key. */
  lemma ChargedWellKeyed(m: Ledger, userId: string, day: Day)
    requires WellKeyed(m)
    ensures WellKeyed(Touched(m, userId, day))
    ensures WellKeyed(Charged(m, userId, day))
  {
    DayOfKeyOfKey(userId, day);
  }

  /** Reading a user's credits keeps every count within the limit. */
  lemma TouchedWithinLimit(m: Ledger, userId: string, day: Day)
    requires WithinLimit(m)
    ensures WithinLimit(Touched(m, userId, day))
  {
  }

  /** A charge admitted below the limit keeps every count within the limit. */
  lemma ChargedWithinLimit(m: Ledger, userId: string, day: Day)
    requires WithinLimit(m)
    requires Used(m, userId, day) < DAILY_CREDIT_LIMIT
    ensures WithinLimit(Charged(m, userId, day))
  {
  }

  /** After `n` successful calls on one day, `n` more credits are used. */
  lemma {:induction false} ChargedTimesCount(m: Ledger, userId: string, day: Day, n: nat)
    ensures Used(ChargedTimes(m, userId, day, n), userId, day) == Used(m, userId, day) + n
  {
    if n > 0 {
      ChargedTimesCount(m, userId, day, n - 1);
    }
  }

  /**
   * The cleanup keeps every record of today with its count and drops every
   * record of any other day.
   */
  lemma PurgedCounts(m: Ledger, today: Day, u: string, d: Day)
    requires WellKeyed(m)
    ensures Used(Purged(m, today), u, today) == Used(m, u, today)
    ensures d != today ==> Key(u, d) !in Purged(m, today)
    ensures Purged(m, today).Keys <= m.Keys
  {
    DayOfKeyOfKey(u, today);
    DayOfKeyOfKey(u, d);
  }

  /** The credit ledger of one source file (its own module-level `Map`). */
  class CreditLedger {
    var userCredits: Ledger

    ghost predicate Valid()
      reads this
    {
      WellKeyed(userCredits)
    }

    /** `new Map()` */
    constructor ()
      ensures Valid() && userCredits == map[]
    {
      userCredits := map[];
    }

    /** `getUserCredits(userId)`: today's record, inserted as `{count: 0, date: today}` when missing. */
    method GetUserCredits(userId: string, today: Day) returns (credits: Record)
      requires Valid()
      modifies this
      ensures Valid()
      ensures userCredits == Touched(old(userCredits), userId, today)
      ensures Key(userId, today) in old(userCredits) ==> credits == old(userCredits)[Key(userId, today)]
      ensures credits == Record(Used(old(userCredits), userId, today), today)
    {
      var key := Key(userId, today);
      if key !in userCredits {
        userCredits := userCredits[key := Record(0, today)];
      }
      credits := userCredits[key];
      DayOfKeyOfKey(userId, today);
      ChargedWellKeyed(old(userCredits), userId, today);
    }

    /** `hasCreditsRemaining(userId)`: today's count is below the daily limit. */
    method HasCreditsRemaining(userId: string, today: Day) returns (has: bool)
      requires Valid()
      modifies this
      ensures Valid()
      ensures userCredits == Touched(old(userCredits), userId, today)
      ensures has <==> Used(old(userCredits), userId, today) < DAILY_CREDIT_LIMIT
    {
      var credits := GetUserCredits(userId, today);
      has := credits.count < DAILY_CREDIT_LIMIT;
    }

    /** `incrementCredits(userId)`: today's count goes up by exactly one. */
    method IncrementCredits(userId: string, today: Day)
      requires Valid()
      modifies this
      ensures Valid()
      ensures userCredits == Charged(old(userCredits), userId, today)
    {
      var credits := GetUserCredits(userId, today);
      credits := credits.(count := credits.count + 1);
      ghost var touched := userCredits;
      userCredits := userCredits[Key(userId, credits.date) := credits];
      TouchThenSet(old(userCredits), userId, today);
      assert userCredits == touched[Key(userId, today) := Record(Used(old(userCredits), userId, today) + 1, today)];
      ChargedWellKeyed(old(userCredits), userId, today);
    }

    /** `getRemainingCredits(userId)`: the limit minus today's count. */
    method GetRemainingCredits(userId: string, today: Day) returns (remaining: int)
      requires Valid()
      modifies this
      ensures Valid()
      ensures userCredits == Touched(old(userCredits), userId, today)
      ensures remaining + Used(old(userCredits), userId, today) == DAILY_CREDIT_LIMIT
    {
      var credits := GetUserCredits(userId, today);
      remaining := DAILY_CREDIT_LIMIT - credits.count;
    }

    /** The body of the hourly timer: delete every record whose date is not today. */
    method Cleanup(today: Day)
      requires Valid()
      modifies this
      ensures Valid()
      ensures userCredits == Purged(old(userCredits), today)
    {
      var keys := userCredits.Keys;
      while keys != {}
        invariant keys <= old(userCredits).Keys
        invariant userCredits.Keys <= old(userCredits).Keys
        invariant forall k | k in userCredits :: userCredits[k] == old(userCredits)[k]
        invariant forall k | k in old(userCredits) && k !in keys ::
                    k in userCredits <==> old(userCredits)[k].date == today
        invariant forall k | k in keys :: k in userCredits
        decreases keys
      {
        var key :| key in keys;
        if userCredits[key].date != today {
          userCredits := userCredits - {key};
        }
        keys := keys - {key};
      }
      assert userCredits.Keys == Purged(old(userCredits), today).Keys;
    }
  }
}
