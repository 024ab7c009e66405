/** `UsageTrackingService`: daily counters of GPT calls and enhancements per
    user, kept in a key-value store under `kind_usage:userId:date`. When the
    store is switched off every check passes and nothing is counted. Today's
    date (the text `LocalDate.now()` renders) is a parameter. */
module UsageTracking {
  import Wrappers
  import opened Strings
  import opened Numeric

  datatype Kind = Gpt | Enhancement

  function Prefix(kind: Kind): string {
    match kind
    case Gpt => "gpt_usage"
    case Enhancement => "enhancement_usage"
  }

  /** The store key of one user's counter of one kind on one date. */
  function CounterKey(kind: Kind, userId: int, date: string): string {
    Prefix(kind) + ":" + LongToString(userId) + ":" + date
  }

  /** What follows the kind in a key. */
  function KeyRest(userId: int, date: string): string {
    LongToString(userId) + ":" + date
  }

  lemma KeyParts(kind: Kind, userId: int, date: string)
    ensures CounterKey(kind, userId, date) == Prefix(kind) + ":" + KeyRest(userId, date)
  {
  }

  /** The two prefixes differ in their first character. */
  lemma KindOfKey(k1: Kind, r1: string, k2: Kind, r2: string)
    requires Prefix(k1) + ":" + r1 == Prefix(k2) + ":" + r2
    ensures k1 == k2 && r1 == r2
  {
    var key := Prefix(k1) + ":" + r1;
    assert key[0] == Prefix(k1)[0];
    assert (Prefix(k2) + ":" + r2)[0] == Prefix(k2)[0];
    var n := |Prefix(k1)| + 1;
    assert key[n..] == r1;
    assert (Prefix(k2) + ":" + r2)[n..] == r2;
  }

  lemma RestInjective(u1: int, d1: string, u2: int, d2: string)
    requires KeyRest(u1, d1) == KeyRest(u2, d2)
    ensures u1 == u2 && d1 == d2
  {
    LongToStringAlphabet(u1);
    LongToStringAlphabet(u2);
    SeparatorSplitsUniquely(LongToString(u1), d1, LongToString(u2), d2, ':');
    LongToStringInjective(u1, u2);
  }

  /** Different kinds, users or dates never share a counter. */
  lemma CounterKeyInjective(k1: Kind, u1: int, d1: string, k2: Kind, u2: int, d2: string)
    requires CounterKey(k1, u1, d1) == CounterKey(k2, u2, d2)
    ensures k1 == k2 && u1 == u2 && d1 == d2
  {
    KeyParts(k1, u1, d1);
    KeyParts(k2, u2, d2);
    KindOfKey(k1, KeyRest(u1, d1), k2, KeyRest(u2, d2));
    RestInjective(u1, d1, u2, d2);
  }

  /** A counter's value; a missing key reads as 0. */
  function Count(counters: map<string, int>, kind: Kind, userId: int, date: string): int {
    var key := CounterKey(kind, userId, date);
    if key in counters then counters[key] else 0
  }

  /** `canUse*`. */
  predicate CanUse(enabled: bool, limit: int, counters: map<string, int>, kind: Kind, userId: int, date: string) {
    !enabled || Count(counters, kind, userId, date) < limit
  }

  /** `getRemaining*`. */
  function Remaining(enabled: bool, limit: int, counters: map<string, int>, kind: Kind, userId: int, date: string): int {
    if !enabled then limit else Wrappers.Max(0, limit - Count(counters, kind, userId, date))
  }

  /** With tracking on, a call is allowed exactly when some of the day's
      allowance remains. */
  lemma CanUseIffRemaining(limit: int, counters: map<string, int>, kind: Kind, userId: int, date: string)
    ensures CanUse(true, limit, counters, kind, userId, date) <==> Remaining(true, limit, counters, kind, userId, date) > 0
  {
  }

  /** The store after `track*`: the one counter goes up by one. */
  function Tracked(enabled: bool, counters: map<string, int>, kind: Kind, userId: int, date: string): map<string, int> {
    if !enabled then counters
    else counters[CounterKey(kind, userId, date) := Count(counters, kind, userId, date) + 1]
  }

  /** Tracking moves exactly its own counter, by one. */
  lemma TrackMovesOnlyItsCounter(counters: map<string, int>, kind: Kind, userId: int, date: string, k2: Kind, u2: int, d2: string)
    ensures var after := Tracked(true, counters, kind, userId, date);
            Count(after, k2, u2, d2) ==
              if (k2, u2, d2) == (kind, userId, date) then Count(counters, k2, u2, d2) + 1 else Count(counters, k2, u2, d2)
  {
    if CounterKey(k2, u2, d2) == CounterKey(kind, userId, date) {
      CounterKeyInjective(k2, u2, d2, kind, userId, date);
    }
  }

  /** The store after `k` tracks of the same counter. */
  function TrackedTimes(counters: map<string, int>, kind: Kind, userId: int, date: string, k: nat): map<string, int> {
    if k == 0 then counters else Tracked(true, TrackedTimes(counters, kind, userId, date, k - 1), kind, userId, date)
  }

  lemma {:induction false} TrackedTimesCount(counters: map<string, int>, kind: Kind, userId: int, date: string, k: nat)
    ensures Count(TrackedTimes(counters, kind, userId, date, k), kind, userId, date) == Count(counters, kind, userId, date) + k
  {
    if k > 0 {
      TrackedTimesCount(counters, kind, userId, date, k - 1);
    }
  }

  /** After `k` tracks from a fresh day, `max(0, limit - k)` remain, and no
      further call is allowed once `k` reaches the limit. */
  lemma AfterTracks(limit: int, counters: map<string, int>, kind: Kind, userId: int, date: string, k: nat)
    requires Count(counters, kind, userId, date) == 0
    ensures var after := TrackedTimes(counters, kind, userId, date, k);
            Remaining(true, limit, after, kind, userId, date) == Wrappers.Max(0, limit - k)
            && (k >= limit ==> !CanUse(true, limit, after, kind, userId, date))
  {
    TrackedTimesCount(counters, kind, userId, date, k);
  }

  /** The store after `resetDailyUsage`: the user's two counters for the date are gone. */
  function Reset(enabled: bool, counters: map<string, int>, userId: int, date: string): map<string, int> {
    if !enabled then counters
    else counters - {CounterKey(Gpt, userId, date), CounterKey(Enhancement, userId, date)}
  }

  /** After a reset the user has the full allowance of both kinds again, and
      every other counter is as it was. */
  lemma ResetRestoresLimits(gptLimit: int, enhancementLimit: int, counters: map<string, int>, userId: int, date: string,
                            k2: Kind, u2: int, d2: string)
    ensures var after := Reset(true, counters, userId, date);
            Remaining(true, gptLimit, after, Gpt, userId, date) == Wrappers.Max(0, gptLimit)
            && Remaining(true, enhancementLimit, after, Enhancement, userId, date) == Wrappers.Max(0, enhancementLimit)
            && ((u2, d2) != (userId, date) ==> Count(after, k2, u2, d2) == Count(counters, k2, u2, d2))
  {
    if (u2, d2) != (userId, date) {
      if CounterKey(k2, u2, d2) == CounterKey(Gpt, userId, date) {
        CounterKeyInjective(k2, u2, d2, Gpt, userId, date);
      }
      if CounterKey(k2, u2, d2) == CounterKey(Enhancement, userId, date) {
        CounterKeyInjective(k2, u2, d2, Enhancement, userId, date);
      }
    }
  }

  class UsageTrackingService {
    /** The key-value store's counters. */
    var counters: map<string, int>
    /** `app.usage.enable-redis-cache`. */
    const enabled: bool
    /** `app.usage.daily-gpt-limit`, 10 unless configured. */
    const dailyGptLimit: int
    /** `app.usage.daily-enhancement-limit`, 20 unless configured. */
    const dailyEnhancementLimit: int

    constructor (enabled: bool, dailyGptLimit: int, dailyEnhancementLimit: int)
      ensures this.enabled == enabled && this.dailyGptLimit == dailyGptLimit
      ensures this.dailyEnhancementLimit == dailyEnhancementLimit && counters == map[]
    {
      this.enabled := enabled;
      this.dailyGptLimit := dailyGptLimit;
      this.dailyEnhancementLimit := dailyEnhancementLimit;
      counters := map[];
    }

    /** The service with the configuration defaults. */
    constructor WithDefaults(enabled: bool)
      ensures this.enabled == enabled && dailyGptLimit == 10 && dailyEnhancementLimit == 20 && counters == map[]
    {
      this.enabled := enabled;
      dailyGptLimit := 10;
      dailyEnhancementLimit := 20;
      counters := map[];
    }

    function Limit(kind: Kind): int {
      match kind
      case Gpt => dailyGptLimit
      case Enhancement => dailyEnhancementLimit
    }

    method Read(kind: Kind, userId: int, today: string) returns (usage: int)
      ensures usage == Count(counters, kind, userId, today)
    {
      var key := CounterKey(kind, userId, today);
      usage := if key in counters then counters[key] else 0;
    }

    /** `canUseGptService`. */
    method CanUseGptService(userId: int, today: string) returns (b: bool)
      ensures b == CanUse(enabled, dailyGptLimit, counters, Gpt, userId, today)
      ensures !enabled ==> b
    {
      if !enabled {
        return true;
      }
      var usage := Read(Gpt, userId, today);
      b := usage < dailyGptLimit;
    }

    /** `canUseEnhancement`. */
    method CanUseEnhancement(userId: int, today: string) returns (b: bool)
      ensures b == CanUse(enabled, dailyEnhancementLimit, counters, Enhancement, userId, today)
      ensures !enabled ==> b
    {
      if !enabled {
        return true;
      }
      var usage := Read(Enhancement, userId, today);
      b := usage < dailyEnhancementLimit;
    }

    /** `trackGptUsage`; the one-day expiry of the key is not modelled. */
    method TrackGptUsage(userId: int, today: string)
      modifies this
      ensures counters == Tracked(enabled, old(counters), Gpt, userId, today)
      ensures !enabled ==> counters == old(counters)
    {
      if !enabled {
        return;
      }
      var usage := Read(Gpt, userId, today);
      counters := counters[CounterKey(Gpt, userId, today) := usage + 1];
    }

    /** `trackEnhancementUsage`. */
    method TrackEnhancementUsage(userId: int, today: string)
      modifies this
      ensures counters == Tracked(enabled, old(counters), Enhancement, userId, today)
      ensures !enabled ==> counters == old(counters)
    {
      if !enabled {
        return;
      }
      var usage := Read(Enhancement, userId, today);
      counters := counters[CounterKey(Enhancement, userId, today) := usage + 1];
    }

    /** `getRemainingGptUsage`. */
    method GetRemainingGptUsage(userId: int, today: string) returns (n: int)
      ensures n == Remaining(enabled, dailyGptLimit, counters, Gpt, userId, today)
      ensures !enabled ==> n == dailyGptLimit
      ensures enabled ==> n >= 0 && (n > 0 <==> CanUse(enabled, dailyGptLimit, counters, Gpt, userId, today))
    {
      if !enabled {
        return dailyGptLimit;
      }
      var usage := Read(Gpt, userId, today);
      n := Wrappers.Max(0, dailyGptLimit - usage);
    }

    /** `getRemainingEnhancementUsage`. */
    method GetRemainingEnhancementUsage(userId: int, today: string) returns (n: int)
      ensures n == Remaining(enabled, dailyEnhancementLimit, counters, Enhancement, userId, today)
      ensures !enabled ==> n == dailyEnhancementLimit
      ensures enabled ==> n >= 0 && (n > 0 <==> CanUse(enabled, dailyEnhancementLimit, counters, Enhancement, userId, today))
    {
      if !enabled {
        return dailyEnhancementLimit;
      }
      var usage := Read(Enhancement, userId, today);
      n := Wrappers.Max(0, dailyEnhancementLimit - usage);
    }

    /** `resetDailyUsage`. */
    method ResetDailyUsage(userId: int, today: string)
      modifies this
      ensures counters == Reset(enabled, old(counters), userId, today)
      ensures !enabled ==> counters == old(counters)
    {
      if !enabled {
        return;
      }
      counters := counters - {CounterKey(Gpt, userId, today)};
      counters := counters - {CounterKey(Enhancement, userId, today)};
    }
  }
}
