/**
 Cooldowns of model providers (pkg/providers/cooldown.go): failures push the time of return ahead by
 exponential backoffs, with counters that start over after a day without failures. Times are in
 milliseconds.
 */
module Cooldown {
  import opened Wrappers

  datatype Reason = Auth | RateLimit | Billing | Timeout | Format | Overloaded | Unknown

  datatype Entry = Entry(
    errorCount: nat, failureCounts: map<Reason, nat>,
    cooldownEnd: Option<int>, disabledUntil: Option<int>, disabledReason: Option<Reason>, lastFailure: Option<int>)

  const FAILURE_WINDOW := 24 * 60 * 60 * 1000
  const FRESH := Entry(0, map[], None, None, None, None)

  // ------------------------------------------------------------------ backoffs

  function Pow(b: nat, e: nat): nat { if e == 0 then 1 else b * Pow(b, e - 1) }

  function Min(a: int, b: int): int { if a < b then a else b }

  function Max(a: int, b: int): int { if a < b then b else a }

  function StandardCooldown(errorCount: int): int {
    Min(3_600_000, 60_000 * Pow(5, Min(Max(1, errorCount) - 1, 3)))
  }

  function BillingCooldown(billingCount: int): int {
    Min(24 * 60 * 60 * 1000, 5 * 60 * 60 * 1000 * Pow(2, Min(Max(1, billingCount) - 1, 10)))
  }

  /** One, five and twenty-five minutes, then an hour. */
  lemma {:induction false} StandardTable(n: int)
    ensures StandardCooldown(n) ==
            if n <= 1 then 60_000 else if n == 2 then 300_000 else if n == 3 then 1_500_000 else 3_600_000
  {
    assert Pow(5, 1) == 5 && Pow(5, 2) == 5 * Pow(5, 1) && Pow(5, 3) == 5 * Pow(5, 2);
  }

  lemma {:induction false} PowGrows(e: nat, f: nat)
    requires e <= f
    ensures Pow(2, e) <= Pow(2, f)
  {
    if e < f {
      PowGrows(e, f - 1);
    }
  }

  /** Five, ten and twenty hours, then a day. */
  lemma {:induction false} BillingTable(n: int)
    ensures BillingCooldown(n) ==
            if n <= 1 then 18_000_000 else if n == 2 then 36_000_000 else if n == 3 then 72_000_000 else 86_400_000
  {
    assert Pow(2, 1) == 2 && Pow(2, 2) == 2 * Pow(2, 1) && Pow(2, 3) == 2 * Pow(2, 2);
    if n >= 4 {
      PowGrows(3, Min(n - 1, 10));
    }
  }

  // ------------------------------------------------------------------ one provider

  function CountOf(counts: map<Reason, nat>, reason: Reason): nat { if reason in counts then counts[reason] else 0 }

  function Bump(counts: map<Reason, nat>, reason: Reason): map<Reason, nat> {
    counts[reason := CountOf(counts, reason) + 1]
  }

  function Total(counts: map<Reason, nat>): nat {
    CountOf(counts, Auth) + CountOf(counts, RateLimit) + CountOf(counts, Billing) + CountOf(counts, Timeout)
    + CountOf(counts, Format) + CountOf(counts, Overloaded) + CountOf(counts, Unknown)
  }

  /** Counters start over when the last failure is further back than the window. */
  function Expire(window: int, entry: Entry, now: int): Entry {
    if entry.lastFailure.Some? && now - entry.lastFailure.value > window
    then entry.(errorCount := 0, failureCounts := map[])
    else entry
  }

  function Failed(window: int, entry: Entry, reason: Reason, now: int): Entry {
    var recent := Expire(window, entry, now);
    var counts := Bump(recent.failureCounts, reason);
    var counted := recent.(errorCount := recent.errorCount + 1, failureCounts := counts, lastFailure := Some(now));
    if reason.Billing?
    then
      counted.(disabledUntil := Some(now + BillingCooldown(CountOf(counts, Billing))), disabledReason := Some(Billing))
    else counted.(cooldownEnd := Some(now + StandardCooldown(counted.errorCount)))
  }

  function Succeeded(entry: Entry): Entry {
    entry.(errorCount := 0, failureCounts := map[], cooldownEnd := None, disabledUntil := None, disabledReason := None)
  }

  predicate Disabled(entry: Entry, now: int) { entry.disabledUntil.Some? && now < entry.disabledUntil.value }

  predicate Cooling(entry: Entry, now: int) { entry.cooldownEnd.Some? && now < entry.cooldownEnd.value }

  predicate Available(entry: Entry, now: int) { !Disabled(entry, now) && !Cooling(entry, now) }

  // ------------------------------------------------------------------ runs of one provider

  /** A failure with its reason, or a success. */
  datatype Event = Event(at: int, failure: Option<Reason>)

  function Apply(window: int, entry: Entry, event: Event): Entry {
    if event.failure.Some? then Failed(window, entry, event.failure.value, event.at) else Succeeded(entry)
  }

  function Replay(window: int, events: seq<Event>): Entry {
    if events == [] then FRESH else Apply(window, Replay(window, events[..|events| - 1]), events[|events| - 1])
  }

  predicate InOrder(events: seq<Event>) { forall i, j :: 0 <= i < j < |events| ==> events[i].at <= events[j].at }

  /** The shortest window for which a failure never brings a provider back sooner. */
  const ENOUGH := 24 * 60 * 60 * 1000 - 5 * 60 * 60 * 1000 - 1

  predicate NotSooner(before: Option<int>, after: Option<int>) {
    before.Some? ==> after.Some? && before.value <= after.value
  }

  /** Each deadline is bounded by the last failure plus the backoff of the present count. */
  predicate Bounded(entry: Entry) {
    && (entry.lastFailure.None? ==> entry.cooldownEnd.None? && entry.disabledUntil.None?)
    && (entry.cooldownEnd.Some? && entry.lastFailure.Some? ==>
          entry.cooldownEnd.value <= entry.lastFailure.value + StandardCooldown(entry.errorCount))
    && (entry.disabledUntil.Some? && entry.lastFailure.Some? ==>
          entry.disabledUntil.value <= entry.lastFailure.value + BillingCooldown(CountOf(entry.failureCounts, Billing)))
  }

  lemma {:induction false} BackoffsGrow(n: int)
    ensures 60_000 <= StandardCooldown(n) <= StandardCooldown(n + 1) <= 3_600_000
    ensures 18_000_000 <= BillingCooldown(n) <= BillingCooldown(n + 1) <= 86_400_000
  {
    StandardTable(n);
    StandardTable(n + 1);
    BillingTable(n);
    BillingTable(n + 1);
  }

  lemma {:induction false} FailureKeepsBounds(window: int, entry: Entry, reason: Reason, now: int)
    requires window >= ENOUGH && Bounded(entry)
    requires entry.lastFailure.Some? ==> entry.lastFailure.value <= now
    ensures var entry' := Failed(window, entry, reason, now);
            && Bounded(entry')
            && NotSooner(entry.cooldownEnd, entry'.cooldownEnd)
            && NotSooner(entry.disabledUntil, entry'.disabledUntil)
  {
    BackoffsGrow(entry.errorCount);
    BackoffsGrow(CountOf(entry.failureCounts, Billing));
    BackoffsGrow(0);
  }

  lemma {:induction false} RunBounded(window: int, events: seq<Event>)
    requires window >= ENOUGH && InOrder(events)
    ensures var entry := Replay(window, events);
            && Bounded(entry)
            && (entry.lastFailure.Some? ==> events != [] && entry.lastFailure.value <= events[|events| - 1].at)
  {
    if events != [] {
      var init, last := events[..|events| - 1], events[|events| - 1];
      RunBounded(window, init);
      if last.failure.Some? {
        FailureKeepsBounds(window, Replay(window, init), last.failure.value, last.at);
      }
    }
  }

  /** A further failure, of whatever kind and whenever, never brings a provider back sooner. */
  lemma {:induction false} NeverSooner(window: int, events: seq<Event>, reason: Reason, now: int, t: int)
    requires window >= ENOUGH && InOrder(events + [Event(now, Some(reason))])
    ensures var before, after := Replay(window, events), Replay(window, events + [Event(now, Some(reason))]);
            && NotSooner(before.cooldownEnd, after.cooldownEnd)
            && NotSooner(before.disabledUntil, after.disabledUntil)
            && (Available(after, t) ==> Available(before, t))
  {
    var all := events + [Event(now, Some(reason))];
    assert all[..|events|] == events;
    assert forall i :: 0 <= i < |events| ==> events[i] == all[i];
    assert events != [] ==> events[|events| - 1].at <= all[|events|].at;
    RunBounded(window, events);
    FailureKeepsBounds(window, Replay(window, events), reason, now);
  }

  /** With any shorter window it does: a fifth billing failure just behind the window undoes most of a day. */
  lemma {:induction false} ShorterWindowFails(window: int)
    requires 0 <= window < ENOUGH
    ensures var billing := Event(0, Some(Billing));
            var events := [billing, billing, billing, billing];
            var late := Event(window + 1, Some(Billing));
            && InOrder(events + [late])
            && !NotSooner(Replay(window, events).disabledUntil, Replay(window, events + [late]).disabledUntil)
  {
    var billing := Event(0, Some(Billing));
    var e1, e2, e3 := [billing], [billing, billing], [billing, billing, billing];
    var e4 := [billing, billing, billing, billing];
    var late := Event(window + 1, Some(Billing));
    assert e1[..0] == [] && e2[..1] == e1 && e3[..2] == e2 && e4[..3] == e3 && (e4 + [late])[..4] == e4;
    assert Replay(window, e1) == Failed(window, FRESH, Billing, 0);
    assert CountOf(Replay(window, e1).failureCounts, Billing) == 1;
    assert CountOf(Replay(window, e2).failureCounts, Billing) == 2;
    assert CountOf(Replay(window, e3).failureCounts, Billing) == 3;
    BillingTable(4);
    BillingTable(1);
  }

  // ------------------------------------------------------------------ what the counters mean

  /** The failures since the last success, back to the last gap longer than the window. */
  function Streak(window: int, events: seq<Event>): seq<Event> {
    if events == [] then []
    else
      var before, last := Streak(window, events[..|events| - 1]), events[|events| - 1];
      if last.failure.None? then []
      else if before != [] && last.at - before[|before| - 1].at > window then [last]
      else before + [last]
  }

  function Count(events: seq<Event>, reason: Reason): nat {
    if events == [] then 0
    else Count(events[..|events| - 1], reason) + if events[|events| - 1].failure == Some(reason) then 1 else 0
  }

  lemma {:induction false} CountSnoc(events: seq<Event>, last: Event, reason: Reason)
    ensures Count(events + [last], reason) == Count(events, reason) + if last.failure == Some(reason) then 1 else 0
  {
    assert (events + [last])[..|events|] == events;
  }

  predicate Matches(entry: Entry, streak: seq<Event>, reason: Reason) {
    && entry.errorCount == |streak| == Total(entry.failureCounts)
    && CountOf(entry.failureCounts, reason) == Count(streak, reason)
    && (streak != [] ==> entry.lastFailure == Some(streak[|streak| - 1].at))
  }

  lemma {:induction false} BumpCounts(counts: map<Reason, nat>, reason: Reason, other: Reason)
    ensures CountOf(Bump(counts, reason), other) == CountOf(counts, other) + if other == reason then 1 else 0
    ensures Total(Bump(counts, reason)) == Total(counts) + 1
  {
    var bumped := Bump(counts, reason);
    assert forall r :: r != reason ==> CountOf(bumped, r) == CountOf(counts, r);
    assert CountOf(bumped, reason) == CountOf(counts, reason) + 1;
  }

  lemma {:induction false} FailedCounts(window: int, entry: Entry, reason: Reason, now: int)
    ensures var recent, entry' := Expire(window, entry, now), Failed(window, entry, reason, now);
            && entry'.errorCount == recent.errorCount + 1
            && entry'.failureCounts == Bump(recent.failureCounts, reason)
            && entry'.lastFailure == Some(now)
  {
  }

  lemma {:induction false} FailureMatches(window: int, entry: Entry, streak: seq<Event>, event: Event, reason: Reason)
    requires Matches(entry, streak, reason) && event.failure.Some?
    ensures var recent := if streak != [] && event.at - streak[|streak| - 1].at > window then [] else streak;
            Matches(Failed(window, entry, event.failure.value, event.at), recent + [event], reason)
  {
    FailedCounts(window, entry, event.failure.value, event.at);
    BumpCounts(Expire(window, entry, event.at).failureCounts, event.failure.value, reason);
    CountSnoc(streak, event, reason);
    CountSnoc([], event, reason);
    assert streak == [] ==> Total(entry.failureCounts) == 0;
  }

  /** The counters count the current streak, in all and by reason; the total is the sum over the reasons. */
  lemma {:induction false} CountersMatchStreak(window: int, events: seq<Event>, reason: Reason)
    ensures Matches(Replay(window, events), Streak(window, events), reason)
  {
    if events != [] {
      var init, last := events[..|events| - 1], events[|events| - 1];
      CountersMatchStreak(window, init, reason);
      if last.failure.Some? {
        FailureMatches(window, Replay(window, init), Streak(window, init), last, reason);
      }
    }
  }

  // ------------------------------------------------------------------ the tracker

  function EntryOf(entries: map<string, Entry>, provider: string): Entry {
    if provider in entries then entries[provider] else FRESH
  }

  class CooldownTracker {
    const failureWindow: int
    var entries: map<string, Entry>

    constructor ()
      ensures entries == map[] && failureWindow == FAILURE_WINDOW
    {
      entries, failureWindow := map[], FAILURE_WINDOW;
    }

    method MarkFailure(provider: string, reason: Reason, now: int)
      modifies this
      ensures entries == old(entries)[provider := Failed(failureWindow, EntryOf(old(entries), provider), reason, now)]
    {
      var entry := CountFailure(EntryOf(entries, provider), reason, now);
      entries := entries[provider := entry];
    }

    method CountFailure(before: Entry, reason: Reason, now: int) returns (entry: Entry)
      ensures entry == Failed(failureWindow, before, reason, now)
    {
      entry := before;
      if entry.lastFailure.Some? && now - entry.lastFailure.value > failureWindow {
        entry := entry.(errorCount := 0, failureCounts := map[]);
      }
      entry := entry.(errorCount := entry.errorCount + 1, failureCounts := Bump(entry.failureCounts, reason),
                      lastFailure := Some(now));
      if reason == Billing {
        var billingCount := CountOf(entry.failureCounts, Billing);
        entry := entry.(disabledUntil := Some(now + BillingCooldown(billingCount)), disabledReason := Some(Billing));
      } else {
        entry := entry.(cooldownEnd := Some(now + StandardCooldown(entry.errorCount)));
      }
    }

    method MarkSuccess(provider: string)
      modifies this
      ensures entries == if provider in old(entries) then old(entries)[provider := Succeeded(old(entries)[provider])]
                         else old(entries)
    {
      if provider in entries {
        entries := entries[provider := Succeeded(entries[provider])];
      }
    }

    method IsAvailable(provider: string, now: int) returns (available: bool)
      ensures available == Available(EntryOf(entries, provider), now)
    {
      if provider !in entries {
        return true;
      }
      var entry := entries[provider];
      if entry.disabledUntil.Some? && now < entry.disabledUntil.value {
        return false;
      }
      if entry.cooldownEnd.Some? && now < entry.cooldownEnd.value {
        return false;
      }
      return true;
    }

    method UnavailabilityReason(provider: string, now: int) returns (reason: Option<Reason>)
      ensures reason.Some? <==> !Available(EntryOf(entries, provider), now)
      ensures reason == Unavailability(EntryOf(entries, provider), now)
    {
      if provider !in entries {
        return None;
      }
      var entry := entries[provider];
      if entry.disabledUntil.Some? && now < entry.disabledUntil.value {
        return if entry.disabledReason.Some? then entry.disabledReason else Some(Billing);
      }
      if entry.cooldownEnd.Some? && now < entry.cooldownEnd.value {
        return Some(RateLimit);
      }
      return None;
    }

    /** The least wait after which the provider is available. */
    method CooldownRemaining(provider: string, now: int) returns (remaining: int)
      ensures remaining >= 0
      ensures forall t :: now <= t ==> (Available(EntryOf(entries, provider), t) <==> now + remaining <= t)
    {
      remaining := 0;
      if provider in entries {
        var entry := entries[provider];
        if entry.disabledUntil.Some? && now < entry.disabledUntil.value {
          remaining := entry.disabledUntil.value - now;
        }
        if entry.cooldownEnd.Some? && now < entry.cooldownEnd.value {
          remaining := Max(remaining, entry.cooldownEnd.value - now);
        }
      }
    }
  }

  function Unavailability(entry: Entry, now: int): Option<Reason> {
    if Disabled(entry, now) then (if entry.disabledReason.Some? then entry.disabledReason else Some(Billing))
    else if Cooling(entry, now) then Some(RateLimit)
    else None
  }
}
