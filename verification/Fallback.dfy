/**
 The fallback chain (pkg/providers/fallback.go): candidates are asked in order, skipping those in
 cooldown, until one answers or fails in a way that asking another would not help.
 */
module Fallback {
  import opened Cooldown
  import opened Wrappers

  datatype Candidate = Candidate(provider: string, model: string)

  /** What the run function returned; cancelled says whether the context was cancelled by then. */
  datatype Outcome = Reply(response: string) | Fault(cancelled: bool, reason: Option<Reason>)

  /** What happens around one candidate: cancelled before, the clock at each reading, and the outcome. */
  datatype Turn = Turn(cancelled: bool, checkedAt: int, explainedAt: int, outcome: Outcome, failedAt: int)

  datatype Attempt = Attempt(candidate: Candidate, reason: Option<Reason>, skipped: bool)

  datatype End =
    | NoCandidates
    | Success(response: string, candidate: Candidate)
    | Cancelled
    | Unclassified(candidate: Candidate)
    | NonRetriable(reason: Reason)
    | Exhausted

  /** A call of the chain: the cooldowns at the start, the candidates and what will happen around each. */
  datatype Plan = Plan(window: int, start: map<string, Entry>, candidates: seq<Candidate>, turns: seq<Turn>)

  type Call = p: Plan | |p.candidates| == |p.turns| witness Plan(0, map[], [], [])

  predicate IsRetriable(reason: Reason) { reason != Format }

  // ------------------------------------------------------------------ the chain, candidate by candidate

  predicate Skipped(entries: map<string, Entry>, candidate: Candidate, turn: Turn) {
    !Available(EntryOf(entries, candidate.provider), turn.checkedAt)
  }

  /** The chain goes on behind this candidate. */
  predicate PassesOn(entries: map<string, Entry>, candidate: Candidate, turn: Turn) {
    && !turn.cancelled
    && (|| Skipped(entries, candidate, turn)
        || (turn.outcome.Fault? && !turn.outcome.cancelled
            && turn.outcome.reason.Some? && IsRetriable(turn.outcome.reason.value)))
  }

  /** The cooldowns behind a candidate that the chain passed. */
  function Behind(window: int, entries: map<string, Entry>, candidate: Candidate, turn: Turn): map<string, Entry>
    requires PassesOn(entries, candidate, turn)
  {
    if Skipped(entries, candidate, turn) then entries
    else
      var entry := EntryOf(entries, candidate.provider);
      entries[candidate.provider := Failed(window, entry, turn.outcome.reason.value, turn.failedAt)]
  }

  function PassedAttempt(entries: map<string, Entry>, candidate: Candidate, turn: Turn): Attempt
    requires PassesOn(entries, candidate, turn)
  {
    if Skipped(entries, candidate, turn) then
      var reason := Unavailability(EntryOf(entries, candidate.provider), turn.explainedAt);
      Attempt(candidate, if reason.Some? then reason else Some(RateLimit), true)
    else
      Attempt(candidate, turn.outcome.reason, false)
  }

  /** The chain has passed the first i candidates and stands before the next one. */
  datatype Progress = Progress(stopped: bool, entries: map<string, Entry>, attempts: seq<Attempt>, calls: seq<nat>)

  /** One candidate further. */
  function Pass(p: Call, s: Progress, i: nat): Progress
    requires i < |p.candidates|
  {
    Advance(p.window, s, p.candidates[i], p.turns[i], i)
  }

  function Advance(window: int, s: Progress, candidate: Candidate, turn: Turn, i: nat): Progress {
    if s.stopped || !PassesOn(s.entries, candidate, turn) then s.(stopped := true)
    else
      Progress(false, Behind(window, s.entries, candidate, turn),
               s.attempts + [PassedAttempt(s.entries, candidate, turn)],
               if Skipped(s.entries, candidate, turn) then s.calls else s.calls + [i])
  }

  /** Progress before candidate i, or where the chain stopped before it. */
  function Before(p: Call, i: nat): Progress
    requires i <= |p.candidates|
  {
    if i == 0 then Progress(false, p.start, [], [])
    else Pass(p, Before(p, i - 1), i - 1)
  }

  /** The candidate at which the chain stops, or their number when it passes them all. */
  ghost predicate StopsAt(p: Call, k: nat) {
    k <= |p.candidates| && !Before(p, k).stopped &&
    (k < |p.candidates| ==> !PassesOn(Before(p, k).entries, p.candidates[k], p.turns[k]))
  }

  /** What the chain leaves behind when it stops at candidate k. */
  datatype Result = Result(end: End, attempts: seq<Attempt>, calls: seq<nat>, entries: map<string, Entry>)

  function Finish(p: Call, k: nat): Result
    requires k <= |p.candidates|
  {
    var s := Before(p, k);
    if p.candidates == [] then Result(NoCandidates, [], [], p.start)
    else if k == |p.candidates| then Result(Exhausted, s.attempts, s.calls, s.entries)
    else
      var candidate, turn := p.candidates[k], p.turns[k];
      if turn.cancelled then Result(Cancelled, s.attempts, s.calls, s.entries)
      else
        match turn.outcome
        case Reply(response) =>
          Result(Success(response, candidate), s.attempts, s.calls + [k],
                 if candidate.provider in s.entries
                 then s.entries[candidate.provider := Succeeded(s.entries[candidate.provider])]
                 else s.entries)
        case Fault(cancelled, reason) =>
          Result(if cancelled then Cancelled
                 else if reason.None? then Unclassified(candidate)
                 else NonRetriable(reason.value),
                 s.attempts + [Attempt(candidate, if cancelled then None else reason, false)], s.calls + [k], s.entries)
  }

  lemma {:induction false} PassedOne(p: Call, i: nat, s: Progress)
    requires i < |p.candidates| && s == Before(p, i) && !s.stopped && PassesOn(s.entries, p.candidates[i], p.turns[i])
    ensures var candidate, turn := p.candidates[i], p.turns[i];
            Before(p, i + 1) ==
              Progress(false, Behind(p.window, s.entries, candidate, turn),
                       s.attempts + [PassedAttempt(s.entries, candidate, turn)],
                       if Skipped(s.entries, candidate, turn) then s.calls else s.calls + [i])
  {
  }

  class FallbackChain {
    const cooldown: CooldownTracker

    constructor (cooldown: CooldownTracker)
      ensures this.cooldown == cooldown
    {
      this.cooldown := cooldown;
    }

    method Execute(candidates: seq<Candidate>, turns: seq<Turn>)
      returns (end: End, attempts: seq<Attempt>, calls: seq<nat>, stop: nat)
      requires |candidates| == |turns|
      modifies cooldown
      ensures var p := Plan(cooldown.failureWindow, old(cooldown.entries), candidates, turns);
              && StopsAt(p, stop)
              && Result(end, attempts, calls, cooldown.entries) == Finish(p, stop)
    {
      ghost var p: Call := Plan(cooldown.failureWindow, cooldown.entries, candidates, turns);
      attempts, calls, stop := [], [], 0;
      if |candidates| == 0 {
        end := NoCandidates;
        return;
      }
      while stop < |candidates|
        invariant 0 <= stop <= |candidates|
        invariant Before(p, stop) == Progress(false, cooldown.entries, attempts, calls)
      {
        var candidate, turn := candidates[stop], turns[stop];
        if turn.cancelled {
          end := Cancelled;
          return;
        }
        ghost var here := Progress(false, cooldown.entries, attempts, calls);
        var available := cooldown.IsAvailable(candidate.provider, turn.checkedAt);
        if !available {
          var reason := cooldown.UnavailabilityReason(candidate.provider, turn.explainedAt);
          attempts := attempts + [Attempt(candidate, if reason.Some? then reason else Some(RateLimit), true)];
          PassedOne(p, stop, here);
          stop := stop + 1;
          continue;
        }
        calls := calls + [stop];
        var outcome := turn.outcome;
        if outcome.Reply? {
          cooldown.MarkSuccess(candidate.provider);
          end := Success(outcome.response, candidate);
          return;
        }
        if outcome.cancelled {
          attempts := attempts + [Attempt(candidate, None, false)];
          end := Cancelled;
          return;
        }
        if outcome.reason.None? {
          attempts := attempts + [Attempt(candidate, None, false)];
          end := Unclassified(candidate);
          return;
        }
        if !IsRetriable(outcome.reason.value) {
          attempts := attempts + [Attempt(candidate, outcome.reason, false)];
          end := NonRetriable(outcome.reason.value);
          return;
        }
        cooldown.MarkFailure(candidate.provider, outcome.reason.value, turn.failedAt);
        attempts := attempts + [Attempt(candidate, outcome.reason, false)];
        PassedOne(p, stop, here);
        stop := stop + 1;
      }
      end := Exhausted;
    }
  }

  // ------------------------------------------------------------------ what the chain guarantees

  /** How the chain gets from one candidate to the next. */
  lemma {:induction false} Advanced(p: Call, i: nat)
    requires i < |p.candidates| && !Before(p, i + 1).stopped
    ensures var s, s' := Before(p, i), Before(p, i + 1);
            var candidate, turn := p.candidates[i], p.turns[i];
            && !s.stopped && PassesOn(s.entries, candidate, turn)
            && s'.entries == Behind(p.window, s.entries, candidate, turn)
            && s'.attempts == s.attempts + [PassedAttempt(s.entries, candidate, turn)]
            && s'.calls == if Asked(p, i) then s.calls + [i] else s.calls
  {
  }

  /** A candidate behind which the chain went on was passed, and its attempt is in its place. */
  lemma {:induction false} PassedInOrder(p: Call, i: nat, j: nat)
    requires j < i <= |p.candidates| && !Before(p, i).stopped
    ensures |Before(p, i).attempts| == i && !Before(p, j).stopped
    ensures PassesOn(Before(p, j).entries, p.candidates[j], p.turns[j])
    ensures Before(p, i).attempts[j] == PassedAttempt(Before(p, j).entries, p.candidates[j], p.turns[j])
  {
    Advanced(p, i - 1);
    Attempts(p, i);
    Attempts(p, i - 1);
    if j < i - 1 {
      PassedInOrder(p, i - 1, j);
    }
  }

  lemma {:induction false} Attempts(p: Call, i: nat)
    requires i <= |p.candidates| && !Before(p, i).stopped
    ensures |Before(p, i).attempts| == i
  {
    if i > 0 {
      Advanced(p, i - 1);
      Attempts(p, i - 1);
    }
  }

  ghost predicate Asked(p: Call, j: nat)
    requires j < |p.candidates|
  {
    !Before(p, j).stopped && !p.turns[j].cancelled && !Skipped(Before(p, j).entries, p.candidates[j], p.turns[j])
  }

  /** What holds at a candidate and is kept by passing one holds until the chain stops. */
  lemma {:induction false} KeptUntil(p: Call, from: nat, n: nat, inv: (Progress, nat) -> bool)
    requires from <= n <= |p.candidates| && !Before(p, n).stopped && inv(Before(p, from), from)
    requires forall s: Progress, i: nat ::
               from <= i < n && inv(s, i) && !Pass(p, s, i).stopped ==> inv(Pass(p, s, i), i + 1)
    ensures inv(Before(p, n), n)
  {
    if from < n {
      KeptUntil(p, from, n - 1, inv);
    }
  }

  /** Before it stops, the chain has called exactly the candidates available at their check. */
  lemma {:induction false} CalledIff(p: Call, i: nat, j: nat)
    requires i <= |p.candidates| && !Before(p, i).stopped
    ensures j in Before(p, i).calls <==> j < i && Asked(p, j)
  {
    var asked := j < i && Asked(p, j);
    var inv := (s: Progress, k: nat) => k <= |p.candidates| && s == Before(p, k) && (j in s.calls <==> j < k && asked);
    forall s: Progress, k: nat | k < i && inv(s, k) && !Pass(p, s, k).stopped
      ensures inv(Pass(p, s, k), k + 1)
    {
      assert Before(p, k + 1) == Pass(p, s, k);
    }
    KeptUntil(p, 0, i, inv);
    assert inv(Before(p, i), i);
  }

  predicate Increasing(calls: seq<nat>, n: nat) {
    (forall c :: c in calls ==> c < n) && forall a, b :: 0 <= a < b < |calls| ==> calls[a] < calls[b]
  }

  lemma {:induction false} CallsIncrease(p: Call, i: nat)
    requires i <= |p.candidates| && !Before(p, i).stopped
    ensures Increasing(Before(p, i).calls, i)
  {
    var inv := (s: Progress, k: nat) => Increasing(s.calls, k);
    forall s: Progress, k: nat | k < i && inv(s, k)
      ensures inv(Pass(p, s, k), k + 1)
    {
      IncreasingSnoc(s.calls, k);
    }
    KeptUntil(p, 0, i, inv);
    assert inv(Before(p, i), i);
  }

  lemma {:induction false} IncreasingSnoc(calls: seq<nat>, i: nat)
    requires Increasing(calls, i)
    ensures Increasing(calls, i + 1) && Increasing(calls + [i], i + 1)
  {
    assert forall a :: 0 <= a < |calls| ==> calls[a] in calls;
  }

  /**
   Over the whole chain candidates are called in order, each at most once, and never one that is
   unavailable when it is checked.
   */
  lemma {:induction false} NeverAsksUnavailable(p: Call, k: nat)
    requires StopsAt(p, k)
    ensures Increasing(Finish(p, k).calls, |p.candidates|)
    ensures forall j :: j in Finish(p, k).calls ==> j < |p.candidates| && Asked(p, j)
  {
    CallsIncrease(p, k);
    IncreasingSnoc(Before(p, k).calls, k);
    forall j | j in Finish(p, k).calls ensures j < |p.candidates| && Asked(p, j) {
      CalledIff(p, k, j);
    }
  }

  /** There is exactly one place to stop. */
  lemma {:induction false} StopsOnce(p: Call, k: nat, l: nat)
    requires StopsAt(p, k) && StopsAt(p, l)
    ensures k == l
  {
    if k < l {
      PassedInOrder(p, l, k);
    } else if l < k {
      PassedInOrder(p, k, l);
    }
  }

  /** An attempt names its candidate, and is a skip with a reason or a failure worth another try. */
  ghost predicate AttemptFits(p: Call, j: nat, attempt: Attempt)
    requires j < |p.candidates|
  {
    && attempt.candidate == p.candidates[j] && attempt.reason.Some?
    && (attempt.skipped <==> Skipped(Before(p, j).entries, p.candidates[j], p.turns[j]))
    && (!attempt.skipped ==> IsRetriable(attempt.reason.value))
  }

  lemma {:induction false} AttemptsFit(p: Call, k: nat)
    requires k <= |p.candidates| && !Before(p, k).stopped
    ensures |Before(p, k).attempts| == k
    ensures forall j :: 0 <= j < k ==> AttemptFits(p, j, Before(p, k).attempts[j])
  {
    Attempts(p, k);
    forall j | 0 <= j < k ensures AttemptFits(p, j, Before(p, k).attempts[j]) {
      PassedInOrder(p, k, j);
    }
  }

  /**
   Success at candidate k: exactly k attempts, one for each candidate before, each skipped or failed
   retriably; the provider that answered is then available at once.
   */
  lemma {:induction false} SuccessMeans(p: Call, k: nat, t: int)
    requires StopsAt(p, k) && Finish(p, k).end.Success?
    ensures k < |p.candidates| && |Finish(p, k).attempts| == k && Finish(p, k).end.candidate == p.candidates[k]
    ensures forall j :: 0 <= j < k ==> AttemptFits(p, j, Finish(p, k).attempts[j])
    ensures k in Finish(p, k).calls && p.turns[k].outcome == Reply(Finish(p, k).end.response)
    ensures Available(EntryOf(Finish(p, k).entries, p.candidates[k].provider), t)
  {
    AttemptsFit(p, k);
  }

  /** The chain is exhausted exactly when it passes every candidate; then each has one attempt, in order. */
  lemma {:induction false} ExhaustedIff(p: Call, k: nat)
    requires StopsAt(p, k) && p.candidates != []
    ensures Finish(p, k).end.Exhausted? <==> k == |p.candidates|
    ensures Finish(p, k).end.Exhausted? ==>
              |Finish(p, k).attempts| == |p.candidates| &&
              forall j :: 0 <= j < |p.candidates| ==> AttemptFits(p, j, Finish(p, k).attempts[j])
  {
    AttemptsFit(p, k);
  }

  /** A format or unclassified error stops at once and leaves every cooldown as it was before that candidate. */
  lemma {:induction false} FatalStops(p: Call, k: nat)
    requires StopsAt(p, k) && (Finish(p, k).end.NonRetriable? || Finish(p, k).end.Unclassified?)
    ensures k < |p.candidates| && Finish(p, k).entries == Before(p, k).entries
    ensures |Finish(p, k).attempts| == k + 1 && Finish(p, k).attempts[k].candidate == p.candidates[k]
    ensures Finish(p, k).end.NonRetriable? ==> Finish(p, k).end.reason == Format
  {
    Attempts(p, k);
  }

  // ------------------------------------------------------------------ candidates of the same provider

  lemma {:induction false} FailurePutsOff(window: int, entry: Entry, reason: Reason, now: int)
    ensures PutOff(Failed(window, entry, reason, now), now + 59_999)
  {
    StandardTable(Expire(window, entry, now).errorCount + 1);
    BillingTable(CountOf(Bump(Expire(window, entry, now).failureCounts, Billing), Billing));
  }

  /** An entry unavailable up to a time does not change while its provider is only checked by then. */
  lemma {:induction false} StaysPutOff(p: Call, provider: string, i: nat, k: nat, entry: Entry, t: int)
    requires i <= k <= |p.candidates| && !Before(p, k).stopped
    requires EntryOf(Before(p, i).entries, provider) == entry && PutOff(entry, t)
    requires ChecksBy(p.turns, i, k, t)
    ensures EntryOf(Before(p, k).entries, provider) == entry
  {
    var inv := (s: Progress, m: nat) => EntryOf(s.entries, provider) == entry;
    forall s: Progress, m: nat | i <= m < k && inv(s, m) && !Pass(p, s, m).stopped
      ensures inv(Pass(p, s, m), m + 1)
    {
      BehindPutOff(p.window, s.entries, p.candidates[m], p.turns[m], provider, t);
    }
    KeptUntil(p, i, k, inv);
    assert inv(Before(p, k), k);
  }

  ghost predicate PutOff(entry: Entry, t: int) { forall u :: u <= t ==> !Available(entry, u) }

  ghost predicate ChecksBy(turns: seq<Turn>, i: nat, k: nat, t: int) {
    forall j :: i <= j < k && j < |turns| ==> turns[j].checkedAt <= t
  }

  lemma {:induction false} BehindPutOff(
      window: int, entries: map<string, Entry>, candidate: Candidate, turn: Turn, provider: string, t: int)
    requires PassesOn(entries, candidate, turn) && PutOff(EntryOf(entries, provider), t) && turn.checkedAt <= t
    ensures EntryOf(Behind(window, entries, candidate, turn), provider) == EntryOf(entries, provider)
  {
  }

  /**
   After a retriable failure every later candidate of the same provider that the chain reaches within
   a minute is skipped, not asked.
   */
  lemma {:induction false} SameProviderSkipped(p: Call, i: nat, k: nat)
    requires i < k < |p.candidates| && !Before(p, k).stopped && Asked(p, i)
    requires p.candidates[i].provider == p.candidates[k].provider
    requires ChecksBy(p.turns, i + 1, k + 1, p.turns[i].failedAt + 59_999)
    ensures Skipped(Before(p, k).entries, p.candidates[k], p.turns[k])
  {
    var provider, t := p.candidates[i].provider, p.turns[i].failedAt + 59_999;
    NotStopped(p, k, i + 1);
    var entry := AskedPutsOff(p, i, provider);
    StaysPutOff(p, provider, i + 1, k, entry, t);
    assert !Available(entry, p.turns[k].checkedAt);
  }

  /** The entry of a provider right behind its failure. */
  lemma {:induction false} AskedPutsOff(p: Call, i: nat, provider: string) returns (entry: Entry)
    requires i < |p.candidates| && !Before(p, i + 1).stopped && Asked(p, i) && provider == p.candidates[i].provider
    ensures EntryOf(Before(p, i + 1).entries, provider) == entry && PutOff(entry, p.turns[i].failedAt + 59_999)
  {
    Advanced(p, i);
    var before, turn := EntryOf(Before(p, i).entries, provider), p.turns[i];
    entry := Failed(p.window, before, turn.outcome.reason.value, turn.failedAt);
    FailurePutsOff(p.window, before, turn.outcome.reason.value, turn.failedAt);
  }

  lemma {:induction false} NotStopped(p: Call, k: nat, i: nat)
    requires i <= k <= |p.candidates| && !Before(p, k).stopped
    ensures !Before(p, i).stopped
  {
    if i < k {
      PassedInOrder(p, k, i);
    }
  }
}
