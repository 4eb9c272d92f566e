/**
 The inbound queue of the agent loop (pkg/agent/loop.go, Run): one dispatcher, one worker for each
 bucket key, a global semaphore, and a steering side channel.  The dispatcher and the workers are
 interleaved step by step; a step is one channel operation, one flag access, or one message taken
 from the bus.  Processing a message always ends, and nothing is cancelled.
 */
module InboundQueue {

  /** key is the bucket key; steer says that the content is a steering command. */
  datatype Msg = Msg(key: string, content: string, steer: bool)

  datatype Config = Config(maxConc: nat, buffer: nat)

  const STEER_BUFFER := 16

  predicate Proper(cfg: Config) { 1 <= cfg.maxConc && 1 <= cfg.buffer }

  /** Where the worker of a bucket is with the message it has taken. */
  datatype Phase =
    | Waiting
    | Draining(msg: Msg)
    | Drained(msg: Msg)
    | Acquiring(msg: Msg)
    | Processing(msg: Msg)
    | Deactivating

  /** What became of a steering message that was taken out of the side channel. */
  datatype Taken = Absorbed(msg: Msg) | Discarded(msg: Msg)

  /** processed and taken record the past. */
  datatype Bucket = Bucket(ch: seq<Msg>, steer: seq<Msg>, active: bool, phase: Phase,
                           processed: seq<Msg>, taken: seq<Taken>)

  const EMPTY := Bucket([], [], false, Waiting, [], [])

  /** What the dispatcher holds: a message that was routed, is being diverted, or is being queued. */
  datatype Dispatcher = Idle | Routed(msg: Msg) | Diverting(msg: Msg) | Sending(msg: Msg)

  /** arrived records what was taken from the bus, diverted which of it went to a side channel. */
  datatype State = State(input: seq<Msg>, disp: Dispatcher, buckets: map<string, Bucket>, sem: nat,
                         arrived: seq<Msg>, diverted: set<int>)

  function Init(input: seq<Msg>): State { State(input, Idle, map[], 0, [], {}) }

  // ------------------------------------------------------------------ the steps

  datatype Action =
    | Consume
    | CheckActive
    | Divert
    | SteerFull
    | Send
    | Receive(key: string)
    | Discard(key: string)
    | EndDrain(key: string)
    | Activate(key: string)
    | Acquire(key: string)
    | Absorb(key: string)
    | Finish(key: string)
    | Deactivate(key: string)

  predicate Enabled(cfg: Config, s: State, a: Action) {
    match a
    case Consume => s.disp.Idle? && s.input != []
    case CheckActive => s.disp.Routed? && s.disp.msg.key in s.buckets
    case Divert => s.disp.Diverting? && s.disp.msg.key in s.buckets && |s.buckets[s.disp.msg.key].steer| < STEER_BUFFER
    case SteerFull =>
      s.disp.Diverting? && s.disp.msg.key in s.buckets && |s.buckets[s.disp.msg.key].steer| >= STEER_BUFFER
    case Send => s.disp.Sending? && s.disp.msg.key in s.buckets && |s.buckets[s.disp.msg.key].ch| < cfg.buffer
    case Receive(k) => k in s.buckets && s.buckets[k].phase.Waiting? && s.buckets[k].ch != []
    case Discard(k) => k in s.buckets && s.buckets[k].phase.Draining? && s.buckets[k].steer != []
    case EndDrain(k) => k in s.buckets && s.buckets[k].phase.Draining? && s.buckets[k].steer == []
    case Activate(k) => k in s.buckets && s.buckets[k].phase.Drained?
    case Acquire(k) => k in s.buckets && s.buckets[k].phase.Acquiring? && s.sem < cfg.maxConc
    case Absorb(k) => k in s.buckets && s.buckets[k].phase.Processing? && s.buckets[k].steer != []
    case Finish(k) => k in s.buckets && s.buckets[k].phase.Processing? && 0 < s.sem
    case Deactivate(k) => k in s.buckets && s.buckets[k].phase.Deactivating?
  }

  function With(s: State, k: string, b: Bucket): State { s.(buckets := s.buckets[k := b]) }

  function StepDispatcher(cfg: Config, s: State, a: Action): State
    requires Enabled(cfg, s, a) && (a.Consume? || a.CheckActive? || a.Divert? || a.SteerFull? || a.Send?)
  {
    match a
    case Consume =>
      var msg := s.input[0];
      var buckets := if msg.key in s.buckets then s.buckets else s.buckets[msg.key := EMPTY];
      State(s.input[1..], Routed(msg), buckets, s.sem, s.arrived + [msg], s.diverted)
    case CheckActive =>
      s.(disp := if s.buckets[s.disp.msg.key].active && s.disp.msg.steer then Diverting(s.disp.msg)
                 else Sending(s.disp.msg))
    case Divert =>
      var b := s.buckets[s.disp.msg.key];
      With(s, s.disp.msg.key, b.(steer := b.steer + [s.disp.msg]))
        .(disp := Idle, diverted := s.diverted + {|s.arrived| - 1})
    case SteerFull => s.(disp := Sending(s.disp.msg))
    case Send =>
      var b := s.buckets[s.disp.msg.key];
      With(s, s.disp.msg.key, b.(ch := b.ch + [s.disp.msg])).(disp := Idle)
  }

  function StepWorker(cfg: Config, s: State, a: Action): State
    requires Enabled(cfg, s, a) && !(a.Consume? || a.CheckActive? || a.Divert? || a.SteerFull? || a.Send?)
  {
    var b := s.buckets[a.key];
    match a
    case Receive(k) => With(s, k, b.(ch := b.ch[1..], phase := Draining(b.ch[0])))
    case Discard(k) => With(s, k, b.(steer := b.steer[1..], taken := b.taken + [Discarded(b.steer[0])]))
    case EndDrain(k) => With(s, k, b.(phase := Drained(b.phase.msg)))
    case Activate(k) => With(s, k, b.(active := true, phase := Acquiring(b.phase.msg)))
    case Acquire(k) => With(s, k, b.(phase := Processing(b.phase.msg))).(sem := s.sem + 1)
    case Absorb(k) => With(s, k, b.(steer := b.steer[1..], taken := b.taken + [Absorbed(b.steer[0])]))
    case Finish(k) =>
      With(s, k, b.(phase := Deactivating, processed := b.processed + [b.phase.msg])).(sem := s.sem - 1)
    case Deactivate(k) => With(s, k, b.(active := false, phase := Waiting))
  }

  predicate ByDispatcher(a: Action) { a.Consume? || a.CheckActive? || a.Divert? || a.SteerFull? || a.Send? }

  function Step(cfg: Config, s: State, a: Action): State
    requires Enabled(cfg, s, a)
  {
    if ByDispatcher(a) then StepDispatcher(cfg, s, a) else StepWorker(cfg, s, a)
  }

  // ------------------------------------------------------------------ sums over buckets

  ghost function Sum(m: map<string, Bucket>, f: Bucket -> nat): nat
    decreases |m|
  {
    if m == map[] then 0
    else
      var k :| k in m;
      f(m[k]) + Sum(m - {k}, f)
  }

  lemma {:induction false} SumWithout(m: map<string, Bucket>, f: Bucket -> nat, k: string)
    requires k in m
    ensures Sum(m, f) == f(m[k]) + Sum(m - {k}, f)
    decreases |m|
  {
    var x :| x in m && Sum(m, f) == f(m[x]) + Sum(m - {x}, f);
    if x != k {
      SumWithout(m - {x}, f, k);
      SumWithout(m - {k}, f, x);
      assert m - {x} - {k} == m - {k} - {x};
    }
  }

  lemma {:induction false} SumWith(m: map<string, Bucket>, f: Bucket -> nat, k: string, b: Bucket)
    ensures Sum(m[k := b], f) + (if k in m then f(m[k]) else 0) == Sum(m, f) + f(b)
  {
    SumWithout(m[k := b], f, k);
    assert m[k := b] - {k} == m - {k};
    if k in m {
      SumWithout(m, f, k);
    } else {
      assert m - {k} == m;
    }
  }

  function Holds(b: Bucket): nat { if b.phase.Processing? then 1 else 0 }

  /** A bucket that holds the semaphore exists when it is not free. */
  lemma {:induction false} SomeHolder(m: map<string, Bucket>) returns (k: string)
    requires Sum(m, Holds) > 0
    ensures k in m && m[k].phase.Processing?
    decreases |m|
  {
    var x :| x in m && Sum(m, Holds) == Holds(m[x]) + Sum(m - {x}, Holds);
    if m[x].phase.Processing? {
      return x;
    }
    assert Holds(m[x]) == 0;
    k := SomeHolder(m - {x});
  }

  // ------------------------------------------------------------------ the invariant

  /** The arrivals for key k among the first n that were, or were not, diverted. */
  function Lane(arrived: seq<Msg>, diverted: set<int>, k: string, side: bool, n: nat): seq<Msg>
    requires n <= |arrived|
  {
    if n == 0 then []
    else Lane(arrived, diverted, k, side, n - 1)
         + if arrived[n - 1].key == k && ((n - 1) in diverted) == side then [arrived[n - 1]] else []
  }

  function InHand(b: Bucket): seq<Msg> {
    if b.phase.Waiting? || b.phase.Deactivating? then [] else [b.phase.msg]
  }

  /** What the dispatcher holds for key k. */
  function Held(s: State, k: string): seq<Msg> {
    if !s.disp.Idle? && s.disp.msg.key == k then [s.disp.msg] else []
  }

  function Known(s: State, k: string): Bucket { if k in s.buckets then s.buckets[k] else EMPTY }

  function TakenMsgs(taken: seq<Taken>): seq<Msg> {
    seq(|taken|, i requires 0 <= i < |taken| => taken[i].msg)
  }

  /** Nothing that came in for k is lost, duplicated or reordered. */
  ghost predicate InOrder(s: State, k: string) {
    var b := Known(s, k);
    && Lane(s.arrived, s.diverted, k, false, |s.arrived|) == b.processed + InHand(b) + b.ch + Held(s, k)
    && Lane(s.arrived, s.diverted, k, true, |s.arrived|) == TakenMsgs(b.taken) + b.steer
  }

  /** Bounds, flags and the message the dispatcher holds. */
  ghost predicate Coherent(cfg: Config, s: State) {
    && (forall k :: k in s.buckets ==>
          |s.buckets[k].ch| <= cfg.buffer && |s.buckets[k].steer| <= STEER_BUFFER
          && (s.buckets[k].active <==>
                s.buckets[k].phase.Acquiring? || s.buckets[k].phase.Processing? || s.buckets[k].phase.Deactivating?))
    && (!s.disp.Idle? ==> s.disp.msg.key in s.buckets && s.arrived != [] && s.arrived[|s.arrived| - 1] == s.disp.msg)
    && (!s.disp.Idle? ==> |s.arrived| - 1 !in s.diverted)
    && (forall i :: i in s.diverted ==> 0 <= i < |s.arrived|)
  }

  ghost predicate Inv(cfg: Config, s: State) {
    && Proper(cfg) && Coherent(cfg, s)
    && s.sem == Sum(s.buckets, Holds) <= cfg.maxConc
    && (forall k :: InOrder(s, k))
  }

  lemma {:induction false} InitInv(cfg: Config, input: seq<Msg>)
    requires Proper(cfg)
    ensures Inv(cfg, Init(input))
  {
  }

  lemma {:induction false} LaneSame(
      arrived: seq<Msg>, more: seq<Msg>, d: set<int>, e: set<int>, k: string, side: bool, n: nat)
    requires n <= |arrived| && forall i :: 0 <= i < n ==> (i in d <==> i in e)
    ensures Lane(arrived + more, e, k, side, n) == Lane(arrived, d, k, side, n)
  {
    if n > 0 {
      LaneSame(arrived, more, d, e, k, side, n - 1);
    }
  }

  /** One more arrival, not diverted. */
  lemma {:induction false} LaneSnoc(arrived: seq<Msg>, d: set<int>, msg: Msg, k: string, side: bool)
    requires |arrived| !in d
    ensures Lane(arrived + [msg], d, k, side, |arrived| + 1)
            == Lane(arrived, d, k, side, |arrived|) + if msg.key == k && !side then [msg] else []
  {
    LaneSame(arrived, [msg], d, d, k, side, |arrived|);
  }

  lemma {:induction false} ConsumeInOrder(cfg: Config, s: State, k: string)
    requires Inv(cfg, s) && Enabled(cfg, s, Consume)
    ensures InOrder(Step(cfg, s, Consume), k)
  {
    assert InOrder(s, k);
    var msg, s' := s.input[0], Step(cfg, s, Consume);
    assert |s.arrived| !in s.diverted;
    LaneSnoc(s.arrived, s.diverted, msg, k, false);
    LaneSnoc(s.arrived, s.diverted, msg, k, true);
    assert Known(s', k) == Known(s, k);
    assert Held(s, k) == [] && Held(s', k) == if msg.key == k then [msg] else [];
  }

  lemma {:induction false} SnocInjective(a: seq<Msg>, b: seq<Msg>, x: Msg)
    requires a + [x] == b + [x]
    ensures a == b
  {
    assert a == (a + [x])[..|a|] && b == (b + [x])[..|b|];
    assert |a + [x]| == |b + [x]|;
  }

  lemma {:induction false} DivertInOrder(cfg: Config, s: State, k: string)
    requires Inv(cfg, s) && Enabled(cfg, s, Divert)
    ensures InOrder(Step(cfg, s, Divert), k)
  {
    assert InOrder(s, k);
    var last := |s.arrived| - 1;
    var d := s.diverted + {last};
    assert s.arrived + [] == s.arrived;
    LaneSame(s.arrived, [], s.diverted, d, k, false, last);
    LaneSame(s.arrived, [], s.diverted, d, k, true, last);
    var b := Known(s, k);
    if s.disp.msg.key == k {
      SnocInjective(Lane(s.arrived, s.diverted, k, false, last), b.processed + InHand(b) + b.ch, s.disp.msg);
      assert TakenMsgs(b.taken) + (b.steer + [s.disp.msg]) == TakenMsgs(b.taken) + b.steer + [s.disp.msg];
    }
  }

  lemma {:induction false} OtherDispatcherInOrder(cfg: Config, s: State, a: Action, k: string)
    requires Inv(cfg, s) && Enabled(cfg, s, a) && (a.CheckActive? || a.SteerFull? || a.Send?)
    ensures InOrder(Step(cfg, s, a), k)
  {
    assert InOrder(s, k);
  }

  /** A worker's step moves messages along its own bucket and nothing else. */
  lemma {:induction false} WorkerMoves(cfg: Config, s: State, a: Action)
    requires Enabled(cfg, s, a) && !ByDispatcher(a)
    ensures var b, b', s' := s.buckets[a.key], Step(cfg, s, a).buckets[a.key], Step(cfg, s, a);
            && b'.processed + InHand(b') + b'.ch == b.processed + InHand(b) + b.ch
            && TakenMsgs(b'.taken) + b'.steer == TakenMsgs(b.taken) + b.steer
            && s'.buckets == s.buckets[a.key := b']
            && s'.arrived == s.arrived && s'.diverted == s.diverted && s'.disp == s.disp
  {
  }

  lemma {:induction false} WorkerInOrder(cfg: Config, s: State, a: Action, k: string)
    requires Inv(cfg, s) && Enabled(cfg, s, a) && !ByDispatcher(a)
    ensures InOrder(Step(cfg, s, a), k)
  {
    assert InOrder(s, k);
    WorkerMoves(cfg, s, a);
  }

  lemma {:induction false} StepSum(cfg: Config, s: State, a: Action)
    requires Inv(cfg, s) && Enabled(cfg, s, a)
    ensures Step(cfg, s, a).sem == Sum(Step(cfg, s, a).buckets, Holds) <= cfg.maxConc
  {
    var s' := Step(cfg, s, a);
    if a.Consume? {
      SumWith(s.buckets, Holds, s.input[0].key, EMPTY);
    } else {
      var k := if ByDispatcher(a) then s.disp.msg.key else a.key;
      SumWith(s.buckets, Holds, k, s'.buckets[k]);
      assert s'.buckets == s.buckets[k := s'.buckets[k]];
    }
  }

  lemma {:induction false} DispatcherCoherent(cfg: Config, s: State, a: Action)
    requires Proper(cfg) && Coherent(cfg, s) && Enabled(cfg, s, a) && ByDispatcher(a)
    ensures Coherent(cfg, Step(cfg, s, a))
  {
  }

  lemma {:induction false} WorkerCoherent(cfg: Config, s: State, a: Action)
    requires Proper(cfg) && Coherent(cfg, s) && Enabled(cfg, s, a) && !ByDispatcher(a)
    ensures Coherent(cfg, Step(cfg, s, a))
  {
  }

  lemma {:induction false} StepInOrder(cfg: Config, s: State, a: Action, k: string)
    requires Inv(cfg, s) && Enabled(cfg, s, a)
    ensures InOrder(Step(cfg, s, a), k)
  {
    if a.Consume? {
      ConsumeInOrder(cfg, s, k);
    } else if a.Divert? {
      DivertInOrder(cfg, s, k);
    } else if ByDispatcher(a) {
      OtherDispatcherInOrder(cfg, s, a, k);
    } else {
      WorkerInOrder(cfg, s, a, k);
    }
  }

  /** Every step keeps the invariant. */
  lemma {:induction false} StepInv(cfg: Config, s: State, a: Action)
    requires Inv(cfg, s) && Enabled(cfg, s, a)
    ensures Inv(cfg, Step(cfg, s, a))
  {
    StepSum(cfg, s, a);
    if ByDispatcher(a) {
      DispatcherCoherent(cfg, s, a);
    } else {
      WorkerCoherent(cfg, s, a);
    }
    forall k
      ensures InOrder(Step(cfg, s, a), k)
    {
      StepInOrder(cfg, s, a, k);
    }
  }

  // ------------------------------------------------------------------ progress

  predicate Resting(b: Bucket) { b.phase.Waiting? && b.ch == [] }

  /** Everything that came in has been dealt with. */
  ghost predicate Quiet(s: State) {
    s.input == [] && s.disp.Idle? && forall k :: k in s.buckets ==> Resting(s.buckets[k])
  }

  /** A worker that is not at rest can take a step, or waits for the semaphore and its holder can. */
  lemma {:induction false} WorkerCanStep(cfg: Config, s: State, k: string) returns (a: Action)
    requires Inv(cfg, s) && k in s.buckets && !Resting(s.buckets[k])
    ensures Enabled(cfg, s, a)
  {
    var b := s.buckets[k];
    match b.phase
    case Waiting => a := Receive(k);
    case Draining(_) => a := if b.steer == [] then EndDrain(k) else Discard(k);
    case Drained(_) => a := Activate(k);
    case Acquiring(_) =>
      if s.sem < cfg.maxConc {
        a := Acquire(k);
      } else {
        var holder := SomeHolder(s.buckets);
        a := Finish(holder);
      }
    case Processing(_) =>
      SumWithout(s.buckets, Holds, k);
      a := Finish(k);
    case Deactivating => a := Deactivate(k);
  }

  /** No deadlock: while anything is left to do some step is enabled, also with a full bucket queue. */
  lemma {:induction false} NoDeadlock(cfg: Config, s: State) returns (a: Action)
    requires Inv(cfg, s) && !Quiet(s)
    ensures Enabled(cfg, s, a)
  {
    if s.disp.Routed? {
      return CheckActive;
    }
    if s.disp.Diverting? {
      return if |s.buckets[s.disp.msg.key].steer| < STEER_BUFFER then Divert else SteerFull;
    }
    if s.disp.Sending? {
      var k := s.disp.msg.key;
      if |s.buckets[k].ch| < cfg.buffer {
        return Send;
      }
      a := WorkerCanStep(cfg, s, k);
      return;
    }
    if s.input != [] {
      return Consume;
    }
    var k :| k in s.buckets && !Resting(s.buckets[k]);
    a := WorkerCanStep(cfg, s, k);
  }

  function PhaseWork(p: Phase): nat {
    match p
    case Waiting => 0
    case Draining(_) => 6
    case Drained(_) => 5
    case Acquiring(_) => 4
    case Processing(_) => 3
    case Deactivating => 1
  }

  function Work(b: Bucket): nat { 8 * |b.ch| + |b.steer| + PhaseWork(b.phase) }

  function DispatcherWork(d: Dispatcher): nat {
    match d
    case Idle => 0
    case Routed(_) => 12
    case Diverting(_) => 11
    case Sending(_) => 10
  }

  /** The steps that are still to come, at most. */
  ghost function Left(s: State): nat {
    13 * |s.input| + DispatcherWork(s.disp) + Sum(s.buckets, Work)
  }

  /** Every step leaves less to do. */
  lemma {:induction false} StepProgress(cfg: Config, s: State, a: Action)
    requires Enabled(cfg, s, a)
    ensures Left(Step(cfg, s, a)) < Left(s)
  {
    var s' := Step(cfg, s, a);
    if a.Consume? {
      SumWith(s.buckets, Work, s.input[0].key, EMPTY);
    } else if a.CheckActive? || a.SteerFull? {
      assert s'.buckets == s.buckets;
    } else {
      var k := if ByDispatcher(a) then s.disp.msg.key else a.key;
      SumWith(s.buckets, Work, k, s'.buckets[k]);
      assert s'.buckets == s.buckets[k := s'.buckets[k]];
    }
  }

  // ------------------------------------------------------------------ every run

  ghost predicate IsRun(cfg: Config, run: seq<State>, steps: seq<Action>) {
    && |run| == |steps| + 1
    && forall i :: 0 <= i < |steps| ==> Enabled(cfg, run[i], steps[i]) && run[i + 1] == Step(cfg, run[i], steps[i])
  }

  lemma {:induction false} RunInv(cfg: Config, run: seq<State>, steps: seq<Action>, n: nat)
    requires IsRun(cfg, run, steps) && Inv(cfg, run[0]) && n <= |steps|
    ensures Inv(cfg, run[n]) && Left(run[n]) + n <= Left(run[0])
  {
    if n > 0 {
      RunInv(cfg, run, steps, n - 1);
      StepInv(cfg, run[n - 1], steps[n - 1]);
      StepProgress(cfg, run[n - 1], steps[n - 1]);
    }
  }

  /** What came from the bus and what is still on it make up the input. */
  lemma {:induction false} RunArrived(cfg: Config, input: seq<Msg>, run: seq<State>, steps: seq<Action>, n: nat)
    requires IsRun(cfg, run, steps) && run[0] == Init(input) && n <= |steps|
    ensures run[n].arrived + run[n].input == input
  {
    if n > 0 {
      RunArrived(cfg, input, run, steps, n - 1);
    }
  }

  lemma {:induction false} QuietProcessed(cfg: Config, s: State, k: string)
    requires Inv(cfg, s) && Quiet(s)
    ensures Known(s, k).processed == Lane(s.arrived, s.diverted, k, false, |s.arrived|)
  {
    assert InOrder(s, k);
    var b := Known(s, k);
    assert b.processed + InHand(b) + b.ch + Held(s, k) == b.processed;
  }

  /**
   Every interleaving on finite input is finite, keeps the bounds and the order at every moment,
   and can only stop when all of it has been processed, bucket by bucket in the order of arrival.
   */
  lemma {:induction false} EveryRunCompletes(cfg: Config, input: seq<Msg>, run: seq<State>, steps: seq<Action>)
    requires Proper(cfg) && IsRun(cfg, run, steps) && run[0] == Init(input)
    ensures |steps| <= 13 * |input|
    ensures forall i :: 0 <= i < |run| ==> Inv(cfg, run[i])
    ensures (forall a :: !Enabled(cfg, run[|steps|], a)) ==>
              var s := run[|steps|];
              && s.arrived == input && Quiet(s)
              && forall k :: Known(s, k).processed == Lane(input, s.diverted, k, false, |input|)
  {
    InitInv(cfg, input);
    RunArrived(cfg, input, run, steps, |steps|);
    forall i | 0 <= i < |run|
      ensures Inv(cfg, run[i])
    {
      RunInv(cfg, run, steps, i);
    }
    RunInv(cfg, run, steps, |steps|);
    var s := run[|steps|];
    if forall a :: !Enabled(cfg, s, a) {
      if !Quiet(s) {
        var a := NoDeadlock(cfg, s);
      }
      assert s.arrived + [] == s.arrived;
      forall k
        ensures Known(s, k).processed == Lane(s.arrived, s.diverted, k, false, |s.arrived|)
      {
        QuietProcessed(cfg, s, k);
      }
    }
  }
}
