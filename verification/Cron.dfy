/**
 The cron service (pkg/cron): jobs with a persisted copy, a loop that collects due jobs and runs
 them one after another, and restarts that repair what a crash left behind. Every step that the
 service takes under its lock is one event; crashes and calls from outside come in between.
 */
module Cron {
  import opened Text
  import opened Wrappers

  datatype Schedule = At(atMs: Option<int>) | Every(everyMs: Option<int>) | Expr(expr: string) | Unsupported

  datatype Status = Ok | Error | Aborted

  datatype Record = Record(runId: string, startedAt: int, finishedAt: int, duration: int, status: Status)

  datatype Job = Job(
    id: nat, schedule: Schedule, enabled: bool, deleteAfterRun: bool,
    nextRun: Option<int>, lastRun: Option<int>, lastStatus: Option<Status>,
    running: bool, since: Option<int>, runId: string, history: seq<Record>)

  /** The expression library: which expressions are valid and the next tick after a time. */
  datatype Ticks = Ticks(valid: string -> bool, next: (string, int) -> Option<int>)

  const HISTORY_LIMIT := 20

  // ------------------------------------------------------------------ one job

  function ComputeNextRun(ticks: Ticks, schedule: Schedule, now: int): Option<int> {
    match schedule
    case At(at) => if at.Some? && at.value > now then at else None
    case Every(every) => if every.None? || every.value <= 0 then None else Some(now + every.value)
    case Expr(expr) => if expr == "" then None else ticks.next(expr, now)
    case Unsupported => None
  }

  predicate Accepted(ticks: Ticks, schedule: Schedule, now: int) {
    match schedule
    case At(at) => at.Some? && at.value > now
    case Every(every) => every.Some? && every.value > 0
    case Expr(expr) => TrimSpace(expr) != "" && ticks.valid(TrimSpace(expr))
    case Unsupported => false
  }

  function Normal(schedule: Schedule): Schedule {
    if schedule.Expr? then Expr(TrimSpace(schedule.expr)) else schedule
  }

  function LastRuns(records: seq<Record>): seq<Record> {
    if |records| > HISTORY_LIMIT then records[|records| - HISTORY_LIMIT..] else records
  }

  function Elapsed(from: int, to: int): int { if to < from then 0 else to - from }

  function NewJob(ticks: Ticks, id: nat, schedule: Schedule, now: int): Job {
    Job(id, schedule, true, schedule.At?, ComputeNextRun(ticks, schedule, now), None, None, false, None, "", [])
  }

  function BeginRun(job: Job, runId: string, startedAt: int): Job {
    job.(running := true, since := Some(startedAt), runId := runId)
  }

  /** The end of a run in the state of its job. */
  function Close(job: Job, record: Record): Job {
    job.(running := false, since := None, runId := "", lastRun := Some(record.startedAt),
         lastStatus := Some(record.status), history := LastRuns(job.history + [record]))
  }

  function Finished(runId: string, startedAt: int, finishedAt: int, ok: bool): Record {
    Record(runId, startedAt, finishedAt, Elapsed(startedAt, finishedAt), if ok then Ok else Error)
  }

  /** The run that a restart closes; a blank run id or start is filled in. */
  function AbortedRun(job: Job, newId: string, now: int): Record {
    var startedAt := if job.since.Some? then job.since.value else now;
    Record(if TrimSpace(job.runId) == "" then newId else TrimSpace(job.runId), startedAt, now,
           Elapsed(startedAt, now), Aborted)
  }

  function ClearStale(job: Job, newId: string, now: int): Job {
    if job.running then Close(job, AbortedRun(job, newId, now)) else job
  }

  function Recompute(ticks: Ticks, job: Job, now: int): Job {
    if job.enabled then job.(nextRun := ComputeNextRun(ticks, job.schedule, now)) else job
  }

  function Repair(ticks: Ticks, job: Job, newId: string, now: int, later: int): Job {
    Recompute(ticks, ClearStale(job, newId, now), later)
  }

  function SetEnabled(ticks: Ticks, job: Job, enabled: bool, now: int): Job {
    job.(enabled := enabled, nextRun := if enabled then ComputeNextRun(ticks, job.schedule, now) else None)
  }

  /** What a finished run leaves of its job. */
  function AfterRun(ticks: Ticks, job: Job, finishedAt: int): Option<Job> {
    if job.schedule.At? then
      if job.deleteAfterRun then None else Some(job.(enabled := false, nextRun := None))
    else
      Some(job.(nextRun := if job.enabled then ComputeNextRun(ticks, job.schedule, finishedAt) else None))
  }

  function Clearing(newId: string, now: int): Job -> Job { job => ClearStale(job, newId, now) }

  function Recomputing(ticks: Ticks, now: int): Job -> Job { job => Recompute(ticks, job, now) }

  function Repairing(ticks: Ticks, newId: string, now: int, later: int): Job -> Job {
    job => Repair(ticks, job, newId, now, later)
  }

  function Collecting(due: seq<nat>): Job -> Job { (job: Job) => if job.id in due then job.(nextRun := None) else job }

  predicate Due(job: Job, now: int) {
    job.enabled && !job.running && job.nextRun.Some? && job.nextRun.value <= now
  }

  // ------------------------------------------------------------------ job lists

  function Find(jobs: seq<Job>, id: nat): Option<Job> {
    if jobs == [] then None else if jobs[0].id == id then Some(jobs[0]) else Find(jobs[1..], id)
  }

  function Replace(jobs: seq<Job>, id: nat, job: Job): seq<Job> {
    if jobs == [] then [] else if jobs[0].id == id then [job] + jobs[1..] else [jobs[0]] + Replace(jobs[1..], id, job)
  }

  function Without(jobs: seq<Job>, id: nat): seq<Job> {
    if jobs == [] then [] else (if jobs[0].id == id then [] else [jobs[0]]) + Without(jobs[1..], id)
  }

  function MapJobs(jobs: seq<Job>, f: Job -> Job): seq<Job> {
    if jobs == [] then [] else [f(jobs[0])] + MapJobs(jobs[1..], f)
  }

  function DueIds(jobs: seq<Job>, now: int): seq<nat> {
    if jobs == [] then [] else (if Due(jobs[0], now) then [jobs[0].id] else []) + DueIds(jobs[1..], now)
  }

  predicate Unique(jobs: seq<Job>) {
    jobs == [] || (Find(jobs[1..], jobs[0].id).None? && Unique(jobs[1..]))
  }

  predicate NoRepeats(ids: seq<nat>) { ids == [] || (ids[0] !in ids[1..] && NoRepeats(ids[1..])) }

  ghost predicate KeepsIds(f: Job -> Job) { forall job :: f(job).id == job.id }

  lemma {:induction false} FindReplace(jobs: seq<Job>, id: nat, job: Job, other: nat)
    requires job.id == id && Find(jobs, id).Some?
    ensures Find(Replace(jobs, id, job), other) == if other == id then Some(job) else Find(jobs, other)
    ensures Unique(jobs) ==> Unique(Replace(jobs, id, job))
  {
    if jobs[0].id == id {
      assert Replace(jobs, id, job)[1..] == jobs[1..];
    } else {
      FindReplace(jobs[1..], id, job, other);
      FindReplace(jobs[1..], id, job, jobs[0].id);
      assert Replace(jobs, id, job)[1..] == Replace(jobs[1..], id, job);
    }
  }

  lemma {:induction false} FindWithout(jobs: seq<Job>, id: nat, other: nat)
    ensures Find(Without(jobs, id), other) == if other == id then None else Find(jobs, other)
    ensures Unique(jobs) ==> Unique(Without(jobs, id))
  {
    if jobs != [] {
      FindWithout(jobs[1..], id, other);
      FindWithout(jobs[1..], id, jobs[0].id);
      if jobs[0].id != id {
        assert Without(jobs, id)[1..] == Without(jobs[1..], id);
      } else {
        assert Without(jobs, id) == Without(jobs[1..], id);
      }
    }
  }

  lemma {:induction false} FindMap(jobs: seq<Job>, f: Job -> Job, other: nat)
    requires KeepsIds(f)
    ensures Find(MapJobs(jobs, f), other) == if Find(jobs, other).Some? then Some(f(Find(jobs, other).value)) else None
    ensures Unique(jobs) ==> Unique(MapJobs(jobs, f))
  {
    if jobs != [] {
      FindMap(jobs[1..], f, other);
      FindMap(jobs[1..], f, jobs[0].id);
      assert MapJobs(jobs, f)[1..] == MapJobs(jobs[1..], f);
      assert f(jobs[0]).id == jobs[0].id;
    }
  }

  lemma {:induction false} FindAppend(jobs: seq<Job>, job: Job, other: nat)
    requires Find(jobs, job.id).None?
    ensures Find(jobs + [job], other) == if other == job.id then Some(job) else Find(jobs, other)
    ensures Unique(jobs) ==> Unique(jobs + [job])
  {
    if jobs == [] {
      assert jobs + [job] == [job];
    } else {
      assert (jobs + [job])[1..] == jobs[1..] + [job];
      FindAppend(jobs[1..], job, other);
      FindAppend(jobs[1..], job, jobs[0].id);
    }
  }

  lemma {:induction false} FindHasId(jobs: seq<Job>, id: nat)
    requires Find(jobs, id).Some?
    ensures Find(jobs, id).value.id == id
  {
    if jobs[0].id != id {
      FindHasId(jobs[1..], id);
    }
  }

  /** The due ids are exactly those of the due jobs, each once. */
  lemma {:induction false} DueIdsExact(jobs: seq<Job>, now: int, id: nat)
    requires Unique(jobs)
    ensures id in DueIds(jobs, now) <==> Find(jobs, id).Some? && Due(Find(jobs, id).value, now)
    ensures NoRepeats(DueIds(jobs, now))
  {
    if jobs != [] {
      DueIdsExact(jobs[1..], now, id);
      DueIdsExact(jobs[1..], now, jobs[0].id);
      var rest := DueIds(jobs[1..], now);
      if Due(jobs[0], now) {
        assert DueIds(jobs, now) == [jobs[0].id] + rest;
        assert ([jobs[0].id] + rest)[1..] == rest;
      } else {
        assert DueIds(jobs, now) == rest;
      }
    }
  }

  // ------------------------------------------------------------------ the service

  /** Where the loop is in the job it took from the due list. */
  datatype Loop =
    | Idle
    | Picked(id: nat, at: int)
    | Handling(id: nat, runId: string, startedAt: int, finishedAt: Option<int>)

  datatype RunStart = RunStart(runId: string, startedAt: int, begunAt: int)

  /** History kept for the proofs: every start and every closing record of a job, without limit. */
  datatype Book = Book(schedule: Schedule, starts: seq<RunStart>, records: seq<Record>)

  datatype State = State(
    jobs: seq<Job>, disk: seq<Job>, up: bool, due: seq<nat>, loop: Loop, now: int, books: map<nat, Book>)

  datatype Event =
    | Wait(to: int)
    | Crash
    | Start(newId: string, pause: nat)
    | Stop
    | Check
    | Pick
    | Begin(runId: string)
    | Return
    | Finish(ok: bool)
    | Add(id: nat, schedule: Schedule)
    | Remove(id: nat)
    | Enable(id: nat, enabled: bool)

  const INITIAL := State([], [], false, [], Idle, 0, map[])

  function Save(s: State, jobs: seq<Job>): State { s.(jobs := jobs, disk := jobs) }

  predicate Draining(s: State) { !s.loop.Idle? || s.due != [] }

  function AbortBook(book: Book, job: Option<Job>, newId: string, now: int): Book {
    if job.Some? && job.value.running then book.(records := book.records + [AbortedRun(job.value, newId, now)])
    else book
  }

  function RecordStart(s: State, id: nat, start: RunStart): map<nat, Book> {
    if id in s.books then s.books[id := s.books[id].(starts := s.books[id].starts + [start])] else s.books
  }

  function RecordEnd(s: State, id: nat, record: Record): map<nat, Book> {
    if id in s.books then s.books[id := s.books[id].(records := s.books[id].records + [record])] else s.books
  }

  function StartStep(ticks: Ticks, s: State, newId: string, pause: nat): State {
    var jobs := MapJobs(s.disk, Repairing(ticks, newId, s.now, s.now + pause));
    Save(s, jobs).(up := true, now := s.now + pause,
                   books := map id | id in s.books :: AbortBook(s.books[id], Find(s.disk, id), newId, s.now))
  }

  function CheckStep(s: State): State {
    var due := DueIds(s.jobs, s.now);
    if due == [] then s else Save(s, MapJobs(s.jobs, Collecting(due))).(due := due)
  }

  function BeginStep(s: State, runId: string): State
    requires s.loop.Picked?
  {
    var id, at := s.loop.id, s.loop.at;
    var job := Find(s.jobs, id);
    if job.None? || job.value.running then s.(loop := Idle)
    else Save(s, Replace(s.jobs, id, BeginRun(job.value, runId, at)))
         .(loop := Handling(id, runId, at, None), books := RecordStart(s, id, RunStart(runId, at, s.now)))
  }

  function FinishStep(ticks: Ticks, s: State, ok: bool): State
    requires s.loop.Handling? && s.loop.finishedAt.Some?
  {
    var id, end := s.loop.id, s.loop.finishedAt.value;
    var job := Find(s.jobs, id);
    if job.None? then s.(loop := Idle)
    else
      var record := Finished(s.loop.runId, s.loop.startedAt, end, ok);
      var closed := AfterRun(ticks, Close(job.value, record), end);
      Save(s, if closed.None? then Without(s.jobs, id) else Replace(s.jobs, id, closed.value))
      .(loop := Idle, books := RecordEnd(s, id, record))
  }

  function AddStep(s: State, job: Job): State {
    Save(s, s.jobs + [job]).(books := s.books[job.id := Book(job.schedule, [], [])])
  }

  function RemoveStep(s: State, id: nat): State {
    if Find(s.jobs, id).None? then s else Save(s, Without(s.jobs, id))
  }

  function EnableStep(ticks: Ticks, s: State, id: nat, enabled: bool): State {
    var job := Find(s.jobs, id);
    if job.None? then s else Save(s, Replace(s.jobs, id, SetEnabled(ticks, job.value, enabled, s.now)))
  }

  /** One step; an event that is not enabled leaves the state as it is. */
  function Step(ticks: Ticks, s: State, event: Event): State {
    match event
    case Wait(to) => if to > s.now then s.(now := to) else s
    case Crash => s.(jobs := s.disk, up := false, due := [], loop := Idle)
    case Start(newId, pause) => if s.up || Draining(s) then s else StartStep(ticks, s, newId, pause)
    case Stop => s.(up := false)
    case Check => if !s.up || Draining(s) then s else CheckStep(s)
    case Pick => if s.loop.Idle? && s.due != [] then s.(loop := Picked(s.due[0], s.now), due := s.due[1..]) else s
    case Begin(runId) => if s.loop.Picked? && TrimSpace(runId) == runId != "" then BeginStep(s, runId) else s
    case Return =>
      if s.loop.Handling? && s.loop.finishedAt.None? then s.(loop := s.loop.(finishedAt := Some(s.now))) else s
    case Finish(ok) => if s.loop.Handling? && s.loop.finishedAt.Some? then FinishStep(ticks, s, ok) else s
    case Add(id, schedule) =>
      if id in s.books || !Accepted(ticks, schedule, s.now) then s
      else AddStep(s, NewJob(ticks, id, Normal(schedule), s.now))
    case Remove(id) => RemoveStep(s, id)
    case Enable(id, enabled) => EnableStep(ticks, s, id, enabled)
  }

  function Run(ticks: Ticks, events: seq<Event>): State {
    if events == [] then INITIAL
    else Step(ticks, Run(ticks, events[..|events| - 1]), events[|events| - 1])
  }

  // ------------------------------------------------------------------ what one job sees

  /** The part of the state that concerns one job. */
  datatype View = View(job: Option<Job>, queued: bool, loop: Loop, up: bool, now: int, book: Book)

  function Project(s: State, id: nat): View
    requires id in s.books
  {
    View(Find(s.jobs, id), id in s.due, if !s.loop.Idle? && s.loop.id == id then s.loop else Idle, s.up, s.now,
         s.books[id])
  }

  predicate Waiting(v: View) { v.queued || v.loop.Picked? }

  function LastStart(book: Book): RunStart
    requires book.starts != []
  {
    book.starts[|book.starts| - 1]
  }

  /** Every start comes at least the period after the one before began. */
  ghost predicate Spaced(starts: seq<RunStart>, period: int) {
    && (forall i :: 0 <= i < |starts| ==> starts[i].startedAt <= starts[i].begunAt)
    && (forall i :: 0 < i < |starts| ==> starts[i].startedAt >= starts[i - 1].begunAt + period)
  }

  /** The records close the starts one by one, in order, under the same run id. */
  ghost predicate ClosedBy(starts: seq<RunStart>, records: seq<Record>) {
    |records| <= |starts| &&
    forall i :: 0 <= i < |records| ==>
      records[i].runId == starts[i].runId && records[i].startedAt == starts[i].startedAt
  }

  /** A schedule that always has a next run. */
  ghost predicate Recurring(ticks: Ticks, schedule: Schedule) {
    schedule.Every? || (schedule.Expr? && forall t :: ticks.next(schedule.expr, t).Some?)
  }

  /** What holds of the starts even after the job is gone. */
  ghost predicate SafeStarts(book: Book) {
    match book.schedule
    case At(_) => |book.starts| <= 1
    case Every(every) => every.Some? && every.value > 0 && Spaced(book.starts, every.value)
    case _ => true
  }

  /** The open run, its records and the stored history. */
  ghost predicate RunsClosed(v: View, job: Job) {
    && ClosedBy(v.book.starts, v.book.records)
    && job.history == LastRuns(v.book.records)
    && |v.book.starts| == |v.book.records| + (if job.running then 1 else 0)
    && (job.running ==>
          && job.since == Some(LastStart(v.book).startedAt)
          && job.runId == LastStart(v.book).runId
          && TrimSpace(job.runId) == job.runId != "")
  }

  ghost predicate LoopAgrees(v: View, job: Job) {
    && (job.running && v.up ==> v.loop.Handling?)
    && (Waiting(v) ==> !job.running)
    && !(v.queued && !v.loop.Idle?)
    && (v.loop.Handling? ==> job.running && job.runId == v.loop.runId && job.since == Some(v.loop.startedAt))
    && (v.loop.Handling? && v.loop.finishedAt.Some? && v.book.starts != [] ==>
          LastStart(v.book).begunAt <= v.loop.finishedAt.value)
    && (v.loop.Picked? ==> v.loop.at <= v.now)
    && (v.book.starts != [] ==> LastStart(v.book).begunAt <= v.now)
  }

  ghost predicate TimesAgree(v: View, job: Job) {
    match job.schedule
    case At(at) =>
      && at.Some?
      && (job.nextRun.Some? ==> job.nextRun == at)
      && (Waiting(v) || v.book.starts != [] ==> job.nextRun.None? && at.value <= v.now)
      && (Waiting(v) ==> v.book.starts == [])
    case Every(every) =>
      && every.Some? && every.value > 0
      && (v.book.starts != [] ==>
            var earliest := LastStart(v.book).begunAt + every.value;
            && (!job.running && job.nextRun.Some? ==> earliest <= job.nextRun.value)
            && (v.queued ==> earliest <= v.now)
            && (v.loop.Picked? ==> earliest <= v.loop.at))
    case Expr(expr) => expr != ""
    case Unsupported => false
  }

  ghost predicate NotStranded(ticks: Ticks, v: View, job: Job) {
    v.up && job.enabled && Recurring(ticks, job.schedule) ==> job.nextRun.Some? || job.running || Waiting(v)
  }

  ghost predicate ViewInv(ticks: Ticks, v: View) {
    && SafeStarts(v.book)
    && (v.job.Some? ==>
          var job := v.job.value;
          && job.schedule == v.book.schedule
          && (!job.enabled ==> job.nextRun.None?)
          && RunsClosed(v, job) && LoopAgrees(v, job) && TimesAgree(v, job) && NotStranded(ticks, v, job))
  }

  // ------------------------------------------------------------------ steps of one job

  lemma {:induction false} RecordKept(v: View, job: Job, record: Record)
    requires RunsClosed(v, job) && job.running
    requires record.runId == LastStart(v.book).runId && record.startedAt == LastStart(v.book).startedAt
    ensures var v' := v.(book := v.book.(records := v.book.records + [record]));
            RunsClosed(v', Close(job, record))
  {
  }

  lemma {:induction false} WaitKeeps(ticks: Ticks, v: View, now: int)
    requires ViewInv(ticks, v) && v.now <= now
    ensures ViewInv(ticks, v.(now := now))
  {
  }

  /** A crash forgets the due list and the handler. */
  lemma {:induction false} CrashKeeps(ticks: Ticks, v: View)
    requires ViewInv(ticks, v)
    ensures ViewInv(ticks, v.(up := false, queued := false, loop := Idle))
  {
  }

  lemma {:induction false} StopKeeps(ticks: Ticks, v: View)
    requires ViewInv(ticks, v)
    ensures ViewInv(ticks, v.(up := false))
  {
  }

  /** What one job sees of a restart. */
  function RepairView(ticks: Ticks, v: View, newId: string, pause: nat): View {
    var later := v.now + pause;
    View(if v.job.Some? then Some(Repair(ticks, v.job.value, newId, v.now, later)) else None,
         v.queued, v.loop, true, later, AbortBook(v.book, v.job, newId, v.now))
  }

  lemma {:induction false} StartKeeps(ticks: Ticks, v: View, newId: string, pause: nat)
    requires ViewInv(ticks, v) && !v.queued && v.loop.Idle?
    ensures ViewInv(ticks, RepairView(ticks, v, newId, pause))
  {
    if v.job.Some? && v.job.value.running {
      RecordKept(v, v.job.value, AbortedRun(v.job.value, newId, v.now));
    }
  }

  lemma {:induction false} QueueKeeps(ticks: Ticks, v: View, job: Job)
    requires ViewInv(ticks, v) && v.job == Some(job) && Due(job, v.now) && !v.queued && v.loop.Idle?
    ensures ViewInv(ticks, v.(job := Some(job.(nextRun := None)), queued := true))
  {
  }

  lemma {:induction false} PickKeeps(ticks: Ticks, v: View, id: nat)
    requires ViewInv(ticks, v) && v.queued
    ensures ViewInv(ticks, v.(queued := false, loop := Picked(id, v.now)))
  {
  }

  /** What one job sees of the start of its run. */
  function BeginView(v: View, runId: string): View
    requires v.loop.Picked?
  {
    if v.job.None? || v.job.value.running then v.(loop := Idle)
    else
      v.(job := Some(BeginRun(v.job.value, runId, v.loop.at)),
         loop := Handling(v.loop.id, runId, v.loop.at, None),
         book := v.book.(starts := v.book.starts + [RunStart(runId, v.loop.at, v.now)]))
  }

  function FinishView(ticks: Ticks, v: View, ok: bool): View
    requires v.loop.Handling? && v.loop.finishedAt.Some?
  {
    if v.job.None? then v.(loop := Idle)
    else
      var record := Finished(v.loop.runId, v.loop.startedAt, v.loop.finishedAt.value, ok);
      v.(job := AfterRun(ticks, Close(v.job.value, record), v.loop.finishedAt.value), loop := Idle,
         book := v.book.(records := v.book.records + [record]))
  }

  /** A run that begins is spaced from the one before and is the first of a one-time job. */
  lemma {:induction false} FreshRunKeeps(ticks: Ticks, v: View, job: Job, runId: string)
    requires ViewInv(ticks, v) && v.job == Some(job) && v.loop.Picked? && !job.running
    requires TrimSpace(runId) == runId != ""
    ensures ViewInv(ticks, v.(job := Some(BeginRun(job, runId, v.loop.at)),
                              loop := Handling(v.loop.id, runId, v.loop.at, None),
                              book := v.book.(starts := v.book.starts + [RunStart(runId, v.loop.at, v.now)])))
  {
  }

  lemma {:induction false} BeginKeeps(ticks: Ticks, v: View, runId: string)
    requires ViewInv(ticks, v) && v.loop.Picked? && TrimSpace(runId) == runId != ""
    ensures ViewInv(ticks, BeginView(v, runId))
  {
    if v.job.Some? && !v.job.value.running {
      FreshRunKeeps(ticks, v, v.job.value, runId);
    }
  }

  lemma {:induction false} ReturnKeeps(ticks: Ticks, v: View)
    requires ViewInv(ticks, v) && v.loop.Handling? && v.loop.finishedAt.None?
    ensures ViewInv(ticks, v.(loop := v.loop.(finishedAt := Some(v.now))))
  {
  }

  lemma {:induction false} FinishKeeps(ticks: Ticks, v: View, ok: bool)
    requires ViewInv(ticks, v) && v.loop.Handling? && v.loop.finishedAt.Some?
    ensures ViewInv(ticks, FinishView(ticks, v, ok))
  {
    if v.job.Some? {
      RecordKept(v, v.job.value, Finished(v.loop.runId, v.loop.startedAt, v.loop.finishedAt.value, ok));
    }
  }

  lemma {:induction false} EnableKeeps(ticks: Ticks, v: View, job: Job, enabled: bool)
    requires ViewInv(ticks, v) && v.job == Some(job)
    ensures ViewInv(ticks, v.(job := Some(SetEnabled(ticks, job, enabled, v.now))))
  {
  }

  lemma {:induction false} RemoveKeeps(ticks: Ticks, v: View)
    requires ViewInv(ticks, v)
    ensures ViewInv(ticks, v.(job := None))
  {
  }

  lemma {:induction false} AddKeeps(ticks: Ticks, id: nat, schedule: Schedule, up: bool, now: int)
    requires Accepted(ticks, schedule, now)
    ensures ViewInv(ticks, View(Some(NewJob(ticks, id, Normal(schedule), now)), false, Idle, up, now,
                                Book(Normal(schedule), [], [])))
  {
  }

  // ------------------------------------------------------------------ steps of the service

  predicate LoopOn(s: State, id: nat) { !s.loop.Idle? && s.loop.id == id }

  ghost predicate Shape(s: State) {
    s.disk == s.jobs && Unique(s.jobs) && NoRepeats(s.due) && (!s.loop.Idle? ==> s.loop.id !in s.due)
  }

  ghost predicate Known(s: State, id: nat) {
    Find(s.jobs, id).Some? || id in s.due || LoopOn(s, id) ==> id in s.books
  }

  ghost predicate JobInv(ticks: Ticks, s: State, id: nat) {
    Known(s, id) && (id in s.books ==> ViewInv(ticks, Project(s, id)))
  }

  ghost predicate Inv(ticks: Ticks, s: State) { Shape(s) && forall id :: JobInv(ticks, s, id) }

  lemma {:induction false} StartStepView(ticks: Ticks, s: State, newId: string, pause: nat, id: nat)
    requires Shape(s) && Known(s, id) && !Draining(s)
    ensures var s' := StartStep(ticks, s, newId, pause);
            && Shape(s') && Known(s', id)
            && (id in s'.books ==>
                  && id in s.books
                  && Project(s', id) == RepairView(ticks, Project(s, id), newId, pause))
  {
    FindMap(s.disk, Repairing(ticks, newId, s.now, s.now + pause), id);
  }

  lemma {:induction false} StartStepKeeps(ticks: Ticks, s: State, newId: string, pause: nat, id: nat)
    requires Shape(s) && JobInv(ticks, s, id) && !Draining(s)
    ensures var s' := StartStep(ticks, s, newId, pause);
            Shape(s') && JobInv(ticks, s', id)
  {
    StartStepView(ticks, s, newId, pause, id);
    if id in s.books {
      StartKeeps(ticks, Project(s, id), newId, pause);
    }
  }

  lemma {:induction false} CheckStepKeeps(ticks: Ticks, s: State, id: nat)
    requires Shape(s) && JobInv(ticks, s, id) && !Draining(s)
    ensures var s' := CheckStep(s);
            Shape(s') && JobInv(ticks, s', id)
  {
    var due := DueIds(s.jobs, s.now);
    DueIdsExact(s.jobs, s.now, id);
    FindMap(s.jobs, Collecting(due), id);
    if Find(s.jobs, id).Some? {
      FindHasId(s.jobs, id);
      var v := Project(s, id);
      if id in due {
        QueueKeeps(ticks, v, v.job.value);
      }
    }
  }

  lemma {:induction false} PickStepKeeps(ticks: Ticks, s: State, id: nat)
    requires Shape(s) && JobInv(ticks, s, id) && s.loop.Idle? && s.due != []
    ensures var s' := Step(ticks, s, Pick);
            Shape(s') && JobInv(ticks, s', id)
  {
    assert s.due == [s.due[0]] + s.due[1..];
    if id in s.books && id == s.due[0] {
      PickKeeps(ticks, Project(s, id), id);
    }
  }

  lemma {:induction false} BeginStepView(s: State, runId: string, id: nat)
    requires s.loop.Picked? && Shape(s) && Known(s, id) && Known(s, s.loop.id)
    ensures var s' := BeginStep(s, runId);
            && Shape(s') && Known(s', id)
            && (id in s'.books ==>
                  && id in s.books
                  && Project(s', id) == if id == s.loop.id then BeginView(Project(s, id), runId) else Project(s, id))
  {
    var mine := s.loop.id;
    var job := Find(s.jobs, mine);
    if job.Some? && !job.value.running {
      FindHasId(s.jobs, mine);
      FindReplace(s.jobs, mine, BeginRun(job.value, runId, s.loop.at), id);
    }
  }

  lemma {:induction false} BeginStepKeeps(ticks: Ticks, s: State, runId: string, id: nat)
    requires s.loop.Picked? && TrimSpace(runId) == runId != ""
    requires Shape(s) && JobInv(ticks, s, id) && Known(s, s.loop.id)
    ensures var s' := BeginStep(s, runId);
            Shape(s') && JobInv(ticks, s', id)
  {
    BeginStepView(s, runId, id);
    if id == s.loop.id {
      BeginKeeps(ticks, Project(s, id), runId);
    }
  }

  lemma {:induction false} FinishStepView(ticks: Ticks, s: State, ok: bool, id: nat)
    requires s.loop.Handling? && s.loop.finishedAt.Some? && Shape(s) && Known(s, id) && Known(s, s.loop.id)
    ensures var s' := FinishStep(ticks, s, ok);
            && Shape(s') && Known(s', id)
            && (id in s'.books ==>
                  && id in s.books
                  && Project(s', id) ==
                       if id == s.loop.id then FinishView(ticks, Project(s, id), ok) else Project(s, id))
  {
    var mine := s.loop.id;
    var job := Find(s.jobs, mine);
    if job.Some? {
      FindHasId(s.jobs, mine);
      var record := Finished(s.loop.runId, s.loop.startedAt, s.loop.finishedAt.value, ok);
      var closed := AfterRun(ticks, Close(job.value, record), s.loop.finishedAt.value);
      if closed.Some? {
        FindReplace(s.jobs, mine, closed.value, id);
      } else {
        FindWithout(s.jobs, mine, id);
      }
    }
  }

  lemma {:induction false} FinishStepKeeps(ticks: Ticks, s: State, ok: bool, id: nat)
    requires s.loop.Handling? && s.loop.finishedAt.Some?
    requires Shape(s) && JobInv(ticks, s, id) && Known(s, s.loop.id)
    ensures var s' := FinishStep(ticks, s, ok);
            Shape(s') && JobInv(ticks, s', id)
  {
    FinishStepView(ticks, s, ok, id);
    if id == s.loop.id {
      FinishKeeps(ticks, Project(s, id), ok);
    }
  }

  lemma {:induction false} AddStepView(s: State, job: Job, id: nat)
    requires Shape(s) && Known(s, job.id) && Known(s, id) && job.id !in s.books
    ensures var s' := AddStep(s, job);
            && Shape(s') && Known(s', id)
            && (id in s'.books ==>
                  && (id != job.id ==> id in s.books)
                  && Project(s', id) ==
                       if id == job.id then View(Some(job), false, Idle, s.up, s.now, Book(job.schedule, [], []))
                       else Project(s, id))
  {
    FindAppend(s.jobs, job, id);
  }

  lemma {:induction false} AddStepKeeps(ticks: Ticks, s: State, newId: nat, schedule: Schedule, id: nat)
    requires Shape(s) && JobInv(ticks, s, id) && Known(s, newId)
    ensures var s' := Step(ticks, s, Add(newId, schedule));
            Shape(s') && JobInv(ticks, s', id)
  {
    if newId !in s.books && Accepted(ticks, schedule, s.now) {
      AddStepView(s, NewJob(ticks, newId, Normal(schedule), s.now), id);
      AddKeeps(ticks, newId, schedule, s.up, s.now);
    }
  }

  lemma {:induction false} RemoveStepKeeps(ticks: Ticks, s: State, gone: nat, id: nat)
    requires Shape(s) && JobInv(ticks, s, id)
    ensures var s' := Step(ticks, s, Remove(gone));
            Shape(s') && JobInv(ticks, s', id)
  {
    FindWithout(s.jobs, gone, id);
    if id == gone && id in s.books {
      RemoveKeeps(ticks, Project(s, id));
    }
  }

  lemma {:induction false} EnableStepView(ticks: Ticks, s: State, target: nat, enabled: bool, id: nat)
    requires Shape(s) && Known(s, id)
    ensures var s' := EnableStep(ticks, s, target, enabled);
            && Shape(s') && Known(s', id) && s'.books == s.books
            && (id in s.books ==>
                  && var v := Project(s, id);
                     Project(s', id) ==
                       if id == target && v.job.Some?
                       then v.(job := Some(SetEnabled(ticks, v.job.value, enabled, v.now)))
                       else v)
  {
    var job := Find(s.jobs, target);
    if job.Some? {
      FindHasId(s.jobs, target);
      FindReplace(s.jobs, target, SetEnabled(ticks, job.value, enabled, s.now), id);
    }
  }

  lemma {:induction false} EnableStepKeeps(ticks: Ticks, s: State, target: nat, enabled: bool, id: nat)
    requires Shape(s) && JobInv(ticks, s, id)
    ensures var s' := EnableStep(ticks, s, target, enabled);
            Shape(s') && JobInv(ticks, s', id)
  {
    EnableStepView(ticks, s, target, enabled, id);
    if id == target && Find(s.jobs, id).Some? {
      EnableKeeps(ticks, Project(s, id), Find(s.jobs, id).value, enabled);
    }
  }

  lemma {:induction false} ClockStepKeeps(ticks: Ticks, s: State, to: int, id: nat)
    requires Shape(s) && JobInv(ticks, s, id) && s.now <= to
    ensures var s' := s.(now := to);
            Shape(s') && JobInv(ticks, s', id)
  {
    if id in s.books {
      WaitKeeps(ticks, Project(s, id), to);
    }
  }

  lemma {:induction false} DownStepKeeps(ticks: Ticks, s: State, event: Event, id: nat)
    requires Shape(s) && JobInv(ticks, s, id) && (event.Crash? || event.Stop?)
    ensures var s' := Step(ticks, s, event);
            Shape(s') && JobInv(ticks, s', id)
  {
    if id in s.books {
      CrashKeeps(ticks, Project(s, id));
      StopKeeps(ticks, Project(s, id));
    }
  }

  lemma {:induction false} ReturnStepKeeps(ticks: Ticks, s: State, id: nat)
    requires s.loop.Handling? && s.loop.finishedAt.None?
    requires Shape(s) && JobInv(ticks, s, id)
    ensures var s' := s.(loop := s.loop.(finishedAt := Some(s.now)));
            Shape(s') && JobInv(ticks, s', id)
  {
    if id in s.books && s.loop.id == id {
      ReturnKeeps(ticks, Project(s, id));
    }
  }

  lemma {:induction false} StepInv(ticks: Ticks, s: State, event: Event)
    requires Inv(ticks, s)
    ensures Inv(ticks, Step(ticks, s, event))
  {
    var s' := Step(ticks, s, event);
    forall id ensures Shape(s') && JobInv(ticks, s', id) {
      assert JobInv(ticks, s, id);
      match event
      case Wait(to) =>
        if to > s.now {
          ClockStepKeeps(ticks, s, to, id);
        }
      case Crash => DownStepKeeps(ticks, s, event, id);
      case Stop => DownStepKeeps(ticks, s, event, id);
      case Return =>
        if s.loop.Handling? && s.loop.finishedAt.None? {
          ReturnStepKeeps(ticks, s, id);
        }
      case Start(newId, pause) =>
        if !s.up && !Draining(s) {
          StartStepKeeps(ticks, s, newId, pause, id);
        }
      case Check =>
        if s.up && !Draining(s) {
          CheckStepKeeps(ticks, s, id);
        }
      case Pick =>
        if s.loop.Idle? && s.due != [] {
          PickStepKeeps(ticks, s, id);
        }
      case Begin(runId) =>
        if s.loop.Picked? && TrimSpace(runId) == runId != "" {
          assert JobInv(ticks, s, s.loop.id);
          BeginStepKeeps(ticks, s, runId, id);
        }
      case Finish(ok) =>
        if s.loop.Handling? && s.loop.finishedAt.Some? {
          assert JobInv(ticks, s, s.loop.id);
          FinishStepKeeps(ticks, s, ok, id);
        }
      case Add(newId, schedule) =>
        assert JobInv(ticks, s, newId);
        AddStepKeeps(ticks, s, newId, schedule, id);
      case Remove(gone) => RemoveStepKeeps(ticks, s, gone, id);
      case Enable(target, enabled) => EnableStepKeeps(ticks, s, target, enabled, id);
    }
    assert JobInv(ticks, s', 0);
  }

  // ------------------------------------------------------------------ every run

  lemma {:induction false} RunInv(ticks: Ticks, events: seq<Event>)
    ensures Inv(ticks, Run(ticks, events))
  {
    if events != [] {
      RunInv(ticks, events[..|events| - 1]);
      StepInv(ticks, Run(ticks, events[..|events| - 1]), events[|events| - 1]);
    }
  }

  /** The handler of a one-time job starts at most once, whatever starts, crashes or toggles come between. */
  lemma {:induction false} AtRunsOnce(ticks: Ticks, events: seq<Event>, id: nat)
    requires var s := Run(ticks, events);
             id in s.books && s.books[id].schedule.At?
    ensures |Run(ticks, events).books[id].starts| <= 1
  {
    RunInv(ticks, events);
    assert JobInv(ticks, Run(ticks, events), id);
  }

  lemma {:induction false} SpacedPairs(starts: seq<RunStart>, period: int, i: nat, j: nat)
    requires Spaced(starts, period) && period > 0 && i < j < |starts|
    ensures starts[j].startedAt >= starts[i].begunAt + period
    decreases j
  {
    if i < j - 1 {
      SpacedPairs(starts, period, i, j - 1);
    }
  }

  /** Of two runs of a periodic job the later starts at least the period after the earlier began. */
  lemma {:induction false} EveryIsSpaced(ticks: Ticks, events: seq<Event>, id: nat, i: nat, j: nat)
    requires var s := Run(ticks, events);
             id in s.books && s.books[id].schedule.Every? && i < j < |s.books[id].starts|
    ensures var book := Run(ticks, events).books[id];
            && book.schedule.everyMs.Some?
            && book.starts[j].startedAt >= book.starts[i].begunAt + book.schedule.everyMs.value
  {
    RunInv(ticks, events);
    assert JobInv(ticks, Run(ticks, events), id);
    var book := Run(ticks, events).books[id];
    SpacedPairs(book.starts, book.schedule.everyMs.value, i, j);
  }

  /** While the service is up, an enabled recurring job has a next run, runs, or is about to. */
  lemma {:induction false} NeverStranded(ticks: Ticks, events: seq<Event>, id: nat)
    requires var s := Run(ticks, events);
             && s.up && Find(s.jobs, id).Some?
             && Find(s.jobs, id).value.enabled && Recurring(ticks, Find(s.jobs, id).value.schedule)
    ensures var s := Run(ticks, events);
            Find(s.jobs, id).value.nextRun.Some? || id in s.due || LoopOn(s, id)
  {
    RunInv(ticks, events);
    assert JobInv(ticks, Run(ticks, events), id);
  }

  /**
   Every run that began of a job still present is closed by exactly one record under its run id, in
   order, except the one that is running; the stored history is the last 20 of all records.
   */
  lemma {:induction false} RunsAreClosed(ticks: Ticks, events: seq<Event>, id: nat)
    requires Find(Run(ticks, events).jobs, id).Some?
    ensures var s := Run(ticks, events);
            var job := Find(s.jobs, id).value;
            && id in s.books
            && ClosedBy(s.books[id].starts, s.books[id].records)
            && |s.books[id].starts| == |s.books[id].records| + (if job.running then 1 else 0)
            && job.history == LastRuns(s.books[id].records)
            && (job.running ==> job.runId == LastStart(s.books[id]).runId)
            && (job.running && s.up ==> s.loop.Handling? && s.loop.id == id)
  {
    RunInv(ticks, events);
    assert JobInv(ticks, Run(ticks, events), id);
  }

  /** What is on disk is what is in memory after every step, so a crash loses no job state. */
  lemma {:induction false} DiskIsCurrent(ticks: Ticks, events: seq<Event>)
    ensures Run(ticks, events).disk == Run(ticks, events).jobs
  {
    RunInv(ticks, events);
  }

  // ------------------------------------------------------------------ which runs are lost

  function Continue(ticks: Ticks, s: State, events: seq<Event>): State
    decreases |events|
  {
    if events == [] then s else Continue(ticks, Step(ticks, s, events[0]), events[1..])
  }

  lemma {:induction false} ContinueRun(ticks: Ticks, events: seq<Event>, more: seq<Event>)
    ensures Run(ticks, events + more) == Continue(ticks, Run(ticks, events), more)
    decreases |more|
  {
    if more == [] {
      assert events + more == events;
    } else {
      var one := events + [more[0]];
      assert one[..|events|] == events;
      assert one + more[1..] == events + more;
      ContinueRun(ticks, one, more[1..]);
    }
  }

  /** The job starts once more while these events happen. */
  predicate Starts(ticks: Ticks, s: State, id: nat, more: seq<Event>) {
    id in s.books && var s' := Continue(ticks, s, more);
    id in s'.books && |s'.books[id].starts| > |s.books[id].starts|
  }

  ghost predicate CanStart(ticks: Ticks, s: State, id: nat) { exists more :: Starts(ticks, s, id, more) }

  ghost predicate CanStartDisabled(ticks: Ticks, s: State, id: nat) {
    exists more :: Enable(id, true) !in more && Starts(ticks, s, id, more)
  }

  /** A one-time schedule whose time is not ahead. */
  predicate Passed(schedule: Schedule, now: int) { schedule.At? && (schedule.atMs.None? || schedule.atMs.value <= now) }

  /** Nothing short of enabling the job while its schedule has a next run makes it start. */
  predicate Barred(v: View) {
    !Waiting(v) &&
    (v.job.Some? ==> v.job.value.nextRun.None? && (!v.job.value.enabled || Passed(v.book.schedule, v.now)))
  }

  /** The job is still barred and has not started. */
  predicate StaysBarred(s: State, s': State, id: nat) {
    && id in s.books && id in s'.books
    && s'.books[id].schedule == s.books[id].schedule && s'.books[id].starts == s.books[id].starts
    && s.now <= s'.now && Barred(Project(s', id))
  }

  lemma {:induction false} BarredStart(ticks: Ticks, s: State, newId: string, pause: nat, id: nat)
    requires Shape(s) && JobInv(ticks, s, id) && id in s.books && Barred(Project(s, id)) && !Draining(s)
    ensures StaysBarred(s, StartStep(ticks, s, newId, pause), id)
  {
    StartStepView(ticks, s, newId, pause, id);
  }

  lemma {:induction false} BarredCheck(ticks: Ticks, s: State, id: nat)
    requires Shape(s) && JobInv(ticks, s, id) && id in s.books && Barred(Project(s, id)) && !Draining(s)
    ensures StaysBarred(s, CheckStep(s), id)
  {
    DueIdsExact(s.jobs, s.now, id);
    FindMap(s.jobs, Collecting(DueIds(s.jobs, s.now)), id);
  }

  lemma {:induction false} BarredBegin(ticks: Ticks, s: State, runId: string, id: nat)
    requires Inv(ticks, s) && id in s.books && Barred(Project(s, id)) && s.loop.Picked?
    ensures StaysBarred(s, BeginStep(s, runId), id)
  {
    assert JobInv(ticks, s, id) && JobInv(ticks, s, s.loop.id);
    assert s.loop.id != id;
    BeginStepView(s, runId, id);
  }

  lemma {:induction false} BarredFinish(ticks: Ticks, s: State, ok: bool, id: nat)
    requires Inv(ticks, s) && id in s.books && Barred(Project(s, id)) && s.loop.Handling? && s.loop.finishedAt.Some?
    ensures StaysBarred(s, FinishStep(ticks, s, ok), id)
  {
    assert JobInv(ticks, s, id) && JobInv(ticks, s, s.loop.id);
    FinishStepView(ticks, s, ok, id);
  }

  lemma {:induction false} BarredPick(ticks: Ticks, s: State, id: nat)
    requires id in s.books && Barred(Project(s, id)) && s.loop.Idle? && s.due != []
    ensures StaysBarred(s, Step(ticks, s, Pick), id)
  {
    assert s.due == [s.due[0]] + s.due[1..];
  }

  lemma {:induction false} BarredCall(ticks: Ticks, s: State, event: Event, id: nat)
    requires Inv(ticks, s) && id in s.books && Barred(Project(s, id))
    requires event.Add? || event.Remove? || event.Enable?
    requires event == Enable(id, true) ==> Passed(s.books[id].schedule, s.now)
    ensures StaysBarred(s, Step(ticks, s, event), id)
  {
    assert JobInv(ticks, s, id);
    match event
    case Add(newId, schedule) =>
      assert JobInv(ticks, s, newId);
      if newId !in s.books && Accepted(ticks, schedule, s.now) {
        AddStepView(s, NewJob(ticks, newId, Normal(schedule), s.now), id);
      }
    case Remove(gone) => FindWithout(s.jobs, gone, id);
    case Enable(target, enabled) => EnableStepView(ticks, s, target, enabled, id);
  }

  lemma {:induction false} BarredStep(ticks: Ticks, s: State, event: Event, id: nat)
    requires Inv(ticks, s) && id in s.books && Barred(Project(s, id))
    requires event == Enable(id, true) ==> Passed(s.books[id].schedule, s.now)
    ensures StaysBarred(s, Step(ticks, s, event), id)
  {
    assert JobInv(ticks, s, id);
    match event
    case Start(newId, pause) =>
      if !s.up && !Draining(s) {
        BarredStart(ticks, s, newId, pause, id);
      }
    case Check =>
      if s.up && !Draining(s) {
        BarredCheck(ticks, s, id);
      }
    case Wait(_) =>
    case Crash =>
    case Stop =>
    case Return =>
    case Pick =>
      if s.loop.Idle? && s.due != [] {
        BarredPick(ticks, s, id);
      }
    case Begin(runId) =>
      if s.loop.Picked? && TrimSpace(runId) == runId != "" {
        BarredBegin(ticks, s, runId, id);
      }
    case Finish(ok) =>
      if s.loop.Handling? && s.loop.finishedAt.Some? {
        BarredFinish(ticks, s, ok, id);
      }
    case Add(_, _) => BarredCall(ticks, s, event, id);
    case Remove(_) => BarredCall(ticks, s, event, id);
    case Enable(_, _) => BarredCall(ticks, s, event, id);
  }

  lemma {:induction false} BarredNeverStarts(ticks: Ticks, s: State, id: nat, more: seq<Event>)
    requires Inv(ticks, s) && id in s.books && Barred(Project(s, id))
    requires Enable(id, true) in more ==> Passed(s.books[id].schedule, s.now)
    ensures !Starts(ticks, s, id, more)
    decreases |more|
  {
    if more != [] {
      var s' := Step(ticks, s, more[0]);
      BarredStep(ticks, s, more[0], id);
      StepInv(ticks, s, more[0]);
      BarredNeverStarts(ticks, s', id, more[1..]);
    }
  }

  /** The event that brings the loop on. */
  function Next(s: State, runId: string): Event {
    match s.loop
    case Idle => Pick
    case Picked(_, _) => Begin(runId)
    case Handling(_, _, _, finishedAt) => if finishedAt.None? then Return else Finish(true)
  }

  /** How far the loop is from taking the next job of the list. */
  function Left(loop: Loop): nat {
    match loop
    case Idle => 0
    case Picked(_, _) => 3
    case Handling(_, _, _, finishedAt) => if finishedAt.None? then 2 else 1
  }

  predicate Sooner(s: State, s': State) { |s'.due| < |s.due| || (s'.due == s.due && Left(s'.loop) < Left(s.loop)) }

  /** The job of an id waits for the loop. */
  predicate Awaits(s: State, id: nat) { id in s.books && Find(s.jobs, id).Some? && Waiting(Project(s, id)) }

  lemma {:induction false} WaitingBegins(ticks: Ticks, s: State, runId: string, id: nat)
    requires Inv(ticks, s) && Awaits(s, id) && s.loop.Picked? && TrimSpace(runId) == runId != ""
    ensures var s' := BeginStep(s, runId);
            id in s'.books &&
            if s.loop.id == id then |s'.books[id].starts| > |s.books[id].starts|
            else Awaits(s', id) && s'.books[id].starts == s.books[id].starts && Sooner(s, s')
  {
    assert JobInv(ticks, s, id) && JobInv(ticks, s, s.loop.id);
    BeginStepView(s, runId, id);
  }

  lemma {:induction false} WaitingFinishes(ticks: Ticks, s: State, ok: bool, id: nat)
    requires Inv(ticks, s) && Awaits(s, id) && s.loop.Handling? && s.loop.finishedAt.Some?
    ensures var s' := FinishStep(ticks, s, ok);
            id in s'.books && Awaits(s', id) && s'.books[id].starts == s.books[id].starts && Sooner(s, s')
  {
    assert JobInv(ticks, s, id) && JobInv(ticks, s, s.loop.id);
    FinishStepView(ticks, s, ok, id);
  }

  lemma {:induction false} WaitingReturns(ticks: Ticks, s: State, id: nat)
    requires Awaits(s, id) && s.loop.Handling? && s.loop.finishedAt.None?
    ensures var s' := Step(ticks, s, Return);
            id in s'.books && Awaits(s', id) && s'.books[id].starts == s.books[id].starts && Sooner(s, s')
  {
  }

  lemma {:induction false} WaitingPicked(ticks: Ticks, s: State, id: nat)
    requires Awaits(s, id) && s.loop.Idle?
    ensures var s' := Step(ticks, s, Pick);
            id in s'.books && Awaits(s', id) && s'.books[id].starts == s.books[id].starts && Sooner(s, s')
  {
    assert s.due == [s.due[0]] + s.due[1..];
  }

  /** The loop comes nearer to a waiting job, or starts it. */
  lemma {:induction false} WaitingStep(ticks: Ticks, s: State, runId: string, id: nat)
    requires Inv(ticks, s) && Awaits(s, id) && TrimSpace(runId) == runId != ""
    ensures var s' := Step(ticks, s, Next(s, runId));
            id in s'.books &&
            if s.loop.Picked? && s.loop.id == id then |s'.books[id].starts| > |s.books[id].starts|
            else Awaits(s', id) && s'.books[id].starts == s.books[id].starts && Sooner(s, s')
  {
    match s.loop
    case Picked(_, _) => WaitingBegins(ticks, s, runId, id);
    case Handling(_, _, _, finishedAt) =>
      if finishedAt.Some? {
        WaitingFinishes(ticks, s, true, id);
      } else {
        WaitingReturns(ticks, s, id);
      }
    case Idle => WaitingPicked(ticks, s, id);
  }

  /** A waiting job starts when nothing but the loop goes on. */
  lemma {:induction false} WaitingStarts(ticks: Ticks, s: State, runId: string, id: nat) returns (more: seq<Event>)
    requires Inv(ticks, s) && Awaits(s, id) && TrimSpace(runId) == runId != ""
    ensures Starts(ticks, s, id, more) && Enable(id, true) !in more
    decreases |s.due|, Left(s.loop)
  {
    var event := Next(s, runId);
    var s' := Step(ticks, s, event);
    WaitingStep(ticks, s, runId, id);
    var rest: seq<Event> := [];
    if !(s.loop.Picked? && s.loop.id == id) {
      StepInv(ticks, s, event);
      rest := WaitingStarts(ticks, s', runId, id);
    }
    more := [event] + rest;
    assert more[1..] == rest;
  }

  lemma {:induction false} SomeRunId()
    ensures TrimSpace("r") == "r" != ""
  {
  }

  /**
   Disabling stops every later start of a job except one: a job disabled can start before it is
   enabled again exactly when the loop had already collected it.
   */
  lemma {:induction false} DisabledStartsIff(ticks: Ticks, events: seq<Event>, id: nat)
    requires Find(Run(ticks, events).jobs, id).Some?
    ensures var s := Run(ticks, events);
            id in s.books &&
            (CanStartDisabled(ticks, Step(ticks, s, Enable(id, false)), id) <==> Waiting(Project(s, id)))
  {
    var s := Run(ticks, events);
    var s' := Step(ticks, s, Enable(id, false));
    RunInv(ticks, events);
    assert JobInv(ticks, s, id);
    EnableStepView(ticks, s, id, false, id);
    StepInv(ticks, s, Enable(id, false));
    if Waiting(Project(s, id)) {
      SomeRunId();
      var more := WaitingStarts(ticks, s', "r", id);
    } else {
      forall more | Enable(id, true) !in more ensures !Starts(ticks, s', id, more) {
        BarredNeverStarts(ticks, s', id, more);
      }
    }
  }

  /** A restart plans a one-time job that has not run exactly when it is enabled and its time lies ahead. */
  lemma {:induction false} RestartPlansIff(ticks: Ticks, events: seq<Event>, id: nat, newId: string, pause: nat)
    requires var s := Run(ticks, events);
             && !s.up && !Draining(s)
             && id in s.books && s.books[id].schedule.At? && s.books[id].starts == [] && Find(s.jobs, id).Some?
    ensures var s := Run(ticks, events);
            var s' := Step(ticks, s, Start(newId, pause));
            var job, at := Find(s.jobs, id).value, s.books[id].schedule.atMs;
            && at.Some?
            && id in s'.books && s'.books[id] == s.books[id]
            && Find(s'.jobs, id) == Some(job.(nextRun := if job.enabled && at.value > s.now + pause then at else None))
  {
    var s := Run(ticks, events);
    RunInv(ticks, events);
    assert JobInv(ticks, s, id);
    StartStepView(ticks, s, newId, pause, id);
  }

  /** Enabling a job whose time lies ahead plans it. */
  lemma {:induction false} AheadPlanned(ticks: Ticks, s: State, id: nat, at: int)
    requires Inv(ticks, s) && id in s.books && s.books[id].schedule == At(Some(at)) && at > s.now
    requires Find(s.jobs, id).Some? && !Find(s.jobs, id).value.running
    ensures var s' := EnableStep(ticks, s, id, true);
            && s'.books == s.books && Find(s'.jobs, id).Some? && Due(Find(s'.jobs, id).value, at)
            && s'.up == s.up && s'.now == s.now && s'.loop == s.loop && s'.due == s.due
  {
    assert JobInv(ticks, s, id);
    EnableStepView(ticks, s, id, true, id);
  }

  lemma {:induction false} DueAwaits(ticks: Ticks, s: State, id: nat)
    requires Inv(ticks, s) && s.up && !Draining(s) && Find(s.jobs, id).Some? && Due(Find(s.jobs, id).value, s.now)
    ensures var s' := Step(ticks, s, Check);
            s'.books == s.books && Awaits(s', id)
  {
    assert JobInv(ticks, s, id);
    FindHasId(s.jobs, id);
    DueIdsExact(s.jobs, s.now, id);
    FindMap(s.jobs, Collecting(DueIds(s.jobs, s.now)), id);
  }

  /** Enabling a job whose time lies ahead and waiting for that time makes it start. */
  lemma {:induction false} AheadStarts(ticks: Ticks, s: State, id: nat, at: int) returns (more: seq<Event>)
    requires Inv(ticks, s) && s.up && !Draining(s)
    requires id in s.books && s.books[id].schedule == At(Some(at)) && at > s.now
    requires Find(s.jobs, id).Some? && !Find(s.jobs, id).value.running
    ensures Starts(ticks, s, id, more)
  {
    var s1 := Step(ticks, s, Enable(id, true));
    var s2 := Step(ticks, s1, Wait(at));
    var s3 := Step(ticks, s2, Check);
    StepInv(ticks, s, Enable(id, true));
    StepInv(ticks, s1, Wait(at));
    StepInv(ticks, s2, Check);
    AheadPlanned(ticks, s, id, at);
    DueAwaits(ticks, s2, id);
    SomeRunId();
    var rest := WaitingStarts(ticks, s3, "r", id);
    more := StartsAfter(ticks, s2, id, Check, rest);
    more := StartsAfter(ticks, s1, id, Wait(at), more);
    more := StartsAfter(ticks, s, id, Enable(id, true), more);
  }

  lemma {:induction false} StartsAfter(
      ticks: Ticks, s: State, id: nat, event: Event, rest: seq<Event>) returns (more: seq<Event>)
    requires var s' := Step(ticks, s, event);
             id in s.books && id in s'.books && s'.books[id] == s.books[id] && Starts(ticks, s', id, rest)
    ensures Starts(ticks, s, id, more)
  {
    more := [event] + rest;
    assert more[1..] == rest;
  }

  /**
   After a restart a one-time job that has not run can still start exactly when its time lies ahead.
   A job that came due before the restart is lost for good: collected or not, after a crash or a stop,
   and also when its time passed while the process was down. Enabling it again does not help.
   */
  lemma {:induction false} RestartKeepsRunIff(ticks: Ticks, events: seq<Event>, id: nat, newId: string, pause: nat)
    requires var s := Run(ticks, events);
             && !s.up && !Draining(s)
             && id in s.books && s.books[id].schedule.At? && s.books[id].starts == [] && Find(s.jobs, id).Some?
    ensures var s := Run(ticks, events);
            var s' := Step(ticks, s, Start(newId, pause));
            s.books[id].schedule.atMs.Some? && (CanStart(ticks, s', id) <==> s.books[id].schedule.atMs.value > s'.now)
  {
    var s := Run(ticks, events);
    var s' := Step(ticks, s, Start(newId, pause));
    RunInv(ticks, events);
    assert JobInv(ticks, s, id);
    RestartPlansIff(ticks, events, id, newId, pause);
    StepInv(ticks, s, Start(newId, pause));
    var at := s.books[id].schedule.atMs.value;
    if at > s'.now {
      var more := AheadStarts(ticks, s', id, at);
    } else {
      forall more ensures !Starts(ticks, s', id, more) {
        BarredNeverStarts(ticks, s', id, more);
      }
    }
  }

  // ------------------------------------------------------------------ runs that show both losses

  /** One job, added before the service starts, with its next run at 5. */
  function Planned(ticks: Ticks, schedule: Schedule): State {
    var jobs := [NewJob(ticks, 0, schedule, 0)];
    State(jobs, jobs, true, [], Idle, 0, map[0 := Book(schedule, [], [])])
  }

  lemma {:induction false} PlannedSteps(ticks: Ticks, schedule: Schedule)
    requires schedule == At(Some(5)) || schedule == Every(Some(5))
    ensures Step(ticks, Step(ticks, INITIAL, Add(0, schedule)), Start("x", 0)) == Planned(ticks, schedule)
  {
    var jobs := [NewJob(ticks, 0, schedule, 0)];
    assert [] + jobs == jobs;
    var added := State(jobs, jobs, false, [], Idle, 0, map[0 := Book(schedule, [], [])]);
    assert Step(ticks, INITIAL, Add(0, schedule)) == added;
    assert MapJobs(jobs[1..], Repairing(ticks, "x", 0, 0)) == [];
    assert (map id | id in added.books :: AbortBook(added.books[id], Find(jobs, id), "x", 0)) == added.books;
  }

  lemma {:induction false} ContinueTwo(ticks: Ticks, s: State, first: Event, second: Event, rest: seq<Event>)
    ensures Continue(ticks, s, [first, second] + rest) ==
            Continue(ticks, Step(ticks, Step(ticks, s, first), second), rest)
  {
    assert ([first, second] + rest)[1..] == [second] + rest && ([second] + rest)[1..] == rest;
  }

  lemma {:induction false} PlannedRun(ticks: Ticks, schedule: Schedule, more: seq<Event>)
    requires schedule == At(Some(5)) || schedule == Every(Some(5))
    ensures Run(ticks, [Add(0, schedule), Start("x", 0)] + more) == Continue(ticks, Planned(ticks, schedule), more)
  {
    PlannedSteps(ticks, schedule);
    ContinueTwo(ticks, INITIAL, Add(0, schedule), Start("x", 0), more);
    var events := [Add(0, schedule), Start("x", 0)] + more;
    ContinueRun(ticks, [], events);
    assert [] + events == events;
  }

  /** The ways in which a one-time job due at 5 misses its run. */
  function Interruptions(): set<seq<Event>> {
    {[Wait(5), Crash], [Wait(5), Check, Crash], [Wait(5), Stop], [Crash, Wait(5)]}
  }

  /** What a restart finds of the one-time job. */
  lemma {:induction false} Interrupted(ticks: Ticks, between: seq<Event>)
    requires between in Interruptions()
    ensures var s := Continue(ticks, Planned(ticks, At(Some(5))), between);
            && !s.up && !Draining(s) && s.now == 5 && Find(s.jobs, 0).Some?
            && s.books == map[0 := Book(At(Some(5)), [], [])]
  {
    var s := Planned(ticks, At(Some(5)));
    assert [Crash, Wait(5)][1..] == [Wait(5)] && [Wait(5), Check, Crash][1..] == [Check, Crash];
    assert Continue(ticks, s, between) == Continue(ticks, Step(ticks, s, between[0]), between[1..]);
    FindMap(s.jobs, Collecting(DueIds(s.jobs, 5)), 0);
  }

  lemma {:induction false} OneTimeRunLost(ticks: Ticks, between: seq<Event>)
    requires between in Interruptions()
    ensures var s := Run(ticks, [Add(0, At(Some(5))), Start("x", 0)] + between + [Start("y", 0)]);
            Find(s.jobs, 0).Some? && 0 in s.books && s.books[0].starts == [] && !CanStart(ticks, s, 0)
  {
    var events := [Add(0, At(Some(5))), Start("x", 0)] + between;
    PlannedRun(ticks, At(Some(5)), between);
    Interrupted(ticks, between);
    assert (events + [Start("y", 0)])[..|events|] == events;
    RestartPlansIff(ticks, events, 0, "y", 0);
    RestartKeepsRunIff(ticks, events, 0, "y", 0);
  }

  /** The recurring job, collected at 5 and disabled after that. */
  function Disabled(ticks: Ticks): State {
    var jobs := [NewJob(ticks, 0, Every(Some(5)), 0).(enabled := false, nextRun := None)];
    State(jobs, jobs, true, [0], Idle, 5, map[0 := Book(Every(Some(5)), [], [])])
  }

  lemma {:induction false} CollectedThenDisabled(ticks: Ticks)
    ensures var s := Planned(ticks, Every(Some(5)));
            Step(ticks, Step(ticks, Step(ticks, s, Wait(5)), Check), Enable(0, false)) == Disabled(ticks)
  {
    var s := Planned(ticks, Every(Some(5))).(now := 5);
    var job := s.jobs[0];
    assert DueIds(s.jobs[1..], 5) == [] && MapJobs(s.jobs[1..], Collecting([0])) == [];
    assert DueIds(s.jobs, 5) == [0];
    assert MapJobs(s.jobs, Collecting([0])) == [Collecting([0])(job)];
    assert CheckStep(s) == Save(s, [job.(nextRun := None)]).(due := [0]);
  }

  lemma {:induction false} DisabledBegins(ticks: Ticks, runId: string)
    requires TrimSpace(runId) == runId != ""
    ensures var s := Step(ticks, Step(ticks, Disabled(ticks), Pick), Begin(runId));
            0 in s.books && s.books[0].starts == [RunStart(runId, 5, 5)]
  {
    var s := Step(ticks, Disabled(ticks), Pick);
    assert s == Disabled(ticks).(loop := Picked(0, 5), due := []);
    assert Find(s.jobs, 0) == Some(s.jobs[0]);
    assert Step(ticks, s, Begin(runId)).books == RecordStart(s, 0, RunStart(runId, 5, 5));
  }

  /** A recurring job disabled after it was collected runs all the same. */
  lemma {:induction false} DisabledRuns(ticks: Ticks)
    ensures var s := Run(ticks, [Add(0, Every(Some(5))), Start("x", 0), Wait(5), Check, Enable(0, false),
                                 Pick, Begin("r")]);
            0 in s.books && |s.books[0].starts| == 1
  {
    var s := Planned(ticks, Every(Some(5)));
    SomeRunId();
    CollectedThenDisabled(ticks);
    DisabledBegins(ticks, "r");
    ContinueTwo(ticks, Disabled(ticks), Pick, Begin("r"), []);
    ContinueTwo(ticks, Step(ticks, s, Wait(5)), Check, Enable(0, false), [Pick, Begin("r")]);
    var rest := [Check, Enable(0, false)] + [Pick, Begin("r")];
    var more := [Wait(5)] + rest;
    assert more[1..] == rest && [Pick, Begin("r")] + [] == [Pick, Begin("r")];
    PlannedRun(ticks, Every(Some(5)), more);
    assert [Add(0, Every(Some(5))), Start("x", 0)] + more ==
           [Add(0, Every(Some(5))), Start("x", 0), Wait(5), Check, Enable(0, false), Pick, Begin("r")];
  }

  // ------------------------------------------------------------------ the service as a class

  /** The service object; the file it saves to outlives a crash. */
  class CronService {
    const ticks: Ticks
    var jobs: seq<Job>
    var file: seq<Job>
    var running: bool
    var due: seq<nat>
    var loop: Loop
    var clock: int
    ghost var books: map<nat, Book>

    ghost function Snapshot(): State
      reads this
    {
      State(jobs, file, running, due, loop, clock, books)
    }

    constructor (ticks: Ticks)
      ensures this.ticks == ticks && Snapshot() == INITIAL
    {
      this.ticks := ticks;
      jobs, file, running, due, loop, clock := [], [], false, [], Idle, 0;
      books := map[];
    }

    method SaveStore()
      modifies this`file
      ensures file == jobs
    {
      file := jobs;
    }

    method ClearStaleRunningStates(newId: string)
      modifies this`jobs
      ensures jobs == MapJobs(old(jobs), Clearing(newId, clock))
    {
      ghost var f := Clearing(newId, clock);
      ghost var before := jobs;
      var i := 0;
      while i < |jobs|
        invariant 0 <= i <= |jobs| && Halfway(before, f, i, jobs)
      {
        HalfwayStep(before, f, i, jobs);
        if jobs[i].running {
          jobs := jobs[i := Close(jobs[i], AbortedRun(jobs[i], newId, clock))];
        }
        i := i + 1;
      }
      assert before[..i] == before;
    }

    method RecomputeNextRuns()
      modifies this`jobs
      ensures jobs == MapJobs(old(jobs), Recomputing(ticks, clock))
    {
      ghost var f := Recomputing(ticks, clock);
      ghost var before := jobs;
      var i := 0;
      while i < |jobs|
        invariant 0 <= i <= |jobs| && Halfway(before, f, i, jobs)
      {
        HalfwayStep(before, f, i, jobs);
        if jobs[i].enabled {
          jobs := jobs[i := jobs[i].(nextRun := ComputeNextRun(ticks, jobs[i].schedule, clock))];
        }
        i := i + 1;
      }
      assert before[..i] == before;
    }

    /** A fresh process loads the file; the loop, its due list and the handler are gone. */
    method CrashAndLoad()
      modifies this
      ensures Snapshot() == Step(ticks, old(Snapshot()), Crash)
    {
      jobs, running, due, loop := file, false, [], Idle;
    }

    method StartService(newId: string, pause: nat)
      requires running || !Draining(Snapshot())
      modifies this
      ensures Snapshot() == if old(running) then old(Snapshot()) else StartStep(ticks, old(Snapshot()), newId, pause)
    {
      if running {
        return;
      }
      jobs := file;
      ghost var now := clock;
      ClearStaleRunningStates(newId);
      clock := clock + pause;
      RecomputeNextRuns();
      RepairTwice(ticks, file, newId, now, now + pause);
      books := map id | id in books :: AbortBook(books[id], Find(file, id), newId, now);
      SaveStore();
      running := true;
    }

    method StopService()
      modifies this`running
      ensures Snapshot() == Step(ticks, old(Snapshot()), Stop)
    {
      running := false;
    }

    method CheckJobs()
      requires !Draining(Snapshot())
      modifies this
      ensures Snapshot() == if running then CheckStep(old(Snapshot())) else old(Snapshot())
    {
      if !running {
        return;
      }
      CollectDue();
      MarkCollected();
      if due != [] {
        SaveStore();
      } else {
        MapSame(old(jobs), Collecting([]));
      }
    }

    method CollectDue()
      requires due == []
      modifies this`due
      ensures due == DueIds(jobs, clock)
    {
      var i := 0;
      while i < |jobs|
        invariant 0 <= i <= |jobs| && due == DueIds(jobs[..i], clock)
      {
        var job := jobs[i];
        DueSnoc(jobs[..i], job, clock);
        assert jobs[..i + 1] == jobs[..i] + [job];
        if job.enabled && !job.running && job.nextRun.Some? && job.nextRun.value <= clock {
          due := due + [job.id];
        }
        i := i + 1;
      }
      assert jobs[..i] == jobs;
    }

    method MarkCollected()
      modifies this`jobs
      ensures jobs == MapJobs(old(jobs), Collecting(due))
    {
      ghost var f := Collecting(due);
      ghost var before := jobs;
      var i := 0;
      while i < |jobs|
        invariant 0 <= i <= |jobs| && Halfway(before, f, i, jobs)
      {
        HalfwayStep(before, f, i, jobs);
        if jobs[i].id in due {
          jobs := jobs[i := jobs[i].(nextRun := None)];
        }
        i := i + 1;
      }
      assert before[..i] == before;
    }

    method FindJob(id: nat) returns (index: int)
      ensures -1 <= index < |jobs|
      ensures Find(jobs, id) == if index >= 0 then Some(jobs[index]) else None
      ensures index >= 0 ==> FirstAt(jobs, id, index)
    {
      index := 0;
      while index < |jobs|
        invariant 0 <= index <= |jobs|
        invariant Find(jobs, id) == Find(jobs[index..], id)
        invariant forall i :: 0 <= i < index ==> jobs[i].id != id
      {
        assert jobs[index..][0] == jobs[index] && jobs[index..][1..] == jobs[index + 1..];
        if jobs[index].id == id {
          return;
        }
        index := index + 1;
      }
      index := -1;
    }

    /** The loop takes the next job of the due list and reads the clock. */
    method PickJob()
      requires loop.Idle? && due != []
      modifies this
      ensures Snapshot() == Step(ticks, old(Snapshot()), Pick)
    {
      loop, due := Picked(due[0], clock), due[1..];
    }

    method BeginJobRun(runId: string) returns (ok: bool)
      requires loop.Picked? && TrimSpace(runId) == runId != ""
      modifies this
      ensures Snapshot() == BeginStep(old(Snapshot()), runId)
      ensures ok == loop.Handling?
    {
      var id, startedAt := loop.id, loop.at;
      var index := FindJob(id);
      if index < 0 || jobs[index].running {
        loop := Idle;
        return false;
      }
      var job := jobs[index].(running := true, since := Some(startedAt), runId := runId);
      ReplaceFirst(jobs, id, index, job);
      jobs := jobs[index := job];
      SaveStore();
      loop := Handling(id, runId, startedAt, None);
      books := RecordStart(old(Snapshot()), id, RunStart(runId, startedAt, clock));
      return true;
    }

    /** The handler returned; the loop reads the clock before it takes the lock again. */
    method HandlerReturned()
      requires loop.Handling? && loop.finishedAt.None?
      modifies this`loop
      ensures Snapshot() == Step(ticks, old(Snapshot()), Return)
    {
      loop := loop.(finishedAt := Some(clock));
    }

    method FinishJobRun(ok: bool)
      requires loop.Handling? && loop.finishedAt.Some?
      modifies this
      ensures Snapshot() == FinishStep(ticks, old(Snapshot()), ok)
    {
      var id, runId, startedAt, finishedAt := loop.id, loop.runId, loop.startedAt, loop.finishedAt.value;
      loop := Idle;
      var index := FindJob(id);
      if index < 0 {
        return;
      }
      var record := Finished(runId, startedAt, finishedAt, ok);
      var job := Close(jobs[index], record);
      if job.schedule.At? && job.deleteAfterRun {
        var removed := RemoveJob(id);
      } else {
        if job.schedule.At? {
          job := job.(enabled := false, nextRun := None);
        } else if job.enabled {
          job := job.(nextRun := ComputeNextRun(ticks, job.schedule, finishedAt));
        } else {
          job := job.(nextRun := None);
        }
        ReplaceFirst(jobs, id, index, job);
        jobs := jobs[index := job];
      }
      SaveStore();
      books := RecordEnd(old(Snapshot()), id, record);
    }

    /** Ids come from a generator that does not repeat. */
    method AddJob(id: nat, schedule: Schedule) returns (accepted: bool)
      requires id !in books
      modifies this
      ensures accepted == Accepted(ticks, schedule, clock)
      ensures Snapshot() == if accepted then AddStep(old(Snapshot()), NewJob(ticks, id, Normal(schedule), clock))
                            else old(Snapshot())
    {
      accepted := Accepted(ticks, schedule, clock);
      if accepted {
        var job := NewJob(ticks, id, Normal(schedule), clock);
        jobs := jobs + [job];
        SaveStore();
        books := books[id := Book(job.schedule, [], [])];
      }
    }

    method RemoveJob(id: nat) returns (removed: bool)
      modifies this`jobs, this`file
      ensures Snapshot() == RemoveStep(old(Snapshot()), id)
      ensures removed <==> Find(old(jobs), id).Some?
    {
      var kept, i := [], 0;
      while i < |jobs|
        invariant unchanged(this)
        invariant 0 <= i <= |jobs| && kept == Without(jobs[..i], id)
      {
        WithoutSnoc(jobs[..i], jobs[i], id);
        assert jobs[..i + 1] == jobs[..i] + [jobs[i]];
        if jobs[i].id != id {
          kept := kept + [jobs[i]];
        }
        i := i + 1;
      }
      assert jobs[..i] == jobs;
      WithoutShrinks(jobs, id);
      removed := |kept| < |jobs|;
      jobs := kept;
      if removed {
        SaveStore();
      }
    }

    method EnableJob(id: nat, enabled: bool) returns (found: bool)
      modifies this
      ensures Snapshot() == EnableStep(ticks, old(Snapshot()), id, enabled)
      ensures found <==> Find(jobs, id).Some?
    {
      var index := FindJob(id);
      if index < 0 {
        return false;
      }
      var job := jobs[index].(enabled := enabled);
      if enabled {
        job := job.(nextRun := ComputeNextRun(ticks, job.schedule, clock));
      } else {
        job := job.(nextRun := None);
      }
      FindReplace(jobs, id, job, id);
      ReplaceFirst(jobs, id, index, job);
      jobs := jobs[index := job];
      SaveStore();
      return true;
    }
  }

  lemma {:induction false} MapSnoc(jobs: seq<Job>, job: Job, f: Job -> Job)
    ensures MapJobs(jobs + [job], f) == MapJobs(jobs, f) + [f(job)]
    ensures |MapJobs(jobs, f)| == |jobs|
  {
    if jobs == [] {
      assert jobs + [job] == [job];
    } else {
      assert (jobs + [job])[1..] == jobs[1..] + [job];
      MapSnoc(jobs[1..], job, f);
    }
  }

  lemma {:induction false} MapSame(jobs: seq<Job>, f: Job -> Job)
    requires forall job :: f(job) == job
    ensures MapJobs(jobs, f) == jobs
  {
    if jobs != [] {
      MapSame(jobs[1..], f);
    }
  }

  lemma {:induction false} DueSnoc(jobs: seq<Job>, job: Job, now: int)
    ensures DueIds(jobs + [job], now) == DueIds(jobs, now) + if Due(job, now) then [job.id] else []
  {
    if jobs == [] {
      assert jobs + [job] == [job];
    } else {
      assert (jobs + [job])[1..] == jobs[1..] + [job];
      DueSnoc(jobs[1..], job, now);
      var head := if Due(jobs[0], now) then [jobs[0].id] else [];
      var last := if Due(job, now) then [job.id] else [];
      assert head + (DueIds(jobs[1..], now) + last) == head + DueIds(jobs[1..], now) + last;
    }
  }

  lemma {:induction false} WithoutSnoc(jobs: seq<Job>, job: Job, id: nat)
    ensures Without(jobs + [job], id) == Without(jobs, id) + if job.id == id then [] else [job]
  {
    if jobs == [] {
      assert jobs + [job] == [job];
    } else {
      assert (jobs + [job])[1..] == jobs[1..] + [job];
      WithoutSnoc(jobs[1..], job, id);
      var head := if jobs[0].id == id then [] else [jobs[0]];
      var last := if job.id == id then [] else [job];
      assert head + (Without(jobs[1..], id) + last) == head + Without(jobs[1..], id) + last;
    }
  }

  lemma {:induction false} WithoutShrinks(jobs: seq<Job>, id: nat)
    ensures if Find(jobs, id).None? then Without(jobs, id) == jobs else |Without(jobs, id)| < |jobs|
  {
    if jobs != [] {
      WithoutShrinks(jobs[1..], id);
    }
  }

  predicate FirstAt(jobs: seq<Job>, id: nat, index: nat) {
    index < |jobs| && jobs[index].id == id && forall i :: 0 <= i < index ==> jobs[i].id != id
  }

  lemma {:induction false} ReplaceFirst(jobs: seq<Job>, id: nat, index: nat, job: Job)
    requires FirstAt(jobs, id, index)
    ensures Replace(jobs, id, job) == jobs[index := job]
  {
    if index > 0 {
      ReplaceFirst(jobs[1..], id, index - 1, job);
      assert jobs[index := job] == [jobs[0]] + jobs[1..][index - 1 := job];
    }
  }

  /** The first i jobs have been treated. */
  ghost predicate Halfway(before: seq<Job>, f: Job -> Job, i: nat, jobs: seq<Job>) {
    i <= |before| == |jobs| && jobs == MapJobs(before[..i], f) + before[i..]
  }

  lemma {:induction false} HalfwayStep(before: seq<Job>, f: Job -> Job, i: nat, jobs: seq<Job>)
    requires Halfway(before, f, i, jobs) && i < |jobs|
    ensures jobs[i] == before[i] && Halfway(before, f, i + 1, jobs[i := f(jobs[i])])
    ensures jobs[i := jobs[i]] == jobs
  {
    MapSnoc(before[..i], before[i], f);
    assert before[..i + 1] == before[..i] + [before[i]];
  }

  lemma {:induction false} RepairTwice(ticks: Ticks, jobs: seq<Job>, newId: string, now: int, later: int)
    ensures MapJobs(MapJobs(jobs, Clearing(newId, now)), Recomputing(ticks, later)) ==
            MapJobs(jobs, Repairing(ticks, newId, now, later))
  {
    MapTwice(jobs, Clearing(newId, now), Recomputing(ticks, later), Repairing(ticks, newId, now, later));
  }

  lemma {:induction false} MapTwice(jobs: seq<Job>, f: Job -> Job, g: Job -> Job, h: Job -> Job)
    requires forall job :: h(job) == g(f(job))
    ensures MapJobs(MapJobs(jobs, f), g) == MapJobs(jobs, h)
  {
    if jobs != [] {
      MapTwice(jobs[1..], f, g, h);
      assert MapJobs(jobs, f)[1..] == MapJobs(jobs[1..], f);
    }
  }
}
