/** The state of one bulk job and its atomic steps: every stretch of the orchestrator's code that
    runs between two `await`s is one function from states to states. The event loop's outstanding
    awaits are the multiset `pending`; a database operation first takes effect (`Commit`) and only
    later lets the waiting code go on (`Resume`), so any interleaving of the two is a run. */
module JobMachine {
  import opened Wrappers
  import opened Chunks

  /** Execution ids and machines are only ever compared for equality. */
  type Id = nat

  datatype Mode = Parallel | Rolling

  datatype Status = Pending | Running | Success | Failed | Skipped

  predicate Final(st: Status) { st == Success || st == Failed }

  /** The parts of a job that never change once it has started. */
  datatype Config = Config(
    mode: Mode,
    concurrency: Option<int>,
    stopOnFailurePercent: Option<real>,
    waits: bool)

  const MAX_GLOBAL_CONCURRENCY: int := 50

  /** What the code waiting for a status write does next. */
  datatype Then = ThenSend | ThenFinish | ThenFinishReported

  /** One outstanding await. */
  datatype Task =
    | Starting
    | Write(e: Id, st: Status, next: Then)
    | Written(e: Id, st: Status, next: Then)
    | Sending(e: Id)
    | Counting(batch: seq<Id>)
    | Counted(failures: nat, total: nat)
    | WaveTimer
    | Skipping(ids: set<Id>)
    | SkipDone
    | Completing

  /** `timer` says whether `state.timer` holds a wave timer that was not cleared. `log` records every
      dispatch in order and `completions` counts the calls of `completeJob`; nothing in the program
      reads these two. */
  datatype Job = Job(
    live: bool,
    queue: seq<Id>,
    running: set<Id>,
    batches: seq<seq<Id>>,
    currentBatch: nat,
    aborted: bool,
    timer: bool,
    inflight: set<Id>,
    db: map<Id, Status>,
    pending: multiset<Task>,
    log: seq<Id>,
    completions: nat)

  function Min(a: int, b: int): int { if a <= b then a else b }
  function Max(a: int, b: int): int { if a >= b then a else b }

  // --- strategy ---

  /** `normalizeStrategy` on a whole-number concurrency; 0 and a missing value count as absent. */
  function NormalizeConcurrency(raw: Option<int>): (c: int)
    ensures 1 <= c <= 50
    ensures raw.Some? && 1 <= raw.value <= 50 ==> c == raw.value
    ensures raw.Some? && raw.value < 0 ==> c == 1
    ensures raw.None? || raw.value == 0 || raw.value > 50 ==> c == 50
  {
    var given := if raw.None? || raw.value == 0 then MAX_GLOBAL_CONCURRENCY else raw.value;
    Min(Max(1, given), MAX_GLOBAL_CONCURRENCY)
  }

  /** `normalizeStrategy` on a failure threshold; 0 and a missing value mean none. */
  function NormalizeThreshold(raw: Option<real>): (p: Option<real>)
    ensures p.Some? <==> raw.Some? && raw.value != 0.0
    ensures p.Some? ==> 1.0 <= p.value <= 100.0
    ensures raw.Some? && 1.0 <= raw.value <= 100.0 ==> p == raw
  {
    if raw.None? || raw.value == 0.0 then None
    else Some(if raw.value < 1.0 then 1.0 else if raw.value > 100.0 then 100.0 else raw.value)
  }

  function Limit(cfg: Config): int {
    var c := if cfg.concurrency.None? || cfg.concurrency.value == 0 then MAX_GLOBAL_CONCURRENCY
             else cfg.concurrency.value;
    Min(c, MAX_GLOBAL_CONCURRENCY)
  }

  lemma ShareBounds(total: nat, percent: int)
    ensures 1 <= percent <= 100 ==> 0 <= total * percent <= total * 100
  {
    if 1 <= percent <= 100 {
      assert total * (100 - percent) >= 0;
    }
  }

  /** `calculateBatchSize` on whole numbers. */
  function BatchSize(total: nat, batchSize: Option<int>, batchPercent: Option<int>): (size: nat)
    ensures size <= total && (total > 0 ==> size > 0)
    ensures batchSize.Some? && batchSize.value > 0 ==> size == total <= batchSize.value || size == batchSize.value
    ensures total > 0 && (batchSize.None? || batchSize.value == 0) && batchPercent.Some? && 1 <= batchPercent.value <= 100 ==>
              && (size * 100 <= total * batchPercent.value || size == 1)
              && (size + 1) * 100 > total * batchPercent.value
    ensures (batchSize.None? || batchSize.value == 0) && (batchPercent.None? || batchPercent.value == 0) && total > 0
            ==> size == 1
    ensures batchSize.Some? && batchSize.value < 0 && total > 0 ==> size == 1
  {
    if batchSize.Some? && batchSize.value != 0 then Min(total, Max(1, batchSize.value))
    else if batchPercent.Some? && batchPercent.value != 0 then
      ShareBounds(total, batchPercent.value);
      Min(total, Max(1, total * batchPercent.value / 100))
    else Min(total, 1)
  }

  // --- the synchronous stretches ---

  function Await(s: Job, t: Task): Job { s.(pending := s.pending + multiset{t}) }

  function RemoveFirst(q: seq<Id>, e: Id): seq<Id> {
    if q == [] then [] else if q[0] == e then q[1..] else [q[0]] + RemoveFirst(q[1..], e)
  }

  /** `startJob` up to its first await. */
  function InitialJob(cfg: Config, ids: seq<Id>, waves: seq<seq<Id>>): Job {
    Job(true, ids, {}, if cfg.mode.Rolling? then waves else [], 0, false, false, {},
        map e | e in ids :: Pending, multiset{Starting}, [], 0)
  }

  /** `dispatchExecution` up to its first await. `online` are the executions whose machine is
      connected at this moment. */
  function Dispatch(s: Job, e: Id, online: set<Id>): Job {
    if !s.live || s.aborted then s
    else
      var s1 := s.(queue := RemoveFirst(s.queue, e), log := s.log + [e]);
      if e !in online then Await(s1, Write(e, Failed, ThenFinish))
      else Await(s1.(running := s1.running + {e}), Write(e, Running, ThenSend))
  }

  function DispatchAll(s: Job, es: seq<Id>, online: set<Id>): Job
    decreases |es|
  {
    if es == [] then s else DispatchAll(Dispatch(s, es[0], online), es[1..], online)
  }

  function Complete(s: Job): Job {
    if !s.live then s else Await(s.(completions := s.completions + 1), Completing)
  }

  /** The `while` loop of `fillParallel`. */
  function FillLoop(cfg: Config, s: Job, online: set<Id>): Job
    decreases |s.queue|
  {
    if |s.running| < Limit(cfg) && s.queue != [] then
      RemoveFirstShorter(s.queue[1..], s.queue[0]);
      FillLoop(cfg, Dispatch(s.(queue := s.queue[1..]), s.queue[0], online), online)
    else s
  }

  lemma RemoveFirstShorter(q: seq<Id>, e: Id)
    ensures |RemoveFirst(q, e)| <= |q|
    ensures e !in q ==> RemoveFirst(q, e) == q
    ensures forall x :: x in RemoveFirst(q, e) ==> x in q
    ensures forall x :: x in q && x != e ==> x in RemoveFirst(q, e)
  {
  }

  function Fill(cfg: Config, s: Job, online: set<Id>): Job {
    if !s.live || s.aborted then s
    else
      var s1 := FillLoop(cfg, s, online);
      if s1.running == {} && s1.queue == [] then Complete(s1) else s1
  }

  function CurrentBatch(s: Job): seq<Id> {
    if s.currentBatch < |s.batches| then s.batches[s.currentBatch] else []
  }

  function RunWave(s: Job, online: set<Id>): Job {
    if !s.live || s.aborted then s
    else if CurrentBatch(s) == [] then Complete(s)
    else DispatchAll(s, CurrentBatch(s), online)
  }

  /** `evaluateRollingBatch` up to its await. */
  function Evaluate(s: Job, batch: seq<Id>): Job {
    if !s.live || s.aborted then s else Await(s, Counting(batch))
  }

  function OnFinished(cfg: Config, s: Job, e: Id, online: set<Id>): Job {
    if !s.live then s
    else
      var s1 := s.(running := s.running - {e});
      if cfg.mode.Rolling? then
        if exists x :: x in CurrentBatch(s1) && x in s1.running then s1
        else Evaluate(s1, CurrentBatch(s1))
      else Fill(cfg, s1, online)
  }

  /** The wave slices above the current one, in the order `abortRemaining` lists them. */
  function LaterWaves(s: Job): seq<Id> {
    if s.currentBatch + 1 <= |s.batches| then Flatten(s.batches[s.currentBatch + 1..]) else []
  }

  function PendingIds(s: Job): set<Id> {
    (set e | e in s.queue) + (set e | e in LaterWaves(s))
  }

  function Pause(s: Job): Job { Await(s.(timer := true), WaveTimer) }

  /** `clearTimeout(state.timer)`. The timer set last is the last to fire, since all last equally long: unless
      it was cleared, it is outstanding as long as any of them is. */
  function ClearTimer(s: Job): Job {
    s.(timer := false, pending := if s.timer then s.pending - multiset{WaveTimer} else s.pending)
  }

  /** `abortRemaining` up to its first await. */
  function Abort(s: Job): Job {
    if !s.live then s
    else Await(ClearTimer(s).(aborted := true), Skipping(PendingIds(s)))
  }

  /** failures * 100 / total > threshold. An empty wave gives NaN in the program, which exceeds nothing. */
  predicate OverThreshold(cfg: Config, failures: nat, total: nat) {
    && cfg.stopOnFailurePercent.Some?
    && cfg.stopOnFailurePercent.value != 0.0
    && total > 0
    && failures as real * 100.0 > cfg.stopOnFailurePercent.value * total as real
  }

  /** `evaluateRollingBatch` after its await. */
  function Decide(cfg: Config, s: Job, failures: nat, total: nat, online: set<Id>): Job {
    if OverThreshold(cfg, failures, total) then Abort(s)
    else
      var s1 := s.(currentBatch := s.currentBatch + 1);
      if s1.currentBatch >= |s1.batches| then Complete(s1)
      else if cfg.waits then Pause(s1)
      else RunWave(s1, online)
  }

  // --- the database ---

  function Rows(db: map<Id, Status>, batch: seq<Id>): set<Id> {
    set e | e in batch && e in db
  }

  function FailedRows(db: map<Id, Status>, batch: seq<Id>): set<Id> {
    set e | e in batch && e in db && db[e] == Failed
  }

  function SetStatus(db: map<Id, Status>, e: Id, st: Status): map<Id, Status> {
    if e in db then db[e := st] else db
  }

  function SkipRows(db: map<Id, Status>, ids: set<Id>): map<Id, Status> {
    map e | e in db :: if e in ids then Skipped else db[e]
  }

  // --- steps ---

  datatype Step =
    | Commit(t: Task)
    | Resume(t: Task, online: set<Id>, sent: bool)
    | Report(e: Id, st: Status)
    | UserAbort

  predicate NeedsCommit(t: Task) { t.Write? || t.Counting? || t.Skipping? }

  /** A result may be reported for any execution in flight: by its agent, or by the timer
      that gives up on a disconnected one. */
  predicate Enabled(s: Job, step: Step) {
    match step
    case Commit(t) => t in s.pending && NeedsCommit(t)
    case Resume(t, _, _) => t in s.pending && !NeedsCommit(t)
    case Report(e, st) => e in s.inflight && (st == Success || st == Failed)
    case UserAbort => true
  }

  function Take(s: Job, t: Task): Job { s.(pending := s.pending - multiset{t}) }

  function CommitTask(s: Job, t: Task): Job
    requires NeedsCommit(t)
  {
    var s0 := Take(s, t);
    match t
    case Write(e, st, next) => Await(s0.(db := SetStatus(s0.db, e, st)), Written(e, st, next))
    case Counting(batch) => Await(s0, Counted(|FailedRows(s0.db, batch)|, |Rows(s0.db, batch)|))
    case Skipping(ids) => Await(s0.(db := SkipRows(s0.db, ids)), SkipDone)
  }

  /** `dispatchExecution` after `sendCommand` has answered. */
  function AfterSend(s: Job, e: Id, sent: bool): Job {
    if sent then s else Await(s.(running := s.running - {e}), Write(e, Failed, ThenFinish))
  }

  function AfterWrite(cfg: Config, s: Job, e: Id, next: Then, online: set<Id>): Job {
    match next
    case ThenSend => Await(s.(inflight := s.inflight + {e}), Sending(e))
    case ThenFinish => OnFinished(cfg, s, e, online)
    case ThenFinishReported => OnFinished(cfg, s.(inflight := s.inflight - {e}), e, online)
  }

  function ResumeTask(cfg: Config, s: Job, t: Task, online: set<Id>, sent: bool): Job
    requires !NeedsCommit(t)
  {
    var s0 := Take(s, t);
    match t
    case Starting => if cfg.mode.Rolling? then RunWave(s0, online) else Fill(cfg, s0, online)
    case Written(e, _, next) => AfterWrite(cfg, s0, e, next, online)
    case Sending(e) => AfterSend(s0, e, sent)
    case Counted(failures, total) => Decide(cfg, s0, failures, total, online)
    case WaveTimer => RunWave(s0, online)
    case SkipDone => s0.(queue := [])
    case Completing => s0.(live := false)
  }

  function Next(cfg: Config, s: Job, step: Step): Job
    requires Enabled(s, step)
  {
    match step
    case Commit(t) => CommitTask(s, t)
    case Resume(t, online, sent) => ResumeTask(cfg, s, t, online, sent)
    case Report(e, st) => Await(s, Write(e, st, ThenFinishReported))
    case UserAbort => Abort(s)
  }

  // --- runs ---

  /** `s` can be reached from `from` by the given steps. */
  ghost predicate Reaches(cfg: Config, from: Job, steps: seq<Step>, s: Job)
    decreases |steps|
  {
    if steps == [] then s == from
    else Enabled(from, steps[0]) && Reaches(cfg, Next(cfg, from, steps[0]), steps[1..], s)
  }

  lemma {:induction false} ReachesSnoc(cfg: Config, from: Job, steps: seq<Step>, s: Job, step: Step)
    requires Reaches(cfg, from, steps, s) && Enabled(s, step)
    ensures Reaches(cfg, from, steps + [step], Next(cfg, s, step))
    decreases |steps|
  {
    if steps == [] {
      assert [step][1..] == [];
      assert steps + [step] == [step];
    } else {
      ReachesSnoc(cfg, Next(cfg, from, steps[0]), steps[1..], s, step);
      assert (steps + [step])[1..] == steps[1..] + [step];
    }
  }

  /** A job as `startJob` is given it: the executions are distinct database rows, still pending,
      and in rolling mode they have been cut into waves. */
  ghost predicate Startable(cfg: Config, ids: seq<Id>, waves: seq<seq<Id>>) {
    && NoDup(ids)
    && Flatten(waves) == ids
    && (forall k :: 0 <= k < |waves| ==> waves[k] != [])
  }

  function SetOf(q: seq<Id>): set<Id> { set e | e in q }

  lemma {:induction false} CardUpTo(a: set<Id>, b: set<Id>)
    requires a <= b
    ensures |a| <= |b|
  {
    if a == {} {
      assert |a| == 0;
    } else {
      var x :| x in a;
      CardUpTo(a - {x}, b - {x});
    }
  }

  lemma RemoveFirstSet(q: seq<Id>, e: Id)
    requires NoDup(q)
    ensures SetOf(RemoveFirst(q, e)) == SetOf(q) - {e}
    ensures NoDup(RemoveFirst(q, e))
  {
    if q != [] {
      NoDupSplit([q[0]], q[1..]);
      assert q == [q[0]] + q[1..];
      RemoveFirstSet(q[1..], e);
      RemoveFirstShorter(q[1..], e);
      assert SetOf(q) == {q[0]} + SetOf(q[1..]);
    }
  }
}
