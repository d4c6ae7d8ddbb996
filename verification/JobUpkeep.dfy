/** What a job keeps up in every reachable state: an execution that runs can still report its result, a parallel
    job fills its slots, an aborted job empties its queue and stops its timer. */
module JobUpkeep {
  import opened Wrappers
  import opened Chunks
  import opened JobMachine
  import opened JobAbort
  import JobParallel
  import JobProgress
  import JobRolling

  // --- running executions can report ---

  /** The RUNNING status of `e` is being written; the command is sent after that. */
  ghost predicate BeforeSend(s: Job, e: Id) {
    Write(e, Running, ThenSend) in s.pending || Written(e, Running, ThenSend) in s.pending
  }

  ghost predicate Reportable(s: Job) {
    forall e :: e in s.running ==> e in s.inflight || BeforeSend(s, e)
  }

  /** From `s` to `s'` nothing that matters for `Reportable` is lost. */
  ghost predicate Joins(s: Job, s': Job) {
    && s'.inflight == s.inflight
    && (forall e :: BeforeSend(s, e) ==> BeforeSend(s', e))
    && (forall e :: e in s'.running ==> e in s.running || BeforeSend(s', e))
  }

  lemma JoinsReportable(s: Job, s': Job)
    requires Joins(s, s') && Reportable(s)
    ensures Reportable(s')
  {
  }

  lemma JoinsTrans(s: Job, m: Job, s': Job)
    requires Joins(s, m) && Joins(m, s')
    ensures Joins(s, s')
  {
  }

  lemma DispatchJoins(s: Job, e: Id, online: set<Id>)
    ensures Joins(s, Dispatch(s, e, online))
  {
    if s.live && !s.aborted {
      var t := if e in online then Write(e, Running, ThenSend) else Write(e, Failed, ThenFinish);
      assert Dispatch(s, e, online).pending == s.pending + multiset{t};
    }
  }

  lemma {:induction false} DispatchAllJoins(s: Job, es: seq<Id>, online: set<Id>)
    ensures Joins(s, DispatchAll(s, es, online))
    decreases |es|
  {
    if es == [] {
      assert DispatchAll(s, es, online) == s;
    } else {
      DispatchJoins(s, es[0], online);
      DispatchAllJoins(Dispatch(s, es[0], online), es[1..], online);
      hide Joins, Dispatch;
      JoinsTrans(s, Dispatch(s, es[0], online), DispatchAll(s, es, online));
    }
  }

  lemma {:induction false} FillLoopJoins(cfg: Config, s: Job, online: set<Id>)
    ensures Joins(s, FillLoop(cfg, s, online))
    decreases |s.queue|
  {
    if |s.running| < Limit(cfg) && s.queue != [] {
      RemoveFirstShorter(s.queue[1..], s.queue[0]);
      var s0 := s.(queue := s.queue[1..]);
      var s1 := Dispatch(s0, s.queue[0], online);
      DispatchJoins(s0, s.queue[0], online);
      assert Joins(s, s0);
      JoinsTrans(s, s0, s1);
      FillLoopJoins(cfg, s1, online);
      hide Joins, Dispatch;
      JoinsTrans(s, s1, FillLoop(cfg, s, online));
    }
  }

  lemma FillJoins(cfg: Config, s: Job, online: set<Id>)
    ensures Joins(s, Fill(cfg, s, online))
  {
    FillLoopJoins(cfg, s, online);
    assert Joins(s, s);
    var s1 := FillLoop(cfg, s, online);
    JoinsTrans(s, s1, Complete(s1));
  }

  lemma RunWaveJoins(s: Job, online: set<Id>)
    ensures Joins(s, RunWave(s, online))
  {
    DispatchAllJoins(s, CurrentBatch(s), online);
  }

  lemma AbortJoins(s: Job)
    ensures Joins(s, Abort(s))
  {
    hide PendingIds;
  }

  lemma CompleteJoins(s: Job)
    ensures Joins(s, Complete(s))
  {
  }

  lemma PauseJoins(s: Job)
    ensures Joins(s, Pause(s))
  {
  }

  lemma DecideJoins(cfg: Config, s: Job, failures: nat, total: nat, online: set<Id>)
    ensures Joins(s, Decide(cfg, s, failures, total, online))
  {
    var s1 := s.(currentBatch := s.currentBatch + 1);
    assert Joins(s, s1);
    AbortJoins(s);
    CompleteJoins(s1);
    PauseJoins(s1);
    RunWaveJoins(s1, online);
    hide Joins, Abort, Complete, Pause, RunWave, OverThreshold;
    var s' := Decide(cfg, s, failures, total, online);
    if s' != Abort(s) {
      JoinsTrans(s, s1, s');
    }
  }

  /** When `e` finishes it leaves `running`, so it need not be able to report any more. */
  lemma FinishedReportable(cfg: Config, s: Job, e: Id, online: set<Id>)
    requires s.live && forall x :: x in s.running && x != e ==> x in s.inflight || BeforeSend(s, x)
    ensures Reportable(OnFinished(cfg, s, e, online))
  {
    var s1 := s.(running := s.running - {e});
    FillJoins(cfg, s1, online);
    hide Fill;
    assert Reportable(s1);
    JoinsReportable(s1, OnFinished(cfg, s, e, online));
  }

  lemma WrittenReportable(cfg: Config, s: Job, t: Task, online: set<Id>)
    requires s.live && Reportable(s) && t in s.pending && t.Written?
    ensures Reportable(AfterWrite(cfg, Take(s, t), t.e, t.next, online))
  {
    var s0 := Take(s, t);
    hide OnFinished;
    assert forall x :: x in s.running && x != t.e ==> x in s0.inflight || BeforeSend(s0, x);
    match t.next
    case ThenSend =>
    case ThenFinish => FinishedReportable(cfg, s0, t.e, online);
    case ThenFinishReported => FinishedReportable(cfg, s0.(inflight := s0.inflight - {t.e}), t.e, online);
  }

  lemma CommitReportable(s: Job, t: Task)
    requires Reportable(s) && t in s.pending && NeedsCommit(t)
    ensures Reportable(CommitTask(s, t))
  {
    hide FailedRows, Rows, SkipRows;
    var s' := CommitTask(s, t);
    forall e | e in s.running ensures e in s.inflight || BeforeSend(s', e) {
      assert t == Write(e, Running, ThenSend) ==> Written(e, Running, ThenSend) in s'.pending;
    }
  }

  lemma ResumeReportable(cfg: Config, s: Job, t: Task, online: set<Id>, sent: bool)
    requires s.live && Reportable(s) && t in s.pending && !NeedsCommit(t)
    ensures Reportable(ResumeTask(cfg, s, t, online, sent)) || !ResumeTask(cfg, s, t, online, sent).live
  {
    var s0 := Take(s, t);
    match t
    case Written(_, _, _) => WrittenReportable(cfg, s, t, online);
    case Starting =>
      RunWaveJoins(s0, online);
      FillJoins(cfg, s0, online);
      TakeReportable(s, t);
      hide Reportable, RunWave, Fill;
      JoinsReportable(s0, if cfg.mode.Rolling? then RunWave(s0, online) else Fill(cfg, s0, online));
    case WaveTimer =>
      RunWaveJoins(s0, online);
      TakeReportable(s, t);
      hide Reportable, RunWave;
      JoinsReportable(s0, RunWave(s0, online));
    case Counted(failures, total) =>
      DecideJoins(cfg, s0, failures, total, online);
      TakeReportable(s, t);
      hide Reportable, Decide;
      JoinsReportable(s0, Decide(cfg, s0, failures, total, online));
    case Sending(_) => TakeReportable(s, t);
    case SkipDone => TakeReportable(s, t);
    case Completing =>
  }

  lemma TakeReportable(s: Job, t: Task)
    requires Reportable(s) && !t.Written? && !t.Write?
    ensures Reportable(Take(s, t))
  {
  }

  lemma StepReportable(cfg: Config, s: Job, step: Step)
    requires Enabled(s, step) && (s.live ==> Reportable(s))
    ensures Next(cfg, s, step).live ==> Reportable(Next(cfg, s, step))
  {
    if !s.live {
      StaysOver(cfg, s, step);
    } else {
      match step
      case Commit(t) => CommitReportable(s, t);
      case Resume(t, online, sent) => ResumeReportable(cfg, s, t, online, sent);
      case Report(e, st) => JoinsReportable(s, Next(cfg, s, step));
      case UserAbort => AbortReportable(s);
    }
  }

  lemma AbortReportable(s: Job)
    requires Reportable(s)
    ensures Reportable(Abort(s))
  {
    hide PendingIds;
  }

  lemma StaysOver(cfg: Config, s: Job, step: Step)
    requires Enabled(s, step) && !s.live
    ensures !Next(cfg, s, step).live
  {
  }

  lemma {:induction false} RunReportable(cfg: Config, from: Job, steps: seq<Step>, s: Job)
    requires Reaches(cfg, from, steps, s) && (from.live ==> Reportable(from))
    ensures s.live ==> Reportable(s)
    decreases |steps|
  {
    if steps == [] {
      assert s == from;
    } else {
      StepReportable(cfg, from, steps[0]);
      RunReportable(cfg, Next(cfg, from, steps[0]), steps[1..], s);
    }
  }

  /** As long as the job exists, each execution in `running` can report a result or is on its way to its machine. */
  lemma RunningCanReport(cfg: Config, ids: seq<Id>, waves: seq<seq<Id>>, steps: seq<Step>, s: Job, e: Id)
    requires Reaches(cfg, InitialJob(cfg, ids, waves), steps, s) && s.live && e in s.running
    ensures || (Enabled(s, Report(e, Success)) && Enabled(s, Report(e, Failed)))
            || Write(e, Running, ThenSend) in s.pending || Written(e, Running, ThenSend) in s.pending
  {
    RunReportable(cfg, InitialJob(cfg, ids, waves), steps, s);
  }

  /** Once the final status of a reported execution is stored, no further result of it is taken. */
  lemma ResultEndsReports(cfg: Config, s: Job, e: Id, st: Status, online: set<Id>, sent: bool, again: Status)
    requires Written(e, st, ThenFinishReported) in s.pending
    ensures !Enabled(Next(cfg, s, Resume(Written(e, st, ThenFinishReported), online, sent)), Report(e, again))
  {
    var s0 := Take(s, Written(e, st, ThenFinishReported));
    var s1 := s0.(inflight := s0.inflight - {e});
    FillJoins(cfg, s1.(running := s1.running - {e}), online);
    hide Fill;
  }

  // --- an aborted job empties its queue ---

  ghost predicate Emptying(s: Job) {
    s.queue == [] || SkipDone in s.pending || exists es :: Skipping(es) in s.pending
  }

  lemma EmptyingStays(s: Job, s': Job)
    requires Emptying(s) && s'.queue == s.queue
    requires forall t :: t in s.pending && (t.SkipDone? || t.Skipping?) ==> t in s'.pending
    ensures Emptying(s')
  {
    if s.queue != [] && SkipDone !in s.pending {
      var es :| Skipping(es) in s.pending;
      assert Skipping(es) in s'.pending;
    }
  }

  lemma CommitEmptying(s: Job, t: Task)
    requires Emptying(s) && t in s.pending && NeedsCommit(t)
    ensures Emptying(CommitTask(s, t))
  {
    hide FailedRows, Rows, SkipRows;
    if t.Skipping? {
      assert SkipDone in CommitTask(s, t).pending;
    } else {
      EmptyingStays(s, CommitTask(s, t));
    }
  }

  /** In an aborted job, code behind an await neither queues an execution nor forgets an abort under way. */
  lemma ResumeEmptying(cfg: Config, s: Job, t: Task, online: set<Id>, sent: bool)
    requires s.aborted && Emptying(s) && t in s.pending && !NeedsCommit(t)
    ensures Emptying(ResumeTask(cfg, s, t, online, sent))
  {
    if !t.SkipDone? {
      var s' := ResumeTask(cfg, s, t, online, sent);
      KeepsQueue(cfg, s, t, online, sent);
      hide ResumeTask;
      EmptyingStays(s, s');
    }
  }

  lemma KeepsQueue(cfg: Config, s: Job, t: Task, online: set<Id>, sent: bool)
    requires s.aborted && t in s.pending && !NeedsCommit(t) && !t.SkipDone?
    ensures var s' := ResumeTask(cfg, s, t, online, sent);
            s'.queue == s.queue && forall x :: x in s.pending && (x.SkipDone? || x.Skipping?) ==> x in s'.pending
  {
    hide Decide, AfterWrite;
    if t.Counted? {
      DecideKeepsQueue(cfg, Take(s, t), t.failures, t.total, online);
    } else if t.Written? {
      WrittenKeepsQueue(cfg, Take(s, t), t.e, t.next, online);
    }
  }

  lemma DecideKeepsQueue(cfg: Config, s: Job, failures: nat, total: nat, online: set<Id>)
    requires s.aborted
    ensures var s' := Decide(cfg, s, failures, total, online);
            s'.queue == s.queue && forall x :: x in s.pending && (x.SkipDone? || x.Skipping?) ==> x in s'.pending
  {
    hide OverThreshold, PendingIds;
  }

  lemma WrittenKeepsQueue(cfg: Config, s: Job, e: Id, next: Then, online: set<Id>)
    requires s.aborted
    ensures var s' := AfterWrite(cfg, s, e, next, online);
            s'.queue == s.queue && forall x :: x in s.pending && (x.SkipDone? || x.Skipping?) ==> x in s'.pending
  {
  }

  lemma StepEmptying(cfg: Config, s: Job, step: Step)
    requires Enabled(s, step) && (s.aborted ==> Emptying(s))
    ensures Next(cfg, s, step).aborted ==> Emptying(Next(cfg, s, step))
  {
    if s.aborted {
      match step
      case Commit(t) => CommitEmptying(s, t);
      case Resume(t, online, sent) => ResumeEmptying(cfg, s, t, online, sent);
      case Report(e, st) => EmptyingStays(s, Next(cfg, s, step));
      case UserAbort => AbortEmptying(s);
    } else if Next(cfg, s, step).aborted {
      FirstAbort(cfg, s, step);
    }
  }

  lemma AbortEmptying(s: Job)
    requires s.live || (s.aborted ==> Emptying(s))
    ensures Abort(s).aborted ==> Emptying(Abort(s))
  {
    if s.live {
      assert Skipping(PendingIds(s)) in Abort(s).pending;
    }
  }

  /** A step that aborts a job is an abort, or ends in one. */
  lemma FirstAbort(cfg: Config, s: Job, step: Step)
    requires Enabled(s, step) && !s.aborted && Next(cfg, s, step).aborted
    ensures Emptying(Next(cfg, s, step))
  {
    if step.UserAbort? {
      AbortEmptying(s);
    } else {
      StepAborts(cfg, s, step);
      AbortEmptying(Take(s, step.t));
    }
  }

  lemma {:induction false} FillLoopAborted(cfg: Config, s: Job, online: set<Id>)
    ensures FillLoop(cfg, s, online).aborted == s.aborted
    decreases |s.queue|
  {
    if |s.running| < Limit(cfg) && s.queue != [] {
      RemoveFirstShorter(s.queue[1..], s.queue[0]);
      FillLoopAborted(cfg, Dispatch(s.(queue := s.queue[1..]), s.queue[0], online), online);
    }
  }

  lemma FillAborted(cfg: Config, s: Job, online: set<Id>)
    ensures Fill(cfg, s, online).aborted == s.aborted
  {
    FillLoopAborted(cfg, s, online);
  }

  lemma RunWaveAborted(s: Job, online: set<Id>)
    ensures RunWave(s, online).aborted == s.aborted
  {
    JobProgress.DispatchAllGrows(s, CurrentBatch(s), online);
  }

  lemma WrittenAborted(cfg: Config, s: Job, e: Id, next: Then, online: set<Id>)
    ensures AfterWrite(cfg, s, e, next, online).aborted == s.aborted
  {
    FillAborted(cfg, s.(running := s.running - {e}), online);
    FillAborted(cfg, s.(inflight := s.inflight - {e}, running := s.running - {e}), online);
    hide Fill;
  }

  lemma StepAborts(cfg: Config, s: Job, step: Step)
    requires Enabled(s, step) && !s.aborted && Next(cfg, s, step).aborted && !step.UserAbort?
    ensures step.Resume? && step.t.Counted? && s.live && Next(cfg, s, step) == Abort(Take(s, step.t))
  {
    if step.Resume? {
      var s0 := Take(s, step.t);
      RunWaveAborted(s0, step.online);
      RunWaveAborted(s0.(currentBatch := s0.currentBatch + 1), step.online);
      FillAborted(cfg, s0, step.online);
      if step.t.Written? {
        WrittenAborted(cfg, s0, step.t.e, step.t.next, step.online);
      }
      hide RunWave, Fill, AfterWrite, PendingIds;
    } else {
      hide FailedRows, Rows, SkipRows;
    }
  }

  lemma {:induction false} RunEmptying(cfg: Config, from: Job, steps: seq<Step>, s: Job)
    requires Reaches(cfg, from, steps, s) && (from.aborted ==> Emptying(from))
    ensures s.aborted ==> Emptying(s)
    decreases |steps|
  {
    if steps == [] {
      assert s == from;
    } else {
      StepEmptying(cfg, from, steps[0]);
      RunEmptying(cfg, Next(cfg, from, steps[0]), steps[1..], s);
    }
  }

  /** Once the code of an abort has run to its end, the queue is empty and stays so. */
  lemma AbortEmptiesQueue(cfg: Config, ids: seq<Id>, waves: seq<seq<Id>>, steps: seq<Step>, s: Job)
    requires Reaches(cfg, InitialJob(cfg, ids, waves), steps, s)
    requires s.aborted && SkipDone !in s.pending && forall es :: Skipping(es) !in s.pending
    ensures s.queue == []
  {
    RunEmptying(cfg, InitialJob(cfg, ids, waves), steps, s);
  }

  // --- a parallel job fills its slots ---

  /** Every slot is taken, unless the queue is empty or an execution is about to finish, which fills them. */
  ghost predicate Full(cfg: Config, s: Job) {
    || s.aborted || !s.live || |s.running| >= Limit(cfg) || s.queue == []
    || Starting in s.pending || JobProgress.HasFinishing(s)
  }

  lemma {:induction false} FillLoopFills(cfg: Config, s: Job, online: set<Id>)
    ensures var s' := FillLoop(cfg, s, online); s'.queue == [] || |s'.running| >= Limit(cfg)
    decreases |s.queue|
  {
    if |s.running| < Limit(cfg) && s.queue != [] {
      RemoveFirstShorter(s.queue[1..], s.queue[0]);
      FillLoopFills(cfg, Dispatch(s.(queue := s.queue[1..]), s.queue[0], online), online);
    }
  }

  lemma FillFills(cfg: Config, s: Job, online: set<Id>)
    ensures Full(cfg, Fill(cfg, s, online))
  {
    FillLoopFills(cfg, s, online);
  }

  lemma CommitFull(cfg: Config, s: Job, t: Task)
    requires Full(cfg, s) && t in s.pending && NeedsCommit(t)
    ensures Full(cfg, CommitTask(s, t))
  {
    if JobProgress.HasFinishing(s) {
      JobProgress.CommitFinishing(s, t);
    }
    hide JobProgress.HasFinishing, FailedRows, Rows, SkipRows;
  }

  lemma StaysFull(cfg: Config, s: Job, s': Job)
    requires Full(cfg, s) && s'.queue == s.queue && s'.running == s.running && (s.aborted ==> s'.aborted)
    requires !s.live ==> !s'.live
    requires forall x :: x in s.pending && (x.Starting? || JobProgress.Finishing(x)) ==> x in s'.pending
    ensures Full(cfg, s')
  {
    if JobProgress.HasFinishing(s) {
      var f :| f in s.pending && JobProgress.Finishing(f);
      assert f in s'.pending;
    }
  }

  lemma WrittenFull(cfg: Config, s: Job, t: Task, online: set<Id>)
    requires cfg.mode.Parallel? && Full(cfg, s) && t in s.pending && t.Written?
    ensures Full(cfg, AfterWrite(cfg, Take(s, t), t.e, t.next, online))
  {
    var s0 := Take(s, t);
    match t.next
    case ThenSend => StaysFull(cfg, s, Await(s0.(inflight := s0.inflight + {t.e}), Sending(t.e)));
    case ThenFinish =>
      FillFills(cfg, s0.(running := s0.running - {t.e}), online);
      hide Fill;
    case ThenFinishReported =>
      FillFills(cfg, s0.(inflight := s0.inflight - {t.e}, running := s0.running - {t.e}), online);
      hide Fill;
  }

  lemma ResumeFull(cfg: Config, s: Job, t: Task, online: set<Id>, sent: bool)
    requires cfg.mode.Parallel? && Full(cfg, s) && t in s.pending && !NeedsCommit(t)
    requires !t.Counted? && !t.WaveTimer? && (t.SkipDone? ==> s.aborted)
    ensures Full(cfg, ResumeTask(cfg, s, t, online, sent))
  {
    match t
    case Written(_, _, _) => WrittenFull(cfg, s, t, online);
    case Starting => FillFills(cfg, Take(s, t), online);
    case Sending(e) =>
      if sent {
        StaysFull(cfg, s, Take(s, t));
      } else {
        var w := Write(e, Failed, ThenFinish);
        assert w in ResumeTask(cfg, s, t, online, sent).pending && JobProgress.Finishing(w);
      }
    case SkipDone =>
    case Completing =>
  }

  lemma StepFull(cfg: Config, ids: seq<Id>, s: Job, step: Step)
    requires JobParallel.Good(cfg, ids, s) && cfg.mode.Parallel? && Full(cfg, s) && Enabled(s, step)
    ensures Full(cfg, Next(cfg, s, step))
  {
    match step
    case Commit(t) => CommitFull(cfg, s, t);
    case Resume(t, online, sent) =>
      assert TaskOk(ids, s, t);
      ResumeFull(cfg, s, t, online, sent);
    case Report(e, st) => StaysFull(cfg, s, Next(cfg, s, step));
    case UserAbort =>
  }

  lemma {:induction false} RunFull(cfg: Config, ids: seq<Id>, from: Job, steps: seq<Step>, s: Job)
    requires JobParallel.Good(cfg, ids, from) && Limit(cfg) >= 1 && cfg.mode.Parallel? && Full(cfg, from)
    requires Reaches(cfg, from, steps, s)
    ensures Full(cfg, s)
    decreases |steps|
  {
    if steps == [] {
      assert s == from;
    } else {
      JobParallel.StepGoodHolds(cfg, ids, from, steps[0]);
      StepFull(cfg, ids, from, steps[0]);
      RunFull(cfg, ids, Next(cfg, from, steps[0]), steps[1..], s);
    }
  }

  /** A parallel job uses every slot it may: as long as executions wait, exactly as many run as the requested
      concurrency says, except until the write that ends an execution is answered. */
  lemma SlotsAreFilled(cfg: Config, ids: seq<Id>, steps: seq<Step>, s: Job, c: int)
    requires cfg.concurrency == Some(c) && 1 <= c <= 50 && NoDup(ids) && cfg.mode.Parallel?
    requires Reaches(cfg, InitialJob(cfg, ids, []), steps, s)
    requires s.live && !s.aborted && s.queue != [] && Starting !in s.pending
    requires forall t :: t in s.pending && (t.Write? || t.Written?) ==> t.next.ThenSend?
    ensures |s.running| == c
  {
    var s0 := InitialJob(cfg, ids, []);
    JobParallel.ReachableGood(cfg, ids, [], s0);
    JobParallel.ReachableGood(cfg, ids, steps, s);
    assert Starting in s0.pending;
    RunFull(cfg, ids, s0, steps, s);
  }

  // --- an abort stops the timer ---

  ghost predicate TimerHeld(s: Job) { WaveTimer in s.pending ==> s.timer }

  lemma DispatchAllTimer(s: Job, es: seq<Id>, online: set<Id>)
    ensures var s' := DispatchAll(s, es, online);
            s'.timer == s.timer && (WaveTimer in s'.pending ==> WaveTimer in s.pending)
    decreases |es|
  {
    if es == [] {
      assert DispatchAll(s, es, online) == s;
    } else {
      DispatchAllTimer(Dispatch(s, es[0], online), es[1..], online);
    }
  }

  lemma RunWaveTimer(s: Job, online: set<Id>)
    requires TimerHeld(s)
    ensures TimerHeld(RunWave(s, online))
  {
    DispatchAllTimer(s, CurrentBatch(s), online);
  }

  lemma AbortTimer(s: Job)
    requires s.live && TimerHeld(s) && s.pending[WaveTimer] <= 1
    ensures WaveTimer !in Abort(s).pending
  {
    hide PendingIds;
  }

  lemma DecideTimer(cfg: Config, s: Job, failures: nat, total: nat, online: set<Id>)
    requires TimerHeld(s) && s.pending[WaveTimer] <= 1
    ensures TimerHeld(Decide(cfg, s, failures, total, online))
  {
    if s.live {
      AbortTimer(s);
    }
    RunWaveTimer(s.(currentBatch := s.currentBatch + 1), online);
    hide OverThreshold, PendingIds, RunWave, Abort;
    assert !s.live ==> Abort(s) == s;
  }

  lemma TakeTimer(s: Job, t: Task)
    requires TimerHeld(s)
    ensures TimerHeld(Take(s, t)) && (s.pending[WaveTimer] <= 1 ==> Take(s, t).pending[WaveTimer] <= 1)
  {
  }

  lemma WrittenTimer(cfg: Config, s: Job, e: Id, next: Then, online: set<Id>)
    requires cfg.mode.Rolling? && TimerHeld(s)
    ensures TimerHeld(AfterWrite(cfg, s, e, next, online))
  {
    hide Fill;
  }

  lemma ResumeTimer(cfg: Config, s: Job, t: Task, online: set<Id>, sent: bool)
    requires cfg.mode.Rolling? && TimerHeld(s) && s.pending[WaveTimer] <= 1 && t in s.pending && !NeedsCommit(t)
    ensures TimerHeld(ResumeTask(cfg, s, t, online, sent))
  {
    TakeTimer(s, t);
    var s0 := Take(s, t);
    hide RunWave, Decide, Fill, AfterWrite;
    match t
    case Counted(failures, total) => DecideTimer(cfg, s0, failures, total, online);
    case Written(e, _, next) => WrittenTimer(cfg, s0, e, next, online);
    case Starting => RunWaveTimer(s0, online);
    case WaveTimer => RunWaveTimer(s0, online);
    case _ =>
  }

  lemma CommitTimer(s: Job, t: Task)
    requires TimerHeld(s) && t in s.pending && NeedsCommit(t)
    ensures TimerHeld(CommitTask(s, t))
  {
    hide FailedRows, Rows, SkipRows;
  }

  lemma StepTimer(cfg: Config, ids: seq<Id>, s: Job, step: Step)
    requires JobRolling.Inv(cfg, ids, s) && cfg.mode.Rolling? && Enabled(s, step) && TimerHeld(s)
    ensures TimerHeld(Next(cfg, s, step))
  {
    OneTimer(s);
    hide JobRolling.Inv;
    match step
    case Commit(t) => CommitTimer(s, t);
    case Resume(t, online, sent) => ResumeTimer(cfg, s, t, online, sent);
    case Report(_, _) =>
    case UserAbort =>
      if s.live {
        AbortTimer(s);
      }
  }

  lemma OneTimer(s: Job)
    requires JobRolling.Control(s)
    ensures s.pending[WaveTimer] <= 1
  {
    assert WaveTimer in s.pending ==> JobRolling.IsControl(WaveTimer);
  }

  lemma {:induction false} RunTimer(cfg: Config, ids: seq<Id>, from: Job, steps: seq<Step>, s: Job)
    requires JobRolling.Inv(cfg, ids, from) && cfg.mode.Rolling? && TimerHeld(from)
    requires JobRolling.CleanRun(cfg, from, steps, s)
    ensures TimerHeld(s)
    decreases |steps|
  {
    if steps == [] {
      assert s == from;
    } else {
      JobRolling.StepRoll(cfg, ids, from, steps[0]);
      StepTimer(cfg, ids, from, steps[0]);
      RunTimer(cfg, ids, Next(cfg, from, steps[0]), steps[1..], s);
    }
  }

  /** Aborting a job between two waves stops the timer that would start the next one. */
  lemma AbortStopsTimer(cfg: Config, ids: seq<Id>, waves: seq<seq<Id>>, steps: seq<Step>, s: Job)
    requires JobRolling.RollingRun(cfg, ids, waves, steps, s) && s.live
    ensures WaveTimer !in Next(cfg, s, UserAbort).pending
  {
    var s0 := InitialJob(cfg, ids, waves);
    assert JobRolling.CleanRun(cfg, s0, [], s0);
    JobRolling.ReachableRoll(cfg, ids, waves, [], s0);
    JobRolling.ReachableRoll(cfg, ids, waves, steps, s);
    RunTimer(cfg, ids, s0, steps, s);
    OneTimer(s);
    AbortTimer(s);
  }
}
