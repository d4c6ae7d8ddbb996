/** Which rolling jobs are safe however their machines behave, as conditions on the job alone: the sizes of its
    waves, its threshold, and whether it pauses between waves. */
module JobExactly {
  import opened Chunks
  import opened JobMachine
  import opened JobAbort
  import opened JobRolling
  import opened JobOnce
  import opened JobCounterexamples

  // --- the barrier ---

  /** The waves form a barrier in every run in which each execution finishes once, exactly if every wave has
      one execution. */
  lemma BarrierExactly(cfg: Config, ids: seq<Id>, waves: seq<seq<Id>>)
    requires RollingJob(cfg, ids, waves)
    ensures (forall steps: seq<Step>, s: Job :: JobRun(cfg, ids, waves, steps, s) ==> BarrierHolds(waves, s))
            <==> AllSingle(waves)
  {
    hide OnceRun, BarrierHolds;
    if AllSingle(waves) {
      forall steps: seq<Step>, s: Job | JobRun(cfg, ids, waves, steps, s) ensures BarrierHolds(waves, s) {
        SingleWavesAreClean(cfg, ids, waves, steps, s);
        Barrier(cfg, ids, waves, steps, s);
      }
    } else {
      OfflineBreaksBarrier(cfg, ids, waves);
    }
  }

  // --- the failure budget ---

  lemma BigWaveFirst(ids: seq<Id>, waves: seq<seq<Id>>, size: nat)
    requires CutsInto(waves, ids, size) && !AllSingle(waves)
    ensures waves != [] && |waves[0]| >= 2
  {
    var n :| 0 <= n < |waves| && |waves[n]| != 1;
    assert 0 < |waves[n]| <= size;
    assert |waves| > 1 ==> |waves[0]| == size;
  }

  /** A threshold of 100 percent or more is never missed. */
  lemma HundredPercent(cfg: Config, ids: seq<Id>, db: map<Id, Status>)
    requires cfg.stopOnFailurePercent.Some? && cfg.stopOnFailurePercent.value >= 100.0
    requires NoDup(ids) && db.Keys == SetOf(ids)
    ensures JobWithinBudget(cfg, ids, db)
  {
    FewerFailures(ids, db);
    hide FailedIn;
    Share(cfg.stopOnFailurePercent.value, |FailedIn(db)|, |ids|);
  }

  lemma FewerFailures(ids: seq<Id>, db: map<Id, Status>)
    requires NoDup(ids) && db.Keys == SetOf(ids)
    ensures |FailedIn(db)| <= |ids|
  {
    CardOfNoDup(ids);
    assert FailedIn(db) <= SetOf(ids);
    CardUpTo(FailedIn(db), SetOf(ids));
  }

  lemma Share(p: real, failures: nat, n: nat)
    requires p >= 100.0 && failures <= n
    ensures failures as real * 100.0 <= p * n as real
  {
    assert (p - 100.0) * n as real >= 0.0;
  }

  /** A job cut into waves of one size keeps every completed run within its failure threshold exactly if every
      wave has one execution, or the threshold is 100 percent. */
  lemma BudgetExactly(cfg: Config, ids: seq<Id>, waves: seq<seq<Id>>, size: nat)
    requires RollingJob(cfg, ids, waves) && CutsInto(waves, ids, size)
    requires cfg.stopOnFailurePercent.Some? && cfg.stopOnFailurePercent.value > 0.0
    ensures (forall steps: seq<Step>, s: Job ::
               JobRun(cfg, ids, waves, steps, s) && s.completions > 0 ==> JobWithinBudget(cfg, ids, s.db))
            <==> AllSingle(waves) || cfg.stopOnFailurePercent.value >= 100.0
  {
    hide OnceRun, JobWithinBudget;
    if AllSingle(waves) {
      forall steps: seq<Step>, s: Job | JobRun(cfg, ids, waves, steps, s) && s.completions > 0
        ensures JobWithinBudget(cfg, ids, s.db)
      {
        SingleWavesAreClean(cfg, ids, waves, steps, s);
        FailureBudget(cfg, ids, waves, steps, s);
      }
    } else if cfg.stopOnFailurePercent.value >= 100.0 {
      forall steps: seq<Step>, s: Job | JobRun(cfg, ids, waves, steps, s) ensures JobWithinBudget(cfg, ids, s.db) {
        OnceReaches(cfg, InitialJob(cfg, ids, waves), steps, s);
        ReachableGeneral(cfg, ids, waves, steps, s);
        HundredPercent(cfg, ids, s.db);
      }
    } else {
      BigWaveFirst(ids, waves, size);
      OfflineBreaksBudget(cfg, ids, waves);
    }
  }

  // --- waves that are passed over ---

  predicate SingleButLast(waves: seq<seq<Id>>) { forall n :: 0 <= n < |waves| - 1 ==> |waves[n]| == 1 }

  /** Without a pause, a wave is dispatched in the same stretch of code that makes it the current one. */
  ghost predicate NoPause(waves: seq<seq<Id>>, s: Job) {
    && s.batches == waves
    && (s.aborted ||
        (&& WaveTimer !in s.pending
         && (Starting in s.pending ==> s.live && s.currentBatch == 0 && s.inflight == {} && s.pending == multiset{Starting})
         && (!s.live || Completing in s.pending ==> s.currentBatch >= |waves|)
         && WavesRun(waves, s)
         && (Starting !in s.pending ==> forall e :: e in CurrentBatch(s) ==> e in s.log)))
  }

  lemma RunWaveDispatches(s: Job, online: set<Id>)
    requires s.live && !s.aborted
    ensures var s' := RunWave(s, online);
            && s'.log == s.log + CurrentBatch(s)
            && s'.batches == s.batches && s'.currentBatch == s.currentBatch && s'.live == s.live && s'.aborted == s.aborted
            && (CurrentBatch(s) != [] ==> forall t :: t in s'.pending ==> t in s.pending || t.Write?)
            && (CurrentBatch(s) == [] ==> s' == Complete(s))
  {
    DispatchAllLog(s, CurrentBatch(s), online);
    DispatchAllTasks(s, CurrentBatch(s), online);
    if CurrentBatch(s) == [] {
      assert s.log + [] == s.log;
    }
  }

  lemma {:induction false} DispatchAllTasks(s: Job, es: seq<Id>, online: set<Id>)
    ensures var s' := DispatchAll(s, es, online);
            && s'.batches == s.batches && s'.currentBatch == s.currentBatch && s'.live == s.live && s'.aborted == s.aborted
            && (forall t :: t in s'.pending ==> t in s.pending || t.Write?)
    decreases |es|
  {
    if es == [] {
      assert DispatchAll(s, es, online) == s;
    } else {
      DispatchAllTasks(Dispatch(s, es[0], online), es[1..], online);
    }
  }

  lemma NoPauseStart(waves: seq<seq<Id>>, s: Job, online: set<Id>)
    requires NoPause(waves, s) && !s.aborted && Starting in s.pending
    requires forall k :: 0 <= k < |waves| ==> waves[k] != []
    ensures NoPause(waves, RunWave(Take(s, Starting), online))
  {
    var s0 := Take(s, Starting);
    assert s0.pending == multiset{};
    RunWaveDispatches(s0, online);
    hide RunWave;
    assert CurrentBatch(RunWave(s0, online)) == CurrentBatch(s0);
  }

  lemma NoPauseDecide(cfg: Config, waves: seq<seq<Id>>, s: Job, failures: nat, total: nat, online: set<Id>)
    requires !cfg.waits && NoPause(waves, s) && !s.aborted && Counted(failures, total) in s.pending
    requires forall k :: 0 <= k < |waves| ==> waves[k] != []
    ensures NoPause(waves, Decide(cfg, Take(s, Counted(failures, total)), failures, total, online))
  {
    hide OverThreshold;
    assert Starting !in s.pending;
    var s0 := Take(s, Counted(failures, total));
    var s1 := s0.(currentBatch := s0.currentBatch + 1);
    if !OverThreshold(cfg, failures, total) {
      assert WavesRun(waves, s1);
      if s.live {
        RunWaveDispatches(s1, online);
      }
      hide RunWave;
      assert CurrentBatch(RunWave(s1, online)) == CurrentBatch(s1);
    }
  }

  lemma NoPauseStep(cfg: Config, waves: seq<seq<Id>>, s: Job, step: Step)
    requires cfg.mode.Rolling? && !cfg.waits && NoPause(waves, s) && Enabled(s, step)
    requires forall k :: 0 <= k < |waves| ==> waves[k] != []
    ensures NoPause(waves, Next(cfg, s, step))
  {
    StepFrame(cfg, s, step);
    if s.aborted {
      AbortFreezes(cfg, s, step);
    } else if step.Resume? && step.t.Starting? {
      NoPauseStart(waves, s, step.online);
    } else if step.Resume? && step.t.Counted? {
      NoPauseDecide(cfg, waves, s, step.t.failures, step.t.total, step.online);
    } else {
      NoPauseOther(cfg, waves, s, step);
    }
  }

  lemma NoPauseOther(cfg: Config, waves: seq<seq<Id>>, s: Job, step: Step)
    requires cfg.mode.Rolling? && NoPause(waves, s) && !s.aborted && Enabled(s, step)
    requires step.Resume? ==> !step.t.Starting? && !step.t.Counted?
    ensures NoPause(waves, Next(cfg, s, step))
  {
    var s' := Next(cfg, s, step);
    match step {
      case Commit(t) => CommitPending(s, t);
      case Resume(t, online, sent) => OtherPending(cfg, s, t, online, sent);
      case Report(e, st) =>
      case UserAbort =>
    }
    hide CommitTask, ResumeTask, Abort;
    assert WavesRun(waves, s');
  }

  /** What a step that dispatches no wave may add to the outstanding awaits. */
  ghost predicate NoneLaunched(s: Job, s': Job) {
    && s'.log == s.log && s'.currentBatch == s.currentBatch && s'.batches == s.batches
    && s'.aborted == s.aborted
    && (!s'.live || Completing in s'.pending ==> !s.live || Completing in s.pending)
    && (WaveTimer in s'.pending ==> WaveTimer in s.pending)
    && (Starting in s'.pending ==> Starting in s.pending)
  }

  lemma CommitPending(s: Job, t: Task)
    requires t in s.pending && NeedsCommit(t)
    ensures NoneLaunched(s, CommitTask(s, t))
  {
  }

  lemma OtherPending(cfg: Config, s: Job, t: Task, online: set<Id>, sent: bool)
    requires cfg.mode.Rolling? && t in s.pending && !NeedsCommit(t) && !t.Starting? && !t.Counted? && !t.WaveTimer?
    ensures NoneLaunched(s, ResumeTask(cfg, s, t, online, sent))
  {
    hide RunWave, Fill, Decide, AfterWrite;
    assert forall x :: x in Take(s, t).pending ==> x in s.pending;
    if t.Written? {
      WrittenPending(cfg, Take(s, t), t.e, t.next, online);
    }
  }

  lemma WrittenPending(cfg: Config, s: Job, e: Id, next: Then, online: set<Id>)
    requires cfg.mode.Rolling?
    ensures NoneLaunched(s, AfterWrite(cfg, s, e, next, online))
  {
    hide OnFinished;
    FinishedPending(cfg, s, e, online);
    FinishedPending(cfg, s.(inflight := s.inflight - {e}), e, online);
  }

  lemma FinishedPending(cfg: Config, s: Job, e: Id, online: set<Id>)
    requires cfg.mode.Rolling?
    ensures NoneLaunched(s, OnFinished(cfg, s, e, online))
  {
  }

  lemma {:induction false} NoPauseRun(cfg: Config, waves: seq<seq<Id>>, from: Job, steps: seq<Step>, s: Job)
    requires cfg.mode.Rolling? && !cfg.waits && NoPause(waves, from) && OnceRun(cfg, from, steps, s)
    requires forall k :: 0 <= k < |waves| ==> waves[k] != []
    ensures NoPause(waves, s)
    decreases |steps|
  {
    if steps == [] {
      assert s == from;
    } else {
      NoPauseStep(cfg, waves, from, steps[0]);
      NoPauseRun(cfg, waves, Next(cfg, from, steps[0]), steps[1..], s);
    }
  }

  /** As long as only the last wave is larger than one, the rolling invariant holds until that wave is out;
      and then everything has been dispatched. */
  ghost predicate UpToLast(cfg: Config, ids: seq<Id>, waves: seq<seq<Id>>, s: Job) {
    s.batches == waves && (Inv(cfg, ids, s) || forall e :: e in ids ==> e in s.log)
  }

  /** A step that does not look at which machines are online. */
  lemma UpToLastStep(cfg: Config, ids: seq<Id>, waves: seq<seq<Id>>, s: Job, step: Step)
    requires cfg.mode.Rolling? && cfg.waits && SingleButLast(waves) && UpToLast(cfg, ids, waves, s)
    requires Enabled(s, step) && OnceStep(s, step)
    ensures UpToLast(cfg, ids, waves, Next(cfg, s, step))
  {
    hide Inv, CleanStep;
    StepFrame(cfg, s, step);
    StepGrows(cfg, s, step);
    if !(forall e :: e in ids ==> e in s.log) {
      if CleanStep(s, step) {
        StepRoll(cfg, ids, s, step);
      } else {
        UncleanStep(cfg, ids, waves, s, step);
      }
    }
  }

  lemma UncleanStep(cfg: Config, ids: seq<Id>, waves: seq<seq<Id>>, s: Job, step: Step)
    requires cfg.mode.Rolling? && cfg.waits && SingleButLast(waves) && s.batches == waves && Inv(cfg, ids, s)
    requires Enabled(s, step) && OnceStep(s, step) && !CleanStep(s, step)
    ensures Inv(cfg, ids, Next(cfg, s, step)) || forall e :: e in ids ==> e in Next(cfg, s, step).log
  {
    var t := step.t;
    if t.Sending? {
      UnsentInLast(cfg, ids, waves, s, t.e);
      StepGrows(cfg, s, step);
    } else {
      var all := Resume(t, SetOf(s.batches[NextWave(s, t)]), step.sent);
      assert CleanStep(s, all);
      StepRoll(cfg, ids, s, all);
      if t.Counted? || !s.live || s.aborted {
        OnlineUnused(cfg, s, t, step.online, all.online, step.sent);
      } else {
        LastDispatched(cfg, ids, waves, s, t, step.online, step.sent);
      }
    }
  }

  lemma UnsentInLast(cfg: Config, ids: seq<Id>, waves: seq<seq<Id>>, s: Job, e: Id)
    requires SingleButLast(waves) && s.batches == waves && Inv(cfg, ids, s) && e in s.running && !Sole(s, e)
    ensures forall x :: x in ids ==> x in s.log
  {
    assert Out(s) && e in waves[s.currentBatch];
    if |waves[s.currentBatch]| == 1 {
      SingleIsSole(s, s.currentBatch, e);
    }
    Geometry(ids, s);
    AllWaves(ids, s);
  }

  lemma SingleIsSole(s: Job, k: nat, e: Id)
    requires k < |s.batches| && |s.batches[k]| == 1 && e in s.batches[k]
    ensures Sole(s, e)
  {
    assert s.batches[k] == [e];
  }

  lemma OnlineUnused(cfg: Config, s: Job, t: Task, online: set<Id>, other: set<Id>, sent: bool)
    requires cfg.mode.Rolling? && (t.Starting? || t.WaveTimer? || t.Counted?)
    requires if t.Counted? then cfg.waits else !s.live || s.aborted
    ensures ResumeTask(cfg, s, t, online, sent) == ResumeTask(cfg, s, t, other, sent)
  {
  }

  lemma LastDispatched(cfg: Config, ids: seq<Id>, waves: seq<seq<Id>>, s: Job, t: Task, online: set<Id>, sent: bool)
    requires cfg.mode.Rolling? && SingleButLast(waves) && s.batches == waves && Inv(cfg, ids, s) && s.live && !s.aborted
    requires t in s.pending && (t.Starting? || t.WaveTimer?) && s.currentBatch < |waves| && |waves[s.currentBatch]| > 1
    ensures forall e :: e in ids ==> e in ResumeTask(cfg, s, t, online, sent).log
  {
    assert ControlOk(s, t);
    IdleAtLast(ids, s);
    hide Inv, RunWave, ControlOk;
    RunWaveDispatches(Take(s, t), online);
  }

  lemma IdleAtLast(ids: seq<Id>, s: Job)
    requires Waves(ids, s) && Idle(s) && s.currentBatch + 1 == |s.batches|
    ensures s.log + s.batches[s.currentBatch] == ids
  {
    Geometry(ids, s);
    AllWaves(ids, s);
  }

  lemma {:induction false} UpToLastRun(cfg: Config, ids: seq<Id>, waves: seq<seq<Id>>, from: Job, steps: seq<Step>, s: Job)
    requires cfg.mode.Rolling? && cfg.waits && SingleButLast(waves) && UpToLast(cfg, ids, waves, from)
    requires OnceRun(cfg, from, steps, s)
    ensures UpToLast(cfg, ids, waves, s)
    decreases |steps|
  {
    if steps == [] {
      assert s == from;
    } else {
      UpToLastStep(cfg, ids, waves, from, steps[0]);
      UpToLastRun(cfg, ids, waves, Next(cfg, from, steps[0]), steps[1..], s);
    }
  }

  lemma UpToLastWavesRun(cfg: Config, ids: seq<Id>, waves: seq<seq<Id>>, s: Job)
    requires Flatten(waves) == ids && UpToLast(cfg, ids, waves, s)
    ensures WavesRun(waves, s)
  {
    forall j, e | 0 <= j < s.currentBatch && j < |waves| && e in waves[j] ensures e in s.log {
      if Inv(cfg, ids, s) {
        InFlatten(waves[..s.currentBatch], e);
        assert waves[..s.currentBatch][j] == waves[j];
      } else {
        InFlatten(waves, e);
      }
    }
  }

  /** No wave is ever passed over, exactly if the job does not pause between waves or no wave before the last
      is larger than one. */
  lemma WavesRunExactly(cfg: Config, ids: seq<Id>, waves: seq<seq<Id>>)
    requires RollingJob(cfg, ids, waves)
    ensures (forall steps: seq<Step>, s: Job :: JobRun(cfg, ids, waves, steps, s) && !s.aborted ==> WavesRun(waves, s))
            <==> !cfg.waits || SingleButLast(waves)
  {
    hide OnceRun, WavesRun;
    var s0 := InitialJob(cfg, ids, waves);
    if !cfg.waits {
      forall steps: seq<Step>, s: Job | JobRun(cfg, ids, waves, steps, s) && !s.aborted ensures WavesRun(waves, s) {
        NoPauseInitial(cfg, ids, waves);
        NoPauseRun(cfg, waves, s0, steps, s);
      }
    } else if SingleButLast(waves) {
      forall steps: seq<Step>, s: Job | JobRun(cfg, ids, waves, steps, s) ensures WavesRun(waves, s) {
        ReachableRollStart(cfg, ids, waves);
        UpToLastRun(cfg, ids, waves, s0, steps, s);
        UpToLastWavesRun(cfg, ids, waves, s);
      }
    } else {
      var n :| 0 <= n < |waves| - 1 && |waves[n]| != 1;
      OfflineDropsWave(cfg, ids, waves, n);
    }
  }

  lemma NoPauseInitial(cfg: Config, ids: seq<Id>, waves: seq<seq<Id>>)
    requires cfg.mode.Rolling?
    ensures NoPause(waves, InitialJob(cfg, ids, waves))
  {
  }

  lemma ReachableRollStart(cfg: Config, ids: seq<Id>, waves: seq<seq<Id>>)
    requires RollingJob(cfg, ids, waves)
    ensures UpToLast(cfg, ids, waves, InitialJob(cfg, ids, waves))
  {
    var s0 := InitialJob(cfg, ids, waves);
    assert CleanRun(cfg, s0, [], s0);
    ReachableRoll(cfg, ids, waves, [], s0);
  }
}
