/** Why a rolling job is aborted. Without a user's abort, and under the environment assumption of JobRolling, a
    job that comes to its end was aborted exactly if one of its waves has too many failures. */
module JobThreshold {
  import opened Chunks
  import opened JobMachine
  import opened JobAbort
  import opened JobRolling
  import opened JobExactly

  lemma {:induction false} DispatchAllDb(s: Job, es: seq<Id>, online: set<Id>)
    ensures DispatchAll(s, es, online).db == s.db
    decreases |es|
  {
    if es == [] {
      assert DispatchAll(s, es, online) == s;
    } else {
      DispatchAllDb(Dispatch(s, es[0], online), es[1..], online);
    }
  }

  lemma RunWaveRest(s: Job, online: set<Id>)
    ensures var s' := RunWave(s, online);
            s'.db == s.db && s'.currentBatch == s.currentBatch && s'.aborted == s.aborted
  {
    DispatchAllDb(s, CurrentBatch(s), online);
    DispatchAllTasks(s, CurrentBatch(s), online);
  }

  // --- one evaluation ---

  /** The count that an evaluation is given: the wave's executions in the database, and those that failed. */
  lemma CountedRows(cfg: Config, s: Job, wave: seq<Id>)
    requires Counting(wave) in s.pending && forall e :: e in wave ==> e in s.db
    ensures Next(cfg, s, Commit(Counting(wave))) ==
            s.(pending := s.pending - multiset{Counting(wave)}
                          + multiset{Counted(|set e | e in wave && s.db[e] == Failed|, |set e | e in wave|)})
  {
    assert FailedRows(s.db, wave) == set e | e in wave && s.db[e] == Failed;
    assert Rows(s.db, wave) == set e | e in wave;
  }

  lemma DecideForks(cfg: Config, s: Job, failures: nat, total: nat, online: set<Id>)
    requires s.live && !s.aborted
    ensures var s' := Decide(cfg, s, failures, total, online);
            if OverThreshold(cfg, failures, total) then s'.aborted && s'.currentBatch == s.currentBatch
            else !s'.aborted && s'.currentBatch == s.currentBatch + 1
  {
    var s1 := s.(currentBatch := s.currentBatch + 1);
    AbortSets(s);
    CompleteRest(s1);
    RunWaveRest(s1, online);
    hide RunWave, Abort, Complete, OverThreshold;
  }

  /** An evaluation aborts the job exactly if a threshold is given and the failures exceed that percentage;
      otherwise it makes the next wave the current one. */
  lemma DecideAborts(cfg: Config, s: Job, failures: nat, total: nat, online: set<Id>)
    ensures s.live && !s.aborted ==>
              var s' := Decide(cfg, s, failures, total, online);
              && (s'.aborted <==>
                   && cfg.stopOnFailurePercent.Some? && cfg.stopOnFailurePercent.value != 0.0
                   && total > 0 && failures as real * 100.0 > cfg.stopOnFailurePercent.value * total as real)
              && s'.currentBatch == s.currentBatch + (if s'.aborted then 0 else 1)
  {
    hide Decide;
    if s.live && !s.aborted {
      DecideForks(cfg, s, failures, total, online);
    }
  }

  lemma AbortSets(s: Job)
    ensures s.live ==> Abort(s).aborted && Abort(s).currentBatch == s.currentBatch
  {
    hide PendingIds;
  }

  lemma CompleteRest(s: Job)
    ensures Complete(s).aborted == s.aborted && Complete(s).currentBatch == s.currentBatch
  {
  }

  lemma CountedAborts(cfg: Config, s: Job, failures: nat, total: nat, online: set<Id>, sent: bool)
    requires s.live && !s.aborted && Counted(failures, total) in s.pending
    ensures var s' := Next(cfg, s, Resume(Counted(failures, total), online, sent));
            && (s'.aborted <==>
                 && cfg.stopOnFailurePercent.Some? && cfg.stopOnFailurePercent.value != 0.0
                 && total > 0 && failures as real * 100.0 > cfg.stopOnFailurePercent.value * total as real)
            && s'.currentBatch == s.currentBatch + (if s'.aborted then 0 else 1)
  {
    DecideAborts(cfg, Take(s, Counted(failures, total)), failures, total, online);
    hide Decide;
  }

  // --- every run ---

  predicate Exceeded(cfg: Config, db: map<Id, Status>, wave: seq<Id>) {
    && cfg.stopOnFailurePercent.Some? && cfg.stopOnFailurePercent.value != 0.0
    && |set e | e in wave && e in db && db[e] == Failed| as real * 100.0
       > cfg.stopOnFailurePercent.value * |wave| as real
  }

  /** The same answer from the same statuses. */
  lemma SameExceeded(cfg: Config, db: map<Id, Status>, db': map<Id, Status>, wave: seq<Id>)
    requires db'.Keys == db.Keys && forall e :: e in wave && e in db ==> db'[e] == db[e]
    ensures Exceeded(cfg, db', wave) == Exceeded(cfg, db, wave)
  {
    assert (set e | e in wave && e in db' && db'[e] == Failed) == set e | e in wave && e in db && db[e] == Failed;
  }

  /** On a wave that is out, the test on the counted rows asks about the wave itself. */
  lemma TestMeans(cfg: Config, db: map<Id, Status>, wave: seq<Id>)
    requires NoDup(wave) && wave != [] && forall e :: e in wave ==> e in db
    ensures OverThreshold(cfg, |FailedRows(db, wave)|, |Rows(db, wave)|) <==> Exceeded(cfg, db, wave)
  {
    assert FailedRows(db, wave) == set e | e in wave && e in db && db[e] == Failed;
    assert Rows(db, wave) == SetOf(wave);
    CardOfNoDup(wave);
  }

  /** A dispatched wave whose failures exceed the threshold. */
  ghost predicate Culprit(cfg: Config, s: Job, k: nat) {
    k < |s.batches| && SetOf(s.batches[k]) <= SetOf(s.log) && Exceeded(cfg, s.db, s.batches[k])
  }

  ghost predicate Passed(cfg: Config, s: Job) {
    forall k :: 0 <= k < s.currentBatch && k < |s.batches| ==> !Exceeded(cfg, s.db, s.batches[k])
  }

  ghost predicate Reasoned(cfg: Config, s: Job) {
    if s.aborted then Settled(s) && exists k: nat :: Culprit(cfg, s, k) else Passed(cfg, s)
  }

  lemma DecideDb(cfg: Config, s: Job, failures: nat, total: nat, online: set<Id>)
    ensures Decide(cfg, s, failures, total, online).db == s.db
  {
    RunWaveRest(s.(currentBatch := s.currentBatch + 1), online);
    hide RunWave, OverThreshold, PendingIds;
  }

  lemma WrittenRest(cfg: Config, s: Job, e: Id, next: Then, online: set<Id>)
    requires cfg.mode.Rolling?
    ensures var s' := AfterWrite(cfg, s, e, next, online);
            s'.db == s.db && s'.currentBatch == s.currentBatch && s'.aborted == s.aborted
  {
    hide Fill;
  }

  /** Only an evaluation moves on to another wave or aborts, and only a commit changes the database. */
  lemma StepRest(cfg: Config, s: Job, step: Step)
    requires cfg.mode.Rolling? && Enabled(s, step)
    ensures var s' := Next(cfg, s, step);
            && (!step.Commit? ==> s'.db == s.db)
            && (!step.UserAbort? && !(step.Resume? && step.t.Counted?) ==>
                  s'.currentBatch == s.currentBatch && s'.aborted == s.aborted)
  {
    if step.Resume? {
      var s0 := Take(s, step.t);
      RunWaveRest(s0, step.online);
      if step.t.Written? {
        WrittenRest(cfg, s0, step.t.e, step.t.next, step.online);
      } else if step.t.Counted? {
        DecideDb(cfg, s0, step.t.failures, step.t.total, step.online);
      }
      hide RunWave, Decide, AfterWrite;
    } else {
      hide PendingIds, FailedRows, Rows, SkipRows, SetStatus;
    }
  }

  // --- before an abort ---

  /** A commit in a job that is not aborted leaves the statuses of earlier waves alone. */
  lemma EarlierStatuses(cfg: Config, ids: seq<Id>, s: Job, t: Task, k: nat)
    requires Inv(cfg, ids, s) && !s.aborted && t in s.pending && NeedsCommit(t) && k < s.currentBatch
    ensures var db := CommitTask(s, t).db;
            db.Keys == s.db.Keys && forall e :: e in s.batches[k] && e in s.db ==> db[e] == s.db[e]
  {
    assert TaskOk(ids, s, t);
    if t.Write? {
      assert WriteOk(s, t);
      forall e | e in s.batches[k] ensures e != t.e {
        if e == t.e {
          DistinctWaves(s.batches, k, s.currentBatch, e);
        }
      }
    }
  }

  lemma PassedStays(cfg: Config, ids: seq<Id>, s: Job, step: Step)
    requires Inv(cfg, ids, s) && cfg.mode.Rolling? && Enabled(s, step) && !s.aborted && Passed(cfg, s)
    ensures forall k :: 0 <= k < s.currentBatch ==> !Exceeded(cfg, Next(cfg, s, step).db, s.batches[k])
  {
    StepRest(cfg, s, step);
    hide Inv, Next, Exceeded;
    forall k | 0 <= k < s.currentBatch ensures !Exceeded(cfg, Next(cfg, s, step).db, s.batches[k]) {
      InvShape(cfg, ids, s);
      if step.Commit? {
        NextCommit(cfg, s, step);
        EarlierStatuses(cfg, ids, s, step.t, k);
        SameExceeded(cfg, s.db, CommitTask(s, step.t).db, s.batches[k]);
      }
    }
  }

  lemma InvShape(cfg: Config, ids: seq<Id>, s: Job)
    requires Inv(cfg, ids, s)
    ensures s.currentBatch <= |s.batches|
  {
  }

  lemma NextCommit(cfg: Config, s: Job, step: Step)
    requires Enabled(s, step) && step.Commit?
    ensures Next(cfg, s, step) == CommitTask(s, step.t)
  {
  }

  /** The evaluation of a wave that is out. */
  lemma CountedWave(cfg: Config, ids: seq<Id>, s: Job, failures: nat, total: nat)
    requires Inv(cfg, ids, s) && Counted(failures, total) in s.pending
    ensures Settled(s) && s.live && s.currentBatch < |s.batches|
    ensures SetOf(s.batches[s.currentBatch]) <= SetOf(s.log)
    ensures OverThreshold(cfg, failures, total) <==> Exceeded(cfg, s.db, s.batches[s.currentBatch])
  {
    CountedEvaluated(cfg, ids, s, failures, total);
    assert ControlOk(s, Counted(failures, total));
    Geometry(ids, s);
    forall e | e in s.batches[s.currentBatch] ensures e in s.db {
      assert e in s.log;
    }
    TestMeans(cfg, s.db, s.batches[s.currentBatch]);
  }

  lemma CountedReasoned(cfg: Config, ids: seq<Id>, s: Job, failures: nat, total: nat, online: set<Id>, sent: bool)
    requires Inv(cfg, ids, s) && cfg.mode.Rolling? && Counted(failures, total) in s.pending && !s.aborted
    requires Passed(cfg, s)
    ensures Reasoned(cfg, Next(cfg, s, Resume(Counted(failures, total), online, sent)))
  {
    var step := Resume(Counted(failures, total), online, sent);
    CountedWave(cfg, ids, s, failures, total);
    StepRest(cfg, s, step);
    StepFrame(cfg, s, step);
    CountedNext(cfg, s, failures, total, online, sent);
    hide Inv, Exceeded, Next, OverThreshold, Settled, Passed, Reasoned;
    if OverThreshold(cfg, failures, total) {
      NowCulprit(cfg, s, Next(cfg, s, step));
    } else {
      NowPassed(cfg, s, Next(cfg, s, step));
    }
  }

  lemma CountedNext(cfg: Config, s: Job, failures: nat, total: nat, online: set<Id>, sent: bool)
    requires !s.aborted && s.live && Counted(failures, total) in s.pending && Settled(s)
    ensures var s' := Next(cfg, s, Resume(Counted(failures, total), online, sent));
            if OverThreshold(cfg, failures, total) then s'.aborted && Settled(s') && s'.log == s.log
            else !s'.aborted && s'.currentBatch == s.currentBatch + 1
  {
    CountedAborts(cfg, s, failures, total, online, sent);
    hide PendingIds, RunWave, Complete;
  }

  lemma NowCulprit(cfg: Config, s: Job, s': Job)
    requires s.currentBatch < |s.batches| && Exceeded(cfg, s.db, s.batches[s.currentBatch])
    requires SetOf(s.batches[s.currentBatch]) <= SetOf(s.log)
    requires s'.aborted && Settled(s') && s'.db == s.db && s'.batches == s.batches && s'.log == s.log
    ensures Reasoned(cfg, s')
  {
    hide Exceeded, Settled;
    assert Culprit(cfg, s', s.currentBatch);
  }

  lemma NowPassed(cfg: Config, s: Job, s': Job)
    requires s.currentBatch < |s.batches| && !Exceeded(cfg, s.db, s.batches[s.currentBatch]) && Passed(cfg, s)
    requires !s'.aborted && s'.db == s.db && s'.batches == s.batches && s'.currentBatch == s.currentBatch + 1
    ensures Reasoned(cfg, s')
  {
    hide Exceeded;
  }

  // --- after an abort ---

  /** In a settled job nothing can be reported or written any more, so an abort's reason stays what it was. */
  lemma AbortedSettled(cfg: Config, s: Job, step: Step)
    requires cfg.mode.Rolling? && Enabled(s, step) && CleanStep(s, step) && s.aborted && Settled(s)
    ensures Settled(Next(cfg, s, step))
  {
    AbortFreezes(cfg, s, step);
    hide CommitTask, ResumeTask, Abort;
    match step
    case Commit(t) => CommitSettled(s, t);
    case Resume(t, online, sent) => ResumeSettled(cfg, s, t, online, sent);
    case Report(_, _) =>
    case UserAbort => AbortWrites(s);
  }

  lemma AbortWrites(s: Job)
    requires Settled(s)
    ensures Settled(Abort(s))
  {
    hide PendingIds;
  }

  lemma CommitSettled(s: Job, t: Task)
    requires t in s.pending && NeedsCommit(t) && Settled(s)
    ensures forall x :: x in CommitTask(s, t).pending ==> !IsWrite(x)
  {
    hide FailedRows, Rows, SkipRows;
  }

  lemma ResumeSettled(cfg: Config, s: Job, t: Task, online: set<Id>, sent: bool)
    requires t in s.pending && !NeedsCommit(t) && s.aborted && Settled(s) && (t.Sending? ==> sent)
    requires cfg.mode.Rolling?
    ensures forall x :: x in ResumeTask(cfg, s, t, online, sent).pending ==> !IsWrite(x)
  {
    hide OverThreshold, PendingIds;
  }

  lemma AbortedStatuses(cfg: Config, ids: seq<Id>, s: Job, step: Step)
    requires cfg.mode.Rolling? && Enabled(s, step) && s.aborted && Settled(s) && General(ids, s)
    ensures Next(cfg, s, step).db.Keys == s.db.Keys
    ensures forall e :: e in s.log && e in s.db ==> Next(cfg, s, step).db[e] == s.db[e]
  {
    if step.Commit? {
      assert TaskOk(ids, s, step.t);
    } else {
      StepRest(cfg, s, step);
    }
  }

  lemma AbortedReasoned(cfg: Config, ids: seq<Id>, s: Job, step: Step)
    requires Inv(cfg, ids, s) && cfg.mode.Rolling? && Enabled(s, step) && CleanStep(s, step)
    requires s.aborted && Reasoned(cfg, s)
    ensures Reasoned(cfg, Next(cfg, s, step))
  {
    AbortFreezes(cfg, s, step);
    StepFrame(cfg, s, step);
    AbortedSettled(cfg, s, step);
    AbortedStatuses(cfg, ids, s, step);
    hide Inv, Exceeded, Next, Settled;
    var k: nat :| Culprit(cfg, s, k);
    forall e | e in s.batches[k] ensures e in s.log {
      assert e in SetOf(s.batches[k]);
    }
    SameExceeded(cfg, s.db, Next(cfg, s, step).db, s.batches[k]);
    assert Culprit(cfg, Next(cfg, s, step), k);
  }

  lemma StepReasoned(cfg: Config, ids: seq<Id>, s: Job, step: Step)
    requires Inv(cfg, ids, s) && cfg.mode.Rolling? && Enabled(s, step) && CleanStep(s, step) && !step.UserAbort?
    requires Reasoned(cfg, s)
    ensures Reasoned(cfg, Next(cfg, s, step))
  {
    hide Inv, CleanStep;
    if s.aborted {
      AbortedReasoned(cfg, ids, s, step);
    } else if step.Resume? && step.t.Counted? {
      CountedReasoned(cfg, ids, s, step.t.failures, step.t.total, step.online, step.sent);
    } else {
      StepRest(cfg, s, step);
      StepFrame(cfg, s, step);
      PassedStays(cfg, ids, s, step);
    }
  }

  ghost predicate Unattended(steps: seq<Step>) { forall i :: 0 <= i < |steps| ==> !steps[i].UserAbort? }

  lemma {:induction false} RunReasoned(cfg: Config, ids: seq<Id>, from: Job, steps: seq<Step>, s: Job)
    requires Inv(cfg, ids, from) && cfg.mode.Rolling? && CleanRun(cfg, from, steps, s) && Unattended(steps)
    requires Reasoned(cfg, from)
    ensures Reasoned(cfg, s)
    decreases |steps|
  {
    hide Inv, Reasoned, CleanStep, Enabled, Next;
    if steps == [] {
      assert s == from;
    } else {
      StepRoll(cfg, ids, from, steps[0]);
      StepReasoned(cfg, ids, from, steps[0]);
      RunReasoned(cfg, ids, Next(cfg, from, steps[0]), steps[1..], s);
    }
  }

  lemma ReachableReasoned(cfg: Config, ids: seq<Id>, waves: seq<seq<Id>>, steps: seq<Step>, s: Job)
    requires RollingRun(cfg, ids, waves, steps, s) && Unattended(steps)
    ensures Reasoned(cfg, s) && s.batches == waves
  {
    var s0 := InitialJob(cfg, ids, waves);
    assert CleanRun(cfg, s0, [], s0);
    ReachableRoll(cfg, ids, waves, [], s0);
    ReachableRoll(cfg, ids, waves, steps, s);
    RunReasoned(cfg, ids, s0, steps, s);
  }

  /** An abort has a reason: some dispatched wave has more failures than the threshold allows. */
  lemma AbortHasReason(cfg: Config, ids: seq<Id>, waves: seq<seq<Id>>, steps: seq<Step>, s: Job)
    requires RollingRun(cfg, ids, waves, steps, s) && Unattended(steps) && s.aborted
    ensures exists k: nat :: k < |waves| && Exceeded(cfg, s.db, waves[k]) && forall e :: e in waves[k] ==> e in s.log
  {
    ReachableReasoned(cfg, ids, waves, steps, s);
    var k: nat :| Culprit(cfg, s, k);
    forall e | e in waves[k] ensures e in s.log {
      assert e in SetOf(waves[k]);
    }
  }

  /** A job that has been aborted or completed was aborted exactly if a wave exceeds the threshold. */
  lemma AbortedExactly(cfg: Config, ids: seq<Id>, waves: seq<seq<Id>>, steps: seq<Step>, s: Job)
    requires RollingRun(cfg, ids, waves, steps, s) && Unattended(steps)
    requires s.aborted || s.completions > 0
    ensures s.aborted <==> exists k :: 0 <= k < |waves| && Exceeded(cfg, s.db, waves[k])
  {
    ReachableReasoned(cfg, ids, waves, steps, s);
    ReachableRoll(cfg, ids, waves, steps, s);
    if s.completions > 0 {
      CompletedAll(cfg, ids, s);
    }
    hide Inv, RollingRun, Exceeded;
    if s.aborted {
      var k: nat :| Culprit(cfg, s, k);
      assert Exceeded(cfg, s.db, waves[k]);
    }
  }

  lemma CompletedAll(cfg: Config, ids: seq<Id>, s: Job)
    requires Inv(cfg, ids, s) && s.completions > 0
    ensures s.currentBatch == |s.batches|
  {
  }
}
