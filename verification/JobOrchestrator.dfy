/** The orchestrator's methods for one job, updating the job's fields in place. Each is proved
    against the step function of JobMachine, so the theorems about runs hold of the object. */
module JobOrchestrator {
  import opened Wrappers
  import opened Chunks
  import opened JobMachine
  import opened JobThreshold

  class Orchestrator {
    const cfg: Config
    var live: bool
    var queue: seq<Id>
    var running: set<Id>
    var batches: seq<seq<Id>>
    var currentBatch: nat
    var aborted: bool
    var timer: bool
    var inflight: set<Id>
    /** The status column of the executions. */
    var db: map<Id, Status>
    /** The awaits the event loop has still to deliver. */
    var pending: multiset<Task>
    ghost var log: seq<Id>
    ghost var completions: nat

    ghost function View(): Job
      reads this
    {
      Job(live, queue, running, batches, currentBatch, aborted, timer, inflight, db, pending, log, completions)
    }

    /** `startJob`: in rolling mode the targets are cut into waves of the computed size. */
    constructor StartJob(cfg: Config, ids: seq<Id>, batchSize: Option<int>, batchPercent: Option<int>)
      requires NoDup(ids)
      ensures this.cfg == cfg
      ensures cfg.mode.Rolling? ==>
                Startable(cfg, ids, batches) && CutsInto(batches, ids, BatchSize(|ids|, batchSize, batchPercent))
      ensures View() == InitialJob(cfg, ids, batches)
    {
      var waves := [];
      if cfg.mode.Rolling? {
        waves := ChunkArray(ids, BatchSize(|ids|, batchSize, batchPercent));
      }
      this.cfg := cfg;
      live := true;
      queue := ids;
      running := {};
      batches := waves;
      currentBatch := 0;
      aborted := false;
      timer := false;
      inflight := {};
      db := map e | e in ids :: Pending;
      pending := multiset{Starting};
      log := [];
      completions := 0;
    }

    method Suspend(t: Task)
      modifies this`pending
      ensures View() == Await(old(View()), t)
    {
      pending := pending + multiset{t};
    }

    method FillParallel(online: set<Id>)
      modifies this
      ensures View() == Fill(cfg, old(View()), online)
    {
      if !live || aborted { return; }
      var limit := Limit(cfg);
      while |running| < limit && queue != []
        invariant live && !aborted
        invariant FillLoop(cfg, View(), online) == FillLoop(cfg, old(View()), online)
        decreases |queue|
      {
        RemoveFirstShorter(queue[1..], queue[0]);
        var e := queue[0];
        queue := queue[1..];
        DispatchExecution(e, online);
      }
      if |running| == 0 && queue == [] {
        CompleteJob();
      }
    }

    method RunRollingBatch(online: set<Id>)
      modifies this
      ensures View() == RunWave(old(View()), online)
    {
      if !live || aborted { return; }
      if currentBatch >= |batches| || batches[currentBatch] == [] {
        CompleteJob();
        return;
      }
      var wave := batches[currentBatch];
      for i := 0 to |wave|
        invariant DispatchAll(View(), wave[i..], online) == DispatchAll(old(View()), wave, online)
      {
        DispatchExecution(wave[i], online);
        assert wave[i..][1..] == wave[i + 1..];
      }
    }

    method DispatchExecution(e: Id, online: set<Id>)
      modifies this
      ensures View() == Dispatch(old(View()), e, online)
    {
      if !live || aborted { return; }
      queue := RemoveFirst(queue, e);
      log := log + [e];
      if e !in online {
        Suspend(Write(e, Failed, ThenFinish));
        return;
      }
      running := running + {e};
      Suspend(Write(e, Running, ThenSend));
    }

    method OnExecutionFinished(e: Id, online: set<Id>)
      modifies this
      ensures View() == OnFinished(cfg, old(View()), e, online)
    {
      if !live { return; }
      running := running - {e};
      if cfg.mode.Rolling? {
        var batch := if currentBatch < |batches| then batches[currentBatch] else [];
        var batchStillRunning := exists x :: x in batch && x in running;
        if !batchStillRunning {
          EvaluateRollingBatch(batch);
        }
      } else {
        FillParallel(online);
      }
    }

    method EvaluateRollingBatch(batch: seq<Id>)
      modifies this
      ensures View() == Evaluate(old(View()), batch)
    {
      if !live || aborted { return; }
      Suspend(Counting(batch));
    }

    method EvaluationCounted(failures: nat, total: nat, online: set<Id>)
      modifies this
      ensures View() == Decide(cfg, old(View()), failures, total, online)
      ensures old(live && !aborted) ==>
                (aborted <==>
                  && cfg.stopOnFailurePercent.Some? && cfg.stopOnFailurePercent.value != 0.0
                  && total > 0 && failures as real * 100.0 > cfg.stopOnFailurePercent.value * total as real)
    {
      hide OverThreshold, Abort, Complete, RunWave;
      ghost var was := View();
      DecideAborts(cfg, was, failures, total, online);
      if OverThreshold(cfg, failures, total) {
        AbortRemaining();
        return;
      }
      currentBatch := currentBatch + 1;
      if currentBatch >= |batches| {
        CompleteJob();
        return;
      }
      if cfg.waits {
        timer := true;
        Suspend(WaveTimer);
      } else {
        RunRollingBatch(online);
      }
    }

    /** The queue and the waves above the current one. */
    function IdsToSkip(): (ids: set<Id>)
      reads this
      ensures ids == PendingIds(View())
    {
      var later := if currentBatch + 1 <= |batches| then Flatten(batches[currentBatch + 1..]) else [];
      (set e | e in queue) + (set e | e in later)
    }

    method AbortRemaining()
      modifies this
      ensures View() == Abort(old(View()))
    {
      if !live { return; }
      var pendingIds := IdsToSkip();
      hide PendingIds;
      ClearWaveTimer();
      aborted := true;
      Suspend(Skipping(pendingIds));
    }

    method ClearWaveTimer()
      modifies this`pending, this`timer
      ensures View() == ClearTimer(old(View()))
    {
      if timer {
        pending := pending - multiset{WaveTimer};
        timer := false;
      }
    }

    method CompleteJob()
      modifies this
      ensures View() == Complete(old(View()))
    {
      if !live { return; }
      completions := completions + 1;
      Suspend(Completing);
    }

    /** The database carries out an outstanding operation. */
    method CommitOperation(t: Task)
      requires t in pending && NeedsCommit(t)
      modifies this
      ensures View() == CommitTask(old(View()), t)
    {
      pending := pending - multiset{t};
      match t {
        case Write(e, st, next) =>
          db := SetStatus(db, e, st);
          Suspend(Written(e, st, next));
        case Counting(batch) =>
          Suspend(Counted(|FailedRows(db, batch)|, |Rows(db, batch)|));
        case Skipping(ids) =>
          db := SkipRows(db, ids);
          Suspend(SkipDone);
      }
    }

    /** The code behind an await goes on. */
    method Continue(t: Task, online: set<Id>, sent: bool)
      requires t in pending && !NeedsCommit(t)
      modifies this
      ensures View() == ResumeTask(cfg, old(View()), t, online, sent)
    {
      pending := pending - multiset{t};
      assert View() == Take(old(View()), t);
      match t {
        case Starting => Start(online);
        case Written(e, _, next) => StatusWritten(e, next, online);
        case Sending(e) => CommandSent(e, sent);
        case Counted(failures, total) => EvaluationCounted(failures, total, online);
        case WaveTimer => RunRollingBatch(online);
        case SkipDone => queue := [];
        case Completing => live := false;
      }
    }

    method CommandSent(e: Id, sent: bool)
      modifies this
      ensures View() == AfterSend(old(View()), e, sent)
    {
      if !sent {
        running := running - {e};
        Suspend(Write(e, Failed, ThenFinish));
      }
    }

    method Start(online: set<Id>)
      modifies this
      ensures View() == if cfg.mode.Rolling? then RunWave(old(View()), online) else Fill(cfg, old(View()), online)
    {
      if cfg.mode.Rolling? {
        RunRollingBatch(online);
      } else {
        FillParallel(online);
      }
    }

    method StatusWritten(e: Id, next: Then, online: set<Id>)
      modifies this
      ensures View() == AfterWrite(cfg, old(View()), e, next, online)
    {
      match next {
        case ThenSend =>
          inflight := inflight + {e};
          Suspend(Sending(e));
        case ThenFinish => OnExecutionFinished(e, online);
        case ThenFinishReported =>
          inflight := inflight - {e};
          OnExecutionFinished(e, online);
      }
    }

    method Perform(step: Step)
      requires Enabled(View(), step)
      modifies this
      ensures View() == Next(cfg, old(View()), step)
    {
      match step {
        case Commit(t) => CommitOperation(t);
        case Resume(t, online, sent) => Continue(t, online, sent);
        case Report(e, st) => Suspend(Write(e, st, ThenFinishReported));
        case UserAbort => AbortRemaining();
      }
    }

    /** Whatever the event loop delivers, the object only ever moves along runs of the machine. */
    method Drive(schedule: seq<Step>) returns (done: seq<Step>)
      modifies this
      ensures Reaches(cfg, old(View()), done, View())
    {
      done := [];
      for i := 0 to |schedule|
        invariant Reaches(cfg, old(View()), done, View())
      {
        var step := schedule[i];
        var possible := match step
          case Commit(t) => t in pending && NeedsCommit(t)
          case Resume(t, _, _) => t in pending && !NeedsCommit(t)
          case Report(e, st) => e in inflight && (st == Success || st == Failed)
          case UserAbort => true;
        if possible {
          ReachesSnoc(cfg, old(View()), done, View(), step);
          Perform(step);
          done := done + [step];
        }
      }
    }
  }
}
